/** Generic collections the record store is built from: an insertion-ordered
    keyed table (the behaviour of a JavaScript `Map`), order-preserving
    filtering, counting, and the stable sort that `Array.prototype.sort`
    performs with a numeric comparator. */
module Tables {

  datatype Option<T> = None | Some(value: T)

  /** A keyed table that remembers the order in which keys were first inserted.
      Re-setting an existing key replaces its value and keeps its position,
      exactly as `Map.prototype.set` does. */
  datatype Table<K(==,!new), V> = Table(keys: seq<K>, entries: map<K, V>)
  {
    /** Every key is listed once, and the listed keys are exactly the keys
        that hold a value. Every table the store builds satisfies this
        (`EmptyTable`, `SetValid`). */
    ghost predicate Valid() {
      && NoDuplicates(keys)
      && (forall k :: k in entries <==> k in keys)
    }

    function Get(k: K): (r: Option<V>)
      ensures r.Some? <==> k in entries
      ensures r.Some? ==> r.value == entries[k]
    {
      if k in entries then Some(entries[k]) else None
    }

    function Set(k: K, v: V): (t: Table<K, V>)
      ensures t.entries == entries[k := v]
      ensures k in entries ==> t.keys == keys
      ensures k !in entries ==> t.keys == keys + [k]
    {
      if k in entries then Table(keys, entries[k := v]) else Table(keys + [k], entries[k := v])
    }

    /** The values in insertion order: `Array.from(map.values())`. */
    function Values(): (vs: seq<V>)
      ensures |vs| <= |keys|
    {
      Lookup(keys, entries)
    }
  }

  /** The values stored under `ks`, in the order of `ks`. */
  function Lookup<K, V>(ks: seq<K>, m: map<K, V>): (vs: seq<V>)
    ensures |vs| <= |ks|
  {
    if ks == [] then []
    else
      var last := ks[|ks| - 1];
      Lookup(ks[..|ks| - 1], m) + (if last in m then [m[last]] else [])
  }

  /** No element occurs twice. */
  ghost predicate NoDuplicates<T>(s: seq<T>)
    decreases |s|
  {
    s == [] || (s[|s| - 1] !in s[..|s| - 1] && NoDuplicates(s[..|s| - 1]))
  }

  function EmptyTable<K(==,!new), V>(): (t: Table<K, V>)
    ensures t.Valid() && t.entries == map[] && t.keys == []
  {
    Table([], map[])
  }

  /** Setting a key keeps a table well formed. */
  lemma SetValid<K(!new), V>(t: Table<K, V>, k: K, v: V)
    requires t.Valid()
    ensures t.Set(k, v).Valid()
  {
    if k !in t.entries {
      assert (t.keys + [k])[..|t.keys|] == t.keys;
    }
  }

  /** When every key has a value, the lookup lists one value per key. */
  lemma {:induction false} LookupAll<K, V>(ks: seq<K>, m: map<K, V>)
    requires forall k :: k in ks ==> k in m
    ensures |Lookup(ks, m)| == |ks|
    ensures forall i :: 0 <= i < |ks| ==> Lookup(ks, m)[i] == m[ks[i]]
  {
    if ks != [] {
      var init := ks[..|ks| - 1];
      assert forall k :: k in init ==> k in ks;
      LookupAll(init, m);
    }
  }

  /** The values of a well-formed table, position by position. */
  lemma ValuesInKeyOrder<K(!new), V>(t: Table<K, V>)
    requires t.Valid()
    ensures |t.Values()| == |t.keys|
    ensures forall i :: 0 <= i < |t.keys| ==> t.Values()[i] == t.entries[t.keys[i]]
  {
    LookupAll(t.keys, t.entries);
  }

  /** Setting a key that is new appends its value at the end of `Values()`;
      setting a key already present keeps the number of values. */
  lemma ValuesAfterSet<K(!new), V>(t: Table<K, V>, k: K, v: V)
    requires t.Valid()
    ensures k !in t.entries ==> t.Set(k, v).Values() == t.Values() + [v]
    ensures k in t.entries ==> |t.Set(k, v).Values()| == |t.Values()|
  {
    if k !in t.entries {
      assert (t.keys + [k])[..|t.keys|] == t.keys;
      LookupOtherKey(t.keys, t.entries, k, v);
    } else {
      LookupSameKeys(t.keys, t.entries, k, v);
    }
  }

  /** Setting a key not among `ks` does not change their lookup. */
  lemma {:induction false} LookupOtherKey<K, V>(ks: seq<K>, m: map<K, V>, k: K, v: V)
    requires k !in ks
    ensures Lookup(ks, m[k := v]) == Lookup(ks, m)
  {
    if ks != [] {
      LookupOtherKey(ks[..|ks| - 1], m, k, v);
    }
  }

  /** Replacing the value of a present key keeps the number of values. */
  lemma {:induction false} LookupSameKeys<K, V>(ks: seq<K>, m: map<K, V>, k: K, v: V)
    requires k in m
    ensures |Lookup(ks, m[k := v])| == |Lookup(ks, m)|
  {
    if ks != [] {
      LookupSameKeys(ks[..|ks| - 1], m, k, v);
    }
  }

  /** Every key is below `next`: the next id handed out is unused. */
  ghost predicate FreshTable<V>(t: Table<int, V>, next: int) {
    t.Valid() && forall k :: k in t.entries ==> k < next
  }

  /** Storing under the next id of a fresh table appends the value and keeps
      the table fresh for the following id. */
  lemma AppendFresh<V>(t: Table<int, V>, next: int, v: V)
    requires FreshTable(t, next)
    ensures FreshTable(t.Set(next, v), next + 1)
    ensures t.Set(next, v).Values() == t.Values() + [v]
    ensures t.Set(next, v).keys == t.keys + [next]
  {
    ValuesAfterSet(t, next, v);
  }

  /** Keeps the elements satisfying `p`, in their original order. */
  function Filter<T>(s: seq<T>, p: T -> bool): (r: seq<T>)
    ensures |r| <= |s|
    ensures forall x :: x in r ==> x in s && p(x)
    ensures forall i :: 0 <= i < |s| && p(s[i]) ==> s[i] in r
  {
    if s == [] then [] else (if p(s[0]) then [s[0]] else []) + Filter(s[1..], p)
  }

  lemma {:induction false} FilterAppend<T>(s: seq<T>, t: seq<T>, p: T -> bool)
    ensures Filter(s + t, p) == Filter(s, p) + Filter(t, p)
  {
    if s == [] {
      assert s + t == t;
    } else {
      assert (s + t)[1..] == s[1..] + t;
      FilterAppend(s[1..], t, p);
    }
  }

  /** `r` can be obtained from `s` by deleting elements: the order of what is
      kept is the order of `s`. */
  ghost predicate IsSubsequence<T>(r: seq<T>, s: seq<T>)
    decreases |s|
  {
    if r == [] then true
    else if s == [] then false
    else if r[0] == s[0] then IsSubsequence(r[1..], s[1..])
    else IsSubsequence(r, s[1..])
  }

  lemma {:induction false} FilterIsSubsequence<T>(s: seq<T>, p: T -> bool)
    ensures IsSubsequence(Filter(s, p), s)
  {
    if s != [] {
      FilterIsSubsequence(s[1..], p);
      if p(s[0]) {
        assert Filter(s, p) == [s[0]] + Filter(s[1..], p);
      } else {
        assert Filter(s, p) == Filter(s[1..], p);
        SubsequenceSkip(Filter(s, p), s);
      }
    }
  }

  lemma {:induction false} SubsequenceSkip<T>(r: seq<T>, s: seq<T>)
    requires s != [] && IsSubsequence(r, s[1..])
    ensures IsSubsequence(r, s)
    decreases |s|, 0
  {
    if r != [] && r[0] == s[0] {
      DropFirstStillSubsequence(r, s[1..]);
    }
  }

  lemma {:induction false} DropFirstStillSubsequence<T>(r: seq<T>, s: seq<T>)
    requires r != [] && IsSubsequence(r, s)
    ensures IsSubsequence(r[1..], s)
    decreases |s|, 1
  {
    if r[0] != s[0] {
      DropFirstStillSubsequence(r, s[1..]);
    }
    if r[1..] != [] {
      SubsequenceSkip(r[1..], s);
    }
  }

  /** How many elements satisfy `p`: `s.filter(p).length`. */
  function Count<T>(s: seq<T>, p: T -> bool): (n: nat)
    ensures n <= |s|
  {
    |Filter(s, p)|
  }

  /** Filtering keeps every occurrence of an element that passes and none of
      one that fails. */
  lemma {:induction false} FilterMultiplicity<T>(s: seq<T>, p: T -> bool, x: T)
    ensures multiset(Filter(s, p))[x] == if p(x) then multiset(s)[x] else 0
  {
    if s != [] {
      FilterMultiplicity(s[1..], p, x);
      assert s == [s[0]] + s[1..];
    }
  }

  /** Counting over disjoint predicates never exceeds counting over a
      predicate that each of them implies. */
  lemma {:induction false} CountDisjointSum<T>(s: seq<T>, p: T -> bool, q: T -> bool, u: T -> bool)
    requires forall x :: p(x) ==> !q(x)
    requires forall x :: p(x) || q(x) ==> u(x)
    ensures Count(s, p) + Count(s, q) <= Count(s, u)
  {
    if s != [] {
      CountDisjointSum(s[1..], p, q, u);
    }
  }

  /** Two sequences with the same multiset have the same elements. */
  lemma SameElements<T>(r: seq<T>, s: seq<T>)
    requires multiset(r) == multiset(s)
    ensures forall x :: x in r <==> x in s
  {
    forall x ensures x in r <==> x in s {
      assert x in r <==> x in multiset(r);
      assert x in s <==> x in multiset(s);
    }
  }

  /** Counting splits exactly over a predicate and its complement. */
  lemma {:induction false} CountSplit<T>(s: seq<T>, u: T -> bool, p: T -> bool, q: T -> bool)
    requires forall x :: p(x) <==> u(x) && q(x)
    ensures Count(s, u) == Count(s, p) + Count(s, x => u(x) && !q(x))
  {
    if s != [] {
      CountSplit(s[1..], u, p, q);
    }
  }

  /** Ascending order of `key` over `s`. */
  ghost predicate SortedBy<T>(s: seq<T>, key: T -> int) {
    forall i, j :: 0 <= i < j < |s| ==> key(s[i]) <= key(s[j])
  }

  /** The elements of `s` whose key is `k`, in their order in `s`. */
  function WithKey<T>(s: seq<T>, key: T -> int, k: int): seq<T> {
    if s == [] then [] else (if key(s[0]) == k then [s[0]] else []) + WithKey(s[1..], key, k)
  }

  lemma {:induction false} WithKeyAppend<T>(s: seq<T>, t: seq<T>, key: T -> int, k: int)
    ensures WithKey(s + t, key, k) == WithKey(s, key, k) + WithKey(t, key, k)
  {
    if s == [] {
      assert s + t == t;
    } else {
      var head, rest, tail := if key(s[0]) == k then [s[0]] else [], WithKey(s[1..], key, k), WithKey(t, key, k);
      assert head + (rest + tail) == (head + rest) + tail;
      assert (s + t)[1..] == s[1..] + t;
      WithKeyAppend(s[1..], t, key, k);
    }
  }

  /** Inserts `x` after every element whose key is not greater than its own. */
  function Insert<T>(x: T, s: seq<T>, key: T -> int): (r: seq<T>)
    ensures multiset(r) == multiset(s) + multiset{x}
    ensures |r| == |s| + 1
  {
    if s == [] then [x]
    else if key(x) < key(s[0]) then [x] + s
    else
      assert s == [s[0]] + s[1..];
      [s[0]] + Insert(x, s[1..], key)
  }

  /** A stable ascending sort by `key` (insertion sort, the later element of
      an equal-keyed pair is placed after the earlier one). */
  function SortBy<T>(s: seq<T>, key: T -> int): (r: seq<T>)
    ensures multiset(r) == multiset(s)
    ensures |r| == |s|
  {
    if s == [] then []
    else
      assert s == s[..|s| - 1] + [s[|s| - 1]];
      Insert(s[|s| - 1], SortBy(s[..|s| - 1], key), key)
  }

  lemma {:induction false} InsertSorted<T>(x: T, s: seq<T>, key: T -> int)
    requires SortedBy(s, key)
    ensures SortedBy(Insert(x, s, key), key)
  {
    if s != [] && key(s[0]) <= key(x) {
      InsertSorted(x, s[1..], key);
      var t := Insert(x, s, key)[1..];
      forall j | 0 <= j < |t| ensures key(s[0]) <= key(t[j]) {
        assert t[j] in multiset(s[1..]) + multiset{x};
        if t[j] != x {
          assert t[j] in s[1..];
        }
      }
    }
  }

  lemma {:induction false} InsertWithKey<T>(x: T, s: seq<T>, key: T -> int, k: int)
    requires SortedBy(s, key)
    ensures WithKey(Insert(x, s, key), key, k) == WithKey(s, key, k) + (if key(x) == k then [x] else [])
  {
    if s == [] {
    } else if key(x) < key(s[0]) {
      InsertFrontWithKey(x, s, key, k);
    } else {
      InsertWithKey(x, s[1..], key, k);
      InsertLaterWithKey(x, s, key, k);
    }
  }

  /** `x` goes in front of a sorted list whose keys all exceed its own. */
  lemma InsertFrontWithKey<T>(x: T, s: seq<T>, key: T -> int, k: int)
    requires SortedBy(s, key) && s != [] && key(x) < key(s[0])
    ensures WithKey(Insert(x, s, key), key, k) == WithKey(s, key, k) + (if key(x) == k then [x] else [])
  {
    var r := Insert(x, s, key);
    assert r[1..] == s;
    if key(x) == k {
      NoneWithSmallerKey(s, key, k);
    }
  }

  /** `x` goes after the head of the list: the head's contribution is kept. */
  lemma InsertLaterWithKey<T>(x: T, s: seq<T>, key: T -> int, k: int)
    requires s != [] && key(s[0]) <= key(x)
    requires WithKey(Insert(x, s[1..], key), key, k) == WithKey(s[1..], key, k) + (if key(x) == k then [x] else [])
    ensures WithKey(Insert(x, s, key), key, k) == WithKey(s, key, k) + (if key(x) == k then [x] else [])
  {
    var r, t := Insert(x, s, key), Insert(x, s[1..], key);
    var head := if key(s[0]) == k then [s[0]] else [];
    var rest, mine := WithKey(s[1..], key, k), if key(x) == k then [x] else [];
    AppendAssoc(head, rest, mine);
    assert r[1..] == t;
    assert WithKey(r, key, k) == head + WithKey(t, key, k);
    assert WithKey(s, key, k) == head + rest;
  }

  lemma AppendAssoc<T>(a: seq<T>, b: seq<T>, c: seq<T>)
    ensures a + (b + c) == (a + b) + c
  {
  }

  lemma {:induction false} NoneWithSmallerKey<T>(s: seq<T>, key: T -> int, k: int)
    requires SortedBy(s, key)
    requires s != [] && k < key(s[0])
    ensures WithKey(s, key, k) == []
  {
    if |s| > 1 {
      assert key(s[0]) <= key(s[1]);
      NoneWithSmallerKey(s[1..], key, k);
    }
  }

  /** `r` is `s` sorted by `key`, equal keys keeping their order in `s`. */
  ghost predicate StableSortOf<T>(r: seq<T>, s: seq<T>, key: T -> int) {
    && SortedBy(r, key)
    && multiset(r) == multiset(s)
    && forall k :: WithKey(r, key, k) == WithKey(s, key, k)
  }

  /** `SortBy` returns a sorted permutation of its input in which elements
      with equal keys keep their input order; these three facts determine
      the result uniquely. */
  lemma {:induction false} SortByCorrect<T>(s: seq<T>, key: T -> int)
    ensures StableSortOf(SortBy(s, key), s, key)
  {
    SortBySorted(s, key);
    forall k ensures WithKey(SortBy(s, key), key, k) == WithKey(s, key, k) {
      SortByKeepsKeyOrder(s, key, k);
    }
  }

  lemma {:induction false} SortBySorted<T>(s: seq<T>, key: T -> int)
    ensures SortedBy(SortBy(s, key), key)
  {
    if s != [] {
      SortBySorted(s[..|s| - 1], key);
      InsertSorted(s[|s| - 1], SortBy(s[..|s| - 1], key), key);
    }
  }

  lemma {:induction false} SortByKeepsKeyOrder<T>(s: seq<T>, key: T -> int, k: int)
    ensures WithKey(SortBy(s, key), key, k) == WithKey(s, key, k)
  {
    if s != [] {
      var init, last := s[..|s| - 1], s[|s| - 1];
      assert s == init + [last];
      var mine := if key(last) == k then [last] else [];
      SortByKeepsKeyOrder(init, key, k);
      SortBySorted(init, key);
      InsertWithKey(last, SortBy(init, key), key, k);
      assert WithKey(SortBy(s, key), key, k) == WithKey(init, key, k) + mine;
      WithKeyAppend(init, [last], key, k);
      assert WithKey([last], key, k) == mine;
    }
  }
}
