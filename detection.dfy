/** The rule engine of the record store: the action record `createAgentAction`
    stores, the three threat rules of `detectThreats`, and the bookkeeping of
    `createThreatDetection` and `escalateThreat` (a threat is stored under the
    next threat id; a critical one also stores an escalation under the next
    escalation id). */
module Detection {
  import opened Tables
  import opened Text
  import opened Schema
  import opened Risk
  import opened Escalations

  /** The insert fields of a stored action. */
  function ActionInsertOf(a: AgentAction): InsertAgentAction {
    InsertAgentAction(a.sessionId, a.agentId, a.actionType, a.targetAgent, a.payload)
  }

  /** The record `createAgentAction` stores under `id` at time `now`: the
      score is always the scorer's, never the caller's. */
  function NewAgentAction(input: InsertAgentAction, id: int, now: int): (a: AgentAction)
    ensures a.id == id && a.timestamp == now && !a.flagged
    ensures a.riskScore == CalculateRiskScore(input) && 0 <= a.riskScore <= 100
    ensures ActionInsertOf(a) == input
  {
    AgentAction(id, input.sessionId, input.agentId, input.actionType, input.targetAgent, input.payload,
                now, CalculateRiskScore(input), false)
  }

  /** The insert fields of a stored threat. */
  function ThreatInsertOf(t: ThreatDetection): InsertThreatDetection {
    InsertThreatDetection(t.sessionId, t.threatType, t.severity, t.description, t.evidence, t.judgeModelId, t.confidence)
  }

  /** The record `createThreatDetection` stores under `id` at time `now`. */
  function NewThreat(input: InsertThreatDetection, id: int, now: int): (t: ThreatDetection)
    ensures t.id == id && t.detectedAt == now && !t.mitigated
    ensures ThreatInsertOf(t) == input
  {
    ThreatDetection(id, input.sessionId, input.threatType, input.severity, input.description,
                    input.evidence, now, input.judgeModelId, input.confidence, false)
  }

  /** The collusion window of action `a`: the stored actions of the same
      session, by the actor or the target, younger than five minutes. */
  predicate InWindow(a: AgentAction, now: int, b: AgentAction) {
    && b.sessionId == a.sessionId
    && (b.agentId == a.agentId || a.targetAgent == Some(b.agentId))
    && now - b.timestamp < 300000
  }

  function CollusionWindow(actions: seq<AgentAction>, a: AgentAction, now: int): (w: seq<AgentAction>)
    ensures |w| <= |actions|
    ensures forall b :: b in w <==> b in actions && InWindow(a, now, b)
  {
    Filter(actions, b => InWindow(a, now, b))
  }

  /** A message with a target, by an actor with more than five actions in
      the window. */
  predicate CollusionFires(actions: seq<AgentAction>, a: AgentAction, now: int) {
    Truthy(a.targetAgent) && a.actionType == "message" && |CollusionWindow(actions, a, now)| > 5
  }

  predicate MisalignmentFires(a: AgentAction) {
    a.actionType == "delegation" && a.riskScore > 60
  }

  predicate BoundaryFires(a: AgentAction) {
    AmountOver(a.payload, 5000)
  }

  function IdList(s: seq<AgentAction>): (r: seq<Json>)
    ensures |r| == |s| && forall i :: 0 <= i < |s| ==> r[i] == JNum(s[i].id)
  {
    seq(|s|, i requires 0 <= i < |s| => JNum(s[i].id))
  }

  const JudgeModel := "judge-v1"
  const CollusionDescription :=
    "Detected suspicious " + "inter-agent communication " + "pattern suggesting " + "potential collusion"
  const MisalignmentDescription :=
    "Agent delegation may " + "violate principal intent " + "or authority boundaries"
  const BoundaryDescription :=
    "Agent attempting to " + "exceed financial " + "authority limits"

  function CollusionThreat(a: AgentAction, window: seq<AgentAction>): InsertThreatDetection {
    InsertThreatDetection(
      a.sessionId, "collusion", "high",
      CollusionDescription,
      JObj([("actions", JArr(IdList(window))), ("pattern", JStr("excessive_messaging"))]),
      JudgeModel, 85)
  }

  function MisalignmentThreat(a: AgentAction): InsertThreatDetection {
    InsertThreatDetection(
      a.sessionId, "misalignment", "medium",
      MisalignmentDescription,
      JObj([("actionId", JNum(a.id)), ("riskScore", JNum(a.riskScore))]),
      JudgeModel, 70)
  }

  function BoundaryThreat(a: AgentAction): InsertThreatDetection
    requires Truthy(a.payload.amount)
  {
    InsertThreatDetection(
      a.sessionId, "boundary_violation", "critical",
      BoundaryDescription,
      JObj([("actionId", JNum(a.id)), ("amount", JStr(a.payload.amount.value)), ("limit", JStr("$5,000"))]),
      JudgeModel, 95)
  }

  /** The threats `detectThreats` creates for action `a`, in the order it
      creates them, given the stored actions (which already include `a`). */
  function DetectedThreats(actions: seq<AgentAction>, a: AgentAction, now: int): (ts: seq<InsertThreatDetection>)
    ensures |ts| <= 3
    ensures forall t :: t in ts ==>
      && t.sessionId == a.sessionId && t.threatType in ThreatTypes && t.severity in Severities
      && 0 <= t.confidence <= 100 && t.judgeModelId == JudgeModel
  {
    Opt(CollusionFires(actions, a, now), CollusionThreat(a, CollusionWindow(actions, a, now)))
    + Opt(MisalignmentFires(a), MisalignmentThreat(a))
    + (if BoundaryFires(a) then [BoundaryThreat(a)] else [])
  }

  /** The one-element list when `fires`, the empty one otherwise. */
  function Opt<T>(fires: bool, x: T): (r: seq<T>)
    ensures |r| <= 1
  {
    if fires then [x] else []
  }

  predicate IsCritical(t: InsertThreatDetection) {
    t.severity == "critical"
  }

  /** The threats of one type, in order: `ts.filter(t => t.threatType === ty)`. */
  function OfType(ts: seq<InsertThreatDetection>, threatType: string): seq<InsertThreatDetection> {
    if ts == [] then []
    else (if ts[0].threatType == threatType then [ts[0]] else []) + OfType(ts[1..], threatType)
  }

  /** Each rule creates at most one threat of its own type, exactly when it
      fires, and only the boundary rule creates a critical one. */
  lemma DetectedThreatsByRule(actions: seq<AgentAction>, a: AgentAction, now: int)
    ensures OfType(DetectedThreats(actions, a, now), "collusion")
      == Opt(CollusionFires(actions, a, now), CollusionThreat(a, CollusionWindow(actions, a, now)))
    ensures OfType(DetectedThreats(actions, a, now), "misalignment") == Opt(MisalignmentFires(a), MisalignmentThreat(a))
    ensures OfType(DetectedThreats(actions, a, now), "boundary_violation")
      == if BoundaryFires(a) then [BoundaryThreat(a)] else []
    ensures Count(DetectedThreats(actions, a, now), IsCritical) == if BoundaryFires(a) then 1 else 0
  {
    var c := Opt(CollusionFires(actions, a, now), CollusionThreat(a, CollusionWindow(actions, a, now)));
    var m := Opt(MisalignmentFires(a), MisalignmentThreat(a));
    var b := if BoundaryFires(a) then [BoundaryThreat(a)] else [];
    assert DetectedThreats(actions, a, now) == c + m + b;
    ThreeRules(c, m, b, "collusion", "misalignment", "boundary_violation");
  }

  /** Recording the threats an action raises escalates exactly once when
      its amount is over $5,000 and never otherwise. */
  lemma ActionEscalatesOnlyOverLimit(l: Ledger, actions: seq<AgentAction>, a: AgentAction, now: int)
    ensures |ThreatEscalations(l, DetectedThreats(actions, a, now), now)| == if BoundaryFires(a) then 1 else 0
  {
    DetectedThreatsByRule(actions, a, now);
  }

  /** The rule lists split by threat type, given that each holds only
      threats of its own type and only the last may be critical. */
  lemma ThreeRules(c: seq<InsertThreatDetection>, m: seq<InsertThreatDetection>, b: seq<InsertThreatDetection>,
                   cType: string, mType: string, bType: string)
    requires |c| <= 1 && |m| <= 1 && |b| <= 1
    requires cType != mType && mType != bType && cType != bType
    requires forall t :: t in c ==> t.threatType == cType && !IsCritical(t)
    requires forall t :: t in m ==> t.threatType == mType && !IsCritical(t)
    requires forall t :: t in b ==> t.threatType == bType && IsCritical(t)
    ensures OfType(c + m + b, cType) == c && OfType(c + m + b, mType) == m && OfType(c + m + b, bType) == b
    ensures Count(c + m + b, IsCritical) == |b|
  {
    OneRuleOfType(c, m, b, cType, cType, mType, bType);
    OneRuleOfType(c, m, b, mType, cType, mType, bType);
    OneRuleOfType(c, m, b, bType, cType, mType, bType);
    OnlyLastCritical(c, m, b);
  }

  lemma OnlyLastCritical(c: seq<InsertThreatDetection>, m: seq<InsertThreatDetection>, b: seq<InsertThreatDetection>)
    requires |c| <= 1 && |m| <= 1 && |b| <= 1
    requires forall t :: t in c + m ==> !IsCritical(t)
    requires forall t :: t in b ==> IsCritical(t)
    ensures Count(c + m + b, IsCritical) == |b|
  {
    FilterAppend(c + m, b, IsCritical);
    FilterAppend(c, m, IsCritical);
    SmallFilter(c, IsCritical);
    SmallFilter(m, IsCritical);
    SmallFilter(b, IsCritical);
  }

  /** Filtering the three rule lists by one type keeps the lists of that
      type and empties the others. */
  lemma OneRuleOfType(c: seq<InsertThreatDetection>, m: seq<InsertThreatDetection>, b: seq<InsertThreatDetection>,
                      ty: string, cType: string, mType: string, bType: string)
    requires |c| <= 1 && |m| <= 1 && |b| <= 1
    requires forall t :: t in c ==> t.threatType == cType
    requires forall t :: t in m ==> t.threatType == mType
    requires forall t :: t in b ==> t.threatType == bType
    ensures OfType(c + m + b, ty) == (if cType == ty then c else []) + (if mType == ty then m else []) + (if bType == ty then b else [])
  {
    OfTypeAppend(c + m, b, ty);
    OfTypeAppend(c, m, ty);
    SmallOfType(c, ty);
    SmallOfType(m, ty);
    SmallOfType(b, ty);
  }

  lemma SmallOfType(x: seq<InsertThreatDetection>, ty: string)
    requires |x| <= 1
    ensures OfType(x, ty) == if x != [] && x[0].threatType == ty then x else []
  {
    if x != [] {
      assert x[1..] == [];
    }
  }

  lemma SmallFilter<T>(x: seq<T>, p: T -> bool)
    requires |x| <= 1
    ensures Filter(x, p) == if x != [] && p(x[0]) then x else []
  {
    if x != [] {
      assert x[1..] == [];
    }
  }

  lemma {:induction false} OfTypeAppend(s: seq<InsertThreatDetection>, t: seq<InsertThreatDetection>, ty: string)
    ensures OfType(s + t, ty) == OfType(s, ty) + OfType(t, ty)
  {
    if s == [] {
      assert s + t == t;
    } else {
      var head, rest, tail := if s[0].threatType == ty then [s[0]] else [], OfType(s[1..], ty), OfType(t, ty);
      assert head + (rest + tail) == (head + rest) + tail;
      assert (s + t)[1..] == s[1..] + t;
      OfTypeAppend(s[1..], t, ty);
    }
  }

  /** Every delegation the store records raises exactly one misalignment
      threat (severity medium, confidence 70), because its score is at least
      80. */
  lemma EveryDelegationMisaligned(actions: seq<AgentAction>, input: InsertAgentAction, id: int, now: int)
    requires input.actionType == "delegation"
    ensures var a := NewAgentAction(input, id, now);
      OfType(DetectedThreats(actions, a, now), "misalignment") == [MisalignmentThreat(a)]
      && MisalignmentThreat(a).severity == "medium" && MisalignmentThreat(a).confidence == 70
  {
    DelegationScoresAtLeast80(input);
    DetectedThreatsByRule(actions, NewAgentAction(input, id, now), now);
  }

  /** The action just stored (time-stamped `now`) is counted in its own
      window, and the window lists stored actions of the same session in
      storage order. */
  lemma WindowHoldsOwnAction(actions: seq<AgentAction>, a: AgentAction, now: int)
    requires a in actions && a.timestamp == now
    ensures a in CollusionWindow(actions, a, now)
    ensures IsSubsequence(CollusionWindow(actions, a, now), actions)
  {
    FilterIsSubsequence(actions, b => InWindow(a, now, b));
  }

  /** The store's threat and escalation tables with their id counters: the
      state the `createThreatDetection` / `escalateThreat` chain touches. */
  datatype Ledger = Ledger(
    threats: Table<int, ThreatDetection>,
    nextThreatId: int,
    escalations: Table<int, Escalation>,
    nextEscalationId: int)

  ghost predicate LedgerValid(l: Ledger) {
    l.threats.Valid() && l.escalations.Valid()
  }

  /** Every stored id is below its counter, so the next id is unused. */
  ghost predicate LedgerFresh(l: Ledger) {
    FreshTable(l.threats, l.nextThreatId) && FreshTable(l.escalations, l.nextEscalationId)
  }

  /** `createThreatDetection(t)`, including `escalateThreat` when `t` is
      critical. */
  function RecordThreat(l: Ledger, t: InsertThreatDetection, now: int): (r: Ledger)
    ensures r.nextThreatId == l.nextThreatId + 1
    ensures r.threats.entries == l.threats.entries[l.nextThreatId := NewThreat(t, l.nextThreatId, now)]
    ensures r.nextEscalationId == l.nextEscalationId + (if IsCritical(t) then 1 else 0)
  {
    var threat := NewThreat(t, l.nextThreatId, now);
    var stored := l.(threats := l.threats.Set(l.nextThreatId, threat), nextThreatId := l.nextThreatId + 1);
    if IsCritical(t) then
      stored.(escalations := l.escalations.Set(l.nextEscalationId, NewEscalation(ThreatEscalation(threat), l.nextEscalationId, now)),
              nextEscalationId := l.nextEscalationId + 1)
    else stored
  }

  /** The threats in `ts` recorded one after the other. */
  function RecordThreats(l: Ledger, ts: seq<InsertThreatDetection>, now: int): (r: Ledger)
    ensures r.nextThreatId == l.nextThreatId + |ts|
    decreases |ts|
  {
    if ts == [] then l else RecordThreat(RecordThreats(l, ts[..|ts| - 1], now), ts[|ts| - 1], now)
  }

  /** Recording two runs one after the other is recording their
      concatenation. */
  lemma {:induction false} RecordThreatsConcat(l: Ledger, xs: seq<InsertThreatDetection>, ys: seq<InsertThreatDetection>, now: int)
    ensures RecordThreats(RecordThreats(l, xs, now), ys, now) == RecordThreats(l, xs + ys, now)
    decreases |ys|
  {
    if ys == [] {
      assert xs + ys == xs;
    } else {
      var init := ys[..|ys| - 1];
      RecordThreatsConcat(l, xs, init, now);
      assert (xs + ys)[..|xs + ys| - 1] == xs + init;
    }
  }

  /** Each table of the ledger on its own: when its counter is above its
      ids, a threat takes the next threat id, a critical one also the next
      escalation id, and the table stays fresh. */
  lemma RecordThreatKeys(l: Ledger, t: InsertThreatDetection, now: int)
    ensures var r := RecordThreat(l, t, now);
      FreshTable(l.threats, l.nextThreatId) ==>
        FreshTable(r.threats, r.nextThreatId) && r.threats.keys == l.threats.keys + [l.nextThreatId]
    ensures var r := RecordThreat(l, t, now);
      FreshTable(l.escalations, l.nextEscalationId) ==>
        && FreshTable(r.escalations, r.nextEscalationId)
        && r.escalations.keys == l.escalations.keys + (if IsCritical(t) then [l.nextEscalationId] else [])
  {
    var threat := NewThreat(t, l.nextThreatId, now);
    var r := RecordThreat(l, t, now);
    if FreshTable(l.threats, l.nextThreatId) {
      AppendFresh(l.threats, l.nextThreatId, threat);
      assert FreshTable(r.threats, r.nextThreatId);
    }
    if FreshTable(l.escalations, l.nextEscalationId) {
      if IsCritical(t) {
        var e := NewEscalation(ThreatEscalation(threat), l.nextEscalationId, now);
        AppendFresh(l.escalations, l.nextEscalationId, e);
        assert r.escalations == l.escalations.Set(l.nextEscalationId, e);
      } else {
        assert r.escalations == l.escalations;
      }
    }
  }

  /** A threat is appended to a fresh threat list; on a fresh escalation
      table a critical threat appends exactly one escalation, pending and
      named after the threat, and any other threat appends none. */
  lemma RecordThreatAppends(l: Ledger, t: InsertThreatDetection, now: int)
    ensures var r := RecordThreat(l, t, now);
      FreshTable(l.threats, l.nextThreatId) ==>
        r.threats.Values() == l.threats.Values() + [NewThreat(t, l.nextThreatId, now)]
    ensures var r := RecordThreat(l, t, now);
      FreshTable(l.escalations, l.nextEscalationId) ==>
        && FreshTable(r.escalations, r.nextEscalationId)
        && r.escalations.Values() == l.escalations.Values() + RaisedEscalation(t, l.nextThreatId, l.nextEscalationId, now)
  {
    var threat := NewThreat(t, l.nextThreatId, now);
    if FreshTable(l.threats, l.nextThreatId) {
      AppendFresh(l.threats, l.nextThreatId, threat);
    }
    if FreshTable(l.escalations, l.nextEscalationId) {
      AppendFresh(l.escalations, l.nextEscalationId, NewEscalation(ThreatEscalation(threat), l.nextEscalationId, now));
    }
  }

  /** The escalations recording the run `ts` from ledger `l` raises: one
      per critical threat, in order, each naming its threat, under the ids
      the ledger holds when that threat is recorded. */
  function ThreatEscalations(l: Ledger, ts: seq<InsertThreatDetection>, now: int): (r: seq<Escalation>)
    ensures |r| == Count(ts, IsCritical)
    decreases |ts|
  {
    if ts == [] then []
    else
      var init, last := ts[..|ts| - 1], ts[|ts| - 1];
      assert ts == init + [last];
      FilterAppend(init, [last], IsCritical);
      var mid := RecordThreats(l, init, now);
      ThreatEscalations(l, init, now) + RaisedEscalation(last, mid.nextThreatId, mid.nextEscalationId, now)
  }

  /** The escalation `t` raises when recorded under `threatId` with the
      escalation counter at `escalationId`: one if it is critical, else none. */
  function RaisedEscalation(t: InsertThreatDetection, threatId: int, escalationId: int, now: int): (r: seq<Escalation>)
    ensures |r| == if IsCritical(t) then 1 else 0
  {
    if IsCritical(t) then [NewEscalation(ThreatEscalation(NewThreat(t, threatId, now)), escalationId, now)] else []
  }

  /** The last threat of a run adds the escalation it raises under the
      ids the run before it leaves. */
  lemma ThreatEscalationsStep(l: Ledger, ts: seq<InsertThreatDetection>, now: int)
    requires ts != []
    ensures var mid := RecordThreats(l, ts[..|ts| - 1], now);
      ThreatEscalations(l, ts, now)
        == ThreatEscalations(l, ts[..|ts| - 1], now) + RaisedEscalation(ts[|ts| - 1], mid.nextThreatId, mid.nextEscalationId, now)
  {
  }

  /** Recording a run of threats moves the escalation counter once per
      critical threat, and each table that is fresh before stays fresh and
      gains one record per threat (threats) or per critical threat
      (escalations). */
  lemma {:induction false} RecordThreatsCounts(l: Ledger, ts: seq<InsertThreatDetection>, now: int)
    ensures RecordThreats(l, ts, now).nextEscalationId == l.nextEscalationId + Count(ts, IsCritical)
    ensures var r := RecordThreats(l, ts, now);
      FreshTable(l.threats, l.nextThreatId) ==>
        FreshTable(r.threats, r.nextThreatId) && |r.threats.keys| == |l.threats.keys| + |ts|
    ensures var r := RecordThreats(l, ts, now);
      FreshTable(l.escalations, l.nextEscalationId) ==>
        FreshTable(r.escalations, r.nextEscalationId) && |r.escalations.keys| == |l.escalations.keys| + Count(ts, IsCritical)
    decreases |ts|
  {
    if ts != [] {
      var init, last := ts[..|ts| - 1], ts[|ts| - 1];
      assert ts == init + [last];
      FilterAppend(init, [last], IsCritical);
      RecordThreatsCounts(l, init, now);
      RecordThreatKeys(RecordThreats(l, init, now), last, now);
    }
  }

  /** On a fresh escalation table, recording a run of threats appends
      exactly the escalations the run raises, whatever the state of the
      threat table. */
  lemma {:induction false} RecordThreatsEscalations(l: Ledger, ts: seq<InsertThreatDetection>, now: int)
    requires FreshTable(l.escalations, l.nextEscalationId)
    ensures var r := RecordThreats(l, ts, now);
      && FreshTable(r.escalations, r.nextEscalationId)
      && r.escalations.Values() == l.escalations.Values() + ThreatEscalations(l, ts, now)
    decreases |ts|
  {
    if ts != [] {
      var init, last := ts[..|ts| - 1], ts[|ts| - 1];
      var mid := RecordThreats(l, init, now);
      var raised := ThreatEscalations(l, init, now);
      assert FreshTable(mid.escalations, mid.nextEscalationId) && mid.escalations.Values() == l.escalations.Values() + raised by {
        RecordThreatsEscalations(l, init, now);
      }
      var step := RaisedEscalation(last, mid.nextThreatId, mid.nextEscalationId, now);
      assert ThreatEscalations(l, ts, now) == raised + step by {
        ThreatEscalationsStep(l, ts, now);
      }
      var r := RecordThreat(mid, last, now);
      assert FreshTable(r.escalations, r.nextEscalationId) && r.escalations.Values() == mid.escalations.Values() + step by {
        RecordThreatAppends(mid, last, now);
      }
      assert RecordThreats(l, ts, now) == r;
      AppendAssoc(l.escalations.Values(), raised, step);
    }
  }

  /** Recording from a fresh ledger leaves it fresh. */
  lemma RecordThreatsFresh(l: Ledger, ts: seq<InsertThreatDetection>, now: int)
    requires LedgerFresh(l)
    ensures LedgerFresh(RecordThreats(l, ts, now))
  {
    RecordThreatsCounts(l, ts, now);
  }

  /** Both freshness facts of a recorded run together: a fresh ledger stays
      fresh, and a fresh escalation table gains exactly the escalations the
      run raises. */
  lemma RecordThreatsKeepsFresh(l: Ledger, ts: seq<InsertThreatDetection>, now: int)
    ensures LedgerFresh(l) ==> LedgerFresh(RecordThreats(l, ts, now))
    ensures var r := RecordThreats(l, ts, now);
      FreshTable(l.escalations, l.nextEscalationId) ==>
        && FreshTable(r.escalations, r.nextEscalationId)
        && r.escalations.Values() == l.escalations.Values() + ThreatEscalations(l, ts, now)
  {
    RecordThreatsCounts(l, ts, now);
    if FreshTable(l.escalations, l.nextEscalationId) {
      RecordThreatsEscalations(l, ts, now);
    }
  }

  /** Recording a threat under an id that is already taken replaces the
      stored threat instead of adding one: what happens when the counter
      lags behind the stored ids. */
  lemma StaleCounterOverwrites(l: Ledger, t: InsertThreatDetection, now: int)
    requires LedgerValid(l) && l.nextThreatId in l.threats.entries
    ensures var r := RecordThreat(l, t, now);
      && r.threats.keys == l.threats.keys
      && |r.threats.Values()| == |l.threats.Values()|
      && r.threats.entries[l.nextThreatId] == NewThreat(t, l.nextThreatId, now)
  {
    ValuesAfterSet(l.threats, l.nextThreatId, NewThreat(t, l.nextThreatId, now));
  }
}
