/** The risk scorer of the record store (`calculateRiskScore`): a
    deterministic, additive score capped at 100. */
module Risk {
  import opened Tables
  import opened Text
  import opened Schema

  /** The cases of the action-type `switch`, in source order, with the
      amount each adds. None of them ends with `break`. */
  const TypeCases: seq<(string, nat)> := [("delegation", 40), ("escalation", 20), ("tool_call", 15), ("message", 5)]

  function SumAddends(cases: seq<(string, nat)>): nat {
    if cases == [] then 0 else cases[0].1 + SumAddends(cases[1..])
  }

  /** A `switch` without `break`: control enters at the first case equal to
      `t` and runs that case and every case after it; with no match nothing
      runs. */
  function FallThrough(cases: seq<(string, nat)>, t: string): nat {
    if cases == [] then 0
    else if cases[0].0 == t then SumAddends(cases)
    else FallThrough(cases[1..], t)
  }

  function TypeAddend(actionType: string): nat {
    FallThrough(TypeCases, actionType)
  }

  /** The amounts the fall-through adds up to, per action type. */
  function TypeWeight(actionType: string): nat {
    match actionType
    case "delegation" => 80
    case "escalation" => 40
    case "tool_call" => 20
    case "message" => 5
    case _ => 0
  }

  lemma TypeAddendIsWeight(actionType: string)
    ensures TypeAddend(actionType) == TypeWeight(actionType)
  {
    var c1 := [("escalation", 20), ("tool_call", 15), ("message", 5)];
    var c2 := [("tool_call", 15), ("message", 5)];
    var c3: seq<(string, nat)> := [("message", 5)];
    assert TypeCases[1..] == c1 && c1[1..] == c2 && c2[1..] == c3 && c3[1..] == [];
    assert SumAddends(c3) == 5;
    assert SumAddends(c2) == 20;
    assert SumAddends(c1) == 40;
    assert SumAddends(TypeCases) == 80;
    var f3 := FallThrough(c3, actionType);
    assert c3[0].0 == "message" && FallThrough(c3[1..], actionType) == 0;
    assert f3 == if actionType == "message" then 5 else 0;
    var f2 := FallThrough(c2, actionType);
    assert f2 == if actionType == "tool_call" then 20 else f3;
    var f1 := FallThrough(c1, actionType);
    assert f1 == if actionType == "escalation" then 40 else f2;
    assert TypeAddend(actionType) == if actionType == "delegation" then 80 else f1;
  }

  /** `payload?.amount && parseFloat(payload.amount.replace(/[$,]/g, '')) > limit`.
      An empty or unparsable amount fails every comparison, as NaN does. */
  predicate AmountOver(p: Payload, limit: nat) {
    && Truthy(p.amount)
    && var d := ParseDecimal(StripCurrency(p.amount.value));
       d.Some? && Exceeds(d.value, limit)
  }

  /** A larger limit is harder to exceed. */
  lemma AmountOverMonotone(p: Payload, low: nat, high: nat)
    requires low <= high && AmountOver(p, high)
    ensures AmountOver(p, low)
  {
  }

  /** The uncapped sum. */
  function RawScore(a: InsertAgentAction): nat {
    (if Truthy(a.targetAgent) then 30 else 0)
    + TypeAddend(a.actionType)
    + (if AmountOver(a.payload, 1000) then 25 else 0)
    + (if a.payload.afterHours then 15 else 0)
    + (if a.payload.newMerchant then 20 else 0)
  }

  /** `calculateRiskScore`. */
  function CalculateRiskScore(a: InsertAgentAction): (r: nat)
    ensures r <= 100
    ensures r == 100 || r == RawScore(a)
  {
    if RawScore(a) < 100 then RawScore(a) else 100
  }

  /** The score as the sum of the per-type weights, capped. */
  lemma ScoreByWeights(a: InsertAgentAction)
    ensures CalculateRiskScore(a) == Min(100,
      (if Truthy(a.targetAgent) then 30 else 0) + TypeWeight(a.actionType)
      + (if AmountOver(a.payload, 1000) then 25 else 0)
      + (if a.payload.afterHours then 15 else 0)
      + (if a.payload.newMerchant then 20 else 0))
  {
    TypeAddendIsWeight(a.actionType);
  }

  function Min(a: int, b: int): int {
    if a <= b then a else b
  }

  /** A message with no target and no payload flags scores exactly 5. */
  lemma PlainMessageScoresFive(a: InsertAgentAction)
    requires a.actionType == "message" && !Truthy(a.targetAgent)
    requires !AmountOver(a.payload, 1000) && !a.payload.afterHours && !a.payload.newMerchant
    ensures CalculateRiskScore(a) == 5
  {
    TypeAddendIsWeight(a.actionType);
  }

  /** Every delegation scores at least 80, whatever else it carries. */
  lemma DelegationScoresAtLeast80(a: InsertAgentAction)
    requires a.actionType == "delegation"
    ensures CalculateRiskScore(a) >= 80
  {
    TypeAddendIsWeight(a.actionType);
  }

  /** An action type outside the four cases adds nothing. */
  lemma UnknownTypeAddsNothing(actionType: string)
    requires actionType !in ActionTypes
    ensures TypeAddend(actionType) == 0
  {
    TypeAddendIsWeight(actionType);
  }

  /** Setting a payload flag or adding a target never lowers the score. */
  lemma ScoreMonotone(a: InsertAgentAction, b: InsertAgentAction)
    requires a.actionType == b.actionType
    requires Truthy(a.targetAgent) ==> Truthy(b.targetAgent)
    requires AmountOver(a.payload, 1000) ==> AmountOver(b.payload, 1000)
    requires a.payload.afterHours ==> b.payload.afterHours
    requires a.payload.newMerchant ==> b.payload.newMerchant
    ensures CalculateRiskScore(a) <= CalculateRiskScore(b)
  {
  }

  /** A plain decimal "<digits>.<digits>" is read with its whole value. */
  lemma ParsePlainDecimal(w: string, f: string)
    requires w != [] && AllDigits(w) && AllDigits(f)
    ensures ParseDecimal(w + "." + f) == Some(Decimal(false, DigitsToNat(w), f))
  {
    var s := w + "." + f;
    assert s == w + ("." + f);
    LeadingDigitsOfDigits(w, "." + f);
    assert s[|w|..] == "." + f;
    LeadingDigitsOfDigits(f, []);
    assert ("." + f)[1..] == f + [];
  }

  /** The boundary examples: "$6,000.00" is over 5000, "$4,000.00" is over
      1000 but not over 5000. */
  lemma AmountExamples()
    ensures AmountOver(Payload(Some("$6,000.00"), false, false), 5000)
    ensures !AmountOver(Payload(Some("$4,000.00"), false, false), 5000)
    ensures AmountOver(Payload(Some("$4,000.00"), false, false), 1000)
  {
    ThousandsAmount('6');
    ThousandsAmount('4');
    assert "$6,000.00" == ['$', '6', ','] + "000.00";
    assert "$4,000.00" == ['$', '4', ','] + "000.00";
  }

  lemma ThousandsAmount(d: char)
    requires IsDigit(d)
    ensures forall limit: nat ::
              AmountOver(Payload(Some(['$', d, ','] + "000.00"), false, false), limit) <==> DigitValue(d) * 1000 > limit
  {
    ParseThousands(d);
  }

  /** "$<d>,000.00" is read as d * 1000. */
  lemma ParseThousands(d: char)
    requires IsDigit(d)
    ensures ParseDecimal(StripCurrency(['$', d, ','] + "000.00")) == Some(Decimal(false, DigitValue(d) * 1000, "00"))
  {
    StripThousands(d);
    var w := [d, '0', '0', '0'];
    assert [d] + "000.00" == w + "." + "00";
    ParsePlainDecimal(w, "00");
    DigitsThousands(d);
  }

  lemma StripThousands(d: char)
    requires IsDigit(d)
    ensures StripCurrency(['$', d, ','] + "000.00") == [d] + "000.00"
  {
    StripMarkedDigit(d);
    StripMarkedPrefix(['$', d, ','], [d], "000.00");
  }

  /** Marks are removed from the prefix only when the rest carries none. */
  lemma StripMarkedPrefix(a: string, r: string, b: string)
    requires StripCurrency(a) == r
    requires forall i :: 0 <= i < |b| ==> !IsCurrencyMark(b[i])
    ensures StripCurrency(a + b) == r + b
  {
    StripCurrencyAppend(a, b);
    StripCurrencyIdentity(b);
  }

  lemma StripMarkedDigit(d: char)
    requires IsDigit(d)
    ensures StripCurrency(['$', d, ',']) == [d]
  {
    StripCurrencyAppend(['$'], [d, ',']);
    StripCurrencyAppend([d], [',']);
    assert ['$'] + [d, ','] == ['$', d, ','];
    assert [d] + [','] == [d, ','];
    assert StripCurrency(['$']) == [] by { assert ['$'][1..] == []; }
    assert StripCurrency([',']) == [] by { assert [','][1..] == []; }
    assert StripCurrency([d]) == [d] by { assert [d][1..] == []; }
  }

  lemma DigitsThousands(d: char)
    requires IsDigit(d)
    ensures DigitsToNat([d, '0', '0', '0']) == DigitValue(d) * 1000
  {
    var w := [d, '0', '0', '0'];
    assert w[..3] == [d, '0', '0'] && w[..3][..2] == [d, '0'] && w[..3][..2][..1] == [d];
    assert [d][..0] == [];
    assert DigitsToNat([d]) == DigitValue(d);
    assert DigitsToNat([d, '0']) == DigitValue(d) * 10;
    assert DigitsToNat([d, '0', '0']) == DigitValue(d) * 100;
  }
}
