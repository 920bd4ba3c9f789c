/** The logic of the escalation card: the SLA countdown text, the overdue
    and urgent flags, the colour and icon chosen for a risk level or agent
    type, the tone of a risk-factor badge, and the labels of the context
    rows. The clock is the parameter `now` (milliseconds). */
module EscalationCard {
  import opened Tables
  import opened Text
  import opened Schema
  import Escalations

  // ----- SLA countdown -----

  const Overdue := "OVERDUE"

  /** Whole seconds left: the SLA in seconds minus the whole seconds elapsed.
      Dafny's `/` by a positive divisor rounds down, as `Math.floor` does. */
  function Remaining(createdAt: int, slaMinutes: int, now: int): int {
    slaMinutes * 60 - (now - createdAt) / 1000
  }

  /** `n.toString().padStart(2, '0')` for `n` below 100. */
  function Pad2(n: nat): (s: string)
    requires n < 100
    ensures |s| == 2 && AllDigits(s) && DigitsToNat(s) == n
  {
    NatToStringRoundTrip(n);
    if n < 10 then
      var s := "0" + NatToString(n);
      assert s[..1] == "0";
      s
    else
      assert NatToString(n) == NatToString(n / 10) + [DigitChar(n % 10)];
      NatToString(n)
  }

  /** `formatTimeRemaining`: `OVERDUE` once no second is left, otherwise
      minutes and two-digit seconds. */
  function FormatTimeRemaining(createdAt: int, slaMinutes: int, now: int): (s: string)
    ensures s == Overdue <==> Remaining(createdAt, slaMinutes, now) <= 0
  {
    var remaining := Remaining(createdAt, slaMinutes, now);
    if remaining <= 0 then Overdue
    else
      var m := NatToString(remaining / 60);
      var s := m + ":" + Pad2(remaining % 60);
      assert s[|m|] == ':';
      assert |s| == |Overdue| ==> s[4] == ':' && Overdue[4] == 'D';
      s
  }

  /** Reads a countdown `M:SS` back as seconds. */
  function ParseClock(s: string): Option<nat> {
    if |s| >= 4 && s[|s| - 3] == ':' && AllDigits(s[..|s| - 3]) && AllDigits(s[|s| - 2..])
    then Some(DigitsToNat(s[..|s| - 3]) * 60 + DigitsToNat(s[|s| - 2..]))
    else None
  }

  /** A countdown that is not overdue is `M:SS` with SS below 60, and it
      reads back as exactly the seconds left. */
  lemma ClockRoundTrip(createdAt: int, slaMinutes: int, now: int)
    requires Remaining(createdAt, slaMinutes, now) > 0
    ensures var s := FormatTimeRemaining(createdAt, slaMinutes, now);
      && ParseClock(s) == Some(Remaining(createdAt, slaMinutes, now) as nat)
      && DigitsToNat(s[|s| - 2..]) < 60
  {
    var remaining := Remaining(createdAt, slaMinutes, now);
    assert (remaining / 60) * 60 + remaining % 60 == remaining;
    NatToStringRoundTrip(remaining / 60);
    ClockTextParses(NatToString(remaining / 60), Pad2(remaining % 60));
  }

  /** Minutes, a colon and two second digits read back as their seconds. */
  lemma ClockTextParses(m: string, ss: string)
    requires |m| >= 1 && AllDigits(m) && |ss| == 2 && AllDigits(ss)
    ensures var s := m + ":" + ss;
      && s[|s| - 2..] == ss
      && ParseClock(s) == Some(DigitsToNat(m) * 60 + DigitsToNat(ss))
  {
    var s := m + ":" + ss;
    assert s[..|s| - 3] == m && s[|s| - 2..] == ss && s[|s| - 3] == ':';
  }

  /** Each whole second that passes takes one second off the countdown,
      and once the card exists the countdown never exceeds the SLA. */
  lemma RemainingTicks(createdAt: int, slaMinutes: int, now: int)
    ensures Remaining(createdAt, slaMinutes, now + 1000) == Remaining(createdAt, slaMinutes, now) - 1
    ensures now >= createdAt ==> Remaining(createdAt, slaMinutes, now) <= slaMinutes * 60
  {
    var x := now - createdAt;
    assert (x + 1000) / 1000 == x / 1000 + 1;
  }

  /** The card is overdue once the whole SLA has elapsed, and from creation
      when the SLA is zero or negative. */
  lemma OverdueAfterSla(createdAt: int, slaMinutes: int, now: int)
    requires now - createdAt >= slaMinutes * 60000 || (slaMinutes <= 0 && now >= createdAt)
    ensures FormatTimeRemaining(createdAt, slaMinutes, now) == Overdue
  {
    var x := now - createdAt;
    if x >= slaMinutes * 60000 {
      DivMonotone(slaMinutes * 60000, x);
      assert (slaMinutes * 60000) / 1000 == slaMinutes * 60;
    }
  }

  lemma DivMonotone(a: int, b: int)
    requires a <= b
    ensures a / 1000 <= b / 1000
  {
  }

  // ----- flags -----

  /** `isUrgent`: a high-risk escalation or an SLA of five minutes or less. */
  predicate IsUrgent(e: Escalation) {
    e.riskLevel == "high" || e.slaMinutes <= 5
  }

  /** `isOverdue`: the countdown reads `OVERDUE`. */
  function IsOverdue(e: Escalation, now: int): (b: bool)
    ensures b <==> Remaining(e.createdAt, e.slaMinutes, now) <= 0
  {
    FormatTimeRemaining(e.createdAt, e.slaMinutes, now) == Overdue
  }

  /** A high-risk escalation is urgent, and so is one with an SLA of five
      minutes or less whatever its risk level; one that is not high-risk
      with a longer SLA is never urgent. */
  lemma UrgentExactly(e: Escalation)
    ensures e.riskLevel == "high" ==> IsUrgent(e)
    ensures e.slaMinutes <= 5 ==> IsUrgent(e)
    ensures e.riskLevel != "high" && e.slaMinutes > 5 ==> !IsUrgent(e)
  {
  }

  // ----- colours and icons -----

  const BorderDanger := "border-danger"
  const BorderWarning := "border-warning"
  const BorderInfo := "border-info"
  const BorderDefault := "border-gray-300"
  const BadgeDanger := "bg-danger text-white"
  const BadgeWarning := "bg-warning text-black"
  const BadgeInfo := "bg-info text-white"
  const BadgeDefault := "bg-gray-500 text-white"

  /** `getRiskColor`. */
  function RiskColor(riskLevel: string): string {
    if riskLevel == "high" then BorderDanger
    else if riskLevel == "medium" then BorderWarning
    else if riskLevel == "low" then BorderInfo
    else BorderDefault
  }

  /** `getRiskBadgeColor`. */
  function RiskBadgeColor(riskLevel: string): string {
    if riskLevel == "high" then BadgeDanger
    else if riskLevel == "medium" then BadgeWarning
    else if riskLevel == "low" then BadgeInfo
    else BadgeDefault
  }

  /** Both mappings are total: each documented level has its own colour and
      every other string falls back to the grey default. */
  lemma RiskColorsTotal(a: string, b: string)
    ensures RiskColor(a) == BorderDefault <==> a !in RiskLevels
    ensures RiskBadgeColor(a) == BadgeDefault <==> a !in RiskLevels
    ensures a in RiskLevels && b in RiskLevels && a != b ==> RiskColor(a) != RiskColor(b) && RiskBadgeColor(a) != RiskBadgeColor(b)
  {
  }

  datatype Tone = Danger | Warning | Info

  /** The tone of the icon tile: unlike the border, a level outside the
      documented three is shown as info, not grey. */
  function LevelTone(riskLevel: string): Tone {
    if riskLevel == "high" then Danger else if riskLevel == "medium" then Warning else Info
  }

  lemma UnknownLevelStyles(riskLevel: string)
    requires riskLevel !in RiskLevels
    ensures LevelTone(riskLevel) == Info && RiskColor(riskLevel) == BorderDefault
  {
  }

  datatype Icon = CreditCard | Shield | FileText | TrendingUp

  /** `getAgentIcon`. */
  function AgentIcon(agentType: string): Icon {
    if agentType == "Payment Agent" then CreditCard
    else if agentType == "Fraud Detection" then Shield
    else if agentType == "Compliance Agent" then FileText
    else if agentType == "Trade Agent" then TrendingUp
    else CreditCard
  }

  /** Every agent type gets an icon; the card icon is the fallback for any
      type other than the three named ones. */
  lemma AgentIconFallback(agentType: string)
    ensures AgentIcon(agentType) == CreditCard <==>
      agentType != "Fraud Detection" && agentType != "Compliance Agent" && agentType != "Trade Agent"
  {
  }

  // ----- timer badge -----

  const TimerOverdueStyle := "bg-red-600 text-white animate-pulse"
  const Pulse := "animate-pulse"

  /** The style of the timer badge: red and pulsing when overdue; for an
      urgent card the risk badge colour, pulsing when the risk is high;
      otherwise the plain risk badge colour. */
  function TimerStyle(e: Escalation, now: int): string {
    if IsOverdue(e, now) then TimerOverdueStyle
    else if IsUrgent(e) then RiskBadgeColor(e.riskLevel) + " " + (if e.riskLevel == "high" then Pulse else "")
    else RiskBadgeColor(e.riskLevel)
  }

  predicate EndsWith(s: string, suffix: string) {
    |s| >= |suffix| && s[|s| - |suffix|..] == suffix
  }

  /** The timer pulses exactly when the card is overdue or its risk is
      high; it always shows the risk colour of the level unless overdue. */
  lemma TimerPulsesExactly(e: Escalation, now: int)
    ensures EndsWith(TimerStyle(e, now), Pulse) <==> IsOverdue(e, now) || e.riskLevel == "high"
    ensures !IsOverdue(e, now) ==> TimerStyle(e, now)[..|RiskBadgeColor(e.riskLevel)|] == RiskBadgeColor(e.riskLevel)
  {
    var c := TimerStyle(e, now);
    var badge := RiskBadgeColor(e.riskLevel);
    if IsOverdue(e, now) {
      assert c[|c| - |Pulse|..] == Pulse;
    } else if e.riskLevel == "high" {
      assert c == badge + " " + Pulse;
      assert c[|c| - |Pulse|..] == Pulse;
    } else {
      var tail := if IsUrgent(e) then badge + " " else badge;
      assert c == tail;
      assert c[..|badge|] == badge;
      if |c| >= |Pulse| {
        var k := |c| - |Pulse|;
        assert c[k..][|Pulse| - 2] != Pulse[|Pulse| - 2] || c[k..][|Pulse| - 1] != Pulse[|Pulse| - 1];
      }
    }
  }

  /** The heading over the risk factors. */
  function FactorsHeading(agentType: string): string {
    if agentType == "Fraud Detection" then "Detection Signals"
    else if agentType == "Compliance Agent" then "Policy Context"
    else if agentType == "Trade Agent" then "Market Conditions"
    else "Risk Assessment"
  }

  /** The heading and the icon agree on the agent types they single out:
      the generic heading goes with the fallback icon. */
  lemma HeadingFollowsIcon(agentType: string)
    ensures FactorsHeading(agentType) == "Risk Assessment" <==> AgentIcon(agentType) == CreditCard
  {
  }

  // ----- risk-factor badges -----

  const DangerWords := ["High", "Impossible", "Failed", "Large", "New"]
  const WarningWords := ["Medium", "After", "Amount", "Rapid", "Volatility", "International"]

  /** Some word of `words` occurs in `s`. */
  predicate MentionsAny(s: string, words: seq<string>) {
    exists i :: 0 <= i < |words| && Contains(s, words[i])
  }

  /** The tone of a risk-factor badge, keyword tests in the order the card
      makes them. */
  function FactorTone(factor: string): (t: Tone)
    ensures t == Danger <==> MentionsAny(factor, DangerWords)
    ensures t == Warning <==> !MentionsAny(factor, DangerWords) && MentionsAny(factor, WarningWords)
  {
    if Contains(factor, "High") || Contains(factor, "Impossible") || Contains(factor, "Failed")
       || Contains(factor, "Large") || Contains(factor, "New") then
      assert MentionsAny(factor, DangerWords) <==> true by {
        if Contains(factor, "High") { assert Contains(factor, DangerWords[0]); }
        else if Contains(factor, "Impossible") { assert Contains(factor, DangerWords[1]); }
        else if Contains(factor, "Failed") { assert Contains(factor, DangerWords[2]); }
        else if Contains(factor, "Large") { assert Contains(factor, DangerWords[3]); }
        else { assert Contains(factor, DangerWords[4]); }
      }
      Danger
    else if Contains(factor, "Medium") || Contains(factor, "After") || Contains(factor, "Amount")
       || Contains(factor, "Rapid") || Contains(factor, "Volatility") || Contains(factor, "International") then
      assert MentionsAny(factor, WarningWords) <==> true by {
        if Contains(factor, "Medium") { assert Contains(factor, WarningWords[0]); }
        else if Contains(factor, "After") { assert Contains(factor, WarningWords[1]); }
        else if Contains(factor, "Amount") { assert Contains(factor, WarningWords[2]); }
        else if Contains(factor, "Rapid") { assert Contains(factor, WarningWords[3]); }
        else if Contains(factor, "Volatility") { assert Contains(factor, WarningWords[4]); }
        else { assert Contains(factor, WarningWords[5]); }
      }
      Warning
    else
      Info
  }

  /** A danger word wins over a warning word in the same factor. */
  lemma DangerTakesPrecedence()
    ensures FactorTone("High Volatility") == Danger
    ensures FactorTone("Rapid Trading") == Warning
    ensures FactorTone("Unusual Pattern") == Info
  {
    assert OccursAt("High Volatility", DangerWords[0], 0);
    assert OccursAt("Rapid Trading", WarningWords[3], 0);
    forall i | 0 <= i < |DangerWords| ensures !Contains("Rapid Trading", DangerWords[i]) {
      NotContained("Rapid Trading", DangerWords[i]);
    }
    forall i | 0 <= i < |DangerWords| ensures !Contains("Unusual Pattern", DangerWords[i]) {
      NotContained("Unusual Pattern", DangerWords[i]);
    }
    forall i | 0 <= i < |WarningWords| ensures !Contains("Unusual Pattern", WarningWords[i]) {
      NotContained("Unusual Pattern", WarningWords[i]);
    }
  }

  /** A word whose first letter does not occur in `s` is not contained in
      it. */
  lemma NotContained(s: string, w: string)
    requires |w| > 0 && forall j :: 0 <= j < |s| ==> s[j] != w[0]
    ensures !Contains(s, w)
  {
    forall i | 0 <= i <= |s| - |w| ensures !OccursAt(s, w, i) {
      assert s[i] != w[0];
    }
  }

  // ----- context rows -----

  const RiskFactorsKey := "riskFactors"

  predicate IsUpper(c: char) {
    'A' <= c <= 'Z'
  }

  /** `key.replace(/([A-Z])/g, ' $1')`: a space before every capital. */
  function Label(key: string): (l: string)
    ensures |l| >= |key|
  {
    if key == [] then []
    else (if IsUpper(key[0]) then [' ', key[0]] else [key[0]]) + Label(key[1..])
  }

  /** Removes every space that stands before a capital. */
  function Unlabel(l: string): string
    decreases |l|
  {
    if l == [] then []
    else if |l| >= 2 && l[0] == ' ' && IsUpper(l[1]) then [l[1]] + Unlabel(l[2..])
    else [l[0]] + Unlabel(l[1..])
  }

  predicate NoSpaceBeforeCapital(key: string) {
    forall i :: 0 <= i < |key| - 1 && key[i] == ' ' ==> !IsUpper(key[i + 1])
  }

  /** The label inserts only the spaces: removing them gives the key back,
      for any key that has no space before a capital of its own. */
  lemma {:induction false} LabelRoundTrip(key: string)
    requires NoSpaceBeforeCapital(key)
    ensures Unlabel(Label(key)) == key
  {
    if key != [] {
      var c, rest := key[0], key[1..];
      assert NoSpaceBeforeCapital(rest) by {
        forall i | 0 <= i < |rest| - 1 && rest[i] == ' ' ensures !IsUpper(rest[i + 1]) {
          assert key[i + 1] == rest[i];
        }
      }
      LabelRoundTrip(rest);
      if IsUpper(c) {
        var l := [' ', c] + Label(rest);
        assert l[2..] == Label(rest);
      } else {
        var l := [c] + Label(rest);
        assert l[1..] == Label(rest);
        if rest != [] {
          LabelHead(rest);
          if c == ' ' {
            assert !IsUpper(rest[0]);
          }
        }
      }
      assert key == [c] + rest;
    }
  }

  /** A label starts with a space when the key starts with a capital, and
      with the key's first character otherwise. */
  lemma LabelHead(key: string)
    requires key != []
    ensures Label(key)[0] == if IsUpper(key[0]) then ' ' else key[0]
  {
  }

  datatype ContextRow = ContextRow(caption: string, value: Json)

  /** The context rows of the card: every entry of the context object but
      `riskFactors`, in order, labelled. */
  function ContextRows(fields: seq<(string, Json)>): (rows: seq<ContextRow>)
    ensures |rows| <= |fields|
  {
    if fields == [] then []
    else
      (if fields[0].0 == RiskFactorsKey then [] else [ContextRow(Label(fields[0].0), fields[0].1)])
      + ContextRows(fields[1..])
  }

  /** The keys of the entries shown. */
  function ShownEntries(fields: seq<(string, Json)>): (shown: seq<(string, Json)>)
    ensures forall e :: e in shown ==> e in fields && e.0 != RiskFactorsKey
  {
    if fields == [] then []
    else (if fields[0].0 == RiskFactorsKey then [] else [fields[0]]) + ShownEntries(fields[1..])
  }

  /** There is one row per shown entry. */
  lemma {:induction false} ContextRowsCount(fields: seq<(string, Json)>)
    ensures |ContextRows(fields)| == |ShownEntries(fields)|
  {
    if fields != [] {
      ContextRowsCount(fields[1..]);
    }
  }

  /** Row by row, the rows are the shown entries: removing the inserted
      spaces from a label gives the entry's key, and the value is the
      entry's value. */
  lemma {:induction false} ContextRowsMatchEntries(fields: seq<(string, Json)>)
    requires forall i :: 0 <= i < |fields| ==> NoSpaceBeforeCapital(fields[i].0)
    ensures |ContextRows(fields)| == |ShownEntries(fields)|
    ensures forall i :: 0 <= i < |ContextRows(fields)| ==>
      Unlabel(ContextRows(fields)[i].caption) == ShownEntries(fields)[i].0
      && ContextRows(fields)[i].value == ShownEntries(fields)[i].1
  {
    ContextRowsCount(fields);
    if fields != [] {
      ContextRowsMatchEntries(fields[1..]);
      LabelRoundTrip(fields[0].0);
    }
  }

  // ----- whether the context rows render -----

  const ConfidenceKey := "confidence"

  /** A value React accepts as a child: a string, number, boolean or null,
      or an array of such children; an object throws. */
  predicate RenderableChild(v: Json)
    decreases v
  {
    match v
    case JObj(_) => false
    case JArr(items) => forall i :: 0 <= i < |items| ==> RenderableChild(items[i])
    case _ => true
  }

  /** A shown entry renders when its value is a valid child and, for the
      `confidence` key, a string: the colour test strips a `%` from it with
      `value.replace`, which throws on any other value. */
  predicate EntryRenders(e: (string, Json)) {
    RenderableChild(e.1) && (e.0 == ConfidenceKey ==> e.1.JStr?)
  }

  /** The card renders its context rows: every entry but `riskFactors`
      renders. */
  predicate ContextRenders(fields: seq<(string, Json)>) {
    forall i :: 0 <= i < |fields| && fields[i].0 != RiskFactorsKey ==> EntryRenders(fields[i])
  }

  /** The card renders exactly when every shown entry renders. */
  lemma {:induction false} ContextRendersShown(fields: seq<(string, Json)>)
    ensures ContextRenders(fields) <==> forall e :: e in ShownEntries(fields) ==> EntryRenders(e)
  {
    if fields != [] {
      ContextRendersShown(fields[1..]);
      assert ContextRenders(fields) <==>
        (fields[0].0 != RiskFactorsKey ==> EntryRenders(fields[0])) && ContextRenders(fields[1..]) by {
        if ContextRenders(fields[1..]) && (fields[0].0 != RiskFactorsKey ==> EntryRenders(fields[0])) {
          forall i | 0 <= i < |fields| && fields[i].0 != RiskFactorsKey ensures EntryRenders(fields[i]) {
            if i > 0 { assert fields[i] == fields[1..][i - 1]; }
          }
        }
        if ContextRenders(fields) {
          forall i | 0 <= i < |fields[1..]| && fields[1..][i].0 != RiskFactorsKey
            ensures EntryRenders(fields[1..][i])
          {
            assert fields[1..][i] == fields[i + 1];
          }
        }
      }
    }
  }

  /** A risk-factor badge renders a string; an array of valid children
      also passes `factor.includes`, and any other value throws there. */
  predicate FactorRenders(v: Json) {
    v.JStr? || (v.JArr? && RenderableChild(v))
  }

  /** The risk-factor section renders: `context?.riskFactors` is absent or
      falsy, so the section is skipped, or it is an array whose every
      element renders as a badge; any other truthy value throws at `.map`. */
  predicate FactorsRender(fields: seq<(string, Json)>) {
    match Field(fields, RiskFactorsKey)
    case None => true
    case Some(v) =>
      !JsonTruthy(v)
      || (v.JArr? && forall i :: 0 <= i < |v.items| ==> FactorRenders(v.items[i]))
  }

  /** The card renders a context object: its rows and its risk factors. */
  predicate CardRenders(fields: seq<(string, Json)>) {
    ContextRenders(fields) && FactorsRender(fields)
  }

  /** The risk factors that throw, and those that render or are skipped. */
  lemma FactorsRenderExamples()
    ensures !FactorsRender([(RiskFactorsKey, JStr("x"))])
    ensures !FactorsRender([(RiskFactorsKey, JObj([]))])
    ensures !FactorsRender([(RiskFactorsKey, JArr([JNum(1)]))])
    ensures !FactorsRender([(RiskFactorsKey, JArr([JNull]))])
    ensures FactorsRender([(RiskFactorsKey, JArr([JStr("High Volatility")]))])
    ensures FactorsRender([(RiskFactorsKey, JStr(""))])
    ensures FactorsRender([(RiskFactorsKey, JArr([JNum(1)])), (RiskFactorsKey, JNull)])
  {
    var number, nothing := JArr([JNum(1)]), JArr([JNull]);
    assert number.items[0] == JNum(1) && !FactorRenders(JNum(1));
    assert nothing.items[0] == JNull && !FactorRenders(JNull);
  }

  /** A string, or an array of strings. */
  predicate StringValued(v: Json) {
    v.JStr? || (v.JArr? && forall j :: 0 <= j < |v.items| ==> v.items[j].JStr?)
  }

  /** An entry of a context that renders by construction. */
  predicate StringEntry(e: (string, Json)) {
    && StringValued(e.1)
    && (e.0 == ConfidenceKey ==> e.1.JStr?)
    && (e.0 == RiskFactorsKey ==> e.1.JArr?)
  }

  /** A context whose values are strings or arrays of strings, with a
      string `confidence` and an array `riskFactors`, renders. */
  lemma StringContextRenders(fields: seq<(string, Json)>)
    requires forall e :: e in fields ==> StringEntry(e)
    ensures CardRenders(fields)
  {
    forall k | 0 <= k < |fields| && fields[k].0 != RiskFactorsKey
      ensures EntryRenders(fields[k])
    {
      assert StringEntry(fields[k]);
    }
    var f := Field(fields, RiskFactorsKey);
    if f.Some? {
      var k :| 0 <= k < |fields| && fields[k] == (RiskFactorsKey, f.value);
      assert StringEntry(fields[k]);
    }
  }

  /** The context of the escalation raised for a critical threat holds its
      confidence as a number, so the card cannot render it. */
  lemma ThreatContextDoesNotRender(t: ThreatDetection)
    ensures Escalations.ThreatEscalation(t).context.JObj?
    ensures !ContextRenders(Escalations.ThreatEscalation(t).context.fields)
    ensures !CardRenders(Escalations.ThreatEscalation(t).context.fields)
  {
    var fields := Escalations.ThreatEscalation(t).context.fields;
    assert fields[2].0 == ConfidenceKey && fields[2].0 != RiskFactorsKey && !fields[2].1.JStr?;
  }
}
