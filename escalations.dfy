/** The escalation records the store builds: the record `createEscalation`
    stores, the record `updateEscalation` stores (including its `resolvedAt`
    rule), and the escalation `escalateThreat` requests for a critical
    threat. */
module Escalations {
  import opened Tables
  import opened Text
  import opened Schema

  /** `x || fallback` for an optional string. */
  function OrDefault(x: Option<string>, fallback: string): string {
    if Truthy(x) then x.value else fallback
  }

  /** `x || null` for an optional string. */
  function OrNull(x: Option<string>): Option<string> {
    if Truthy(x) then x else None
  }

  /** The record `createEscalation` stores under `id` at time `now`. */
  function NewEscalation(input: InsertEscalation, id: int, now: int): (e: Escalation)
    ensures e.id == id && e.createdAt == now && e.resolvedAt == None
    ensures e.status == (if Truthy(input.status) then input.status.value else Pending)
    ensures e.status != ""
    ensures e.operatorId.Some? <==> Truthy(input.operatorId)
    ensures e.response.Some? <==> Truthy(input.response)
    ensures ToInsert(e) == Normalized(input)
  {
    Escalation(
      id, input.agentId, input.title, input.agentType, input.riskLevel,
      input.escalationReason, input.question, input.context, input.slaMinutes,
      now, OrDefault(input.status, Pending), OrNull(input.operatorId), OrNull(input.response), None)
  }

  /** The input fields of a stored escalation, read back as an insert. */
  function ToInsert(e: Escalation): InsertEscalation {
    InsertEscalation(
      e.agentId, e.title, e.agentType, e.riskLevel, e.escalationReason, e.question,
      e.context, e.slaMinutes, Some(e.status), e.operatorId, e.response)
  }

  /** An insert with its defaults made explicit. */
  function Normalized(input: InsertEscalation): InsertEscalation {
    input.(status := Some(OrDefault(input.status, Pending)),
           operatorId := OrNull(input.operatorId),
           response := OrNull(input.response))
  }

  /** Reading a created escalation back gives every input field, with the
      defaults filled in; an input that already spells out its status,
      operator and response comes back unchanged. */
  lemma CreateRoundTrip(input: InsertEscalation, id: int, now: int)
    requires Truthy(input.status)
    requires input.operatorId.None? || Truthy(input.operatorId)
    requires input.response.None? || Truthy(input.response)
    ensures ToInsert(NewEscalation(input, id, now)) == input
  {
  }

  /** `updates.status && updates.status !== "pending"`. */
  predicate Resolves(u: EscalationUpdate) {
    Truthy(u.status) && u.status.value != Pending
  }

  /** The record `updateEscalation` stores: `{ ...e, ...u }`, then
      `resolvedAt := now` whenever the update carries a non-pending status. */
  function UpdatedEscalation(e: Escalation, u: EscalationUpdate, now: int): (r: Escalation)
    ensures Resolves(u) ==> r.resolvedAt == Some(now)
    ensures !Resolves(u) ==> r.resolvedAt == Pick(u.resolvedAt, e.resolvedAt)
    ensures r.status == Pick(u.status, e.status)
    ensures r.(resolvedAt := e.resolvedAt) == SpreadEscalation(e, u).(resolvedAt := e.resolvedAt)
  {
    var merged := SpreadEscalation(e, u);
    if Resolves(u) then merged.(resolvedAt := Some(now)) else merged
  }

  /** Every field the update leaves out keeps its stored value; only
      `resolvedAt` may change without being named. */
  lemma UpdateKeepsAbsentFields(e: Escalation, u: EscalationUpdate, now: int)
    ensures var r := UpdatedEscalation(e, u, now);
      && (u.id.None? ==> r.id == e.id)
      && (u.agentId.None? ==> r.agentId == e.agentId)
      && (u.title.None? ==> r.title == e.title)
      && (u.agentType.None? ==> r.agentType == e.agentType)
      && (u.riskLevel.None? ==> r.riskLevel == e.riskLevel)
      && (u.escalationReason.None? ==> r.escalationReason == e.escalationReason)
      && (u.question.None? ==> r.question == e.question)
      && (u.context.None? ==> r.context == e.context)
      && (u.slaMinutes.None? ==> r.slaMinutes == e.slaMinutes)
      && (u.createdAt.None? ==> r.createdAt == e.createdAt)
      && (u.status.None? ==> r.status == e.status)
      && (u.operatorId.None? ==> r.operatorId == e.operatorId)
      && (u.response.None? ==> r.response == e.response)
      && (u.status.None? && u.resolvedAt.None? ==> r.resolvedAt == e.resolvedAt)
  {
  }

  /** Re-applying the same terminal status moves `resolvedAt` to the time of
      the second call: the update is not idempotent. */
  lemma ReapplyingStatusMovesResolvedAt(e: Escalation, u: EscalationUpdate, t1: int, t2: int)
    requires Resolves(u) && t1 != t2
    ensures var once := UpdatedEscalation(e, u, t1);
      var twice := UpdatedEscalation(once, u, t2);
      twice.status == once.status && twice.resolvedAt == Some(t2) && twice.resolvedAt != once.resolvedAt
  {
  }

  /** Setting the status back to pending does not clear `resolvedAt`. */
  lemma PendingKeepsResolvedAt(e: Escalation, u: EscalationUpdate, now: int)
    requires u.status == Some(Pending) && u.resolvedAt.None?
    ensures UpdatedEscalation(e, u, now).status == Pending
    ensures UpdatedEscalation(e, u, now).resolvedAt == e.resolvedAt
  {
  }

  /** The design's invariant: `resolvedAt` is set exactly when the status is
      not pending. */
  predicate ResolutionConsistent(e: Escalation) {
    e.resolvedAt.Some? <==> e.status != Pending
  }

  /** A terminal status update establishes the invariant, whatever the record
      held before. */
  lemma ResolvingUpdateIsConsistent(e: Escalation, u: EscalationUpdate, now: int)
    requires Resolves(u)
    ensures ResolutionConsistent(UpdatedEscalation(e, u, now))
  {
  }

  /** The stored code does not keep that invariant: an escalation created
      with a terminal status has no `resolvedAt`, and a resolved escalation
      set back to pending keeps its `resolvedAt`. */
  lemma ResolutionInvariantGaps(input: InsertEscalation, e: Escalation, id: int, now: int)
    requires input.status == Some("approved")
    requires e.status == "denied" && e.resolvedAt.Some?
    ensures !ResolutionConsistent(NewEscalation(input, id, now))
    ensures !ResolutionConsistent(UpdatedEscalation(e, NoEscalationChange.(status := Some(Pending)), now))
  {
  }

  /** The idempotent rule the design asks for: the timestamp is only set when
      the stored status actually changes away from pending. This is not what
      the store does; it is stated to show the difference. */
  function UpdatedEscalationOnce(e: Escalation, u: EscalationUpdate, now: int): (r: Escalation)
    ensures r.status == Pick(u.status, e.status)
    ensures Resolves(u) && e.status == Pending ==> r.resolvedAt == Some(now)
    ensures Resolves(u) && e.status != Pending ==> r.resolvedAt == e.resolvedAt
  {
    var merged := SpreadEscalation(e, u);
    if Resolves(u) then
      merged.(resolvedAt := if e.status == Pending then Some(now) else e.resolvedAt)
    else merged
  }

  /** Under that rule a repeated status update is idempotent, and it agrees
      with the store on the first resolution of a pending escalation. */
  lemma OnceIsIdempotent(e: Escalation, u: EscalationUpdate, t1: int, t2: int)
    requires Resolves(u)
    ensures UpdatedEscalationOnce(UpdatedEscalationOnce(e, u, t1), u, t2) == UpdatedEscalationOnce(e, u, t1)
    ensures e.status == Pending ==> UpdatedEscalationOnce(e, u, t1) == UpdatedEscalation(e, u, t1)
  {
  }

  /** The fixed texts of an automatic escalation. */
  const ThreatAgentPrefix := "THREAT-"
  const AlertTitle := "Critical Threat Detected: "
  const AlertAgentType := "Threat Detection System"
  const AlertRiskLevel := "high"
  const AlertReason := "Automated Threat Detection"
  const AlertQuestionHead := "A critical "
  const AlertQuestionMid := " threat has been detected. "
  const AlertQuestionTail := ". Immediate review required."
  const AlertSlaMinutes := 15

  /** The escalation `escalateThreat` requests for a threat. */
  function ThreatEscalation(t: ThreatDetection): (x: InsertEscalation)
    ensures x.agentId == ThreatAgentPrefix + IntToString(t.id)
    ensures x.riskLevel == AlertRiskLevel && x.slaMinutes == AlertSlaMinutes && x.status == Some(Pending)
    ensures x.operatorId.None? && x.response.None?
  {
    InsertEscalation(
      ThreatAgentPrefix + IntToString(t.id),
      AlertTitle + t.threatType,
      AlertAgentType,
      AlertRiskLevel,
      AlertReason,
      AlertQuestionHead + t.threatType + AlertQuestionMid + t.description + AlertQuestionTail,
      JObj([("threatId", JNum(t.id)), ("evidence", t.evidence), ("confidence", JNum(t.confidence)), ("sessionId", JStr(t.sessionId))]),
      AlertSlaMinutes,
      Some(Pending),
      None,
      None)
  }

  /** The agent id of an automatic escalation names its threat: different
      threats give different agent ids. */
  lemma ThreatEscalationTraceable(t1: ThreatDetection, t2: ThreatDetection)
    requires t1.id >= 0 && t2.id >= 0
    requires ThreatEscalation(t1).agentId == ThreatEscalation(t2).agentId
    ensures t1.id == t2.id
  {
    var p := ThreatAgentPrefix;
    assert NatToString(t1.id) == (p + NatToString(t1.id))[|p|..];
    assert NatToString(t2.id) == (p + NatToString(t2.id))[|p|..];
    NatToStringInjective(t1.id, t2.id);
  }
}
