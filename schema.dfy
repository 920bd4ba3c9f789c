/** The record shapes of the governance store: one datatype per table, one
    per insert shape (the columns a caller may supply) and one per partial
    update (`Partial<T>`: every field optional). Timestamps are milliseconds
    since the epoch; `jsonb` columns are `Json` values whose objects keep
    their key order. */
module Schema {
  import opened Tables

  datatype Json =
    | JNull
    | JBool(b: bool)
    | JNum(n: int)
    | JStr(s: string)
    | JArr(items: seq<Json>)
    | JObj(fields: seq<(string, Json)>)

  // Documented values of the text columns. The columns themselves are plain
  // text, so the store accepts any string; these name the values the
  // application writes and the client knows how to display.

  const Pending := "pending"
  const EscalationStatuses := {"pending", "approved", "denied", "escalated"}
  const RiskLevels := {"high", "medium", "low"}
  const Senders := {"agent", "operator"}
  const SessionStatuses := {"active", "completed", "terminated"}
  const ActionTypes := {"tool_call", "message", "delegation", "escalation"}
  const ThreatTypes := {"collusion", "misalignment", "boundary_violation", "anomaly"}
  const Severities := {"low", "medium", "high", "critical"}
  const EvaluationTypes := {"intent_drift", "policy_compliance", "behavior_anomaly"}

  /** JavaScript truthiness of an optional string: present and not empty. */
  predicate Truthy(s: Option<string>) {
    s.Some? && s.value != ""
  }

  /** JavaScript truthiness of a JSON value. */
  predicate JsonTruthy(v: Json) {
    match v
    case JNull => false
    case JBool(b) => b
    case JNum(n) => n != 0
    case JStr(s) => s != ""
    case _ => true
  }

  /** A property of a parsed JSON object; the last of duplicate keys wins,
      as in `JSON.parse`. */
  function Field(fields: seq<(string, Json)>, key: string): (r: Option<Json>)
    ensures r.None? <==> forall i :: 0 <= i < |fields| ==> fields[i].0 != key
    ensures r.Some? ==> exists i :: 0 <= i < |fields| && fields[i] == (key, r.value)
  {
    if fields == [] then None
    else if fields[|fields| - 1].0 == key then Some(fields[|fields| - 1].1)
    else Field(fields[..|fields| - 1], key)
  }

  datatype User = User(id: int, username: string, password: string)
  datatype InsertUser = InsertUser(username: string, password: string)

  datatype Escalation = Escalation(
    id: int,
    agentId: string,
    title: string,
    agentType: string,
    riskLevel: string,
    escalationReason: string,
    question: string,
    context: Json,
    slaMinutes: int,
    createdAt: int,
    status: string,
    operatorId: Option<string>,
    response: Option<string>,
    resolvedAt: Option<int>)

  /** The escalation insert shape: `id`, `createdAt` and `resolvedAt` are not
      part of it; `status`, `operatorId` and `response` may be left out. */
  datatype InsertEscalation = InsertEscalation(
    agentId: string,
    title: string,
    agentType: string,
    riskLevel: string,
    escalationReason: string,
    question: string,
    context: Json,
    slaMinutes: int,
    status: Option<string>,
    operatorId: Option<string>,
    response: Option<string>)

  /** `Partial<Escalation>`: a field that is `None` is absent from the update;
      the nullable columns take `Some(None)` for an explicit null. */
  datatype EscalationUpdate = EscalationUpdate(
    id: Option<int>,
    agentId: Option<string>,
    title: Option<string>,
    agentType: Option<string>,
    riskLevel: Option<string>,
    escalationReason: Option<string>,
    question: Option<string>,
    context: Option<Json>,
    slaMinutes: Option<int>,
    createdAt: Option<int>,
    status: Option<string>,
    operatorId: Option<Option<string>>,
    response: Option<Option<string>>,
    resolvedAt: Option<Option<int>>)

  const NoEscalationChange := EscalationUpdate(None, None, None, None, None, None, None, None, None, None, None, None, None, None)

  function Pick<T>(u: Option<T>, current: T): T {
    if u.Some? then u.value else current
  }

  /** `{ ...e, ...u }`. */
  function SpreadEscalation(e: Escalation, u: EscalationUpdate): Escalation {
    Escalation(
      Pick(u.id, e.id), Pick(u.agentId, e.agentId), Pick(u.title, e.title),
      Pick(u.agentType, e.agentType), Pick(u.riskLevel, e.riskLevel),
      Pick(u.escalationReason, e.escalationReason), Pick(u.question, e.question),
      Pick(u.context, e.context), Pick(u.slaMinutes, e.slaMinutes),
      Pick(u.createdAt, e.createdAt), Pick(u.status, e.status),
      Pick(u.operatorId, e.operatorId), Pick(u.response, e.response),
      Pick(u.resolvedAt, e.resolvedAt))
  }

  datatype ChatMessage = ChatMessage(id: int, escalationId: int, sender: string, message: string, timestamp: int)
  datatype InsertChatMessage = InsertChatMessage(escalationId: int, sender: string, message: string)

  /** `status` is `None` when a session was inserted without one: the column
      default is not applied by the in-memory store. */
  datatype AgentSession = AgentSession(
    id: int,
    sessionId: string,
    orchestratorId: string,
    status: Option<string>,
    startedAt: int,
    completedAt: Option<int>,
    metadata: Json)

  datatype InsertAgentSession = InsertAgentSession(
    sessionId: string,
    orchestratorId: string,
    status: Option<string>,
    metadata: Json)

  datatype AgentSessionUpdate = AgentSessionUpdate(
    id: Option<int>,
    sessionId: Option<string>,
    orchestratorId: Option<string>,
    status: Option<Option<string>>,
    startedAt: Option<int>,
    completedAt: Option<Option<int>>,
    metadata: Option<Json>)

  function SpreadSession(s: AgentSession, u: AgentSessionUpdate): AgentSession {
    AgentSession(
      Pick(u.id, s.id), Pick(u.sessionId, s.sessionId), Pick(u.orchestratorId, s.orchestratorId),
      Pick(u.status, s.status), Pick(u.startedAt, s.startedAt),
      Pick(u.completedAt, s.completedAt), Pick(u.metadata, s.metadata))
  }

  /** The three payload entries the scorer and the detector read: `amount`
      (a currency string such as "$6,000.00") and the truthiness of
      `afterHours` and `newMerchant`. */
  datatype Payload = Payload(amount: Option<string>, afterHours: bool, newMerchant: bool)

  /** The action insert shape: `riskScore` and `flagged` are not part of it,
      so the score is always computed by the store. */
  datatype InsertAgentAction = InsertAgentAction(
    sessionId: string,
    agentId: string,
    actionType: string,
    targetAgent: Option<string>,
    payload: Payload)

  datatype AgentAction = AgentAction(
    id: int,
    sessionId: string,
    agentId: string,
    actionType: string,
    targetAgent: Option<string>,
    payload: Payload,
    timestamp: int,
    riskScore: int,
    flagged: bool)

  datatype AgentActionUpdate = AgentActionUpdate(
    id: Option<int>,
    sessionId: Option<string>,
    agentId: Option<string>,
    actionType: Option<string>,
    targetAgent: Option<Option<string>>,
    payload: Option<Payload>,
    timestamp: Option<int>,
    riskScore: Option<int>,
    flagged: Option<bool>)

  function SpreadAction(a: AgentAction, u: AgentActionUpdate): AgentAction {
    AgentAction(
      Pick(u.id, a.id), Pick(u.sessionId, a.sessionId), Pick(u.agentId, a.agentId),
      Pick(u.actionType, a.actionType), Pick(u.targetAgent, a.targetAgent),
      Pick(u.payload, a.payload), Pick(u.timestamp, a.timestamp),
      Pick(u.riskScore, a.riskScore), Pick(u.flagged, a.flagged))
  }

  /** The threat insert shape: `mitigated` is not part of it. */
  datatype InsertThreatDetection = InsertThreatDetection(
    sessionId: string,
    threatType: string,
    severity: string,
    description: string,
    evidence: Json,
    judgeModelId: string,
    confidence: int)

  datatype ThreatDetection = ThreatDetection(
    id: int,
    sessionId: string,
    threatType: string,
    severity: string,
    description: string,
    evidence: Json,
    detectedAt: int,
    judgeModelId: string,
    confidence: int,
    mitigated: bool)

  datatype ThreatUpdate = ThreatUpdate(
    id: Option<int>,
    sessionId: Option<string>,
    threatType: Option<string>,
    severity: Option<string>,
    description: Option<string>,
    evidence: Option<Json>,
    detectedAt: Option<int>,
    judgeModelId: Option<string>,
    confidence: Option<int>,
    mitigated: Option<bool>)

  function SpreadThreat(t: ThreatDetection, u: ThreatUpdate): ThreatDetection {
    ThreatDetection(
      Pick(u.id, t.id), Pick(u.sessionId, t.sessionId), Pick(u.threatType, t.threatType),
      Pick(u.severity, t.severity), Pick(u.description, t.description),
      Pick(u.evidence, t.evidence), Pick(u.detectedAt, t.detectedAt),
      Pick(u.judgeModelId, t.judgeModelId), Pick(u.confidence, t.confidence),
      Pick(u.mitigated, t.mitigated))
  }

  /** The evaluation insert shape: `escalationTriggered` is not part of it. */
  datatype InsertJudgeEvaluation = InsertJudgeEvaluation(
    sessionId: string,
    judgeModelId: string,
    evaluationType: string,
    targetActions: Json,
    assessment: Json,
    recommendation: string)

  datatype JudgeEvaluation = JudgeEvaluation(
    id: int,
    sessionId: string,
    judgeModelId: string,
    evaluationType: string,
    targetActions: Json,
    assessment: Json,
    recommendation: string,
    timestamp: int,
    escalationTriggered: bool)
}
