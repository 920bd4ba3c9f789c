/** The demonstration data `MemStorage` writes when it is built: two agent
    sessions, four agent actions, three threat detections and six
    escalations. Times are relative to the moment of construction, `now`.
    Of each action payload only the entries the scorer and the detector
    read are kept, and none of these payloads has them. The prose is kept
    verbatim, cut into pieces joined by `+`. */
module Fixtures {
  import opened Tables
  import opened Schema

  // ----- agent sessions -----

  const CollusionSessionId := "session-collusion-001"
  const MisalignSessionId := "session-misalign-002"
  const Active := "active"
  const JudgeModel := "judge-v1"

  function CollusionSession(now: int): AgentSession {
    AgentSession(1, CollusionSessionId, "orchestrator-main", Some(Active), now - 600000, None,
      JObj([("task", JStr("Payment approval for " + "QuickPay Solutions")),
            ("agents", JArr([JStr("PA-001"), JStr("SV-001")])),
            ("riskLevel", JStr("high"))]))
  }

  function MisalignSession(now: int): AgentSession {
    AgentSession(2, MisalignSessionId, "orchestrator-vendor", Some(Active), now - 900000, None,
      JObj([("task", JStr("Vendor optimization " + "and cost reduction")),
            ("agents", JArr([JStr("VA-002")])),
            ("originalIntent", JStr("optimize vendor spend " + "within contractual bounds"))]))
  }

  // ----- agent actions -----

  const NoFlags := Payload(None, false, false)
  const Message := "message"
  const Delegation := "delegation"

  const CollusionAction1 := InsertAgentAction(CollusionSessionId, "PA-001", Message, Some("SV-001"), NoFlags)
  const CollusionAction2 := InsertAgentAction(CollusionSessionId, "SV-001", Message, Some("PA-001"), NoFlags)
  const CollusionAction3 := InsertAgentAction(CollusionSessionId, "PA-001", Message, Some("SV-001"), NoFlags)
  const MisalignAction := InsertAgentAction(MisalignSessionId, "VA-002", Delegation, None, NoFlags)

  /** `[...collusionActions, ...misalignActions]`, in that order. */
  const MockActions := [CollusionAction1, CollusionAction2, CollusionAction3, MisalignAction]

  // ----- threat detections -----

  function CollusionFixture(now: int): ThreatDetection {
    ThreatDetection(1, CollusionSessionId, "collusion", "high",
      "Payment Agent and Supplier " + "Validator showing coordinated "
      + "behavior to bypass merchant " + "validation protocols",
      JObj([("messageCount", JNum(12)), ("timeWindow", JStr("3 minutes")),
            ("policyViolations", JArr([JStr("merchant_whitelist_bypass"), JStr("validation_skip")])),
            ("riskScore", JNum(87))]),
      now - 180000, JudgeModel, 87, false)
  }

  function MisalignFixture(now: int): ThreatDetection {
    ThreatDetection(2, MisalignSessionId, "misalignment", "medium",
      "Vendor Agent attempting to " + "exceed authority boundaries by "
      + "auto-switching suppliers " + "without contractual review",
      JObj([("originalInstruction", JStr("optimize vendor spend")), ("agentAction", JStr("auto_switch_vendor")),
            ("authorityViolation", JStr("contractual_review_required")), ("riskScore", JNum(72))]),
      now - 300000, JudgeModel, 92, false)
  }

  function BoundaryFixture(now: int): ThreatDetection {
    ThreatDetection(3, CollusionSessionId, "boundary_violation", "critical",
      "Agent attempting financial " + "transaction exceeding "
      + "authority limits without " + "proper escalation",
      JObj([("amount", JStr("$1,800")), ("limit", JStr("$1,000")),
            ("merchantStatus", JStr("unlisted")), ("timeOfDay", JStr("after_hours"))]),
      now - 120000, JudgeModel, 95, false)
  }

  /** The fixture threat with id `id`. */
  function MockThreat(id: int, now: int): ThreatDetection
    requires 1 <= id <= 3
  {
    if id == 1 then CollusionFixture(now) else if id == 2 then MisalignFixture(now) else BoundaryFixture(now)
  }

  // ----- escalations -----

  const JudgeAgent := "Judge Model"
  const PendingStatus := Some(Pending)

  function RiskFactors(names: seq<string>): Json {
    JArr(seq(|names|, i requires 0 <= i < |names| => JStr(names[i])))
  }

  /** `mockEscalations`, in the order they are created. */
  function MockEscalations(): seq<InsertEscalation> {
    seq(6, i requires 0 <= i < 6 => MockEscalation(i))
  }

  /** Entry `i` of `mockEscalations`. */
  function MockEscalation(i: nat): InsertEscalation
    requires i < 6
  {
    match i
    case 0 =>
      InsertEscalation(
        "COLLUSION-DETECT-001", "Multi-Agent Collusion Detected", JudgeAgent, "high", "Threat Detection System",
        "Payment Agent (PA-001) and Supplier Validator "
        + "(SV-001) are exhibiting suspicious coordination "
        + "patterns. They've exchanged 12 messages in 3 "
        + "minutes to approve a $1,800 transaction with an "
        + "unlisted merchant. This violates our collusion "
        + "prevention protocols. Should this transaction be "
        + "blocked?",
        JObj([("sessionId", JStr(CollusionSessionId)), ("agents", JArr([JStr("PA-001"), JStr("SV-001")])),
              ("threatType", JStr("collusion")), ("amount", JStr("$1,800.00")),
              ("merchant", JStr("QuickPay Solutions")), ("confidence", JStr("87%")),
              ("evidence", JStr("Excessive inter-agent messaging, " + "policy boundary testing")),
              ("judgeModelId", JStr(JudgeModel))]),
        15, PendingStatus, None, None)
    case 1 =>
      InsertEscalation(
        "MISALIGN-DETECT-002", "Principal-Agent Misalignment", JudgeAgent, "medium", "Intent Drift Detection",
        "Vendor Agent was instructed to 'optimize supplier "
        + "costs' but has attempted to auto-switch to an "
        + "unvetted supplier violating contractual "
        + "obligations. The agent is exceeding its authority "
        + "boundaries. Should this delegation be terminated?",
        JObj([("sessionId", JStr(MisalignSessionId)), ("originalIntent", JStr("optimize vendor spend")),
              ("agentAction", JStr("automatically switch vendor")), ("violation", JStr("contractual clause ignored")),
              ("confidence", JStr("92%")),
              ("evidence", JStr("Authority boundary exceeded, " + "contract compliance failure"))]),
        20, PendingStatus, None, None)
    case 2 =>
      InsertEscalation(
        "PA-2024-001", "Payment Authorization Required", "Payment Agent", "high", "Low Confidence",
        "This merchant is new (first transaction) and the "
        + "amount exceeds after-hours policy limits. Risk "
        + "indicators: unusual time, new recipient, amount "
        + "threshold breach. Should I approve this payment?",
        JObj([("amount", JStr("$2,900.00")), ("merchant", JStr("XYZ Imports Ltd.")), ("time", JStr("2:14 AM EST")),
              ("confidence", JStr("32%")),
              ("riskFactors", RiskFactors(["New Merchant", "After Hours", "Amount Threshold"]))]),
        5, PendingStatus, None, None)
    case 3 =>
      InsertEscalation(
        "FD-2024-007", "Suspicious Activity Detection", "Fraud Detection", "medium", "Unknown Entity",
        "User shows impossible travel pattern with "
        + "multiple failed 2FA attempts. Should I "
        + "temporarily lock the account or request "
        + "additional verification?",
        JObj([("userAccount", JStr("john.doe@company.com")), ("pattern", JStr("Rapid consecutive logins")),
              ("anomalyScore", JStr("74%")), ("locationChange", JStr("NYC \U{2192} London (2 hours)")),
              ("riskFactors", RiskFactors(["Impossible Travel", "Failed 2FA", "Rapid Logins"]))]),
        15, PendingStatus, None, None)
    case 4 =>
      InsertEscalation(
        "CP-2024-012", "Policy Clarification Needed", "Compliance Agent", "low", "Policy Violation",
        "Contract includes remote work provision, but "
        + "employee is requesting work from different "
        + "country. Current policy doesn't explicitly cover "
        + "international remote work. How should I proceed?",
        JObj([("documentType", JStr("Employment Contract")), ("jurisdiction", JStr("California, US")),
              ("edgeCase", JStr("Remote worker clause")), ("confidence", JStr("89%")),
              ("riskFactors", RiskFactors(["Policy Gap", "International Work", "High Confidence"]))]),
        30, PendingStatus, None, None)
    case 5 =>
      InsertEscalation(
        "TE-2024-003", "Trade Execution Approval", "Trade Agent", "high", "Amount Threshold",
        "Large order size detected ($1.89M) with unusual "
        + "market volatility. Order exceeds automated "
        + "approval limits. Execute trade or wait for market "
        + "stabilization?",
        JObj([("symbol", JStr("AAPL")), ("orderType", JStr("Market Buy")), ("quantity", JStr("10,000 shares")),
              ("estValue", JStr("$1,890,000")),
              ("riskFactors", RiskFactors(["Large Order", "High Volatility", "Approval Limit", "Time Sensitive"]))]),
        2, PendingStatus, None, None)
  }
}
