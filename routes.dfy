/** The HTTP and WebSocket layer over the record store: the escalation and
    chat routes with their 404 and 400 answers, the broadcast that every
    successful write sends to the open sockets, the governance dashboard
    aggregation, and the dispatch of control messages a socket receives.
    Request bodies reach the handlers already validated; JSON serialisation
    of the outgoing records is not modelled. */
module Routes {
  import opened Tables
  import opened Text
  import opened Schema
  import opened Escalations
  import opened Storage

  // ----- governance dashboard -----

  datatype ThreatSummary = ThreatSummary(critical: nat, high: nat, medium: nat, total: nat)

  datatype GovernanceDashboard = GovernanceDashboard(
    escalations: seq<Escalation>,
    threatDetections: seq<ThreatDetection>,
    activeSessions: seq<AgentSession>,
    recentActions: seq<AgentAction>,
    threatSummary: ThreatSummary)

  const ActiveStatus := "active"
  const RecentLimit := 50

  predicate IsActive(s: AgentSession) {
    s.status == Some(ActiveStatus)
  }

  predicate IsOpenThreat(t: ThreatDetection) {
    !t.mitigated
  }

  predicate IsOpenCritical(t: ThreatDetection) {
    t.severity == "critical" && !t.mitigated
  }

  predicate IsOpenHigh(t: ThreatDetection) {
    t.severity == "high" && !t.mitigated
  }

  predicate IsOpenMedium(t: ThreatDetection) {
    t.severity == "medium" && !t.mitigated
  }

  /** `threatSummary`: counts of the unmitigated threats, by severity and in
      total. */
  function Summarize(threats: seq<ThreatDetection>): ThreatSummary {
    ThreatSummary(
      Count(threats, IsOpenCritical), Count(threats, IsOpenHigh),
      Count(threats, IsOpenMedium), Count(threats, IsOpenThreat))
  }

  /** The dashboard built from the four store lists. */
  function DashboardOf(escalations: seq<Escalation>, threats: seq<ThreatDetection>,
                       sessions: seq<AgentSession>, actions: seq<AgentAction>): (d: GovernanceDashboard)
    ensures d.escalations == escalations && d.threatDetections == threats
    ensures forall s :: s in d.activeSessions <==> s in sessions && IsActive(s)
    ensures |d.recentActions| == if |actions| < RecentLimit then |actions| else RecentLimit
    ensures forall i :: 0 <= i < |d.recentActions| ==> d.recentActions[i] == actions[i]
    ensures d.threatSummary == Summarize(threats)
  {
    var recent := if |actions| < RecentLimit then actions else actions[..RecentLimit];
    GovernanceDashboard(escalations, threats, Filter(sessions, IsActive), recent, Summarize(threats))
  }

  /** `GET /api/governance-dashboard`, read from the store. The recent
      actions are the newest ones: none left out is newer than one kept. */
  function GetGovernanceDashboard(store: MemStorage): (d: GovernanceDashboard)
    reads store
    ensures d.escalations == store.GetEscalations() && d.threatDetections == store.GetThreatDetections()
    ensures d.threatSummary == Summarize(d.threatDetections)
    ensures forall s :: s in d.activeSessions <==> s in store.GetAgentSessions() && IsActive(s)
    ensures var n := |store.GetAgentActions(None)|; |d.recentActions| == if n < RecentLimit then n else RecentLimit
    ensures forall i :: 0 <= i < |d.recentActions| ==> d.recentActions[i] == store.GetAgentActions(None)[i]
    ensures forall i, j :: 0 <= i < |d.recentActions| <= j < |store.GetAgentActions(None)| ==>
      store.GetAgentActions(None)[j].timestamp <= d.recentActions[i].timestamp
  {
    var actions := store.GetAgentActions(None);
    var d := DashboardOf(store.GetEscalations(), store.GetThreatDetections(), store.GetAgentSessions(), actions);
    assert SortedBy(actions, ActionAge);
    NewestKept(actions, d.recentActions);
    d
  }

  /** A prefix of a newest-first list leaves out nothing newer than it keeps. */
  lemma NewestKept(actions: seq<AgentAction>, recent: seq<AgentAction>)
    requires SortedBy(actions, ActionAge)
    requires |recent| <= |actions|
    requires forall i :: 0 <= i < |recent| ==> recent[i] == actions[i]
    ensures forall i, j :: 0 <= i < |recent| <= j < |actions| ==> actions[j].timestamp <= recent[i].timestamp
  {
    forall i, j | 0 <= i < |recent| <= j < |actions|
      ensures actions[j].timestamp <= recent[i].timestamp
    {
      assert ActionAge(actions[i]) <= ActionAge(actions[j]);
    }
  }

  /** The active sessions keep the order of the session list. */
  lemma ActiveSessionsInOrder(sessions: seq<AgentSession>, escalations: seq<Escalation>,
                              threats: seq<ThreatDetection>, actions: seq<AgentAction>)
    ensures IsSubsequence(DashboardOf(escalations, threats, sessions, actions).activeSessions, sessions)
  {
    FilterIsSubsequence(sessions, IsActive);
  }

  /** The severity counts never exceed the total of unmitigated threats. */
  lemma {:induction false} SummaryBounded(threats: seq<ThreatDetection>)
    ensures var s := Summarize(threats); s.critical + s.high + s.medium <= s.total
  {
    if threats != [] {
      SummaryBounded(threats[1..]);
    }
  }

  /** Adding a threat to the list: a mitigated one changes nothing; an
      unmitigated one adds one to the total and one to its own severity's
      count, if it has one (a low threat only adds to the total). */
  lemma SummaryAppend(threats: seq<ThreatDetection>, t: ThreatDetection)
    ensures var before, after := Summarize(threats), Summarize(threats + [t]);
      && after.total == before.total + (if t.mitigated then 0 else 1)
      && after.critical == before.critical + (if IsOpenCritical(t) then 1 else 0)
      && after.high == before.high + (if IsOpenHigh(t) then 1 else 0)
      && after.medium == before.medium + (if IsOpenMedium(t) then 1 else 0)
  {
    FilterAppend(threats, [t], IsOpenThreat);
    FilterAppend(threats, [t], IsOpenCritical);
    FilterAppend(threats, [t], IsOpenHigh);
    FilterAppend(threats, [t], IsOpenMedium);
  }

  // ----- messages on the socket -----

  /** What the server sends on a socket. */
  datatype Outbound =
    | NewEscalationEvent(escalation: Escalation)
    | EscalationUpdatedEvent(escalation: Escalation)
    | NewMessageEvent(message: ChatMessage)
    | Pong
    | Subscribed(topic: string)

  const EscalationsTopic := "escalations"

  /** The `type` field on the wire. */
  function WireType(o: Outbound): string {
    match o
    case NewEscalationEvent(_) => "new_escalation"
    case EscalationUpdatedEvent(_) => "escalation_updated"
    case NewMessageEvent(_) => "new_message"
    case Pong => "pong"
    case Subscribed(_) => "subscribed"
  }

  /** `data.type` when it is a string; `None` for a message that is not
      JSON (`None`), not an object, or has no string `type`. */
  function MessageType(data: Option<Json>): Option<string> {
    if data.Some? && data.value.JObj? then
      match Field(data.value.fields, "type")
      case Some(JStr(t)) => Some(t)
      case _ => None
    else None
  }

  /** The reply to a control message: `ping` is answered with `pong`,
      `subscribe_escalations` with `subscribed`, and anything else, including
      a message that does not parse, with nothing. */
  function Dispatch(data: Option<Json>): (r: Option<Outbound>)
    ensures r.Some? ==> r.value == Pong || r.value == Subscribed(EscalationsTopic)
  {
    var t := MessageType(data);
    if t == Some("ping") then Some(Pong)
    else if t == Some("subscribe_escalations") then Some(Subscribed(EscalationsTopic))
    else None
  }

  /** The type decides the reply whatever else the object holds, and the
      last `type` key is the one that counts. */
  lemma DispatchByLastType(fields: seq<(string, Json)>, t: string)
    ensures var r := Dispatch(Some(JObj(fields + [("type", JStr(t))])));
      && (r == Some(Pong) <==> t == "ping")
      && (r == Some(Subscribed(EscalationsTopic)) <==> t == "subscribe_escalations")
      && (r.None? <==> t != "ping" && t != "subscribe_escalations")
      && (r.Some? ==> WireType(r.value) == (if t == "ping" then "pong" else "subscribed"))
  {
    var fs := fields + [("type", JStr(t))];
    assert Field(fs, "type") == Some(JStr(t));
  }

  /** A message without a string `type` is never answered. */
  lemma NoTypeNoReply(data: Option<Json>)
    requires data.None? || !data.value.JObj? || Field(data.value.fields, "type").None?
    ensures Dispatch(data).None?
  {
  }

  // ----- sockets -----

  const Connecting := 0
  const Open := 1
  const Closing := 2
  const Closed := 3

  /** A connected client: its `readyState` and what has been sent on it. */
  class Socket {
    var readyState: int
    var sent: seq<Outbound>

    constructor (state: int)
      ensures readyState == state && sent == []
    {
      readyState := state;
      sent := [];
    }

    /** `ws.on('message')`: the reply, if any, is sent on the same socket. */
    method OnMessage(data: Option<Json>)
      modifies this`sent
      ensures Dispatch(data).Some? ==> sent == old(sent) + [Dispatch(data).value]
      ensures Dispatch(data).None? ==> sent == old(sent)
    {
      var reply := Dispatch(data);
      if reply.Some? {
        sent := sent + [reply.value];
      }
    }
  }

  /** `wss.clients.forEach`: one copy of `event` to every open client and
      nothing to the others. The order of the set does not matter. */
  method Broadcast(clients: set<Socket>, event: Outbound)
    modifies clients
    ensures forall c :: c in clients ==> c.readyState == old(c.readyState)
    ensures forall c :: c in clients ==> c.sent == old(c.sent) + (if c.readyState == Open then [event] else [])
  {
    var remaining := clients;
    while remaining != {}
      invariant remaining <= clients
      invariant forall c :: c in clients ==> c.readyState == old(c.readyState)
      invariant forall c :: c in remaining ==> c.sent == old(c.sent)
      invariant forall c :: c in clients - remaining ==> c.sent == old(c.sent) + (if c.readyState == Open then [event] else [])
      decreases remaining
    {
      var c :| c in remaining;
      if c.readyState == Open {
        c.sent := c.sent + [event];
      }
      remaining := remaining - {c};
    }
  }

  // ----- routes -----

  datatype Body =
    | EscalationBody(escalation: Escalation)
    | MessageBody(message: ChatMessage)
    | ErrorBody(error: string)

  datatype Response = Response(status: int, body: Body)

  const EscalationNotFound := "Escalation not found"
  const InvalidMessage := "Invalid message data"

  /** `GET /api/escalations/:id`: the stored record, or 404 when the path
      segment is not a number or names no escalation. */
  function GetEscalationRoute(store: MemStorage, idParam: string): (res: Response)
    reads store
    ensures var id := ParseIntPrefix(idParam);
      if id.Some? && id.value in store.escalations.entries
      then res == Response(200, EscalationBody(store.escalations.entries[id.value]))
      else res == Response(404, ErrorBody(EscalationNotFound))
  {
    var id := ParseIntPrefix(idParam);
    if id.None? then Response(404, ErrorBody(EscalationNotFound))
    else
      match store.GetEscalation(id.value)
      case Some(e) => Response(200, EscalationBody(e))
      case None => Response(404, ErrorBody(EscalationNotFound))
  }

  /** `POST /api/escalations`: the new record is stored, then announced to
      every open client, then returned with 201. */
  method PostEscalation(store: MemStorage, clients: set<Socket>, input: InsertEscalation, now: int) returns (res: Response)
    modifies store`escalations, store`currentEscalationId, clients
    ensures var e := NewEscalation(input, old(store.currentEscalationId), now);
      && res == Response(201, EscalationBody(e))
      && store.escalations == old(store.escalations).Set(old(store.currentEscalationId), e)
      && store.currentEscalationId == old(store.currentEscalationId) + 1
      && forall c :: c in clients ==> c.sent == old(c.sent) + (if c.readyState == Open then [NewEscalationEvent(e)] else [])
    ensures forall c :: c in clients ==> c.readyState == old(c.readyState)
  {
    var e := store.CreateEscalation(input, now);
    Broadcast(clients, NewEscalationEvent(e));
    res := Response(201, EscalationBody(e));
  }

  /** `PATCH /api/escalations/:id`: an unknown id is answered with 404 and
      nothing is stored or broadcast; otherwise the merged record is stored,
      announced to every open client and returned. */
  method PatchEscalation(store: MemStorage, clients: set<Socket>, idParam: string, u: EscalationUpdate, now: int)
    returns (res: Response)
    modifies store`escalations, clients
    ensures var id := ParseIntPrefix(idParam);
      if id.Some? && id.value in old(store.escalations.entries) then
        var e := UpdatedEscalation(old(store.escalations.entries[id.value]), u, now);
        && res == Response(200, EscalationBody(e))
        && store.escalations == old(store.escalations).Set(id.value, e)
        && forall c :: c in clients ==> c.sent == old(c.sent) + (if c.readyState == Open then [EscalationUpdatedEvent(e)] else [])
      else
        && res == Response(404, ErrorBody(EscalationNotFound))
        && store.escalations == old(store.escalations)
        && forall c :: c in clients ==> c.sent == old(c.sent)
    ensures forall c :: c in clients ==> c.readyState == old(c.readyState)
  {
    var id := ParseIntPrefix(idParam);
    if id.None? {
      return Response(404, ErrorBody(EscalationNotFound));
    }
    var r := store.UpdateEscalation(id.value, u, now);
    if r.None? {
      return Response(404, ErrorBody(EscalationNotFound));
    }
    Broadcast(clients, EscalationUpdatedEvent(r.value));
    res := Response(200, EscalationBody(r.value));
  }

  /** `POST /api/escalations/:id/messages`: the escalation id comes from the
      path and overrides the body's; a path that is not a number fails
      validation with 400. The escalation is not required to exist. */
  method PostMessage(store: MemStorage, clients: set<Socket>, idParam: string, sender: string, message: string, now: int)
    returns (res: Response)
    modifies store`chatMessages, store`currentChatId, clients
    ensures var id := ParseIntPrefix(idParam);
      if id.Some? then
        var m := NewChatMessage(InsertChatMessage(id.value, sender, message), old(store.currentChatId), now);
        && res == Response(201, MessageBody(m))
        && store.chatMessages == old(store.chatMessages).Set(old(store.currentChatId), m)
        && store.currentChatId == old(store.currentChatId) + 1
        && forall c :: c in clients ==> c.sent == old(c.sent) + (if c.readyState == Open then [NewMessageEvent(m)] else [])
      else
        && res == Response(400, ErrorBody(InvalidMessage))
        && store.chatMessages == old(store.chatMessages) && store.currentChatId == old(store.currentChatId)
        && forall c :: c in clients ==> c.sent == old(c.sent)
    ensures forall c :: c in clients ==> c.readyState == old(c.readyState)
  {
    var id := ParseIntPrefix(idParam);
    if id.None? {
      return Response(400, ErrorBody(InvalidMessage));
    }
    var m := store.CreateChatMessage(InsertChatMessage(id.value, sender, message), now);
    Broadcast(clients, NewMessageEvent(m));
    res := Response(201, MessageBody(m));
  }

  /** A stored escalation is found by the path that renders its id. */
  lemma GetByRenderedId(store: MemStorage, id: nat)
    requires id in store.escalations.entries
    ensures GetEscalationRoute(store, NatToString(id)) == Response(200, EscalationBody(store.escalations.entries[id]))
  {
    ParseIntOfNatToString(id);
  }
}
