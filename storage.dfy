/** `MemStorage`: the in-memory record store. Seven insertion-ordered tables
    and six id counters; every `create*` takes the counter as the new id and
    then increments it, every `update*` merges a partial record into the
    stored one, and storing an agent action runs the threat rules and the
    auto-escalation of critical threats as one synchronous step. The clock
    is the parameter `now`; the random id of a new session is the parameter
    `randomId`. */
module Storage {
  import opened Tables
  import opened Schema
  import opened Escalations
  import opened Detection
  import Fixtures

  function NewUser(input: InsertUser, id: int): (u: User)
    ensures u.id == id && InsertUser(u.username, u.password) == input
  {
    User(id, input.username, input.password)
  }

  function NewChatMessage(input: InsertChatMessage, id: int, now: int): (m: ChatMessage)
    ensures m.id == id && m.timestamp == now
    ensures InsertChatMessage(m.escalationId, m.sender, m.message) == input
  {
    ChatMessage(id, input.escalationId, input.sender, input.message, now)
  }

  /** A new session is keyed by its own `sessionId`, has no completion time,
      and keeps the caller's status as given (no default is applied). */
  function NewSession(input: InsertAgentSession, randomId: nat, now: int): (s: AgentSession)
    ensures s.id == randomId && s.startedAt == now && s.completedAt.None?
    ensures InsertAgentSession(s.sessionId, s.orchestratorId, s.status, s.metadata) == input
  {
    AgentSession(randomId, input.sessionId, input.orchestratorId, input.status, now, None, input.metadata)
  }

  function NewEvaluation(input: InsertJudgeEvaluation, id: int, now: int): (j: JudgeEvaluation)
    ensures j.id == id && j.timestamp == now && !j.escalationTriggered
    ensures InsertJudgeEvaluation(j.sessionId, j.judgeModelId, j.evaluationType, j.targetActions, j.assessment, j.recommendation) == input
  {
    JudgeEvaluation(id, input.sessionId, input.judgeModelId, input.evaluationType, input.targetActions,
                    input.assessment, input.recommendation, now, false)
  }

  /** `users.find(u => u.username === name)`: the first user with that name. */
  function FindByUsername(users: seq<User>, name: string): (r: Option<User>)
    ensures r.None? <==> forall i :: 0 <= i < |users| ==> users[i].username != name
    ensures r.Some? ==> r.value.username == name
    ensures r.Some? ==> exists i :: 0 <= i < |users| && users[i] == r.value && (forall j :: 0 <= j < i ==> users[j].username != name)
  {
    if users == [] then None
    else if users[0].username == name then Some(users[0])
    else
      var r := FindByUsername(users[1..], name);
      if r.Some? then
        var i :| 0 <= i < |users[1..]| && users[1..][i] == r.value && (forall j :: 0 <= j < i ==> users[1..][j].username != name);
        assert users[i + 1] == r.value;
        r
      else r
  }

  // Sort keys. The lists the store returns newest first sort by the negated
  // time; the chat log sorts oldest first.

  function EscalationAge(e: Escalation): int { -e.createdAt }
  function SessionAge(s: AgentSession): int { -s.startedAt }
  function ActionAge(a: AgentAction): int { -a.timestamp }
  function ThreatAge(t: ThreatDetection): int { -t.detectedAt }
  function EvaluationAge(j: JudgeEvaluation): int { -j.timestamp }
  function MessageTime(m: ChatMessage): int { m.timestamp }

  function ForEscalation(escalationId: int): ChatMessage -> bool {
    (m: ChatMessage) => m.escalationId == escalationId
  }

  function InSession(sessionId: string): AgentAction -> bool {
    (a: AgentAction) => a.sessionId == sessionId
  }

  /** Every session is stored under its own `sessionId`. */
  ghost predicate SessionsKeyed(sessions: Table<string, AgentSession>) {
    forall k :: k in sessions.entries ==> sessions.entries[k].sessionId == k
  }

  /** The fixture delegation (no target, no amount) raises exactly one
      threat when it is stored: the misalignment threat. */
  lemma FixtureDelegationRaisesOneThreat(actions: seq<AgentAction>, input: InsertAgentAction, id: int, now: int)
    requires input.actionType == "delegation" && input.targetAgent.None? && input.payload.amount.None?
    ensures var a := NewAgentAction(input, id, now);
      DetectedThreats(actions, a, now) == [MisalignmentThreat(a)]
  {
    Risk.DelegationScoresAtLeast80(input);
  }

  /** A message without an amount raises no threat while at most five
      actions are stored: its collusion window cannot hold more than five. */
  lemma QuietMessage(actions: seq<AgentAction>, input: InsertAgentAction, id: int, now: int)
    requires input.actionType == "message" && input.payload.amount.None? && |actions| <= 5
    ensures DetectedThreats(actions, NewAgentAction(input, id, now), now) == []
  {
  }

  /** The records a run of `createAgentAction` calls stores, from id
      `firstId` on, when no threat rule looks at them in between. */
  function StoredActions(inputs: seq<InsertAgentAction>, firstId: int, now: int): (r: seq<AgentAction>)
    ensures |r| == |inputs|
  {
    seq(|inputs|, i requires 0 <= i < |inputs| => NewAgentAction(inputs[i], firstId + i, now))
  }

  lemma StoredActionsSnoc(inputs: seq<InsertAgentAction>, i: int, firstId: int, now: int)
    requires 0 <= i < |inputs|
    ensures StoredActions(inputs[..i + 1], firstId, now) == StoredActions(inputs[..i], firstId, now) + [NewAgentAction(inputs[i], firstId + i, now)]
  {
  }

  /** The threats the first `k` calls of a run of `createAgentAction`
      calls raise, in order, when `prior` is stored before the run: each
      action's rules see the actions stored up to and including it. */
  function RaisedThreats(prior: seq<AgentAction>, inputs: seq<InsertAgentAction>, k: nat, firstId: int, now: int): seq<InsertThreatDetection>
    requires k <= |inputs|
  {
    if k == 0 then []
    else
      RaisedThreats(prior, inputs, k - 1, firstId, now)
        + DetectedThreats(prior + StoredActions(inputs[..k], firstId, now), NewAgentAction(inputs[k - 1], firstId + k - 1, now), now)
  }

  /** Storing the next input of a run of `createAgentAction` calls appends
      its record to the stored actions. */
  lemma StoredActionsStep(prior: seq<AgentAction>, inputs: seq<InsertAgentAction>, i: int, firstId: int, now: int)
    requires 0 <= i < |inputs|
    ensures prior + StoredActions(inputs[..i + 1], firstId, now)
      == prior + StoredActions(inputs[..i], firstId, now) + [NewAgentAction(inputs[i], firstId + i, now)]
  {
    StoredActionsSnoc(inputs, i, firstId, now);
  }

  /** Recording the threats the next input of a run raises extends the
      ledger by one input's worth of raised threats. */
  lemma RecordThreatsStep(prior: seq<AgentAction>, inputs: seq<InsertAgentAction>, i: int, firstId: int, now: int,
                          start: Ledger, ledger: Ledger)
    requires 0 <= i < |inputs|
    requires ledger == RecordThreats(start, RaisedThreats(prior, inputs, i, firstId, now), now)
    ensures RecordThreats(ledger, DetectedThreats(prior + StoredActions(inputs[..i + 1], firstId, now),
                                                 NewAgentAction(inputs[i], firstId + i, now), now), now)
      == RecordThreats(start, RaisedThreats(prior, inputs, i + 1, firstId, now), now)
  {
    RaisedThreatsStep(prior, inputs, i, firstId, now);
    RecordThreatsConcat(start, RaisedThreats(prior, inputs, i, firstId, now),
                        DetectedThreats(prior + StoredActions(inputs[..i + 1], firstId, now),
                                        NewAgentAction(inputs[i], firstId + i, now), now), now);
  }

  /** One step of a run of `createAgentAction` calls: storing the next
      input extends the stored actions and the threats raised by one
      input's worth. */
  lemma CreateAgentActionsStep(prior: seq<AgentAction>, inputs: seq<InsertAgentAction>, i: int, firstId: int, now: int,
                               a: AgentAction, before: seq<AgentAction>, after: seq<AgentAction>,
                               start: Ledger, ledger: Ledger, next: Ledger)
    requires 0 <= i < |inputs| && a == NewAgentAction(inputs[i], firstId + i, now)
    requires before == prior + StoredActions(inputs[..i], firstId, now) && after == before + [a]
    requires ledger == RecordThreats(start, RaisedThreats(prior, inputs, i, firstId, now), now)
    requires next == RecordThreats(ledger, DetectedThreats(after, a, now), now)
    ensures after == prior + StoredActions(inputs[..i + 1], firstId, now)
    ensures next == RecordThreats(start, RaisedThreats(prior, inputs, i + 1, firstId, now), now)
  {
    StoredActionsStep(prior, inputs, i, firstId, now);
    RecordThreatsStep(prior, inputs, i, firstId, now, start, ledger);
  }

  lemma RaisedThreatsStep(prior: seq<AgentAction>, inputs: seq<InsertAgentAction>, i: int, firstId: int, now: int)
    requires 0 <= i < |inputs|
    ensures RaisedThreats(prior, inputs, i + 1, firstId, now)
      == RaisedThreats(prior, inputs, i, firstId, now)
         + DetectedThreats(prior + StoredActions(inputs[..i + 1], firstId, now), NewAgentAction(inputs[i], firstId + i, now), now)
  {
  }

  /** The threat the fixture delegation raises once it is stored as action 4. */
  function MockRaisedThreat(now: int): InsertThreatDetection {
    MisalignmentThreat(NewAgentAction(Fixtures.MisalignAction, 4, now))
  }

  /** Of the fixture actions only the delegation raises a threat. */
  lemma MockActionsRaiseMisalignment(now: int)
    ensures RaisedThreats([], Fixtures.MockActions, 4, 1, now) == [MockRaisedThreat(now)]
  {
    QuietRunThenDelegation(Fixtures.MockActions, now);
  }

  /** Three messages without an amount, then a delegation without a target
      or an amount: only the delegation raises a threat. */
  lemma QuietRunThenDelegation(inputs: seq<InsertAgentAction>, now: int)
    requires |inputs| == 4
    requires forall i :: 0 <= i < 3 ==> inputs[i].actionType == "message" && inputs[i].payload.amount.None?
    requires inputs[3].actionType == "delegation" && inputs[3].targetAgent.None? && inputs[3].payload.amount.None?
    ensures RaisedThreats([], inputs, 4, 1, now) == [MisalignmentThreat(NewAgentAction(inputs[3], 4, now))]
  {
    for i := 0 to 3
      invariant RaisedThreats([], inputs, i, 1, now) == []
    {
      RaisedThreatsStep([], inputs, i, 1, now);
      QuietMessage([] + StoredActions(inputs[..i + 1], 1, now), inputs[i], 1 + i, now);
    }
    RaisedThreatsStep([], inputs, 3, 1, now);
    FixtureDelegationRaisesOneThreat([] + StoredActions(inputs[..4], 1, now), inputs[3], 1 + 3, now);
  }

  /** Recording the threats the fixture actions raise writes the
      misalignment threat under the next threat id and escalates nothing. */
  lemma MockActionsRecord(l: Ledger, now: int)
    ensures RecordThreats(l, RaisedThreats([], Fixtures.MockActions, 4, 1, now), now)
      == l.(threats := l.threats.Set(l.nextThreatId, NewThreat(MockRaisedThreat(now), l.nextThreatId, now)),
            nextThreatId := l.nextThreatId + 1)
  {
    MockActionsRaiseMisalignment(now);
    var ts := [MockRaisedThreat(now)];
    assert ts[..0] == [];
    QuietRecord(l, MockRaisedThreat(now), now);
  }

  /** A threat that is not critical only takes the next threat id. */
  lemma QuietRecord(l: Ledger, t: InsertThreatDetection, now: int)
    requires !IsCritical(t)
    ensures RecordThreat(l, t, now)
      == l.(threats := l.threats.Set(l.nextThreatId, NewThreat(t, l.nextThreatId, now)), nextThreatId := l.nextThreatId + 1)
  {
  }

  /** The session table `initializeAgentSessions` builds from an empty one. */
  lemma FixtureSessionTable(now: int)
    ensures var t := EmptyTable<string, AgentSession>()
      .Set(Fixtures.CollusionSessionId, Fixtures.CollusionSession(now))
      .Set(Fixtures.MisalignSessionId, Fixtures.MisalignSession(now));
      && t.keys == [Fixtures.CollusionSessionId, Fixtures.MisalignSessionId]
      && t.entries == map[Fixtures.CollusionSessionId := Fixtures.CollusionSession(now),
                          Fixtures.MisalignSessionId := Fixtures.MisalignSession(now)]
  {
  }

  /** The threat table after the delegation's threat took id 1 and the three
      fixture threats were written under ids 1 to 3. */
  lemma FixtureThreatTable(now: int, raised: ThreatDetection)
    ensures var t := EmptyTable<int, ThreatDetection>().Set(1, raised)
      .Set(1, Fixtures.CollusionFixture(now)).Set(2, Fixtures.MisalignFixture(now)).Set(3, Fixtures.BoundaryFixture(now));
      && t.keys == [1, 2, 3]
      && t.entries == map id | 1 <= id <= 3 :: Fixtures.MockThreat(id, now)
  {
    var t := EmptyTable<int, ThreatDetection>().Set(1, raised)
      .Set(1, Fixtures.CollusionFixture(now)).Set(2, Fixtures.MisalignFixture(now)).Set(3, Fixtures.BoundaryFixture(now));
    assert t.entries == map[1 := Fixtures.CollusionFixture(now), 2 := Fixtures.MisalignFixture(now),
                            3 := Fixtures.BoundaryFixture(now)];
  }

  /** The records a run of `createEscalation` calls stores, from id
      `firstId` on. */
  function CreatedEscalations(inputs: seq<InsertEscalation>, firstId: int, now: int): (r: seq<Escalation>)
    ensures |r| == |inputs|
    ensures forall i :: 0 <= i < |inputs| ==> r[i] == NewEscalation(inputs[i], firstId + i, now)
  {
    seq(|inputs|, i requires 0 <= i < |inputs| => NewEscalation(inputs[i], firstId + i, now))
  }

  /** One more `createEscalation` call appends its record to the run's. */
  lemma CreatedEscalationsStep(prior: seq<Escalation>, inputs: seq<InsertEscalation>, i: int, firstId: int, now: int)
    requires 0 <= i < |inputs|
    ensures prior + CreatedEscalations(inputs[..i + 1], firstId, now)
      == prior + CreatedEscalations(inputs[..i], firstId, now) + [NewEscalation(inputs[i], firstId + i, now)]
  {
    var run := CreatedEscalations(inputs[..i], firstId, now);
    var e := NewEscalation(inputs[i], firstId + i, now);
    assert CreatedEscalations(inputs[..i + 1], firstId, now) == run + [e];
    AppendAssoc(prior, run, [e]);
  }

  /** Replacing a session with an update that names another `sessionId`
      leaves it stored under its old key. */
  lemma SessionRenameBreaksKeying(sessions: Table<string, AgentSession>, key: string, u: AgentSessionUpdate)
    requires SessionsKeyed(sessions) && key in sessions.entries
    requires u.sessionId.Some? && u.sessionId.value != key
    ensures !SessionsKeyed(sessions.Set(key, SpreadSession(sessions.entries[key], u)))
  {
    var s := sessions.Set(key, SpreadSession(sessions.entries[key], u));
    assert s.entries[key].sessionId != key;
  }

  /** The session table `initializeAgentSessions` builds from an empty one:
      the two fixture sessions, each under its `sessionId`. */
  ghost predicate MockSessions(t: Table<string, AgentSession>, now: int) {
    && t.keys == [Fixtures.CollusionSessionId, Fixtures.MisalignSessionId]
    && t.entries == map[Fixtures.CollusionSessionId := Fixtures.CollusionSession(now),
                        Fixtures.MisalignSessionId := Fixtures.MisalignSession(now)]
  }

  /** The four fixture actions under ids 1 to 4, with the counter at 5. */
  ghost predicate MockActions(t: Table<int, AgentAction>, next: int, now: int) {
    FreshTable(t, next) && next == 5 && t.Values() == StoredActions(Fixtures.MockActions, 1, now)
  }

  /** The three fixture threats under ids 1 to 3, with the counter at 2:
      the delegation's misalignment threat took id 1 and was then
      overwritten by the first fixture. */
  ghost predicate MockThreats(t: Table<int, ThreatDetection>, next: int, now: int) {
    && t.keys == [1, 2, 3] && next == 2
    && t.entries == map id | 1 <= id <= 3 :: Fixtures.MockThreat(id, now)
  }

  /** The six fixture escalations under ids 1 to 6, with the counter at 7. */
  ghost predicate MockEscalations(t: Table<int, Escalation>, next: int, now: int) {
    FreshTable(t, next) && next == 7 && t.Values() == CreatedEscalations(Fixtures.MockEscalations(), 1, now)
  }

  class MemStorage {
    var users: Table<int, User>
    var escalations: Table<int, Escalation>
    var chatMessages: Table<int, ChatMessage>
    var agentSessions: Table<string, AgentSession>
    var agentActions: Table<int, AgentAction>
    var threatDetections: Table<int, ThreatDetection>
    var judgeEvaluations: Table<int, JudgeEvaluation>
    var currentUserId: int
    var currentEscalationId: int
    var currentChatId: int
    var currentActionId: int
    var currentThreatId: int
    var currentEvaluationId: int

    /** The threat and escalation tables with their counters. */
    function ThreatLedger(): Ledger
      reads this`threatDetections, this`currentThreatId, this`escalations, this`currentEscalationId
    {
      Ledger(threatDetections, currentThreatId, escalations, currentEscalationId)
    }

    /** Every table is well formed and every counter but the threat
        counter is above every id stored under it, so the next `create*` on
        those tables adds a record instead of replacing one. The threat
        counter is left out: the fixtures leave it behind the fixture ids
        (see the constructor), and `ThreatsFresh` covers it on its own. */
    ghost predicate FreshIds()
      reads this
    {
      EscalationsFresh() && UsersFresh() && ChatFresh() && ActionsFresh() && EvaluationsFresh() && agentSessions.Valid()
    }

    ghost predicate ThreatsFresh()
      reads this`threatDetections, this`currentThreatId, this`escalations, this`currentEscalationId
    {
      LedgerFresh(ThreatLedger())
    }

    ghost predicate EscalationsFresh()
      reads this`escalations, this`currentEscalationId
    {
      FreshTable(escalations, currentEscalationId)
    }

    ghost predicate UsersFresh()
      reads this`users, this`currentUserId
    {
      FreshTable(users, currentUserId)
    }

    ghost predicate ChatFresh()
      reads this`chatMessages, this`currentChatId
    {
      FreshTable(chatMessages, currentChatId)
    }

    ghost predicate ActionsFresh()
      reads this`agentActions, this`currentActionId
    {
      FreshTable(agentActions, currentActionId)
    }

    ghost predicate EvaluationsFresh()
      reads this`judgeEvaluations, this`currentEvaluationId
    {
      FreshTable(judgeEvaluations, currentEvaluationId)
    }

    /** Every table empty and every counter at 1: the store before
        `initializeMockData` runs. */
    ghost predicate IsEmpty()
      reads this
    {
      && users == EmptyTable() && escalations == EmptyTable() && chatMessages == EmptyTable()
      && agentSessions == EmptyTable() && agentActions == EmptyTable() && threatDetections == EmptyTable()
      && judgeEvaluations == EmptyTable()
      && currentUserId == 1 && currentEscalationId == 1 && currentChatId == 1
      && currentActionId == 1 && currentThreatId == 1 && currentEvaluationId == 1
    }

    /** The store `initializeMockData` leaves behind when it runs on an
        empty store at time `now`: the two fixture sessions, the four
        fixture actions, the three fixture threats, the six fixture
        escalations, and no user, message or evaluation. */
    ghost predicate HoldsMockData(now: int)
      reads this
    {
      && users == EmptyTable() && currentUserId == 1
      && chatMessages == EmptyTable() && currentChatId == 1
      && judgeEvaluations == EmptyTable() && currentEvaluationId == 1
      && MockSessions(agentSessions, now)
      && MockActions(agentActions, currentActionId, now)
      && MockThreats(threatDetections, currentThreatId, now)
      && MockEscalations(escalations, currentEscalationId, now)
    }

    /** `new MemStorage()` at time `now`: empty tables, every counter at 1,
        then `initializeMockData`. Every table but the threat table comes out
        fresh (`FreshIds`); the threat counter lags behind the fixture ids. */
    constructor (now: int)
      ensures HoldsMockData(now) && SessionsKeyed(agentSessions)
      ensures FreshIds() && !ThreatsFresh()
    {
      users := EmptyTable();
      escalations := EmptyTable();
      chatMessages := EmptyTable();
      agentSessions := EmptyTable();
      agentActions := EmptyTable();
      threatDetections := EmptyTable();
      judgeEvaluations := EmptyTable();
      currentUserId := 1;
      currentEscalationId := 1;
      currentChatId := 1;
      currentActionId := 1;
      currentThreatId := 1;
      currentEvaluationId := 1;
      new;
      InitializeMockData(now);
      assert 2 in threatDetections.entries;
      assert EscalationsFresh() && ActionsFresh();
    }

    /** `initializeMockData`: the sessions, the actions (through
        `createAgentAction`, so the threat rules run on them), the threats,
        then the escalations (through `createEscalation`). */
    method InitializeMockData(now: int)
      requires IsEmpty()
      modifies this
      ensures HoldsMockData(now) && SessionsKeyed(agentSessions) && agentSessions.Valid()
    {
      SeedAgentData(now);
      SeedMockEscalations(now);
    }

    /** The first three steps of `initializeMockData`, on an empty store:
        the sessions, the actions and then the threats. */
    method SeedAgentData(now: int)
      requires IsEmpty()
      modifies this`agentSessions, this`agentActions, this`currentActionId
      modifies this`threatDetections, this`currentThreatId, this`escalations, this`currentEscalationId
      ensures MockSessions(agentSessions, now) && SessionsKeyed(agentSessions) && agentSessions.Valid()
      ensures MockActions(agentActions, currentActionId, now)
      ensures MockThreats(threatDetections, currentThreatId, now)
      ensures escalations == old(escalations) && currentEscalationId == old(currentEscalationId)
    {
      InitializeAgentSessions(now);
      ghost var raised := InitializeAgentActions(now);
      SeedMockThreats(now, raised);
    }

    /** The `mockEscalations.forEach(createEscalation)` tail of
        `initializeMockData`, on a store with no escalation. */
    method SeedMockEscalations(now: int)
      requires EscalationsFresh() && escalations.Values() == [] && currentEscalationId == 1
      modifies this`escalations, this`currentEscalationId
      ensures MockEscalations(escalations, currentEscalationId, now)
    {
      CreateEscalations(Fixtures.MockEscalations(), now);
    }

    /** `initializeThreatDetections` right after the fixture delegation's
        threat took id 1. */
    method SeedMockThreats(now: int, ghost raised: ThreatDetection)
      requires threatDetections == EmptyTable<int, ThreatDetection>().Set(1, raised)
      requires currentThreatId == 2
      modifies this`threatDetections
      ensures MockThreats(threatDetections, currentThreatId, now)
    {
      InitializeThreatDetections(now);
      FixtureThreatTable(now, raised);
    }

    /** `initializeAgentSessions`: the two fixture sessions, each written
        under its `sessionId`. */
    method InitializeAgentSessions(now: int)
      modifies this`agentSessions
      ensures agentSessions == old(agentSessions).Set(Fixtures.CollusionSessionId, Fixtures.CollusionSession(now))
                                                 .Set(Fixtures.MisalignSessionId, Fixtures.MisalignSession(now))
      ensures old(SessionsKeyed(agentSessions)) ==> SessionsKeyed(agentSessions)
      ensures old(agentSessions.Valid()) ==> agentSessions.Valid()
      ensures old(agentSessions) == EmptyTable() ==> MockSessions(agentSessions, now)
    {
      FixtureSessionTable(now);
      if old(agentSessions.Valid()) {
        SetValid(agentSessions, Fixtures.CollusionSessionId, Fixtures.CollusionSession(now));
        SetValid(agentSessions.Set(Fixtures.CollusionSessionId, Fixtures.CollusionSession(now)),
                 Fixtures.MisalignSessionId, Fixtures.MisalignSession(now));
      }
      SeedSession(Fixtures.CollusionSession(now));
      SeedSession(Fixtures.MisalignSession(now));
    }

    /** `initializeAgentActions` on a store with no action: the four fixture
        actions are stored under ids 1 to 4. The three messages raise no
        threat (their windows hold at most three actions); the delegation
        raises the misalignment threat, which is not critical. */
    method InitializeAgentActions(now: int) returns (ghost raised: ThreatDetection)
      requires ActionsFresh() && agentActions.Values() == [] && currentActionId == 1
      modifies this`agentActions, this`currentActionId
      modifies this`threatDetections, this`currentThreatId, this`escalations, this`currentEscalationId
      ensures MockActions(agentActions, currentActionId, now)
      ensures threatDetections == old(threatDetections).Set(old(currentThreatId), raised)
      ensures raised == NewThreat(MockRaisedThreat(now), old(currentThreatId), now)
      ensures currentThreatId == old(currentThreatId) + 1
      ensures escalations == old(escalations) && currentEscalationId == old(currentEscalationId)
    {
      ghost var start := ThreatLedger();
      CreateAgentActions(Fixtures.MockActions, now);
      MockActionsRecord(start, now);
      raised := NewThreat(MockRaisedThreat(now), start.nextThreatId, now);
      assert [] + StoredActions(Fixtures.MockActions, 1, now) == StoredActions(Fixtures.MockActions, 1, now);
    }

    /** `inputs.forEach(a => this.createAgentAction(a))`: one action per
        input under consecutive ids, each followed by the threats the rules
        raise over the actions stored so far. */
    method CreateAgentActions(inputs: seq<InsertAgentAction>, now: int)
      modifies this`agentActions, this`currentActionId
      modifies this`threatDetections, this`currentThreatId, this`escalations, this`currentEscalationId
      ensures currentActionId == old(currentActionId) + |inputs|
      ensures old(ActionsFresh()) ==>
        && ActionsFresh()
        && agentActions.Values() == old(agentActions.Values()) + StoredActions(inputs, old(currentActionId), now)
        && ThreatLedger() == RecordThreats(old(ThreatLedger()),
             RaisedThreats(old(agentActions.Values()), inputs, |inputs|, old(currentActionId), now), now)
      ensures old(ThreatsFresh()) ==> ThreatsFresh()
    {
      ghost var wasFresh, prior, firstId, start := ActionsFresh(), agentActions.Values(), currentActionId, ThreatLedger();
      for i := 0 to |inputs|
        invariant currentActionId == firstId + i
        invariant wasFresh ==> RunSoFar(prior, inputs, i, firstId, now, start)
        invariant old(ThreatsFresh()) ==> ThreatsFresh()
      {
        CreateNextAgentAction(inputs, i, now, prior, firstId, start);
      }
      assert inputs[..|inputs|] == inputs;
    }

    /** The first `i` calls of a run of `createAgentAction` calls from id
        `firstId` on, with `prior` stored before the run and the threat
        ledger at `start`, are what the store holds now. */
    ghost predicate RunSoFar(prior: seq<AgentAction>, inputs: seq<InsertAgentAction>, i: nat, firstId: int, now: int, start: Ledger)
      requires i <= |inputs|
      reads this
    {
      && currentActionId == firstId + i
      && ActionsFresh()
      && agentActions.Values() == prior + StoredActions(inputs[..i], firstId, now)
      && ThreatLedger() == RecordThreats(start, RaisedThreats(prior, inputs, i, firstId, now), now)
    }

    /** Call `i` of a run of `createAgentAction` calls. */
    method CreateNextAgentAction(inputs: seq<InsertAgentAction>, i: nat, now: int,
                                 ghost prior: seq<AgentAction>, ghost firstId: int, ghost start: Ledger)
      requires i < |inputs|
      modifies this`agentActions, this`currentActionId
      modifies this`threatDetections, this`currentThreatId, this`escalations, this`currentEscalationId
      ensures currentActionId == old(currentActionId) + 1
      ensures old(RunSoFar(prior, inputs, i, firstId, now, start)) ==> RunSoFar(prior, inputs, i + 1, firstId, now, start)
      ensures old(ThreatsFresh()) ==> ThreatsFresh()
    {
      ghost var before, ledger := agentActions.Values(), ThreatLedger();
      var a := CreateAgentAction(inputs[i], now);
      if old(RunSoFar(prior, inputs, i, firstId, now, start)) {
        CreateAgentActionsStep(prior, inputs, i, firstId, now, a, before, agentActions.Values(), start, ledger, ThreatLedger());
      }
    }

    /** `initializeThreatDetections`: the three fixture threats written under
        ids 1, 2 and 3, without moving the threat counter. */
    method InitializeThreatDetections(now: int)
      modifies this`threatDetections
      ensures threatDetections == old(threatDetections).Set(1, Fixtures.CollusionFixture(now))
                                                      .Set(2, Fixtures.MisalignFixture(now))
                                                      .Set(3, Fixtures.BoundaryFixture(now))
    {
      SeedThreat(Fixtures.CollusionFixture(now));
      SeedThreat(Fixtures.MisalignFixture(now));
      SeedThreat(Fixtures.BoundaryFixture(now));
    }

    /** `inputs.forEach(e => this.createEscalation(e))`: one escalation per
        input, under consecutive ids, appended in order to a fresh table. */
    method CreateEscalations(inputs: seq<InsertEscalation>, now: int)
      modifies this`escalations, this`currentEscalationId
      ensures currentEscalationId == old(currentEscalationId) + |inputs|
      ensures old(EscalationsFresh()) ==>
        EscalationsFresh() && escalations.Values() == old(escalations.Values()) + CreatedEscalations(inputs, old(currentEscalationId), now)
      ensures old(FreshIds()) ==> FreshIds()
    {
      ghost var wasFresh, allFresh, prior, firstId := EscalationsFresh(), FreshIds(), escalations.Values(), currentEscalationId;
      for i := 0 to |inputs|
        invariant currentEscalationId == firstId + i
        invariant wasFresh ==> EscalatedSoFar(prior, inputs, i, firstId, now)
        invariant allFresh ==> FreshIds()
      {
        CreateNextEscalation(inputs, i, now, prior, firstId);
      }
      assert inputs[..|inputs|] == inputs;
    }

    /** The first `i` calls of a run of `createEscalation` calls from id
        `firstId` on, with `prior` stored before the run, are what the
        escalation table holds now. */
    ghost predicate EscalatedSoFar(prior: seq<Escalation>, inputs: seq<InsertEscalation>, i: nat, firstId: int, now: int)
      requires i <= |inputs|
      reads this`escalations, this`currentEscalationId
    {
      && currentEscalationId == firstId + i
      && EscalationsFresh()
      && escalations.Values() == prior + CreatedEscalations(inputs[..i], firstId, now)
    }

    /** Call `i` of a run of `createEscalation` calls. */
    method CreateNextEscalation(inputs: seq<InsertEscalation>, i: nat, now: int, ghost prior: seq<Escalation>, ghost firstId: int)
      requires i < |inputs|
      modifies this`escalations, this`currentEscalationId
      ensures currentEscalationId == old(currentEscalationId) + 1
      ensures old(EscalatedSoFar(prior, inputs, i, firstId, now)) ==> EscalatedSoFar(prior, inputs, i + 1, firstId, now)
      ensures old(FreshIds()) ==> FreshIds()
    {
      ghost var inStep := EscalatedSoFar(prior, inputs, i, firstId, now);
      ghost var before := escalations.Values();
      CreatedEscalationsStep(prior, inputs, i, firstId, now);
      var e := CreateEscalation(inputs[i], now);
      if inStep {
        assert escalations.Values() == before + [e];
      }
    }

    // ----- users -----

    function GetUser(id: int): (r: Option<User>)
      reads this
      ensures r.Some? <==> id in users.entries
      ensures r.Some? ==> r.value == users.entries[id]
    {
      users.Get(id)
    }

    function GetUserByUsername(username: string): (r: Option<User>)
      reads this
      ensures r.None? <==> forall i :: 0 <= i < |users.Values()| ==> users.Values()[i].username != username
      ensures r.Some? ==> r.value.username == username && r.value in users.Values()
    {
      FindByUsername(users.Values(), username)
    }

    method CreateUser(input: InsertUser) returns (u: User)
      modifies this`users, this`currentUserId
      ensures u == NewUser(input, old(currentUserId))
      ensures users == old(users).Set(old(currentUserId), u) && currentUserId == old(currentUserId) + 1
      ensures old(UsersFresh()) ==> UsersFresh() && users.Values() == old(users.Values()) + [u]
      ensures old(FreshIds()) ==> FreshIds()
    {
      var id := currentUserId;
      u := NewUser(input, id);
      if UsersFresh() {
        AppendFresh(users, id, u);
      }
      users := users.Set(id, u);
      currentUserId := id + 1;
      if old(FreshIds()) {
        assert EscalationsFresh() && ChatFresh();
        assert ActionsFresh() && EvaluationsFresh();
      }
    }

    // ----- escalations -----

    /** `getEscalations`: newest first; escalations created at the same
        time keep their insertion order. */
    function GetEscalations(): (r: seq<Escalation>)
      reads this
      ensures StableSortOf(r, escalations.Values(), EscalationAge)
    {
      SortByCorrect(escalations.Values(), EscalationAge);
      SortBy(escalations.Values(), EscalationAge)
    }

    function GetEscalation(id: int): (r: Option<Escalation>)
      reads this
      ensures r.Some? <==> id in escalations.entries
      ensures r.Some? ==> r.value == escalations.entries[id]
    {
      escalations.Get(id)
    }

    /** `createEscalation`: the record stored under the current counter,
        which then moves on. */
    method CreateEscalation(input: InsertEscalation, now: int) returns (e: Escalation)
      modifies this`escalations, this`currentEscalationId
      ensures e == NewEscalation(input, old(currentEscalationId), now)
      ensures escalations == old(escalations).Set(old(currentEscalationId), e)
      ensures currentEscalationId == old(currentEscalationId) + 1
      ensures old(EscalationsFresh()) ==> EscalationsFresh() && escalations.Values() == old(escalations.Values()) + [e]
      ensures old(FreshIds()) ==> FreshIds()
    {
      var id := currentEscalationId;
      e := NewEscalation(input, id, now);
      if EscalationsFresh() {
        AppendFresh(escalations, id, e);
      }
      escalations := escalations.Set(id, e);
      currentEscalationId := id + 1;
      if old(FreshIds()) {
        assert UsersFresh() && ChatFresh() && ActionsFresh() && EvaluationsFresh();
      }
    }

    /** `updateEscalation`: nothing changes for an unknown id; otherwise the
        merged record replaces the stored one in place and no other record
        changes. */
    method UpdateEscalation(id: int, u: EscalationUpdate, now: int) returns (r: Option<Escalation>)
      modifies this`escalations
      ensures id !in old(escalations.entries) ==> r.None? && escalations == old(escalations)
      ensures id in old(escalations.entries) ==>
        && r == Some(UpdatedEscalation(old(escalations.entries[id]), u, now))
        && escalations.entries == old(escalations.entries)[id := r.value]
        && escalations == old(escalations).Set(id, r.value)
      ensures escalations.keys == old(escalations.keys)
      ensures old(FreshIds()) ==> FreshIds()
    {
      var current := escalations.Get(id);
      if current.None? {
        return None;
      }
      var updated := UpdatedEscalation(current.value, u, now);
      escalations := escalations.Set(id, updated);
      r := Some(updated);
      assert UsersFresh() == old(UsersFresh()) && ChatFresh() == old(ChatFresh());
      assert ActionsFresh() == old(ActionsFresh()) && EvaluationsFresh() == old(EvaluationsFresh());
    }

    // ----- chat -----

    /** `getChatMessages`: exactly the messages of one escalation, oldest
        first, messages with the same time in the order they were stored. */
    function GetChatMessages(escalationId: int): (r: seq<ChatMessage>)
      reads this
      ensures StableSortOf(r, Filter(chatMessages.Values(), ForEscalation(escalationId)), MessageTime)
      ensures forall m :: m in r <==> m in chatMessages.Values() && m.escalationId == escalationId
    {
      var mine := Filter(chatMessages.Values(), ForEscalation(escalationId));
      var r := SortBy(mine, MessageTime);
      SortByCorrect(mine, MessageTime);
      SameElements(r, mine);
      r
    }

    /** `createChatMessage`: appended under a new id. The escalation it
        names is not required to exist. */
    method CreateChatMessage(input: InsertChatMessage, now: int) returns (m: ChatMessage)
      modifies this`chatMessages, this`currentChatId
      ensures m == NewChatMessage(input, old(currentChatId), now)
      ensures chatMessages == old(chatMessages).Set(old(currentChatId), m)
      ensures currentChatId == old(currentChatId) + 1
      ensures old(ChatFresh()) ==> ChatFresh() && chatMessages.Values() == old(chatMessages.Values()) + [m]
      ensures old(FreshIds()) ==> FreshIds()
    {
      var id := currentChatId;
      m := NewChatMessage(input, id, now);
      if ChatFresh() {
        AppendFresh(chatMessages, id, m);
      }
      chatMessages := chatMessages.Set(id, m);
      currentChatId := id + 1;
      if old(FreshIds()) {
        assert EscalationsFresh() && UsersFresh();
        assert ActionsFresh() && EvaluationsFresh();
      }
    }

    // ----- agent sessions -----

    function GetAgentSessions(): (r: seq<AgentSession>)
      reads this
      ensures StableSortOf(r, agentSessions.Values(), SessionAge)
    {
      SortByCorrect(agentSessions.Values(), SessionAge);
      SortBy(agentSessions.Values(), SessionAge)
    }

    function GetAgentSession(sessionId: string): (r: Option<AgentSession>)
      reads this
      ensures r.Some? <==> sessionId in agentSessions.entries
      ensures r.Some? ==> r.value == agentSessions.entries[sessionId]
    {
      agentSessions.Get(sessionId)
    }

    /** `createAgentSession`: stored under its `sessionId`, replacing any
        session already stored under it. */
    method CreateAgentSession(input: InsertAgentSession, randomId: nat, now: int) returns (s: AgentSession)
      modifies this`agentSessions
      ensures s == NewSession(input, randomId, now)
      ensures agentSessions == old(agentSessions).Set(input.sessionId, s)
      ensures old(SessionsKeyed(agentSessions)) ==> SessionsKeyed(agentSessions)
      ensures old(FreshIds()) ==> FreshIds()
    {
      s := NewSession(input, randomId, now);
      if old(agentSessions.Valid()) {
        SetValid(agentSessions, input.sessionId, s);
      }
      agentSessions := agentSessions.Set(input.sessionId, s);
      assert EscalationsFresh() == old(EscalationsFresh()) && UsersFresh() == old(UsersFresh()) && ChatFresh() == old(ChatFresh());
      assert ActionsFresh() == old(ActionsFresh()) && EvaluationsFresh() == old(EvaluationsFresh());
    }

    /** `updateAgentSession`: merged in place under the same key, even when
        the update changes the record's own `sessionId`. */
    method UpdateAgentSession(sessionId: string, u: AgentSessionUpdate) returns (r: Option<AgentSession>)
      modifies this`agentSessions
      ensures sessionId !in old(agentSessions.entries) ==> r.None? && agentSessions == old(agentSessions)
      ensures sessionId in old(agentSessions.entries) ==>
        && r == Some(SpreadSession(old(agentSessions.entries[sessionId]), u))
        && agentSessions.entries == old(agentSessions.entries)[sessionId := r.value]
      ensures agentSessions.keys == old(agentSessions.keys)
      ensures old(SessionsKeyed(agentSessions)) && (u.sessionId.None? || u.sessionId == Some(sessionId))
        ==> SessionsKeyed(agentSessions)
      ensures old(FreshIds()) ==> FreshIds()
    {
      var current := agentSessions.Get(sessionId);
      if current.None? {
        return None;
      }
      var updated := SpreadSession(current.value, u);
      agentSessions := agentSessions.Set(sessionId, updated);
      r := Some(updated);
      assert EscalationsFresh() == old(EscalationsFresh()) && UsersFresh() == old(UsersFresh()) && ChatFresh() == old(ChatFresh());
      assert ActionsFresh() == old(ActionsFresh()) && EvaluationsFresh() == old(EvaluationsFresh());
    }

    /** `initializeAgentSessions`: a fixture written directly under its
        `sessionId`. */
    method SeedSession(s: AgentSession)
      modifies this`agentSessions
      ensures agentSessions == old(agentSessions).Set(s.sessionId, s)
      ensures old(SessionsKeyed(agentSessions)) ==> SessionsKeyed(agentSessions)
    {
      agentSessions := agentSessions.Set(s.sessionId, s);
    }

    // ----- agent actions -----

    /** `getAgentActions(sessionId?)`: newest first; with a (non-empty)
        session id, only that session's actions. */
    function GetAgentActions(sessionId: Option<string>): (r: seq<AgentAction>)
      reads this
      ensures Truthy(sessionId) ==> StableSortOf(r, Filter(agentActions.Values(), InSession(sessionId.value)), ActionAge)
      ensures !Truthy(sessionId) ==> StableSortOf(r, agentActions.Values(), ActionAge)
    {
      var actions := agentActions.Values();
      if Truthy(sessionId) then
        var mine := Filter(actions, InSession(sessionId.value));
        SortByCorrect(mine, ActionAge);
        SortBy(mine, ActionAge)
      else
        SortByCorrect(actions, ActionAge);
        SortBy(actions, ActionAge)
    }

    /** `createAgentAction`: the action is stored with its computed score,
        then the threat rules run over the stored actions and every threat
        they raise is recorded, critical ones with their escalation. */
    method CreateAgentAction(input: InsertAgentAction, now: int) returns (a: AgentAction)
      modifies this`agentActions, this`currentActionId
      modifies this`threatDetections, this`currentThreatId, this`escalations, this`currentEscalationId
      ensures a == NewAgentAction(input, old(currentActionId), now)
      ensures agentActions == old(agentActions).Set(old(currentActionId), a)
      ensures currentActionId == old(currentActionId) + 1
      ensures ThreatLedger() == RecordThreats(old(ThreatLedger()), DetectedThreats(agentActions.Values(), a, now), now)
      ensures old(ActionsFresh()) ==> ActionsFresh() && agentActions.Values() == old(agentActions.Values()) + [a]
      ensures old(ThreatsFresh()) ==> ThreatsFresh()
      ensures old(EscalationsFresh()) ==>
        && EscalationsFresh()
        && escalations.Values() == old(escalations.Values()) + ThreatEscalations(old(ThreatLedger()), DetectedThreats(agentActions.Values(), a, now), now)
    {
      ghost var start := ThreatLedger();
      a := StoreAgentAction(input, now);
      DetectThreats(a, now);
      RecordThreatsKeepsFresh(start, DetectedThreats(agentActions.Values(), a, now), now);
    }

    /** The first half of `createAgentAction`: the action stored under the
        current action counter. */
    method StoreAgentAction(input: InsertAgentAction, now: int) returns (a: AgentAction)
      modifies this`agentActions, this`currentActionId
      ensures a == NewAgentAction(input, old(currentActionId), now)
      ensures agentActions == old(agentActions).Set(old(currentActionId), a)
      ensures currentActionId == old(currentActionId) + 1
      ensures old(ActionsFresh()) ==> ActionsFresh() && agentActions.Values() == old(agentActions.Values()) + [a]
    {
      var id := currentActionId;
      currentActionId := currentActionId + 1;
      a := NewAgentAction(input, id, now);
      if old(ActionsFresh()) {
        AppendFresh(agentActions, id, a);
      }
      agentActions := agentActions.Set(id, a);
    }

    /** `detectThreats`: the collusion, misalignment and boundary rules, in
        that order, each recording at most one threat. */
    method DetectThreats(a: AgentAction, now: int)
      modifies this`threatDetections, this`currentThreatId, this`escalations, this`currentEscalationId
      ensures ThreatLedger() == RecordThreats(old(ThreatLedger()), DetectedThreats(agentActions.Values(), a, now), now)
    {
      ghost var start := ThreatLedger();
      ghost var actions := agentActions.Values();
      DetectCollusion(a, now);
      ghost var c := Opt(CollusionFires(actions, a, now), CollusionThreat(a, CollusionWindow(actions, a, now)));
      DetectMisalignment(a, now);
      ghost var m := Opt(MisalignmentFires(a), MisalignmentThreat(a));
      RecordThreatsConcat(start, c, m, now);
      DetectBoundary(a, now);
      ghost var b := if Risk.AmountOver(a.payload, 5000) then [BoundaryThreat(a)] else [];
      RecordThreatsConcat(start, c + m, b, now);
    }

    /** The collusion rule: a message to another agent by an actor with more
        than five actions in its five-minute window. */
    method DetectCollusion(a: AgentAction, now: int)
      modifies this`threatDetections, this`currentThreatId, this`escalations, this`currentEscalationId
      ensures ThreatLedger() == RecordThreats(old(ThreatLedger()),
        Opt(CollusionFires(agentActions.Values(), a, now), CollusionThreat(a, CollusionWindow(agentActions.Values(), a, now))), now)
    {
      var window := CollusionWindow(agentActions.Values(), a, now);
      if Truthy(a.targetAgent) && a.actionType == "message" && |window| > 5 {
        var t := CollusionThreat(a, window);
        var _ := CreateThreatDetection(t, now);
        assert [t][..0] == [];
      }
    }

    /** The misalignment rule: a delegation scored above 60. */
    method DetectMisalignment(a: AgentAction, now: int)
      modifies this`threatDetections, this`currentThreatId, this`escalations, this`currentEscalationId
      ensures ThreatLedger() == RecordThreats(old(ThreatLedger()), Opt(MisalignmentFires(a), MisalignmentThreat(a)), now)
    {
      if a.actionType == "delegation" && a.riskScore > 60 {
        var t := MisalignmentThreat(a);
        var _ := CreateThreatDetection(t, now);
        assert [t][..0] == [];
      }
    }

    /** The boundary rule: an amount above $5,000. */
    method DetectBoundary(a: AgentAction, now: int)
      modifies this`threatDetections, this`currentThreatId, this`escalations, this`currentEscalationId
      ensures ThreatLedger() == RecordThreats(old(ThreatLedger()), if BoundaryFires(a) then [BoundaryThreat(a)] else [], now)
    {
      if Risk.AmountOver(a.payload, 5000) {
        var t := BoundaryThreat(a);
        var _ := CreateThreatDetection(t, now);
        assert [t][..0] == [];
      }
    }

    method UpdateAgentAction(id: int, u: AgentActionUpdate) returns (r: Option<AgentAction>)
      modifies this`agentActions
      ensures id !in old(agentActions.entries) ==> r.None? && agentActions == old(agentActions)
      ensures id in old(agentActions.entries) ==>
        && r == Some(SpreadAction(old(agentActions.entries[id]), u))
        && agentActions.entries == old(agentActions.entries)[id := r.value]
      ensures agentActions.keys == old(agentActions.keys)
      ensures old(FreshIds()) ==> FreshIds()
    {
      var current := agentActions.Get(id);
      if current.None? {
        return None;
      }
      var updated := SpreadAction(current.value, u);
      agentActions := agentActions.Set(id, updated);
      r := Some(updated);
      assert EscalationsFresh() == old(EscalationsFresh()) && UsersFresh() == old(UsersFresh()) && ChatFresh() == old(ChatFresh());
      assert EvaluationsFresh() == old(EvaluationsFresh());
    }

    // ----- threats -----

    function GetThreatDetections(): (r: seq<ThreatDetection>)
      reads this
      ensures StableSortOf(r, threatDetections.Values(), ThreatAge)
    {
      SortByCorrect(threatDetections.Values(), ThreatAge);
      SortBy(threatDetections.Values(), ThreatAge)
    }

    /** `createThreatDetection`: stored under the current threat counter;
        a critical threat is escalated at once. */
    method CreateThreatDetection(input: InsertThreatDetection, now: int) returns (t: ThreatDetection)
      modifies this`threatDetections, this`currentThreatId, this`escalations, this`currentEscalationId
      ensures t == NewThreat(input, old(currentThreatId), now)
      ensures ThreatLedger() == RecordThreat(old(ThreatLedger()), input, now)
      ensures old(EscalationsFresh()) ==>
        && EscalationsFresh()
        && escalations.Values() == old(escalations.Values()) + RaisedEscalation(input, old(currentThreatId), old(currentEscalationId), now)
    {
      ghost var start := ThreatLedger();
      if EscalationsFresh() {
        RecordThreatAppends(start, input, now);
      }
      var id := currentThreatId;
      currentThreatId := currentThreatId + 1;
      t := NewThreat(input, id, now);
      threatDetections := threatDetections.Set(id, t);
      if input.severity == "critical" {
        EscalateThreat(t, now);
      }
    }

    /** `escalateThreat`: one pending escalation naming the threat. */
    method EscalateThreat(threat: ThreatDetection, now: int)
      modifies this`escalations, this`currentEscalationId
      ensures escalations == old(escalations).Set(old(currentEscalationId), NewEscalation(ThreatEscalation(threat), old(currentEscalationId), now))
      ensures currentEscalationId == old(currentEscalationId) + 1
      ensures old(EscalationsFresh()) ==>
        EscalationsFresh() && escalations.Values() == old(escalations.Values()) + [NewEscalation(ThreatEscalation(threat), old(currentEscalationId), now)]
    {
      var _ := CreateEscalation(ThreatEscalation(threat), now);
    }

    method UpdateThreatDetection(id: int, u: ThreatUpdate) returns (r: Option<ThreatDetection>)
      modifies this`threatDetections
      ensures id !in old(threatDetections.entries) ==> r.None? && threatDetections == old(threatDetections)
      ensures id in old(threatDetections.entries) ==>
        && r == Some(SpreadThreat(old(threatDetections.entries[id]), u))
        && threatDetections.entries == old(threatDetections.entries)[id := r.value]
      ensures threatDetections.keys == old(threatDetections.keys)
      ensures old(FreshIds()) ==> FreshIds()
    {
      var current := threatDetections.Get(id);
      if current.None? {
        return None;
      }
      var updated := SpreadThreat(current.value, u);
      threatDetections := threatDetections.Set(id, updated);
      r := Some(updated);
      assert EscalationsFresh() == old(EscalationsFresh()) && UsersFresh() == old(UsersFresh()) && ChatFresh() == old(ChatFresh());
      assert ActionsFresh() == old(ActionsFresh()) && EvaluationsFresh() == old(EvaluationsFresh());
    }

    /** `initializeThreatDetections`: a fixture written directly under its
        own id; the threat counter is left as it is. */
    method SeedThreat(t: ThreatDetection)
      modifies this`threatDetections
      ensures threatDetections == old(threatDetections).Set(t.id, t)
    {
      threatDetections := threatDetections.Set(t.id, t);
    }

    // ----- judge evaluations -----

    function GetJudgeEvaluations(): (r: seq<JudgeEvaluation>)
      reads this
      ensures StableSortOf(r, judgeEvaluations.Values(), EvaluationAge)
    {
      SortByCorrect(judgeEvaluations.Values(), EvaluationAge);
      SortBy(judgeEvaluations.Values(), EvaluationAge)
    }

    method CreateJudgeEvaluation(input: InsertJudgeEvaluation, now: int) returns (j: JudgeEvaluation)
      modifies this`judgeEvaluations, this`currentEvaluationId
      ensures j == NewEvaluation(input, old(currentEvaluationId), now)
      ensures judgeEvaluations == old(judgeEvaluations).Set(old(currentEvaluationId), j)
      ensures currentEvaluationId == old(currentEvaluationId) + 1
      ensures old(EvaluationsFresh()) ==> EvaluationsFresh() && judgeEvaluations.Values() == old(judgeEvaluations.Values()) + [j]
      ensures old(FreshIds()) ==> FreshIds()
    {
      var id := currentEvaluationId;
      j := NewEvaluation(input, id, now);
      if EvaluationsFresh() {
        AppendFresh(judgeEvaluations, id, j);
      }
      judgeEvaluations := judgeEvaluations.Set(id, j);
      currentEvaluationId := id + 1;
      if old(FreshIds()) {
        assert EscalationsFresh() && UsersFresh();
        assert ActionsFresh() && ChatFresh();
      }
    }
  }
}
