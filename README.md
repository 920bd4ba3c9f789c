# AgentControl Hub core, modelled in Dafny

AgentControl Hub is a human-in-the-loop governance console for AI agents.
An agent that reaches a risky decision files an **escalation**. An operator
approves, denies or edits it from a dashboard before its SLA countdown runs
out. Beside the escalations, the server records multi-agent **sessions** and
their **actions**. It scores each action for risk, runs three threat rules
over it, and escalates critical **threats** automatically.

This project models that core and proves properties of it:

- `tables.dfy` (`Tables`): JavaScript's insertion-ordered `Map` as a key
  list plus an entry map. It also holds `Array.prototype.filter`, a stable
  sort by key, and the lemmas about them.
- `text.dfy` (`Text`): decimal rendering of integers, `includes`, the
  `replace(/[$,]/g, '')` of amounts, and the number prefixes that
  `parseFloat` and `parseInt` read.
- `schema.dfy` (`Schema`): the records of `shared/schema.ts`, their insert
  shapes and their `Partial<T>` updates (`{ ...a, ...b }`).
- `risk.dfy` (`Risk`): `calculateRiskScore`, including its `switch` without
  `break`.
- `escalations.dfy` (`Escalations`): the records `createEscalation`,
  `updateEscalation` and `escalateThreat` build.
- `detection.dfy` (`Detection`): the action record, the three threat rules,
  and the bookkeeping of threat and escalation ids.
- `fixtures.dfy` (`Fixtures`): the demonstration records the store writes
  when it is built: two sessions, four actions, three threats and six
  escalations.
- `storage.dfy` (`Storage`): `MemStorage` as a class. Its seven tables and
  six counters are fields, and its `create*`/`update*` operations are
  methods that state the whole new state.
- `routes.dfy` (`Routes`): the escalation and chat routes with their 404
  and 400 answers, the broadcast to open WebSocket clients, the
  governance-dashboard aggregation, and the WebSocket control messages.
- `escalation_card.dfy` (`EscalationCard`): the SLA countdown, the urgency
  and overdue flags, colours, icons, risk-factor badges and context-row
  labels of the escalation card.
- `dashboard.dfy` (`Dashboard`): the operator queue filters, the statistics,
  the filter change handler, and the updates that the approve, deny and
  edit buttons send.

The clock is a parameter `now` in milliseconds; one call, with everything
it calls, reads one instant. The random id of a new
session is a parameter `randomId`. Timestamps are integers, so
`new Date(x).getTime()` is `x`.

Facts the proofs bring out about the code as written:

- `updateEscalation` sets `resolvedAt` on every update that carries a
  non-pending status. A repeated approval therefore moves the timestamp.
  Setting the status back to `pending` keeps the old timestamp. An
  escalation created with a terminal status has none. So "`resolvedAt` is
  set exactly when the status is not pending" holds after a resolving
  update, but it is not an invariant of the store (`ResolutionInvariantGaps`).
  `UpdatedEscalationOnce` states the idempotent rule next to it.
- At start-up, the three fixture messages raise no threat and the fixture
  delegation raises one misalignment threat. That threat takes id 1, so the
  threat counter stands at 2 when the three threat fixtures are written
  under ids 1, 2 and 3 without advancing it. The new store is therefore not
  fresh for threats (the constructor's `FreshIds() && !ThreatsFresh()`;
  `FreshIds` is freshness of every table but the threat table), and the next
  threat it records replaces fixture 2 instead of adding a fourth
  (`StaleCounterOverwrites`). Every other table comes out fresh: every
  counter is above every id stored under it, and each `create*` appends.
- `updateAgentSession` stores the merged record under the old key even when
  the update changes its `sessionId` (`SessionRenameBreaksKeying`).
- The in-memory store applies no column defaults. A session inserted without
  a status has none (`status: None`), although the schema declares a default
  of `active`. Such a session never counts as active on the dashboard.

## Model

| member | source | states |
|---|---|---|
| Tables.SetValid | server/storage.ts:40-46 | after `Map.set` the key list still has no duplicates and still names exactly the stored keys |
| Tables.ValuesAfterSet | server/storage.ts:40-46 | `values()` after `set`: a new key appends the value at the end; an existing key keeps the number of values |
| Tables.AppendFresh | server/storage.ts:202-205 | storing under the next counter value of a fresh table appends the record to `values()` and keeps the table fresh for the incremented counter |
| Tables.FilterIsSubsequence | server/storage.ts:246-249 | `filter` keeps elements in their original order (an order-preserving subsequence) |
| Tables.SortByCorrect | server/storage.ts:209-212 | the comparator sort returns a sorted permutation that keeps the insertion order of equal keys (a stable sort) |
| Text.NatToStringRoundTrip | server/storage.ts:452 | reading back the decimal rendering of a number gives the number |
| Text.NatToStringInjective | server/storage.ts:452 | distinct numbers render as distinct strings |
| Text.StripCurrencyRemovesMarks | server/storage.ts:393 | `replace(/[$,]/g, '')` leaves no dollar sign and no comma |
| Text.ParseDecimal | server/storage.ts:393 | the number prefix `parseFloat` reads has digit-only fraction digits, or is NaN |
| Text.ExceedsIsGreater | server/storage.ts:393 | the digit-wise comparison used for `> 1000` and `> 5000` is exactly the numeric comparison of the parsed value |
| Text.ParseIntPrefix | server/routes.ts:20 | `parseInt` without a radix: a segment that starts with a digit reads as a non-negative number |
| Text.ParseIntOfNatToString | server/routes.ts:20 | `parseInt` reads a rendered id back as that id |
| Text.ParseIntReadsDecimalPrefix | server/routes.ts:20 | a rendered number followed by a non-digit reads as that number, except that `0x`/`0X` starts a hexadecimal number |
| Text.ParseIntSkipsSpace | server/routes.ts:20 | leading white space does not change what `parseInt` reads |
| Text.ParseIntReadsHex | server/routes.ts:20 | `0x` or `0X` followed by hexadecimal digits reads them in base 16, up to the first non-hexadecimal character |
| Text.ParseIntEmptyHex | server/routes.ts:20 | `0x` or `0X` with no hexadecimal digit after it is NaN |
| Text.ParseIntNegates | server/routes.ts:20 | a leading minus negates the number that follows, and NaN stays NaN |
| Risk.TypeAddendIsWeight | server/storage.ts:384-389 | the fall-through `switch` adds 80 for delegation, 40 for escalation, 20 for tool_call, 5 for message, and 0 for anything else |
| Risk.AmountOverMonotone | server/storage.ts:393 | an amount over a higher limit is also over a lower one |
| Risk.CalculateRiskScore | server/storage.ts:377-398 | the score is at most 100, and it is either 100 or the uncapped sum |
| Risk.ScoreByWeights | server/storage.ts:377-398 | the score is `min(100, target 30 + type weight + amount>1000 25 + afterHours 15 + newMerchant 20)` |
| Risk.PlainMessageScoresFive | server/storage.ts:384-389 | a message with no target and no payload flags scores exactly 5 |
| Risk.DelegationScoresAtLeast80 | server/storage.ts:384-389 | every delegation scores at least 80 |
| Risk.UnknownTypeAddsNothing | server/storage.ts:384-389 | an action type outside the four cases adds nothing |
| Risk.ScoreMonotone | server/storage.ts:377-398 | adding a target or setting a payload flag never lowers the score |
| Risk.ParsePlainDecimal | server/storage.ts:393 | `parseFloat` reads `<digits>.<digits>` with its whole value and fraction |
| Risk.AmountExamples | server/storage.ts:393 | "$6,000.00" is over 5000; "$4,000.00" is over 1000 but not over 5000 |
| Risk.ThousandsAmount | server/storage.ts:393 | "$d,000.00" exceeds a limit exactly when d*1000 does |
| Escalations.NewEscalation | server/storage.ts:218-231 | a created escalation has the counter id, `createdAt = now`, no `resolvedAt`, status defaulting to `pending` when missing or empty, and operator and response null when missing or empty; reading it back as an insert gives the normalised input |
| Escalations.CreateRoundTrip | server/storage.ts:218-231 | an input that spells out status, operator and response reads back unchanged |
| Escalations.UpdatedEscalation | server/storage.ts:233-244 | the update is `{ ...e, ...u }`; a non-pending status also sets `resolvedAt := now`; otherwise `resolvedAt` is the merged one |
| Escalations.UpdateKeepsAbsentFields | server/storage.ts:237 | every field the update omits keeps its stored value; `resolvedAt` does so only when the update also carries no status |
| Escalations.ReapplyingStatusMovesResolvedAt | server/storage.ts:238-240 | re-applying the same terminal status moves `resolvedAt` to the second call's time |
| Escalations.PendingKeepsResolvedAt | server/storage.ts:238-240 | setting the status back to pending keeps the stored `resolvedAt` |
| Escalations.ResolvingUpdateIsConsistent | server/storage.ts:238-240 | after a resolving update, `resolvedAt` is set exactly when the status is not pending |
| Escalations.ResolutionInvariantGaps | server/storage.ts:218-244 | creation with a terminal status, and a reset to pending, both break that invariant |
| Escalations.UpdatedEscalationOnce | server/storage.ts:233-244 | the idempotent alternative: `resolvedAt` is set only when a pending escalation is resolved |
| Escalations.OnceIsIdempotent | server/storage.ts:233-244 | under that rule a repeated update changes nothing, and the first resolution agrees with the store |
| Escalations.ThreatEscalation | server/storage.ts:449-468 | the automatic escalation has agent id `THREAT-<id>`, risk high, SLA 15 minutes, status pending, and no operator or response |
| Escalations.ThreatEscalationTraceable | server/storage.ts:452 | different threats give different `THREAT-<id>` agent ids |
| Detection.NewAgentAction | server/storage.ts:302-310 | a created action has the counter id, `timestamp = now`, is not flagged, has the score `calculateRiskScore` gives its input, and keeps every input field |
| Detection.NewThreat | server/storage.ts:333-341 | a created threat has the counter id, `detectedAt = now`, is not mitigated, and keeps every input field |
| Detection.CollusionWindow | server/storage.ts:403-406 | the window holds exactly the stored actions of the same session, by the actor or its target, younger than 300000 ms |
| Detection.IdList | server/storage.ts:414 | the evidence lists the window's action ids, one per action, in order |
| Detection.DetectedThreats | server/storage.ts:400-447 | at most three threats, each of the action's session, a documented type and severity, confidence 0..100, judge `judge-v1` |
| Detection.DetectedThreatsByRule | server/storage.ts:400-447 | each rule contributes one threat of its own type exactly when it fires; exactly one critical threat when the amount is over 5000, none otherwise |
| Detection.EveryDelegationMisaligned | server/storage.ts:422-432 | every stored delegation raises exactly one misalignment threat (medium, confidence 70) |
| Detection.WindowHoldsOwnAction | server/storage.ts:403-406 | the action just stored is in its own window, and the window keeps storage order |
| Detection.RecordThreat | server/storage.ts:333-349 | a threat takes the next threat id, which then increments; a critical one also takes the next escalation id |
| Detection.RecordThreats | server/storage.ts:400-447 | recording a run advances the threat counter by the run's length |
| Detection.RecordThreatsConcat | server/storage.ts:400-447 | recording two runs in sequence equals recording their concatenation |
| Detection.RecordThreatKeys | server/storage.ts:333-349 | table by table: from a fresh threat table the threat id is appended to its keys, and from a fresh escalation table a critical threat appends the escalation id and a non-critical one appends nothing; each fresh table stays fresh |
| Detection.RecordThreatAppends | server/storage.ts:333-349 | table by table: from a fresh threat table the threat is appended to the threat list; from a fresh escalation table exactly the threat's pending escalation is appended when it is critical, nothing otherwise |
| Detection.RecordThreatsCounts | server/storage.ts:400-468 | the escalation counter advances by the number of critical threats; from a fresh threat table every threat adds one record; from a fresh escalation table only critical threats add escalations, one each |
| Detection.RecordThreatsFresh | server/storage.ts:400-468 | recording threats keeps the ledger fresh |
| Detection.RaisedEscalation | server/storage.ts:333-349 | the escalations one threat raises: one exactly when it is critical, none otherwise |
| Detection.ThreatEscalations | server/storage.ts:400-468 | the escalations a run of threats raises, one per critical threat |
| Detection.ThreatEscalationsStep | server/storage.ts:333-349 | the run's escalations are those of its prefix followed by those its last threat raises at the counters the prefix leaves |
| Detection.RecordThreatsEscalations | server/storage.ts:400-468 | from a fresh escalation table, recording a run appends exactly the run's escalations, in order, and keeps that table fresh, whatever state the threat table is in |
| Detection.RecordThreatsKeepsFresh | server/storage.ts:400-468 | a fresh ledger stays fresh, and a fresh escalation table alone receives exactly the run's escalations |
| Detection.ActionEscalatesOnlyOverLimit | server/storage.ts:302-317 | storing an action raises exactly one escalation when its amount is over 5000, none otherwise |
| Detection.StaleCounterOverwrites | server/storage.ts:334-337 | when the counter names a stored id, the new threat replaces that record and the list does not grow |
| Storage.NewUser | server/storage.ts:202-207 | a created user has the counter id and the input's fields |
| Storage.NewChatMessage | server/storage.ts:252-262 | a created message has the counter id, `timestamp = now`, and the input's fields |
| Storage.NewSession | server/storage.ts:273-282 | a new session has the random id, `startedAt = now`, no completion time, and the input's fields including its status as given |
| Storage.NewEvaluation | server/storage.ts:365-375 | a created evaluation has the counter id, `timestamp = now`, `escalationTriggered = false`, and the input's fields |
| Storage.FindByUsername | server/storage.ts:196-200 | `find` returns the first user with that name, and none exactly when no user has it |
| Storage.FixtureDelegationRaisesOneThreat | server/storage.ts:530-550 | the fixture delegation raises exactly the misalignment threat |
| Storage.QuietMessage | server/storage.ts:402-419 | a message without an amount raises no threat while at most five actions are stored |
| Storage.StoredActions | server/storage.ts:547-549 | a run of `createAgentAction` calls stores one record per input |
| Storage.StoredActionsStep | server/storage.ts:547-549 | storing the next input of a run appends its record under the next id |
| Storage.RaisedThreatsStep | server/storage.ts:311-314 | the next input of a run raises the threats the rules find over the actions stored up to and including it |
| Storage.RecordThreatsStep | server/storage.ts:314 | recording those threats extends the ledger by one input's worth of raised threats |
| Storage.CreateAgentActionsStep | server/storage.ts:547-549 | one step of the run extends both the stored actions and the recorded threats |
| Storage.MockActionsRaiseMisalignment | server/storage.ts:505-550 | of the four fixture actions only the delegation raises a threat, the misalignment threat of action 4 |
| Storage.QuietRunThenDelegation | server/storage.ts:402-419 | three messages without an amount followed by a delegation without a target or an amount raise exactly the delegation's misalignment threat |
| Storage.MockActionsRecord | server/storage.ts:505-550 | recording the fixture actions' threats writes that threat under the next threat id and creates no escalation |
| Storage.QuietRecord | server/storage.ts:333-349 | a threat that is not critical only takes the next threat id |
| Storage.FixtureSessionTable | server/storage.ts:471-503 | the session table built from an empty one holds the two fixture sessions, in order, under their `sessionId`s |
| Storage.FixtureThreatTable | server/storage.ts:552-612 | the three threat fixtures written over the delegation's threat at id 1 leave exactly ids 1, 2 and 3 with the fixtures' records |
| Storage.CreatedEscalations | server/storage.ts:187-189 | a run of `createEscalation` calls stores the normalised record of each input under consecutive ids |
| Storage.CreatedEscalationsStep | server/storage.ts:187-189 | one more `createEscalation` call appends its record, under the next id, to the records of the run so far |
| Storage.SessionRenameBreaksKeying | server/storage.ts:284-291 | an update that renames `sessionId` leaves the session stored under its old key |
| Storage.MemStorage.constructor | server/storage.ts:54-70 | empty tables and counters at 1, then `initializeMockData`: the store holds exactly the fixtures, every table but the threat table is fresh, and the threat counter is 2 while threat ids 1-3 are stored |
| Storage.MemStorage.InitializeMockData | server/storage.ts:72-190 | from an empty store: two sessions, four actions under ids 1-4, threats 1-3 with the counter at 2, six escalations under ids 1-6, and no user, message or evaluation |
| Storage.MemStorage.SeedAgentData | server/storage.ts:74-76 | from an empty store, the sessions, the actions and the threat fixtures, in that order, leave the two sessions, actions 1-4 and threats 1-3 stored, and the escalations untouched |
| Storage.MemStorage.SeedMockEscalations | server/storage.ts:78-189 | the six escalation fixtures are stored in order under ids 1-6 and the counter stands at 7 |
| Storage.MemStorage.SeedMockThreats | server/storage.ts:552-612 | over the delegation's threat at id 1, the threat table ends with exactly the three fixtures under ids 1-3 |
| Storage.MemStorage.InitializeAgentSessions | server/storage.ts:471-503 | the two fixture sessions are set under their `sessionId`s, keying and well-formedness kept |
| Storage.MemStorage.InitializeAgentActions | server/storage.ts:505-550 | the four fixture actions are stored under ids 1-4 and the misalignment threat of the delegation takes the next threat id; no escalation is created |
| Storage.MemStorage.CreateAgentActions | server/storage.ts:547-549 | a run of `createAgentAction` calls stores one record per input and records exactly the threats each step raises |
| Storage.MemStorage.CreateNextAgentAction | server/storage.ts:547-549 | one `createAgentAction` call of the run keeps the stored actions and the recorded threats in step with the inputs seen so far, and advances the action counter by one |
| Storage.MemStorage.InitializeThreatDetections | server/storage.ts:552-612 | the three threat fixtures are set under ids 1, 2 and 3; the counter does not move |
| Storage.MemStorage.CreateEscalations | server/storage.ts:187-189 | a run of `createEscalation` calls appends the inputs' records in order under consecutive ids |
| Storage.MemStorage.CreateNextEscalation | server/storage.ts:187-189 | one step of that run: the counter advances by one and the records so far gain the next input's record |
| Storage.MemStorage.GetUser | server/storage.ts:192-194 | the user stored under the id, or none when the id is absent |
| Storage.MemStorage.GetUserByUsername | server/storage.ts:196-200 | a stored user with that name, or none exactly when no stored user has it |
| Storage.MemStorage.CreateUser | server/storage.ts:202-207 | stored under the old counter, which increments; from a fresh store the user is appended and the store stays fresh |
| Storage.MemStorage.GetEscalations | server/storage.ts:209-212 | all escalations newest first, ties in insertion order, nothing lost or added |
| Storage.MemStorage.GetEscalation | server/storage.ts:214-216 | the stored escalation, or none when the id is absent |
| Storage.MemStorage.CreateEscalation | server/storage.ts:218-231 | stored under the old counter, which increments; from a fresh store appended, store stays fresh |
| Storage.MemStorage.UpdateEscalation | server/storage.ts:233-244 | unknown id: none and nothing changes; otherwise the merged record replaces the stored one in place, with key order and freshness kept |
| Storage.MemStorage.GetChatMessages | server/storage.ts:246-250 | exactly the messages of that escalation, oldest first, ties in insertion order |
| Storage.MemStorage.CreateChatMessage | server/storage.ts:252-262 | stored under the old counter, which increments; appended from a fresh store; the escalation need not exist |
| Storage.MemStorage.GetAgentSessions | server/storage.ts:264-267 | all sessions newest first, ties in insertion order |
| Storage.MemStorage.GetAgentSession | server/storage.ts:269-271 | the session stored under that key, or none |
| Storage.MemStorage.CreateAgentSession | server/storage.ts:273-282 | stored under its `sessionId`, replacing an existing one; keying and freshness kept |
| Storage.MemStorage.UpdateAgentSession | server/storage.ts:284-291 | unknown key: none and nothing changes; otherwise merged in place under the same key; keying kept unless the update renames the session |
| Storage.MemStorage.SeedSession | server/storage.ts:471-503 | a session fixture is written under its own `sessionId` |
| Storage.MemStorage.GetAgentActions | server/storage.ts:293-300 | newest first, ties in insertion order; with a non-empty session id only that session's actions |
| Storage.MemStorage.CreateAgentAction | server/storage.ts:302-317 | the action is stored under the old counter, then the threat ledger becomes the recording of exactly the threats the rules raise over the stored actions; action and threat freshness are kept; from a fresh escalation table (the store's state after start-up) exactly the escalations of the raised threats are appended, so only an amount over 5000 escalates |
| Storage.MemStorage.StoreAgentAction | server/storage.ts:302-310 | stored under the old counter, which increments; appended from a fresh action table |
| Storage.MemStorage.DetectThreats | server/storage.ts:400-447 | the ledger after the three rules is the recording of `DetectedThreats` in rule order |
| Storage.MemStorage.DetectCollusion | server/storage.ts:402-419 | records the collusion threat exactly when a targeted message has more than five actions in its window |
| Storage.MemStorage.DetectMisalignment | server/storage.ts:422-432 | records the misalignment threat exactly for a delegation scored above 60 |
| Storage.MemStorage.DetectBoundary | server/storage.ts:435-446 | records the critical boundary threat exactly for an amount above 5000 |
| Storage.MemStorage.UpdateAgentAction | server/storage.ts:319-326 | unknown id: none and nothing changes; otherwise merged in place, key order and freshness kept |
| Storage.MemStorage.GetThreatDetections | server/storage.ts:328-331 | all threats newest first, ties in insertion order |
| Storage.MemStorage.CreateThreatDetection | server/storage.ts:333-349 | stored under the old threat counter; a critical threat is escalated at once: from a fresh escalation table exactly its pending escalation is appended, and nothing for any other severity |
| Storage.MemStorage.EscalateThreat | server/storage.ts:449-468 | exactly one escalation is created, from `ThreatEscalation`, under the escalation counter; from a fresh escalation table it is appended and the table stays fresh |
| Storage.MemStorage.UpdateThreatDetection | server/storage.ts:351-358 | unknown id: none and nothing changes; otherwise merged in place, key order and freshness kept |
| Storage.MemStorage.SeedThreat | server/storage.ts:552-612 | a threat fixture is written under its own id; the counter is not moved |
| Storage.MemStorage.GetJudgeEvaluations | server/storage.ts:360-363 | all evaluations newest first, ties in insertion order |
| Storage.MemStorage.CreateJudgeEvaluation | server/storage.ts:365-375 | stored under the old counter, which increments; appended from a fresh store |
| Routes.DashboardOf | server/routes.ts:161-172 | active sessions are exactly the sessions with status `active`; recent actions are the first `min(50, n)`; the summary counts unmitigated threats |
| Routes.GetGovernanceDashboard | server/routes.ts:152-178 | the escalations and threats newest first, their summary, exactly the active stored sessions, and the first `min(50, n)` actions newest first, none left out newer than one kept |
| Routes.NewestKept | server/routes.ts:157-164 | a prefix of a newest-first action list leaves out no action newer than one it keeps |
| Routes.ActiveSessionsInOrder | server/routes.ts:164 | active sessions keep the order of the session list |
| Routes.SummaryBounded | server/routes.ts:166-171 | critical + high + medium never exceed the unmitigated total |
| Routes.SummaryAppend | server/routes.ts:166-171 | one more threat adds one to the total and to its severity exactly when it is unmitigated |
| Schema.Field | server/routes.ts:190 | a parsed object's property is its last entry with that key, and none exactly when no entry has it |
| Routes.Dispatch | server/routes.ts:193-201 | the only replies are `pong` and `subscribed` to `escalations` |
| Routes.DispatchByLastType | server/routes.ts:193-201 | `ping` gives pong, `subscribe_escalations` gives subscribed, any other type gives nothing, and the last `type` key decides |
| Routes.NoTypeNoReply | server/routes.ts:188-204 | a message that is not JSON, not an object, or has no `type` gets no reply |
| Routes.Socket.constructor | server/routes.ts:185 | a connection starts with nothing sent |
| Routes.Socket.OnMessage | server/routes.ts:188-204 | the reply, if any, is appended to what was sent on that socket, and nothing else is sent |
| Routes.Broadcast | server/routes.ts:37-44 | every open client receives the event exactly once; other clients receive nothing; no ready state changes |
| Routes.GetEscalationRoute | server/routes.ts:18-29 | 200 with the stored record, or 404 "Escalation not found" when the id is NaN or absent |
| Routes.PostEscalation | server/routes.ts:31-50 | the record is stored under the old counter, which increments, broadcast as `new_escalation` to open clients, and returned with 201; no ready state changes |
| Routes.PatchEscalation | server/routes.ts:52-74 | unknown or NaN id: 404 with nothing stored or sent; otherwise the merged record replaces the stored one in place, is broadcast as `escalation_updated`, and returned; no ready state changes |
| Routes.PostMessage | server/routes.ts:87-111 | the path id overrides the body; NaN gives 400 with nothing stored and the counter unmoved; otherwise stored under the old counter, which increments, broadcast as `new_message`, 201; no ready state changes |
| Routes.GetByRenderedId | server/routes.ts:18-25 | every stored escalation is found by the path that renders its id |
| EscalationCard.Pad2 | client/src/components/escalation-card.tsx:68 | `padStart(2, '0')` gives two digits with the same value |
| EscalationCard.FormatTimeRemaining | client/src/components/escalation-card.tsx:57-69 | `OVERDUE` exactly when `slaMinutes*60 - floor(elapsed ms / 1000) <= 0` |
| EscalationCard.ClockRoundTrip | client/src/components/escalation-card.tsx:66-68 | otherwise the text is `M:SS` with SS below 60, and `M*60 + SS` is the seconds remaining |
| EscalationCard.ClockTextParses | client/src/components/escalation-card.tsx:66-68 | minute digits, a colon and two second digits read back as minutes times 60 plus seconds |
| EscalationCard.RemainingTicks | client/src/components/escalation-card.tsx:59-60 | each elapsed second takes one second off; after creation the countdown never exceeds the SLA |
| EscalationCard.OverdueAfterSla | client/src/components/escalation-card.tsx:57-64 | once the whole SLA has elapsed, or from creation with a non-positive SLA, the card reads OVERDUE |
| EscalationCard.IsOverdue | client/src/components/escalation-card.tsx:86 | overdue exactly when no whole second remains |
| EscalationCard.UrgentExactly | client/src/components/escalation-card.tsx:87 | urgent whenever the risk is high or the SLA is at most 5 minutes, and never otherwise |
| EscalationCard.RiskColorsTotal | client/src/components/escalation-card.tsx:31-55 | border and badge colours are the grey default exactly for levels outside high/medium/low, and distinct among those three |
| EscalationCard.UnknownLevelStyles | client/src/components/escalation-card.tsx:95-102 | an undocumented level gets the info icon tone but the grey border |
| EscalationCard.AgentIconFallback | client/src/components/escalation-card.tsx:16-29 | the card icon is used exactly for types other than Fraud Detection, Compliance Agent and Trade Agent |
| EscalationCard.TimerPulsesExactly | client/src/components/escalation-card.tsx:112-116 | the timer pulses exactly when overdue or high risk; when not overdue it starts with the risk badge colour |
| EscalationCard.HeadingFollowsIcon | client/src/components/escalation-card.tsx:152-156 | the generic "Risk Assessment" heading goes exactly with the fallback icon |
| EscalationCard.FactorTone | client/src/components/escalation-card.tsx:159-163 | danger exactly when a danger word occurs; warning exactly when no danger word occurs but a warning word does; info otherwise |
| EscalationCard.DangerTakesPrecedence | client/src/components/escalation-card.tsx:160-162 | "High Volatility" is danger, "Rapid Trading" warning, "Unusual Pattern" info |
| EscalationCard.Label | client/src/components/escalation-card.tsx:132 | the label is at least as long as the key |
| EscalationCard.LabelRoundTrip | client/src/components/escalation-card.tsx:132 | removing the inserted spaces gives the key back: the label only inserts a space before each capital |
| EscalationCard.ContextRows | client/src/components/escalation-card.tsx:128-132 | at most one row per context entry |
| EscalationCard.ShownEntries | client/src/components/escalation-card.tsx:129 | every shown entry is a context entry other than `riskFactors` |
| EscalationCard.ContextRowsMatchEntries | client/src/components/escalation-card.tsx:128-132 | row by row the rows are the non-`riskFactors` entries in order, with the label unlabelling to the key and the value unchanged; the card displays them only when `ContextRenders` holds |
| EscalationCard.ContextRowsCount | client/src/components/escalation-card.tsx:128-132 | there is one context row per entry other than `riskFactors`; the card displays them only when `ContextRenders` holds |
| EscalationCard.ContextRendersShown | client/src/components/escalation-card.tsx:128-135 | the rows render exactly when every shown entry renders: a value that is not an object (nor an array holding one), and a string for `confidence` |
| EscalationCard.ThreatContextDoesNotRender | client/src/components/escalation-card.tsx:133 | the context `escalateThreat` writes holds `confidence` as a number, so the card's `value.replace` throws for every threat escalation, and the card as a whole does not render (`CardRenders`) |
| EscalationCard.FactorsRenderExamples | client/src/components/escalation-card.tsx:150-160 | a truthy `riskFactors` that is not an array (`"x"`, `{}`) or holds an element that is neither a string nor an array (`[1]`, `[null]`) throws; an array of strings renders, a falsy value skips the section, and the last duplicate key decides |
| EscalationCard.StringContextRenders | client/src/components/escalation-card.tsx:128-160 | a context whose values are strings or arrays of strings, with a string `confidence` and an array `riskFactors`, renders completely |
| Dashboard.FilteredEscalations | client/src/pages/dashboard.tsx:57-65 | exactly the pending escalations passing the three criteria, as an order-preserving subsequence |
| Dashboard.DefaultFiltersShowPending | client/src/pages/dashboard.tsx:16-20 | with all filters at `all`, the queue is exactly the pending escalations, in order |
| Dashboard.CriterionNarrows | client/src/pages/dashboard.tsx:60-62 | a criterion other than `all` demands equality; the filtered queue is within the unfiltered one |
| Dashboard.SetFilterChangesOnlyKey | client/src/pages/dashboard.tsx:89-91 | the named criterion takes the value and every other key is unchanged |
| Dashboard.SetFilterLaws | client/src/pages/dashboard.tsx:89-91 | the last change of a key wins; changes of different keys commute |
| Dashboard.ResetWidens | client/src/pages/dashboard.tsx:57-65 | setting a criterion back to `all` never removes an escalation from the queue |
| Dashboard.StatsOf | client/src/pages/dashboard.tsx:67-85 | high + medium + low never exceed the queue; threat statistics appear exactly when a threat summary is present, with missing active sessions counting 0 |
| Dashboard.PriorityBounded | client/src/pages/dashboard.tsx:68-72 | the three priority counts over a list add up to at most its length |
| Dashboard.HighFilterConcentrates | client/src/pages/dashboard.tsx:57-71 | with the risk filter at high, the whole queue is high priority and the others are 0 |
| Dashboard.StatsFromServer | client/src/pages/dashboard.tsx:75-84 | against the server's payload the threat statistics are always present, critical is at most the total, the total is the number of unmitigated threats, and active sessions are at most all sessions |
| Dashboard.DecisionUpdate | client/src/pages/dashboard.tsx:93-113 | each button sends a resolving status with the operator and the response, and no other field |
| Dashboard.DecisionResolvesEscalation | client/src/pages/dashboard.tsx:93-113 | stored, a decision sets its status, operator, response and `resolvedAt = now`, keeps every other field, and removes the escalation from the queue |
| Dashboard.EditIsApprovalWithNote | client/src/pages/dashboard.tsx:108-113 | edit stores the same record as approve except for the response |

## Left out

- Tables.ValuesAfterSet: for a key that is already stored, it states only that the number of values is unchanged. It does not say that the value stays at its position.
- Schema.Payload, Risk.CalculateRiskScore, Storage.MemStorage.CreateAgentAction: an action payload keeps only `amount` as an optional string and `afterHours`/`newMerchant` as their truthiness. So three behaviours are not modelled. A truthy `amount` that is not a string, such as `{"amount": 6000}`, makes `replace` throw inside `createAgentAction` after the counter has advanced, and nothing is stored. `afterHours` and `newMerchant` are read as the truthiness of any JSON value, which the booleans stand for. Every other payload entry, such as the fixtures' `message`, is dropped from the stored action.
- The fixture records are kept verbatim, but their long strings are written as pieces joined by `+`.
- zod validation of request bodies (shared/schema.ts:84-119) is not modelled. The body of `POST /api/escalations` reaches the route already validated (server/routes.ts:33); the chat route's NaN id is modelled as the 400 it produces. The PATCH route passes its body unvalidated (server/routes.ts:55), see the next line.
- Routes.PatchEscalation, Escalations.UpdatedEscalation: the update is a typed `EscalationUpdate` of known fields, so an unvalidated PATCH body is not modelled. In the source any JSON object is merged: `{"status": null}` stores a null status, `{"slaMinutes": "5"}` stores a string, and an extra key such as `{"note": "x"}` is stored in the record and broadcast with it.
- Text.ParseDecimal, Text.ExceedsIsGreater: the parsed amount is the exact decimal, not `parseFloat`'s nearest double. An amount whose digits round onto the limit differs: `"$5,000.0000000000001"` reads as exactly 5000 in the source (server/storage.ts:436, and likewise the `> 1000` test at server/storage.ts:393), so it is not over 5000 there, while the model finds it over.
- EscalationCard.ContextRows: the rows are computed for any context object, but the card throws while rendering when a shown value is an object or a `confidence` value is not a string (client/src/components/escalation-card.tsx:133-135). That is the case for every escalation `escalateThreat` raises (`ThreatContextDoesNotRender`); the throw itself and its effect on the dashboard are modelled only as `ContextRenders` being false. A context that is not an object is not modelled: `Object.entries` throws on `null` (line 128) and lists one row per character of a string, one per index of an array, and none for a number or a boolean.
- EscalationCard.FactorTone: the tone is modelled for string factors. The throws of the risk-factor section are modelled only as `FactorsRender` being false: a truthy non-array `riskFactors` throws at `.map`, and an element that is not a string or an array throws at `factor.includes` (client/src/components/escalation-card.tsx:150, 158-160). The tone of an array element, which `includes` tests by element rather than by substring, is not modelled.
- The 500 answers of the routes are left out. The model's store does not throw.
- The list routes that only return a getter's result (`GET /api/escalations`, `/api/agent-sessions`, `/api/agent-actions`, `/api/threat-detections`, `/api/judge-evaluations`) are covered by the getters.
- JSON serialisation and parsing are left out. A socket message arrives already parsed, with `None` for text that is not JSON.
- `Object.entries` lists integer-like keys first. The model keeps the context object's key order as written.
- `parseFloat` is modelled up to its number prefix (sign, digits, point, digits). Exponents, `Infinity` and leading whitespace are left out. Amounts in this system do not use them.
- The card's timers (`setInterval`), CSS classes other than the colour strings, the `capitalize` style, and the value colouring of `confidence`/`amount` are left out. So are button labels and the chat modal.
- React Query caching and invalidation, the client WebSocket hook, and the notification toast are left out.
- The wall clock and `Math.random` are parameters (`now`, `randomId`).
- Storage.MemStorage.CreateAgentAction, Storage.MemStorage.CreateThreatDetection, Storage.MemStorage.EscalateThreat, Storage.MemStorage.InitializeMockData: one instant `now` stands for every `new Date()` of a synchronous chain. The source reads the clock separately for the action's `timestamp` (server/storage.ts:306), the collusion window (:406), each threat's `detectedAt` (:337) and each escalation's `createdAt` (:221, once per fixture escalation at :187-189). The model covers only a clock that does not tick during the chain. When it ticks, the source's timestamps differ, so `getThreatDetections` lists one action's threats newest first (boundary, misalignment, collusion) and `getEscalations` orders the fixtures by time, where the model has equal timestamps and gives insertion order; a threat's escalation can also have a `createdAt` later than its `detectedAt`.
- The asynchronous `escalateThreat`, which is not awaited, is modelled as running to completion inside `createThreatDetection`. The in-memory store has no suspension point before its write.
