/** The operator dashboard: the queue of pending escalations narrowed by
    the three filters, the priority counts over that queue with the threat
    statistics of the governance payload, the filter change handler, and
    the update records the approve, deny and edit buttons send. */
module Dashboard {
  import opened Tables
  import opened Schema
  import opened Escalations
  import opened Storage
  import opened Routes

  // ----- filters -----

  const All := "all"
  const RiskLevelKey := "riskLevel"
  const AgentTypeKey := "agentType"
  const EscalationReasonKey := "escalationReason"

  datatype Filters = Filters(riskLevel: string, agentType: string, escalationReason: string)

  const DefaultFilters := Filters(All, All, All)

  /** A criterion of `all` lets every value through; any other criterion
      asks for that exact value. */
  predicate Admits(criterion: string, value: string) {
    criterion == All || value == criterion
  }

  /** An escalation stays in the queue when it is pending and passes the
      three criteria. */
  predicate Shown(f: Filters, e: Escalation) {
    && e.status == Pending
    && Admits(f.riskLevel, e.riskLevel)
    && Admits(f.agentType, e.agentType)
    && Admits(f.escalationReason, e.escalationReason)
  }

  predicate IsPending(e: Escalation) {
    e.status == Pending
  }

  /** `filteredEscalations`: the shown escalations, in the order of the
      list. */
  function FilteredEscalations(f: Filters, es: seq<Escalation>): (r: seq<Escalation>)
    ensures forall e :: e in r <==> e in es && Shown(f, e)
    ensures forall e :: e in r ==> e.status == Pending
    ensures IsSubsequence(r, es)
  {
    FilterIsSubsequence(es, e => Shown(f, e));
    Filter(es, e => Shown(f, e))
  }

  /** With every filter at `all`, the queue is exactly the pending
      escalations, in order. */
  lemma DefaultFiltersShowPending(es: seq<Escalation>)
    ensures FilteredEscalations(DefaultFilters, es) == Filter(es, IsPending)
  {
    FilterExt(es, e => Shown(DefaultFilters, e), IsPending);
  }

  /** Two predicates that agree on every element filter alike. */
  lemma {:induction false} FilterExt<T>(s: seq<T>, p: T -> bool, q: T -> bool)
    requires forall i :: 0 <= i < |s| ==> p(s[i]) == q(s[i])
    ensures Filter(s, p) == Filter(s, q)
  {
    if s != [] {
      FilterExt(s[1..], p, q);
    }
  }

  /** Setting a criterion to a value other than `all` keeps exactly the
      escalations with that value; setting it back to `all` can only
      widen the queue. */
  lemma CriterionNarrows(f: Filters, es: seq<Escalation>, e: Escalation)
    ensures f.riskLevel != All && e in FilteredEscalations(f, es) ==> e.riskLevel == f.riskLevel
    ensures f.agentType != All && e in FilteredEscalations(f, es) ==> e.agentType == f.agentType
    ensures f.escalationReason != All && e in FilteredEscalations(f, es) ==> e.escalationReason == f.escalationReason
    ensures e in FilteredEscalations(f, es) ==> e in FilteredEscalations(DefaultFilters, es)
  {
  }

  // ----- the filter change handler -----

  /** The criterion a filter key names, if any. */
  function Criterion(f: Filters, key: string): Option<string> {
    if key == RiskLevelKey then Some(f.riskLevel)
    else if key == AgentTypeKey then Some(f.agentType)
    else if key == EscalationReasonKey then Some(f.escalationReason)
    else None
  }

  /** `handleFilterChange(key, value)`: `{ ...prev, [key]: value }`. A key
      other than the three criteria adds a field the queue never reads, so
      the criteria stay as they were. */
  function SetFilter(f: Filters, key: string, value: string): Filters {
    if key == RiskLevelKey then f.(riskLevel := value)
    else if key == AgentTypeKey then f.(agentType := value)
    else if key == EscalationReasonKey then f.(escalationReason := value)
    else f
  }

  /** The change sets the named criterion and leaves every other one. */
  lemma SetFilterChangesOnlyKey(f: Filters, key: string, value: string)
    ensures Criterion(f, key).Some? ==> Criterion(SetFilter(f, key, value), key) == Some(value)
    ensures forall k :: k != key ==> Criterion(SetFilter(f, key, value), k) == Criterion(f, k)
    ensures Criterion(f, key).None? ==> SetFilter(f, key, value) == f
  {
  }

  /** The last change of a key wins, and changes of different keys commute. */
  lemma SetFilterLaws(f: Filters, k1: string, v1: string, k2: string, v2: string)
    ensures SetFilter(SetFilter(f, k1, v1), k1, v2) == SetFilter(f, k1, v2)
    ensures k1 != k2 ==> SetFilter(SetFilter(f, k1, v1), k2, v2) == SetFilter(SetFilter(f, k2, v2), k1, v1)
  {
  }

  /** Resetting a criterion to `all` never removes an escalation from the
      queue. */
  lemma ResetWidens(f: Filters, key: string, es: seq<Escalation>)
    ensures forall e :: e in FilteredEscalations(f, es) ==> e in FilteredEscalations(SetFilter(f, key, All), es)
  {
  }

  // ----- statistics -----

  predicate IsHighPriority(e: Escalation) { e.riskLevel == "high" }
  predicate IsMediumPriority(e: Escalation) { e.riskLevel == "medium" }
  predicate IsLowPriority(e: Escalation) { e.riskLevel == "low" }

  /** The part of `/api/governance-dashboard` the statistics read; either
      part may be missing from the payload. */
  datatype GovernanceView = GovernanceView(threatSummary: Option<ThreatSummary>, activeSessions: Option<seq<AgentSession>>)

  datatype GovernanceStats = GovernanceStats(criticalThreats: nat, activeSessions: nat, totalThreats: nat)

  datatype Stats = Stats(highPriority: nat, mediumPriority: nat, lowPriority: nat, governance: Option<GovernanceStats>)

  /** `stats`: the priority counts over the queue, and the threat statistics
      only when the payload has a threat summary, with no active-session
      list counting as zero. */
  function StatsOf(filtered: seq<Escalation>, data: Option<GovernanceView>): (s: Stats)
    ensures s.highPriority + s.mediumPriority + s.lowPriority <= |filtered|
    ensures s.governance.Some? <==> data.Some? && data.value.threatSummary.Some?
    ensures s.governance.Some? ==>
      && s.governance.value.criticalThreats == data.value.threatSummary.value.critical
      && s.governance.value.totalThreats == data.value.threatSummary.value.total
      && s.governance.value.activeSessions ==
           (if data.value.activeSessions.Some? then |data.value.activeSessions.value| else 0)
  {
    PriorityBounded(filtered);
    var basic := Stats(Count(filtered, IsHighPriority), Count(filtered, IsMediumPriority), Count(filtered, IsLowPriority), None);
    if data.Some? && data.value.threatSummary.Some? then
      var sessions := if data.value.activeSessions.Some? then |data.value.activeSessions.value| else 0;
      basic.(governance := Some(GovernanceStats(data.value.threatSummary.value.critical, sessions,
                                                data.value.threatSummary.value.total)))
    else basic
  }

  /** The three priorities are disjoint, so their counts add up to at most
      the length of the queue. */
  lemma {:induction false} PriorityBounded(s: seq<Escalation>)
    ensures Count(s, IsHighPriority) + Count(s, IsMediumPriority) + Count(s, IsLowPriority) <= |s|
  {
    if s != [] {
      PriorityBounded(s[1..]);
    }
  }

  /** Filtering on a risk level puts the whole queue in that level's count
      and none in the others. */
  lemma HighFilterConcentrates(f: Filters, es: seq<Escalation>)
    requires f.riskLevel == "high"
    ensures var s := StatsOf(FilteredEscalations(f, es), None);
      s.highPriority == |FilteredEscalations(f, es)| && s.mediumPriority == 0 && s.lowPriority == 0
  {
    var r := FilteredEscalations(f, es);
    forall i | 0 <= i < |r| ensures IsHighPriority(r[i]) {
      assert r[i] in r;
      assert Shown(f, r[i]);
    }
    FilterKeepsAll(r, IsHighPriority);
    FilterDropsAll(r, IsMediumPriority);
    FilterDropsAll(r, IsLowPriority);
  }

  lemma {:induction false} FilterKeepsAll<T>(s: seq<T>, p: T -> bool)
    requires forall i :: 0 <= i < |s| ==> p(s[i])
    ensures Filter(s, p) == s
  {
    if s != [] {
      FilterKeepsAll(s[1..], p);
    }
  }

  lemma {:induction false} FilterDropsAll<T>(s: seq<T>, p: T -> bool)
    requires forall i :: 0 <= i < |s| ==> !p(s[i])
    ensures Filter(s, p) == []
  {
    if s != [] {
      FilterDropsAll(s[1..], p);
    }
  }

  /** The view of the server's dashboard the client receives. */
  function ViewOf(d: GovernanceDashboard): GovernanceView {
    GovernanceView(Some(d.threatSummary), Some(d.activeSessions))
  }

  /** Against the server's payload the threat statistics are always shown:
      the critical count never exceeds the total, the total is the number
      of unmitigated threats, and the active sessions are at most all
      sessions. */
  lemma StatsFromServer(filtered: seq<Escalation>, store: MemStorage)
    ensures var g := StatsOf(filtered, Some(ViewOf(GetGovernanceDashboard(store)))).governance;
      && g.Some?
      && g.value.criticalThreats <= g.value.totalThreats
      && g.value.totalThreats == Count(store.GetThreatDetections(), IsOpenThreat)
      && g.value.activeSessions <= |store.GetAgentSessions()|
  {
    SummaryBounded(store.GetThreatDetections());
  }

  // ----- operator decisions -----

  datatype Decision = Approve | Deny | Edit

  const OperatorId := "sarah.chen"
  const Approved := "approved"
  const Denied := "denied"
  const ApprovedResponse := "Approved by operator"
  const DeniedResponse := "Denied by operator"
  const EditedResponse := "Approved with modifications"

  function DecisionStatus(d: Decision): string {
    if d == Deny then Denied else Approved
  }

  function DecisionResponse(d: Decision): string {
    match d
    case Approve => ApprovedResponse
    case Deny => DeniedResponse
    case Edit => EditedResponse
  }

  /** The update a button sends: a status, the operator and a response, and
      no other field. */
  function DecisionUpdate(d: Decision): (u: EscalationUpdate)
    ensures Resolves(u)
    ensures u.(status := None, operatorId := None, response := None) == NoEscalationChange
  {
    NoEscalationChange.(status := Some(DecisionStatus(d)), operatorId := Some(Some(OperatorId)),
                        response := Some(Some(DecisionResponse(d))))
  }

  /** Once stored, a decision resolves the escalation: it carries the
      decision's status, the operator and the response, it is stamped with
      the time of the update, every other field is as before, and it leaves
      the queue whatever the filters. */
  lemma DecisionResolvesEscalation(e: Escalation, d: Decision, now: int, f: Filters)
    ensures var r := UpdatedEscalation(e, DecisionUpdate(d), now);
      && r.status == DecisionStatus(d) && r.status != Pending
      && r.operatorId == Some(OperatorId) && r.response == Some(DecisionResponse(d))
      && r.resolvedAt == Some(now) && ResolutionConsistent(r)
      && r.(status := e.status, operatorId := e.operatorId, response := e.response, resolvedAt := e.resolvedAt) == e
      && !Shown(f, r)
  {
  }

  /** Approve and edit store the same status and differ only in the
      response. */
  lemma EditIsApprovalWithNote(e: Escalation, now: int)
    ensures var a, b := UpdatedEscalation(e, DecisionUpdate(Approve), now), UpdatedEscalation(e, DecisionUpdate(Edit), now);
      a.status == b.status && a.response != b.response && a.(response := b.response) == b
  {
  }
}
