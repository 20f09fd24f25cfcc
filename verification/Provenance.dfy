/**
  What every reachable store keeps about investigation records and approvals: where each record comes
  from, what each approval is bound to, and how the incident status follows from them.
 */
module Provenance {
  import opened Base
  import opened Schema
  import opened Investigation
  import opened Gate

  /******* Records *******/

  ghost predicate RecordIdsBelow(t: Tables) {
    && (forall r :: r in t.runs ==> r < t.nextId)
    && (forall c :: c in t.toolCalls ==> c < t.nextId)
    && (forall e :: e in t.evidence ==> e < t.nextId)
    && (forall h :: h in t.hypotheses ==> h < t.nextId)
    && (forall r :: r in t.recommendations ==> r < t.nextId)
    && (forall p :: p in t.approvals ==> p < t.nextId)
  }

  /** Row-level time constraint of the run table, with every time in the past. */
  predicate RunTimesFit(r: AgentRun, clock: int) {
    && r.createdAt <= clock
    && (r.startedAt.Some? ==> r.startedAt.value <= clock)
    && (r.finishedAt.Some? ==> r.startedAt.Some? && r.startedAt.value <= r.finishedAt.value <= clock)
  }

  predicate RunFits(t: Tables, r: AgentRun, clock: int) {
    r.incident in t.incidents && RunTimesFit(r, clock)
  }

  predicate ToolCallFits(t: Tables, c: ToolCall) {
    c.run in t.runs
  }

  /** Evidence belongs to its run's incident; a linked tool call succeeded in the same run. */
  predicate EvidenceFits(t: Tables, e: Evidence) {
    e.run in t.runs && e.incident == t.runs[e.run].incident && UsableToolCall(t, e.run, e.toolCall)
  }

  ghost predicate Cited(t: Tables, h: Id) {
    exists c :: c in t.citations && c.hypothesis == h
  }

  ghost predicate HypothesisFits(t: Tables, h: Id)
    requires h in t.hypotheses
  {
    t.hypotheses[h].run in t.runs && IsProbability(t.hypotheses[h].confidence) && Cited(t, h)
  }

  /** A citation stays inside one run. */
  predicate CitationFits(t: Tables, c: Citation) {
    c.hypothesis in t.hypotheses && c.evidence in t.evidence &&
    t.hypotheses[c.hypothesis].run == c.run && t.evidence[c.evidence].run == c.run
  }

  predicate RecommendationFits(t: Tables, r: Recommendation) {
    r.run in t.runs && r.hypothesis in t.hypotheses && t.hypotheses[r.hypothesis].run == r.run &&
    r.action in ALLOWED_ACTIONS
  }

  /** The approval is a faithful copy of its recommendation, under a digest of that action. */
  ghost predicate BoundToRecommendation(t: Tables, hash: Hash, a: Approval) {
    && a.recommendation in t.recommendations && a.run in t.runs
    && t.recommendations[a.recommendation].run == a.run
    && t.recommendations[a.recommendation].action == a.action
    && t.recommendations[a.recommendation].parameters == a.parameters
    && a.hash == ActionDigest(hash, a.action, a.parameters, a.run)
  }

  /** Decided inside its thirty minutes, executed only after approval and only as a rollback. */
  predicate LifeFits(a: Approval, clock: int) {
    && a.createdAt <= clock && a.expiresAt == a.createdAt + APPROVAL_TTL
    && (a.status == ApprovalStatus.Pending <==> a.decidedAt.None?)
    && (a.decidedAt.Some? ==> a.createdAt <= a.decidedAt.value <= a.expiresAt && a.decidedAt.value <= clock)
    && (a.execution.None? <==> a.executedAt.None?)
    && (a.executedAt.Some? ==>
         a.status == ApprovalStatus.Approved && a.execution == Some(Succeeded) && a.action == ROLLBACK &&
         a.decidedAt.Some? && a.decidedAt.value <= a.executedAt.value <= clock)
  }

  ghost predicate OneApprovalEach(t: Tables) {
    forall p, q :: p in t.approvals && q in t.approvals ==>
      t.approvals[p].recommendation == t.approvals[q].recommendation ==> p == q
  }

  ghost predicate Recorded(t: Tables, hash: Hash, clock: int) {
    && RecordIdsBelow(t)
    && (forall r :: r in t.runs ==> RunFits(t, t.runs[r], clock))
    && (forall c :: c in t.toolCalls ==> ToolCallFits(t, t.toolCalls[c]))
    && (forall e :: e in t.evidence ==> EvidenceFits(t, t.evidence[e]))
    && (forall h :: h in t.hypotheses ==> HypothesisFits(t, h))
    && (forall c :: c in t.citations ==> CitationFits(t, c))
    && (forall r :: r in t.recommendations ==> RecommendationFits(t, t.recommendations[r]))
    && (forall p :: p in t.approvals ==>
         BoundToRecommendation(t, hash, t.approvals[p]) && LifeFits(t.approvals[p], clock))
    && OneApprovalEach(t)
  }

  /** Rows are only added; a run keeps its incident, and every other old row is kept as it is. */
  ghost predicate Grows(t: Tables, t': Tables) {
    && t.nextId <= t'.nextId
    && t.incidents.Keys <= t'.incidents.Keys
    && (forall r :: r in t.runs ==> r in t'.runs && t'.runs[r].incident == t.runs[r].incident)
    && (forall c :: c in t.toolCalls ==> c in t'.toolCalls && t'.toolCalls[c] == t.toolCalls[c])
    && (forall e :: e in t.evidence ==> e in t'.evidence && t'.evidence[e] == t.evidence[e])
    && (forall h :: h in t.hypotheses ==> h in t'.hypotheses && t'.hypotheses[h] == t.hypotheses[h])
    && (forall r :: r in t.recommendations ==>
         r in t'.recommendations && t'.recommendations[r] == t.recommendations[r])
    && t.citations <= t'.citations
  }

  /** Every row of t' that t does not have satisfies its rule in t'. */
  ghost predicate NewRowsFit(t: Tables, t': Tables, hash: Hash, clock: int) {
    && RecordIdsBelow(t')
    && (forall r :: r in t'.runs ==> (r in t.runs && t'.runs[r] == t.runs[r]) || RunFits(t', t'.runs[r], clock))
    && (forall c :: c in t'.toolCalls ==> c in t.toolCalls || ToolCallFits(t', t'.toolCalls[c]))
    && (forall e :: e in t'.evidence ==> e in t.evidence || EvidenceFits(t', t'.evidence[e]))
    && (forall h :: h in t'.hypotheses ==> h in t.hypotheses || HypothesisFits(t', h))
    && (forall c :: c in t'.citations ==> c in t.citations || CitationFits(t', c))
    && (forall r :: r in t'.recommendations ==>
         r in t.recommendations || RecommendationFits(t', t'.recommendations[r]))
    && (forall p :: p in t'.approvals ==>
         (p in t.approvals && t'.approvals[p] == t.approvals[p]) ||
         (BoundToRecommendation(t', hash, t'.approvals[p]) && LifeFits(t'.approvals[p], clock)))
    && OneApprovalEach(t')
  }

  lemma OldEvidenceFits(t: Tables, t': Tables, e: Evidence)
    requires Grows(t, t') && EvidenceFits(t, e)
    ensures EvidenceFits(t', e)
  {}

  lemma OldHypothesisFits(t: Tables, t': Tables, h: Id)
    requires Grows(t, t') && h in t.hypotheses && HypothesisFits(t, h)
    ensures HypothesisFits(t', h)
  {
    var c :| c in t.citations && c.hypothesis == h;
    assert c in t'.citations;
  }

  lemma OldCitationFits(t: Tables, t': Tables, c: Citation)
    requires Grows(t, t') && CitationFits(t, c)
    ensures CitationFits(t', c)
  {}

  lemma OldRecommendationFits(t: Tables, t': Tables, r: Recommendation)
    requires Grows(t, t') && RecommendationFits(t, r)
    ensures RecommendationFits(t', r)
  {}

  lemma OldApprovalFits(t: Tables, t': Tables, hash: Hash, a: Approval)
    requires Grows(t, t') && BoundToRecommendation(t, hash, a)
    ensures BoundToRecommendation(t', hash, a)
  {}

  lemma EvidenceGrows(t: Tables, t': Tables)
    requires Grows(t, t')
    requires forall e :: e in t.evidence ==> EvidenceFits(t, t.evidence[e])
    requires forall c :: c in t.citations ==> CitationFits(t, c)
    requires forall e :: e in t'.evidence ==> e in t.evidence || EvidenceFits(t', t'.evidence[e])
    requires forall c :: c in t'.citations ==> c in t.citations || CitationFits(t', c)
    ensures forall e :: e in t'.evidence ==> EvidenceFits(t', t'.evidence[e])
    ensures forall c :: c in t'.citations ==> CitationFits(t', c)
  {
    forall e | e in t.evidence { OldEvidenceFits(t, t', t.evidence[e]); }
    forall c | c in t.citations { OldCitationFits(t, t', c); }
  }

  lemma ProposalsGrow(t: Tables, t': Tables)
    requires Grows(t, t')
    requires forall h :: h in t.hypotheses ==> HypothesisFits(t, h)
    requires forall r :: r in t.recommendations ==> RecommendationFits(t, t.recommendations[r])
    requires forall h :: h in t'.hypotheses ==> h in t.hypotheses || HypothesisFits(t', h)
    requires forall r :: r in t'.recommendations ==>
      r in t.recommendations || RecommendationFits(t', t'.recommendations[r])
    ensures forall h :: h in t'.hypotheses ==> HypothesisFits(t', h)
    ensures forall r :: r in t'.recommendations ==> RecommendationFits(t', t'.recommendations[r])
  {
    forall h | h in t.hypotheses ensures HypothesisFits(t', h) { OldHypothesisFits(t, t', h); }
    forall r | r in t.recommendations { OldRecommendationFits(t, t', t.recommendations[r]); }
  }

  lemma ApprovalsGrow(t: Tables, t': Tables, hash: Hash, clock: int, clock': int)
    requires Grows(t, t') && clock <= clock'
    requires forall p :: p in t.approvals ==>
      BoundToRecommendation(t, hash, t.approvals[p]) && LifeFits(t.approvals[p], clock)
    requires forall p :: p in t'.approvals ==>
      (p in t.approvals && t'.approvals[p] == t.approvals[p]) ||
      (BoundToRecommendation(t', hash, t'.approvals[p]) && LifeFits(t'.approvals[p], clock'))
    ensures forall p :: p in t'.approvals ==>
      BoundToRecommendation(t', hash, t'.approvals[p]) && LifeFits(t'.approvals[p], clock')
  {
    forall p | p in t.approvals { OldApprovalFits(t, t', hash, t.approvals[p]); }
  }

  lemma RecordsGrow(t: Tables, t': Tables, hash: Hash, clock: int, clock': int)
    requires Recorded(t, hash, clock) && clock <= clock'
    requires Grows(t, t') && NewRowsFit(t, t', hash, clock')
    ensures Recorded(t', hash, clock')
  {
    EvidenceGrows(t, t');
    ProposalsGrow(t, t');
    ApprovalsGrow(t, t', hash, clock, clock');
  }

  /******* Lifecycle *******/

  predicate Early(s: IncidentStatus) {
    s == New || s == CollectingEvidence || s == Analyzing
  }

  ghost predicate HasApproval(t: Tables, i: Id) {
    exists p :: ApprovalOf(t, p, i)
  }

  ghost predicate HasDecision(t: Tables, i: Id, decision: ApprovalStatus) {
    exists p :: ApprovalOf(t, p, i) && t.approvals[p].status == decision
  }

  ghost predicate ExecutedBy(t: Tables, p: Id, i: Id, at: int) {
    ApprovalOf(t, p, i) && t.approvals[p].executedAt == Some(at)
  }

  /** `resolvedAt` is the latest successful execution, if there was one. */
  ghost predicate ResolvedAtFits(t: Tables, i: Id)
    requires i in t.incidents
  {
    match t.incidents[i].resolvedAt
    case None => forall p :: ApprovalOf(t, p, i) ==> t.approvals[p].executedAt.None?
    case Some(at) =>
      (exists p :: ExecutedBy(t, p, i, at)) &&
      forall p :: ApprovalOf(t, p, i) && t.approvals[p].executedAt.Some? ==> t.approvals[p].executedAt.value <= at
  }

  ghost predicate StatusFits(t: Tables, i: Id)
    requires i in t.incidents
  {
    var s := t.incidents[i].status;
    && (s == New <==> !HasRun(t, i))
    && (Early(s) <==> !HasApproval(t, i))
    && (s == IncidentStatus.Approved ==> HasDecision(t, i, ApprovalStatus.Approved))
    && (s == IncidentStatus.Rejected ==> HasDecision(t, i, ApprovalStatus.Rejected))
    && (s == Resolved ==> t.incidents[i].resolvedAt.Some?)
    && s != Executing && s != IncidentStatus.Failed && s != IncidentStatus.Completed
    && ResolvedAtFits(t, i)
  }

  ghost predicate Lifecycle(t: Tables) {
    forall i :: i in t.incidents ==> StatusFits(t, i)
  }

  /** Terminal statuses leave their trace in the approvals. */
  lemma StatusLeavesTrace(t: Tables, i: Id)
    requires i in t.incidents && StatusFits(t, i)
    ensures Terminal(t.incidents[i].status) ==> Closed(t, i)
  {
    if t.incidents[i].status == IncidentStatus.Rejected {
      var p :| ApprovalOf(t, p, i) && t.approvals[p].status == ApprovalStatus.Rejected;
    } else if t.incidents[i].status == Resolved {
      var p :| ExecutedBy(t, p, i, t.incidents[i].resolvedAt.value);
      assert ApprovalOf(t, p, i) && t.approvals[p].executedAt.Some?;
    }
  }

  /******* Frames of the lifecycle *******/

  /** Approvals and the incidents they concern are the same in both. */
  ghost predicate SameApprovals(t: Tables, t': Tables) {
    && t'.approvals == t.approvals
    && (forall p :: p in t.approvals ==>
         t.approvals[p].run in t.runs && t.approvals[p].run in t'.runs &&
         t'.runs[t.approvals[p].run].incident == t.runs[t.approvals[p].run].incident)
  }

  lemma SameApprovalsAgree(t: Tables, t': Tables)
    requires SameApprovals(t, t')
    ensures forall p, i :: ApprovalOf(t', p, i) <==> ApprovalOf(t, p, i)
    ensures forall i :: Closed(t', i) <==> Closed(t, i)
    ensures forall i :: SeesSame(t, t', i)
  {
    forall p, i ensures ApprovalOf(t', p, i) <==> ApprovalOf(t, p, i) {}
  }

  /** Incident i has the same approvals, with the same rows, in both. */
  ghost predicate SeesSame(t: Tables, t': Tables, i: Id) {
    forall p :: (ApprovalOf(t', p, i) <==> ApprovalOf(t, p, i)) &&
      (ApprovalOf(t, p, i) ==> p in t'.approvals && t'.approvals[p] == t.approvals[p])
  }

  /** The status of i is explained in t' as it was in t. */
  lemma StatusKept(t: Tables, t': Tables, i: Id)
    requires SeesSame(t, t', i)
    requires i in t.incidents && i in t'.incidents && StatusFits(t, i)
    requires t'.incidents[i].status == t.incidents[i].status && t'.incidents[i].resolvedAt == t.incidents[i].resolvedAt
    requires HasRun(t', i) <==> HasRun(t, i)
    ensures StatusFits(t', i)
  {
    DecisionsKept(t, t', i);
    ResolvedAtKept(t, t', i);
  }

  lemma DecisionsKept(t: Tables, t': Tables, i: Id)
    requires SeesSame(t, t', i)
    ensures HasApproval(t', i) <==> HasApproval(t, i)
    ensures forall d :: HasDecision(t, i, d) ==> HasDecision(t', i, d)
  {
    if p :| ApprovalOf(t, p, i) { assert ApprovalOf(t', p, i); }
    if p :| ApprovalOf(t', p, i) { assert ApprovalOf(t, p, i); }
    forall d | HasDecision(t, i, d) ensures HasDecision(t', i, d) {
      var p :| ApprovalOf(t, p, i) && t.approvals[p].status == d;
      assert ApprovalOf(t', p, i);
    }
  }

  lemma ResolvedAtKept(t: Tables, t': Tables, i: Id)
    requires SeesSame(t, t', i) && i in t.incidents && i in t'.incidents && ResolvedAtFits(t, i)
    requires t'.incidents[i].resolvedAt == t.incidents[i].resolvedAt
    ensures ResolvedAtFits(t', i)
  {
    if t.incidents[i].resolvedAt.Some? {
      var p :| ExecutedBy(t, p, i, t.incidents[i].resolvedAt.value);
      assert ExecutedBy(t', p, i, t'.incidents[i].resolvedAt.value);
    }
  }
}
