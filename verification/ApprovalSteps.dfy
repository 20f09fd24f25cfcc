/** Preservation of the invariant by requesting, deciding and executing an approval. */
module ApprovalSteps {
  import opened Base
  import opened Schema
  import opened Correlation
  import opened Gate
  import opened Provenance
  import opened Soundness
  import opened CaseSteps

  /** t' stores row p for an approval of incident i, and gives i the given status and resolution time. */
  ghost predicate Moves(t: Tables, t': Tables, p: Id, row: Approval, i: Id, status: IncidentStatus, at: Option<int>) {
    && row.run in t.runs && t.runs[row.run].incident == i && i in t.incidents
    && t'.services == t.services && t'.alerts == t.alerts && t'.links == t.links && t'.runs == t.runs
    && t'.toolCalls == t.toolCalls && t'.evidence == t.evidence && t'.hypotheses == t.hypotheses
    && t'.citations == t.citations && t'.recommendations == t.recommendations
    && t'.approvals == t.approvals[p := row]
    && t'.incidents == t.incidents[i := t.incidents[i].(status := status, resolvedAt := at)]
    && t'.events != [] && Neutral(t'.events[|t'.events| - 1]) && t'.events[..|t'.events| - 1] == t.events
    && t.nextId <= t'.nextId
  }

  /** The row that was there, if any, concerned the same run and had closed nothing. */
  ghost predicate Replaces(t: Tables, p: Id, row: Approval) {
    p in t.approvals ==>
      t.approvals[p].run == row.run && t.approvals[p].recommendation == row.recommendation &&
      t.approvals[p].status != ApprovalStatus.Rejected && t.approvals[p].executedAt.None?
  }

  lemma MoveSeen(t: Tables, t': Tables, p: Id, row: Approval, i: Id, status: IncidentStatus, at: Option<int>)
    requires Moves(t, t', p, row, i, status, at) && Replaces(t, p, row)
    ensures forall j :: Closed(t, j) ==> Closed(t', j)
    ensures forall j :: j != i ==> SeesSame(t, t', j)
    ensures ApprovalOf(t', p, i)
    ensures forall q :: ApprovalOf(t', q, i) ==> q == p || (ApprovalOf(t, q, i) && t'.approvals[q] == t.approvals[q])
  {
    forall j | Closed(t, j) ensures Closed(t', j) {
      var q :| ApprovalOf(t, q, j) &&
        (t.approvals[q].status == ApprovalStatus.Rejected || t.approvals[q].executedAt.Some?);
      assert ApprovalOf(t', q, j);
    }
  }

  lemma MoveMovesCases(
    t: Tables, t': Tables, p: Id, row: Approval, i: Id, status: IncidentStatus, at: Option<int>)
    requires Moves(t, t', p, row, i, status, at)
    ensures MovesCases(t, t')
  {}

  lemma MoveKeepsAlerts(
    t: Tables, t': Tables, p: Id, row: Approval, i: Id, status: IncidentStatus, at: Option<int>, w: int)
    requires Moves(t, t', p, row, i, status, at) && Replaces(t, p, row) && Correlated(t, w)
    ensures Correlated(t', w)
  {
    MoveSeen(t, t', p, row, i, status, at);
    MoveMovesCases(t, t', p, row, i, status, at);
    MovedCasesKeepAlerts(t, t', w);
  }

  lemma MoveKeepsOthers(
    t: Tables, t': Tables, p: Id, row: Approval, i: Id, status: IncidentStatus, at: Option<int>)
    requires Moves(t, t', p, row, i, status, at) && Replaces(t, p, row) && Lifecycle(t)
    requires StatusFits(t', i)
    ensures Lifecycle(t')
  {
    MoveSeen(t, t', p, row, i, status, at);
    forall j | j in t'.incidents ensures StatusFits(t', j) {
      if j != i {
        assert StatusFits(t, j);
        RunsSeenElsewhere(t, t', j);
        StatusKept(t, t', j);
      }
    }
  }

  lemma MoveFits(
    t: Tables, t': Tables, p: Id, row: Approval, i: Id, status: IncidentStatus, at: Option<int>, hash: Hash, now: int)
    requires Moves(t, t', p, row, i, status, at) && RecordIdsBelow(t) && p < t'.nextId
    requires BoundToRecommendation(t, hash, row) && LifeFits(row, now) && OneApprovalEach(t')
    ensures Grows(t, t') && NewRowsFit(t, t', hash, now)
  {
    hide RunFits, ToolCallFits, EvidenceFits, HypothesisFits, CitationFits, RecommendationFits,
      Neutral;
    assert BoundToRecommendation(t', hash, row);
  }

  lemma MovePreserves(
    t: Tables, t': Tables, p: Id, row: Approval, i: Id, status: IncidentStatus, at: Option<int>,
    hash: Hash, w: int, now: int)
    requires Sound(t, hash, w, now)
    requires Moves(t, t', p, row, i, status, at) && Replaces(t, p, row) && p < t'.nextId
    requires BoundToRecommendation(t, hash, row) && LifeFits(row, now) && OneApprovalEach(t')
    requires StatusFits(t', i)
    ensures Sound(t', hash, w, now)
  {
    MoveKeepsAlerts(t, t', p, row, i, status, at, w);
    MoveKeepsOthers(t, t', p, row, i, status, at);
    MoveFits(t, t', p, row, i, status, at, hash, now);
    RecordsGrow(t, t', hash, now, now);
  }

  /** The moved incident's status, when the new row was not executed. */
  lemma UnexecutedMoveFits(
    t: Tables, t': Tables, p: Id, row: Approval, i: Id, status: IncidentStatus)
    requires i in t.incidents && Moves(t, t', p, row, i, status, t.incidents[i].resolvedAt) && Replaces(t, p, row)
    requires StatusFits(t, i) && row.executedAt.None?
    requires status == NeedsApproval ||
      (status == IncidentStatus.Approved && row.status == ApprovalStatus.Approved) ||
      (status == IncidentStatus.Rejected && row.status == ApprovalStatus.Rejected)
    ensures StatusFits(t', i)
  {
    MoveSeen(t, t', p, row, i, status, t.incidents[i].resolvedAt);
    assert row.run in t'.runs && t'.runs[row.run].incident == i;
    assert HasDecision(t', i, row.status);
    if t.incidents[i].resolvedAt.Some? {
      var at := t.incidents[i].resolvedAt.value;
      var q :| ExecutedBy(t, q, i, at);
      assert ExecutedBy(t', q, i, at);
    }
  }

  lemma ExecutedMoveFits(t: Tables, t': Tables, p: Id, row: Approval, i: Id, now: int)
    requires Moves(t, t', p, row, i, Resolved, Some(now)) && Replaces(t, p, row)
    requires StatusFits(t, i) && row.executedAt == Some(now)
    requires forall q :: q in t.approvals ==> LifeFits(t.approvals[q], now)
    ensures StatusFits(t', i)
  {
    MoveSeen(t, t', p, row, i, Resolved, Some(now));
    assert row.run in t'.runs && t'.runs[row.run].incident == i;
    assert ExecutedBy(t', p, i, now);
  }

  /******* Requesting *******/

  ghost predicate NewRequest(t: Tables, rec: Id) {
    && rec in t.recommendations && t.recommendations[rec].action in ALLOWED_ACTIONS
    && t.recommendations[rec].run in t.runs && t.runs[t.recommendations[rec].run].incident in t.incidents
    && forall p :: p in t.approvals ==> t.approvals[p].recommendation != rec
  }

  lemma NewRequestMoves(t: Tables, hash: Hash, rec: Id, now: int, choose: RowChoice)
    requires NewRequest(t, rec)
    ensures RequestApproval(t, hash, rec, now, choose).Done?
    ensures RequestApproval(t, hash, rec, now, choose).tables.nextId == t.nextId + 1
    ensures var r := t.recommendations[rec];
      var i := t.runs[r.run].incident;
      Moves(t, RequestApproval(t, hash, rec, now, choose).tables, t.nextId, PendingRow(hash, rec, r, now), i,
            NeedsApproval, t.incidents[i].resolvedAt)
  {
    assert ApprovalsFor(t, rec) == {};
  }

  lemma NewRequestFits(t: Tables, t': Tables, hash: Hash, rec: Id, now: int)
    requires RecordIdsBelow(t) && OneApprovalEach(t) && NewRequest(t, rec)
    requires t'.approvals == t.approvals[t.nextId := PendingRow(hash, rec, t.recommendations[rec], now)]
    ensures OneApprovalEach(t') && Replaces(t, t.nextId, PendingRow(hash, rec, t.recommendations[rec], now))
  {}

  lemma NewRequestPreserves(t: Tables, t': Tables, hash: Hash, rec: Id, w: int, now: int, i: Id)
    requires Sound(t, hash, w, now) && NewRequest(t, rec) && i == t.runs[t.recommendations[rec].run].incident
    requires Moves(t, t', t.nextId, PendingRow(hash, rec, t.recommendations[rec], now), i, NeedsApproval,
                   t.incidents[i].resolvedAt)
    requires t.nextId < t'.nextId
    ensures Sound(t', hash, w, now)
  {
    var row := PendingRow(hash, rec, t.recommendations[rec], now);
    hide Correlated, ActionDigest, StatusFits;
    NewRequestFits(t, t', hash, rec, now);
    assert StatusFits(t, i);
    UnexecutedMoveFits(t, t', t.nextId, row, i, NeedsApproval);
    MovePreserves(t, t', t.nextId, row, i, NeedsApproval, t.incidents[i].resolvedAt, hash, w, now);
  }

  lemma RecommendationPlaced(t: Tables, hash: Hash, clock: int, rec: Id)
    requires Recorded(t, hash, clock) && rec in t.recommendations
    ensures Placed(t, rec)
  {
    assert RecommendationFits(t, t.recommendations[rec]);
    assert RunFits(t, t.runs[t.recommendations[rec].run], clock);
  }

  ghost predicate Placed(t: Tables, rec: Id) {
    rec in t.recommendations && t.recommendations[rec].action in ALLOWED_ACTIONS &&
    t.recommendations[rec].run in t.runs && t.runs[t.recommendations[rec].run].incident in t.incidents
  }

  /** The approval made before for this recommendation, if there is one, is returned unchanged. */
  lemma RequestCases(t: Tables, hash: Hash, rec: Id, now: int, choose: RowChoice)
    requires Placed(t, rec)
    ensures RequestApproval(t, hash, rec, now, choose).Done?
    ensures !NewRequest(t, rec) ==>
      RequestApproval(t, hash, rec, now, choose).tables == t &&
      RequestApproval(t, hash, rec, now, choose).value in ApprovalsFor(t, rec)
  {
    if !NewRequest(t, rec) {
      var p :| p in t.approvals && t.approvals[p].recommendation == rec;
      assert p in ApprovalsFor(t, rec);
    }
  }

  lemma RequestPreserves(t: Tables, hash: Hash, rec: Id, w: int, now: int, choose: RowChoice)
    requires Sound(t, hash, w, now) && RequestApproval(t, hash, rec, now, choose).Done?
    ensures Sound(RequestApproval(t, hash, rec, now, choose).tables, hash, w, now)
  {
    RecommendationPlaced(t, hash, now, rec);
    RequestCases(t, hash, rec, now, choose);
    if NewRequest(t, rec) {
      NewRequestMoves(t, hash, rec, now, choose);
      NewRequestPreserves(t, RequestApproval(t, hash, rec, now, choose).tables, hash, rec, w, now,
        t.runs[t.recommendations[rec].run].incident);
    }
  }

  /******* Deciding and executing *******/

  lemma ApprovalPlaced(t: Tables, hash: Hash, clock: int, p: Id)
    requires Recorded(t, hash, clock) && p in t.approvals
    ensures var a := t.approvals[p];
      BoundToRecommendation(t, hash, a) && LifeFits(a, clock) && a.run in t.runs &&
      t.runs[a.run].incident in t.incidents && a.action in ALLOWED_ACTIONS && p < t.nextId
  {
    var a := t.approvals[p];
    assert BoundToRecommendation(t, hash, a);
    assert RecommendationFits(t, t.recommendations[a.recommendation]);
    assert RunFits(t, t.runs[a.run], clock);
  }

  lemma RewrittenRowStaysAlone(t: Tables, t': Tables, p: Id, row: Approval)
    requires OneApprovalEach(t) && p in t.approvals && t'.approvals == t.approvals[p := row]
    requires row.recommendation == t.approvals[p].recommendation
    ensures OneApprovalEach(t')
  {}

  function DecidedRow(a: Approval, decision: ApprovalStatus, now: int): Approval {
    a.(status := decision, decidedAt := Some(now))
  }

  lemma DecidePreserves(t: Tables, hash: Hash, p: Id, decision: ApprovalStatus, w: int, now: int)
    requires Sound(t, hash, w, now) && DecideApproval(t, hash, p, decision, now).Done?
    ensures Sound(DecideApproval(t, hash, p, decision, now).tables, hash, w, now)
  {
    var t' := DecideApproval(t, hash, p, decision, now).tables;
    ApprovalPlaced(t, hash, now, p);
    var row := DecidedRow(t.approvals[p], decision, now);
    var i := t.runs[row.run].incident;
    var status := if decision == ApprovalStatus.Approved then IncidentStatus.Approved else IncidentStatus.Rejected;
    DecisionMoves(t, hash, p, decision, now, i, status);
    assert StatusFits(t, i);
    UnexecutedMoveFits(t, t', p, row, i, status);
    RewrittenRowStaysAlone(t, t', p, row);
    MovePreserves(t, t', p, row, i, status, t.incidents[i].resolvedAt, hash, w, now);
  }

  lemma DecisionMoves(
    t: Tables, hash: Hash, p: Id, decision: ApprovalStatus, now: int, i: Id, status: IncidentStatus)
    requires DecideApproval(t, hash, p, decision, now).Done?
    requires LifeFits(t.approvals[p], now)
    requires t.approvals[p].run in t.runs && t.runs[t.approvals[p].run].incident == i && i in t.incidents
    requires status == if decision == ApprovalStatus.Approved then IncidentStatus.Approved else IncidentStatus.Rejected
    ensures var row := DecidedRow(t.approvals[p], decision, now);
      Moves(t, DecideApproval(t, hash, p, decision, now).tables, p, row, i, status, t.incidents[i].resolvedAt) &&
      Replaces(t, p, row) && LifeFits(row, now) && row.executedAt.None?
  {}

  function ExecutedRow(a: Approval, now: int): Approval {
    a.(executedAt := Some(now), execution := Some(Succeeded))
  }

  lemma ExecutionMoves(t: Tables, hash: Hash, p: Id, now: int)
    requires ExecuteApproval(t, hash, p, true, now).Executed? && LifeFits(t.approvals[p], now)
    ensures var row := ExecutedRow(t.approvals[p], now);
      Moves(t, ExecuteApproval(t, hash, p, true, now).tables, p, row, t.runs[row.run].incident, Resolved, Some(now)) &&
      Replaces(t, p, row) && LifeFits(row, now)
  {}

  lemma ExecutePreserves(t: Tables, hash: Hash, p: Id, w: int, now: int)
    requires Sound(t, hash, w, now) && ExecuteApproval(t, hash, p, true, now).Executed?
    ensures Sound(ExecuteApproval(t, hash, p, true, now).tables, hash, w, now)
  {
    var t' := ExecuteApproval(t, hash, p, true, now).tables;
    ApprovalPlaced(t, hash, now, p);
    var row := ExecutedRow(t.approvals[p], now);
    var i := t.runs[row.run].incident;
    ExecutionMoves(t, hash, p, now);
    assert StatusFits(t, i);
    ExecutedMoveFits(t, t', p, row, i, now);
    RewrittenRowStaysAlone(t, t', p, row);
    MovePreserves(t, t', p, row, i, Resolved, Some(now), hash, w, now);
  }
}
