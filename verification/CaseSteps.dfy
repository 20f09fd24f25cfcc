/** Preservation of the invariant by the writes that move an incident through its lifecycle. */
module CaseSteps {
  import opened Base
  import opened Schema
  import opened Correlation
  import opened Gate
  import opened Provenance
  import opened Collection
  import opened Soundness

  /** Only case data changes: statuses, runs, approvals and events that say nothing about alerts. */
  ghost predicate MovesCases(t: Tables, t': Tables) {
    && t'.services == t.services && t'.alerts == t.alerts && t'.links == t.links
    && t'.incidents.Keys == t.incidents.Keys
    && (forall i :: i in t.incidents ==>
         t'.incidents[i].service == t.incidents[i].service &&
         t'.incidents[i].severity == t.incidents[i].severity &&
         t'.incidents[i].startedAt == t.incidents[i].startedAt)
    && (t'.events == t.events || (t'.events != [] && Neutral(t'.events[|t'.events| - 1]) &&
         t'.events[..|t'.events| - 1] == t.events))
    && t.nextId <= t'.nextId
  }

  lemma MovedCasesKeepAlerts(t: Tables, t': Tables, w: int)
    requires Correlated(t, w) && MovesCases(t, t')
    requires forall i :: Closed(t, i) ==> Closed(t', i)
    ensures Correlated(t', w)
  {
    hide IncidentSound, Closed, CloseStarts, HasLink, Neutral, KnownService;
    ServicesStayKnown(t, t');
    AlertsUntouched(t, t', w);
  }

  /******* Starting and ending runs *******/

  lemma StartedRunFits(t: Tables, i: Id, hash: Hash, now: int)
    requires RecordIdsBelow(t) && OneApprovalEach(t) && i in t.incidents
    ensures var t' := StartRun(t, i, now);
      MovesCases(t, t') && Grows(t, t') && NewRowsFit(t, t', hash, now)
  {
    var t' := StartRun(t, i, now);
    assert t'.incidents.Keys == t.incidents.Keys;
    AddedRunFits(t, t', i, hash, now);
  }

  lemma AddedRunFits(t: Tables, t': Tables, i: Id, hash: Hash, now: int)
    requires RecordIdsBelow(t) && OneApprovalEach(t) && i in t.incidents && t'.incidents.Keys == t.incidents.Keys
    requires t'.runs == t.runs[t.nextId := AgentRun(i, RunRunning, now, Some(now), None)]
    requires t' == t.(runs := t'.runs, incidents := t'.incidents, events := t'.events, nextId := t.nextId + 1)
    ensures Grows(t, t') && NewRowsFit(t, t', hash, now)
  {
    hide ToolCallFits, EvidenceFits, HypothesisFits, CitationFits, RecommendationFits, BoundToRecommendation, LifeFits;
  }

  lemma StartedRunKeepsLifecycle(t: Tables, i: Id, now: int)
    requires Lifecycle(t) && RecordIdsBelow(t) && i in t.incidents
    requires SameApprovals(t, StartRun(t, i, now))
    ensures Lifecycle(StartRun(t, i, now))
  {
    var t' := StartRun(t, i, now);
    SameApprovalsAgree(t, t');
    forall j | j in t'.incidents ensures StatusFits(t', j) {
      assert StatusFits(t, j);
      if j == i {
        assert t'.runs[t.nextId].incident == i;
        assert HasRun(t', i);
        StartedIncidentFits(t, t', i);
      } else {
        RunsSeenElsewhere(t, t', j);
        StatusKept(t, t', j);
      }
    }
  }

  /** An added run of another incident is not seen from j. */
  lemma RunsSeenElsewhere(t: Tables, t': Tables, j: Id)
    requires forall r :: r in t.runs ==> r in t'.runs && t'.runs[r].incident == t.runs[r].incident
    requires forall r :: r in t'.runs && t'.runs[r].incident == j ==> r in t.runs && t.runs[r].incident == j
    ensures HasRun(t', j) <==> HasRun(t, j)
  {
    if HasRun(t, j) {
      var r :| r in t.runs && t.runs[r].incident == j;
      assert r in t'.runs && t'.runs[r].incident == j;
    }
    if HasRun(t', j) {
      var r :| r in t'.runs && t'.runs[r].incident == j;
      assert r in t.runs && t.runs[r].incident == j;
    }
  }

  /** A move between early statuses, or none at all, of an incident that has a run. */
  lemma StartedIncidentFits(t: Tables, t': Tables, i: Id)
    requires SeesSame(t, t', i) && i in t.incidents && i in t'.incidents && StatusFits(t, i)
    requires HasRun(t', i) && t'.incidents[i].status != New
    requires t'.incidents[i].status == t.incidents[i].status ||
      (Early(t.incidents[i].status) && Early(t'.incidents[i].status))
    requires t'.incidents[i].resolvedAt == t.incidents[i].resolvedAt
    ensures StatusFits(t', i)
  {
    DecisionsKept(t, t', i);
    ResolvedAtKept(t, t', i);
  }

  lemma StartRunPreserves(t: Tables, i: Id, hash: Hash, w: int, now: int)
    requires Sound(t, hash, w, now) && i in t.incidents
    ensures Sound(StartRun(t, i, now), hash, w, now)
  {
    var t' := StartRun(t, i, now);
    StartedRunFits(t, i, hash, now);
    RunsOfApprovals(t, t', hash, now);
    SameApprovalsAgree(t, t');
    MovedCasesKeepAlerts(t, t', w);
    RecordsGrow(t, t', hash, now, now);
    StartedRunKeepsLifecycle(t, i, now);
  }

  lemma SetRunAdds(t: Tables, run: Id, row: AgentRun, hash: Hash, now: int)
    requires RecordIdsBelow(t) && OneApprovalEach(t) && run in t.runs && row.incident == t.runs[run].incident
    requires row.incident in t.incidents && RunTimesFit(row, now)
    ensures Adds(t, SetRun(t, run, row), hash, now)
  {
    hide ToolCallFits, EvidenceFits, HypothesisFits, CitationFits, RecommendationFits, BoundToRecommendation, LifeFits,
      RunTimesFit;
  }

  lemma SetRunPreserves(t: Tables, run: Id, row: AgentRun, hash: Hash, w: int, now: int)
    requires Sound(t, hash, w, now) && run in t.runs && row.incident == t.runs[run].incident
    requires RunTimesFit(row, now)
    ensures Sound(SetRun(t, run, row), hash, w, now)
  {
    assert RunFits(t, t.runs[run], now);
    SetRunAdds(t, run, row, hash, now);
    AddingRecordsPreserves(t, SetRun(t, run, row), hash, w, now);
  }

  lemma FinishRunPreserves(t: Tables, run: Id, status: RunStatus, hash: Hash, w: int, now: int)
    requires Sound(t, hash, w, now) && run in t.runs
    ensures Sound(FinishRun(t, run, status, now), hash, w, now)
  {
    assert RunFits(t, t.runs[run], now);
    var row := t.runs[run];
    SetRunPreserves(t, run, row.(status := status, finishedAt := Some(now),
      startedAt := if row.startedAt.Some? then row.startedAt else Some(now)), hash, w, now);
  }

  /** Analysis moves a new or collecting incident on; others keep their status. */
  function MarkAnalyzing(t: Tables, i: Id): Tables
    requires i in t.incidents
  {
    if t.incidents[i].status == New || t.incidents[i].status == CollectingEvidence
    then WithStatus(t, i, Analyzing) else t
  }

  lemma StatusChangeMoves(t: Tables, i: Id, s: IncidentStatus)
    requires i in t.incidents
    ensures MovesCases(t, WithStatus(t, i, s)) && Grows(t, WithStatus(t, i, s))
  {}

  lemma StatusChangeFits(t: Tables, i: Id, s: IncidentStatus, hash: Hash, now: int)
    requires RecordIdsBelow(t) && OneApprovalEach(t) && i in t.incidents
    ensures NewRowsFit(t, WithStatus(t, i, s), hash, now)
  {}

  lemma AnalyzingKeepsLifecycle(t: Tables, i: Id)
    requires Lifecycle(t) && i in t.incidents && HasRun(t, i) && Early(t.incidents[i].status)
    requires SameApprovals(t, WithStatus(t, i, Analyzing))
    ensures Lifecycle(WithStatus(t, i, Analyzing))
  {
    var t' := WithStatus(t, i, Analyzing);
    SameApprovalsAgree(t, t');
    forall j | j in t'.incidents ensures StatusFits(t', j) {
      assert StatusFits(t, j);
      RunsSeenElsewhere(t, t', j);
      if j == i {
        StartedIncidentFits(t, t', i);
      } else {
        StatusKept(t, t', j);
      }
    }
  }

  lemma AnalyzingKeepsRecords(t: Tables, i: Id, hash: Hash, now: int)
    requires Recorded(t, hash, now) && i in t.incidents
    ensures Recorded(WithStatus(t, i, Analyzing), hash, now) && SameApprovals(t, WithStatus(t, i, Analyzing))
  {
    StatusChangeMoves(t, i, Analyzing);
    StatusChangeFits(t, i, Analyzing, hash, now);
    RunsOfApprovals(t, WithStatus(t, i, Analyzing), hash, now);
    RecordsGrow(t, WithStatus(t, i, Analyzing), hash, now, now);
  }

  lemma AnalyzingKeepsAlerts(t: Tables, i: Id, w: int)
    requires Correlated(t, w) && i in t.incidents
    ensures Correlated(WithStatus(t, i, Analyzing), w)
  {
    StatusChangeMoves(t, i, Analyzing);
    ClosedKept(t, WithStatus(t, i, Analyzing));
    MovedCasesKeepAlerts(t, WithStatus(t, i, Analyzing), w);
  }

  lemma AnalyzingPreserves(t: Tables, t': Tables, i: Id, hash: Hash, w: int, now: int)
    requires Sound(t, hash, w, now) && i in t.incidents && HasRun(t, i) && Early(t.incidents[i].status)
    requires t' == WithStatus(t, i, Analyzing)
    ensures Sound(t', hash, w, now)
  {
    AnalyzingKeepsRecords(t, i, hash, now);
    AnalyzingKeepsAlerts(t, i, w);
    AnalyzingKeepsLifecycle(t, i);
  }

  lemma MarkAnalyzingPreserves(t: Tables, i: Id, hash: Hash, w: int, now: int)
    requires Sound(t, hash, w, now) && i in t.incidents && HasRun(t, i)
    ensures Sound(MarkAnalyzing(t, i), hash, w, now)
  {
    var status := t.incidents[i].status;
    if status == New || status == CollectingEvidence {
      AnalyzingPreserves(t, MarkAnalyzing(t, i), i, hash, w, now);
    } else {
      assert MarkAnalyzing(t, i) == t;
    }
  }
}
