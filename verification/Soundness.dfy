/**
  The whole-store invariant and its preservation by the single writes that requests are made of.
 */
module Soundness {
  import opened Base
  import opened Schema
  import opened Correlation
  import opened Investigation
  import opened Gate
  import opened Provenance

  ghost predicate Sound(t: Tables, hash: Hash, w: int, clock: int) {
    Correlated(t, w) && Recorded(t, hash, clock) && Lifecycle(t)
  }

  lemma EmptyIsSound(hash: Hash, w: int, clock: int)
    ensures Sound(EMPTY, hash, w, clock)
  {}

  lemma ClockAdvances(t: Tables, hash: Hash, w: int, clock: int, now: int)
    requires Sound(t, hash, w, clock) && clock <= now
    ensures Sound(t, hash, w, now)
  {
    RecordsGrow(t, t, hash, clock, now);
  }

  /******* Writes that add records only *******/

  /** Incidents, alerts and approvals stay; events gain entries that do not concern alerts. */
  ghost predicate AddsRecords(t: Tables, t': Tables) {
    && t'.services == t.services && t'.alerts == t.alerts && t'.links == t.links
    && t'.incidents == t.incidents && t'.approvals == t.approvals
    && t'.runs.Keys == t.runs.Keys
    && (t'.events == t.events || (t'.events != [] && Neutral(t'.events[|t'.events| - 1]) &&
         t'.events[..|t'.events| - 1] == t.events))
  }

  /** The write adds rows that satisfy their rules, and nothing else. */
  ghost predicate Adds(t: Tables, t': Tables, hash: Hash, now: int) {
    AddsRecords(t, t') && Grows(t, t') && NewRowsFit(t, t', hash, now)
  }

  lemma AddedRecordsKeepAlerts(t: Tables, t': Tables, w: int)
    requires Correlated(t, w) && AddsRecords(t, t') && t.nextId <= t'.nextId
    requires forall i :: Closed(t, i) ==> Closed(t', i)
    ensures Correlated(t', w)
  {
    hide IncidentSound, Closed, CloseStarts, HasLink, Neutral, KnownService;
    ServicesStayKnown(t, t');
    AlertsUntouched(t, t', w);
  }

  lemma AddedRecordsKeepLifecycle(t: Tables, t': Tables)
    requires Lifecycle(t) && AddsRecords(t, t') && SameApprovals(t, t')
    requires forall r :: r in t.runs ==> t'.runs[r].incident == t.runs[r].incident
    ensures Lifecycle(t')
  {
    SameApprovalsAgree(t, t');
    forall i | i in t'.incidents ensures StatusFits(t', i) {
      assert StatusFits(t, i);
      RunsSeen(t, t', i);
      StatusKept(t, t', i);
    }
  }

  lemma RunsSeen(t: Tables, t': Tables, i: Id)
    requires t'.runs.Keys == t.runs.Keys
    requires forall r :: r in t.runs ==> t'.runs[r].incident == t.runs[r].incident
    ensures HasRun(t', i) <==> HasRun(t, i)
  {
    if HasRun(t, i) {
      var r :| r in t.runs && t.runs[r].incident == i;
      assert r in t'.runs && t'.runs[r].incident == i;
    }
    if HasRun(t', i) {
      var r :| r in t'.runs && t'.runs[r].incident == i;
      assert r in t.runs && t.runs[r].incident == i;
    }
  }

  lemma RunsOfApprovals(t: Tables, t': Tables, hash: Hash, now: int)
    requires Recorded(t, hash, now) && Grows(t, t') && t'.approvals == t.approvals
    ensures SameApprovals(t, t')
  {
    forall p | p in t.approvals ensures t.approvals[p].run in t.runs {
      assert BoundToRecommendation(t, hash, t.approvals[p]);
    }
  }

  lemma AddingRecordsPreserves(t: Tables, t': Tables, hash: Hash, w: int, now: int)
    requires Sound(t, hash, w, now)
    requires Adds(t, t', hash, now)
    ensures Sound(t', hash, w, now)
  {
    RunsOfApprovals(t, t', hash, now);
    SameApprovalsAgree(t, t');
    AddedRecordsKeepAlerts(t, t', w);
    RecordsGrow(t, t', hash, now, now);
    AddedRecordsKeepLifecycle(t, t');
  }

  lemma ToolCallAdds(t: Tables, hash: Hash, now: int, run: Id, source: SourceType, ok: bool)
    requires RecordIdsBelow(t) && OneApprovalEach(t) && run in t.runs
    ensures Adds(t, RecordToolCall(t, run, source, ok).tables, hash, now)
  {
    hide RunFits, EvidenceFits, HypothesisFits, CitationFits, RecommendationFits, BoundToRecommendation, LifeFits;
  }

  lemma EvidenceAdds(
    t: Tables, hash: Hash, now: int, run: Id, call: Option<Id>, source: SourceType, name: string)
    requires RecordIdsBelow(t) && OneApprovalEach(t) && run in t.runs && UsableToolCall(t, run, call)
    ensures Adds(t, RecordEvidence(t, run, call, source, name).tables, hash, now)
  {
    hide RunFits, ToolCallFits, HypothesisFits, CitationFits, RecommendationFits, BoundToRecommendation, LifeFits;
  }

  lemma HypothesisPayload(h: HypothesisCreate)
    requires ValidHypothesis(h)
    ensures h.evidence != {} && IsProbability(h.confidence)
  {}

  lemma HypothesisAdds(t: Tables, hash: Hash, now: int, run: Id, h: HypothesisCreate)
    requires RecordIdsBelow(t) && OneApprovalEach(t)
    requires ValidHypothesis(h) && RecordHypothesis(t, run, h).Done?
    ensures Adds(t, RecordHypothesis(t, run, h).tables, hash, now)
  {
    hide RunFits, ToolCallFits, EvidenceFits, RecommendationFits, BoundToRecommendation, LifeFits, ValidHypothesis,
      IsProbability;
    assert h.evidence != {} && IsProbability(h.confidence) by { HypothesisPayload(h); }
    var t' := RecordHypothesis(t, run, h).tables;
    var e :| e in h.evidence;
    assert Citation(t.nextId, e, run) in t'.citations;
  }

  lemma RecommendationAdds(t: Tables, hash: Hash, now: int, run: Id, r: RecommendationCreate)
    requires RecordIdsBelow(t) && OneApprovalEach(t)
    requires ValidRecommendation(r) && RecordRecommendation(t, run, r).Done? && r.action in ALLOWED_ACTIONS
    ensures Adds(t, RecordRecommendation(t, run, r).tables, hash, now)
  {
    hide RunFits, ToolCallFits, EvidenceFits, HypothesisFits, CitationFits, BoundToRecommendation, LifeFits,
      ValidRecommendation;
  }

  lemma ToolCallPreserves(t: Tables, hash: Hash, w: int, now: int, run: Id, source: SourceType, ok: bool)
    requires Sound(t, hash, w, now) && run in t.runs
    ensures Sound(RecordToolCall(t, run, source, ok).tables, hash, w, now)
  {
    ToolCallAdds(t, hash, now, run, source, ok);
    AddingRecordsPreserves(t, RecordToolCall(t, run, source, ok).tables, hash, w, now);
  }

  lemma EvidencePreserves(
    t: Tables, hash: Hash, w: int, now: int, run: Id, call: Option<Id>, source: SourceType, name: string)
    requires Sound(t, hash, w, now) && run in t.runs && UsableToolCall(t, run, call)
    ensures Sound(RecordEvidence(t, run, call, source, name).tables, hash, w, now)
  {
    EvidenceAdds(t, hash, now, run, call, source, name);
    AddingRecordsPreserves(t, RecordEvidence(t, run, call, source, name).tables, hash, w, now);
  }

  lemma HypothesisPreserves(t: Tables, hash: Hash, w: int, now: int, run: Id, h: HypothesisCreate)
    requires Sound(t, hash, w, now) && ValidHypothesis(h) && RecordHypothesis(t, run, h).Done?
    ensures Sound(RecordHypothesis(t, run, h).tables, hash, w, now)
  {
    HypothesisAdds(t, hash, now, run, h);
    AddingRecordsPreserves(t, RecordHypothesis(t, run, h).tables, hash, w, now);
  }

  lemma RecommendationPreserves(t: Tables, hash: Hash, w: int, now: int, run: Id, r: RecommendationCreate)
    requires Sound(t, hash, w, now) && ValidRecommendation(r) && RecordRecommendation(t, run, r).Done?
    requires r.action in ALLOWED_ACTIONS
    ensures Sound(RecordRecommendation(t, run, r).tables, hash, w, now)
  {
    RecommendationAdds(t, hash, now, run, r);
    AddingRecordsPreserves(t, RecordRecommendation(t, run, r).tables, hash, w, now);
  }

  /******* A hypothesis and its proposal *******/

  lemma GroundedHypothesisIsRecorded(t: Tables, run: Id, h: HypothesisCreate)
    requires run in t.runs && ValidHypothesis(h) && CitationsInRun(t, run, h.evidence)
    ensures var made := RecordHypothesis(t, run, h);
      made.Done? && made.value == t.nextId && made.tables.runs == t.runs && made.tables.incidents == t.incidents &&
      made.value in made.tables.hypotheses && made.tables.hypotheses[made.value].run == run &&
      Cited(made.tables, made.value)
  {
    var e :| e in h.evidence;
    assert Citation(t.nextId, e, run) in RecordHypothesis(t, run, h).tables.citations;
  }

  lemma CitedProposalIsRecorded(t: Tables, run: Id, r: RecommendationCreate)
    requires run in t.runs && ValidRecommendation(r)
    requires r.hypothesis in t.hypotheses && t.hypotheses[r.hypothesis].run == run && Cited(t, r.hypothesis)
    ensures var made := RecordRecommendation(t, run, r);
      made.Done? && made.tables.runs == t.runs && made.tables.incidents == t.incidents &&
      made.value in made.tables.recommendations
  {}

  /** A valid draft whose citations lie in the run is stored together with its proposal. */
  lemma BothPreserve(
    t: Tables, run: Id, h: HypothesisCreate, r: RecommendationCreate, hash: Hash, w: int, now: int)
    returns (u: Tables, v: Tables)
    requires Sound(t, hash, w, now) && run in t.runs
    requires ValidHypothesis(h) && CitationsInRun(t, run, h.evidence)
    requires ValidRecommendation(r) && r.hypothesis == t.nextId && r.action in ALLOWED_ACTIONS
    ensures RecordHypothesis(t, run, h) == Done(u, t.nextId) && Sound(u, hash, w, now)
    ensures RecordRecommendation(u, run, r) == Done(v, u.nextId) && Sound(v, hash, w, now)
    ensures v.runs == t.runs && v.incidents == t.incidents && u.nextId in v.recommendations
  {
    hide Sound;
    GroundedHypothesisIsRecorded(t, run, h);
    HypothesisPreserves(t, hash, w, now, run, h);
    u := RecordHypothesis(t, run, h).tables;
    CitedProposalIsRecorded(u, run, r);
    RecommendationPreserves(u, hash, w, now, run, r);
    v := RecordRecommendation(u, run, r).tables;
  }
}
