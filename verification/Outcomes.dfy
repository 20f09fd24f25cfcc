/**
  When requests on reachable stores succeed, exactly; and the two promises of the safety document that
  execution does not keep, with the exact conditions under which it does.
 */
module Outcomes {
  import opened Base
  import opened Schema
  import opened Correlation
  import opened Investigation
  import opened Gate
  import opened Provenance
  import opened Collection
  import opened Analysis
  import opened Agent
  import opened Orchestrator
  import opened Soundness
  import opened AlertSteps
  import opened ApprovalSteps
  import opened InvestigationSteps
  import opened CaseSteps
  import opened Ingestion
  import opened Webhook
  import opened History
  import opened System
  import opened Guarantees

  /******* Deciding and executing *******/

  /** A pending approval, requested at most thirty minutes ago, and a decision that decides something. */
  predicate Decidable(t: Tables, p: Id, decision: ApprovalStatus, now: int) {
    p in t.approvals && t.approvals[p].status == ApprovalStatus.Pending &&
    now <= t.approvals[p].createdAt + 1_800_000_000 && decision != ApprovalStatus.Pending
  }

  /** An approved rollback that was not executed yet; its expiry plays no part. */
  predicate Executable(t: Tables, p: Id) {
    p in t.approvals && t.approvals[p].status == ApprovalStatus.Approved && t.approvals[p].executedAt.None? &&
    t.approvals[p].action == "simulated_rollback"
  }

  lemma DecisionGuards(t: Tables, hash: Hash, p: Id, decision: ApprovalStatus, now: int)
    requires p in t.approvals ==>
      var a := t.approvals[p];
      a.hash == ActionDigest(hash, a.action, a.parameters, a.run) && a.expiresAt == a.createdAt + APPROVAL_TTL
    ensures DecideApproval(t, hash, p, decision, now).Done? <==> Decidable(t, p, decision, now)
  {
    hide ActionDigest, WithStatus;
  }

  lemma DecidesWhenDecidable(
    t: Tables, hash: Hash, w: int, clock: int, p: Id, decision: ApprovalStatus, now: int)
    requires Sound(t, hash, w, clock)
    ensures DecideApproval(t, hash, p, decision, now).Done? <==> Decidable(t, p, decision, now)
  {
    hide Correlated, Recorded, Lifecycle, ActionDigest, DecideApproval, Decidable;
    if p in t.approvals {
      ApprovalPlaced(t, hash, clock, p);
    }
    DecisionGuards(t, hash, p, decision, now);
  }

  lemma ExecutesWhenExecutable(t: Tables, hash: Hash, w: int, clock: int, p: Id, recovered: bool, now: int)
    requires Sound(t, hash, w, clock)
    ensures ExecuteApproval(t, hash, p, recovered, now).Executed? <==> Executable(t, p) && recovered
  {
    hide Recorded, ActionDigest;
    if p in t.approvals {
      ApprovalPlaced(t, hash, clock, p);
    }
  }

  /** Over every history, a decision is accepted exactly on a decidable approval. */
  lemma DecidesExactly(
    cfg: Config, worlds: seq<World>, steps: seq<Step>, k: nat, p: Id, decision: ApprovalStatus, now: int)
    requires IsRun(cfg, worlds, steps) && k < |worlds|
    ensures DecideApproval(worlds[k].db, cfg.hash, p, decision, now).Done? <==>
      Decidable(worlds[k].db, p, decision, now)
  {
    hide IsRun, Sound, DecideApproval, Decidable;
    ReachableIsSound(cfg, worlds, steps, k);
    DecidesWhenDecidable(worlds[k].db, cfg.hash, cfg.window, worlds[k].clock, p, decision, now);
  }

  /** Over every history, an execution is committed exactly on an executable approval, with recovery confirmed. */
  lemma ExecutesExactly(
    cfg: Config, worlds: seq<World>, steps: seq<Step>, k: nat, p: Id, recovered: bool, now: int)
    requires IsRun(cfg, worlds, steps) && k < |worlds|
    ensures ExecuteApproval(worlds[k].db, cfg.hash, p, recovered, now).Executed? <==>
      Executable(worlds[k].db, p) && recovered
  {
    hide IsRun, Sound, ExecuteApproval, Executable;
    ReachableIsSound(cfg, worlds, steps, k);
    ExecutesWhenExecutable(worlds[k].db, cfg.hash, cfg.window, worlds[k].clock, p, recovered, now);
  }

  /** The documented rule "not expired at execution" holds of a committed execution exactly before the expiry. */
  lemma ExecutionObeysPolicyExactly(
    cfg: Config, worlds: seq<World>, steps: seq<Step>, k: nat, p: Id, now: int)
    requires IsRun(cfg, worlds, steps) && k < |worlds|
    requires ExecuteApproval(worlds[k].db, cfg.hash, p, true, now).Executed?
    ensures var a := worlds[k].db.approvals[p];
      VerifyBackendApproval(cfg.hash, Some(a), a.action, a.parameters, a.run, now).None? <==>
        now <= a.createdAt + 1_800_000_000
  {
    hide IsRun, Recorded, ActionDigest;
    ReachableIsSound(cfg, worlds, steps, k);
    ApprovalPlaced(worlds[k].db, cfg.hash, worlds[k].clock, p);
  }

  /** The answer to an approval request: the approval there is, or a new one for the recommended action. */
  ghost predicate RequestAnswered(t: Tables, hash: Hash, rec: Id, now: int, result: Outcome<Id>) {
    if rec !in t.recommendations then result == Refused(RecommendationNotFound)
    else
      result.Done? && var p, u, r := result.value, result.tables, t.recommendations[rec];
      if exists q :: IsFor(t, q, rec) then u == t && IsFor(t, p, rec)
      else
        && p !in t.approvals
        && u.approvals == t.approvals[p := Approval(
             rec, r.run, r.action, r.parameters, ActionDigest(hash, r.action, r.parameters, r.run),
             ApprovalStatus.Pending, now, now + 1_800_000_000, None, None, None)]
        && r.run in t.runs && t.runs[r.run].incident in t.incidents
        && u.incidents == t.incidents[t.runs[r.run].incident :=
             t.incidents[t.runs[r.run].incident].(status := NeedsApproval)]
  }

  ghost predicate IsFor(t: Tables, p: Id, rec: Id) {
    p in t.approvals && t.approvals[p].recommendation == rec
  }

  lemma NewRequestAnswered(t: Tables, hash: Hash, rec: Id, now: int, choose: RowChoice)
    requires NewRequest(t, rec) && t.nextId !in t.approvals && !exists q :: IsFor(t, q, rec)
    ensures RequestAnswered(t, hash, rec, now, RequestApproval(t, hash, rec, now, choose))
  {
    NewRequestMoves(t, hash, rec, now, choose);
    NewRequestTakesId(t, hash, rec, now, choose);
    hide RequestApproval, ActionDigest;
  }

  lemma NewRequestTakesId(t: Tables, hash: Hash, rec: Id, now: int, choose: RowChoice)
    requires NewRequest(t, rec)
    ensures RequestApproval(t, hash, rec, now, choose).Done? && RequestApproval(t, hash, rec, now, choose).value == t.nextId
  {
    assert ApprovalsFor(t, rec) == {};
    hide PendingRow, WithStatus;
  }

  lemma UnknownRequestAnswered(t: Tables, hash: Hash, rec: Id, now: int, choose: RowChoice)
    requires rec !in t.recommendations
    ensures RequestAnswered(t, hash, rec, now, RequestApproval(t, hash, rec, now, choose))
  {}

  lemma OldRequestAnswered(t: Tables, hash: Hash, rec: Id, now: int, choose: RowChoice, q: Id)
    requires Placed(t, rec) && IsFor(t, q, rec)
    ensures RequestAnswered(t, hash, rec, now, RequestApproval(t, hash, rec, now, choose))
  {
    RequestCases(t, hash, rec, now, choose);
    assert !NewRequest(t, rec);
    hide RequestApproval, ActionDigest;
  }

  lemma RequestAnswersExactly(t: Tables, hash: Hash, w: int, rec: Id, now: int, choose: RowChoice)
    requires Sound(t, hash, w, now)
    ensures RequestAnswered(t, hash, rec, now, RequestApproval(t, hash, rec, now, choose))
  {
    hide Sound, Placed, NewRequest, IsFor, RequestApproval, RequestAnswered;
    RequestIdIsNew(t, hash, w, now);
    if rec in t.recommendations {
      SoundlyPlaced(t, hash, w, now, rec);
      if q :| IsFor(t, q, rec) {
        OldRequestAnswered(t, hash, rec, now, choose, q);
      } else {
        PlacedIsNew(t, rec);
        NewRequestAnswered(t, hash, rec, now, choose);
      }
    } else {
      UnknownRequestAnswered(t, hash, rec, now, choose);
    }
  }

  lemma PlacedIsNew(t: Tables, rec: Id)
    requires Placed(t, rec) && !exists q :: IsFor(t, q, rec)
    ensures NewRequest(t, rec)
  {
    forall p | p in t.approvals ensures t.approvals[p].recommendation != rec {
      assert !IsFor(t, p, rec);
    }
  }

  lemma SoundlyPlaced(t: Tables, hash: Hash, w: int, now: int, rec: Id)
    requires Sound(t, hash, w, now) && rec in t.recommendations
    ensures Placed(t, rec)
  {
    hide Correlated, Lifecycle, Recorded;
    RecommendationPlaced(t, hash, now, rec);
  }

  lemma RequestIdIsNew(t: Tables, hash: Hash, w: int, now: int)
    requires Sound(t, hash, w, now)
    ensures t.nextId !in t.approvals
  {
    hide Correlated, Lifecycle;
  }

  /** Over every history, every approval request is answered exactly like this. */
  lemma RequestsAreAnsweredExactly(
    cfg: Config, worlds: seq<World>, steps: seq<Step>, k: nat, rec: Id, now: int, choose: RowChoice)
    requires IsRun(cfg, worlds, steps) && k < |worlds| && worlds[k].clock <= now
    ensures RequestAnswered(worlds[k].db, cfg.hash, rec, now, RequestApproval(worlds[k].db, cfg.hash, rec, now, choose))
  {
    hide IsRun, Sound, RequestApproval, RequestAnswered;
    ReachableIsSound(cfg, worlds, steps, k);
    ClockAdvances(worlds[k].db, cfg.hash, cfg.window, worlds[k].clock, now);
    RequestAnswersExactly(worlds[k].db, cfg.hash, cfg.window, rec, now, choose);
  }

  /******* Terminal statuses *******/

  /** The graph accepts the answer over the evidence that collection has committed. */
  ghost predicate AcceptedAfter(collected: CollectResult, i: Id, req: InvestigateRequest, env: Surroundings) {
    collected.Collected? && i in collected.tables.incidents && collected.response.run in collected.tables.runs &&
    (forall e :: e in collected.response.evidence ==> e in collected.tables.evidence) &&
    Accepts(HandOver(collected.tables, i, collected.response.run, env.now), i, collected.response.evidence, req, env)
  }

  /** No source of the investigation raises, and its answer is accepted and can be stored. */
  ghost predicate Proposable(t: Tables, i: Id, req: InvestigateRequest, env: Surroundings) {
    && i in t.incidents && !SomeSourceRaises(t, i, env.sources, env.now)
    && AcceptedAfter(
         CollectIncidentEvidence(t, i, CollectRequest(req.lookback, None), env.sources, env.now), i, req, env)
    && Presentable(env.answer.response)
  }

  /** The guards under which a request creates an approval for incident i, or decides or executes one it has. */
  ghost predicate ConcernsApprovalOf(t: Tables, step: Step, now: int, i: Id) {
    match step
    case PostApproval(rec, _) => NewRequest(t, rec) && t.runs[t.recommendations[rec].run].incident == i
    case PostDecision(p, decision) => ApprovalOf(t, p, i) && Decidable(t, p, decision, now)
    case PostExecution(p, recovered) => ApprovalOf(t, p, i) && Executable(t, p) && recovered
    case PostInvestigate(j, req, _, _, _, _) =>
      j == i && req.autoRequestApproval && Proposable(t, i, req, Around(step, now))
    case _ => false
  }

  /** The status such a request leaves behind. */
  function StatusAfter(step: Step): IncidentStatus {
    match step
    case PostDecision(_, decision) =>
      if decision == ApprovalStatus.Approved then IncidentStatus.Approved else IncidentStatus.Rejected
    case PostExecution(_, _) => Resolved
    case _ => NeedsApproval
  }

  lemma RequestMovesExactly(t: Tables, hash: Hash, rec: Id, now: int, choose: RowChoice, i: Id)
    requires Placed(t, rec) && i in t.incidents
    ensures var u := RequestApproval(t, hash, rec, now, choose).tables;
      i in u.incidents && u.incidents[i].status ==
        if NewRequest(t, rec) && t.runs[t.recommendations[rec].run].incident == i then NeedsApproval
        else t.incidents[i].status
  {
    hide PendingRow;
    RequestCases(t, hash, rec, now, choose);
    if NewRequest(t, rec) {
      assert ApprovalsFor(t, rec) == {};
    }
  }

  lemma DecisionMovesExactly(t: Tables, hash: Hash, p: Id, decision: ApprovalStatus, now: int, i: Id)
    requires DecideApproval(t, hash, p, decision, now).Done? && i in t.incidents
    ensures var u := DecideApproval(t, hash, p, decision, now).tables;
      i in u.incidents && u.incidents[i].status ==
        if ApprovalOf(t, p, i) then StatusAfter(PostDecision(p, decision)) else t.incidents[i].status
  {
    hide ActionDigest;
  }

  lemma ExecutionMovesExactly(t: Tables, hash: Hash, p: Id, recovered: bool, now: int, i: Id)
    requires ExecuteApproval(t, hash, p, recovered, now).Executed? && i in t.incidents
    ensures var u := ExecuteApproval(t, hash, p, recovered, now).tables;
      i in u.incidents && u.incidents[i].status ==
        if ApprovalOf(t, p, i) then Resolved else t.incidents[i].status
  {
    hide ActionDigest;
  }

  /** Terminal statuses stay, except that incident i, if it is moved, waits for approval again. */
  ghost predicate OnlyMoves(t: Tables, u: Tables, i: Id, moved: bool) {
    forall j :: j in t.incidents && Terminal(t.incidents[j].status) ==>
      j in u.incidents && u.incidents[j].status == if moved && j == i then NeedsApproval else t.incidents[j].status
  }

  lemma AskMovesExactly(
    t: Tables, hash: Hash, auto: bool, d: Option<RecommendationDraft>, rec: Id, now: int, choose: RowChoice, i: Id)
    requires NewRequest(t, rec) && t.runs[t.recommendations[rec].run].incident == i
    ensures var asked := AskApproval(t, hash, auto, d, Some(rec), now, choose);
      asked.Done? && OnlyMoves(t, asked.tables, i, asked.value.Some?)
  {
    hide RequestApproval;
    RequestCases(t, hash, rec, now, choose);
    forall j | j in t.incidents
      ensures var u := RequestApproval(t, hash, rec, now, choose).tables;
        j in u.incidents && u.incidents[j].status == if j == i then NeedsApproval else t.incidents[j].status
    {
      RequestMovesExactly(t, hash, rec, now, choose, j);
    }
  }

  /** A recommendation made a moment ago has no approval yet. */
  lemma FreshRecommendationIsNew(u: Tables, x: Tables, hash: Hash, clock: int, rec: Id)
    requires Recorded(u, hash, clock) && u.nextId <= rec && x.approvals == u.approvals
    requires Placed(x, rec)
    ensures NewRequest(x, rec)
  {
    forall p | p in x.approvals ensures x.approvals[p].recommendation != rec {
      assert BoundToRecommendation(u, hash, u.approvals[p]);
    }
  }

  lemma ProposalRow(u: Tables, run: Id, r: RecommendationCreate, v: Tables)
    requires ValidRecommendation(r) && RecordRecommendation(u, run, r) == Done(v, u.nextId)
    ensures v.approvals == u.approvals && u.nextId in v.recommendations && v.recommendations[u.nextId].run == run
  {}

  lemma FinishedRunRows(v: Tables, run: Id, now: int)
    requires run in v.runs
    ensures var x := FinishRun(v, run, RunCompleted, now);
      x.approvals == v.approvals && x.recommendations == v.recommendations && x.incidents == v.incidents &&
      x.runs[run].incident == v.runs[run].incident
  {}

  /** Storing findings moves the incident exactly when an approval is asked for. */
  lemma FindingsMoveExactly(
    t: Tables, hash: Hash, run: Id, f: AgentState, auto: bool, w: int, now: int, choose: RowChoice, i: Id)
    requires Sound(t, hash, w, now) && run in t.runs && t.runs[run].incident == i && Storable(t, run, f)
    requires StoreFindings(t, hash, run, f, auto, now, choose).Done?
    ensures var result := StoreFindings(t, hash, run, f, auto, now, choose);
      OnlyMoves(t, result.tables, i, result.value.approval.Some?)
  {
    hide Sound, CitationsInRun, ParsedCitations, ValidRecommendation, ValidHypothesis, RecordHypothesis,
      RecordRecommendation, FinishRun, AskApproval, OnlyMoves, Placed, NewRequest;
    var payload := HypothesisFrom(f.selected.value);
    var proposal := RecommendationFrom(f.recommendation.value, t.nextId);
    FindingsAreStored(t, hash, run, f, auto, w, now, choose);
    ProposalValidity(f.recommendation.value, 0, t.nextId);
    var u, v := BothPreserve(t, run, payload, proposal, hash, w, now);
    var x := FinishRun(v, run, RunCompleted, now);
    FinishRunPreserves(v, run, RunCompleted, hash, w, now);
    ProposalRow(u, run, proposal, v);
    FinishedRunRows(v, run, now);
    NewProposal(u, x, hash, w, now, u.nextId);
    AskMovesExactly(x, hash, auto, f.recommendation, u.nextId, now, choose, i);
    SameIncidentsMove(t, x, AskApproval(x, hash, auto, f.recommendation, Some(u.nextId), now, choose).tables, i,
      AskApproval(x, hash, auto, f.recommendation, Some(u.nextId), now, choose).value.Some?);
  }

  lemma SameIncidentsMove(t: Tables, x: Tables, y: Tables, i: Id, moved: bool)
    requires x.incidents == t.incidents && OnlyMoves(x, y, i, moved)
    ensures OnlyMoves(t, y, i, moved)
  {}

  lemma NewProposal(u: Tables, x: Tables, hash: Hash, w: int, now: int, rec: Id)
    requires Sound(u, hash, w, now) && Sound(x, hash, w, now) && x.approvals == u.approvals
    requires u.nextId <= rec && rec in x.recommendations
    ensures NewRequest(x, rec)
  {
    hide Correlated, Lifecycle, Recorded, Placed, NewRequest;
    RecommendationPlaced(x, hash, now, rec);
    FreshRecommendationIsNew(u, x, hash, now, rec);
  }

  lemma OutcomeMovesExactly(
    t: Tables, hash: Hash, i: Id, run: Id, f: AgentState, auto: bool, w: int, now: int, choose: RowChoice)
    requires Sound(t, hash, w, now) && run in t.runs && t.runs[run].incident == i
    requires EndsInsufficient(f) || (EndsCompleted(f) && Storable(StoreRunbooks(t, i, run, f.runbooks, |f.runbooks|), run, f))
    requires StoreOutcome(t, hash, i, run, f, auto, now, choose).Done?
    ensures var result := StoreOutcome(t, hash, i, run, f, auto, now, choose);
      OnlyMoves(t, result.tables, i, result.value.approval.Some?)
  {
    hide Sound, StoreFindings, StoreRunbooks, Storable, OnlyMoves;
    RunbooksPreserve(t, i, run, f.runbooks, |f.runbooks|, hash, w, now);
    var stored := StoreRunbooks(t, i, run, f.runbooks, |f.runbooks|);
    if EndsInsufficient(f) {
      KeptMovesNothing(t, FinishRun(stored, run, RunInsufficient, now), i);
    } else {
      FindingsMoveExactly(stored, hash, run, f, auto, w, now, choose, i);
      var result := StoreFindings(stored, hash, run, f, auto, now, choose);
      SameIncidentsMove(t, stored, result.tables, i, result.value.approval.Some?);
    }
  }

  lemma KeptMovesNothing(t: Tables, u: Tables, i: Id)
    requires u.incidents == t.incidents
    ensures OnlyMoves(t, u, i, false)
  {}

  lemma KeptThenMoves(t: Tables, x: Tables, y: Tables, i: Id, moved: bool)
    requires TerminalsKept(t, x) && OnlyMoves(x, y, i, moved)
    ensures OnlyMoves(t, y, i, moved)
  {}

  lemma ConcludeMovesExactly(
    t: Tables, hash: Hash, i: Id, run: Id, evidence: seq<Id>, req: InvestigateRequest, env: Surroundings, w: int)
    requires Sound(t, hash, w, env.now) && i in t.incidents && run in t.runs && t.runs[run].incident == i
    requires forall e :: e in evidence ==> e in t.evidence && t.evidence[e].run == run
    requires Conclude(t, hash, i, run, evidence, req, env).Investigated?
    ensures var result := Conclude(t, hash, i, run, evidence, req, env);
      OnlyMoves(t, result.tables, i, result.reply.approval.Some?)
  {
    hide Sound, HandOver, StoreOutcome, GraphOf, Acceptable, GroundingEvidence, Storable, StoreRunbooks, OnlyMoves,
      TerminalsKept;
    HandOverPreserves(t, i, run, hash, w, env.now);
    EvidenceIdsBelow(HandOver(t, i, run, env.now), hash, w, env.now);
    HandOverKeepsRows(t, i, run, env.now);
    HandOverIsQuiet(t, i, run, env.now);
    var taken := HandOver(t, i, run, env.now);
    var f := GraphOf(taken, i, evidence, req, env);
    GroundingRefinesCitationCheck(taken, i, run, evidence, req, env);
    OutcomeMovesExactly(taken, hash, i, run, f, req.autoRequestApproval, w, env.now, env.choose);
    var result := Conclude(t, hash, i, run, evidence, req, env);
    KeptThenMoves(t, taken, result.tables, i, result.reply.approval.Some?);
  }

  lemma InvestigationMovesWhenAsking(t: Tables, hash: Hash, i: Id, req: InvestigateRequest, env: Surroundings, w: int)
    requires Sound(t, hash, w, env.now)
    ensures match InvestigateIncident(t, hash, i, req, env)
      case NotInvestigated(_) => true
      case Crashed(u) => TerminalsKept(t, u)
      case Investigated(u, reply) => OnlyMoves(t, u, i, reply.approval.Some?)
  {
    hide Sound, CollectIncidentEvidence, Conclude, Conserved, OnlyMoves, TerminalsKept;
    if i in t.incidents {
      var collect := CollectRequest(req.lookback, None);
      CollectIsQuiet(t, i, collect, env.sources, env.now);
      CollectPreserves(t, i, collect, env.sources, hash, w, env.now);
      match CollectIncidentEvidence(t, i, collect, env.sources, env.now)
      case Collected(u, r) =>
        CollectionConserves(t, i, collect, env.sources, hash, w, env.now);
        ConservedEvidenceIsOfRun(u, r, env.sources);
        ConcludePreserves(u, hash, i, r.run, r.evidence, req, env, w);
        var result := Conclude(u, hash, i, r.run, r.evidence, req, env);
        if result.Investigated? {
          ConcludeMovesExactly(u, hash, i, r.run, r.evidence, req, env, w);
          KeptThenMoves(t, u, result.tables, i, result.reply.approval.Some?);
        }
      case _ =>
    }
  }

  /** An investigation asks for an approval exactly when its answer can be proposed and an approval is wanted. */
  lemma InvestigationAsksExactly(t: Tables, hash: Hash, i: Id, req: InvestigateRequest, env: Surroundings, w: int)
    requires Sound(t, hash, w, env.now)
    ensures var result := InvestigateIncident(t, hash, i, req, env);
      (result.NotInvestigated? <==> i !in t.incidents) && (result.Crashed? ==> !Proposable(t, i, req, env)) &&
      (result.Investigated? ==>
        (result.reply.approval.Some? <==> Proposable(t, i, req, env) && req.autoRequestApproval))
  {
    hide Sound, CollectIncidentEvidence, InvestigateIncident, Acceptable, GroundingEvidence, Presentable, HandOver,
      StoresAnswer, SomeSourceRaises;
    InvestigationEndsSoundly(t, hash, i, req, env, w);
  }

  /** An investigation moves its incident exactly when its answer can be proposed and an approval is wanted, others never. */
  lemma InvestigationMovesExactly(t: Tables, hash: Hash, i: Id, req: InvestigateRequest, env: Surroundings, w: int)
    requires Sound(t, hash, w, env.now)
    ensures match InvestigateIncident(t, hash, i, req, env)
      case NotInvestigated(_) => i !in t.incidents
      case Crashed(u) => TerminalsKept(t, u) && !Proposable(t, i, req, env)
      case Investigated(u, _) => OnlyMoves(t, u, i, Proposable(t, i, req, env) && req.autoRequestApproval)
  {
    hide Sound, InvestigateIncident, OnlyMoves, TerminalsKept, CollectIncidentEvidence, AcceptedAfter, Presentable,
      SomeSourceRaises;
    InvestigationMovesWhenAsking(t, hash, i, req, env, w);
    InvestigationAsksExactly(t, hash, i, req, env, w);
  }

  lemma {:induction false} DeliveryKeepsStatuses(
    t: Tables, p: Payload, choose: nat -> RowChoice, n: nat, hash: Hash, w: int, now: int)
    requires Sound(t, hash, w, now) && n <= |p.alerts|
    ensures AddsAlert(t, Deliver(t, p, w, choose, n).tables)
  {
    hide Sound, IngestAlert, ToIngestRequest, AddsAlert, AlertIdsBelow;
    if n == 0 {
      AddingNothing(t);
    } else {
      DeliveryKeepsStatuses(t, p, choose, n - 1, hash, w, now);
      var d, a := Deliver(t, p, w, choose, n - 1), p.alerts[n - 1];
      if !d.failed && Firing(p, a) && ToIngestRequest(a).Some? {
        var req := ToIngestRequest(a).value;
        DeliveryPreserves(t, p, choose, n - 1, hash, w, now);
        AlertIdsAreBelow(d.tables, hash, w, now);
        IngestAdds(d.tables, req, w, choose(n - 1));
        AddsAlertTwice(t, d.tables, IngestAlert(d.tables, req, w, choose(n - 1)).tables);
        DuplicateKeeps(d.tables, req, w, choose(n - 1));
      }
    }
  }

  lemma AddingNothing(t: Tables)
    ensures AddsAlert(t, t)
  {}

  lemma AlertIdsAreBelow(t: Tables, hash: Hash, w: int, now: int)
    requires Sound(t, hash, w, now)
    ensures AlertIdsBelow(t)
  {
    hide Recorded, Lifecycle;
  }

  lemma StepMovesExactly(cfg: Config, t: Tables, step: Step, now: int, i: Id)
    requires Sound(t, cfg.hash, cfg.window, now) && i in t.incidents && Terminal(t.incidents[i].status)
    ensures var u := Committed(cfg, t, step, now);
      i in u.incidents && u.incidents[i].status ==
        if ConcernsApprovalOf(t, step, now, i) then StatusAfter(step) else t.incidents[i].status
  {
    hide Sound, IngestAlert, Deliver, CollectIncidentEvidence, AnalyzeIncident, InvestigateIncident,
      RequestApproval, DecideApproval, ExecuteApproval, AlertIdsBelow, ApprovalOf, NewRequest, Proposable, Decidable,
      Executable;
    AlertIdsAreBelow(t, cfg.hash, cfg.window, now);
    match step
    case PostAlert(req, choose) => IngestAdds(t, req, cfg.window, choose);
    case PostWebhook(payload, choices) =>
      DeliveryKeepsStatuses(t, payload, choices, |payload.alerts|, cfg.hash, cfg.window, now);
    case PostCollect(j, req, sources) => CollectIsQuiet(t, j, req, sources, now);
    case PostAnalyze(j, req, errorMentioned, choose) => AnalyzeIsQuiet(t, j, req, errorMentioned, now, choose);
    case PostInvestigate(j, req, _, _, _, _) =>
      InvestigationMovesExactly(t, cfg.hash, j, req, Around(step, now), cfg.window);
    case PostApproval(rec, choose) => RequestStepMoves(cfg, t, rec, choose, now, i);
    case PostDecision(p, decision) =>
      DecidesWhenDecidable(t, cfg.hash, cfg.window, now, p, decision, now);
      if DecideApproval(t, cfg.hash, p, decision, now).Done? {
        DecisionMovesExactly(t, cfg.hash, p, decision, now, i);
      }
    case PostExecution(p, recovered) =>
      ExecutesWhenExecutable(t, cfg.hash, cfg.window, now, p, recovered, now);
      if ExecuteApproval(t, cfg.hash, p, recovered, now).Executed? {
        ExecutionMovesExactly(t, cfg.hash, p, recovered, now, i);
      }
  }

  lemma RequestStepMoves(cfg: Config, t: Tables, rec: Id, choose: RowChoice, now: int, i: Id)
    requires Sound(t, cfg.hash, cfg.window, now) && i in t.incidents
    ensures var u := Committed(cfg, t, PostApproval(rec, choose), now);
      i in u.incidents && u.incidents[i].status ==
        if NewRequest(t, rec) && t.runs[t.recommendations[rec].run].incident == i then NeedsApproval
        else t.incidents[i].status
  {
    hide Correlated, Lifecycle, Recorded, PendingRow;
    if rec in t.recommendations {
      RecommendationPlaced(t, cfg.hash, now, rec);
      RequestCases(t, cfg.hash, rec, now, choose);
      RequestMovesExactly(t, cfg.hash, rec, now, choose, i);
    }
  }

  /** Terminal statuses are not absorbing: over any history they change exactly at these requests. */
  lemma TerminalStatusesMoveExactly(cfg: Config, worlds: seq<World>, steps: seq<Step>, k: nat, i: Id)
    requires IsRun(cfg, worlds, steps) && k < |steps|
    requires i in worlds[k].db.incidents && Terminal(worlds[k].db.incidents[i].status)
    ensures var t, u := worlds[k].db, worlds[k + 1].db;
      i in u.incidents && u.incidents[i].status ==
        if ConcernsApprovalOf(t, steps[k], worlds[k + 1].clock, i) then StatusAfter(steps[k])
        else t.incidents[i].status
  {
    hide Sound, Committed, ConcernsApprovalOf;
    assert Next(cfg, worlds[k], steps[k], worlds[k + 1]);
    ReachableIsSound(cfg, worlds, steps, k);
    ClockAdvances(worlds[k].db, cfg.hash, cfg.window, worlds[k].clock, worlds[k + 1].clock);
    StepMovesExactly(cfg, worlds[k].db, steps[k], worlds[k + 1].clock, i);
  }
}
