/**
  The record store as a state machine over API requests. Each request is one atomic step on the
  committed tables; reachable means reached from the empty store by any requests at any later times.
 */
module System {
  import opened Base
  import opened Schema
  import opened Ingestion
  import opened Gate
  import opened Collection
  import opened Analysis
  import opened Agent
  import opened Orchestrator
  import opened Webhook
  import opened Soundness
  import opened AlertSteps
  import opened ApprovalSteps
  import opened InvestigationSteps

  /** The hash function and the correlation window, fixed for the life of the store. */
  datatype Config = Config(hash: Hash, window: int)

  /** A request with everything the outside world contributes to it, except the time. */
  datatype Step =
    | PostAlert(req: AlertRequest, choose: RowChoice)
    | PostWebhook(payload: Payload, choices: nat -> RowChoice)
    | PostCollect(incident: Id, collect: CollectRequest, sources: seq<Source>)
    | PostAnalyze(incident: Id, analyze: AnalyzeRequest, errorMentioned: bool, choose: RowChoice)
    | PostInvestigate(incident: Id, investigate: InvestigateRequest, sources: seq<Source>,
                      runbooks: seq<RunbookMatch>, answer: ProviderAnswer, choose: RowChoice)
    | PostApproval(recommendation: Id, choose: RowChoice)
    | PostDecision(approval: Id, decision: ApprovalStatus)
    | PostExecution(approval: Id, recovered: bool)

  function Around(step: Step, now: int): Surroundings
    requires step.PostInvestigate?
  {
    Surroundings(step.sources, step.runbooks, step.answer, now, step.choose)
  }

  /** The committed tables after a request; what was only flushed is dropped. */
  function Committed(cfg: Config, t: Tables, step: Step, now: int): Tables {
    match step
    case PostAlert(req, choose) => IngestAlert(t, req, cfg.window, choose).tables
    case PostWebhook(payload, choices) => Deliver(t, payload, cfg.window, choices, |payload.alerts|).tables
    case PostCollect(i, req, sources) =>
      (match CollectIncidentEvidence(t, i, req, sources, now)
       case NotCollected(_) => t
       case Interrupted(u) => u
       case Collected(u, _) => u)
    case PostAnalyze(i, req, errorMentioned, choose) =>
      (match AnalyzeIncident(t, i, req, errorMentioned, now, choose)
       case Refused(_) => t
       case Done(u, _) => u)
    case PostInvestigate(i, req, _, _, _, _) =>
      (match InvestigateIncident(t, cfg.hash, i, req, Around(step, now))
       case NotInvestigated(_) => t
       case Crashed(u) => u
       case Investigated(u, _) => u)
    case PostApproval(rec, choose) =>
      (match RequestApproval(t, cfg.hash, rec, now, choose)
       case Refused(_) => t
       case Done(u, _) => u)
    case PostDecision(p, decision) =>
      (match DecideApproval(t, cfg.hash, p, decision, now)
       case Refused(_) => t
       case Done(u, _) => u)
    case PostExecution(p, recovered) =>
      (match ExecuteApproval(t, cfg.hash, p, recovered, now)
       case Executed(u) => u
       case Blocked(_) => t
       case RecoveryFailed(_) => t)
  }

  /** The committed tables and the time of the last request. */
  datatype World = World(db: Tables, clock: int)

  ghost predicate Next(cfg: Config, a: World, step: Step, b: World) {
    a.clock <= b.clock && b.db == Committed(cfg, a.db, step, b.clock)
  }

  /** A history of the store: worlds[0] is empty, and step k leads from worlds[k] to worlds[k + 1]. */
  ghost predicate IsRun(cfg: Config, worlds: seq<World>, steps: seq<Step>) {
    && |worlds| == |steps| + 1
    && worlds[0].db == EMPTY
    && forall k :: 0 <= k < |steps| ==> Next(cfg, worlds[k], steps[k], worlds[k + 1])
  }

  /******* The invariant holds in every reachable store *******/

  lemma {:induction false} DeliveryPreserves(
    t: Tables, p: Payload, choose: nat -> RowChoice, n: nat, hash: Hash, w: int, now: int)
    requires Sound(t, hash, w, now) && n <= |p.alerts|
    ensures Sound(Deliver(t, p, w, choose, n).tables, hash, w, now)
  {
    hide Sound, IngestAlert, ToIngestRequest;
    if n > 0 {
      DeliveryPreserves(t, p, choose, n - 1, hash, w, now);
      var d, a := Deliver(t, p, w, choose, n - 1), p.alerts[n - 1];
      if !d.failed && Firing(p, a) && ToIngestRequest(a).Some? {
        AlertPreserves(d.tables, ToIngestRequest(a).value, hash, w, now, choose(n - 1));
      }
    }
  }

  lemma StepPreserves(cfg: Config, t: Tables, step: Step, now: int)
    requires Sound(t, cfg.hash, cfg.window, now)
    ensures Sound(Committed(cfg, t, step, now), cfg.hash, cfg.window, now)
  {
    hide Sound, IngestAlert, Deliver, CollectIncidentEvidence, AnalyzeIncident, InvestigateIncident,
      RequestApproval, DecideApproval;
    match step
    case PostAlert(req, choose) => AlertPreserves(t, req, cfg.hash, cfg.window, now, choose);
    case PostWebhook(payload, choices) =>
      DeliveryPreserves(t, payload, choices, |payload.alerts|, cfg.hash, cfg.window, now);
    case PostCollect(i, req, sources) => CollectPreserves(t, i, req, sources, cfg.hash, cfg.window, now);
    case PostAnalyze(i, req, errorMentioned, choose) =>
      AnalyzePreserves(t, i, req, errorMentioned, choose, cfg.hash, cfg.window, now);
    case PostInvestigate(i, req, _, _, _, _) =>
      InvestigatePreserves(t, cfg.hash, i, req, Around(step, now), cfg.window);
    case PostApproval(rec, choose) =>
      if RequestApproval(t, cfg.hash, rec, now, choose).Done? {
        RequestPreserves(t, cfg.hash, rec, cfg.window, now, choose);
      }
    case PostDecision(p, decision) =>
      if DecideApproval(t, cfg.hash, p, decision, now).Done? {
        DecidePreserves(t, cfg.hash, p, decision, cfg.window, now);
      }
    case PostExecution(p, recovered) => ExecutionStepPreserves(cfg, t, p, recovered, now);
  }

  lemma ExecutionStepPreserves(cfg: Config, t: Tables, p: Id, recovered: bool, now: int)
    requires Sound(t, cfg.hash, cfg.window, now)
    ensures Sound(Committed(cfg, t, PostExecution(p, recovered), now), cfg.hash, cfg.window, now)
  {
    hide Sound;
    if ExecuteApproval(t, cfg.hash, p, recovered, now).Executed? {
      ExecutedWasRecovered(t, cfg.hash, p, recovered, now);
      ExecutePreserves(t, cfg.hash, p, cfg.window, now);
    }
  }

  lemma ExecutedWasRecovered(t: Tables, hash: Hash, p: Id, recovered: bool, now: int)
    requires ExecuteApproval(t, hash, p, recovered, now).Executed?
    ensures recovered
  {}

  lemma {:induction false} ReachableIsSound(cfg: Config, worlds: seq<World>, steps: seq<Step>, k: nat)
    requires IsRun(cfg, worlds, steps) && k < |worlds|
    ensures Sound(worlds[k].db, cfg.hash, cfg.window, worlds[k].clock)
  {
    hide Sound, Committed;
    if k == 0 {
      EmptyIsSound(cfg.hash, cfg.window, worlds[0].clock);
    } else {
      ReachableIsSound(cfg, worlds, steps, k - 1);
      var before, after := worlds[k - 1], worlds[k];
      assert Next(cfg, before, steps[k - 1], after);
      ClockAdvances(before.db, cfg.hash, cfg.window, before.clock, after.clock);
      StepPreserves(cfg, before.db, steps[k - 1], after.clock);
    }
  }
}
