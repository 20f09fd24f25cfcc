/** The main results: what holds in every reachable store, and between any two of them. */
module Guarantees {
  import opened Base
  import opened Schema
  import opened Ingestion
  import opened Correlation
  import opened IncidentShape
  import opened AlertAnswers
  import opened Investigation
  import opened Gate
  import opened Provenance
  import opened Collection
  import opened Analysis
  import opened RuleAnswers
  import opened Agent
  import opened Orchestrator
  import opened Webhook
  import opened Soundness
  import opened AlertSteps
  import opened InvestigationSteps
  import opened History
  import opened System
  import J = Json

  /******* Provenance of a resolved incident *******/

  /** Evidence e of run r of incident i, from a successful tool call of that run if from any. */
  ghost predicate CollectedIn(t: Tables, e: Id, r: Id, i: Id) {
    && e in t.evidence && t.evidence[e].run == r && t.evidence[e].incident == i
    && (t.evidence[e].toolCall.Some? ==>
         var c := t.evidence[e].toolCall.value;
         c in t.toolCalls && t.toolCalls[c].run == r && t.toolCalls[c].succeeded)
  }

  /** Hypothesis h of run r is cited, and every citation is evidence collected in r for incident i. */
  ghost predicate GroundedIn(t: Tables, h: Id, r: Id, i: Id) {
    && h in t.hypotheses && t.hypotheses[h].run == r && Cited(t, h)
    && forall c :: c in t.citations && c.hypothesis == h ==> CollectedIn(t, c.evidence, r, i)
  }

  /** Approval p: a rollback of incident i, decided in time and carried out, with all it rests on. */
  ghost predicate Explains(t: Tables, hash: Hash, p: Id, i: Id) {
    && p in t.approvals
    && var a := t.approvals[p];
       && a.status == ApprovalStatus.Approved && a.action == ROLLBACK
       && a.decidedAt.Some? && a.decidedAt.value <= a.expiresAt == a.createdAt + 1_800_000_000
       && a.execution == Some(Succeeded) && a.executedAt.Some? && a.decidedAt.value <= a.executedAt.value
       && a.run in t.runs && t.runs[a.run].incident == i
       && a.hash == ActionDigest(hash, a.action, a.parameters, a.run)
       && a.recommendation in t.recommendations
       && var r := t.recommendations[a.recommendation];
          r.run == a.run && r.action == a.action && r.parameters == a.parameters && r.action in ALLOWED_ACTIONS &&
          GroundedIn(t, r.hypothesis, a.run, i)
  }

  lemma HypothesisIsGrounded(t: Tables, hash: Hash, clock: int, h: Id)
    requires Recorded(t, hash, clock) && h in t.hypotheses
    ensures var r := t.hypotheses[h].run; r in t.runs && GroundedIn(t, h, r, t.runs[r].incident)
  {
    assert HypothesisFits(t, h);
    var r := t.hypotheses[h].run;
    forall c | c in t.citations && c.hypothesis == h ensures CollectedIn(t, c.evidence, r, t.runs[r].incident) {
      assert CitationFits(t, c);
      assert EvidenceFits(t, t.evidence[c.evidence]);
    }
  }

  lemma ExecutedApprovalExplains(t: Tables, hash: Hash, clock: int, p: Id, i: Id)
    requires Recorded(t, hash, clock) && ApprovalOf(t, p, i) && t.approvals[p].executedAt.Some?
    ensures Explains(t, hash, p, i)
  {
    var a := t.approvals[p];
    assert BoundToRecommendation(t, hash, a) && LifeFits(a, clock);
    assert RecommendationFits(t, t.recommendations[a.recommendation]);
    hide Recorded;
    HypothesisIsGrounded(t, hash, clock, t.recommendations[a.recommendation].hypothesis);
  }

  /** A resolved incident has an approval that explains it, executed at the recorded resolution time. */
  lemma ResolvedIsExplained(t: Tables, hash: Hash, w: int, clock: int, i: Id)
    requires Sound(t, hash, w, clock) && i in t.incidents && t.incidents[i].status == Resolved
    ensures exists p :: Explains(t, hash, p, i) && t.incidents[i].resolvedAt == t.approvals[p].executedAt
  {
    hide Correlated, Recorded, Explains;
    assert StatusFits(t, i);
    var p :| ExecutedBy(t, p, i, t.incidents[i].resolvedAt.value);
    ExecutedApprovalExplains(t, hash, clock, p, i);
  }

  /** Over every history: whatever was asked of the store, no incident is RESOLVED without its provenance. */
  lemma EveryResolutionHasProvenance(cfg: Config, worlds: seq<World>, steps: seq<Step>, k: nat, i: Id)
    requires IsRun(cfg, worlds, steps) && k < |worlds|
    requires i in worlds[k].db.incidents && worlds[k].db.incidents[i].status == Resolved
    ensures var t := worlds[k].db;
      exists p :: Explains(t, cfg.hash, p, i) && t.incidents[i].resolvedAt == t.approvals[p].executedAt
  {
    hide Sound, IsRun, Explains;
    ReachableIsSound(cfg, worlds, steps, k);
    ResolvedIsExplained(worlds[k].db, cfg.hash, cfg.window, worlds[k].clock, i);
  }

  /******* Incident status follows from the records *******/

  /** What the status and resolution time of incident i say about its runs and approvals. */
  ghost predicate StatusExplained(t: Tables, i: Id)
    requires i in t.incidents
  {
    var row := t.incidents[i];
    && (row.status == New <==> !HasRun(t, i))
    && (row.status == New || row.status == CollectingEvidence || row.status == Analyzing <==> !HasApproval(t, i))
    && (row.status == IncidentStatus.Approved ==> HasDecision(t, i, ApprovalStatus.Approved))
    && (row.status == IncidentStatus.Rejected ==> HasDecision(t, i, ApprovalStatus.Rejected))
    && row.status != Executing && row.status != IncidentStatus.Failed && row.status != IncidentStatus.Completed
    && (row.resolvedAt.Some? <==> exists p :: ApprovalOf(t, p, i) && t.approvals[p].execution == Some(Succeeded))
    && (row.resolvedAt.Some? ==>
         (exists p :: ExecutedBy(t, p, i, row.resolvedAt.value)) &&
         forall p, at :: ExecutedBy(t, p, i, at) ==> at <= row.resolvedAt.value)
  }

  /** Row by row, an approval has an execution time exactly when it succeeded. */
  ghost predicate ExecutionsAreSuccesses(t: Tables) {
    forall p :: p in t.approvals ==>
      (t.approvals[p].executedAt.Some? <==> t.approvals[p].execution == Some(Succeeded))
  }

  lemma StatusIsExplained(t: Tables, i: Id)
    requires ExecutionsAreSuccesses(t) && i in t.incidents && StatusFits(t, i)
    ensures StatusExplained(t, i)
  {
    hide HasRun, HasApproval, HasDecision;
    if t.incidents[i].resolvedAt.Some? {
      var p :| ExecutedBy(t, p, i, t.incidents[i].resolvedAt.value);
      assert ApprovalOf(t, p, i) && t.approvals[p].execution == Some(Succeeded);
    }
  }

  lemma ExecutionsSucceeded(t: Tables, hash: Hash, clock: int)
    requires Recorded(t, hash, clock)
    ensures ExecutionsAreSuccesses(t)
  {
    forall p | p in t.approvals
      ensures t.approvals[p].executedAt.Some? <==> t.approvals[p].execution == Some(Succeeded)
    {
      assert LifeFits(t.approvals[p], clock);
    }
  }

  /** Over every history, at every request, for every incident. */
  lemma StatusFollowsFromRecords(cfg: Config, worlds: seq<World>, steps: seq<Step>, k: nat, i: Id)
    requires IsRun(cfg, worlds, steps) && k < |worlds| && i in worlds[k].db.incidents
    ensures StatusExplained(worlds[k].db, i)
  {
    hide IsRun, Correlated, Recorded, StatusExplained, ExecutionsAreSuccesses;
    ReachableIsSound(cfg, worlds, steps, k);
    assert StatusFits(worlds[k].db, i);
    ExecutionsSucceeded(worlds[k].db, cfg.hash, worlds[k].clock);
    StatusIsExplained(worlds[k].db, i);
  }

  /******* Shape of incidents *******/

  /** Alerts are partitioned into incidents, and only a repeated empty external id is ever refused. */
  lemma AlertsArePartitionedAlways(
    cfg: Config, worlds: seq<World>, steps: seq<Step>, k: nat, a: Id, req: AlertRequest, choose: RowChoice)
    requires IsRun(cfg, worlds, steps) && k < |worlds|
    ensures var t := worlds[k].db;
      a in t.alerts ==>
        (exists i :: InIncident(t, a, i)) &&
        (forall i, j :: InIncident(t, a, i) && InIncident(t, a, j) ==> i == j) &&
        (forall i, b :: InIncident(t, a, i) && InIncident(t, b, i) && b in t.alerts ==>
           t.alerts[a].service == t.incidents[i].service && t.alerts[a].kind == t.alerts[b].kind)
    ensures var t := worlds[k].db;
      IngestAlert(t, req, cfg.window, choose).reply.Aborted? <==>
        req.externalId == Some("") && ExternalIdTaken(t, Some(""))
  {
    hide IsRun, Recorded, Lifecycle, IncidentsSound, NoStrayEvents, Spaced, LinksFit, Partitioned, OneKindEach,
      ExternalIdsUnique, IngestAlert, AlertIdsBelow, ServicesKnown, ServicesDistinct;
    ReachableIsSound(cfg, worlds, steps, k);
    IngestAbortsExactly(worlds[k].db, req, cfg.window, choose);
    if a in worlds[k].db.alerts {
      AlertsArePartitioned(worlds[k].db, a);
    }
  }

  /** Over every history, every ingestion is answered exactly as its rows say. */
  lemma EveryIngestionIsExact(
    cfg: Config, worlds: seq<World>, steps: seq<Step>, k: nat, req: AlertRequest, choose: RowChoice)
    requires IsRun(cfg, worlds, steps) && k < |worlds|
    ensures AnsweredExactly(worlds[k].db, req, cfg.window, IngestAlert(worlds[k].db, req, cfg.window, choose))
  {
    hide IsRun, Sound, IngestAlert, AnsweredExactly, AlertIdsBelow, LinksFit, Partitioned, ExternalIdsUnique,
      ServicesKnown;
    ReachableIsSound(cfg, worlds, steps, k);
    SoundIsReady(worlds[k].db, cfg.hash, cfg.window, worlds[k].clock);
    SoundServicesKnown(worlds[k].db, cfg.hash, cfg.window, worlds[k].clock);
    IngestAnswersExactly(worlds[k].db, req, cfg.window, choose);
  }

  /** Over every history, what a delivery counts as ingested is a new row that is the alert sent, and it stays. */
  lemma DeliveriesStoreWhatWasSent(cfg: Config, worlds: seq<World>, steps: seq<Step>, j: nat, k: nat)
    returns (x: Id)
    requires IsRun(cfg, worlds, steps) && j < |steps| && steps[j].PostWebhook? && k < |steps[j].payload.alerts|
    requires DeliveredSoFar(cfg, worlds, steps, j, k + 1).ingested > DeliveredSoFar(cfg, worlds, steps, j, k).ingested
    ensures var d, d' := DeliveredSoFar(cfg, worlds, steps, j, k), DeliveredSoFar(cfg, worlds, steps, j, k + 1);
      x !in d.tables.alerts && IsRowOf(d'.tables, steps[j].payload.alerts[k], x) &&
      x in worlds[j + 1].db.alerts && worlds[j + 1].db.alerts[x] == d'.tables.alerts[x]
  {
    assert Next(cfg, worlds[j], steps[j], worlds[j + 1]);
    ReachableIsSound(cfg, worlds, steps, j);
    x := SentIsStored(worlds[j].db, steps[j].payload, steps[j].choices, k, cfg.hash, cfg.window, worlds[j].clock);
  }

  /** The delivery of request j after its first n alerts. */
  ghost function DeliveredSoFar(cfg: Config, worlds: seq<World>, steps: seq<Step>, j: nat, n: nat): Delivery
    requires IsRun(cfg, worlds, steps) && j < |steps| && steps[j].PostWebhook? && n <= |steps[j].payload.alerts|
  {
    Deliver(worlds[j].db, steps[j].payload, cfg.window, steps[j].choices, n)
  }

  lemma SentIsStored(t: Tables, p: Payload, choose: nat -> RowChoice, k: nat, hash: Hash, w: int, now: int)
    returns (x: Id)
    requires Sound(t, hash, w, now) && k < |p.alerts|
    requires Deliver(t, p, w, choose, k + 1).ingested > Deliver(t, p, w, choose, k).ingested
    ensures var d, d' := Deliver(t, p, w, choose, k), Deliver(t, p, w, choose, k + 1);
      var u := Deliver(t, p, w, choose, |p.alerts|).tables;
      x !in d.tables.alerts && IsRowOf(d'.tables, p.alerts[k], x) && x in u.alerts && u.alerts[x] == d'.tables.alerts[x]
  {
    hide Sound, DeliverAlert, Ready, ServicesKnown, IsRowOf, StaysReady;
    var d := Deliver(t, p, w, choose, k);
    DeliveryPreserves(t, p, choose, k, hash, w, now);
    SoundIsReady(d.tables, hash, w, now);
    SoundServicesKnown(d.tables, hash, w, now);
    x := IngestedLeavesRow(d, p, p.alerts[k], w, choose(k));
    RowIsThere(DeliverAlert(d, p, p.alerts[k], w, choose(k)).tables, p.alerts[k], x);
    DeliveryStaysReady(t, p, choose, hash, w, now);
    DeliveryRemembers(t, p, w, choose, k + 1, |p.alerts|);
  }

  lemma RowIsThere(u: Tables, a: WebhookAlert, x: Id)
    requires IsRowOf(u, a, x)
    ensures x in u.alerts
  {}

  /** The alerts of an incident form a chain with gaps of at most the window, in any order of arrival. */
  lemma IncidentsAreChains(
    cfg: Config, worlds: seq<World>, steps: seq<Step>, k: nat, i: Id, order: seq<Id>)
    requires IsRun(cfg, worlds, steps) && k < |worlds| && i in worlds[k].db.incidents
    requires ListsByStart(worlds[k].db, i, order) && order != []
    ensures var alerts := worlds[k].db.alerts;
      (forall j :: 0 < j < |order| ==> alerts[order[j]].startedAt - alerts[order[j - 1]].startedAt <= cfg.window) &&
      alerts[order[|order| - 1]].startedAt - alerts[order[0]].startedAt <= (|order| - 1) * cfg.window
  {
    hide IsRun, Recorded, Lifecycle, NoStrayEvents, Spaced, LinksFit, Partitioned, OneKindEach, ExternalIdsUnique,
      ListsByStart, Chained, TimelineTells, OpenedByAlert, SeverityAttained, AlertIdsBelow, ServicesKnown,
      ServicesDistinct;
    ReachableIsSound(cfg, worlds, steps, k);
    assert IncidentSound(worlds[k].db, i, cfg.window);
    ListedAlertsExist(worlds[k].db, i, order);
    ChainBound(worlds[k].db, cfg.window, i, order, |order|);
  }

  lemma ListedAlertsExist(t: Tables, i: Id, order: seq<Id>)
    requires ListsByStart(t, i, order)
    ensures forall a :: a in order ==> a in t.alerts
  {}

  /** Incidents of one stream that were never closed: pairwise apart, and few in any interval. */
  lemma OpenIncidentsArePacked(
    cfg: Config, worlds: seq<World>, steps: seq<Step>, k: nat,
    service: Id, kind: string, group: set<Id>, lo: int, length: nat)
    requires IsRun(cfg, worlds, steps) && k < |worlds| && 0 <= cfg.window
    requires OpenGroup(worlds[k].db, group, service, kind, lo, lo + length)
    ensures forall i, j :: i in group && j in group && i != j ==>
      Apart(worlds[k].db, i, j, cfg.window)
    ensures |group| <= length / (cfg.window + 1) + 1
  {
    hide IsRun, Recorded, Lifecycle, NoStrayEvents, IncidentsSound, Partitioned, OneKindEach, ExternalIdsUnique,
      Closed, AlertIdsBelow, ServicesKnown, ServicesDistinct, LinksFit, Spaced;
    var t := worlds[k].db;
    ReachableIsSound(cfg, worlds, steps, k);
    forall i, j | i in group && j in group && i != j ensures Apart(t, i, j, cfg.window) {
      OpenIncidentsAreSpaced(t, cfg.window, service, kind, i, j);
    }
    PackingBound(t, cfg.window, service, kind, group, lo, length);
  }

  ghost predicate Apart(t: Tables, i: Id, j: Id, w: int) {
    i in t.incidents && j in t.incidents &&
    (t.incidents[i].startedAt - t.incidents[j].startedAt > w || t.incidents[j].startedAt - t.incidents[i].startedAt > w)
  }

  /** The timeline of an incident, read in insertion order, rebuilds its alerts and its severity. */
  ghost predicate TimelineIsFaithful(t: Tables, i: Id)
    requires i in t.incidents
  {
    var r := ReplayOf(t.events, i);
    && r.alerts == Linked(t, i) && r.severity == Some(t.incidents[i].severity)
    && r.created == 1 && r.correlated == |Linked(t, i)| - 1 && r.escalations <= 3 && r.consistent
    && (forall a :: a in Linked(t, i) ==> a in t.alerts && Rank(t.alerts[a].severity) <= Rank(t.incidents[i].severity))
    && (exists a :: a in Linked(t, i) && a in t.alerts && t.alerts[a].severity == t.incidents[i].severity)
  }

  lemma TimelineIsAlwaysFaithful(cfg: Config, worlds: seq<World>, steps: seq<Step>, k: nat, i: Id)
    requires IsRun(cfg, worlds, steps) && k < |worlds| && i in worlds[k].db.incidents
    ensures TimelineIsFaithful(worlds[k].db, i)
  {
    hide IsRun, Recorded, Lifecycle, NoStrayEvents, Spaced, Partitioned, OneKindEach, ExternalIdsUnique, Chained,
      OpenedByAlert, ServicesKnown, ServicesDistinct, AlertIdsBelow, LinksFit, SeverityAttained;
    var t := worlds[k].db;
    ReachableIsSound(cfg, worlds, steps, k);
    assert IncidentSound(t, i, cfg.window);
    SeverityIsMaximum(t, i);
    LinkedAlertsExist(t, i);
  }

  lemma LinkedAlertsExist(t: Tables, i: Id)
    requires LinksFit(t)
    ensures forall a :: a in Linked(t, i) ==> a in t.alerts
  {
    forall a | a in Linked(t, i) ensures a in t.alerts {
      assert Link(i, a) in t.links;
    }
  }

  /******* What no later request undoes *******/

  lemma AlertProgresses(t: Tables, req: AlertRequest, w: int, choose: RowChoice)
    requires AlertIdsBelow(t)
    ensures Progress(t, IngestAlert(t, req, w, choose).tables)
  {
    hide IngestAlert, Remembers, AlertIdsBelow, CasesAdvance;
    IngestRemembers(t, req, w, choose);
    IngestAdvances(t, req, w, choose);
    IngestAdds(t, req, w, choose);
  }

  lemma {:induction false} DeliveryProgresses(
    t: Tables, p: Payload, choose: nat -> RowChoice, n: nat, hash: Hash, w: int, now: int)
    requires Sound(t, hash, w, now) && n <= |p.alerts|
    ensures Progress(t, Deliver(t, p, w, choose, n).tables)
  {
    hide Sound, IngestAlert, ToIngestRequest, Progress;
    if n == 0 {
      QuietIsProgress(t, t);
    } else {
      DeliveryProgresses(t, p, choose, n - 1, hash, w, now);
      var d, a := Deliver(t, p, w, choose, n - 1), p.alerts[n - 1];
      if !d.failed && Firing(p, a) && ToIngestRequest(a).Some? {
        var req := ToIngestRequest(a).value;
        DeliveryPreserves(t, p, choose, n - 1, hash, w, now);
        SoundIdsBelow(d.tables, hash, w, now);
        AlertProgresses(d.tables, req, w, choose(n - 1));
        ProgressIsTransitive(t, d.tables, IngestAlert(d.tables, req, w, choose(n - 1)).tables);
        DuplicateKeeps(d.tables, req, w, choose(n - 1));
      }
    }
  }

  lemma SoundIdsBelow(t: Tables, hash: Hash, w: int, now: int)
    requires Sound(t, hash, w, now)
    ensures AlertIdsBelow(t) && forall p :: p in t.approvals ==> p < t.nextId && LifeFits(t.approvals[p], now)
  {
    hide Lifecycle;
    forall p | p in t.approvals ensures LifeFits(t.approvals[p], now) {}
  }

  lemma InvestigateProgresses(
    t: Tables, hash: Hash, i: Id, req: InvestigateRequest, env: Surroundings, w: int)
    requires Sound(t, hash, w, env.now)
    ensures match InvestigateIncident(t, hash, i, req, env)
      case NotInvestigated(_) => true
      case Crashed(u) => Progress(t, u)
      case Investigated(u, _) => Progress(t, u)
  {
    hide Sound, CollectIncidentEvidence, Conclude, Progress;
    if i in t.incidents {
      var collect := CollectRequest(req.lookback, None);
      CollectIsQuiet(t, i, collect, env.sources, env.now);
      CollectPreserves(t, i, collect, env.sources, hash, w, env.now);
      match CollectIncidentEvidence(t, i, collect, env.sources, env.now)
      case NotCollected(_) =>
      case Interrupted(u) => QuietIsProgress(t, u);
      case Collected(u, r) =>
        QuietIsProgress(t, u);
        SoundIdsBelow(u, hash, w, env.now);
        ConcludeProgresses(u, hash, i, r.run, r.evidence, req, env);
        ProgressIsTransitive(t, u, Conclude(u, hash, i, r.run, r.evidence, req, env).tables);
    }
  }

  lemma StepProgresses(cfg: Config, t: Tables, step: Step, now: int)
    requires Sound(t, cfg.hash, cfg.window, now)
    ensures Progress(t, Committed(cfg, t, step, now))
  {
    hide Sound, IngestAlert, Deliver, CollectIncidentEvidence, AnalyzeIncident, InvestigateIncident,
      RequestApproval, DecideApproval, ExecuteApproval, Progress, AlertIdsBelow;
    SoundIdsBelow(t, cfg.hash, cfg.window, now);
    QuietIsProgress(t, t);
    match step
    case PostAlert(req, choose) => AlertProgresses(t, req, cfg.window, choose);
    case PostWebhook(payload, choices) =>
      DeliveryProgresses(t, payload, choices, |payload.alerts|, cfg.hash, cfg.window, now);
    case PostCollect(i, req, sources) =>
      CollectIsQuiet(t, i, req, sources, now);
      QuietIsProgress(t, Committed(cfg, t, step, now));
    case PostAnalyze(i, req, errorMentioned, choose) =>
      AnalyzeIsQuiet(t, i, req, errorMentioned, now, choose);
      QuietIsProgress(t, Committed(cfg, t, step, now));
    case PostInvestigate(i, req, _, _, _, _) =>
      InvestigateProgresses(t, cfg.hash, i, req, Around(step, now), cfg.window);
    case PostApproval(rec, choose) => RequestProgresses(t, cfg.hash, rec, now, choose);
    case PostDecision(p, decision) => DecideProgresses(t, cfg.hash, p, decision, now);
    case PostExecution(p, recovered) => ExecuteProgresses(t, cfg.hash, p, recovered, now);
  }

  /** Alerts stay where they were put, and approvals only move forward, between any two moments. */
  lemma {:induction false} HistoryOnlyMovesForward(cfg: Config, worlds: seq<World>, steps: seq<Step>, j: nat, k: nat)
    requires IsRun(cfg, worlds, steps) && j <= k < |worlds|
    ensures Progress(worlds[j].db, worlds[k].db)
    decreases k
  {
    hide Sound, Committed, Progress;
    if j == k {
      QuietIsProgress(worlds[j].db, worlds[j].db);
    } else {
      HistoryOnlyMovesForward(cfg, worlds, steps, j, k - 1);
      var before, after := worlds[k - 1], worlds[k];
      assert Next(cfg, before, steps[k - 1], after);
      ReachableIsSound(cfg, worlds, steps, k - 1);
      ClockAdvances(before.db, cfg.hash, cfg.window, before.clock, after.clock);
      StepProgresses(cfg, before.db, steps[k - 1], after.clock);
      ProgressIsTransitive(worlds[j].db, before.db, after.db);
    }
  }

  /******* Approvals over a history *******/

  /** Request k of the history decided approval p. */
  ghost predicate Decides(cfg: Config, worlds: seq<World>, steps: seq<Step>, k: nat, p: Id)
    requires IsRun(cfg, worlds, steps) && k < |steps|
  {
    steps[k].PostDecision? && steps[k].approval == p &&
    DecideApproval(worlds[k].db, cfg.hash, p, steps[k].decision, worlds[k + 1].clock).Done?
  }

  /** Request k of the history executed approval p, and committed it. */
  ghost predicate Executes(cfg: Config, worlds: seq<World>, steps: seq<Step>, k: nat, p: Id)
    requires IsRun(cfg, worlds, steps) && k < |steps|
  {
    steps[k].PostExecution? && steps[k].approval == p &&
    ExecuteApproval(worlds[k].db, cfg.hash, p, steps[k].recovered, worlds[k + 1].clock).Executed?
  }

  predicate IsPending(t: Tables, p: Id) {
    p in t.approvals && t.approvals[p].status == ApprovalStatus.Pending
  }

  predicate IsDecided(t: Tables, p: Id) {
    p in t.approvals && t.approvals[p].status != ApprovalStatus.Pending
  }

  predicate IsExecuted(t: Tables, p: Id) {
    p in t.approvals && t.approvals[p].executedAt.Some?
  }

  lemma DecisionIsStored(t: Tables, hash: Hash, p: Id, decision: ApprovalStatus, now: int)
    requires DecideApproval(t, hash, p, decision, now).Done?
    ensures IsPending(t, p) && IsDecided(DecideApproval(t, hash, p, decision, now).tables, p)
  {
    hide ActionDigest;
  }

  lemma ExecutionIsStored(t: Tables, hash: Hash, p: Id, recovered: bool, now: int)
    requires ExecuteApproval(t, hash, p, recovered, now).Executed?
    ensures !IsExecuted(t, p) && IsExecuted(ExecuteApproval(t, hash, p, recovered, now).tables, p)
  {
    hide ActionDigest;
  }

  lemma DecidesOnce(cfg: Config, worlds: seq<World>, steps: seq<Step>, k: nat, p: Id)
    requires IsRun(cfg, worlds, steps) && k < |steps| && Decides(cfg, worlds, steps, k, p)
    ensures IsPending(worlds[k].db, p) && IsDecided(worlds[k + 1].db, p)
  {
    hide DecideApproval, IsPending, IsDecided;
    assert Next(cfg, worlds[k], steps[k], worlds[k + 1]);
    DecisionIsStored(worlds[k].db, cfg.hash, p, steps[k].decision, worlds[k + 1].clock);
  }

  lemma ExecutesOnce(cfg: Config, worlds: seq<World>, steps: seq<Step>, k: nat, p: Id)
    requires IsRun(cfg, worlds, steps) && k < |steps| && Executes(cfg, worlds, steps, k, p)
    ensures !IsExecuted(worlds[k].db, p) && IsExecuted(worlds[k + 1].db, p)
  {
    hide ExecuteApproval, IsExecuted;
    assert Next(cfg, worlds[k], steps[k], worlds[k + 1]);
    ExecutionIsStored(worlds[k].db, cfg.hash, p, steps[k].recovered, worlds[k + 1].clock);
  }

  lemma DecidedStaysDecided(t: Tables, t': Tables, p: Id)
    requires Progress(t, t')
    ensures IsDecided(t, p) ==> IsDecided(t', p) && t'.approvals[p].status == t.approvals[p].status
    ensures IsExecuted(t, p) ==> IsExecuted(t', p) && t'.approvals[p] == t.approvals[p]
  {
    hide Remembers;
  }

  /** An approval is decided at most once over the whole history. */
  lemma DecidedAtMostOnce(cfg: Config, worlds: seq<World>, steps: seq<Step>, j: nat, k: nat, p: Id)
    requires IsRun(cfg, worlds, steps) && j < k < |steps|
    ensures !(Decides(cfg, worlds, steps, j, p) && Decides(cfg, worlds, steps, k, p))
  {
    assert |worlds| == |steps| + 1;
    hide IsRun, Progress, Decides;
    if Decides(cfg, worlds, steps, j, p) {
      DecidesOnce(cfg, worlds, steps, j, p);
      HistoryOnlyMovesForward(cfg, worlds, steps, j + 1, k);
      DecidedStaysDecided(worlds[j + 1].db, worlds[k].db, p);
      if Decides(cfg, worlds, steps, k, p) {
        DecidesOnce(cfg, worlds, steps, k, p);
      }
    }
  }

  /** An approval is executed at most once over the whole history. */
  lemma ExecutedAtMostOnce(cfg: Config, worlds: seq<World>, steps: seq<Step>, j: nat, k: nat, p: Id)
    requires IsRun(cfg, worlds, steps) && j < k < |steps|
    ensures !(Executes(cfg, worlds, steps, j, p) && Executes(cfg, worlds, steps, k, p))
  {
    assert |worlds| == |steps| + 1;
    hide IsRun, Progress, Executes;
    if Executes(cfg, worlds, steps, j, p) {
      ExecutesOnce(cfg, worlds, steps, j, p);
      HistoryOnlyMovesForward(cfg, worlds, steps, j + 1, k);
      DecidedStaysDecided(worlds[j + 1].db, worlds[k].db, p);
      if Executes(cfg, worlds, steps, k, p) {
        ExecutesOnce(cfg, worlds, steps, k, p);
      }
    }
  }

  /** Every stored approval is unique for its recommendation, and was decided inside thirty minutes. */
  lemma ApprovalsAreTimelyAndUnique(cfg: Config, worlds: seq<World>, steps: seq<Step>, k: nat, p: Id, q: Id)
    requires IsRun(cfg, worlds, steps) && k < |worlds|
    requires p in worlds[k].db.approvals && q in worlds[k].db.approvals
    ensures var a := worlds[k].db.approvals[p];
      (a.recommendation == worlds[k].db.approvals[q].recommendation ==> p == q) &&
      (a.decidedAt.Some? <==> a.status != ApprovalStatus.Pending) &&
      (a.decidedAt.Some? ==> a.createdAt <= a.decidedAt.value <= a.createdAt + 1_800_000_000) &&
      (a.executedAt.Some? ==>
         a.status == ApprovalStatus.Approved && a.decidedAt.Some? && a.decidedAt.value <= a.executedAt.value)
  {
    ReachableIsSound(cfg, worlds, steps, k);
    hide IsRun, Correlated, Lifecycle;
    assert LifeFits(worlds[k].db.approvals[p], worlds[k].clock);
  }

  /** Digest binding over histories: what the policy accepts now is what was approved for then. */
  lemma PolicyAcceptsOnlyTheRequestedAction(
    cfg: Config, worlds: seq<World>, steps: seq<Step>, j: nat, k: nat, p: Id,
    action: string, parameters: map<string, J.Json>, run: Id, now: int)
    requires IsRun(cfg, worlds, steps) && j <= k < |worlds| && CollisionFree(cfg.hash)
    requires p in worlds[j].db.approvals && p in worlds[k].db.approvals
    requires VerifyBackendApproval(cfg.hash, Some(worlds[k].db.approvals[p]), action, parameters, run, now).None?
    ensures var requested := worlds[j].db.approvals[p];
      action == requested.action && parameters == requested.parameters && run == requested.run
  {
    hide Correlated, Lifecycle, Remembers, ActionDigest;
    HistoryOnlyMovesForward(cfg, worlds, steps, j, k);
    ReachableIsSound(cfg, worlds, steps, k);
    var a := worlds[k].db.approvals[p];
    assert MovesForward(worlds[j].db.approvals[p], a);
    assert BoundToRecommendation(worlds[k].db, cfg.hash, a);
    PolicyBindsAction(cfg.hash, a, action, parameters, run, now);
  }

  /******* Webhook redelivery *******/

  lemma DeliveryStaysReady(t: Tables, p: Payload, choose: nat -> RowChoice, hash: Hash, w: int, now: int)
    requires Sound(t, hash, w, now)
    ensures StaysReady(t, p, w, choose, |p.alerts|)
  {
    hide Sound, Ready, Deliver;
    forall k | 0 <= k <= |p.alerts| ensures Ready(Deliver(t, p, w, choose, k).tables) {
      DeliveryPreserves(t, p, choose, k, hash, w, now);
      SoundIsReady(Deliver(t, p, w, choose, k).tables, hash, w, now);
    }
  }

  /** The first delivery of payload p, as request j of the history. */
  ghost function FirstDelivery(cfg: Config, worlds: seq<World>, steps: seq<Step>, j: nat): Delivery
    requires IsRun(cfg, worlds, steps) && j < |steps| && steps[j].PostWebhook?
  {
    Deliver(worlds[j].db, steps[j].payload, cfg.window, steps[j].choices, |steps[j].payload.alerts|)
  }

  /** What a repeated delivery answers in a store that remembers the first one. */
  ghost predicate Repeats(p: Payload, first: Delivery, t': Tables, second: Delivery) {
    && second ==
      Delivery(t', 0, first.ingested + first.duplicates, first.ignored, first.incidents, first.failed)
    && (first.failed <==> exists a :: a in p.alerts && Unconvertible(p, a))
    && (!first.failed ==> |p.alerts| == first.ingested + first.duplicates + first.ignored)
    && NoRepeats(first.incidents)
  }

  lemma SecondDeliveryRepeats(
    t: Tables, t': Tables, p: Payload, choose: nat -> RowChoice, again: nat -> RowChoice, hash: Hash, w: int,
    before: int, after: int)
    requires Sound(t, hash, w, before) && Sound(t', hash, w, after) && Fingerprinted(p)
    requires Progress(Deliver(t, p, w, choose, |p.alerts|).tables, t')
    ensures Repeats(p, Deliver(t, p, w, choose, |p.alerts|), t', Deliver(t', p, w, again, |p.alerts|))
  {
    hide Sound, Deliver, Remembers, ApprovalsAdvance, CasesAdvance, StaysReady, Fingerprinted, Unconvertible,
      LinksFit, Partitioned, ExternalIdsUnique, AlertIdsBelow, NoRepeats;
    DeliveryStaysReady(t, p, choose, hash, w, before);
    SoundIsReady(t', hash, w, after);
    RedeliveryChangesNothing(t, t', p, w, choose, again, |p.alerts|);
    DeliveryFailsExactly(t, p, w, choose, |p.alerts|);
    DeliveryAddsUp(t, p, w, choose, |p.alerts|);
  }

  /**
    Delivered again in any later reachable store, the same payload changes nothing, answers the same
    incidents, and stops again where it stopped, which it does exactly at an alert the schema refuses.
   */
  lemma RedeliveryIsIdempotent(
    cfg: Config, worlds: seq<World>, steps: seq<Step>, j: nat, k: nat, again: nat -> RowChoice)
    requires IsRun(cfg, worlds, steps) && j < k < |worlds| && steps[j].PostWebhook?
    requires Fingerprinted(steps[j].payload)
    ensures var p := steps[j].payload;
      Repeats(p, FirstDelivery(cfg, worlds, steps, j), worlds[k].db,
              Deliver(worlds[k].db, p, cfg.window, again, |p.alerts|))
  {
    assert Next(cfg, worlds[j], steps[j], worlds[j + 1]);
    hide IsRun, Sound, Deliver, Progress, Fingerprinted, Repeats;
    ReachableIsSound(cfg, worlds, steps, j);
    ReachableIsSound(cfg, worlds, steps, k);
    HistoryOnlyMovesForward(cfg, worlds, steps, j + 1, k);
    SecondDeliveryRepeats(worlds[j].db, worlds[k].db, steps[j].payload, steps[j].choices, again, cfg.hash, cfg.window,
                          worlds[j].clock, worlds[k].clock);
  }

  lemma SoundIsReady(t: Tables, hash: Hash, w: int, now: int)
    requires Sound(t, hash, w, now)
    ensures Ready(t)
  {
    hide Recorded, Lifecycle;
  }

  /******* How requests end *******/

  /** Over every history, every analysis takes the run it should, and answers and stores exactly the rules' verdict. */
  lemma EveryAnalysisIsExact(
    cfg: Config, worlds: seq<World>, steps: seq<Step>, k: nat, i: Id, req: AnalyzeRequest, errorMentioned: bool,
    now: int, choose: RowChoice)
    requires IsRun(cfg, worlds, steps) && k < |worlds| && worlds[k].clock <= now
    ensures AnalysisAnswered(
      worlds[k].db, i, req, errorMentioned, now, AnalyzeIncident(worlds[k].db, i, req, errorMentioned, now, choose))
  {
    hide IsRun, Sound, AnalyzeIncident, AnalysisAnswered;
    ReachableIsSound(cfg, worlds, steps, k);
    ClockAdvances(worlds[k].db, cfg.hash, cfg.window, worlds[k].clock, now);
    AnalysisAnswersExactly(worlds[k].db, i, req, errorMentioned, choose, cfg.hash, cfg.window, now);
  }

  lemma CollectionEnds(
    t: Tables, i: Id, lookback: nat, sources: seq<Source>, hash: Hash, w: int, now: int)
    requires Sound(t, hash, w, now) && i in t.incidents
    ensures var collected := CollectIncidentEvidence(t, i, CollectRequest(lookback, None), sources, now);
      (collected.Interrupted? <==> SomeSourceRaises(t, i, sources, now)) && !collected.NotCollected?
  {
    SoundServicesKnown(t, hash, w, now);
    hide Sound, CollectIncidentEvidence, ServicesKnown;
    CollectionStarts(t, i, CollectRequest(lookback, None), sources, hash, w, now);
    InterruptedExactly(t, i, CollectRequest(lookback, None), sources, now);
  }

  lemma SoundServicesKnown(t: Tables, hash: Hash, w: int, now: int)
    requires Sound(t, hash, w, now)
    ensures ServicesKnown(t)
  {
    hide Recorded, Lifecycle;
  }

  /** What an investigation answers and leaves behind after collection ended with tables u and response r. */
  ghost predicate EndsAsJudged(
    u: Tables, i: Id, r: CollectResponse, req: InvestigateRequest, env: Surroundings, result: InvestigateResult)
    requires i in u.incidents && r.run in u.runs && forall e :: e in r.evidence ==> e in u.evidence
  {
    var accepted := Accepts(HandOver(u, i, r.run, env.now), i, r.evidence, req, env);
    if accepted && !Presentable(env.answer.response) then result == Crashed(u)
    else
      result.Investigated? &&
      if accepted
      then
        StoresAnswer(result.tables, i, r.run, result.reply, env.answer.response, req.minConfidence) &&
        (result.reply.approval.Some? <==> req.autoRequestApproval)
      else result.reply == InvestigateReply(r.run, None, None, None)
  }

  lemma ConcludesAsJudged(
    u: Tables, hash: Hash, i: Id, r: CollectResponse, req: InvestigateRequest, env: Surroundings, w: int)
    requires Sound(u, hash, w, env.now) && i in u.incidents && r.run in u.runs && u.runs[r.run].incident == i
    requires forall e :: e in r.evidence ==> e in u.evidence && u.evidence[e].run == r.run
    ensures EndsAsJudged(u, i, r, req, env, Conclude(u, hash, i, r.run, r.evidence, req, env))
  {
    hide Sound, Conclude, Acceptable, GroundingEvidence, Presentable, HandOver, StoresAnswer;
    ConcludePreserves(u, hash, i, r.run, r.evidence, req, env, w);
    if Conclude(u, hash, i, r.run, r.evidence, req, env).Investigated? {
      ConcludeAnswers(u, hash, i, r.run, r.evidence, req, env, w);
    }
  }

  lemma InvestigationEndsSoundly(
    t: Tables, hash: Hash, i: Id, req: InvestigateRequest, env: Surroundings, w: int)
    requires Sound(t, hash, w, env.now)
    ensures var result := InvestigateIncident(t, hash, i, req, env);
      var collected := CollectIncidentEvidence(t, i, CollectRequest(req.lookback, None), env.sources, env.now);
      if i !in t.incidents then result == NotInvestigated(IncidentNotFound)
      else if SomeSourceRaises(t, i, env.sources, env.now)
      then collected.Interrupted? && result == Crashed(collected.tables)
      else
        collected.Collected? &&
        EvidenceOfRun(collected.tables, collected.response.run) == (set e | e in collected.response.evidence) &&
        EndsAsJudged(collected.tables, i, collected.response, req, env, result)
  {
    hide Sound, CollectIncidentEvidence, Conclude, EndsAsJudged, SomeSourceRaises;
    var collect := CollectRequest(req.lookback, None);
    if i in t.incidents {
      CollectionEnds(t, i, req.lookback, env.sources, hash, w, env.now);
      var collected := CollectIncidentEvidence(t, i, collect, env.sources, env.now);
      if collected.Collected? {
        CollectPreserves(t, i, collect, env.sources, hash, w, env.now);
        CollectionConserves(t, i, collect, env.sources, hash, w, env.now);
        ConservedEvidenceIsOfRun(collected.tables, collected.response, env.sources);
        ConcludesAsJudged(collected.tables, hash, i, collected.response, req, env, w);
      }
    }
  }

  /**
    An investigation of a reachable store: refused exactly for an unknown incident, crashed exactly when a
    source raises or an accepted answer is not presentable, and otherwise with a proposal exactly on an
    accepted answer, its confidence at or above the threshold, and an approval exactly if it was wanted.
   */
  lemma InvestigationEnds(
    cfg: Config, worlds: seq<World>, steps: seq<Step>, k: nat, i: Id, req: InvestigateRequest, env: Surroundings)
    requires IsRun(cfg, worlds, steps) && k < |worlds| && worlds[k].clock <= env.now
    ensures var t := worlds[k].db;
      var result := InvestigateIncident(t, cfg.hash, i, req, env);
      var collected := CollectIncidentEvidence(t, i, CollectRequest(req.lookback, None), env.sources, env.now);
      if i !in t.incidents then result == NotInvestigated(IncidentNotFound)
      else if SomeSourceRaises(t, i, env.sources, env.now)
      then collected.Interrupted? && result == Crashed(collected.tables)
      else
        collected.Collected? &&
        EvidenceOfRun(collected.tables, collected.response.run) == (set e | e in collected.response.evidence) &&
        EndsAsJudged(collected.tables, i, collected.response, req, env, result)
  {
    hide IsRun, Sound, CollectIncidentEvidence, InvestigateIncident, EndsAsJudged, SomeSourceRaises;
    ReachableIsSound(cfg, worlds, steps, k);
    ClockAdvances(worlds[k].db, cfg.hash, cfg.window, worlds[k].clock, env.now);
    InvestigationEndsSoundly(worlds[k].db, cfg.hash, i, req, env, cfg.window);
  }

  lemma CollectionStarts(t: Tables, i: Id, req: CollectRequest, sources: seq<Source>, hash: Hash, w: int, now: int)
    requires Sound(t, hash, w, now)
    ensures CollectIncidentEvidence(t, i, req, sources, now).NotCollected? <==> i !in t.incidents
  {
    hide Recorded, Lifecycle, CollectIncidentEvidence;
    CollectStartsExactly(t, i, req, sources, now);
  }
}
