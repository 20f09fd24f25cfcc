/** One evidence collection pass over a list of sources, committing after every source. */
module Collection {
  import opened Base
  import opened Schema
  import opened Investigation

  /** What querying a source did: any exception other than a connector error ends the request. */
  datatype Attempt = Fetched | ConnectorFailed(retryable: bool) | Raised

  datatype Source = Source(kind: SourceType, name: string, attempt: Attempt)

  datatype SourceRead = SourceRead(
    kind: SourceType, name: string, succeeded: bool, toolCall: Id, evidence: Option<Id>, retryable: Option<bool>)

  /** Durations and times are in one unit; `endAt` defaults to now. */
  datatype CollectRequest = CollectRequest(lookback: nat, endAt: Option<int>)

  /** Start and end of the queried window. */
  function Window(incidentStart: int, req: CollectRequest, now: int): (int, int) {
    var end := if req.endAt.Some? then req.endAt.value else now;
    (Max(incidentStart, end - req.lookback), end)
  }

  /** Every connector rejects a window that ends before it starts. */
  function Queried(s: Source, start: int, end: int): Source {
    if end < start then s.(attempt := Raised) else s
  }

  function QueriedAll(sources: seq<Source>, start: int, end: int): (r: seq<Source>)
    ensures |r| == |sources|
  {
    seq(|sources|, k requires 0 <= k < |sources| => Queried(sources[k], start, end))
  }

  /** A new running run; a new incident starts collecting. */
  function StartRun(t: Tables, i: Id, now: int): Tables
    requires i in t.incidents
  {
    var made := CreateAgentRun(t, i, now).tables;
    var row := t.incidents[i];
    made.(runs := made.runs[t.nextId := AgentRun(i, RunRunning, now, Some(now), None)],
          incidents := if row.status == New then t.incidents[i := row.(status := CollectingEvidence)] else t.incidents)
  }

  function SetRun(t: Tables, run: Id, row: AgentRun): Tables {
    t.(runs := t.runs[run := row])
  }

  /** Ends a run with the given status. */
  function FinishRun(t: Tables, run: Id, status: RunStatus, now: int): Tables
    requires run in t.runs
  {
    var row := t.runs[run];
    SetRun(t, run, row.(status := status, finishedAt := Some(now),
                        startedAt := if row.startedAt.Some? then row.startedAt else Some(now)))
  }

  /** What has been committed after some of the sources. */
  datatype Pass = Pass(tables: Tables, results: seq<SourceRead>, evidence: seq<Id>, raised: bool)

  function CollectSource(p: Pass, run: Id, s: Source): Pass
    requires run in p.tables.runs
  {
    match s.attempt
    case Raised => p.(raised := true)
    case ConnectorFailed(retryable) =>
      var called := RecordToolCall(p.tables, run, s.kind, false);
      Pass(called.tables, p.results + [SourceRead(s.kind, s.name, false, called.value, None, Some(retryable))],
           p.evidence, false)
    case Fetched =>
      var called := RecordToolCall(p.tables, run, s.kind, true);
      var stored := RecordEvidence(called.tables, run, Some(called.value), s.kind, s.name);
      Pass(stored.tables,
           p.results + [SourceRead(s.kind, s.name, true, called.value, Some(stored.value), None)],
           p.evidence + [stored.value], false)
  }

  /** The pass over the first n sources. */
  function CollectSources(t: Tables, run: Id, sources: seq<Source>, n: nat): (p: Pass)
    requires run in t.runs && n <= |sources|
    ensures p.tables.runs == t.runs && p.tables.incidents == t.incidents
    ensures forall e :: e in p.evidence ==> e in p.tables.evidence
  {
    if n == 0 then Pass(t, [], [], false)
    else
      var before := CollectSources(t, run, sources, n - 1);
      if before.raised then before else CollectSource(before, run, sources[n - 1])
  }

  datatype CollectResponse = CollectResponse(
    run: Id, status: RunStatus, start: int, end: int, results: seq<SourceRead>, evidence: seq<Id>)

  /** Collected, refused before any write, or raised in the middle with the given committed tables. */
  datatype CollectResult =
    | Collected(tables: Tables, response: CollectResponse)
    | NotCollected(error: Error)
    | Interrupted(tables: Tables)

  predicate ServiceExists(t: Tables, service: Id) {
    exists s :: s in t.services && t.services[s] == service
  }

  function CollectIncidentEvidence(
    t: Tables, i: Id, req: CollectRequest, sources: seq<Source>, now: int): (r: CollectResult)
    ensures r.Collected? ==>
      i in r.tables.incidents && r.response.run in r.tables.runs &&
      forall e :: e in r.response.evidence ==> e in r.tables.evidence
  {
    if i !in t.incidents then NotCollected(IncidentNotFound)
    else if !ServiceExists(t, t.incidents[i].service) then NotCollected(ServiceNotFound)
    else
      var (start, end) := Window(t.incidents[i].startedAt, req, now);
      var run := t.nextId;
      var p := CollectSources(StartRun(t, i, now), run, QueriedAll(sources, start, end), |sources|);
      if p.raised then Interrupted(p.tables)
      else
        var status := if p.evidence != [] then RunCompleted else RunInsufficient;
        Collected(FinishRun(p.tables, run, status, now), CollectResponse(run, status, start, end, p.results, p.evidence))
  }

  /******* Window *******/

  /** Moment x lies in the incident, and in the lookback before the end. */
  predicate Wanted(x: int, incidentStart: int, lookback: nat, end: int) {
    incidentStart <= x && end - lookback <= x
  }

  /** The widest window that starts no earlier than the incident, and is no wider than the lookback. */
  predicate IsWidestWindow(incidentStart: int, lookback: nat, start: int, end: int) {
    incidentStart <= start && end - lookback <= start && (start == incidentStart || start == end - lookback)
  }

  /** The window ends when asked, and leaves out no moment that lies in the incident and in the lookback. */
  lemma WindowBounds(incidentStart: int, req: CollectRequest, now: int)
    ensures var (start, end) := Window(incidentStart, req, now);
      IsWidestWindow(incidentStart, req.lookback, start, end) &&
      end == (if req.endAt.Some? then req.endAt.value else now) &&
      (forall x :: Wanted(x, incidentStart, req.lookback, end) ==> start <= x) &&
      (end < start <==> end < incidentStart)
  {}

  /** The window that a collection answers, and in which it queried its sources. */
  lemma CollectedWindowIsExact(t: Tables, i: Id, req: CollectRequest, sources: seq<Source>, now: int)
    requires CollectIncidentEvidence(t, i, req, sources, now).Collected?
    ensures i in t.incidents
    ensures var r := CollectIncidentEvidence(t, i, req, sources, now).response;
      r.end == (if req.endAt.Some? then req.endAt.value else now) &&
      IsWidestWindow(t.incidents[i].startedAt, req.lookback, r.start, r.end) &&
      (forall x :: Wanted(x, t.incidents[i].startedAt, req.lookback, r.end) ==> r.start <= x) &&
      (sources != [] ==> r.start <= r.end)
  {
    hide CollectSource, FinishRun;
    var (start, end) := Window(t.incidents[i].startedAt, req, now);
    var queried := QueriedAll(sources, start, end);
    RaisedExactly(StartRun(t, i, now), t.nextId, queried, |sources|);
    if sources != [] {
      assert !queried[0].attempt.Raised?;
    }
  }

  /******* Conservation *******/

  /** Read k of the pass and the rows it left. */
  predicate ReadMatches(t: Tables, run: Id, s: Source, r: SourceRead) {
    && r.kind == s.kind && r.name == s.name && r.succeeded == s.attempt.Fetched?
    && r.toolCall in t.toolCalls && t.toolCalls[r.toolCall] == ToolCall(run, s.kind, r.succeeded)
    && run in t.runs
    && (r.evidence.Some? <==> r.succeeded)
    && (r.evidence.Some? ==>
         r.evidence.value in t.evidence &&
         t.evidence[r.evidence.value] == Evidence(t.runs[run].incident, run, Some(r.toolCall), s.kind, s.name))
  }

  /** The evidence ids of the successful results, in order. */
  function EvidenceOf(results: seq<SourceRead>): seq<Id> {
    if results == [] then []
    else
      var last := results[|results| - 1];
      EvidenceOf(results[..|results| - 1]) + (if last.evidence.Some? then [last.evidence.value] else [])
  }

  function CallsOf(results: seq<SourceRead>): seq<Id> {
    seq(|results|, k requires 0 <= k < |results| => results[k].toolCall)
  }

  function CallsOfRun(t: Tables, run: Id): set<Id> {
    set c | c in t.toolCalls && t.toolCalls[c].run == run
  }

  /** A run nothing was recorded for yet, in a table with fresh ids. */
  ghost predicate UnusedRun(t: Tables, run: Id) {
    && run in t.runs
    && (forall c :: c in t.toolCalls ==> c < t.nextId && t.toolCalls[c].run != run)
    && (forall e :: e in t.evidence ==> e < t.nextId && t.evidence[e].run != run)
  }

  /** One tool call per source in order, one evidence row per success, and nothing else for the run. */
  ghost predicate Ledger(run: Id, sources: seq<Source>, p: Pass) {
    && |p.results| <= |sources|
    && (forall k :: 0 <= k < |p.results| ==> ReadMatches(p.tables, run, sources[k], p.results[k]))
    && (forall j, k :: 0 <= j < k < |p.results| ==> p.results[j].toolCall < p.results[k].toolCall)
    && CallsOfRun(p.tables, run) == (set c | c in CallsOf(p.results))
    && p.evidence == EvidenceOf(p.results)
    && EvidenceOfRun(p.tables, run) == (set e | e in p.evidence)
    && (forall k :: 0 <= k < |p.results| ==> p.results[k].toolCall < p.tables.nextId)
    && (forall e :: e in p.tables.evidence ==> e < p.tables.nextId)
    && (forall c :: c in p.tables.toolCalls ==> c < p.tables.nextId)
  }

  /** No earlier row is lost or changed. */
  ghost predicate KeepsRows(t: Tables, t': Tables) {
    && (forall c :: c in t.toolCalls ==> c in t'.toolCalls && t'.toolCalls[c] == t.toolCalls[c])
    && (forall e :: e in t.evidence ==> e in t'.evidence && t'.evidence[e] == t.evidence[e])
    && t'.runs == t.runs && t'.incidents == t.incidents && t'.approvals == t.approvals && t.nextId <= t'.nextId
  }

  lemma CallKeepsRows(t: Tables, run: Id, source: SourceType, ok: bool)
    requires run in t.runs && forall c :: c in t.toolCalls ==> c < t.nextId
    ensures KeepsRows(t, RecordToolCall(t, run, source, ok).tables)
  {}

  lemma EvidenceKeepsRows(t: Tables, run: Id, call: Id, source: SourceType, name: string)
    requires run in t.runs && forall e :: e in t.evidence ==> e < t.nextId
    requires UsableToolCall(t, run, Some(call))
    ensures KeepsRows(t, RecordEvidence(t, run, Some(call), source, name).tables)
  {}

  lemma SourceKeepsRows(p: Pass, run: Id, s: Source)
    requires run in p.tables.runs
    requires forall c :: c in p.tables.toolCalls ==> c < p.tables.nextId
    requires forall e :: e in p.tables.evidence ==> e < p.tables.nextId
    ensures KeepsRows(p.tables, CollectSource(p, run, s).tables)
  {
    var called := RecordToolCall(p.tables, run, s.kind, s.attempt.Fetched?);
    CallKeepsRows(p.tables, run, s.kind, s.attempt.Fetched?);
    if s.attempt.Fetched? {
      EvidenceKeepsRows(called.tables, run, called.value, s.kind, s.name);
      KeepingIsTransitive(p.tables, called.tables, CollectSource(p, run, s).tables);
    }
  }

  lemma KeepingIsTransitive(t: Tables, u: Tables, v: Tables)
    requires KeepsRows(t, u) && KeepsRows(u, v)
    ensures KeepsRows(t, v)
  {}

  lemma ReadStays(t: Tables, t': Tables, run: Id, s: Source, r: SourceRead)
    requires KeepsRows(t, t') && ReadMatches(t, run, s, r)
    ensures ReadMatches(t', run, s, r)
  {}

  lemma FailedSourceKeepsLedger(run: Id, sources: seq<Source>, p: Pass)
    requires run in p.tables.runs && Ledger(run, sources, p) && |p.results| < |sources|
    requires sources[|p.results|].attempt.ConnectorFailed?
    ensures Ledger(run, sources, CollectSource(p, run, sources[|p.results|]))
    ensures |CollectSource(p, run, sources[|p.results|]).results| == |p.results| + 1
  {
    var p' := CollectSource(p, run, sources[|p.results|]);
    var last := p'.results[|p.results|];
    SourceKeepsRows(p, run, sources[|p.results|]);
    assert p'.results[..|p.results|] == p.results;
    forall k | 0 <= k < |p'.results| ensures ReadMatches(p'.tables, run, sources[k], p'.results[k]) {
      if k < |p.results| { ReadStays(p.tables, p'.tables, run, sources[k], p.results[k]); }
    }
    assert CallsOfRun(p'.tables, run) == CallsOfRun(p.tables, run) + {last.toolCall};
    assert CallsOf(p'.results) == CallsOf(p.results) + [last.toolCall];
    assert EvidenceOfRun(p'.tables, run) == EvidenceOfRun(p.tables, run);
  }

  lemma FetchedRowsAreNew(p: Pass, run: Id, s: Source)
    requires run in p.tables.runs && s.attempt.Fetched?
    requires forall c :: c in p.tables.toolCalls ==> c < p.tables.nextId
    requires forall e :: e in p.tables.evidence ==> e < p.tables.nextId
    ensures var t' := CollectSource(p, run, s).tables;
      CallsOfRun(t', run) == CallsOfRun(p.tables, run) + {p.tables.nextId} &&
      EvidenceOfRun(t', run) == EvidenceOfRun(p.tables, run) + {p.tables.nextId + 1}
  {}

  lemma FetchedSourceKeepsLedger(run: Id, sources: seq<Source>, p: Pass)
    requires run in p.tables.runs && Ledger(run, sources, p) && |p.results| < |sources|
    requires sources[|p.results|].attempt.Fetched?
    ensures Ledger(run, sources, CollectSource(p, run, sources[|p.results|]))
    ensures |CollectSource(p, run, sources[|p.results|]).results| == |p.results| + 1
  {
    FetchedRowsAreNew(p, run, sources[|p.results|]);
    var p' := CollectSource(p, run, sources[|p.results|]);
    var last := p'.results[|p.results|];
    SourceKeepsRows(p, run, sources[|p.results|]);
    assert p'.results[..|p.results|] == p.results;
    forall k | 0 <= k < |p'.results| ensures ReadMatches(p'.tables, run, sources[k], p'.results[k]) {
      if k < |p.results| { ReadStays(p.tables, p'.tables, run, sources[k], p.results[k]); }
    }
    assert CallsOf(p'.results) == CallsOf(p.results) + [last.toolCall];
    assert (set e | e in p'.evidence) == (set e | e in p.evidence) + {last.evidence.value};
  }

  /** For any sources and any pattern of failures, as long as nothing raised. */
  lemma {:induction false} CollectionIsConserved(t: Tables, run: Id, sources: seq<Source>, n: nat)
    requires UnusedRun(t, run) && n <= |sources|
    ensures var p := CollectSources(t, run, sources, n);
      Ledger(run, sources, p) && KeepsRows(t, p.tables) && (!p.raised ==> |p.results| == n)
  {
    hide CollectSource, Ledger, KeepsRows;
    if n > 0 {
      CollectionIsConserved(t, run, sources, n - 1);
      var before := CollectSources(t, run, sources, n - 1);
      if !before.raised {
        LedgerBounds(run, sources, before);
        SourceKeepsRows(before, run, sources[n - 1]);
        KeepingIsTransitive(t, before.tables, CollectSource(before, run, sources[n - 1]).tables);
        match sources[n - 1].attempt
        case Raised => RaisedSourceKeepsLedger(run, sources, before);
        case ConnectorFailed(_) => FailedSourceKeepsLedger(run, sources, before);
        case Fetched => FetchedSourceKeepsLedger(run, sources, before);
      }
    } else {
      UnusedRunStartsLedger(t, run, sources);
    }
  }

  lemma UnusedRunStartsLedger(t: Tables, run: Id, sources: seq<Source>)
    requires UnusedRun(t, run)
    ensures Ledger(run, sources, Pass(t, [], [], false)) && KeepsRows(t, t)
  {
    assert CallsOfRun(t, run) == {} && EvidenceOfRun(t, run) == {};
  }

  lemma RaisedSourceKeepsLedger(run: Id, sources: seq<Source>, p: Pass)
    requires run in p.tables.runs && Ledger(run, sources, p) && |p.results| < |sources|
    requires sources[|p.results|].attempt.Raised?
    ensures Ledger(run, sources, CollectSource(p, run, sources[|p.results|]))
    ensures CollectSource(p, run, sources[|p.results|]).raised
  {}

  lemma LedgerBounds(run: Id, sources: seq<Source>, p: Pass)
    requires Ledger(run, sources, p)
    ensures |p.results| <= |sources|
    ensures forall c :: c in p.tables.toolCalls ==> c < p.tables.nextId
    ensures forall e :: e in p.tables.evidence ==> e < p.tables.nextId
  {}

  /** A pass ends early exactly when some source raises something other than a connector error. */
  lemma {:induction false} RaisedExactly(t: Tables, run: Id, sources: seq<Source>, n: nat)
    requires run in t.runs && n <= |sources|
    ensures CollectSources(t, run, sources, n).raised <==> exists k :: 0 <= k < n && sources[k].attempt.Raised?
  {
    if n > 0 {
      RaisedExactly(t, run, sources, n - 1);
      assert sources[n - 1].attempt.Raised? ==> 0 <= n - 1 < n;
    }
  }
}
