/**
  What every reachable store keeps about alerts and incidents: the partition of alerts into
  incidents, the shape of each incident in time, the spacing of incidents, and the timeline.
 */
module Correlation {
  import opened Base
  import opened Schema
  import opened Ingestion

  /******* Timeline replay *******/

  /** What a reader of the timeline knows after a prefix of the events. */
  datatype Replay = Replay(
    alerts: set<Id>, severity: Option<Severity>, created: nat, correlated: nat, escalations: nat, consistent: bool)

  const BLANK := Replay({}, None, 0, 0, 0, true)

  function Read(r: Replay, what: Happening): Replay {
    match what
    case IncidentCreated(a, severity) =>
      r.(alerts := r.alerts + {a}, severity := Some(severity), created := r.created + 1,
         consistent := r.consistent && r == BLANK)
    case AlertCorrelated(a) =>
      r.(alerts := r.alerts + {a}, correlated := r.correlated + 1,
         consistent := r.consistent && a !in r.alerts)
    case SeverityEscalated(from, to) =>
      r.(severity := Some(to), escalations := r.escalations + 1,
         consistent := r.consistent && r.severity == Some(from) && Rank(from) < Rank(to))
    case _ => r
  }

  /** Folds the events of incident i in insertion order. */
  function ReplayOf(events: seq<Event>, i: Id): Replay {
    if events == [] then BLANK
    else
      var before := ReplayOf(events[..|events| - 1], i);
      var last := events[|events| - 1];
      if last.incident == i then Read(before, last.what) else before
  }

  lemma ReplayAppend(events: seq<Event>, e: Event, i: Id)
    ensures ReplayOf(events + [e], i) ==
      if e.incident == i then Read(ReplayOf(events, i), e.what) else ReplayOf(events, i)
  {
    assert (events + [e])[..|events|] == events;
  }

  /** Events that say nothing about alerts or severity. */
  predicate Neutral(e: Event) {
    !e.what.IncidentCreated? && !e.what.AlertCorrelated? && !e.what.SeverityEscalated?
  }

  lemma {:induction false} ReplaySkipsNeutral(events: seq<Event>, more: seq<Event>, i: Id)
    requires forall e :: e in more ==> Neutral(e)
    ensures ReplayOf(events + more, i) == ReplayOf(events, i)
    decreases |more|
  {
    if more == [] {
      assert events + more == events;
    } else {
      var e, front := more[|more| - 1], more[..|more| - 1];
      assert e in more;
      ReplaySkipsNeutral(events, front, i);
      assert events + more == (events + front) + [e];
      ReplayAppend(events + front, e, i);
    }
  }

  /******* Start times of one incident *******/

  ghost function Starts(t: Tables, i: Id): set<int> {
    set l | l in t.links && l.incident == i && l.alert in t.alerts :: t.alerts[l.alert].startedAt
  }

  /** From every member but the greatest, another one follows within w. */
  ghost predicate GapFree(s: set<int>, w: int) {
    forall a, b :: a in s && b in s && a < b ==> exists c :: c in s && a < c <= a + w
  }

  /** The greatest member at or below x. */
  lemma {:induction false} Floor(s: set<int>, x: int, n: int) returns (m: int)
    requires n in s && n <= x
    ensures m in s && n <= m <= x && forall c :: c in s && m < c ==> x < c
    decreases x - n
  {
    if c :| c in s && n < c <= x {
      m := Floor(s, x, c);
    } else {
      m := n;
    }
  }

  lemma GapFreeInsert(s: set<int>, x: int, n: int, w: int)
    requires GapFree(s, w) && n in s && n - w <= x <= n + w
    ensures GapFree(s + {x}, w)
  {
    forall a, b | a in s + {x} && b in s + {x} && a < b
      ensures exists c :: c in s + {x} && a < c <= a + w
    {
      if a != x {
        var c :| c in s + {x} && a < c && (c == x || (c in s && c <= a + w)) by { NextOrNew(s, x, n, w, a, b); }
        if c == x && a + w < x {
          assert a < n;
          var d :| d in s && a < d <= a + w;
        }
      } else if n > x {
        assert n in s + {x};
      } else {
        var m := Floor(s, x, n);
        var c :| c in s && m < c <= m + w;
      }
    }
  }

  lemma NextOrNew(s: set<int>, x: int, n: int, w: int, a: int, b: int)
    requires GapFree(s, w) && a in s && b in s + {x} && a < b
    ensures exists c :: c in s + {x} && a < c && (c == x || (c in s && c <= a + w))
  {
    if b in s {
      var c :| c in s && a < c <= a + w;
      assert c in s + {x};
    } else {
      assert b in s + {x};
    }
  }

  /******* The invariant *******/

  ghost predicate AlertIdsBelow(t: Tables) {
    && (forall s :: s in t.services ==> t.services[s] < t.nextId)
    && (forall a :: a in t.alerts ==> a < t.nextId)
    && (forall i :: i in t.incidents ==> i < t.nextId)
  }

  /** Service names and service rows correspond one to one. */
  ghost predicate ServicesDistinct(t: Tables) {
    forall s, u :: s in t.services && u in t.services && t.services[s] == t.services[u] ==> s == u
  }

  ghost predicate KnownService(t: Tables, service: Id) {
    exists s :: s in t.services && t.services[s] == service
  }

  ghost predicate ServicesKnown(t: Tables) {
    forall i :: i in t.incidents ==> KnownService(t, t.incidents[i].service)
  }

  /** A link joins an existing alert to an existing incident of the same service, at least as severe. */
  ghost predicate LinksFit(t: Tables) {
    forall l :: l in t.links ==>
      l.incident in t.incidents && l.alert in t.alerts &&
      t.alerts[l.alert].service == t.incidents[l.incident].service &&
      Rank(t.alerts[l.alert].severity) <= Rank(t.incidents[l.incident].severity)
  }

  ghost predicate HasLink(t: Tables, a: Id) {
    exists l :: l in t.links && l.alert == a
  }

  /** Every alert is in exactly one incident. */
  ghost predicate Partitioned(t: Tables) {
    && (forall a :: a in t.alerts ==> HasLink(t, a))
    && (forall l, m :: l in t.links && m in t.links && l.alert == m.alert ==> l == m)
  }

  ghost predicate OneKindEach(t: Tables) {
    forall l, m :: l in t.links && m in t.links && l.incident == m.incident ==>
      l.alert in t.alerts && m.alert in t.alerts ==> t.alerts[l.alert].kind == t.alerts[m.alert].kind
  }

  ghost predicate ExternalIdsUnique(t: Tables) {
    forall a, b :: a in t.alerts && b in t.alerts && t.alerts[a].externalId.Some? ==>
      t.alerts[a].externalId == t.alerts[b].externalId ==> a == b
  }

  /** Some linked alert is as severe as the incident. */
  ghost predicate SeverityAttained(t: Tables, i: Id)
    requires i in t.incidents
  {
    exists l :: l in t.links && l.incident == i && l.alert in t.alerts &&
      t.alerts[l.alert].severity == t.incidents[i].severity
  }

  /** Some linked alert started when the incident started: the one that opened it. */
  ghost predicate OpenedByAlert(t: Tables, i: Id)
    requires i in t.incidents
  {
    exists l :: l in t.links && l.incident == i && l.alert in t.alerts &&
      t.alerts[l.alert].startedAt == t.incidents[i].startedAt
  }

  ghost predicate Chained(t: Tables, i: Id, w: int) {
    && GapFree(Starts(t, i), w)
    && (forall a, b :: a in Linked(t, i) && b in Linked(t, i) && a != b ==> 0 <= w)
  }

  ghost predicate TimelineTells(t: Tables, i: Id)
    requires i in t.incidents
  {
    var r := ReplayOf(t.events, i);
    && r.alerts == Linked(t, i)
    && r.severity == Some(t.incidents[i].severity)
    && r.created == 1
    && r.correlated == |Linked(t, i)| - 1
    && r.escalations <= Rank(t.incidents[i].severity)
    && r.consistent
  }

  ghost predicate IncidentSound(t: Tables, i: Id, w: int)
    requires i in t.incidents
  {
    SeverityAttained(t, i) && OpenedByAlert(t, i) && Chained(t, i, w) && TimelineTells(t, i)
  }

  ghost predicate IncidentsSound(t: Tables, w: int) {
    forall i :: i in t.incidents ==> IncidentSound(t, i, w)
  }

  ghost predicate NoStrayEvents(t: Tables) {
    forall i :: i !in t.incidents ==> ReplayOf(t.events, i) == BLANK
  }

  /** Two incidents of one service and alert kind that start within w: one was closed by then. */
  ghost predicate Spaced(t: Tables, w: int) {
    forall l, m :: l in t.links && m in t.links && l.incident != m.incident && CloseStarts(t, l, m, w) ==>
      Closed(t, l.incident) || Closed(t, m.incident)
  }

  ghost predicate CloseStarts(t: Tables, l: Link, m: Link, w: int) {
    && l.alert in t.alerts && m.alert in t.alerts && l.incident in t.incidents && m.incident in t.incidents
    && t.alerts[l.alert].service == t.alerts[m.alert].service
    && t.alerts[l.alert].kind == t.alerts[m.alert].kind
    && -w <= t.incidents[l.incident].startedAt - t.incidents[m.incident].startedAt <= w
  }

  ghost predicate Correlated(t: Tables, w: int) {
    && AlertIdsBelow(t) && ServicesDistinct(t) && ServicesKnown(t) && LinksFit(t) && Partitioned(t)
    && OneKindEach(t)
    && ExternalIdsUnique(t) && IncidentsSound(t, w) && NoStrayEvents(t) && Spaced(t, w)
  }

  /** A terminal status is always the trace of a rejected or executed approval. */
  ghost predicate TerminalIsClosed(t: Tables) {
    forall i :: i in t.incidents && Terminal(t.incidents[i].status) ==> Closed(t, i)
  }

  /******* Opening an incident *******/

  lemma LinkedAfter(t: Tables, t': Tables, i: Id, a: Id)
    requires t'.links == t.links + {Link(i, a)}
    ensures Linked(t', i) == Linked(t, i) + {a}
    ensures forall j :: j != i ==> Linked(t', j) == Linked(t, j)
  {
    assert Link(i, a) in t'.links;
    forall j | j != i ensures Linked(t', j) == Linked(t, j) {
      forall x ensures x in Linked(t', j) <==> x in Linked(t, j) {}
    }
    forall x ensures x in Linked(t', i) <==> x in Linked(t, i) + {a} {}
  }

  lemma StartsAfter(t: Tables, t': Tables, i: Id, a: Id)
    requires t'.links == t.links + {Link(i, a)} && LinksFit(t)
    requires a !in t.alerts && t'.alerts.Keys == t.alerts.Keys + {a}
    requires forall b :: b in t.alerts ==> t'.alerts[b] == t.alerts[b]
    ensures Starts(t', i) == Starts(t, i) + {t'.alerts[a].startedAt}
    ensures forall j :: j != i ==> Starts(t', j) == Starts(t, j)
  {
    assert Link(i, a) in t'.links;
    forall j | j != i ensures Starts(t', j) == Starts(t, j) {
      forall x ensures x in Starts(t', j) <==> x in Starts(t, j) {}
    }
    forall x ensures x in Starts(t', i) <==> x in Starts(t, i) + {t'.alerts[a].startedAt} {}
  }

  lemma ServicesStayKnown(t: Tables, t': Tables)
    requires ServicesKnown(t)
    requires forall s :: s in t.services ==> s in t'.services && t'.services[s] == t.services[s]
    requires forall i :: i in t'.incidents ==>
      (i in t.incidents && t'.incidents[i].service == t.incidents[i].service) ||
      KnownService(t', t'.incidents[i].service)
    ensures ServicesKnown(t')
  {
    forall i | i in t'.incidents ensures KnownService(t', t'.incidents[i].service) {
      if i in t.incidents && t'.incidents[i].service == t.incidents[i].service {
        assert KnownService(t, t.incidents[i].service);
        var s :| s in t.services && t.services[s] == t.incidents[i].service;
        assert s in t'.services;
      }
    }
  }

  /** t' is t with one more service. */
  ghost predicate ServiceAdded(t: Tables, t': Tables, name: string) {
    name !in t.services && t' == t.(services := t.services[name := t.nextId], nextId := t.nextId + 1)
  }

  lemma AddedServiceIsDistinct(t: Tables, t': Tables, name: string)
    requires ServiceAdded(t, t', name) && AlertIdsBelow(t) && ServicesDistinct(t) && ServicesKnown(t)
    ensures AlertIdsBelow(t') && ServicesDistinct(t') && ServicesKnown(t') && KnownService(t', t.nextId)
  {
    ServicesStayKnown(t, t');
    assert name in t'.services;
  }

  lemma NewServicePreserves(t: Tables, t': Tables, name: string, w: int)
    requires ServiceAdded(t, t', name) && Correlated(t, w)
    ensures Correlated(t', w) && KnownService(t', t.nextId)
  {
    AddedServiceIsDistinct(t, t', name);
    ClosedKept(t, t');
    AlertsUntouched(t, t', w);
  }

  /** What an incoming alert must satisfy when the duplicate lookup found nothing. */
  ghost predicate Fresh(t: Tables, alert: Alert) {
    !ExternalIdTaken(t, alert.externalId)
  }

  lemma OpenKeepsLinks(t: Tables, alert: Alert)
    requires AlertIdsBelow(t) && LinksFit(t)
    ensures AlertIdsBelow(OpenIncident(t, alert)) && LinksFit(OpenIncident(t, alert))
  {}

  lemma OpenKeepsPartition(t: Tables, alert: Alert)
    requires AlertIdsBelow(t) && LinksFit(t) && Partitioned(t)
    ensures Partitioned(OpenIncident(t, alert))
  {
    var t' := OpenIncident(t, alert);
    var a, i := t.nextId, t.nextId + 1;
    assert Link(i, a) in t'.links;
    forall b | b in t'.alerts ensures HasLink(t', b) {
      if b != a {
        assert HasLink(t, b);
        var l :| l in t.links && l.alert == b;
        assert l in t'.links;
      }
    }
  }

  lemma OpenKeepsKinds(t: Tables, alert: Alert)
    requires AlertIdsBelow(t) && LinksFit(t) && OneKindEach(t)
    ensures OneKindEach(OpenIncident(t, alert))
  {
    var t' := OpenIncident(t, alert);
    forall l, m | l in t'.links && m in t'.links && l.incident == m.incident
      ensures l.alert in t'.alerts && m.alert in t'.alerts ==> t'.alerts[l.alert].kind == t'.alerts[m.alert].kind
    {
      if l in t.links && m in t.links {
        assert l.alert in t.alerts && m.alert in t.alerts;
      }
    }
  }

  lemma StoringKeepsExternalIds(t: Tables, t': Tables, alert: Alert)
    requires AlertIdsBelow(t) && ExternalIdsUnique(t) && Fresh(t, alert)
    requires t'.alerts == t.alerts[t.nextId := alert]
    ensures ExternalIdsUnique(t')
  {
    forall a, b | a in t'.alerts && b in t'.alerts && t'.alerts[a].externalId.Some? &&
                  t'.alerts[a].externalId == t'.alerts[b].externalId
      ensures a == b
    {
    }
  }

  lemma OpenKeepsTimelines(t: Tables, alert: Alert)
    ensures var t', i := OpenIncident(t, alert), t.nextId + 1;
      forall j :: ReplayOf(t'.events, j) ==
        if j == i then Read(ReplayOf(t.events, i), IncidentCreated(t.nextId, alert.severity)) else ReplayOf(t.events, j)
  {
    forall j {
      ReplayAppend(t.events, Event(t.nextId + 1, IncidentCreated(t.nextId, alert.severity)), j);
    }
  }

  lemma OpenKeepsIncidents(t: Tables, alert: Alert, w: int)
    requires AlertIdsBelow(t) && LinksFit(t) && IncidentsSound(t, w) && NoStrayEvents(t)
    ensures IncidentsSound(OpenIncident(t, alert), w) && NoStrayEvents(OpenIncident(t, alert))
  {
    var t' := OpenIncident(t, alert);
    var a, i := t.nextId, t.nextId + 1;
    LinkedAfter(t, t', i, a);
    StartsAfter(t, t', i, a);
    OpenKeepsTimelines(t, alert);
    forall j | j in t'.incidents
      ensures IncidentSound(t', j, w)
    {
      if j == i {
        NewIncidentIsSound(t, alert, w);
      } else {
        KeepsOldIncident(t, t', j, w);
      }
    }
  }

  lemma NothingLinkedYet(t: Tables, i: Id)
    requires AlertIdsBelow(t) && LinksFit(t) && i >= t.nextId
    ensures Linked(t, i) == {} && Starts(t, i) == {}
  {}

  lemma NewIncidentTimeline(t: Tables, alert: Alert)
    requires AlertIdsBelow(t) && LinksFit(t) && NoStrayEvents(t)
    ensures TimelineTells(OpenIncident(t, alert), t.nextId + 1)
  {
    var t' := OpenIncident(t, alert);
    NothingLinkedYet(t, t.nextId + 1);
    LinkedAfter(t, t', t.nextId + 1, t.nextId);
    OpenKeepsTimelines(t, alert);
    hide Linked, ReplayOf;
    assert ReplayOf(t.events, t.nextId + 1) == BLANK;
  }

  lemma NewIncidentChain(t: Tables, alert: Alert, w: int)
    requires AlertIdsBelow(t) && LinksFit(t)
    ensures Chained(OpenIncident(t, alert), t.nextId + 1, w)
  {
    var t' := OpenIncident(t, alert);
    NothingLinkedYet(t, t.nextId + 1);
    LinkedAfter(t, t', t.nextId + 1, t.nextId);
    StartsAfter(t, t', t.nextId + 1, t.nextId);
    hide Linked, Starts;
  }

  lemma NewIncidentIsSound(t: Tables, alert: Alert, w: int)
    requires AlertIdsBelow(t) && LinksFit(t) && NoStrayEvents(t)
    ensures IncidentSound(OpenIncident(t, alert), t.nextId + 1, w)
  {
    var t' := OpenIncident(t, alert);
    assert Link(t.nextId + 1, t.nextId) in t'.links;
    NewIncidentTimeline(t, alert);
    NewIncidentChain(t, alert, w);
    hide TimelineTells, Chained, AlertIdsBelow, LinksFit, NoStrayEvents;
  }

  /** An incident that gains no alert and no event of its own stays sound. */
  lemma KeepsOldIncident(t: Tables, t': Tables, j: Id, w: int)
    requires j in t.incidents && j in t'.incidents
    requires t'.incidents[j].severity == t.incidents[j].severity
    requires t'.incidents[j].startedAt == t.incidents[j].startedAt
    requires t.links <= t'.links && Linked(t', j) == Linked(t, j) && Starts(t', j) == Starts(t, j)
    requires forall b :: b in t.alerts ==> b in t'.alerts && t'.alerts[b] == t.alerts[b]
    requires ReplayOf(t'.events, j) == ReplayOf(t.events, j)
    requires IncidentSound(t, j, w)
    ensures IncidentSound(t', j, w)
  {
    var l :| l in t.links && l.incident == j && l.alert in t.alerts &&
      t.alerts[l.alert].severity == t.incidents[j].severity;
    assert l in t'.links;
    var m :| m in t.links && m.incident == j && m.alert in t.alerts &&
      t.alerts[m.alert].startedAt == t.incidents[j].startedAt;
    assert m in t'.links;
  }

  /** The point of the window search: a new incident starts apart from every open one of its kind. */
  lemma OpenPreservesSpacing(t: Tables, alert: Alert, w: int, choose: RowChoice)
    requires AlertIdsBelow(t) && LinksFit(t) && OneKindEach(t) && Spaced(t, w) && TerminalIsClosed(t)
    requires forall i :: i in t.incidents ==> OpenedByAlert(t, i)
    requires FindCorrelatedIncident(t, alert.service, alert.kind, alert.startedAt, w, choose).None?
    ensures Spaced(OpenIncident(t, alert), w)
  {
    var t' := OpenIncident(t, alert);
    var a, i := t.nextId, t.nextId + 1;
    NothingCorrelates(t, alert.service, alert.kind, alert.startedAt, w);
    ClosedKept(t, t');
    forall l, m | l in t'.links && m in t'.links && l.incident != m.incident && CloseStarts(t', l, m, w)
      ensures Closed(t', l.incident) || Closed(t', m.incident)
    {
      if l == Link(i, a) {
        OpenNeighbourIsClosed(t, alert, m, w);
      } else if m == Link(i, a) {
        OpenNeighbourIsClosed(t, alert, l, w);
      } else {
        assert CloseStarts(t, l, m, w);
      }
    }
  }

  lemma ClosedKept(t: Tables, t': Tables)
    requires t'.approvals == t.approvals && t'.runs == t.runs
    ensures forall j :: Closed(t', j) <==> Closed(t, j)
  {
    forall j, p ensures ApprovalOf(t', p, j) <==> ApprovalOf(t, p, j) {}
  }

  /** An incident of the same service and kind that starts within w, when none correlates. */
  lemma OpenNeighbourIsClosed(t: Tables, alert: Alert, m: Link, w: int)
    requires LinksFit(t) && OneKindEach(t) && TerminalIsClosed(t) && m in t.links
    requires m.incident in t.incidents && OpenedByAlert(t, m.incident)
    requires t.alerts[m.alert].service == alert.service && t.alerts[m.alert].kind == alert.kind
    requires -w <= alert.startedAt - t.incidents[m.incident].startedAt <= w
    requires !Correlates(t, m.incident, alert.service, alert.kind, alert.startedAt, w)
    ensures Closed(t, m.incident)
  {
    assert OpenedByAlert(t, m.incident);
    var opener :| opener in t.links && opener.incident == m.incident && opener.alert in t.alerts &&
      t.alerts[opener.alert].startedAt == t.incidents[m.incident].startedAt;
    assert t.alerts[opener.alert].kind == alert.kind;
  }

  lemma NothingCorrelates(t: Tables, service: Id, kind: string, at: int, w: int)
    requires LatestCorrelated(t, service, kind, at, w) == {}
    ensures forall j :: !Correlates(t, j, service, kind, at, w)
  {
    forall j ensures !Correlates(t, j, service, kind, at, w) {
      if Correlates(t, j, service, kind, at, w) {
        LatestIsFound(t, j, service, kind, at, w);
      }
    }
  }

  /** The window search misses nothing: a correlated incident implies a latest one. */
  lemma LatestIsFound(t: Tables, j: Id, service: Id, kind: string, at: int, w: int)
    requires Correlates(t, j, service, kind, at, w)
    ensures LatestCorrelated(t, service, kind, at, w) != {}
  {
    var all := set k | k in t.incidents && Correlates(t, k, service, kind, at, w);
    assert j in all;
    var latest := LatestStart(t, all);
    forall k | k in t.incidents && Correlates(t, k, service, kind, at, w)
      ensures t.incidents[k].startedAt <= t.incidents[latest].startedAt
    {
      assert k in all;
    }
    assert latest in LatestCorrelated(t, service, kind, at, w);
  }

  /** The query answers exactly when some incident correlates, and then with one that started last among them. */
  lemma FoundIsLatest(t: Tables, service: Id, kind: string, at: int, w: int, choose: RowChoice)
    ensures var found := FindCorrelatedIncident(t, service, kind, at, w, choose);
      (found.Some? <==> exists j :: Correlates(t, j, service, kind, at, w)) &&
      (found.Some? ==>
         Correlates(t, found.value, service, kind, at, w) &&
         forall j :: Correlates(t, j, service, kind, at, w) ==>
           t.incidents[j].startedAt <= t.incidents[found.value].startedAt)
  {
    var rows := LatestCorrelated(t, service, kind, at, w);
    assert FindCorrelatedIncident(t, service, kind, at, w, choose) == FirstRow(rows, choose);
    if j :| Correlates(t, j, service, kind, at, w) {
      LatestIsFound(t, j, service, kind, at, w);
    }
  }

  lemma {:induction false} LatestStart(t: Tables, rows: set<Id>) returns (latest: Id)
    requires rows != {} && forall j :: j in rows ==> j in t.incidents
    ensures latest in rows
    ensures forall j :: j in rows ==> t.incidents[j].startedAt <= t.incidents[latest].startedAt
    decreases |rows|
  {
    latest :| latest in rows;
    if rows != {latest} {
      var other := LatestStart(t, rows - {latest});
      if t.incidents[latest].startedAt < t.incidents[other].startedAt {
        latest := other;
      }
    }
  }

  /******* Joining an incident *******/

  /** The rows after an alert joined incident i. */
  ghost predicate Joins(t: Tables, t': Tables, alert: Alert, i: Id) {
    && i in t.incidents
    && t'.services == t.services && t'.runs == t.runs && t'.approvals == t.approvals
    && t'.alerts == t.alerts[t.nextId := alert]
    && t'.links == t.links + {Link(i, t.nextId)}
    && t'.nextId == t.nextId + 1
    && t'.incidents == t.incidents[i := t.incidents[i].(severity := Higher(t.incidents[i].severity, alert.severity))]
    && (forall j :: j != i ==> ReplayOf(t'.events, j) == ReplayOf(t.events, j))
    && ReplayOf(t'.events, i) == ReplayJoined(ReplayOf(t.events, i), t.nextId, t.incidents[i].severity, alert.severity)
  }

  function Higher(a: Severity, b: Severity): Severity {
    if Rank(b) <= Rank(a) then a else b
  }

  function ReplayJoined(r: Replay, a: Id, previous: Severity, severity: Severity): Replay {
    var joined := Read(r, AlertCorrelated(a));
    if Rank(severity) <= Rank(previous) then joined else Read(joined, SeverityEscalated(previous, severity))
  }

  lemma JoinReplay(events: seq<Event>, i: Id, joined: Happening, raised: Happening, j: Id)
    ensures ReplayOf(events + [Event(i, joined)], j) ==
      if j == i then Read(ReplayOf(events, i), joined) else ReplayOf(events, j)
    ensures ReplayOf(events + [Event(i, joined)] + [Event(i, raised)], j) ==
      if j == i then Read(Read(ReplayOf(events, i), joined), raised) else ReplayOf(events, j)
  {
    ReplayAppend(events, Event(i, joined), j);
    ReplayAppend(events + [Event(i, joined)], Event(i, raised), j);
  }

  lemma JoinShape(t: Tables, alert: Alert, i: Id)
    requires i in t.incidents
    ensures Joins(t, JoinIncident(t, alert, i), alert, i)
  {
    var t', previous := JoinIncident(t, alert, i), t.incidents[i].severity;
    var joined, raised := AlertCorrelated(t.nextId), SeverityEscalated(previous, alert.severity);
    assert Rank(alert.severity) <= Rank(previous) ==> t'.events == t.events + [Event(i, joined)];
    assert Rank(alert.severity) > Rank(previous) ==> t'.events == t.events + [Event(i, joined)] + [Event(i, raised)];
    forall j ensures ReplayOf(t'.events, j) ==
      if j == i then ReplayJoined(ReplayOf(t.events, i), t.nextId, previous, alert.severity) else ReplayOf(t.events, j)
    {
      JoinReplay(t.events, i, joined, raised, j);
    }
    assert t'.incidents == t.incidents[i := t.incidents[i].(severity := Higher(previous, alert.severity))];
  }

  lemma JoinKeepsLinks(t: Tables, t': Tables, alert: Alert, i: Id)
    requires Joins(t, t', alert, i)
    requires AlertIdsBelow(t) && LinksFit(t) && t.incidents[i].service == alert.service
    ensures AlertIdsBelow(t') && LinksFit(t')
  {
    forall l | l in t'.links
      ensures l.incident in t'.incidents && l.alert in t'.alerts
      ensures t'.alerts[l.alert].service == t'.incidents[l.incident].service
      ensures Rank(t'.alerts[l.alert].severity) <= Rank(t'.incidents[l.incident].severity)
    {
      if l in t.links { assert l.alert in t.alerts && l.incident in t.incidents; }
    }
  }

  lemma JoinKeepsPartition(t: Tables, t': Tables, alert: Alert, i: Id)
    requires Joins(t, t', alert, i)
    requires AlertIdsBelow(t) && LinksFit(t) && Partitioned(t)
    ensures Partitioned(t')
  {
    assert Link(i, t.nextId) in t'.links;
    forall b | b in t'.alerts ensures HasLink(t', b) {
      if b != t.nextId {
        assert HasLink(t, b);
        var l :| l in t.links && l.alert == b;
        assert l in t'.links;
      }
    }
  }

  lemma JoinKeepsKinds(t: Tables, t': Tables, alert: Alert, i: Id, neighbour: Link)
    requires Joins(t, t', alert, i)
    requires AlertIdsBelow(t) && LinksFit(t) && OneKindEach(t)
    requires neighbour in t.links && neighbour.incident == i && t.alerts[neighbour.alert].kind == alert.kind
    ensures OneKindEach(t')
  {
    forall l, m | l in t'.links && m in t'.links && l.incident == m.incident
      ensures l.alert in t'.alerts && m.alert in t'.alerts ==> t'.alerts[l.alert].kind == t'.alerts[m.alert].kind
    {
      var l0 := if l in t.links then l else neighbour;
      var m0 := if m in t.links then m else neighbour;
      assert t.alerts[l0.alert].kind == t.alerts[m0.alert].kind;
    }
  }

  lemma JoinedTimelineTells(t: Tables, t': Tables, alert: Alert, i: Id)
    requires Joins(t, t', alert, i) && AlertIdsBelow(t) && LinksFit(t)
    requires TimelineTells(t, i)
    ensures TimelineTells(t', i)
  {
    LinkedAfter(t, t', i, t.nextId);
    assert t.nextId !in Linked(t, i);
  }

  lemma JoinedIncidentIsChained(t: Tables, t': Tables, alert: Alert, i: Id, neighbour: Link, w: int)
    requires Joins(t, t', alert, i) && AlertIdsBelow(t) && LinksFit(t) && Chained(t, i, w)
    requires neighbour in t.links && neighbour.incident == i
    requires alert.startedAt - w <= t.alerts[neighbour.alert].startedAt <= alert.startedAt + w
    ensures Chained(t', i, w)
  {
    LinkedAfter(t, t', i, t.nextId);
    StartsAfter(t, t', i, t.nextId);
    GapFreeInsert(Starts(t, i), alert.startedAt, t.alerts[neighbour.alert].startedAt, w);
  }

  lemma JoinedIncidentIsSound(t: Tables, t': Tables, alert: Alert, i: Id)
    requires Joins(t, t', alert, i) && AlertIdsBelow(t)
    requires SeverityAttained(t, i) && OpenedByAlert(t, i)
    ensures SeverityAttained(t', i) && OpenedByAlert(t', i)
  {
    assert Link(i, t.nextId) in t'.links;
    var l :| l in t.links && l.incident == i && l.alert in t.alerts &&
      t.alerts[l.alert].severity == t.incidents[i].severity;
    assert l in t'.links;
    var m :| m in t.links && m.incident == i && m.alert in t.alerts &&
      t.alerts[m.alert].startedAt == t.incidents[i].startedAt;
    assert m in t'.links;
  }

  lemma JoinKeepsIncident(t: Tables, t': Tables, alert: Alert, i: Id, neighbour: Link, w: int, j: Id)
    requires Joins(t, t', alert, i) && AlertIdsBelow(t) && LinksFit(t)
    requires neighbour in t.links && neighbour.incident == i
    requires alert.startedAt - w <= t.alerts[neighbour.alert].startedAt <= alert.startedAt + w
    requires j in t.incidents && IncidentSound(t, j, w)
    ensures IncidentSound(t', j, w)
  {
    if j == i {
      JoinedTimelineTells(t, t', alert, i);
      JoinedIncidentIsChained(t, t', alert, i, neighbour, w);
      JoinedIncidentIsSound(t, t', alert, i);
    } else {
      LinkedAfter(t, t', i, t.nextId);
      StartsAfter(t, t', i, t.nextId);
      KeepsOldIncident(t, t', j, w);
    }
  }

  lemma JoinKeepsIncidents(t: Tables, t': Tables, alert: Alert, i: Id, neighbour: Link, w: int)
    requires Joins(t, t', alert, i)
    requires AlertIdsBelow(t) && LinksFit(t) && IncidentsSound(t, w) && NoStrayEvents(t)
    requires neighbour in t.links && neighbour.incident == i
    requires alert.startedAt - w <= t.alerts[neighbour.alert].startedAt <= alert.startedAt + w
    ensures IncidentsSound(t', w) && NoStrayEvents(t')
  {
    forall j | j in t'.incidents ensures IncidentSound(t', j, w) {
      assert IncidentSound(t, j, w);
      JoinKeepsIncident(t, t', alert, i, neighbour, w, j);
    }
  }

  lemma JoinKeepsSpacing(t: Tables, t': Tables, alert: Alert, i: Id, neighbour: Link, w: int)
    requires Joins(t, t', alert, i)
    requires AlertIdsBelow(t) && LinksFit(t) && Spaced(t, w)
    requires neighbour in t.links && neighbour.incident == i
    requires t.alerts[neighbour.alert].kind == alert.kind && t.alerts[neighbour.alert].service == alert.service
    ensures Spaced(t', w)
  {
    ClosedKept(t, t');
    forall l, m | l in t'.links && m in t'.links && l.incident != m.incident && CloseStarts(t', l, m, w)
      ensures Closed(t', l.incident) || Closed(t', m.incident)
    {
      var l0 := if l in t.links then l else neighbour;
      var m0 := if m in t.links then m else neighbour;
      assert l0.incident == l.incident && m0.incident == m.incident;
      assert CloseStarts(t, l0, m0, w);
    }
  }

  /******* Every ingestion keeps the invariant *******/

  lemma NewIncidentServiceKnown(t: Tables, alert: Alert)
    requires AlertIdsBelow(t) && ServicesKnown(t) && KnownService(t, alert.service)
    ensures ServicesKnown(OpenIncident(t, alert))
  {
    var s :| s in t.services && t.services[s] == alert.service;
    assert s in OpenIncident(t, alert).services;
    ServicesStayKnown(t, OpenIncident(t, alert));
  }

  lemma OpenPreserves(t: Tables, alert: Alert, w: int, choose: RowChoice)
    requires Correlated(t, w) && TerminalIsClosed(t) && Fresh(t, alert) && KnownService(t, alert.service)
    requires FindCorrelatedIncident(t, alert.service, alert.kind, alert.startedAt, w, choose).None?
    ensures Correlated(OpenIncident(t, alert), w)
  {
    NewIncidentServiceKnown(t, alert);
    OpenKeepsLinks(t, alert);
    OpenKeepsPartition(t, alert);
    OpenKeepsKinds(t, alert);
    StoringKeepsExternalIds(t, OpenIncident(t, alert), alert);
    OpenKeepsIncidents(t, alert, w);
    OpenPreservesSpacing(t, alert, w, choose);
  }

  lemma JoinPreserves(t: Tables, t': Tables, alert: Alert, i: Id, neighbour: Link, w: int)
    requires Correlated(t, w) && Fresh(t, alert) && Joins(t, t', alert, i)
    requires t.incidents[i].service == alert.service && IsNeighbour(t, i, alert, neighbour, w)
    ensures Correlated(t', w)
  {
    hide IncidentSound, Closed, CloseStarts, HasLink, KnownService, ReplayOf, ExternalIdTaken;
    ServicesStayKnown(t, t');
    JoinKeepsLinks(t, t', alert, i);
    JoinKeepsPartition(t, t', alert, i);
    JoinKeepsKinds(t, t', alert, i, neighbour);
    StoringKeepsExternalIds(t, t', alert);
    JoinKeepsIncidents(t, t', alert, i, neighbour, w);
    JoinKeepsSpacing(t, t', alert, i, neighbour, w);
  }

  /** The link that makes incident i correlate with the alert. */
  ghost predicate IsNeighbour(t: Tables, i: Id, alert: Alert, l: Link, w: int) {
    l in t.links && l.incident == i && l.alert in t.alerts && t.alerts[l.alert].kind == alert.kind &&
    alert.startedAt - w <= t.alerts[l.alert].startedAt <= alert.startedAt + w
  }

  lemma FoundNeighbour(t: Tables, alert: Alert, w: int, choose: RowChoice) returns (neighbour: Link)
    requires FindCorrelatedIncident(t, alert.service, alert.kind, alert.startedAt, w, choose).Some?
    ensures var i := FindCorrelatedIncident(t, alert.service, alert.kind, alert.startedAt, w, choose).value;
      i in t.incidents && t.incidents[i].service == alert.service && IsNeighbour(t, i, alert, neighbour, w)
  {
    var i := FindCorrelatedIncident(t, alert.service, alert.kind, alert.startedAt, w, choose).value;
    assert i in LatestCorrelated(t, alert.service, alert.kind, alert.startedAt, w);
    neighbour :| neighbour in t.links && neighbour.incident == i && neighbour.alert in t.alerts &&
      t.alerts[neighbour.alert].kind == alert.kind &&
      alert.startedAt - w <= t.alerts[neighbour.alert].startedAt <= alert.startedAt + w;
  }

  /** The alert either opens an incident of its own or joins the one found. */
  function Place(t: Tables, alert: Alert, found: Option<Id>): Tables
    requires found.Some? ==> found.value in t.incidents
  {
    if found.None? then OpenIncident(t, alert) else JoinIncident(t, alert, found.value)
  }

  lemma StorePreserves(t: Tables, alert: Alert, w: int, choose: RowChoice)
    requires Correlated(t, w) && TerminalIsClosed(t) && Fresh(t, alert) && KnownService(t, alert.service)
    ensures Correlated(
      Place(t, alert, FindCorrelatedIncident(t, alert.service, alert.kind, alert.startedAt, w, choose)), w)
  {
    var found := FindCorrelatedIncident(t, alert.service, alert.kind, alert.startedAt, w, choose);
    if found.None? {
      OpenPreserves(t, alert, w, choose);
    } else {
      var neighbour := FoundNeighbour(t, alert, w, choose);
      JoinShape(t, alert, found.value);
      JoinPreserves(t, JoinIncident(t, alert, found.value), alert, found.value, neighbour, w);
    }
  }

  lemma ServiceReady(t: Tables, name: string, w: int)
    requires Correlated(t, w) && TerminalIsClosed(t)
    ensures var (t1, service) := GetOrCreateService(t, name);
      Correlated(t1, w) && TerminalIsClosed(t1) && KnownService(t1, service)
  {
    var (t1, service) := GetOrCreateService(t, name);
    ClosedKept(t, t1);
    if name !in t.services {
      NewServicePreserves(t, t1, name, w);
    }
  }

  lemma StoreAlertPlaces(t: Tables, req: AlertRequest, w: int, choose: RowChoice)
    requires StoreAlert(t, req, w, choose).reply.Ingested?
    ensures var (t1, service) := GetOrCreateService(t, req.serviceName);
      var alert := Alert(req.externalId, service, req.kind, req.severity, req.startedAt);
      Fresh(t1, alert) && StoreAlert(t, req, w, choose).tables ==
        Place(t1, alert, FindCorrelatedIncident(t1, service, req.kind, req.startedAt, w, choose))
  {}

  lemma StoreAlertPreserves(t: Tables, req: AlertRequest, w: int, choose: RowChoice)
    requires Correlated(t, w) && TerminalIsClosed(t)
    ensures Correlated(StoreAlert(t, req, w, choose).tables, w)
  {
    var (t1, service) := GetOrCreateService(t, req.serviceName);
    if StoreAlert(t, req, w, choose).reply.Ingested? {
      ServiceReady(t, req.serviceName, w);
      StoreAlertPlaces(t, req, w, choose);
      StorePreserves(t1, Alert(req.externalId, service, req.kind, req.severity, req.startedAt), w, choose);
    }
  }

  lemma IngestPreserves(t: Tables, req: AlertRequest, w: int, choose: RowChoice)
    requires Correlated(t, w) && TerminalIsClosed(t)
    ensures Correlated(IngestAlert(t, req, w, choose).tables, w)
  {
    StoreAlertPreserves(t, req, w, choose);
  }

  /******* Steps that leave alerts alone *******/

  /** t' differs from t in nothing that correlation or the timeline of alerts depends on. */
  ghost predicate SameAlerts(t: Tables, t': Tables) {
    && t'.alerts == t.alerts && t'.links == t.links
    && t'.incidents.Keys == t.incidents.Keys
    && (forall i :: i in t.incidents ==>
         t'.incidents[i].service == t.incidents[i].service &&
         t'.incidents[i].severity == t.incidents[i].severity &&
         t'.incidents[i].startedAt == t.incidents[i].startedAt)
    && |t.events| <= |t'.events| && t'.events[..|t.events|] == t.events
    && (forall e :: e in t'.events[|t.events|..] ==> Neutral(e))
    && t.nextId <= t'.nextId
  }

  lemma TimelinesUntouched(t: Tables, t': Tables)
    requires SameAlerts(t, t')
    ensures forall i :: ReplayOf(t'.events, i) == ReplayOf(t.events, i)
    ensures forall i :: Linked(t', i) == Linked(t, i) && Starts(t', i) == Starts(t, i)
  {
    forall i ensures ReplayOf(t'.events, i) == ReplayOf(t.events, i) {
      assert t'.events == t.events + t'.events[|t.events|..];
      ReplaySkipsNeutral(t.events, t'.events[|t.events|..], i);
    }
  }

  lemma IncidentsUntouched(t: Tables, t': Tables, w: int)
    requires SameAlerts(t, t') && IncidentsSound(t, w) && NoStrayEvents(t)
    ensures IncidentsSound(t', w) && NoStrayEvents(t')
  {
    TimelinesUntouched(t, t');
    forall i | i in t'.incidents
      ensures IncidentSound(t', i, w)
    {
      KeepsOldIncident(t, t', i, w);
    }
  }

  lemma SpacingUntouched(t: Tables, t': Tables, w: int)
    requires SameAlerts(t, t') && Spaced(t, w)
    requires forall i :: Closed(t, i) ==> Closed(t', i)
    ensures Spaced(t', w)
  {
    forall l, m | l in t'.links && m in t'.links && l.incident != m.incident && CloseStarts(t', l, m, w)
      ensures Closed(t', l.incident) || Closed(t', m.incident)
    {
      assert CloseStarts(t, l, m, w);
    }
  }

  lemma PartitionUntouched(t: Tables, t': Tables)
    requires SameAlerts(t, t') && Partitioned(t)
    ensures Partitioned(t')
  {
    forall a | a in t'.alerts ensures HasLink(t', a) {
      assert HasLink(t, a);
    }
  }

  lemma AlertsUntouched(t: Tables, t': Tables, w: int)
    requires Correlated(t, w) && SameAlerts(t, t')
    requires AlertIdsBelow(t') && ServicesDistinct(t') && ServicesKnown(t')
    requires forall i :: Closed(t, i) ==> Closed(t', i)
    ensures Correlated(t', w)
  {
    hide IncidentSound, Closed, CloseStarts, HasLink, Neutral, KnownService, ReplayOf;
    IncidentsUntouched(t, t', w);
    SpacingUntouched(t, t', w);
    PartitionUntouched(t, t');
  }
}
