/** The approval gate: request, decide and execute, and the backend policy check beside it. */
module Gate {
  import opened Base
  import opened Schema
  import opened Investigation
  import J = Json

  const ALLOWED_ACTIONS := {"simulated_restart", "simulated_rollback", "simulated_scale", "create_incident_note"}
  const ROLLBACK := "simulated_rollback"

  /** Thirty minutes, in microseconds. */
  const APPROVAL_TTL := 30 * 60 * 1_000_000

  /** A hash function on text, such as SHA-256 of its UTF-8 bytes. */
  type Hash = string -> string

  /******* Action digest *******/

  function ActionObject(action: string, parameters: map<string, J.Json>, run: Id): J.Json {
    J.Obj(map["action_type" := J.Str(action), "parameters" := J.Obj(parameters), "agent_run_id" := J.Str(J.IdText(run))])
  }

  function ActionText(action: string, parameters: map<string, J.Json>, run: Id): string {
    J.Canonical(ActionObject(action, parameters, run))
  }

  function ActionDigest(hash: Hash, action: string, parameters: map<string, J.Json>, run: Id): string {
    hash(ActionText(action, parameters, run))
  }

  ghost predicate CollisionFree(hash: Hash) {
    forall x, y :: hash(x) == hash(y) ==> x == y
  }

  /** The hashed text determines the action, its parameters and the run. */
  lemma ActionTextIsInjective(a: string, p: map<string, J.Json>, r: Id, b: string, q: map<string, J.Json>, s: Id)
    requires ActionText(a, p, r) == ActionText(b, q, s)
    ensures a == b && p == q && r == s
  {
    var v, w := ActionObject(a, p, r), ActionObject(b, q, s);
    J.CanonicalIsInjective(v, w);
    assert v.fields["action_type"] == w.fields["action_type"];
    assert v.fields["parameters"] == w.fields["parameters"];
    assert v.fields["agent_run_id"] == w.fields["agent_run_id"];
    J.IdTextIsInjective(r, s);
  }

  /** The hashed text itself: three members in key order, without spaces. */
  lemma ActionTextIs(action: string, parameters: map<string, J.Json>, run: Id)
    ensures ActionText(action, parameters, run) ==
      "{" + J.PutStr("action_type", ":" + J.PutStr(action,
      "," + J.PutStr("agent_run_id", ":" + J.PutStr(J.IdText(run),
      "," + J.PutStr("parameters", ":" + J.Put(J.Obj(parameters), "}"))))))
  {
    var v := ActionObject(action, parameters, run);
    ActionKeysAreSorted();
    assert v.fields.Keys == {"action_type", "agent_run_id", "parameters"};
    J.CanonicalOfThree(v, "action_type", "agent_run_id", "parameters");
    assert v.fields["action_type"] == J.Str(action) && v.fields["agent_run_id"] == J.Str(J.IdText(run));
    assert v.fields["parameters"] == J.Obj(parameters) && "}" + "" == "}";
    hide J.PutStr, J.PutMembers, J.SortedKeys;
  }

  lemma ActionKeysAreSorted()
    ensures J.Before("action_type", "agent_run_id") && J.Before("agent_run_id", "parameters")
  {
    var a, b, c := "action_type", "agent_run_id", "parameters";
    assert a[0] == 'a' && b[0] == 'a' && c[0] == 'p' && a[1..][0] == 'c' && b[1..][0] == 'g';
    assert J.Before(a[1..], b[1..]);
  }

  /******* Services *******/

  function WithStatus(t: Tables, i: Id, status: IncidentStatus): (u: Tables)
    requires i in t.incidents
    ensures u.incidents.Keys == t.incidents.Keys
  {
    t.(incidents := t.incidents[i := t.incidents[i].(status := status)])
  }

  function ApprovalsFor(t: Tables, recommendation: Id): set<Id> {
    set p | p in t.approvals && t.approvals[p].recommendation == recommendation
  }

  /** The approval row a request stores. */
  function PendingRow(hash: Hash, rec: Id, r: Recommendation, now: int): Approval {
    Approval(rec, r.run, r.action, r.parameters, ActionDigest(hash, r.action, r.parameters, r.run),
             ApprovalStatus.Pending, now, now + APPROVAL_TTL, None, None, None)
  }

  function RequestApproval(t: Tables, hash: Hash, rec: Id, now: int, choose: RowChoice): Outcome<Id> {
    if rec !in t.recommendations then Refused(RecommendationNotFound)
    else
      var r := t.recommendations[rec];
      if r.action !in ALLOWED_ACTIONS then Refused(NotAllowListed)
      else
        match FirstRow(ApprovalsFor(t, rec), choose)
        case Some(existing) => Done(t, existing)
        case None =>
          if r.run !in t.runs then Refused(RunNotFound)
          else
            var i := t.runs[r.run].incident;
            var stored := t.(approvals := t.approvals[t.nextId := PendingRow(hash, rec, r, now)], nextId := t.nextId + 1);
            if i !in t.incidents then Done(stored, t.nextId)
            else
              Done(WithStatus(stored, i, NeedsApproval).(events := t.events + [Event(i, ApprovalRequested(rec))]), t.nextId)
  }

  function DecideApproval(t: Tables, hash: Hash, p: Id, decision: ApprovalStatus, now: int): Outcome<Id> {
    if p !in t.approvals then Refused(ApprovalNotFound)
    else
      var a := t.approvals[p];
      if a.status != ApprovalStatus.Pending then Refused(AlreadyDecided)
      else if a.expiresAt < now then Refused(DecisionTooLate)
      else if decision == ApprovalStatus.Pending then Refused(BadDecision)
      else if ActionDigest(hash, a.action, a.parameters, a.run) != a.hash then Refused(DigestMismatch)
      else
        var decided := t.(approvals := t.approvals[p := a.(status := decision, decidedAt := Some(now))]);
        if a.run !in t.runs || t.runs[a.run].incident !in t.incidents then Done(decided, p)
        else
          var i := t.runs[a.run].incident;
          var status := if decision == ApprovalStatus.Approved then IncidentStatus.Approved else IncidentStatus.Rejected;
          Done(WithStatus(decided, i, status).(events := t.events + [Event(i, ApprovalDecided(p))]), p)
  }

  /** A failed recovery check leaves flushed changes behind in the session before it raises. */
  datatype Execution = Executed(tables: Tables) | Blocked(error: Error) | RecoveryFailed(tables: Tables)

  /** The tests an approval passes before the rollback is looked at. */
  predicate PassesExecutionGate(hash: Hash, a: Approval) {
    && a.status == ApprovalStatus.Approved
    && a.executedAt.None?
    && a.action in ALLOWED_ACTIONS
    && ActionDigest(hash, a.action, a.parameters, a.run) == a.hash
  }

  function ExecuteApproval(t: Tables, hash: Hash, p: Id, recovered: bool, now: int): Execution {
    if p !in t.approvals then Blocked(ApprovalNotFound)
    else
      var a := t.approvals[p];
      if a.status != ApprovalStatus.Approved then Blocked(NotApproved)
      else if a.executedAt.Some? then Blocked(AlreadyExecuted)
      else if a.action !in ALLOWED_ACTIONS then Blocked(NotAllowListed)
      else if ActionDigest(hash, a.action, a.parameters, a.run) != a.hash then Blocked(DigestMismatch)
      else if a.action != ROLLBACK then Blocked(NotImplemented)
      else if a.run !in t.runs then Blocked(RunNotFound)
      else
        var i := t.runs[a.run].incident;
        if i !in t.incidents then Blocked(IncidentNotFound)
        else if !recovered then
          RecoveryFailed(WithStatus(t, i, IncidentStatus.Failed).(
            approvals := t.approvals[p := a.(executedAt := Some(now), execution := Some(ExecutionStatus.Failed))]))
        else
          Executed(t.(
            approvals := t.approvals[p := a.(executedAt := Some(now), execution := Some(Succeeded))],
            incidents := t.incidents[i := t.incidents[i].(status := Resolved, resolvedAt := Some(now))],
            events := t.events + [Event(i, RemediationExecuted(p))]))
  }

  /******* Backend policy *******/

  datatype Violation = NoApproval | ActionNotAllowed | WrongRun | StatusNotApproved | PastExpiry | SpentApproval | HashMismatch

  function VerifyBackendApproval(
    hash: Hash, approval: Option<Approval>, action: string, parameters: map<string, J.Json>, run: Id, now: int)
    : Option<Violation>
  {
    if approval.None? then Some(NoApproval)
    else
      var a := approval.value;
      if action !in ALLOWED_ACTIONS then Some(ActionNotAllowed)
      else if a.run != run then Some(WrongRun)
      else if a.status != ApprovalStatus.Approved then Some(StatusNotApproved)
      else if a.expiresAt < now then Some(PastExpiry)
      else if a.executedAt.Some? then Some(SpentApproval)
      else if a.hash != ActionDigest(hash, action, parameters, run) then Some(HashMismatch)
      else None
  }

  /** An execution stopped by the approval itself, before the rollback, its run and its incident are looked at. */
  predicate StoppedAtGate(r: Execution) {
    r.Blocked? && r.error in {NotApproved, AlreadyExecuted, NotAllowListed, DigestMismatch}
  }

  /** On an approval's own action the policy accepts exactly what execution lets past its gate, while not expired. */
  lemma PolicyIsGatePlusExpiry(t: Tables, hash: Hash, p: Id, recovered: bool, now: int)
    requires p in t.approvals
    ensures var a, r := t.approvals[p], ExecuteApproval(t, hash, p, recovered, now);
      (PassesExecutionGate(hash, a) <==> !StoppedAtGate(r)) &&
      (VerifyBackendApproval(hash, Some(a), a.action, a.parameters, a.run, now).None? <==>
        !StoppedAtGate(r) && now <= a.expiresAt)
  {
    hide ActionDigest;
  }

  /** Executing therefore goes beyond the policy exactly when the approval has expired. */
  lemma ExecutionIgnoresExpiry(t: Tables, hash: Hash, p: Id, now: int)
    requires ExecuteApproval(t, hash, p, true, now).Executed?
    ensures var a := t.approvals[p];
      VerifyBackendApproval(hash, Some(a), a.action, a.parameters, a.run, now).Some? <==> a.expiresAt < now
  {}

  /** With no collisions, the policy accepts exactly the hashed action, past the gate and not past expiry. */
  lemma PolicyAcceptsExactly(
    hash: Hash, a: Approval, action: string, parameters: map<string, J.Json>, run: Id, now: int)
    requires CollisionFree(hash) && a.hash == ActionDigest(hash, a.action, a.parameters, a.run)
    ensures VerifyBackendApproval(hash, Some(a), action, parameters, run, now).None? <==>
      action == a.action && parameters == a.parameters && run == a.run &&
      a.status == ApprovalStatus.Approved && a.executedAt.None? && a.action in ALLOWED_ACTIONS && now <= a.expiresAt
  {
    if VerifyBackendApproval(hash, Some(a), action, parameters, run, now).None? {
      PolicyBindsAction(hash, a, action, parameters, run, now);
    }
    hide ActionDigest;
  }

  /** With no collisions, the policy accepts only the very action, parameters and run that were hashed. */
  lemma PolicyBindsAction(
    hash: Hash, a: Approval, action: string, parameters: map<string, J.Json>, run: Id, now: int)
    requires CollisionFree(hash) && a.hash == ActionDigest(hash, a.action, a.parameters, a.run)
    requires VerifyBackendApproval(hash, Some(a), action, parameters, run, now).None?
    ensures action == a.action && parameters == a.parameters && run == a.run
  {
    ActionTextIsInjective(action, parameters, run, a.action, a.parameters, a.run);
  }
}
