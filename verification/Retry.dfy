/** The bounded HTTP client: it asks again after timeouts, connection failures and server errors. */
module Retry {
  import opened Base
  import opened Investigation
  import J = Json

  datatype Body = NotJson | NotAnObject | Object(members: map<string, J.Json>)

  /** What one request meets. Any other exception than the first two leaves the client at once. */
  datatype Response = TimedOut | ConnectionFailed | OtherException | Answered(status: int, body: Body)

  datatype Code = SourceTimeout | SourceUnavailable | SourceHttpError(status: int) | InvalidSourceResponse
  datatype ConnectorError = ConnectorError(code: Code, retryable: bool)
  datatype Reply = Payload(members: map<string, J.Json>) | Failed(error: ConnectorError) | Escaped

  /** The outcome of one response by itself. */
  function Judge(r: Response): Reply {
    match r
    case TimedOut => Failed(ConnectorError(SourceTimeout, true))
    case ConnectionFailed => Failed(ConnectorError(SourceUnavailable, true))
    case OtherException => Escaped
    case Answered(status, body) =>
      if 200 <= status < 300 then
        if body.Object? then Payload(body.members) else Failed(ConnectorError(InvalidSourceResponse, false))
      else Failed(ConnectorError(SourceHttpError(status), status >= 500))
  }

  /** A response after which asking again may help. */
  predicate Transient(r: Response) {
    Judge(r).Failed? && Judge(r).error.retryable
  }

  /** Timeouts, lost connections and server errors; no other status, and no bad payload, is asked for again. */
  lemma TransientExactly(r: Response)
    ensures Transient(r) <==> r.TimedOut? || r.ConnectionFailed? || (r.Answered? && r.status >= 500)
  {}

  /** The answers a source would give, one after the other. */
  type Script = nat -> Response

  /** How many requests are made when `retries` more are allowed after the first. */
  function Attempts(script: Script, from: nat, retries: nat): (n: nat)
    ensures 1 <= n <= retries + 1
    decreases retries
  {
    if Transient(script(from)) && retries > 0 then 1 + Attempts(script, from + 1, retries - 1) else 1
  }

  /** n is where the first response that is not transient stands, or the last one allowed. */
  ghost predicate StopsAfter(script: Script, from: nat, retries: nat, n: nat) {
    && 1 <= n <= retries + 1
    && (forall k :: from <= k < from + n - 1 ==> Transient(script(k)))
    && (n <= retries ==> !Transient(script(from + n - 1)))
  }

  class Source {
    const script: Script
    var asked: nat

    constructor (script: Script)
      ensures this.script == script && asked == 0
    {
      this.script := script;
      asked := 0;
    }

    method Get() returns (r: Response)
      modifies this
      ensures r == script(old(asked)) && asked == old(asked) + 1
    {
      r := script(asked);
      asked := asked + 1;
    }
  }

  function WithoutTrailingSlashes(s: string): string {
    if s != "" && s[|s| - 1] == '/' then WithoutTrailingSlashes(s[..|s| - 1]) else s
  }

  /** Slashes at the end are dropped, all of them, and nothing else. */
  lemma {:induction false} TrailingSlashesDropped(s: string)
    ensures var r := WithoutTrailingSlashes(s);
      r <= s && (r != "" ==> r[|r| - 1] != '/') && forall k :: |r| <= k < |s| ==> s[k] == '/'
  {
    if s != "" && s[|s| - 1] == '/' {
      TrailingSlashesDropped(s[..|s| - 1]);
    }
  }

  class HttpConnector {
    const baseUrl: string
    const timeout: real
    const maxRetries: nat

    constructor (baseUrl: string, timeout: real, maxRetries: nat)
      ensures this.baseUrl == WithoutTrailingSlashes(baseUrl)
      ensures this.timeout == timeout && this.maxRetries == maxRetries
    {
      this.baseUrl := WithoutTrailingSlashes(baseUrl);
      this.timeout := timeout;
      this.maxRetries := maxRetries;
    }

    /** Refuses a blank address, a timeout that is not positive, and more than three retries. */
    static method Connect(baseUrl: string, timeout: real, maxRetries: int) returns (c: HttpConnector?)
      ensures c != null <==> !Blank(baseUrl) && timeout > 0.0 && 0 <= maxRetries <= 3
      ensures c != null ==> c.maxRetries == maxRetries && c.baseUrl == WithoutTrailingSlashes(baseUrl)
    {
      if Blank(baseUrl) {
        return null;
      }
      if timeout <= 0.0 {
        return null;
      }
      if !(0 <= maxRetries <= 3) {
        return null;
      }
      c := new HttpConnector(baseUrl, timeout, maxRetries);
    }

    method GetJson(source: Source) returns (reply: Reply)
      modifies source
      ensures source.asked == old(source.asked) + Attempts(source.script, old(source.asked), maxRetries)
      ensures reply == Judge(source.script(source.asked - 1))
    {
      var lastError: Option<ConnectorError> := None;
      for attempt := 0 to maxRetries + 1
        invariant source.asked == old(source.asked) + attempt
        invariant attempt <= maxRetries &&
          Attempts(source.script, old(source.asked), maxRetries) ==
            attempt + Attempts(source.script, source.asked, maxRetries - attempt)
      {
        var response := source.Get();
        match response {
          case TimedOut =>
            lastError := Some(ConnectorError(SourceTimeout, true));
          case ConnectionFailed =>
            lastError := Some(ConnectorError(SourceUnavailable, true));
          case OtherException =>
            return Escaped;
          case Answered(status, body) =>
            if 200 <= status < 300 {
              match body
              case NotJson => return Failed(ConnectorError(InvalidSourceResponse, false));
              case NotAnObject => return Failed(ConnectorError(InvalidSourceResponse, false));
              case Object(members) => return Payload(members);
            }
            lastError := Some(ConnectorError(SourceHttpError(status), status >= 500));
        }
        if !lastError.value.retryable || attempt >= maxRetries {
          break;
        }
      }
      reply := Failed(lastError.value);
    }
  }

  /** The number of requests is exactly the position where asking stops, and it is the only such number. */
  lemma {:induction false} AttemptsStopAtFirstDecisive(script: Script, from: nat, retries: nat, n: nat)
    ensures n == Attempts(script, from, retries) <==> StopsAfter(script, from, retries, n)
    decreases retries
  {
    if Transient(script(from)) && retries > 0 && n > 1 {
      AttemptsStopAtFirstDecisive(script, from + 1, retries - 1, n - 1);
    }
  }

  /** The outcome of a whole query. */
  function Result(script: Script, retries: nat): Reply {
    Judge(script(Attempts(script, 0, retries) - 1))
  }

  /** Asking may help: nothing came back, or a server error. */
  predicate AskAgain(r: Response) {
    r.TimedOut? || r.ConnectionFailed? || (r.Answered? && r.status >= 500)
  }

  /** What the last response of a query is answered as. */
  predicate AnsweredAs(r: Response, reply: Reply) {
    match r
    case TimedOut => reply == Failed(ConnectorError(SourceTimeout, true))
    case ConnectionFailed => reply == Failed(ConnectorError(SourceUnavailable, true))
    case OtherException => reply == Escaped
    case Answered(status, body) =>
      if status < 200 || 300 <= status then reply == Failed(ConnectorError(SourceHttpError(status), 500 <= status))
      else if body.Object? then reply == Payload(body.members)
      else reply == Failed(ConnectorError(InvalidSourceResponse, false))
  }

  /** Response n is the first that is not asked for again, or the last one allowed. */
  ghost predicate EndsAt(script: Script, retries: nat, n: nat) {
    n <= retries && (forall k :: 0 <= k < n ==> AskAgain(script(k))) && (n < retries ==> !AskAgain(script(n)))
  }

  /** A query makes the requests up to the one it ends at, and answers that one, in terms of statuses and bodies. */
  lemma QueryEndsExactly(script: Script, retries: nat, n: nat)
    ensures EndsAt(script, retries, n) <==> Attempts(script, 0, retries) == n + 1
    ensures EndsAt(script, retries, n) ==> AnsweredAs(script(n), Result(script, retries))
  {
    AttemptsStopAtFirstDecisive(script, 0, retries, n + 1);
    forall k: nat ensures Transient(script(k)) <==> AskAgain(script(k)) {
      TransientExactly(script(k));
    }
    hide Attempts, Transient;
  }

  /** A query succeeds exactly when an object comes with a 2xx status, within the allowed requests, after transient ones. */
  lemma SucceedsExactly(script: Script, retries: nat)
    ensures Result(script, retries).Payload? <==>
      exists n :: EndsAt(script, retries, n) && script(n).Answered? && 200 <= script(n).status < 300 && script(n).body.Object?
  {
    hide EndsAt, Attempts, Judge;
    var last := Attempts(script, 0, retries) - 1;
    QueryEndsExactly(script, retries, last);
    forall n: nat ensures EndsAt(script, retries, n) <==> n == last {
      QueryEndsExactly(script, retries, n);
    }
  }

  /** Allowing more retries changes nothing but a query that ran out of them. */
  lemma MoreRetriesKeepTheOutcome(script: Script, few: nat, many: nat)
    requires few <= many
    ensures !Transient(script(Attempts(script, 0, few) - 1)) ==>
      Attempts(script, 0, many) == Attempts(script, 0, few) && Result(script, many) == Result(script, few)
    ensures Attempts(script, 0, few) <= Attempts(script, 0, many)
  {
    var n := Attempts(script, 0, few);
    AttemptsStopAtFirstDecisive(script, 0, few, n);
    AttemptsStopAtFirstDecisive(script, 0, many, n);
    var m := Attempts(script, 0, many);
    AttemptsStopAtFirstDecisive(script, 0, many, m);
  }
}
