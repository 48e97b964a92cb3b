/**
 * The API-key gate. `AuthMiddleware(expectedKey)` wraps a handler; the wrapped
 * handler logs the request line, compares the `X-API-Key` header with the
 * expected key, and either answers 401 with the localized `Unauthorized`
 * message or logs a DEBUG line and hands the unchanged request to the inner
 * handler. The gate keeps no state between requests.
 */
module Middleware {
  import opened Strconv
  import opened I18n
  import opened Logging
  import opened Http
  import opened Handlers

  /** The handlers the service mounts: the two resource handlers, possibly wrapped by gates. */
  datatype Handler = GetUserHandler | CreateUserHandler | Guarded(expectedKey: string, next: Handler)

  /** `AuthMiddleware(expectedKey)`: the decorator that puts a gate in front of `next`. */
  function AuthMiddleware(expectedKey: string): (wrap: Handler -> Handler)
    ensures forall next :: wrap(next).Guarded? && wrap(next).expectedKey == expectedKey && wrap(next).next == next
  {
    next => Guarded(expectedKey, next)
  }

  /** `X-API-Key` in the canonical form under which `Header.Get` looks it up. */
  const ApiKeyHeader: string := "X-Api-Key"
  const AuthenticatedMessage: string := "Request authenticated successfully"

  /** The request line the gate logs, `"%s %s"` of the method and the path. */
  function RequestMessage(r: Request): string { r.verb + " " + r.path }

  function UnauthorizedMessage(r: Request): string { "Unauthorized access attempt from " + r.remoteAddr }

  /**
   * What serving `r` with `h` does, when the request's bundle is `msgs`. The
   * gate and the handler behind it resolve the bundle from the same
   * `Accept-Language` header with the same catalog, so one `msgs` serves both.
   */
  function Dispatch(h: Handler, msgs: Messages, r: Request): (o: Outcome)
    ensures o.response.contentType == JsonContentType
  {
    match h
    case GetUserHandler => GetUserOutcome(msgs, QueryValue(r, "id"))
    case CreateUserHandler => CreateUserOutcome(msgs, r.body)
    case Guarded(expectedKey, next) =>
      var request := Line(INFO, RequestMessage(r));
      if HeaderValue(r, ApiKeyHeader) != expectedKey then
        Outcome([request, Line(WARN, UnauthorizedMessage(r))], Reply(StatusUnauthorized, ErrorBody(msgs.unauthorized)), [])
      else
        var inner := Dispatch(next, msgs, r);
        Outcome([request, Line(DEBUG, AuthenticatedMessage)] + inner.before, inner.response, inner.after)
  }

  /** Every answer is one of 200, 201, 400 and 401, and a gate's first log call is the request line. */
  lemma {:induction false} DispatchStatus(h: Handler, msgs: Messages, r: Request)
    ensures var o := Dispatch(h, msgs, r);
      o.response.status == StatusOK || o.response.status == StatusCreated
      || o.response.status == StatusBadRequest || o.response.status == StatusUnauthorized
    ensures h.Guarded? ==> |Dispatch(h, msgs, r).before| >= 2 && Dispatch(h, msgs, r).before[0] == Line(INFO, RequestMessage(r))
  {
    match h
    case GetUserHandler =>
    case CreateUserHandler =>
    case Guarded(expectedKey, next) =>
      DispatchStatus(next, msgs, r);
  }

  /**
   * A wrong key is answered 401 with the bundle's `Unauthorized` message after
   * exactly the request line and one WARN, and nothing is logged after the answer.
   */
  lemma RejectsWrongKey(expectedKey: string, next: Handler, msgs: Messages, r: Request)
    requires HeaderValue(r, ApiKeyHeader) != expectedKey
    ensures var o := Dispatch(AuthMiddleware(expectedKey)(next), msgs, r);
      && o.response == Reply(StatusUnauthorized, ErrorBody(msgs.unauthorized))
      && o.before == [Line(INFO, RequestMessage(r)), Line(WARN, UnauthorizedMessage(r))]
      && o.after == []
  {
  }

  /** Behind a wrong key the inner handler is never reached: the outcome is the same whatever it is. */
  lemma NextNeverReached(expectedKey: string, next1: Handler, next2: Handler, msgs: Messages, r: Request)
    requires HeaderValue(r, ApiKeyHeader) != expectedKey
    ensures Dispatch(AuthMiddleware(expectedKey)(next1), msgs, r) == Dispatch(AuthMiddleware(expectedKey)(next2), msgs, r)
  {
  }

  /**
   * The right key hands the request to the inner handler: its answer is the
   * answer, and its log calls follow the request line and the DEBUG line.
   */
  lemma ForwardsOnMatch(expectedKey: string, next: Handler, msgs: Messages, r: Request)
    requires HeaderValue(r, ApiKeyHeader) == expectedKey
    ensures var o := Dispatch(AuthMiddleware(expectedKey)(next), msgs, r);
      var inner := Dispatch(next, msgs, r);
      && o.response == inner.response
      && o.Lines() == [Line(INFO, RequestMessage(r)), Line(DEBUG, AuthenticatedMessage)] + inner.Lines()
  {
    var inner := Dispatch(next, msgs, r);
    var gate := [Line(INFO, RequestMessage(r)), Line(DEBUG, AuthenticatedMessage)];
    assert (gate + inner.before) + inner.after == gate + (inner.before + inner.after);
  }

  /** An absent `X-API-Key` reads as `""`, so it is refused whenever a key is configured. */
  lemma MissingKeyRejected(expectedKey: string, next: Handler, msgs: Messages, r: Request)
    requires ApiKeyHeader !in r.header && expectedKey != ""
    ensures Dispatch(AuthMiddleware(expectedKey)(next), msgs, r).response.status == StatusUnauthorized
  {
  }

  /** The resource handlers never answer 401 themselves. */
  lemma HandlersNever401(h: Handler, msgs: Messages, r: Request)
    requires !h.Guarded?
    ensures Dispatch(h, msgs, r).response.status != StatusUnauthorized
  {
  }

  /** In front of a resource handler, the answer is 401 exactly when the key differs. */
  lemma GuardedUnauthorizedIff(expectedKey: string, h: Handler, msgs: Messages, r: Request)
    requires !h.Guarded?
    ensures Dispatch(AuthMiddleware(expectedKey)(h), msgs, r).response.status == StatusUnauthorized
      <==> HeaderValue(r, ApiKeyHeader) != expectedKey
  {
    HandlersNever401(h, msgs, r);
  }

  /**
   * Every error message the service sends, from the gate or from a handler,
   * is a message of the one bundle the request resolves to.
   */
  lemma {:induction false} ErrorsFromOneBundle(h: Handler, msgs: Messages, r: Request)
    ensures var body := Dispatch(h, msgs, r).response.body;
      body.ErrorBody? ==> body.error in {msgs.unauthorized, msgs.invalidID, msgs.invalidName}
  {
    match h
    case GetUserHandler =>
    case CreateUserHandler =>
    case Guarded(expectedKey, next) =>
      ErrorsFromOneBundle(next, msgs, r);
  }

  /** End to end: with the right key, `GET` with the decimal rendering of an `int` is answered 200 with it. */
  lemma AuthorizedGetUser(expectedKey: string, msgs: Messages, r: Request, n: int)
    requires HeaderValue(r, ApiKeyHeader) == expectedKey
    requires QueryValue(r, "id") == Itoa(n) && MinInt <= n <= MaxInt
    ensures Dispatch(AuthMiddleware(expectedKey)(GetUserHandler), msgs, r).response == Reply(StatusOK, UserIdBody(n))
  {
    GetUserAcceptsEveryInt(msgs, n);
  }

  /** `ServeHTTP(w, r)` of a mounted handler: the request's bundle is resolved, then the handler answers. */
  method Serve(h: Handler, w: ResponseWriter, r: Request, cat: Catalog, log: Logger)
    requires log.ready
    modifies w, log`stdout, log`stderr
    ensures Performed(w, log, Dispatch(h, Localize(cat, r), r))
  {
    var msg := Localize(cat, r);
    Answer(h, msg, w, r, log);
  }

  /** A mounted handler answering `r` with the bundle `msg` already resolved. */
  method Answer(h: Handler, msg: Messages, w: ResponseWriter, r: Request, log: Logger)
    requires log.ready
    modifies w, log`stdout, log`stderr
    ensures Performed(w, log, Dispatch(h, msg, r))
    decreases h, 0
  {
    match h
    case GetUserHandler =>
      AnswerGetUser(w, msg, QueryValue(r, "id"), log);
    case CreateUserHandler =>
      AnswerCreateUser(w, msg, r.body, log);
    case Guarded(expectedKey, next) =>
      Gate(expectedKey, next, msg, w, r, log);
  }

  lemma Regroup(s: seq<Line>, a: seq<Line>, b: seq<Line>, c: seq<Line>, d: seq<Line>)
    ensures s + a + b + c + d == s + (a + b + c) + d
  {
  }

  /**
   * The gate's two lines, neither of them an ERROR, and the inner handler's
   * lines reach the streams in call order.
   */
  lemma ForwardedStreams(t: Level, gate: seq<Line>, inner: Outcome, out: seq<Line>, err: seq<Line>)
    requires |gate| == 2 && gate[0].level != ERROR && gate[1].level != ERROR
    ensures out + Stdout(t, [gate[0]]) + Stdout(t, [gate[1]]) + Stdout(t, inner.before) + Stdout(t, inner.after)
      == out + Stdout(t, gate + inner.before) + Stdout(t, inner.after)
    ensures err + Stderr(t, inner.before) + Stderr(t, inner.after) == err + Stderr(t, gate + inner.before) + Stderr(t, inner.after)
  {
    ForwardedStdout(t, gate, inner.before, inner.after, out);
    assert Stderr(t, gate + inner.before) == Stderr(t, inner.before) by {
      StderrAppend(t, gate, inner.before);
      assert Stderr(t, gate[1..]) == [];
    }
  }

  lemma ForwardedStdout(t: Level, gate: seq<Line>, before: seq<Line>, after: seq<Line>, out: seq<Line>)
    requires |gate| == 2
    ensures out + Stdout(t, [gate[0]]) + Stdout(t, [gate[1]]) + Stdout(t, before) + Stdout(t, after)
      == out + Stdout(t, gate + before) + Stdout(t, after)
  {
    var first, second := [gate[0]], [gate[1]];
    assert Stdout(t, gate + before) == Stdout(t, first) + Stdout(t, second) + Stdout(t, before) by {
      assert gate == first + second;
      StdoutAppend(t, gate, before);
      StdoutAppend(t, first, second);
    }
    Regroup(out, Stdout(t, first), Stdout(t, second), Stdout(t, before), Stdout(t, after));
  }

  /** The gate's two lines of a refusal, neither of them an ERROR, reach the streams in call order. */
  lemma RefusedStreams(t: Level, gate: seq<Line>, out: seq<Line>, err: seq<Line>)
    requires |gate| == 2 && gate[0].level != ERROR && gate[1].level != ERROR
    ensures out + Stdout(t, [gate[0]]) + Stdout(t, [gate[1]]) == out + Stdout(t, gate) + Stdout(t, [])
    ensures err == err + Stderr(t, gate) + Stderr(t, [])
  {
    assert gate == [gate[0]] + [gate[1]];
    StdoutAppend(t, [gate[0]], [gate[1]]);
    assert Stderr(t, gate) == [];
  }

  /** The handler `AuthMiddleware(expectedKey)(next)` serves a request with. */
  method Authenticate(expectedKey: string, next: Handler, w: ResponseWriter, r: Request, cat: Catalog, log: Logger)
    requires log.ready
    modifies w, log`stdout, log`stderr
    ensures Performed(w, log, Dispatch(Guarded(expectedKey, next), Localize(cat, r), r))
  {
    var msg := Localize(cat, r);
    Gate(expectedKey, next, msg, w, r, log);
  }

  /** The gate with the bundle resolved: it refuses a wrong key and forwards the right one. */
  method Gate(expectedKey: string, next: Handler, msg: Messages, w: ResponseWriter, r: Request, log: Logger)
    requires log.ready
    modifies w, log`stdout, log`stderr
    ensures Performed(w, log, Dispatch(Guarded(expectedKey, next), msg, r))
    decreases next, 2
  {
    var apiKey := HeaderValue(r, ApiKeyHeader);
    if apiKey != expectedKey {
      Refuse(expectedKey, next, msg, w, r, log);
    } else {
      Admit(expectedKey, next, msg, w, r, log);
    }
  }

  /** The gate with a wrong key: the request line, the WARN line and the 401 answer. */
  method Refuse(expectedKey: string, next: Handler, msg: Messages, w: ResponseWriter, r: Request, log: Logger)
    requires log.ready
    requires HeaderValue(r, ApiKeyHeader) != expectedKey
    modifies w, log`stdout
    ensures Performed(w, log, Dispatch(Guarded(expectedKey, next), msg, r))
  {
    ghost var t, out, err := log.currentLevel, log.stdout, log.stderr;
    ghost var request := Line(INFO, RequestMessage(r));
    ghost var warning := Line(WARN, UnauthorizedMessage(r));
    ghost var o := Dispatch(Guarded(expectedKey, next), msg, r);
    assert o == Outcome([request, warning], Reply(StatusUnauthorized, ErrorBody(msg.unauthorized)), []);
    log.Info(RequestMessage(r));
    log.Warn(UnauthorizedMessage(r));
    w.WriteJson(StatusUnauthorized, ErrorBody(msg.unauthorized));
    RefusedStreams(t, [request, warning], out, err);
  }

  /** The gate with the right key: the request line, the DEBUG line, then the inner handler. */
  method Admit(expectedKey: string, next: Handler, msg: Messages, w: ResponseWriter, r: Request, log: Logger)
    requires log.ready
    requires HeaderValue(r, ApiKeyHeader) == expectedKey
    modifies w, log`stdout, log`stderr
    ensures Performed(w, log, Dispatch(Guarded(expectedKey, next), msg, r))
    decreases next, 1
  {
    ghost var t, out, err := log.currentLevel, log.stdout, log.stderr;
    ghost var request := Line(INFO, RequestMessage(r));
    ghost var authenticated := Line(DEBUG, AuthenticatedMessage);
    ghost var inner := Dispatch(next, msg, r);
    ghost var o := Dispatch(Guarded(expectedKey, next), msg, r);
    assert o == Outcome([request, authenticated] + inner.before, inner.response, inner.after);
    log.Info(RequestMessage(r));
    log.Debug(AuthenticatedMessage);
    Answer(next, msg, w, r, log);
    ForwardedStreams(t, [request, authenticated], inner, out, err);
  }
}
