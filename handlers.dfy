/**
 * The two resource handlers. Each is specified by a pure function that gives
 * the `Outcome` of a request: the log calls made before the response is
 * written, the response (content type, status, JSON body), and the log calls
 * made after it. The handler methods perform those steps on a `Logger` and a
 * `ResponseWriter` and are proved to realise exactly that outcome.
 */
module Handlers {
  import opened Wrappers
  import opened Strconv
  import opened I18n
  import opened Logging
  import opened Http

  datatype Outcome = Outcome(before: seq<Line>, response: Response, after: seq<Line>)
  {
    /** Every log call of the request, in order. */
    function Lines(): seq<Line> { before + after }
  }

  function Reply(status: int, body: Body): Response
  {
    Response(JsonContentType, status, body)
  }

  /** The bundle a request is answered in: `Get(ParseAcceptLanguage(Accept-Language))`. */
  function Localize(cat: Catalog, r: Request): Messages
    reads cat
  {
    cat.Get(ParseAcceptLanguage(HeaderValue(r, "Accept-Language")))
  }

  /** Once the fallback is set, every request is answered from a complete bundle of the table. */
  lemma LocalizedComplete(cat: Catalog, r: Request)
    requires cat.Initialized()
    ensures Localize(cat, r) in Translations.Values && Complete(Localize(cat, r))
  {
    GetAfterInit(cat, ParseAcceptLanguage(HeaderValue(r, "Accept-Language")));
  }

  /**
   * What a handler call did to the logger and the writer: every log call of
   * `o` went through the threshold to its stream, and the writer received the
   * content type, exactly one status and exactly one body.
   */
  twostate predicate Performed(w: ResponseWriter, log: Logger, o: Outcome)
    reads w, log
  {
    && log.stdout == old(log.stdout) + Stdout(log.currentLevel, o.before) + Stdout(log.currentLevel, o.after)
    && log.stderr == old(log.stderr) + Stderr(log.currentLevel, o.before) + Stderr(log.currentLevel, o.after)
    && w.header == old(w.header)["Content-Type" := o.response.contentType]
    && w.statuses == old(w.statuses) + [o.response.status]
    && w.bodies == old(w.bodies) + [o.response.body]
  }

  // The handlers' log messages, with the format verbs expanded (`%s` and `%v`
  // insert the text, `%d` the decimal rendering).

  const MissingIdMessage: string := "GetUser: missing id parameter"
  function InvalidIdMessage(idStr: string): string { "GetUser: invalid id parameter: " + idStr }
  function FetchingMessage(id: int): string { "GetUser: fetching user with id=" + Itoa(id) }
  function ReturnedMessage(id: int): string { "GetUser: successfully returned user with id=" + Itoa(id) }
  function DecodeFailedMessage(reason: string): string { "CreateUser: failed to decode request body: " + reason }
  const EmptyNameMessage: string := "CreateUser: empty name provided"
  function CreatingMessage(name: string): string { "CreateUser: creating user with name=" + name }
  function CreatedMessage(name: string): string { "CreateUser: successfully created user: " + name }

  /** `GET` by id: 400 with `InvalidID` when `id` is absent or not an `int`, 200 with the parsed id otherwise. */
  function GetUserOutcome(msgs: Messages, idStr: string): (o: Outcome)
    ensures o.response.contentType == JsonContentType
    ensures Atoi(idStr).Some? ==> o.response.status == StatusOK && o.response.body == UserIdBody(Atoi(idStr).value)
    ensures Atoi(idStr).None? ==> o.response.status == StatusBadRequest && o.response.body == ErrorBody(msgs.invalidID)
    ensures Atoi(idStr).None? ==> |o.Lines()| == 1 && o.Lines()[0].level == WARN
  {
    if idStr == "" then
      Outcome([Line(WARN, MissingIdMessage)], Reply(StatusBadRequest, ErrorBody(msgs.invalidID)), [])
    else
      match Atoi(idStr)
      case None =>
        Outcome([Line(WARN, InvalidIdMessage(idStr))], Reply(StatusBadRequest, ErrorBody(msgs.invalidID)), [])
      case Some(id) =>
        Outcome(
          [Line(DEBUG, FetchingMessage(id))],
          Reply(StatusOK, UserIdBody(id)),
          [Line(INFO, ReturnedMessage(id))])
  }

  /** The decimal rendering of every `int`, and of a non-negative one with a leading `+`, is answered 200 with that number. */
  lemma GetUserAcceptsEveryInt(msgs: Messages, n: int)
    requires MinInt <= n <= MaxInt
    ensures GetUserOutcome(msgs, Itoa(n)).response == Reply(StatusOK, UserIdBody(n))
    ensures n >= 0 ==> GetUserOutcome(msgs, "+" + Itoa(n)).response == Reply(StatusOK, UserIdBody(n))
  {
    AtoiItoa(n);
    if n >= 0 {
      AtoiPlusItoa(n);
    }
  }

  /** A missing `id` is answered 400 and logged as one WARN. */
  lemma GetUserMissingId(msgs: Messages)
    ensures GetUserOutcome(msgs, "") ==
      Outcome([Line(WARN, MissingIdMessage)], Reply(StatusBadRequest, ErrorBody(msgs.invalidID)), [])
  {
  }

  /** Success logs DEBUG before the response and INFO after it; the error paths log no INFO. */
  lemma GetUserLogOrder(msgs: Messages, idStr: string)
    ensures var o := GetUserOutcome(msgs, idStr);
      o.response.status == StatusOK ==>
        |o.before| == 1 && o.before[0].level == DEBUG && |o.after| == 1 && o.after[0].level == INFO
    ensures var o := GetUserOutcome(msgs, idStr);
      o.response.status != StatusOK ==> forall i :: 0 <= i < |o.Lines()| ==> o.Lines()[i].level != INFO
  {
  }

  /** `POST`: 400 with `InvalidName` for an undecodable body or an empty name, 201 echoing the name otherwise. */
  function CreateUserOutcome(msgs: Messages, payload: Payload): (o: Outcome)
    ensures o.response.contentType == JsonContentType
    ensures payload.Malformed? ==>
      o.response == Reply(StatusBadRequest, ErrorBody(msgs.invalidName)) && |o.Lines()| == 1 && o.Lines()[0].level == ERROR
    ensures payload == Decoded("") ==>
      o.response == Reply(StatusBadRequest, ErrorBody(msgs.invalidName)) && |o.Lines()| == 1 && o.Lines()[0].level == WARN
    ensures payload.Decoded? && payload.name != "" ==>
      o.response == Reply(StatusCreated, CreatedBody(payload.name))
  {
    match payload
    case Malformed(reason) =>
      Outcome([Line(ERROR, DecodeFailedMessage(reason))], Reply(StatusBadRequest, ErrorBody(msgs.invalidName)), [])
    case Decoded(name) =>
      if name == "" then
        Outcome([Line(WARN, EmptyNameMessage)], Reply(StatusBadRequest, ErrorBody(msgs.invalidName)), [])
      else
        Outcome(
          [Line(DEBUG, CreatingMessage(name))],
          Reply(StatusCreated, CreatedBody(name)),
          [Line(INFO, CreatedMessage(name))])
  }

  /**
   * A decode failure is logged on the error stream whatever the threshold,
   * while an empty name is a WARN that a threshold of ERROR suppresses.
   */
  lemma CreateUserDecodeFailureAlwaysLogged(msgs: Messages, threshold: Level, reason: string)
    ensures Stderr(threshold, CreateUserOutcome(msgs, Malformed(reason)).Lines()) ==
      [Line(ERROR, DecodeFailedMessage(reason))]
    ensures Stdout(threshold, CreateUserOutcome(msgs, Malformed(reason)).Lines()) == []
    ensures Stderr(threshold, CreateUserOutcome(msgs, Decoded("")).Lines()) == []
    ensures Stdout(ERROR, CreateUserOutcome(msgs, Decoded("")).Lines()) == []
  {
    var o := CreateUserOutcome(msgs, Malformed(reason));
    assert o.Lines() == [Line(ERROR, DecodeFailedMessage(reason))];
    ErrorAlwaysEmitted(threshold, DecodeFailedMessage(reason));
    var e := CreateUserOutcome(msgs, Decoded(""));
    assert e.Lines() == [Line(WARN, EmptyNameMessage)];
  }

  /** Success logs DEBUG before the response and INFO after it. */
  lemma CreateUserLogOrder(msgs: Messages, name: string)
    requires name != ""
    ensures var o := CreateUserOutcome(msgs, Decoded(name));
      |o.before| == 1 && o.before[0].level == DEBUG && |o.after| == 1 && o.after[0].level == INFO
  {
  }

  lemma HandlerExamples(msgs: Messages)
    requires msgs == Translations["en"]
    ensures GetUserOutcome(msgs, "42").response == Reply(StatusOK, UserIdBody(42))
    ensures GetUserOutcome(msgs, "").response == Reply(StatusBadRequest, ErrorBody("invalid id"))
    ensures GetUserOutcome(msgs, "abc").response == Reply(StatusBadRequest, ErrorBody("invalid id"))
    ensures CreateUserOutcome(msgs, Decoded("Alice")).response == Reply(StatusCreated, CreatedBody("Alice"))
    ensures CreateUserOutcome(msgs, Decoded("")).response == Reply(StatusBadRequest, ErrorBody("invalid name"))
  {
    assert Magnitude("abc") == "abc" && !IsDigit("abc"[0]);
    assert Atoi("abc") == None;
    assert Magnitude("42") == "42";
    assert "42"[..1] == "4";
    assert DigitsValue("42") == 42;
  }

  /** The handler behind `GET`: resolve the locale, then answer for the `id` query parameter. */
  method GetUser(w: ResponseWriter, r: Request, cat: Catalog, log: Logger)
    requires log.ready
    modifies w, log`stdout, log`stderr
    ensures Performed(w, log, GetUserOutcome(Localize(cat, r), QueryValue(r, "id")))
  {
    var msg := Localize(cat, r);
    AnswerGetUser(w, msg, QueryValue(r, "id"), log);
  }

  /** The body of `GetUser` once the bundle is chosen: validate `id`, log, answer. */
  method AnswerGetUser(w: ResponseWriter, msg: Messages, idStr: string, log: Logger)
    requires log.ready
    modifies w, log`stdout, log`stderr
    ensures Performed(w, log, GetUserOutcome(msg, idStr))
  {
    if idStr == "" {
      log.Warn(MissingIdMessage);
      w.WriteJson(StatusBadRequest, ErrorBody(msg.invalidID));
      return;
    }

    var parsed := Atoi(idStr);
    if parsed.None? {
      log.Warn(InvalidIdMessage(idStr));
      w.WriteJson(StatusBadRequest, ErrorBody(msg.invalidID));
      return;
    }
    var id := parsed.value;

    log.Debug(FetchingMessage(id));
    w.WriteJson(StatusOK, UserIdBody(id));
    log.Info(ReturnedMessage(id));
  }

  /** The handler behind `POST`: resolve the locale, then answer for the decoded body. */
  method CreateUser(w: ResponseWriter, r: Request, cat: Catalog, log: Logger)
    requires log.ready
    modifies w, log`stdout, log`stderr
    ensures Performed(w, log, CreateUserOutcome(Localize(cat, r), r.body))
  {
    var msg := Localize(cat, r);
    AnswerCreateUser(w, msg, r.body, log);
  }

  /** The body of `CreateUser` once the bundle is chosen: check the payload, log, answer. */
  method AnswerCreateUser(w: ResponseWriter, msg: Messages, payload: Payload, log: Logger)
    requires log.ready
    modifies w, log`stdout, log`stderr
    ensures Performed(w, log, CreateUserOutcome(msg, payload))
  {
    if payload.Malformed? {
      log.Error(DecodeFailedMessage(payload.reason));
      w.WriteJson(StatusBadRequest, ErrorBody(msg.invalidName));
      return;
    }
    var name := payload.name;

    if name == "" {
      log.Warn(EmptyNameMessage);
      w.WriteJson(StatusBadRequest, ErrorBody(msg.invalidName));
      return;
    }

    log.Debug(CreatingMessage(name));
    w.WriteJson(StatusCreated, CreatedBody(name));
    log.Info(CreatedMessage(name));
  }
}
