/**
 * The Flask-RESTX application: `POST /feedings/` and `GET /feedings/`,
 * both wrapped by `observe_track` and both reporting business events to the
 * telemetry layer, and `GET /stats/`.
 *
 * A handler's work is described by a plan: the log calls it makes, in order,
 * and what it returns or aborts with, assuming the telemetry layer does not
 * raise. The methods are proved to publish exactly the planned events, and to
 * end with the planned outcome unless the telemetry configuration makes every
 * log call raise.
 */
module AppSwagger {
  import opened Wrappers
  import opened PyValues
  import opened Sources
  import opened Feedings
  import opened ObserveLogging

  /** The local configuration file this application reads. */
  const DbConfigFile: string := "config/db_config.json"
  /** `str(e)` of the exception `api.abort(400, ...)` raises: the message goes to `e.data`, not here. */
  const BadRequestText: string := "400 Bad Request: The browser (or proxy) sent a request that this server could not understand."
  const InternalErrorText: string :=
    "500 Internal Server Error: The server encountered an internal error and was unable to complete your request. Either the server is overloaded or there is an error in the application."

  /** How a handler ends: it returns a body and status, calls `api.abort(status, message)`, or raises. */
  datatype Outcome = Returned(body: Value, status: int) | Aborted(status: int, message: string) | Raised(e: Exc)

  /** The exception `api.abort(status, ...)` raises. */
  function HttpError(status: int): Exc {
    if status == 400 then Exc("BadRequest", BadRequestText) else Exc("InternalServerError", InternalErrorText)
  }

  /** The handler's outcome as `observe_track` sees it: a return value or an exception. */
  function AsCall(o: Outcome): Result<Value, Exc> {
    match o
    case Returned(body, _) => Ok(body)
    case Aborted(status, _) => Err(HttpError(status))
    case Raised(e) => Err(e)
  }

  /** A call a handler makes on the telemetry layer. */
  datatype LogCall = Business(eventType: string, data: Value, level: string) | Failure(error: Exc, context: Value)

  /** The record a log call builds, given the request id, the time and the service name. */
  function Render(c: LogCall, requestId: Option<string>, now: string, service: Value): Event {
    match c
    case Business(eventType, data, level) => BusinessEvent(eventType, requestId, level, data, now, service)
    case Failure(error, context) => ErrorEvent(error, requestId, context, now, service)
  }

  /** The printed events for `calls`, on a configuration whose service name can be read. */
  function Stamps(config: Value, calls: seq<LogCall>, requestId: Option<string>, now: string): (es: seq<Event>)
    requires ServiceName(config).Ok?
    ensures |es| == |calls|
    ensures forall i | 0 <= i < |calls| ::
              es[i] == Stamped(config, Render(calls[i], requestId, now, ServiceName(config).value)).value
  {
    if calls == [] then []
    else
      var rest := Stamps(config, calls[1..], requestId, now);
      assert forall i | 1 <= i < |calls| :: calls[i] == calls[1..][i - 1];
      [Stamped(config, Render(calls[0], requestId, now, ServiceName(config).value)).value] + rest
  }

  /**
   * What a run of log calls prints: nothing when the layer is disabled, and
   * nothing when the configuration makes the first call raise.
   */
  function Published(config: Value, enabled: bool, calls: seq<LogCall>, requestId: Option<string>, now: string): seq<Event> {
    if enabled && ServiceName(config).Ok? then Stamps(config, calls, requestId, now) else []
  }

  /** The outcome once the telemetry layer has had its say: every log call raises on a bad configuration. */
  function Effective(config: Value, enabled: bool, o: Outcome): Outcome {
    if enabled && ServiceName(config).Err? then Raised(ServiceName(config).error) else o
  }

  lemma {:induction false} StampsAppend(config: Value, calls: seq<LogCall>, c: LogCall, requestId: Option<string>, now: string)
    requires ServiceName(config).Ok?
    ensures Stamps(config, calls + [c], requestId, now)
            == Stamps(config, calls, requestId, now) + [Stamped(config, Render(c, requestId, now, ServiceName(config).value)).value]
  {
    if calls == [] {
      assert calls + [c] == [c];
    } else {
      assert (calls + [c])[1..] == calls[1..] + [c];
      StampsAppend(config, calls[1..], c, requestId, now);
    }
  }

  /** One more log call adds at most its own record to what is printed. */
  lemma PublishedAppend(config: Value, enabled: bool, calls: seq<LogCall>, c: LogCall, requestId: Option<string>, now: string)
    ensures Published(config, enabled, calls + [c], requestId, now)
            == Published(config, enabled, calls, requestId, now)
               + (if enabled && ServiceName(config).Ok?
                  then [Stamped(config, Render(c, requestId, now, ServiceName(config).value)).value] else [])
  {
    if enabled && ServiceName(config).Ok? {
      StampsAppend(config, calls, c, requestId, now);
    }
  }

  /** The record `observe_track(event_type)` logs for a call of `funcName` that ended with `o`. */
  function TrackCall(eventType: string, funcName: string, durationMs: real, o: Outcome): LogCall {
    if AsCall(o).Ok? then Business(eventType, TrackData(funcName, durationMs, true, map[]), "INFO")
    else Failure(AsCall(o).error, TrackErrorContext(funcName, durationMs))
  }

  /** Issues one log call: `log_business_event` or `log_error`. */
  method Log(logger: ObserveLogger, c: LogCall, ghost base: seq<Event>, ghost calls: seq<LogCall>,
             requestId: Option<string>, now: string) returns (raised: Option<Exc>)
    requires logger.published == base + Published(logger.config, logger.enabled, calls, requestId, now)
    modifies logger`published
    ensures logger.published == base + Published(logger.config, logger.enabled, calls + [c], requestId, now)
    ensures raised == (if logger.enabled && ServiceName(logger.config).Err? then Some(ServiceName(logger.config).error)
                       else None)
  {
    raised := Issue(logger, c, requestId, now);
    PublishedAppend(logger.config, logger.enabled, calls, c, requestId, now);
  }

  method Issue(logger: ObserveLogger, c: LogCall, requestId: Option<string>, now: string) returns (raised: Option<Exc>)
    modifies logger`published
    ensures logger.published == old(logger.published)
              + (if logger.enabled && ServiceName(logger.config).Ok?
                 then [Stamped(logger.config, Render(c, requestId, now, ServiceName(logger.config).value)).value] else [])
    ensures raised == (if logger.enabled && ServiceName(logger.config).Err? then Some(ServiceName(logger.config).error)
                       else None)
  {
    match c
    case Business(eventType, data, level) =>
      raised := logger.LogBusinessEvent(eventType, data, level, requestId, now);
    case Failure(error, context) =>
      raised := logger.LogError(error, context, requestId, now);
  }

  /**
   * `observe_track(event_type)` around a handler that ended with `o`, the
   * planned outcome once the telemetry layer has had its say: the wrapper
   * logs once more and passes `o` on.
   */
  method Track(logger: ObserveLogger, eventType: string, funcName: string, durationMs: real, o: Outcome,
               ghost planned: Outcome, ghost base: seq<Event>, ghost calls: seq<LogCall>,
               requestId: Option<string>, now: string) returns (outcome: Outcome)
    requires o == Effective(logger.config, logger.enabled, planned)
    requires logger.published == base + Published(logger.config, logger.enabled, calls, requestId, now)
    modifies logger
    ensures logger.config == old(logger.config) && logger.enabled == old(logger.enabled)
    ensures outcome == o
    ensures logger.published
            == base + Published(logger.config, logger.enabled, calls + [TrackCall(eventType, funcName, durationMs, planned)],
                                requestId, now)
  {
    ghost var config, enabled, before := logger.config, logger.enabled, logger.published;
    var r := ObserveTrack(logger, eventType, true, funcName, map[], durationMs, AsCall(o), requestId, now);
    PublishedAppend(config, enabled, calls, TrackCall(eventType, funcName, durationMs, planned), requestId, now);
    if enabled && ServiceName(config).Ok? {
      RenderTrackCall(eventType, funcName, durationMs, planned, requestId, now, ServiceName(config).value);
      assert r == AsCall(o);
      assert logger.published
             == before + [Stamped(config, Render(TrackCall(eventType, funcName, durationMs, planned), requestId, now,
                                                 ServiceName(config).value)).value];
    } else {
      assert r == AsCall(o);
      assert logger.published == before;
    }
    // The wrapper hands back what the call gave it, which `o` already is.
    outcome := o;
  }

  lemma RenderTrackCall(eventType: string, funcName: string, durationMs: real, o: Outcome,
                        requestId: Option<string>, now: string, service: Value)
    ensures Render(TrackCall(eventType, funcName, durationMs, o), requestId, now, service)
            == if AsCall(o).Ok? then BusinessEvent(eventType, requestId, "INFO", TrackData(funcName, durationMs, true, map[]), now, service)
               else ErrorEvent(AsCall(o).error, requestId, TrackErrorContext(funcName, durationMs), now, service)
  {
  }

  // ---------------------------------------------------------------------------
  // POST /feedings/

  function PostContext(data: Value): Value {
    VObj(map["endpoint" := VStr("/feedings/"), "method" := VStr("POST"), "data" := data])
  }

  function Lookup(fields: map<string, Value>, key: string): Value {
    if key in fields then fields[key] else VNull
  }

  function ReceivedData(fields: map<string, Value>): Value {
    VObj(map["bird_type" := Lookup(fields, "bird_type"), "food_type" := Lookup(fields, "food_type"),
             "quantity" := Lookup(fields, "quantity")])
  }

  function KeyValues(keys: seq<string>): (vs: seq<Value>)
    ensures |vs| == |keys| && forall i | 0 <= i < |keys| :: vs[i] == VStr(keys[i])
  {
    if keys == [] then [] else [VStr(keys[0])] + KeyValues(keys[1..])
  }

  function ValidationData(field: string, keys: seq<string>): Value {
    VObj(map["missing_field" := VStr(field), "provided_data" := VList(KeyValues(keys))])
  }

  function CreatedData(id: nat, fields: map<string, Value>): Value {
    VObj(map["feeding_id" := VInt(id), "bird_type" := Lookup(fields, "bird_type"),
             "food_type" := Lookup(fields, "food_type"), "quantity" := Lookup(fields, "quantity")])
  }

  function CreatedBody(id: nat, clock: string): Value {
    VObj(map["message" := VStr("Feeding recorded successfully"), "id" := VInt(id), "timestamp" := VStr(clock)])
  }

  /** A handler's log calls and how it ends. */
  datatype Plan = Plan(calls: seq<LogCall>, outcome: Outcome)

  /** How the `try` block of a handler ends: normally, or with an exception the catch-all receives. */
  datatype TryEnd = Done(outcome: Outcome) | Caught(e: Exc)

  /**
   * The `try` block of `Feedings.post` for a JSON object, with `keys` the
   * order `list(data.keys())` gives and `nextId` the next AUTOINCREMENT id.
   * When `httpErrorsEscape` is false this is the code as written: the 400
   * abort is raised inside the `try` and reaches the catch-all. When it is
   * true, that validation abort leaves the handler as it is.
   */
  function PostTry(fields: map<string, Value>, keys: seq<string>, nextId: nat, clock: string, httpErrorsEscape: bool)
    : (seq<LogCall>, TryEnd)
  {
    PostChecks(fields, keys, nextId, clock, httpErrorsEscape, [Business("feeding_request_received", ReceivedData(fields), "INFO")])
  }

  /**
   * The `try` block after the log calls `prefix` (`feeding_request_received`):
   * validation, the insert, `feeding_created_successfully`.
   */
  function PostChecks(fields: map<string, Value>, keys: seq<string>, nextId: nat, clock: string, httpErrorsEscape: bool,
                      prefix: seq<LogCall>)
    : (seq<LogCall>, TryEnd)
  {
    var data := VObj(fields);
    match FirstLacking(data, RequiredFields)
    case Err(e) => (prefix, Caught(e))
    case Ok(Some(field)) =>
      var warned := Business("feeding_validation_failed", ValidationData(field, keys), "WARNING");
      if httpErrorsEscape then (prefix + [warned], Done(Aborted(400, MissingFieldMessage(field))))
      else (prefix + [warned], Caught(HttpError(400)))
    case Ok(None) =>
      match FeedingValues(data)
      case Err(e) => (prefix, Caught(e))
      case Ok(_) =>
        (prefix + [Business("feeding_created_successfully", CreatedData(nextId, fields), "INFO")],
         Done(Returned(CreatedBody(nextId, clock), 201)))
  }

  /** The catch-all: `log_error(e, {...})` then `api.abort(500, str(e))`. */
  function PostExcept(calls: seq<LogCall>, e: Exc, data: Value): Plan {
    Plan(calls + [Failure(e, PostContext(data))], Aborted(500, e.message))
  }

  /** Everything `Feedings.post` does for the request body (`request.get_json()`, which may raise). */
  function PostPlan(body: Result<Value, Exc>, keys: seq<string>, nextId: nat, clock: string, httpErrorsEscape: bool): Plan {
    match body
    case Err(e) => PostExcept([], e, VNull)
    case Ok(data) =>
      if !data.VObj? then PostExcept([], AttributeError(data, "get"), data)
      else
        var (calls, end) := PostTry(data.fields, keys, nextId, clock, httpErrorsEscape);
        match end
        case Done(o) => Plan(calls, o)
        case Caught(e) => PostExcept(calls, e, data)
  }

  /**
   * Every plan returns or aborts. It returns 201 with the new id exactly when
   * validation and the insert succeed; a 400 is possible only when the
   * validation abort escapes; every 500 follows an error event; and a dict body is announced first.
   */
  lemma PostPlanOutcomes(body: Result<Value, Exc>, keys: seq<string>, nextId: nat, clock: string, httpErrorsEscape: bool)
    ensures var p := PostPlan(body, keys, nextId, clock, httpErrorsEscape);
            && (p.outcome.Returned? || p.outcome.Aborted?)
            && (p.outcome.Returned? <==>
                  body.Ok? && body.value.VObj? && FirstLacking(body.value, RequiredFields) == Ok(None)
                  && FeedingValues(body.value).Ok?)
            && (p.outcome.Returned? ==> p.outcome == Returned(CreatedBody(nextId, clock), 201))
            && (p.outcome.Aborted? ==> p.outcome.status == 500 || (httpErrorsEscape && p.outcome.status == 400))
            && (p.outcome.Aborted? && p.outcome.status == 500 ==> p.calls != [] && p.calls[|p.calls| - 1].Failure?)
            && (body.Ok? && body.value.VObj? ==>
                  p.calls != [] && p.calls[0] == Business("feeding_request_received", ReceivedData(body.value.fields), "INFO"))
  {
  }

  /**
   * As written, a request that lacks a required field ends in a 500 whose
   * message is werkzeug's generic "400 Bad Request" text: the name of the
   * missing field never reaches the client.
   */
  lemma ValidationFailureBecomes500(fields: map<string, Value>, keys: seq<string>, nextId: nat, clock: string)
    requires FirstLacking(VObj(fields), RequiredFields).Ok? && FirstLacking(VObj(fields), RequiredFields).value.Some?
    ensures PostPlan(Ok(VObj(fields)), keys, nextId, clock, false).outcome == Aborted(500, BadRequestText)
    ensures |PostPlan(Ok(VObj(fields)), keys, nextId, clock, false).calls| == 3
    ensures PostPlan(Ok(VObj(fields)), keys, nextId, clock, false).calls[2] == Failure(HttpError(400), PostContext(VObj(fields)))
  {
  }

  /** A concrete request: no `bird_type`. */
  lemma MissingBirdTypeExample(keys: seq<string>, nextId: nat, clock: string)
    ensures var body := Ok(VObj(map["food_type" := VStr("Seeds"), "quantity" := VInt(25)]));
            PostPlan(body, keys, nextId, clock, false).outcome == Aborted(500, BadRequestText)
            && PostPlan(body, keys, nextId, clock, true).outcome == Aborted(400, "Missing required field: bird_type")
  {
    var fields := map["food_type" := VStr("Seeds"), "quantity" := VInt(25)];
    assert "bird_type" !in fields by { assert "bird_type"[0] != "food_type"[0] && "bird_type"[0] != "quantity"[0]; }
    FirstLackingAt(VObj(fields), RequiredFields, 0);
  }

  /** With the validation abort let through, the client gets 400 and the missing field's name. */
  lemma ValidationFailureIs400WhenCorrected(fields: map<string, Value>, keys: seq<string>, nextId: nat, clock: string)
    requires FirstLacking(VObj(fields), RequiredFields).Ok? && FirstLacking(VObj(fields), RequiredFields).value.Some?
    ensures PostPlan(Ok(VObj(fields)), keys, nextId, clock, true).outcome
            == Aborted(400, MissingFieldMessage(FirstLacking(VObj(fields), RequiredFields).value.value))
    ensures |PostPlan(Ok(VObj(fields)), keys, nextId, clock, true).calls| == 2
  {
  }

  /** Both variants agree on every request that passes validation or never reaches it. */
  lemma {:induction false} VariantsAgreeOutsideValidation(body: Result<Value, Exc>, keys: seq<string>, nextId: nat, clock: string)
    requires !(body.Ok? && body.value.VObj? && FirstLacking(body.value, RequiredFields).Ok?
               && FirstLacking(body.value, RequiredFields).value.Some?)
    ensures PostPlan(body, keys, nextId, clock, false) == PostPlan(body, keys, nextId, clock, true)
  {
  }

  /** A created record is announced after the request is logged, and carries the new id. */
  lemma {:induction false} SuccessfulPostEvents(fields: map<string, Value>, keys: seq<string>, nextId: nat, clock: string,
                                                httpErrorsEscape: bool)
    requires FirstLacking(VObj(fields), RequiredFields) == Ok(None) && FeedingValues(VObj(fields)).Ok?
    ensures var p := PostPlan(Ok(VObj(fields)), keys, nextId, clock, httpErrorsEscape);
            p.outcome == Returned(CreatedBody(nextId, clock), 201)
            && |p.calls| == 2
            && p.calls[0].Business? && p.calls[0].eventType == "feeding_request_received"
            && p.calls[1].Business? && p.calls[1].eventType == "feeding_created_successfully"
            && p.calls[1].data.fields["feeding_id"] == VInt(nextId)
  {
    assert "feeding_id"[0] != "bird_type"[0] && "feeding_id"[1] != "food_type"[1] && "feeding_id"[0] != "quantity"[0];
  }

  /** The row `post` inserts when it gets that far. */
  function PostRow(body: Result<Value, Exc>, id: nat, now: string): Option<Row> {
    if body.Ok? && FeedingValues(body.value).Ok? then
      var v := FeedingValues(body.value).value;
      Some(Row(id, v.birdType, v.foodType, v.quantity, v.location, v.notes, now))
    else None
  }

  /** The `try` block of `Feedings.post` for a JSON object. */
  method PostTryBlock(logger: ObserveLogger, table: FeedingTable, fields: map<string, Value>, requestId: Option<string>,
                      now: string, clock: string, httpErrorsEscape: bool, ghost base: seq<Event>)
    returns (end: TryEnd, providedKeys: seq<string>)
    requires table.Valid()
    requires logger.published == base
    modifies logger`published, table
    ensures table.Valid()
    ensures !(logger.enabled && ServiceName(logger.config).Err?) && FirstLacking(VObj(fields), RequiredFields).Ok?
            && FirstLacking(VObj(fields), RequiredFields).value.Some? ==>
              (forall k :: k in providedKeys <==> k in fields)
              && forall i, j | 0 <= i < j < |providedKeys| :: providedKeys[i] != providedKeys[j]
    ensures logger.published
            == base + Published(logger.config, logger.enabled,
                                PostTry(fields, providedKeys, old(table.lastId) + 1, clock, httpErrorsEscape).0, requestId, now)
    ensures end == if logger.enabled && ServiceName(logger.config).Err? then Caught(ServiceName(logger.config).error)
                   else PostTry(fields, providedKeys, old(table.lastId) + 1, clock, httpErrorsEscape).1
    ensures end.Done? && end.outcome.Returned? ==>
              PostRow(Ok(VObj(fields)), old(table.lastId) + 1, now).Some?
              && table.rows == old(table.rows) + [PostRow(Ok(VObj(fields)), old(table.lastId) + 1, now).value]
    ensures !(end.Done? && end.outcome.Returned?) ==> table.rows == old(table.rows) && table.lastId == old(table.lastId)
  {
    var received := Business("feeding_request_received", ReceivedData(fields), "INFO");
    var _ := Log(logger, received, base, [], requestId, now);
    // The call raises exactly when the service name cannot be read.
    if logger.enabled && ServiceName(logger.config).Err? {
      return Caught(ServiceName(logger.config).error), [];
    }
    end, providedKeys := PostCheckBlock(logger, table, fields, requestId, now, clock, httpErrorsEscape, base, [received]);
  }

  /** The rest of the `try` block, once `feeding_request_received` is logged without raising. */
  method PostCheckBlock(logger: ObserveLogger, table: FeedingTable, fields: map<string, Value>, requestId: Option<string>,
                        now: string, clock: string, httpErrorsEscape: bool, ghost base: seq<Event>, ghost prefix: seq<LogCall>)
    returns (end: TryEnd, providedKeys: seq<string>)
    requires table.Valid()
    requires !(logger.enabled && ServiceName(logger.config).Err?)
    requires logger.published == base + Published(logger.config, logger.enabled, prefix, requestId, now)
    modifies logger`published, table
    ensures table.Valid()
    ensures FirstLacking(VObj(fields), RequiredFields).Ok? && FirstLacking(VObj(fields), RequiredFields).value.Some? ==>
              (forall k :: k in providedKeys <==> k in fields)
              && forall i, j | 0 <= i < j < |providedKeys| :: providedKeys[i] != providedKeys[j]
    ensures logger.published
            == base + Published(logger.config, logger.enabled,
                                PostChecks(fields, providedKeys, old(table.lastId) + 1, clock, httpErrorsEscape, prefix).0,
                                requestId, now)
    ensures end == PostChecks(fields, providedKeys, old(table.lastId) + 1, clock, httpErrorsEscape, prefix).1
    ensures end.Done? && end.outcome.Returned? ==>
              PostRow(Ok(VObj(fields)), old(table.lastId) + 1, now).Some?
              && table.rows == old(table.rows) + [PostRow(Ok(VObj(fields)), old(table.lastId) + 1, now).value]
    ensures !(end.Done? && end.outcome.Returned?) ==> table.rows == old(table.rows) && table.lastId == old(table.lastId)
  {
    var data := VObj(fields);
    var missing := FirstMissingField(data);
    if missing.value.Some? {
      end, providedKeys := RejectMissing(logger, fields, missing.value.value, requestId, now, httpErrorsEscape, base, prefix);
      return;
    }
    providedKeys := [];
    var values := FeedingValues(data);
    if values.Err? {
      return Caught(values.error), providedKeys;
    }
    var id := RecordFeeding(logger, table, fields, values.value, requestId, now, base, prefix);
    end := Done(Returned(CreatedBody(id, clock), 201));
  }

  /** A required field is missing: `feeding_validation_failed` with the keys provided, then the 400 abort. */
  method RejectMissing(logger: ObserveLogger, fields: map<string, Value>, field: string, requestId: Option<string>,
                       now: string, httpErrorsEscape: bool, ghost base: seq<Event>, ghost prefix: seq<LogCall>)
    returns (end: TryEnd, providedKeys: seq<string>)
    requires logger.published == base + Published(logger.config, logger.enabled, prefix, requestId, now)
    modifies logger`published
    ensures (forall k :: k in providedKeys <==> k in fields)
            && forall i, j | 0 <= i < j < |providedKeys| :: providedKeys[i] != providedKeys[j]
    ensures logger.published
            == base + Published(logger.config, logger.enabled,
                                prefix + [Business("feeding_validation_failed", ValidationData(field, providedKeys), "WARNING")],
                                requestId, now)
    ensures end == if httpErrorsEscape then Done(Aborted(400, MissingFieldMessage(field))) else Caught(HttpError(400))
  {
    providedKeys := KeyList(fields);
    var warned := Business("feeding_validation_failed", ValidationData(field, providedKeys), "WARNING");
    var _ := Log(logger, warned, base, prefix, requestId, now);
    if httpErrorsEscape {
      return Done(Aborted(400, MissingFieldMessage(field))), providedKeys;
    }
    return Caught(HttpError(400)), providedKeys;
  }

  /** The insert and `feeding_created_successfully` with the new id. */
  method RecordFeeding(logger: ObserveLogger, table: FeedingTable, fields: map<string, Value>, v: NewFeeding,
                       requestId: Option<string>, now: string, ghost base: seq<Event>, ghost prefix: seq<LogCall>)
    returns (id: nat)
    requires table.Valid()
    requires logger.published == base + Published(logger.config, logger.enabled, prefix, requestId, now)
    modifies logger`published, table
    ensures table.Valid()
    ensures id == old(table.lastId) + 1
    ensures table.rows == old(table.rows) + [Row(id, v.birdType, v.foodType, v.quantity, v.location, v.notes, now)]
    ensures logger.published
            == base + Published(logger.config, logger.enabled,
                                prefix + [Business("feeding_created_successfully", CreatedData(id, fields), "INFO")],
                                requestId, now)
  {
    id := table.Insert(v, now);
    var _ := Log(logger, Business("feeding_created_successfully", CreatedData(id, fields), "INFO"), base, prefix, requestId, now);
  }

  /** `Feedings.post` itself, without the `observe_track` wrapper. */
  method PostHandler(logger: ObserveLogger, table: FeedingTable, body: Result<Value, Exc>, requestId: Option<string>,
                     now: string, clock: string, httpErrorsEscape: bool) returns (outcome: Outcome, providedKeys: seq<string>)
    requires table.Valid()
    modifies logger`published, table
    ensures table.Valid()
    ensures !(logger.enabled && ServiceName(logger.config).Err?) && body.Ok? && body.value.VObj?
            && FirstLacking(body.value, RequiredFields).Ok? && FirstLacking(body.value, RequiredFields).value.Some? ==>
              (forall k :: k in providedKeys <==> k in body.value.fields)
              && forall i, j | 0 <= i < j < |providedKeys| :: providedKeys[i] != providedKeys[j]
    ensures var plan := PostPlan(body, providedKeys, old(table.lastId) + 1, clock, httpErrorsEscape);
            outcome == Effective(logger.config, logger.enabled, plan.outcome)
            && logger.published == old(logger.published) + Published(logger.config, logger.enabled, plan.calls, requestId, now)
    ensures outcome.Returned? ==>
              PostRow(body, old(table.lastId) + 1, now).Some?
              && table.rows == old(table.rows) + [PostRow(body, old(table.lastId) + 1, now).value]
    ensures !outcome.Returned? ==> table.rows == old(table.rows) && table.lastId == old(table.lastId)
  {
    providedKeys := [];
    ghost var base := logger.published;
    ghost var calls: seq<LogCall> := [];
    var failure: Exc;
    var context: Value;
    if body.Err? {
      failure, context := body.error, PostContext(VNull);
    } else if !body.value.VObj? {
      failure, context := AttributeError(body.value, "get"), PostContext(body.value);
    } else {
      var end;
      end, providedKeys := PostTryBlock(logger, table, body.value.fields, requestId, now, clock, httpErrorsEscape, base);
      calls := PostTry(body.value.fields, providedKeys, old(table.lastId) + 1, clock, httpErrorsEscape).0;
      if end.Done? {
        return end.outcome, providedKeys;
      }
      failure, context := end.e, PostContext(body.value);
    }
    // except Exception as e: log the error, then abort with 500
    var raised := Log(logger, Failure(failure, context), base, calls, requestId, now);
    if raised.Some? {
      return Raised(raised.value), providedKeys;
    }
    return Aborted(500, failure.message), providedKeys;
  }


  /**
   * `POST /feedings/` as written: `Feedings.post` under
   * `observe_track('bird_feeding_created')`, which records one more event for
   * the call and passes its outcome on.
   */
  method PostFeeding(logger: ObserveLogger, table: FeedingTable, body: Result<Value, Exc>, requestId: Option<string>,
                     now: string, clock: string, durationMs: real) returns (outcome: Outcome, providedKeys: seq<string>)
    requires table.Valid()
    modifies logger, table
    ensures table.Valid()
    ensures logger.config == old(logger.config) && logger.enabled == old(logger.enabled)
    ensures var plan := PostPlan(body, providedKeys, old(table.lastId) + 1, clock, false);
            outcome == Effective(logger.config, logger.enabled, plan.outcome)
            && logger.published == old(logger.published)
               + Published(logger.config, logger.enabled,
                           plan.calls + [TrackCall("bird_feeding_created", "post", durationMs, plan.outcome)], requestId, now)
    ensures outcome.Returned? ==>
              PostRow(body, old(table.lastId) + 1, now).Some?
              && table.rows == old(table.rows) + [PostRow(body, old(table.lastId) + 1, now).value]
    ensures !outcome.Returned? ==> table.rows == old(table.rows) && table.lastId == old(table.lastId)
  {
    outcome, providedKeys := TrackedPost(logger, table, body, requestId, now, clock, durationMs, false);
  }

  /**
   * `POST /feedings/` with the validation abort let through the catch-all:
   * a validation failure reaches the client as a 400 naming the missing
   * field. Only that abort escapes; every other exception, a `BadRequest`
   * from `get_json` included, still ends in a 500.
   */
  method PostFeedingCorrected(logger: ObserveLogger, table: FeedingTable, body: Result<Value, Exc>, requestId: Option<string>,
                              now: string, clock: string, durationMs: real) returns (outcome: Outcome, providedKeys: seq<string>)
    requires table.Valid()
    modifies logger, table
    ensures table.Valid()
    ensures logger.config == old(logger.config) && logger.enabled == old(logger.enabled)
    ensures var plan := PostPlan(body, providedKeys, old(table.lastId) + 1, clock, true);
            outcome == Effective(logger.config, logger.enabled, plan.outcome)
            && logger.published == old(logger.published)
               + Published(logger.config, logger.enabled,
                           plan.calls + [TrackCall("bird_feeding_created", "post", durationMs, plan.outcome)], requestId, now)
    ensures outcome.Returned? ==>
              PostRow(body, old(table.lastId) + 1, now).Some?
              && table.rows == old(table.rows) + [PostRow(body, old(table.lastId) + 1, now).value]
    ensures !outcome.Returned? ==> table.rows == old(table.rows) && table.lastId == old(table.lastId)
  {
    outcome, providedKeys := TrackedPost(logger, table, body, requestId, now, clock, durationMs, true);
  }

  method TrackedPost(logger: ObserveLogger, table: FeedingTable, body: Result<Value, Exc>, requestId: Option<string>,
                     now: string, clock: string, durationMs: real, httpErrorsEscape: bool)
    returns (outcome: Outcome, providedKeys: seq<string>)
    requires table.Valid()
    modifies logger, table
    ensures table.Valid()
    ensures logger.config == old(logger.config) && logger.enabled == old(logger.enabled)
    ensures var plan := PostPlan(body, providedKeys, old(table.lastId) + 1, clock, httpErrorsEscape);
            outcome == Effective(logger.config, logger.enabled, plan.outcome)
            && logger.published == old(logger.published)
               + Published(logger.config, logger.enabled,
                           plan.calls + [TrackCall("bird_feeding_created", "post", durationMs, plan.outcome)], requestId, now)
    ensures outcome.Returned? ==>
              PostRow(body, old(table.lastId) + 1, now).Some?
              && table.rows == old(table.rows) + [PostRow(body, old(table.lastId) + 1, now).value]
    ensures !outcome.Returned? ==> table.rows == old(table.rows) && table.lastId == old(table.lastId)
  {
    ghost var base := logger.published;
    var inner;
    inner, providedKeys := PostHandler(logger, table, body, requestId, now, clock, httpErrorsEscape);
    ghost var plan := PostPlan(body, providedKeys, old(table.lastId) + 1, clock, httpErrorsEscape);
    outcome := Track(logger, "bird_feeding_created", "post", durationMs, inner, plan.outcome, base, plan.calls, requestId, now);
  }

  // ---------------------------------------------------------------------------
  // GET /feedings/

  function ListContext(): Value {
    VObj(map["endpoint" := VStr("/feedings/"), "method" := VStr("GET")])
  }

  /** The `feedings_retrieved` call `Feedings.get` makes for the rows it fetched. */
  function RetrievedCall(fetched: seq<Row>): LogCall {
    Business("feedings_retrieved", MetricsValue(RetrievalMetrics(fetched)), "INFO")
  }

  /** `Feedings.get` itself, without the `observe_track` wrapper. */
  method ListHandler(logger: ObserveLogger, table: FeedingTable, requestId: Option<string>, now: string)
    returns (outcome: Outcome, fetched: seq<Row>)
    modifies logger`published
    ensures IsRecentQuery(table.rows, fetched)
    ensures outcome == Effective(logger.config, logger.enabled, Returned(VList(Projections(fetched)), 200))
    ensures logger.published == old(logger.published)
                                + Published(logger.config, logger.enabled, [RetrievedCall(fetched)], requestId, now)
  {
    ghost var base := logger.published;
    fetched := RecentFeedings(table.rows);
    var list := ProjectRows(fetched);
    assert list == Projections(fetched);
    var raised := Log(logger, RetrievedCall(fetched), base, [], requestId, now);
    if raised.Some? {
      // except Exception as e: log_error(e, ...) raises in turn, on the same configuration
      var again := Log(logger, Failure(raised.value, ListContext()), base, [RetrievedCall(fetched)], requestId, now);
      return Raised(again.value), fetched;
    }
    return Returned(VList(list), 200), fetched;
  }

  /** `GET /feedings/`: `Feedings.get` under `observe_track('bird_feedings_retrieved')`. */
  method ListFeedings(logger: ObserveLogger, table: FeedingTable, requestId: Option<string>, now: string, durationMs: real)
    returns (outcome: Outcome, fetched: seq<Row>)
    modifies logger
    ensures logger.config == old(logger.config) && logger.enabled == old(logger.enabled)
    ensures IsRecentQuery(table.rows, fetched)
    ensures outcome == Effective(logger.config, logger.enabled, Returned(VList(Projections(fetched)), 200))
    ensures logger.published == old(logger.published)
              + Published(logger.config, logger.enabled,
                          [RetrievedCall(fetched),
                           TrackCall("bird_feedings_retrieved", "get", durationMs, Returned(VList(Projections(fetched)), 200))],
                          requestId, now)
  {
    ghost var base := logger.published;
    var inner;
    inner, fetched := ListHandler(logger, table, requestId, now);
    outcome := Track(logger, "bird_feedings_retrieved", "get", durationMs, inner, Returned(VList(Projections(fetched)), 200),
                     base, [RetrievedCall(fetched)], requestId, now);
    assert [RetrievedCall(fetched)] + [TrackCall("bird_feedings_retrieved", "get", durationMs, Returned(VList(Projections(fetched)), 200))]
           == [RetrievedCall(fetched), TrackCall("bird_feedings_retrieved", "get", durationMs, Returned(VList(Projections(fetched)), 200))];
  }

  // ---------------------------------------------------------------------------
  // GET /stats/

  /** `Stats.get`. */
  method StatsHandler(table: FeedingTable) returns (outcome: Outcome)
    ensures outcome.Returned? <==> RunningTotalsFit(QuantityColumn(table.rows))
    ensures !outcome.Returned? ==> outcome == Aborted(500, SumOverflowError().message)
    ensures outcome.Returned? ==> (outcome.status == 200 && outcome.body.VObj?
              && outcome.body.fields.Keys == {"total_feedings", "most_common_bird", "most_common_food", "total_food_quantity"}
              && outcome.body.fields["total_feedings"] == VInt(|table.rows|)
              && outcome.body.fields["total_food_quantity"] == VInt(SumInts(QuantityColumn(table.rows))))
    ensures outcome.Returned? && table.rows == [] ==>
              outcome.body.fields["most_common_bird"] == VNull && outcome.body.fields["most_common_food"] == VNull
              && outcome.body.fields["total_food_quantity"] == VInt(0)
    ensures outcome.Returned? && table.rows != [] ==>
              IsMode(BirdColumn(table.rows), outcome.body.fields["most_common_bird"])
              && IsMode(FoodColumn(table.rows), outcome.body.fields["most_common_food"])
  {
    var s := Statistics(table.rows);
    match s
    case Err(e) =>
      return Aborted(500, e.message);
    case Ok(stats) =>
      StatsValueFields(stats);
      return Returned(StatsValue(stats), 200);
  }
}
