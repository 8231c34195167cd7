/**
 * The Observe telemetry layer: where its configuration comes from, when it is
 * enabled, the structured events it publishes around each request and for
 * business events and errors, and the `observe_track` decorator.
 *
 * An event is published by printing it as JSON; the model keeps the printed
 * events, in order, in the logger's `published` field. Clocks, the request id
 * generator and the Flask request object are inputs.
 */
module ObserveLogging {
  import opened Wrappers
  import opened PyValues
  import opened Sources

  /** One structured log record (`log_data`). */
  type Event = map<string, Value>

  const DefaultConfigFile: string := "config/observe_config.json"
  const DefaultServiceName: string := "bird-feeding-api"
  const DefaultCustomerId: string := "demo"
  const DefaultEnvironment: string := "development"
  /** What `getattr(g, 'request_id', 'no-request')` gives outside a request. */
  const NoRequest: string := "no-request"
  /** Keyword arguments `observe_track` never records. */
  const SensitiveKeys: set<string> := {"password", "token", "api_key"}

  function NexusConfigUrl(configFile: string): string {
    NexusRawRepository + configFile
  }

  /** Used when no source supplies a configuration. */
  function DefaultObserveConfig(): Value {
    VObj(map["observe" := VObj(map["enabled" := VBool(false)]),
             "logging" := VObj(map["format" := VStr("json")])])
  }

  /** Used when the local file exists but cannot be read or parsed. */
  function UnreadableObserveConfig(): Value {
    VObj(map["observe" := VObj(map["enabled" := VBool(false)])])
  }

  /**
   * The configuration `load_config` ends with: the local file when it exists,
   * else the Nexus copy when it is served, else the default.
   */
  function SelectObserveConfig(local: LocalFile, nexus: HttpResponse): Value {
    match local
    case Some(Ok(v)) => v
    case Some(Err(_)) => UnreadableObserveConfig()
    case None => if Served(nexus) then nexus.json.value else DefaultObserveConfig()
  }

  /** `config.get('observe', {}).get('enabled', False)`, as a truth value. */
  function EnabledFlag(config: Value): (r: Result<bool, Exc>)
    ensures r.Ok? <==> config.VObj? && ("observe" in config.fields ==> config.fields["observe"].VObj?)
    ensures r == Ok(true) <==>
              config.VObj? && "observe" in config.fields && config.fields["observe"].VObj?
              && "enabled" in config.fields["observe"].fields
              && Truthy(config.fields["observe"].fields["enabled"])
  {
    match Get(config, "observe", VObj(map[]))
    case Err(e) => Err(e)
    case Ok(section) =>
      match Get(section, "enabled", VBool(false))
      case Err(e) => Err(e)
      case Ok(flag) => Ok(Truthy(flag))
  }

  /** The two fallback configurations keep the telemetry layer switched off. */
  lemma FallbackConfigsAreDisabled()
    ensures EnabledFlag(DefaultObserveConfig()) == Ok(false)
    ensures EnabledFlag(UnreadableObserveConfig()) == Ok(false)
  {
    var d := DefaultObserveConfig().fields;
    assert "observe"[0] != "logging"[0];
    assert d["observe"] == VObj(map["enabled" := VBool(false)]);
  }

  /**
   * The layer can only be enabled by a configuration that some source
   * actually supplied: the local file, or a 200 response from Nexus.
   */
  lemma {:induction false} EnabledOnlyWhenSupplied(local: LocalFile, nexus: HttpResponse)
    requires EnabledFlag(SelectObserveConfig(local, nexus)) == Ok(true)
    ensures local.Some? ==> local.value.Ok? && SelectObserveConfig(local, nexus) == local.value.value
    ensures local.None? ==> Served(nexus) && SelectObserveConfig(local, nexus) == nexus.json.value
  {
    FallbackConfigsAreDisabled();
  }

  /** `self.config['observe'].get('service_name', 'bird-feeding-api')`. */
  function ServiceName(config: Value): (r: Result<Value, Exc>)
    ensures r.Ok? <==> config.VObj? && "observe" in config.fields && config.fields["observe"].VObj?
    ensures r.Ok? && "service_name" !in config.fields["observe"].fields ==> r.value == VStr(DefaultServiceName)
    ensures r.Ok? && "service_name" in config.fields["observe"].fields ==>
              r.value == config.fields["observe"].fields["service_name"]
  {
    match Index(config, "observe")
    case Err(e) => Err(e)
    case Ok(section) => Get(section, "service_name", VStr(DefaultServiceName))
  }

  /** The names `logging` defines as levels: `getattr` gives each one's number. */
  const LevelNames: set<string> := {"CRITICAL", "FATAL", "ERROR", "WARN", "WARNING", "INFO", "DEBUG", "NOTSET"}

  /** `config['observe'].get('log_level', 'INFO')`, the level `setup_logging` asks for. */
  function LogLevelName(config: Value): (r: Result<Value, Exc>)
    ensures r.Ok? <==> config.VObj? && "observe" in config.fields && config.fields["observe"].VObj?
    ensures r.Ok? && "log_level" !in config.fields["observe"].fields ==> r.value == VStr("INFO")
    ensures r.Ok? && "log_level" in config.fields["observe"].fields ==>
              r.value == config.fields["observe"].fields["log_level"]
  {
    match Index(config, "observe")
    case Err(e) => Err(e)
    case Ok(section) => Get(section, "log_level", VStr("INFO"))
  }

  /**
   * What `app.logger.setLevel(getattr(logging, name))` raises, if anything. A
   * level name never raises and a name that is not a string raises
   * `TypeError`. Any other string depends on what the `logging` module holds
   * under that name (no attribute, or one that is not a level), which is the
   * input `otherName`.
   */
  function SetLevelFailure(name: Value, otherName: string -> Option<Exc>): (r: Option<Exc>)
    ensures name.VStr? && name.s in LevelNames ==> r == None
    ensures !name.VStr? ==> r.Some? && r.value.kind == "TypeError"
    ensures name.VStr? && name.s !in LevelNames ==> r == otherName(name.s)
  {
    match name
    case VStr(s) => if s in LevelNames then None else otherName(s)
    case _ => Some(Exc("TypeError", "attribute name must be string, not '" + TypeName(name) + "'"))
  }

  /**
   * A configuration that switches the layer on always has a level to read,
   * and without a `log_level` setting that level is `INFO`, which never fails.
   */
  lemma EnabledConfigReadsLevel(config: Value, otherName: string -> Option<Exc>)
    requires EnabledFlag(config) == Ok(true)
    ensures LogLevelName(config).Ok?
    ensures "log_level" !in config.fields["observe"].fields ==> SetLevelFailure(LogLevelName(config).value, otherName) == None
  {
  }

  /**
   * What `send_to_observe` prints for `logData` once it has added the
   * standard fields, or `None` when reading the configuration raised (the
   * exception is swallowed and nothing is printed).
   */
  function Stamped(config: Value, logData: Event): (r: Option<Event>)
    ensures r.Some? <==> ServiceName(config).Ok?
  {
    match Index(config, "observe")
    case Err(_) => None
    case Ok(section) =>
      match (Get(section, "customer_id", VStr(DefaultCustomerId)), Get(section, "environment", VStr(DefaultEnvironment)))
      case (Ok(customer), Ok(environment)) => Some(logData["customer_id" := customer]["environment" := environment])
      case _ => None
  }

  /**
   * Stamping keeps every field the caller built, and adds the customer id and
   * the environment from the `observe` section, with their defaults.
   */
  lemma StampedContents(config: Value, logData: Event)
    requires ServiceName(config).Ok?
    ensures var r := Stamped(config, logData).value;
            r.Keys == logData.Keys + {"customer_id", "environment"}
            && (forall k | k in logData && k != "customer_id" && k != "environment" :: r[k] == logData[k])
            && var section := config.fields["observe"].fields;
               r["customer_id"] == (if "customer_id" in section then section["customer_id"] else VStr(DefaultCustomerId))
               && r["environment"] == (if "environment" in section then section["environment"] else VStr(DefaultEnvironment))
  {
    assert "customer_id"[0] != "environment"[0];
  }

  /** The events one `send_to_observe(logData)` prints. */
  function Emitted(config: Value, enabled: bool, logData: Event): seq<Event> {
    if enabled && Stamped(config, logData).Some? then [Stamped(config, logData).value] else []
  }

  /** A request as the middleware sees it. */
  datatype HttpRequest = HttpRequest(verb: string, path: string, userAgent: Option<string>, remoteAddr: Option<string>)

  function OptionalString(s: Option<string>): Value {
    match s
    case Some(v) => VStr(v)
    case None => VNull
  }

  function RequestStartEvent(req: HttpRequest, requestId: string, now: string, service: Value): Event
  {
    map["event_type" := VStr("http_request_start"),
        "request_id" := VStr(requestId),
        "method" := VStr(req.verb),
        "path" := VStr(req.path),
        "user_agent" := VStr(req.userAgent.GetOr("")),
        "remote_addr" := OptionalString(req.remoteAddr),
        "timestamp" := VStr(now),
        "service" := service]
  }

  function RequestEndEvent(req: HttpRequest, requestId: string, statusCode: int, durationMs: real,
                           responseSize: Value, now: string, service: Value): Event
  {
    map["event_type" := VStr("http_request_end"),
        "request_id" := VStr(requestId),
        "method" := VStr(req.verb),
        "path" := VStr(req.path),
        "status_code" := VInt(statusCode),
        "duration_ms" := VReal(durationMs),
        "response_size" := responseSize,
        "timestamp" := VStr(now),
        "service" := service]
  }

  function BusinessEvent(eventType: string, requestId: Option<string>, level: string, data: Value,
                         now: string, service: Value): Event
  {
    map["event_type" := VStr(eventType),
        "request_id" := VStr(requestId.GetOr(NoRequest)),
        "level" := VStr(level),
        "data" := data,
        "timestamp" := VStr(now),
        "service" := service]
  }

  /** `context or {}`: a missing or empty context is recorded as an empty dict. */
  function ErrorContext(context: Value): (c: Value)
    ensures Truthy(context) ==> c == context
    ensures !Truthy(context) ==> c == VObj(map[])
  {
    if Truthy(context) then context else VObj(map[])
  }

  function ErrorEvent(error: Exc, requestId: Option<string>, context: Value, now: string, service: Value): Event
  {
    map["event_type" := VStr("error"),
        "request_id" := VStr(requestId.GetOr(NoRequest)),
        "level" := VStr("ERROR"),
        "error_type" := VStr(error.kind),
        "error_message" := VStr(error.message),
        "context" := ErrorContext(context),
        "timestamp" := VStr(now),
        "service" := service]
  }

  /** The fields each kind of event carries. */
  lemma EventKeys(req: HttpRequest, requestId: string, eventType: string, rid: Option<string>, level: string,
                  error: Exc, data: Value, context: Value, statusCode: int, durationMs: real,
                  responseSize: Value, now: string, service: Value)
    ensures RequestStartEvent(req, requestId, now, service).Keys
            == {"event_type", "request_id", "method", "path", "user_agent", "remote_addr", "timestamp", "service"}
    ensures RequestEndEvent(req, requestId, statusCode, durationMs, responseSize, now, service).Keys
            == {"event_type", "request_id", "method", "path", "status_code", "duration_ms", "response_size",
                "timestamp", "service"}
    ensures BusinessEvent(eventType, rid, level, data, now, service).Keys
            == {"event_type", "request_id", "level", "data", "timestamp", "service"}
    ensures ErrorEvent(error, rid, context, now, service).Keys
            == {"event_type", "request_id", "level", "error_type", "error_message", "context", "timestamp", "service"}
  {
  }

  /** The fields that identify an event, read back from the built records. */
  lemma EventIdentity(req: HttpRequest, requestId: string, eventType: string, level: string,
                      error: Exc, data: Value, context: Value, now: string, service: Value)
    ensures RequestStartEvent(req, requestId, now, service)["event_type"] == VStr("http_request_start")
    ensures BusinessEvent(eventType, None, level, data, now, service)["request_id"] == VStr(NoRequest)
    ensures BusinessEvent(eventType, None, level, data, now, service)["level"] == VStr(level)
    ensures ErrorEvent(error, None, context, now, service)["request_id"] == VStr(NoRequest)
    ensures ErrorEvent(error, None, context, now, service)["level"] == VStr("ERROR")
    ensures ErrorEvent(error, None, context, now, service)["error_type"] == VStr(error.kind)
    ensures ErrorEvent(error, None, VNull, now, service)["context"] == VObj(map[])
  {
    assert "error_type"[0] != "timestamp"[0] && "error_type"[0] != "service"[0];
    assert |"error_type"| != |"error_message"| && |"error_type"| != |"context"|;
    assert "level"[0] != "data"[0] && |"level"| != |"timestamp"| && |"level"| != |"service"|;
    assert |"level"| != |"error_type"| && |"level"| != |"error_message"| && |"level"| != |"context"|;
    assert "context"[0] != "timestamp"[0] && "context"[0] != "service"[0];
    assert "request_id"[0] != "level"[0] && "request_id"[0] != "data"[0] && "request_id"[0] != "timestamp"[0];
    assert "request_id"[0] != "service"[0] && "request_id"[0] != "error_type"[0];
    assert "request_id"[0] != "error_message"[0] && "request_id"[0] != "context"[0];
    assert "event_type"[0] != "request_id"[0] && "event_type"[0] != "method"[0] && "event_type"[0] != "path"[0];
    assert "event_type"[0] != "user_agent"[0] && "event_type"[0] != "remote_addr"[0];
    assert "event_type"[0] != "timestamp"[0] && "event_type"[0] != "service"[0];
  }

  /**
   * Correlation: the start, business, error and end events of one request all
   * carry the request id the middleware drew for it.
   */
  lemma CorrelationContinuity(req: HttpRequest, requestId: string, eventType: string, level: string,
                              error: Exc, data: Value, context: Value, statusCode: int, durationMs: real,
                              responseSize: Value, now: string, service: Value)
    ensures RequestStartEvent(req, requestId, now, service)["request_id"] == VStr(requestId)
    ensures BusinessEvent(eventType, Some(requestId), level, data, now, service)["request_id"] == VStr(requestId)
    ensures ErrorEvent(error, Some(requestId), context, now, service)["request_id"] == VStr(requestId)
    ensures RequestEndEvent(req, requestId, statusCode, durationMs, responseSize, now, service)["request_id"]
            == VStr(requestId)
  {
    assert "request_id"[0] != "method"[0] && "request_id"[0] != "path"[0] && "request_id"[0] != "user_agent"[0];
    assert |"request_id"| != |"remote_addr"| && "request_id"[0] != "timestamp"[0] && "request_id"[0] != "service"[0];
    assert "request_id"[0] != "level"[0] && "request_id"[0] != "data"[0];
    assert "request_id"[0] != "error_type"[0] && "request_id"[0] != "error_message"[0] && "request_id"[0] != "context"[0];
    assert "request_id"[0] != "status_code"[0] && "request_id"[0] != "duration_ms"[0];
    assert |"request_id"| != |"response_size"|;
  }

  /** Stamping keeps every field the caller built and adds the two standard ones. */
  lemma StampedKeepsCorrelation(config: Value, logData: Event, requestId: string)
    requires ServiceName(config).Ok? && "request_id" in logData && logData["request_id"] == VStr(requestId)
    ensures Stamped(config, logData).Some?
    ensures Stamped(config, logData).value["request_id"] == VStr(requestId)
  {
    StampedContents(config, logData);
    assert "request_id"[0] != "customer_id"[0] && "request_id"[0] != "environment"[0];
  }

  /** How one attribute of the response object behaves when it is read. */
  datatype Attribute<T> = Missing | Present(value: T) | RaisesOnRead(e: Exc)

  /**
   * The parts of a response `_get_response_size` looks at: `content_length`,
   * and `get_data`, whose call gives a body length or raises.
   */
  datatype ResponseObject = ResponseObject(contentLength: Attribute<Value>, getData: Attribute<Result<nat, Exc>>)

  /** The exceptions `_get_response_size` swallows. */
  predicate Swallowed(e: Exc) {
    e.kind == "RuntimeError" || e.kind == "AttributeError"
  }

  /** `hasattr(obj, name)`: false when reading raises AttributeError; any other exception propagates. */
  function HasAttr<T>(a: Attribute<T>): Result<bool, Exc> {
    match a
    case Missing => Ok(false)
    case Present(_) => Ok(true)
    case RaisesOnRead(e) => if e.kind == "AttributeError" then Ok(false) else Err(e)
  }

  /** The exception, if any, the first branch of `_get_response_size` escapes with. */
  function ReadFailure(r: ResponseObject): Option<Exc> {
    match HasAttr(r.contentLength)
    case Err(e) => Some(e)
    case Ok(true) =>
      if Truthy(r.contentLength.value) then None
      else GetDataFailure(r.getData)
    case Ok(false) => GetDataFailure(r.getData)
  }

  function GetDataFailure(a: Attribute<Result<nat, Exc>>): Option<Exc> {
    match a
    case RaisesOnRead(e) => if e.kind == "AttributeError" then None else Some(e)
    case Present(Err(e)) => Some(e)
    case _ => None
  }

  /**
   * `_get_response_size(response)`: a truthy `content_length` as it is, else
   * the length of `get_data()`, else 0; RuntimeError and AttributeError give 0,
   * any other exception propagates.
   */
  function ResponseSize(r: ResponseObject): (size: Result<Value, Exc>)
    ensures size.Err? <==> ReadFailure(r).Some? && !Swallowed(ReadFailure(r).value)
    ensures size.Err? ==> size.error == ReadFailure(r).value
    ensures r.contentLength.Present? && Truthy(r.contentLength.value) ==> size == Ok(r.contentLength.value)
    ensures size.Ok? && size.value != VInt(0) ==>
              (r.contentLength.Present? && size.value == r.contentLength.value)
              || (r.getData.Present? && r.getData.value.Ok? && size.value == VInt(r.getData.value.value))
    ensures size.Ok? ==>
              size.value == if r.contentLength.Present? && Truthy(r.contentLength.value) then r.contentLength.value
                            else if ReadFailure(r).None? && r.getData.Present? && r.getData.value.Ok?
                            then VInt(r.getData.value.value)
                            else VInt(0)
  {
    match HasAttr(r.contentLength)
    case Err(e) => if Swallowed(e) then Ok(VInt(0)) else Err(e)
    case Ok(present) =>
      if present && Truthy(r.contentLength.value) then Ok(r.contentLength.value)
      else
        match r.getData
        case Missing => Ok(VInt(0))
        case RaisesOnRead(e) => if Swallowed(e) then Ok(VInt(0)) else Err(e)
        case Present(Ok(n)) => Ok(VInt(n))
        case Present(Err(e)) => if Swallowed(e) then Ok(VInt(0)) else Err(e)
  }

  /** The keyword arguments `observe_track` may record. */
  function FilterKwargs(kwargs: map<string, Value>): (safe: map<string, Value>)
    ensures safe.Keys == kwargs.Keys - SensitiveKeys
    ensures forall k | k in safe :: safe[k] == kwargs[k]
  {
    map k | k in kwargs && k !in SensitiveKeys :: kwargs[k]
  }

  /** The `data` of the business event a tracked call that returned publishes. */
  function TrackData(funcName: string, durationMs: real, includeArgs: bool, kwargs: map<string, Value>): (d: Value)
    ensures d.VObj? && d.fields.Keys == {"function", "duration_ms", "success"} + (if includeArgs && kwargs != map[] then {"arguments"} else {})
    ensures d.fields["function"] == VStr(funcName) && d.fields["duration_ms"] == VReal(durationMs)
    ensures d.fields["success"] == VBool(true)
    ensures "arguments" in d.fields ==> d.fields["arguments"] == VObj(FilterKwargs(kwargs))
  {
    var base := map["function" := VStr(funcName), "duration_ms" := VReal(durationMs), "success" := VBool(true)];
    if includeArgs && kwargs != map[] then VObj(base["arguments" := VObj(FilterKwargs(kwargs))]) else VObj(base)
  }

  /** The context of the error event a tracked call that raised publishes. */
  function TrackErrorContext(funcName: string, durationMs: real): Value {
    VObj(map["function" := VStr(funcName), "duration_ms" := VReal(durationMs)])
  }

  /** A recorded argument list never carries a password, token or API key. */
  lemma {:induction false} TrackedArgumentsAreSafe(funcName: string, durationMs: real, includeArgs: bool, kwargs: map<string, Value>)
    ensures var d := TrackData(funcName, durationMs, includeArgs, kwargs);
            "arguments" in d.fields ==>
              d.fields["arguments"].VObj?
              && "password" !in d.fields["arguments"].fields
              && "token" !in d.fields["arguments"].fields
              && "api_key" !in d.fields["arguments"].fields
  {
    var d := TrackData(funcName, durationMs, includeArgs, kwargs);
    if "arguments" in d.fields {
      var safe := FilterKwargs(kwargs);
      assert d.fields["arguments"] == VObj(safe);
      assert safe.Keys == kwargs.Keys - SensitiveKeys;
    }
  }

  class ObserveLogger {
    var config: Value
    var enabled: bool
    /** The events printed so far, oldest first. */
    var published: seq<Event>

    /** `ObserveLogger()` with no app: empty configuration, disabled. */
    constructor ()
      ensures config == VObj(map[]) && !enabled && published == []
    {
      config := VObj(map[]);
      enabled := false;
      published := [];
    }

    /** `load_config(config_file)`, with the local file and the Nexus server as inputs. */
    method LoadConfig(configFile: string, local: LocalFile, fetch: string -> HttpResponse)
      modifies this`config
      ensures config == SelectObserveConfig(local, fetch(NexusConfigUrl(configFile)))
    {
      if local.Some? {
        if local.value.Ok? {
          config := local.value.value;
          return;
        }
        config := UnreadableObserveConfig();
        return;
      }
      var response := fetch(NexusConfigUrl(configFile));
      if response.Response? && response.status == 200 && response.json.Ok? {
        config := response.json.value;
        return;
      }
      config := DefaultObserveConfig();
    }

    /**
     * `init_app(app, config_file)`: loads the configuration and switches the
     * layer on when it asks for it; it never switches it off. Reading the flag
     * from a configuration that is not shaped as dictionaries raises. Once the
     * layer is on, `setup_logging` sets the app logger's level, which raises on
     * a name that is not a level; the layer stays on. `otherLevel` is what the
     * `logging` module does with a string that is not a level name.
     */
    method InitApp(configFile: string, local: LocalFile, fetch: string -> HttpResponse,
                   otherLevel: string -> Option<Exc>) returns (raised: Option<Exc>)
      modifies this`config, this`enabled
      ensures config == SelectObserveConfig(local, fetch(NexusConfigUrl(configFile)))
      ensures enabled == (old(enabled) || EnabledFlag(config) == Ok(true))
      ensures EnabledFlag(config).Err? ==> raised == Some(EnabledFlag(config).error)
      ensures EnabledFlag(config) == Ok(false) ==> raised == None
      ensures EnabledFlag(config) == Ok(true) ==>
                LogLevelName(config).Ok? && raised == SetLevelFailure(LogLevelName(config).value, otherLevel)
    {
      LoadConfig(configFile, local, fetch);
      var flag := EnabledFlag(config);
      if flag.Err? {
        return Some(flag.error);
      }
      if !flag.value {
        return None;
      }
      enabled := true;
      var level := LogLevelName(config).value;
      return SetLevelFailure(level, otherLevel);
    }

    /** `send_to_observe(log_data)`: stamps and prints the event when enabled. */
    method SendToObserve(logData: Event)
      modifies this`published
      ensures published == old(published) + Emitted(config, enabled, logData)
    {
      if !enabled {
        return;
      }
      var stamped := Stamped(config, logData);
      if stamped.Some? {
        published := published + [stamped.value];
      }
    }

    /** `log_request_start()`, run by the middleware before every request. */
    method LogRequestStart(req: HttpRequest, requestId: string, now: string) returns (raised: Option<Exc>)
      modifies this`published
      ensures !enabled ==> raised == None && published == old(published)
      ensures enabled && ServiceName(config).Err? ==>
                raised == Some(ServiceName(config).error) && published == old(published)
      ensures enabled && ServiceName(config).Ok? ==>
                raised == None
                && published == old(published) + [Stamped(config, RequestStartEvent(req, requestId, now, ServiceName(config).value)).value]
    {
      if !enabled {
        return None;
      }
      var service := ServiceName(config);
      if service.Err? {
        return Some(service.error);
      }
      SendToObserve(RequestStartEvent(req, requestId, now, service.value));
      return None;
    }

    /** `log_request_end(response)`, run by the middleware after every request. */
    method LogRequestEnd(req: HttpRequest, requestId: string, statusCode: int, durationMs: real,
                         response: ResponseObject, now: string) returns (raised: Option<Exc>)
      modifies this`published
      ensures !enabled ==> raised == None && published == old(published)
      ensures enabled && ResponseSize(response).Err? ==>
                raised == Some(ResponseSize(response).error) && published == old(published)
      ensures enabled && ResponseSize(response).Ok? && ServiceName(config).Err? ==>
                raised == Some(ServiceName(config).error) && published == old(published)
      ensures enabled && ResponseSize(response).Ok? && ServiceName(config).Ok? ==>
                raised == None
                && published == old(published)
                   + [Stamped(config, RequestEndEvent(req, requestId, statusCode, durationMs,
                                                      ResponseSize(response).value, now,
                                                      ServiceName(config).value)).value]
    {
      if !enabled {
        return None;
      }
      var size := ResponseSize(response);
      if size.Err? {
        return Some(size.error);
      }
      var service := ServiceName(config);
      if service.Err? {
        return Some(service.error);
      }
      SendToObserve(RequestEndEvent(req, requestId, statusCode, durationMs, size.value, now, service.value));
      return None;
    }

    /** `log_business_event(event_type, data, level)`; `requestId` is `g.request_id` when set. */
    method LogBusinessEvent(eventType: string, data: Value, level: string, requestId: Option<string>, now: string)
      returns (raised: Option<Exc>)
      modifies this`published
      ensures !enabled ==> raised == None && published == old(published)
      ensures enabled && ServiceName(config).Err? ==>
                raised == Some(ServiceName(config).error) && published == old(published)
      ensures enabled && ServiceName(config).Ok? ==>
                raised == None
                && published == old(published) + [Stamped(config, BusinessEvent(eventType, requestId, level, data, now, ServiceName(config).value)).value]
    {
      if !enabled {
        return None;
      }
      var service := ServiceName(config);
      if service.Err? {
        return Some(service.error);
      }
      SendToObserve(BusinessEvent(eventType, requestId, level, data, now, service.value));
      return None;
    }

    /** `log_error(error, context)`; a missing context is `VNull`. */
    method LogError(error: Exc, context: Value, requestId: Option<string>, now: string) returns (raised: Option<Exc>)
      modifies this`published
      ensures !enabled ==> raised == None && published == old(published)
      ensures enabled && ServiceName(config).Err? ==>
                raised == Some(ServiceName(config).error) && published == old(published)
      ensures enabled && ServiceName(config).Ok? ==>
                raised == None
                && published == old(published) + [Stamped(config, ErrorEvent(error, requestId, context, now, ServiceName(config).value)).value]
    {
      if !enabled {
        return None;
      }
      var service := ServiceName(config);
      if service.Err? {
        return Some(service.error);
      }
      SendToObserve(ErrorEvent(error, requestId, context, now, service.value));
      return None;
    }
  }

  /**
   * A call through `observe_track(event_type, include_args)`. `call` is what
   * the wrapped function did; `logger` is `current_app.observe_logger`, or
   * null when the app has none. The result is what the wrapper returns or
   * raises: the call's own outcome, unless logging it raised first.
   */
  method ObserveTrack(logger: ObserveLogger?, eventType: string, includeArgs: bool, funcName: string,
                      kwargs: map<string, Value>, durationMs: real, call: Result<Value, Exc>,
                      requestId: Option<string>, now: string) returns (r: Result<Value, Exc>)
    modifies logger
    ensures logger == null ==> r == call
    ensures logger != null ==> logger.config == old(logger.config) && logger.enabled == old(logger.enabled)
    ensures logger != null && !logger.enabled ==> r == call && logger.published == old(logger.published)
    ensures logger != null && logger.enabled && ServiceName(logger.config).Err? ==>
              r == Err(ServiceName(logger.config).error) && logger.published == old(logger.published)
    ensures logger != null && logger.enabled && ServiceName(logger.config).Ok? ==>
              r == call
              && logger.published == old(logger.published) + [Stamped(logger.config,
                   if call.Ok? then BusinessEvent(eventType, requestId, "INFO",
                                                  TrackData(funcName, durationMs, includeArgs, kwargs),
                                                  now, ServiceName(logger.config).value)
                   else ErrorEvent(call.error, requestId, TrackErrorContext(funcName, durationMs),
                                   now, ServiceName(logger.config).value)).value]
  {
    var failure: Exc;
    if call.Ok? {
      if logger == null {
        return call;
      }
      var raised := logger.LogBusinessEvent(eventType, TrackData(funcName, durationMs, includeArgs, kwargs),
                                            "INFO", requestId, now);
      if raised.None? {
        return call;
      }
      // the `except` clause now handles the logging failure
      failure := raised.value;
    } else {
      failure := call.error;
    }
    if logger != null {
      var raised := logger.LogError(failure, TrackErrorContext(funcName, durationMs), requestId, now);
      if raised.Some? {
        return Err(raised.value);
      }
    }
    return Err(failure);
  }
}
