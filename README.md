# Bird feeder: a Dafny model of its core

The bird feeder is a small Flask service that records bird feedings in sqlite. This project models and proves properties of four of its parts:

- **Feedings API.** There are two front ends. `app.py` is a plain Flask app. `app_swagger.py` is a Flask-RESTX app with Swagger documentation. Both validate and store posted feedings, list the 50 most recent, and report statistics. Both read their database path from a local file, from a Nexus raw repository, or from a default.
- **Telemetry layer.** `observe_logger.py` loads its configuration from the same kinds of sources. When enabled, it prints structured JSON events for every request, for business events and for errors. Its `observe_track` decorator records one more event for every call it wraps.
- **Java bridge.** `java_integration.py` summarises feeding records, either through a Java program run as a subprocess or through a Python simulation of it, and falls back on every failure.
- **Report and artifact helpers.** These are also in `java_integration.py`. A report generator writes a text report. An artifact manager downloads a JAR from a Maven repository.

## How the model is built

**Python values.** `PyValues.Value` stands for Python values: `None`, bool, int, float (as an exact `real`), str, list and dict. A raised exception is `Exc(kind, message)`, where `message` is `str(e)`. A call that may raise returns `Result`.

**Outside inputs.** A configuration source is an input:
- `Sources.LocalFile` is a missing file, a parsed file, or a read failure;
- `Sources.HttpResponse` is an HTTP answer or a request failure.

The Java side has its own inputs: the subprocess result, the temp-file step, the JSON parse and JPype's import and start-up.

**The database.** It is `Feedings.FeedingTable`, an in-memory row sequence with an AUTOINCREMENT counter.

**The telemetry sink.** It is `ObserveLogger.published`, the events printed so far, oldest first.

**Handler plans.** A Flask-RESTX handler is described by a *plan*: the log calls it makes, in order, and how it ends (`AppSwagger.Plan`). The methods are proved to publish exactly the planned events (`AppSwagger.Published`). They are also proved to end with the planned outcome, except when the telemetry configuration makes every log call raise (`AppSwagger.Effective`).

**Unspecified order.** Python's `max(set(xs), key=xs.count)` and SQL's `GROUP BY … ORDER BY count DESC LIMIT 1` leave ties to set or engine order. The model therefore picks any mode, with `:|`, and proves only that the result is one (`PyValues.IsMode`); a two-way tie admits either value (`JavaIntegration.TieAdmitsEitherBird`). Where the code exposes dict key order (`list(data.keys())`), the model allows any order.

## Model

| member | source | states |
|---|---|---|
| PyValues.MostCommon | java_integration.py:121-122 | `max(set(xs), key=xs.count)` on a non-empty list returns an element of the list that no other element outnumbers |
| PyValues.MajorityIsOnlyMode | java_integration.py:121-122 | a value held by a strict majority of the list is the only result `max(set(xs), key=xs.count)` can give |
| PyValues.PyInt | app.py:118 | `int(v)` keeps an int, reads a bool as 0 or 1, truncates a float toward zero and parses a string as `int(s)` does; `None`, lists and dicts raise `TypeError` |
| PyValues.ParseInt | app.py:118 | `int(s)` succeeds iff `s`, stripped of surrounding blanks and of one optional sign, is decimal digits with single underscores only between two digits, and has at most 4300 digits (CPython's default `int_max_str_digits`); past that limit it raises the digit-limit `ValueError`; the value is those digits read in base 10, negated after a `-`; every failure is a `ValueError` |
| PyValues.Strip | app.py:118 | `strip()` leaves a string no longer than its input, with no blank at either end |
| PyValues.StripDropsOnlyBlanks | app.py:118 | what `strip()` removes from either end is blanks only; the rest is a contiguous slice of the input |
| PyValues.ParseIntOfString | app.py:118 | `int(str(n)) == n` for every integer of at most 4300 digits, negative ones included (beyond that limit both conversions raise) |
| PyValues.LongDigitRunRefused | app.py:118 | a run of more than 4300 digits is refused with `ValueError`'s digit-limit message, so such a quantity gives a 500 before anything is bound |
| PyValues.UnderscoreGroupsExample | app.py:118 | `int("1_000")` is 1000 |
| PyValues.MisplacedUnderscoresRefused | app.py:118 | `int` refuses a doubled, a leading or a trailing underscore |
| PyValues.TruncateReal | app.py:118 | `int(x)` of a float rounds toward zero |
| PyValues.Get | observe_logger.py:199-200 | `d.get(k, default)` gives the value when the key is present and the default otherwise, and raises `AttributeError` on a non-dict |
| PyValues.Index | observe_logger.py:195 | `d[k]` succeeds exactly on a dict that holds the key, and gives its value |
| PyValues.Sum | java_integration.py:123 | `sum(xs)`, from the int 0, left to right: on success every element is a number and the result is their exact sum, an int exactly when no element is a float; a list of ints and bools always sums; otherwise it raises `TypeError` (some element is not a number) or `OverflowError` (an int too large for a float met a float) |
| PyValues.SumFrom | java_integration.py:123 | the same for the addition continuing from an int or float accumulator |
| PyValues.HugeIntThenFloatOverflows | java_integration.py:123 | `sum([n, x])` with an int `n` of magnitude at least `2**1024 - 2**970` and a float `x` raises `OverflowError: int too large to convert to float` |
| PyValues.KeyList | app_swagger.py:161 | `list(data.keys())` lists every key of the dict exactly once |
| JavaIntegration.FirstUnhashable | java_integration.py:121-122 | finds an element `set(...)` refuses exactly when one exists |
| JavaIntegration.SimulateJavaAnalysis | java_integration.py:109-133 | empty input gives exactly `{"patterns": [], "recommendations": []}`. Otherwise: the most common bird and food are modes of the input columns (`None` itself can be a mode when records carry a null `bird_type` or `food_type`); `average_quantity * total_feedings` is the sum of the quantities; `total_feedings` is the record count; the three fixed recommendations and both fixed metadata strings are always present; unhashable fields raise `TypeError`, non-numeric quantities raise `sum`'s `TypeError`, and `sum`'s `OverflowError` or an int total whose quotient by the count rounds beyond the largest float raises `OverflowError` |
| JavaIntegration.Mean | java_integration.py:123 | the average times the number of records gives back the total |
| JavaIntegration.HugeQuantityOverflowsAverage | java_integration.py:123 | one record with hashable fields and an int quantity too large for a float raises `OverflowError: integer division result too large for a float` |
| JavaIntegration.CatchSimulation | java_integration.py:77-79 | an exception of the simulation becomes `{"error": str(e)}` |
| JavaIntegration.MajorityBirdIsMostCommon | java_integration.py:115-121 | a bird named by more than half of the records is the only value `most_common_bird` can take |
| JavaIntegration.TieAdmitsEitherBird | java_integration.py:121 | for a two-way tie, each of the two birds is a permitted result; input order does not decide |
| JavaIntegration.ExecuteJavaProgram | java_integration.py:227-245 | the command is exactly `java -jar <jar>` followed by the arguments (none when `args` is `None`), so `main_class` plays no part; `success` holds iff the process exited with code 0; a run that exits reports its code and output; a timeout gives the fixed timeout message; any other failure gives `str(e)` |
| JavaIntegration.JavaBirdAnalyzer.constructor | java_integration.py:18-20 | a new analyzer has its JAR path and `jvm_started` false |
| JavaIntegration.JavaBirdAnalyzer.StartJvm | java_integration.py:22-42 | with JPype importable and no JVM running, a new start sets `jvm_started` iff it succeeds; a start failure of kind `ImportError` (or `ModuleNotFoundError`) is swallowed and clears the flag; every other start failure is re-raised; an already running JVM leaves the flag as it was, so a first call keeps it false and `start_jvm` is tried again on the next analysis; without JPype the flag is cleared |
| JavaIntegration.JavaBirdAnalyzer.ShutdownJvm | java_integration.py:44-53 | the flag is cleared exactly when it was set, `jpype` imports, the JVM is running and `shutdownJVM()` succeeds; a failing shutdown leaves it set and its exception is re-raised unless it is an `ImportError` |
| JavaIntegration.JavaBirdAnalyzer.ExecuteJavaSubprocessAsWritten | java_integration.py:81-107 | the Java answer is returned exactly when the run succeeded with non-empty stdout that parses; every other outcome is the simulation; a `json.dump` failure leaves one temporary file on disk |
| JavaIntegration.JavaBirdAnalyzer.ExecuteJavaSubprocess | java_integration.py:81-107 | the same results, and no temporary file is left on any path |
| JavaIntegration.JavaBirdAnalyzer.RunAndRemove | java_integration.py:91-103 | once the payload is on disk, the file is removed whatever the Java run gives |
| JavaIntegration.DumpFailureLeaksTempFile | java_integration.py:87-103 | for any data, a `json.dump` failure leaves one temporary file as written and none when corrected, and both answer with the simulation |
| JavaIntegration.JavaBirdAnalyzer.AnalyzeFeedingPatterns | java_integration.py:55-79 | `start_jvm` runs whenever the flag is false; a start failure other than `ImportError` propagates; with JPype importable the result is the caught simulation; otherwise it is the subprocess path's result. As written (`corrected` false) exactly one temporary file is left behind when `json.dump` fails on that path; corrected, none is |
| JavaReports.SplitJoinLines | java_integration.py:168 | lines without breaks survive `'\n'.join` and a split again |
| JavaReports.NoOccurrenceTail | java_integration.py:148 | a string free of the pattern stays free of it without its first character |
| JavaReports.ReplaceAllWithoutOccurrence | java_integration.py:148 | `replace` leaves a string without the pattern unchanged |
| JavaReports.PdfSuffixBecomesTxt | java_integration.py:148 | an output path ending in `.pdf`, with no other `.pdf` in it, is written as the same path ending in `.txt` |
| JavaReports.Iterate | java_integration.py:168 | iterating a list gives its items, a string its characters and a dict its keys in the given iteration order; anything else raises `TypeError` |
| JavaReports.DictIterationVisitsKeys | java_integration.py:168 | iterating a dict visits every key exactly once and nothing else |
| JavaReports.DistinctCard | java_integration.py:168 | a duplicate-free listing of a dict's keys has as many entries as the dict |
| JavaReports.CreateReportContent | java_integration.py:158-174 | the report starts with the header the file holds (its UTF-8 bird emoji read as three Latin-1 characters), then the patterns JSON, one bullet line (`\u00e2\u20ac\u00a2 `, the mis-decoded `\u2022`) per recommendation joined by line breaks, and the three metadata fields with `Unknown` defaults; a non-dict raises |
| JavaReports.GeneratePdfReport | java_integration.py:141-156 | returns `True` iff the content was built and the write succeeded, and then the `.txt` path holds exactly that content; otherwise it returns `False` and records no completed write |
| JavaReports.ReportBulletsOnePerLine | java_integration.py:168 | each string recommendation ends up on a line of its own |
| JavaReports.SimulatedAnalysisRenders | java_integration.py:109-174 | a successful simulation renders into a report: with no records it has no bullet lines and an `Unknown` engine, processor and time; otherwise it carries the three fixed recommendations and the fixed metadata |
| JavaReports.EmptySimulationRenders | java_integration.py:111-174 | the empty analysis renders with no bullet lines and `Unknown` for the engine, the processor and the time |
| JavaReports.FullSimulationRenders | java_integration.py:119-174 | a summary renders its three recommendations as bullet lines and its fixed engine and processor, with an `Unknown` time |
| JavaReports.GroupPath | java_integration.py:190 | `group_id.replace('.', '/')`, character by character |
| JavaReports.PathJoin | java_integration.py:193 | POSIX `os.path.join`: an absolute second part wins; otherwise one separator is inserted when missing |
| JavaReports.DownloadJar | java_integration.py:183-210 | the URL `JarUrl` gives (`{nexus}/repository/maven-central/{group path}/{artifact}/{version}/{artifact}-{version}.jar` for a new manager) is requested once `makedirs` succeeds; the JAR path `{target_dir}/{artifact}-{version}.jar` is returned, and a completed write of that file recorded, iff the answer is 200 and the write succeeds; every other outcome returns `""` and records no completed write |
| JavaReports.JarPathInTargetDir | java_integration.py:193 | the downloaded file lies directly in the target directory |
| JavaReports.GroupPathHasNoDots | java_integration.py:190 | the group path has no dots left and keeps every other character |
| ObserveLogging.EnabledFlag | observe_logger.py:37 | reading the flag succeeds iff the configuration and its `observe` section are dicts; it is true iff `observe.enabled` is present and truthy |
| ObserveLogging.FallbackConfigsAreDisabled | observe_logger.py:66-73 | both fallback configurations keep the layer switched off |
| ObserveLogging.EnabledOnlyWhenSupplied | observe_logger.py:37-73 | the layer can be switched on only by a configuration that the local file or a 200 answer from Nexus supplied |
| ObserveLogging.ServiceName | observe_logger.py:115 | every event's `service` is the configured `service_name`, defaulting to `bird-feeding-api`; reading it raises unless `observe` is a dict |
| ObserveLogging.Stamped | observe_logger.py:192-210 | `send_to_observe` prints an event exactly when reading `observe` from the configuration succeeds; otherwise the exception is swallowed and nothing is printed |
| ObserveLogging.StampedContents | observe_logger.py:195-201 | a printed event keeps every field the caller built, plus `customer_id` and `environment` from the configuration, defaulting to `demo` and `development` |
| ObserveLogging.EventKeys | observe_logger.py:107-183 | each of the four event kinds carries exactly its documented fields |
| ObserveLogging.EventIdentity | observe_logger.py:108-180 | without a bound request id, business and error events use `no-request`; an error event has type `error`, level `ERROR`, the exception's class as `error_type` and `{}` for a missing context |
| ObserveLogging.CorrelationContinuity | observe_logger.py:109-176 | the start, business, error and end events of one request carry its request id |
| ObserveLogging.StampedKeepsCorrelation | observe_logger.py:198-201 | stamping keeps the request id |
| ObserveLogging.ResponseSize | observe_logger.py:141-151 | a truthy `content_length` is returned as it is; otherwise the result is `len(get_data())` when that call succeeds and 0 when it raises `RuntimeError` or `AttributeError`; every other exception propagates |
| ObserveLogging.FilterKwargs | observe_logger.py:232-233 | keeps exactly the keyword arguments other than `password`, `token` and `api_key`, with their values |
| ObserveLogging.TrackData | observe_logger.py:224-234 | a success record has `function` (the function's name), `duration_ms` (the given duration) and `success` (`True`), plus `arguments` exactly when `include_args` is set and keyword arguments were given |
| ObserveLogging.TrackedArgumentsAreSafe | observe_logger.py:230-234 | recorded arguments never carry a password, token or API key |
| ObserveLogging.ObserveLogger.constructor | observe_logger.py:23-27 | a new logger is disabled, with an empty configuration and nothing printed |
| ObserveLogging.ObserveLogger.LoadConfig | observe_logger.py:45-73 | the configuration becomes `SelectObserveConfig` of the two sources, asking Nexus for the same file name |
| ObserveLogging.ObserveLogger.InitApp | observe_logger.py:32-85 | switches the layer on when the flag is truthy and never switches it off; a configuration not shaped as dicts raises; once switched on, `setup_logging` sets the logger level and what that raises (see `SetLevelFailure`) is raised with the layer left on; a disabled configuration never raises |
| ObserveLogging.LogLevelName | observe_logger.py:85 | the level `setup_logging` asks for is `observe.log_level`, defaulting to `INFO`; reading it raises unless `observe` is a dict |
| ObserveLogging.SetLevelFailure | observe_logger.py:85 | the eight standard level names never fail, a non-string name raises `TypeError`, and any other string fails as the `logging` module's attribute under that name makes it |
| ObserveLogging.EnabledConfigReadsLevel | observe_logger.py:37-85 | a configuration that switches the layer on always has a readable level, and without `log_level` it is `INFO`, which never fails |
| ObserveLogging.ObserveLogger.SendToObserve | observe_logger.py:187-210 | prints nothing when disabled, otherwise the stamped event when stamping succeeds |
| ObserveLogging.ObserveLogger.LogRequestStart | observe_logger.py:102-118 | disabled: nothing; unreadable service name: raises, nothing printed; otherwise exactly one stamped start event |
| ObserveLogging.ObserveLogger.LogRequestEnd | observe_logger.py:120-139 | the same, with the response size computed first and its exception propagating |
| ObserveLogging.ObserveLogger.LogBusinessEvent | observe_logger.py:153-167 | the same for one business event at the given level |
| ObserveLogging.ObserveLogger.LogError | observe_logger.py:169-185 | the same for one error event |
| ObserveLogging.ObserveTrack | observe_logger.py:212-250 | passes the call's result or exception on unchanged and never touches the configuration or the flag. When enabled, it prints exactly one event: a business event with the success record for a call that returned, or an error event with the function and duration for one that raised. Without a logger it prints nothing; when the service name cannot be read, the logging error is what escapes |
| Feedings.FirstLacking | app.py:105-108 | finds the first required field in order that is absent or falsy; earlier fields are all present and truthy; a non-dict body raises `AttributeError` |
| Feedings.FirstLackingAt | app.py:105-108 | a field is reported exactly when it is the first lacking one |
| Feedings.FirstMissingField | app.py:105-108 | the validation loop returns what `FirstLacking` specifies |
| Feedings.FalsyQuantityIsMissing | app.py:107 | a quantity of `0` or `''` is reported as missing when the earlier fields are present |
| Feedings.FirstBindFailure | app.py:115-121 | binding raises iff some parameter cannot be bound, and then raises the error of the first such parameter in order |
| Feedings.FeedingValuesSucceeds | app.py:115-121 | the insert's values bind exactly when the body is a dict with the three required keys, `int(quantity)` succeeds, every parameter binds and neither `bird_type` nor `food_type` is `None` |
| Feedings.FeedingValues | app.py:115-121 | a successful insert binds `bird_type` and `food_type` as given, `int(quantity)` within 64 bits, and `location` and `notes` defaulting to `''`; it needs all three required keys and no `None` bird or food type |
| Feedings.OptionalColumnsDefaultToEmpty | app.py:119-120 | the optional columns default to `''` when absent |
| Feedings.FeedingTable.constructor | app.py:61-76 | a new table is empty and no id has been used |
| Feedings.FeedingTable.Insert | app.py:112-123 | appends exactly one row with the next AUTOINCREMENT id and the insert time, and returns that id |
| Feedings.NotAfterTotal | app.py:143 | any two timestamps are ordered |
| Feedings.NotAfterTransitive | app.py:143 | the order is transitive |
| Feedings.Latest | app.py:143 | finds a newest row |
| Feedings.TakeLatest | app.py:141-145 | moving a newest remaining row to the answer keeps the answer newest first and ahead of every row left, and loses no row |
| Feedings.RecentFeedings | app.py:141-145 | meets `IsRecentQuery` |
| Feedings.Projection | app.py:151-159 | a row as a dict has exactly the seven named columns |
| Feedings.ProjectionKeepsColumns | app.py:151-159 | each of the seven projected fields holds its column's value |
| Feedings.ProjectRows | app.py:149-159 | the append loop projects every row, in order |
| Feedings.BirdColumn | app_swagger.py:234 | the bird column of the rows, in order |
| Feedings.FoodColumn | app.py:185-191 | the food column of the rows, in order |
| Feedings.QuantityColumn | app_swagger.py:235 | the quantity column of the rows, in order |
| Feedings.DistinctBounds | app_swagger.py:234 | there is at least one distinct bird when there is a row, and never more distinct birds than rows |
| Feedings.MetricsBounds | app_swagger.py:232-236 | for a recent-rows answer: at most 50 records, no more distinct birds than records, and no distinct bird exactly when the table is empty |
| Feedings.TotalQuantityAppend | app_swagger.py:235 | a new row adds its quantity to the total |
| Feedings.RunningTotalsStep | app.py:194 | the running totals from an accumulator fit in 64 bits exactly when the first step fits and the running totals from there on fit |
| Feedings.PrefixSums | app.py:194 | each running total is the first quantity plus a running total of the rest |
| Feedings.SqlSumFrom | app.py:194 | SQLite's integer `SUM` continuing from an accumulator: the total, exactly when every running total fits in 64 bits |
| Feedings.SqlSum | app.py:194 | `SELECT SUM(quantity)` gives the total exactly when every running total in row order fits in 64 bits, and fails otherwise |
| Feedings.TransientOverflowIsReported | app.py:194 | quantities `2**63 - 1`, `1`, `-1` overflow although their total fits |
| Feedings.Statistics | app.py:166-206 | total count, modes of the bird and food columns (`None` on an empty table) and `SUM(quantity) or 0`; it fails with `integer overflow` exactly when some running total of the quantities leaves 64 bits |
| Feedings.StatsValue | app.py:198-203 | the stats record has exactly its four fields |
| Feedings.StatsValueFields | app.py:198-203 | each stats field holds its statistic |
| Feedings.DatabaseSetting | app.py:53 | the `path` setting, else `bird_feedings.db`; a section that is not a dict raises |
| Feedings.DbConfigPrecedence | app.py:19-49 | a local file decides alone: its `database` section when the file reads as a dict, the default when it cannot be read. Without a local file, a 200 answer from Nexus decides; without that, the default is used; the Flask-RESTX app (app_swagger.py, lines 35-65) uses the same order with `config/db_config.json` |
| Feedings.DatabaseSettingDefaults | app.py:40-53 | with no source the path is `./bird_feedings.db`; with a source and no `path` it is `bird_feedings.db`; the Flask-RESTX app (app_swagger.py, lines 55-69) has the same defaults |
| Feedings.LoadDbConfig | app.py:19-49 | the configuration is the default, the `database` section of a local file that reads as a dict, or, with no local file, the `database` section of a 200 answer from Nexus |
| App.AddFeedingReply | app.py:98-134 | the status is 201, 400 or 500. It is 400 iff some required field is lacking, with `Missing required field: <first such>`. It is 201 iff validation and the insert succeed. Every 500 has an `error` body |
| App.NonObjectBodyIs500 | app.py:102-134 | a body that is not a JSON object, `None` included, is answered with 500 |
| App.NoneHasNoGet | app.py:107-134 | `None.get` raises `AttributeError` with Python's message |
| App.AddFeeding | app.py:98-134 | the reply is `AddFeedingReply`; exactly one row is added iff the reply is 201, otherwise the table is unchanged |
| App.GetFeedings | app.py:136-164 | the reply is 200 with the projections of rows that meet `IsRecentQuery` |
| App.GetStats | app.py:166-206 | the reply is 200 exactly when no running total of the quantities leaves 64 bits, with the four stats fields, modes or `None`, and a total of 0 on an empty table; otherwise it is 500 with `{"error": "integer overflow"}` |
| AppSwagger.Stamps | observe_logger.py:187-210 | one printed event per log call, in order, each the stamped rendering of its call |
| AppSwagger.StampsAppend | observe_logger.py:187-210 | one more log call appends its own event |
| AppSwagger.PublishedAppend | observe_logger.py:153-210 | one more log call adds at most its own event |
| AppSwagger.Log | observe_logger.py:153-185 | one log call adds its event to what is printed, and raises exactly on the unreadable service name |
| AppSwagger.Issue | observe_logger.py:153-185 | `log_business_event` or `log_error` |
| AppSwagger.Track | observe_logger.py:212-250 | `observe_track` around a handler passes the handler's outcome on and prints one more event for it |
| AppSwagger.KeyValues | app_swagger.py:161 | the provided keys as strings, in order |
| AppSwagger.PostPlanOutcomes | app_swagger.py:144-203 | `post` either returns or aborts. It returns 201 with the new id exactly when the body is a dict that passes validation and whose values bind. It aborts with 500, or with 400 only when the validation abort escapes; every 500 follows an error event, and a dict body is announced by `feeding_request_received` first |
| AppSwagger.ValidationFailureBecomes500 | app_swagger.py:146-203 | as written, a request lacking a required field ends in a 500 with werkzeug's generic 400 text; three events are printed, the last an error event for the 400 |
| AppSwagger.MissingBirdTypeExample | app_swagger.py:157-203 | a body without `bird_type` gets the generic 500 as written, and a 400 naming `bird_type` when corrected |
| AppSwagger.ValidationFailureIs400WhenCorrected | app_swagger.py:157-164 | with the validation abort let through, the client gets a 400 naming the missing field, after two events |
| AppSwagger.VariantsAgreeOutsideValidation | app_swagger.py:144-203 | the two variants agree on every request that passes validation or never reaches it |
| AppSwagger.SuccessfulPostEvents | app_swagger.py:150-189 | on success, `feeding_request_received` comes first and `feeding_created_successfully` with the new id second, and the reply is 201 |
| AppSwagger.PostTryBlock | app_swagger.py:146-195 | the `try` block prints its planned events and ends as planned; a row is added exactly when it returns |
| AppSwagger.PostCheckBlock | app_swagger.py:157-195 | the same for the part after the first event |
| AppSwagger.RejectMissing | app_swagger.py:159-164 | logs `feeding_validation_failed` with the missing field and a duplicate-free list of exactly the keys provided, then aborts with 400 |
| AppSwagger.RecordFeeding | app_swagger.py:167-189 | appends one row with the next id and logs `feeding_created_successfully` carrying that id |
| AppSwagger.PostHandler | app_swagger.py:144-203 | `post` prints the planned events and ends with the effective planned outcome. The 500 carries `str(e)` and the error context holds `data`, or `None` when `get_json` raised. A row is added exactly when it returns |
| AppSwagger.PostFeeding | app_swagger.py:141-203 | the same under `observe_track('bird_feeding_created')`, with one more event |
| AppSwagger.PostFeedingCorrected | app_swagger.py:141-203 | the corrected `post`, with the same guarantees |
| AppSwagger.TrackedPost | app_swagger.py:141-203 | what both variants share |
| AppSwagger.ListHandler | app_swagger.py:207-245 | `get` fetches rows that meet `IsRecentQuery`, returns their projections and prints one metrics event; on an unreadable configuration the error propagates |
| AppSwagger.ListFeedings | app_swagger.py:205-245 | the same under `observe_track('bird_feedings_retrieved')`, with the success event after the metrics event |
| AppSwagger.StatsHandler | app_swagger.py:250-289 | 200 exactly when no running total of the quantities leaves 64 bits, with the four fields: the count, modes or `None`, and a total of 0 on an empty table; otherwise it aborts with 500 and `integer overflow` |

## Left out

- Flask and Flask-RESTX themselves are not modelled: routing, `jsonify`, `marshal_with` output shaping, Swagger models, `g` and `current_app`. Handlers take the request body as a value, and return a status and a body.
- sqlite is modelled as an in-memory table. The model does not include its failures (a locked or missing file), SQL text, or TEXT-affinity conversion of stored values.
- `init_database` is not modelled (beyond the table's constructor), nor `get_db_connection`, `setup_logging`'s handler wiring, or the middleware's registration. Neither are the home endpoints, `list_available_jars`, `check_java_availability` or the Java program `BirdAnalyzer.java`, which returns constant strings.
- Clocks, `uuid` request ids and the `round(duration * 1000, 2)` durations are inputs (`now`, `clock`, `requestId`, `durationMs`). The model does not compute them.
- `json.dumps` and `json.loads` are not modelled. The patterns text (`dumps`), the report's `str` and the parsed stdout of the Java program are inputs. A printed event always serialises in the model; the source swallows a `json.dumps` failure in `send_to_observe`.
- `print` output is not modelled.
- Floats are exact `real`s, so JSON's `NaN` and `Infinity`, which Flask's parser accepts, cannot be represented; the 500 replies `int()` gives for them (`ValueError`, `OverflowError`) are not modelled.
- Python's cross-type numeric equality (`True == 1 == 1.0`) is not modelled: `Value` equality is structural.
- Dict key order is not kept: dicts are maps, and where the source exposes key order (`list(data.keys())`) any order is allowed.
- ObserveLogging.SetLevelFailure: which attributes the `logging` module holds is an input; only its eight level names are built in.
- Messages of exceptions Python or sqlite raise are approximated. Their kinds are those of CPython 3.11 and its `sqlite3` module; they differ in other versions, as the next two lines say.
- Feedings.BindFailure: from Python 3.12, `sqlite3` raises `ProgrammingError` ("Error binding parameter N: type 'list' is not supported") for a list or dict parameter; the model gives the `InterfaceError` of 3.8 to 3.11, which is what the Flask-RESTX app's error event records as `error_type`.
- PyValues.ParseInt: the 4300-digit limit exists from CPython 3.11 and in the 3.8.14, 3.9.14 and 3.10.7 security releases; earlier releases read any number of digits. A string whose first run of more than 4300 digits is followed by other text raises the digit-limit message in CPython, where the model gives the invalid-literal message (both are `ValueError`).
- JavaReports.GeneratePdfReport: `open(path, 'w')` creates or truncates the file before a failing write; the model records only completed writes, so a failed write's empty or partial file is not modelled.
- JavaReports.DownloadJar: the same holds for `open(jar_path, 'wb')` when writing the response body fails.
- PyValues.ParseInt: Python's `int()` also strips Unicode whitespace and accepts non-ASCII decimal digits; the model knows the six ASCII blanks and the digits `0`-`9` only.
- JavaIntegration.JavaBirdAnalyzer.StartJvm: an exception counts as an `ImportError` only when its kind is `ImportError` or `ModuleNotFoundError`; other subclasses are not recognised.
- `os.unlink` failing in the `finally` of `_execute_java_subprocess`, and `os.makedirs` racing, are not modelled.
- Exceptions in `_get_response_size`: the model swallows an exception whose kind is exactly `RuntimeError` or `AttributeError`. Subclasses of those are not recognised.
- Flask's handling of a non-HTTP exception that escapes a handler (its 500 page) is not modelled. Such an exception is reported as `Raised`.
- `observe_track` inside the apps is called without keyword arguments, because the routes take none. `include_args` therefore never records arguments there.
- AppSwagger.StatsHandler: database failures inside the `try` other than `SUM`'s integer overflow (a locked or missing file) are not modelled; they would abort with 500 and `str(e)`.
- App.GetStats: the same, with a 500 `{"error": str(e)}` reply.
- PyValues.Sum: additions involving a float are exact, so the rounding of each float addition is not modelled, and neither is a float total that overflows to `inf` (Python returns `inf` there rather than raising).
- JavaIntegration.SimulateJavaAnalysis: the average is the exact quotient, so its float rounding is not modelled.

## Findings

| source | as written | input that shows it | evidently intended | confidence | as-written member | corrected member |
|---|---|---|---|---|---|---|
| java_integration.py:87-103 | `NamedTemporaryFile(delete=False)` creates the file before `json.dump` runs. The `try`/`finally` that unlinks it is only entered after the `with` block. | Feeding data that `json.dump` refuses, say a record holding a `datetime`. The outer `except` falls back to the simulation and leaves the file on disk. | The temporary file is removed on every path once created. | not executed | JavaIntegration.JavaBirdAnalyzer.ExecuteJavaSubprocessAsWritten | JavaIntegration.JavaBirdAnalyzer.ExecuteJavaSubprocess |
| app_swagger.py:146, 164, 197-203 | `api.abort(400, ...)` is raised inside the `try`, so the catch-all `except Exception` logs it as an error and aborts with 500 and `str(e)`. `str(e)` of that exception is werkzeug's generic "400 Bad Request: …" text, because the message was stored in `e.data`. | `{"food_type": "Seeds", "quantity": 25}`, with no `bird_type` | A 400 naming the missing field, as `app.py` answers. | not executed | AppSwagger.ValidationFailureBecomes500 | AppSwagger.ValidationFailureIs400WhenCorrected |
