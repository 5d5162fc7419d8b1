# Blue Canary client, modelled in Dafny

Blue Canary is a small PHP package that reports events and measurements to a
monitoring service over HTTP. This project models the package's core and
proves properties of that model:

- **The client** (`src/Client.php`). It stores construction-time parameters
  over its defaults. It keeps the four URL parts (base URI, API version, app
  UUID, counter name) and a batch of metrics. Each call builds one request:
  - it merges the call's parameters over the stored ones;
  - it rewrites the URL parts (`setUri`);
  - it validates them (`validateUri`);
  - it joins them into the endpoint (`getUri`, here in its corrected form: see "## Findings");
  - it sends a GET with the filtered parameters as query, or a POST with
    them and the metrics as a JSON body when metrics wait;
  - it splits the transport options off, clears the batch, and sends
    synchronously or asynchronously.
- **The metric** (`src/Metric.php`): a validated key, type, value and unit,
  and its array form.
- **The PSR-3 logger front end** (`src/AbstractLogger.php`). It has seven
  severity methods and a minimum level that drops less severe calls. `log`
  takes a name or a rank. `<level>Async` goes through `__call`, and `debug`
  is refused.
- **The Blue Canary logger** (`src/Logger.php`). It is a client with eight
  severity methods (including `ok`) and its own rank table. It has no
  threshold.

Modules:

| module | file | content |
|---|---|---|
| `Errors` | `errors.dfy` | `Option`, `Result`, the validation outcome, and one error per exception the source throws |
| `Values` | `values.dfy` | PHP values: truthiness, `??`, the `(int)` cast, `(string)` of ints |
| `Text` | `text.dfy` | `trim`, `strpos(...) === 0`, `implode`, `str_replace` and the case folding of PHP method names |
| `Metrics` | `metric.dfy` | the metric value object |
| `Endpoint` | `uri.dfy` | the URL parts, `setUri`, the two regular expressions, `validateUri`, `getUri` |
| `Params` | `params.dfy` | defaults, data-key allow-list, `getParameters`, `extractGuzzleOptions` |
| `CanaryClient` | `client.dfy` | the recording transport, the client class and its request pipeline as a function on a state snapshot |
| `Levels` | `levels.dfy` | the two rank tables, the lookups by name and by rank, and `__call`'s dispatch |
| `SeverityLogger` | `abstract_logger.dfy` | the PSR-3 logger with its threshold |
| `CanaryLogger` | `logger.dfy` | the Blue Canary logger |
| `LoggerFeatures` | `feature.dfy` | the behaviours the feature tests exercise, stated for all inputs of each kind |

Each state-changing method of `CanaryClient.Client` and of the two loggers
specifies its new state and its result by one specification function on
values:
- `Perform` for `request`;
- `Handle`, `LogCall` and `AsyncCall` for the loggers.

That is, it ensures `State() == Perform(old(State()), call).after`. The
properties are then proved as lemmas about those functions.

The source and the package documentation disagree in a few places. The code
is followed, except that the requests carry the corrected `getUri` URL of
"## Findings":
- A POST carries no `Content-Type` header: the source passes `[]` as headers.
- A request whose URL fails validation throws before the batch is cleared,
  so the metrics stay for the next call.
- `setUri` has already rewritten the parts when that happens.

## Model

| member | source | states |
|---|---|---|
| Values.Lookup | src/Client.php:185 | `$m[$k] ??` yields the entry exactly when it is set and not null |
| Values.Trunc | src/Metric.php:98 | PHP's float-to-int cast truncates toward zero, for both signs |
| Values.DecimalRoundTrip | src/Client.php:165 | `(int)` of an int's decimal text gives back the int |
| Values.ToIntOfInt | src/Client.php:165 | `(int)` leaves an int alone and reads its decimal text back to it |
| Text.TrimLeft | src/Client.php:185 | the leading run of the character is cut, and what remains does not start with it |
| Text.TrimRight | src/Client.php:185 | the trailing run of the character is cut, and what remains does not end with it |
| Text.TrimShape | src/Client.php:185 | `trim` cuts only runs of the character at both ends, and the middle is kept |
| Text.TrimIdempotent | src/Client.php:185 | trimming a trimmed part changes nothing |
| Text.Lower | src/AbstractLogger.php:211 | case folding maps upper-case ASCII letters to lower case, keeps the length, and changes nothing else |
| Text.ReplaceTwice | src/Client.php:199 | `str_replace` rewrites every occurrence of the needle, not only the first |
| Metrics.SetKey | src/Metric.php:47-54 | a key is refused exactly when it is `""`, `"0"` or over 255 characters |
| Metrics.SetType | src/Metric.php:60-67 | only float, int and integer are accepted, and integer is stored as int |
| Metrics.SetUnit | src/Metric.php:81-88 | a unit over 10 characters is refused, a falsy unit becomes null, and any other unit is kept |
| Metrics.NewMetric | src/Metric.php:35-41 | construction succeeds exactly when the three checks pass; otherwise the first failing field (key, then type, then unit) names the exception; a built metric is valid and keeps key and value |
| Metrics.Reconstruct | src/Metric.php:35-41 | every valid metric is what the constructor builds from its own fields |
| Metrics.ToArray | src/Metric.php:93-101 | the array form has exactly the key, type, value and unit fields, holding the key, the type and the unit (null when unset); the value is an int, truncated toward zero, exactly when the type is `int`, and the float itself otherwise |
| Metrics.SerialisedValueTag | src/Metric.php:98 | a metric built with `int` or `integer` is serialised with an int value, truncated; one built with `float`, with the float itself |
| Metrics.ToArrayRoundTrip | src/Metric.php:93-101 | reading the array form back gives the metric, with an int metric's value truncated |
| Metrics.DurationExample | src/Metric.php:93-101 | an int metric of 3465.3567 is serialised with the value 3465 |
| Endpoint.SetUriParts | src/Client.php:182-189 | `setUri` rewrites exactly the four parts, to the trimmed override when one is set and not null, else to the trimmed current part; it fails exactly when an override has no text |
| Endpoint.ApplyPartsEach | src/Client.php:184-186 | in the part loop, each part's new value depends on its own old value and its override only |
| Endpoint.SetUriTrims | src/Client.php:185 | after `setUri` no part starts or ends with `/` |
| Endpoint.OmittedPartPersists | src/Client.php:185 | a part the call leaves out or sets to null keeps its previous value |
| Endpoint.OverrideWins | src/Client.php:185 | an override with text replaces the part, trimmed |
| Endpoint.UuidFromGroups | src/Client.php:235-238 | any five hex groups of sizes 8-4-4-4-12, with a `4` and a variant digit in the right places, joined by dashes, are accepted |
| Endpoint.UuidGroups | src/Client.php:235-238 | conversely, every accepted UUID without a trailing newline has that shape |
| Endpoint.UuidAccepted | tests/LoggerFeatureTest.php:27 | the UUID of the feature tests is accepted |
| Endpoint.UuidVersionZeroRejected | tests/LoggerFeatureTest.php:48 | the same UUID with version digit 0 is refused |
| Endpoint.CounterExamples | tests/LoggerFeatureTest.php:28 | `new-counter` is accepted and `new.counter."` is refused |
| Endpoint.TrailingNewlineAccepted | src/Client.php:237 | both patterns accept one trailing newline, as PCRE's `$` does |
| Endpoint.FirstMissing | src/Client.php:209-213 | the first part in order whose value is falsy, or none when all are present |
| Endpoint.ValidateUri | src/Client.php:207-228 | the validation passes exactly when all parts are present, the UUID and counter match, and the base starts with `http`; each exception fires exactly when the earlier checks pass and its own fails |
| Endpoint.FirstMissingNamed | src/Client.php:209-213 | the missing-part exception names the first falsy part |
| Endpoint.ValidParts | src/Client.php:207-228 | four parts that each pass their check make a URL that validates |
| Endpoint.EndpointUri | src/Client.php:195-200 | the corrected `getUri` begins with the base, then `api/<version>/event/` |
| Endpoint.RewrittenAgrees | src/Client.php:195-200 | when the version text is not empty and occurs only as its own part, the as-written `getUri` gives the corrected endpoint |
| Endpoint.RewrittenInCounter | src/Client.php:199 | a version text that also occurs inside the counter name is rewritten there too, and the URL differs from the intended one |
| Endpoint.RewrittenUriBreaksCounter | src/Client.php:195-200 | counter name `dev1-counter` passes validation, yet the as-written `getUri` sends it as `deapi/v1/event-counter` |
| Params.Merge | src/Client.php:64 | `array_merge` keeps every key of both arrays, and the later array wins |
| Params.FilterAndCast | src/Client.php:158-174 | only allow-listed keys are kept; `status_code` is cast to int; any other falsy value becomes null and any truthy one is kept |
| Params.GetParameters | src/Client.php:158-174 | the intersect-then-walk loop computes exactly that filtered and cast array |
| Params.FilterAndCastIdempotent | src/Client.php:158-174 | filtering and casting twice is filtering and casting once |
| Params.FilterAndCastShape | src/Client.php:158-174 | every value passed on is allow-listed and is an int, null or truthy |
| Params.StatusCodeDefaultsToZero | src/Client.php:165 | a null status code is sent as 0 |
| Params.ExtractOptions | src/Client.php:264-269 | the options are exactly the entries whose key is neither a data key nor `base_uri` or `api_version`, with their values |
| Params.ParametersPartition | src/Client.php:158-174 | every caller key goes to exactly one place: the data, the options, or one of the two defaulted URL keys |
| Params.OptionsPassThrough | src/Client.php:264-269 | the UUID, the counter name and the async flag reach the transport as options |
| CanaryClient.Transport.Send | src/Client.php:100 | a synchronous send records the request and returns a response |
| CanaryClient.Transport.SendAsync | src/Client.php:105 | an asynchronous send records the request and returns a promise |
| CanaryClient.MetricsArray | src/Client.php:146-148 | the batch is serialised in order, one array form per metric |
| CanaryClient.PostBody | src/Client.php:144-151 | the POST body is the filtered call with `metrics` set to the serialised batch |
| CanaryClient.PostBodyReadsBack | src/Client.php:144-151 | each metric of a POST body reads back as the batch's metric at the same position |
| CanaryClient.BuildRequest | src/Client.php:113-129 | the request is built exactly when `setUri` and `validateUri` pass; otherwise the first exception is returned; the URL is the endpoint; it is a POST exactly when metrics wait; its query or body is the filtered call |
| CanaryClient.CallTimePartWins | src/Client.php:116-120 | a URL part given at call time wins over the stored one |
| CanaryClient.StoredPartFallback | src/Client.php:116-120 | a URL part the call leaves out comes from the stored parameters |
| CanaryClient.Perform | src/Client.php:91-106 | `request` succeeds exactly when `createRequest` does, and the URL parts afterwards are the ones it rewrote; a failed build returns its exception and changes neither batch nor transport; a successful one clears the batch and appends exactly the built request with the call's transport options, sent asynchronously exactly when `async` is set, and returns the promise or response for it |
| CanaryClient.BuiltUrlAsWritten | src/Client.php:120 | the URL of a built request is the one the as-written `getUri` gives whenever the version text occurs only as its own part |
| CanaryClient.SentSeparatesDataAndOptions | src/Client.php:93-105 | the data and options of one sent request share no key, and the async flag decides the send |
| CanaryClient.Constructed | src/Client.php:60-67 | a new client stores the parameters over the defaults and has an empty batch |
| CanaryClient.ConstructedUri | src/Client.php:60-67 | the constructor's `setUri` leaves each part as the stored value's trimmed text, or empty |
| CanaryClient.CallKeepsConstructedUri | src/Client.php:116-120 | a call naming no URL part leaves the parts as the constructor set them |
| CanaryClient.FirstCall | src/Client.php:91-129 | the first call on a new client throws what validation finds and changes nothing, or it is request number 0 |
| CanaryClient.MetricOf | src/Client.php:78-83 | a ready metric is appended as it is; fields are built into one, or give its exception |
| CanaryClient.Client.constructor | src/Client.php:60-67 | parameters over defaults, an empty batch, and the URL parts set from the parameters |
| CanaryClient.Client.Metric | src/Client.php:78-83 | the metric joins the end of the batch and the method becomes POST; on an exception the batch is unchanged |
| CanaryClient.Client.GetMethod | src/Client.php:254-257 | POST exactly when metrics wait, GET otherwise |
| CanaryClient.Client.ClearMetrics | src/Client.php:284-287 | the batch is emptied and nothing else changes |
| CanaryClient.Client.SetUri | src/Client.php:182-189 | the part loop computes the parts and the failure of the `setUri` specification |
| CanaryClient.Client.GetUri | src/Client.php:195-200 | the corrected URL begins with the base and the version marker, and it equals the as-written `str_replace` result whenever the version text occurs only as its own part |
| CanaryClient.Client.CreateRequest | src/Client.php:113-129 | the request and the new URL parts are those of `BuildRequest` |
| CanaryClient.Client.Request | src/Client.php:91-106 | the new client and transport state and the reply are those of `Perform` |
| Levels.RankOf | src/AbstractLogger.php:186 | a name's rank is found exactly when the name is in the table, and it is that entry's rank |
| Levels.NameOf | src/AbstractLogger.php:171 | `array_flip` finds a name exactly when some entry has the rank |
| Levels.LookupAt | src/AbstractLogger.php:30-39 | in a table without repeated names or ranks, both lookups find each entry |
| Levels.NameRoundTrip | src/AbstractLogger.php:170-174 | a level's rank leads `log` back to the same name |
| Levels.RankRoundTrip | src/AbstractLogger.php:170-174 | a rank that names a level goes to that name and back |
| Levels.RankDeterminesName | src/AbstractLogger.php:30-39 | two names with one rank are the same name |
| Levels.LevelName | src/AbstractLogger.php:168-175 | a name is used as it is; a rank is looked up, and an unknown rank is an error |
| Levels.LevelNameOfRank | src/Logger.php:157-164 | `log` with a level's rank reaches that level |
| Levels.PsrTable | src/AbstractLogger.php:30-39 | the PSR table ranks its eight levels 0 to 7, with no repeats |
| Levels.CanaryTable | src/Logger.php:20-30 | the Canary table ranks the seven shared levels the other way round, then `ok` 0 and `debug` 255 |
| Levels.DispatchAsync | src/AbstractLogger.php:207-213 | `__call` strips `Async`, folds case, and goes to a severity method, to `debug`, to another method, or throws when there is none |
| Levels.AsyncSuffixStripped | src/AbstractLogger.php:209 | `<name>Async` leads back to `<name>` for a lower-case name |
| SeverityLogger.ThresholdByName | src/AbstractLogger.php:49-54 | `setLevel` with a level name sets its rank; with an int, that int |
| SeverityLogger.ThresholdUnknownName | src/AbstractLogger.php:51 | a string that names no level sets the threshold to 7 |
| SeverityLogger.ThresholdNumericString | src/AbstractLogger.php:51 | the numeric string `"3"` is not a name, so the threshold becomes 7 |
| SeverityLogger.Gate | src/AbstractLogger.php:184-198 | a call is dropped exactly when its level is known and less severe than the threshold; otherwise it goes on with the rank and message merged over the parameters |
| SeverityLogger.DefaultPassesAll | src/AbstractLogger.php:42 | with the default threshold no call is dropped |
| SeverityLogger.GateMonotone | src/AbstractLogger.php:188 | raising the threshold never drops a call that passed |
| SeverityLogger.GateAfterSetLevel | src/AbstractLogger.php:49-54 | after `setLevel(a)`, a call at level `b` is dropped exactly when `b` ranks below `a` |
| SeverityLogger.UnknownNameSendsZero | src/AbstractLogger.php:186-195 | a name that is no level is never dropped and is sent with status code 0 |
| SeverityLogger.Handle | src/AbstractLogger.php:184-198 | a dropped call changes nothing and returns nothing; a call the gate lets through is exactly `request` with the gate's merged parameters, its state and its reply or exception |
| SeverityLogger.LogCall | src/AbstractLogger.php:168-175 | a rank that names no level makes `log` throw and changes nothing; otherwise `log` is `handleRequest` for the resolved name |
| SeverityLogger.LogRankSevenSends | src/AbstractLogger.php:168-175 | `log(7)` names `debug` and is sent, though `debug()` throws |
| SeverityLogger.AsyncCall | src/AbstractLogger.php:207-221 | what `__call` returns is a promise; a missing method or `debug` throws and changes nothing; a severity target is `handleRequest` for that name with `async` set, its missing result refused as a promise |
| SeverityLogger.GateKeepsAsync | src/AbstractLogger.php:218 | the async flag survives the status merge |
| SeverityLogger.Promised | src/AbstractLogger.php:207 | a dropped call's missing result is refused as a promise |
| SeverityLogger.DroppedAsyncCallThrows | src/AbstractLogger.php:188-189 | an async call below the threshold throws and sends nothing |
| SeverityLogger.ForwardedAsyncCallSends | src/AbstractLogger.php:207-221 | an async call the gate lets through is `request` with `async` set and the status merged, and returns the promise of the request it sends |
| SeverityLogger.DefaultThresholdIsRequest | src/AbstractLogger.php:184-198 | with the default threshold every severity call is `request` with its rank and message merged over the caller's parameters |
| SeverityLogger.Logger.constructor | src/AbstractLogger.php:42 | a new logger has threshold 7 |
| SeverityLogger.Logger.SetLevel | src/AbstractLogger.php:49-54 | the threshold becomes the level's value |
| SeverityLogger.Logger.HandleRequest | src/AbstractLogger.php:184-198 | the client's new state and the reply are those of `Handle` |
| SeverityLogger.Logger.Debug | src/AbstractLogger.php:154-157 | `debug` always throws |
| SeverityLogger.Logger.Log | src/AbstractLogger.php:168-175 | the new state and the reply are those of `LogCall` |
| SeverityLogger.Logger.CallAsync | src/AbstractLogger.php:207-221 | the new state and the reply are those of `AsyncCall` |
| CanaryLogger.LevelParams | src/Logger.php:174-182 | the merge sets the status code to the level's rank (null for no level) and the remark to the message, and keeps every other parameter |
| CanaryLogger.LogCall | src/Logger.php:157-164 | `log` with an unknown rank throws and changes nothing; otherwise it is the request for the named level |
| CanaryLogger.LogRank255Sends | src/Logger.php:157-164 | `log(255)` names `debug` and is sent with status code 255 |
| CanaryLogger.LogByRankIsLevel | src/Logger.php:157-164 | `log` with a level's rank sends what that level's method sends |
| CanaryLogger.AsyncCall | src/Logger.php:191-205 | a missing method or `debug` throws and changes nothing; a level becomes its request with `async` set, which gives a promise |
| CanaryLogger.AsyncFlagKept | src/Logger.php:202 | the async flag survives the status merge |
| CanaryLogger.HandleRequest | src/Logger.php:174-182 | the new state and the reply are those of `request` with the merged parameters |
| CanaryLogger.Debug | src/Logger.php:143-146 | `debug` always throws |
| CanaryLogger.Log | src/Logger.php:157-164 | the new state and the reply are those of `LogCall` |
| CanaryLogger.CallAsync | src/Logger.php:191-205 | the new state and the reply are those of `AsyncCall` |
| LoggerFeatures.ValidIsPlain | src/Client.php:235-248 | an accepted UUID or counter name is not falsy and has no `/` at either end |
| LoggerFeatures.SetupValues | tests/LoggerFeatureTest.php:26-29 | a logger built with a UUID and counter name stores the default base and version and those parts |
| LoggerFeatures.SetupUri | tests/LoggerFeatureTest.php:26-29 | such a logger holds the default base and version, and the given parts as they are |
| LoggerFeatures.SetupOutcome | src/Client.php:207-228 | for such parts, validation reports a missing UUID, then a missing counter name, then a bad UUID, then a bad counter name, or passes |
| LoggerFeatures.ValidSetupSends | tests/LoggerFeatureTest.php:24-34 | with a valid UUID and counter name, the first call is sent: a promise when async, a response otherwise |
| LoggerFeatures.AsyncLevelReturnsPromise | tests/LoggerFeatureTest.php:24-34 | `<level>Async()` on such a logger dispatches to the level and returns a promise |
| LoggerFeatures.MissingUuidThrows | tests/LoggerFeatureTest.php:36-43 | without a UUID, the first call throws for the missing UUID and changes nothing |
| LoggerFeatures.MissingCounterThrows | tests/LoggerFeatureTest.php:56-65 | with a UUID but no counter name, the first call throws for the counter name, whatever the UUID |
| LoggerFeatures.InvalidUuidThrows | tests/LoggerFeatureTest.php:45-54 | with both parts present and a malformed UUID, the first call throws for the UUID |
| LoggerFeatures.InvalidCounterThrows | tests/LoggerFeatureTest.php:67-77 | with a valid UUID and a malformed counter name, the first call throws for the counter name |
| LoggerFeatures.LevelCallNamesNoPart | tests/LoggerFeatureTest.php:42 | a severity call's parameters name no URL part |

The test at `tests/LoggerFeatureTest.php:45-54` builds its logger with a bad
UUID but no counter name. Missing parts are checked first, so the exception
it gets is the missing counter name (`MissingCounterThrows`), not the bad
UUID. `InvalidUuidThrows` states the case the test evidently means.

## Left out

- The HTTP transport (Guzzle): `Transport` only records each request. It returns an opaque response or promise, and never fails or times out.
- PSR-7 request objects: a request is a method, a URL and a map. `http_build_query` and `json_encode` are not modelled as text.
- PHP arrays here have string keys and no order. Numeric keys and the ordered `foreach` are not modelled, except over the four URL parts and the level tables, where order matters.
- Floats and arrays as URL parts: PHP would format the float, or raise a type error. The model reports `UnsupportedPart` and stops at that part.
- PHP's float formatting is not modelled.
- Metric values and float parameters are exact Dafny reals: IEEE-754 rounding, NaN and infinities are not modelled, and `Values.Trunc` is exact truncation of an exact value.
- `Values.StrToInt`: hexadecimal, octal, exponent forms and 64-bit overflow of the `(int)` cast are not modelled.
- Integers are unbounded: the 64-bit range of PHP ints is not modelled.
- `strlen` counts bytes, and the model counts characters, so multi-byte keys and units are measured differently.
- `Levels.LevelName`: a level given as a numeric string (such as `"3"`) or a float, which `is_numeric` in `log` would treat as a rank, is not modelled. `Named("3")` is taken as a name, which is not what PHP does. The model's `LevelArg` is a name or an int rank.
- `setLevel` with a float truncates it toward zero, as `Values.Trunc` states; a bool goes through `ToInt` as PHP's `(int)` does. Nothing is left out there.
- The `?? $this->defaults[$key]` fallback in `setUri` is dead code: the current part is always a string, so it is never reached. The model omits it; a null base URI therefore leads to the missing-part exception, as in the source.
- `CanaryClient.Client.constructor`: it requires every stored URL part to be a string, int, bool or null. A float part, which PHP's `trim` would format as text, and an array part, which would make PHP raise a type error, are excluded.
- `CanaryClient.Client.GetMetrics`: it returns the batch, and carries no contract beyond its body.
- `SeverityLogger.AsyncCall`: it requires that the name not lead to another (non-severity) method. Such a call runs that method, and PHP then refuses the non-promise result, which is not modelled.
- `SeverityLogger.Logger.CallAsync`: the same precondition as `SeverityLogger.AsyncCall`.
- `CanaryLogger.AsyncCall`: the same precondition, for the Blue Canary logger's other methods.
- `CanaryLogger.CallAsync`: the same precondition as `CanaryLogger.AsyncCall`.
- `CanaryClient.BuildRequest`: the request's URL is the corrected `getUri` of "## Findings" (`EndpointUri`), not the source's `str_replace` over the joined parts. The two differ whenever the version text also occurs in the base URI, the UUID or the counter name. For example, a base `https://v1.canary.stage` with version `v1` makes the source's URL not even begin with the base. `CanaryClient.BuiltUrlAsWritten` states where they agree.
- `CanaryClient.Client.GetUri`: the same difference; it returns the corrected URL, and equals the source's result only when the version text occurs only as its own part.
- `CanaryClient.Perform`, `CanaryClient.Client.CreateRequest`, `CanaryClient.Client.Request` and both loggers inherit that corrected URL.
- `__call`'s `(string)` and `(array)` casts of the arguments are not modelled (the message is a string, the parameters a map). The `unset($parameters['async'])` in `request` is also left out, because it has no effect.
- The abstract logger calls `request`, which a subclass must supply. The model puts the logger in front of a `Client`.
- The PHP notice for an unknown level name is not modelled; only the null rank it yields is.
- The feature tests' literal scenarios are stated for all UUIDs and counter names of the same kind, not for the literals. The literals themselves are covered by `Endpoint.UuidAccepted`, `Endpoint.UuidVersionZeroRejected` and `Endpoint.CounterExamples`.
- The parent of the Blue Canary logger is a class whose source is not available. `src/Logger.php` is in the namespace `Brightfish\BlueCanaryClient` and extends `Client` of that namespace, while `src/Client.php` declares `Brightfish\BlueCanary\Client`. The model takes `src/Client.php` as that parent. The exception classes also differ:
  - the logger and its feature tests use `BlueCanaryException`;
  - `src/Client.php` throws `ClientException`.

  The model's errors (`Errors.Error`) are matched by the condition that raises them, not by exception class.
- The Laravel driver and service provider (`src/Laravel/`) and `src/BlueCanaryInterface.php` are not part of this model.

## Findings

| source | as written | input that shows it | evidently intended | confidence | as-written member | corrected member |
|---|---|---|---|---|---|---|
| src/Client.php:195-200 | `getUri` replaces every occurrence of the API version text in the joined URL | API version `v1` with counter name `dev1-counter`, which passes validation: the URL's counter part becomes `deapi/v1/event-counter` | only the version part is wrapped, giving `<base>/api/<version>/event/<uuid>/<counter>` | not executed | Endpoint.RewrittenUriBreaksCounter | Endpoint.EndpointUri |
