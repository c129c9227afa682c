# speedtest-exporter, modelled in Dafny

This project models the core of speedtest-exporter, a Prometheus exporter that runs
internet speed tests and publishes their results as metrics. It also proves properties
of that model. The modelled parts are:

- **The result record** (`SpeedtestTypes`): the twelve-field `SpeedtestResult`, its
  constructors and getters, and its JSON encoding through the exported alias record.
  A JSON text is modelled as what `encoding/json` makes of it: no bytes, a non-JSON
  text, `null`, or an object with its members in order.
- **The mock provider** (`SpeedtestMock`): `MockSpeedtest`, whose callback becomes a
  run counter. A ghost call counter lets the collector's contracts count provider calls.
- **The result cache** (`ResultCache`): a single optional slot with a grace-period
  expiry rule. Storage is a `FileSystem` object holding a `map<string, Bytes>`, and
  the open/read/write outcomes are parameters.
- **The collector** (`SpeedtestCollector`): the double-checked refresh in
  `getSpeedtestResult` and the metrics that `Collect` emits. One caller alone reads
  its clock in increasing order, so its check under the mutex sees what its first check
  saw. A refresh by another caller between the two checks is modelled by running the
  first check (`CheckCache`) and the locked part (`RunLocked`) as separate steps, with
  several callers taking the mutex one after another.
- **Configuration** (`ExporterConfig`): the defaults, the case-insensitive log-level
  mapping, and the checks `LoadConfig` runs after decoding.
- **The remote-write clients**: v2 (`PromRemoteV2`) and v1 (`PromRemoteV1`). Both
  cover constructor and option validation, the label lists, value selection, the 2xx
  status check, v2's running flag and v1's one-second wait loop. `PromMetrics` holds
  the shapes they share: the dto metric, the reserved-label filter and the label
  flattening.
- **The logging middleware** (`MiddlewareLogging`): client-IP selection and the
  status-recording response wrapper.
- **Version text** (`ExporterVersion`): the commit lookup, its truncation and the
  four-line text.

Time is an integer count of nanoseconds since the Unix epoch (`GoTypes.Instant`). A
`time.Duration` is an `Int64`. Every Go multiplication or addition on durations that
can overflow goes through an explicit 64-bit wrap-around (`GoTypes.Wrap64`). Clock
readings (`time.Now()`) are parameters. Floats are carried as 64-bit IEEE patterns
(`bv64`), and the only things ever asked of them are equality and finiteness.

Some results are worth knowing before reading the table:

- **Default cache window wraps around.** `setNextSpeedtestTime` computes
  `time.Minute * c.cacheTime` (`pkg/collector/collector.go:55`). `cacheTime` is already
  a `time.Duration`, so with the default of five minutes the int64 product wraps to
  −4022215940522377216 ns. The next-speedtest time therefore lies in the past, and the
  collector's cache never serves a stored result. `DefaultWindowWraps` and
  `DefaultWindowNeverServes` state this. `MinuteCountWindow` shows the product is a
  window of `cacheTime` minutes only when `cacheTime` is a small number of
  nanoseconds. The model keeps the product as written, because it cannot tell
  "minutes as a count" from "duration" intent.
- **Metric getter names.** `collector.go:88` calls `result.ClientIp()` and
  `result.ClientIsp()`. `types.go` defines `ClientIP()` and `ClientISP()`. The model
  reads the `clientIP` and `clientISP` fields.
- **Tests that disagree with the code.** Where they disagree, the model follows the code:
  - `pkg/cache/cache_test.go:62-88` expects `NewCache` to subtract a grace period from
    `cacheTime`, but `cache.go:32-37` stores `cacheTime` unchanged.
  - `pkg/cache/cache_test.go:210-212` expects `ExpiresAt` to equal timestamp plus
    `cacheTime`, but `cache.go:138-145` also subtracts a grace period of at least 30 s.
  - `pkg/collector/collector_test.go` calls `NewCollector` with a cache and an
    instance name, and expects an instance label. `collector.go:38-46` and `:88` have
    neither.
  - `cmd/main.go:89` calls `collector.NewCollector(resultCache, s)`, but `collector.go:38`
    takes a cache time and a provider. No call site here passes a cache time to this
    `NewCollector`, so the default-window note above assumes the configured default
    (five minutes) is what reaches `cacheTime`.
- **Long measurements.** A measurement that took 250 s has a grace period of 255 s.
  With a five-minute cache time its cached result is valid for only 45 s after its
  timestamp (`LongMeasurementWindow`).
- **Header name.** The v1 `post` sets the header `X-Prometheus-Remote-Read-Version`,
  not `...-Write-Version` (`promremote/client.go:94`). The model records it as written.

## Model

| member | source | states |
|---|---|---|
| GoTypes.Wrap64 | pkg/collector/collector.go:55 | two's-complement int64 wrap: congruent to its input mod 2^64, and the identity on in-range values |
| GoTypes.TruncDiv | pkg/speedtest/types.go:49 | truncating division: the quotient rounds toward zero on both signs |
| GoTypes.Milliseconds | pkg/speedtest/types.go:49 | `Duration.Milliseconds()` truncates toward zero: for d >= 0, ms·1ms <= d < (ms+1)·1ms, and symmetrically below zero |
| GoTypes.FromUnixMilli | pkg/speedtest/types.go:110-112 | `time.UnixMilli(ms)` is a whole number of milliseconds, exactly ms of them, after the epoch |
| SpeedtestTypes.SpeedtestResult.TimestampAsTime | pkg/speedtest/types.go:110-112 | the instant is exactly `timestamp` milliseconds after the Unix epoch |
| SpeedtestTypes.NewFailedSpeedtestResult | pkg/speedtest/types.go:28-33 | success is false, timestamp is the clock in ms, every other field is the zero value |
| SpeedtestTypes.NewSpeedtestResult | pkg/speedtest/types.go:36-51 | success is true, each argument is copied to its field, and duration is the argument truncated to milliseconds |
| SpeedtestTypes.DecodeAlias | pkg/speedtest/types.go:158-161 | empty or non-JSON text fails; `null` leaves the zero alias; an object decodes iff every known key carries a value of its field's kind |
| SpeedtestTypes.MarshalJSON | pkg/speedtest/types.go:136-153 | succeeds iff every float field is finite; then writes one member per field under the twelve keys in field order |
| SpeedtestTypes.UnmarshalJSON | pkg/speedtest/types.go:157-177 | errors exactly when decoding fails and then leaves the receiver unchanged; otherwise the receiver holds all twelve decoded fields |
| SpeedtestTypes.JsonKeysDistinct | pkg/speedtest/types.go:119-132 | the alias has twelve pairwise distinct JSON keys |
| SpeedtestTypes.MembersShape | pkg/speedtest/types.go:137-152 | the encoded alias has one member per key, in order, and no key twice |
| SpeedtestTypes.LastValueOfUnique | pkg/speedtest/types.go:159 | a non-null member whose key occurs nowhere else decides that key's decoded value |
| SpeedtestTypes.KeyKinds | pkg/speedtest/types.go:119-132 | five float keys, four string keys, one bool key and two integer keys |
| SpeedtestTypes.MembersWellTyped | pkg/speedtest/types.go:136-153 | an alias with finite floats encodes to members that are each of their field's kind |
| SpeedtestTypes.MembersLastValues | pkg/speedtest/types.go:136-161 | in an encoded alias each key decodes to the value written under it |
| SpeedtestTypes.DecodeMembers | pkg/speedtest/types.go:136-161 | decoding the encoding of an alias with finite floats gives back that alias |
| SpeedtestTypes.MarshalRoundTrip | pkg/speedtest/types.go:136-177 | whatever the receiver held, unmarshalling a marshalled result yields that result in every field, with no error |
| SpeedtestTypes.MarshalKeysOneToOne | pkg/speedtest/types.go:119-153 | the encoding has twelve members with distinct keys, each carrying its own field's value |
| SpeedtestMock.MockSpeedtest.constructor | pkg/speedtest/mock-speedtest.go:5-9 | the mock holds the given callback flag, failure flag and result, with no runs so far |
| SpeedtestMock.MockSpeedtest.Speedtest | pkg/speedtest/mock-speedtest.go:11-19 | each call runs the callback once if set; with Fail the result is a failed result stamped now, otherwise exactly the configured result |
| SpeedtestMock.MockSpeedtestResult | pkg/speedtest/mock-speedtest.go:21-25 | the given timestamp, success, duration 251234 ms, the fixed server and client strings, and finite floats |
| ResultCache.GracePeriod | pkg/cache/cache.go:140-143 | the grace period is never below 30 s |
| ResultCache.GracePeriodIsMax | pkg/cache/cache.go:140-143 | without overflow, the grace period is max(30 s, duration·1 ms + 5 s) |
| ResultCache.WrappedDurationGetsMinimumGrace | pkg/cache/cache.go:140-143 | a duration whose ms-to-ns product wraps negative gets the 30 s minimum |
| ResultCache.ExpiryOf | pkg/cache/cache.go:138-145 | expiry is at most timestamp + cacheTime − 30 s |
| ResultCache.ExpiryIsTimestampPlusCacheTimeMinusGrace | pkg/cache/cache.go:138-145 | expiry is exactly timestamp + cacheTime − grace period |
| ResultCache.ShortMeasurementWindow | pkg/cache/cache.go:141-144 | a measurement of at most 25 s (duration 0 included) is valid for exactly cacheTime − 30 s after its timestamp |
| ResultCache.LongMeasurementWindow | pkg/cache/cache.go:138-145 | a 250 s measurement with a five-minute cache time is valid for 45 s |
| ResultCache.FileSystem.constructor | pkg/cache/cache.go:47 | the storage holds the given files |
| ResultCache.CreatedAt | pkg/cache/cache.go:47 | opening with O_CREATE makes the path exist, keeps its content, and leaves every other path alone |
| ResultCache.Cache.constructor | pkg/cache/cache.go:33-37 | the cache holds the given persist flag, path and cache time, with an empty slot |
| ResultCache.Restore | pkg/cache/cache.go:61-73 | no bytes or non-JSON leave the slot empty; the slot is filled iff the text decodes, with the decoded fields |
| ResultCache.RestoreOfSaved | pkg/cache/cache.go:66-114 | restoring the bytes `Save` writes gives back the saved result |
| ResultCache.NewCache | pkg/cache/cache.go:32-75 | persist is kept only with a non-empty path and a successful open; the slot is filled only when the file's content decodes; only an open creates the file |
| ResultCache.Read | pkg/cache/cache.go:79-91 | a nil cache or an empty slot gives (none, false); otherwise the stored result, valid iff now is strictly before its expiry |
| ResultCache.ExpiresAt | pkg/cache/cache.go:121-133 | the zero time for a nil cache or an empty slot, otherwise the stored result's expiry |
| ResultCache.Save | pkg/cache/cache.go:96-118 | the slot always holds the given result; storage changes only when persisting, marshalling succeeds and the write succeeds, and then holds the encoding at path |
| ResultCache.SaveThenRestart | pkg/cache/cache.go:32-118 | a result saved to a writable path is restored by a new cache on that path, valid iff now is before its expiry |
| SpeedtestCollector.Collector.constructor | pkg/collector/collector.go:42-45 | the collector holds the cache time and provider, with no result and the zero next-run time |
| SpeedtestCollector.Collector.CheckCache | pkg/collector/collector.go:62-74 | a hit exactly when a result is stored and now is before the next-run time; a hit returns the stored result |
| SpeedtestCollector.Collector.SetNextSpeedtestTime | pkg/collector/collector.go:54-57 | the next-run time is now plus `Minute * cacheTime` with int64 wrap-around |
| SpeedtestCollector.Collector.RunLocked | pkg/collector/collector.go:68-78 | a fresh cache is served with no provider call and no state change; otherwise the provider runs once, its result is stored and returned, and the next-run time is reset |
| SpeedtestCollector.Collector.GetSpeedtestResult | pkg/collector/collector.go:61-79 | for one caller with increasing clock readings: served from cache, with nothing changed, if the first check finds it fresh; otherwise exactly one provider call whose result (failed or not) is stored and returned |
| SpeedtestCollector.Collector.Collect | pkg/collector/collector.go:82-97 | the emitted metrics are the stored result's emission, after the refresh rule above; a missing result panics |
| SpeedtestCollector.NewCollector | pkg/collector/collector.go:38-46 | `ErrNoSpeedtest` exactly when the provider is nil; otherwise a new collector with that provider and cache time and no result |
| SpeedtestCollector.EmissionReportsResult | pkg/collector/collector.go:85-95 | success emits six metrics: the five measurements labelled [ip, isp] with their values, then up = 1; failure emits only up = 0 |
| SpeedtestCollector.ValueOfSkips | pkg/collector/collector.go:86-95 | metrics with other names before a metric do not change what its name looks up |
| SpeedtestCollector.MetricNamesDistinct | pkg/collector/collector.go:21-26 | the six metric names are pairwise distinct |
| SpeedtestCollector.UpIsLastAndReflectsSuccess | pkg/collector/collector.go:85-95 | the last metric is always the unlabelled `speedtest_up`, equal to 1 iff the speedtest succeeded |
| SpeedtestCollector.DefaultWindowWraps | pkg/collector/collector.go:55 | with cacheTime = 5 min, `Minute * cacheTime` wraps to a negative duration, so the next-run time precedes now |
| SpeedtestCollector.DefaultWindowNeverServes | pkg/collector/collector.go:55-74 | with the default cache time, a result stored at t3 is never served at or after t3 |
| SpeedtestCollector.MinuteCountWindow | pkg/collector/collector.go:55 | when `Minute * cacheTime` does not overflow, the window is cacheTime minutes |
| SpeedtestCollector.WaitingCallersShareOneRun | pkg/collector/collector.go:61-79 | callers that take the mutex one after another, each with its own clock readings, make one provider call and all get its result, provided the window the first one opens (from its reset time t3) still covers every later caller's re-check; this never holds with the default five-minute cache time |
| SpeedtestCollector.DefaultWaitingCallersEachRun | pkg/collector/collector.go:61-79 | with the default five-minute cache time, the same callers each find the window closed again: n callers make n provider calls, each getting its own run's result |
| ExporterConfig.DefaultConfig | pkg/config/config.go:13-54 | log level "info", port 8080, cache 5 min, no speedtest CLI, remote disabled |
| ExporterConfig.LowerChar | pkg/config/config.go:112 | ASCII capitals map to their lower case; other characters, apart from U+0130 and U+212A, are kept |
| ExporterConfig.ToLower | pkg/config/config.go:112 | `strings.ToLower` maps each character and keeps the length |
| ExporterConfig.ParseLogLevelAnyCase | pkg/config/config.go:111-125 | each of debug, info, warn and error is accepted in any case, mapped to its level; every other string is rejected |
| ExporterConfig.LogLevelExamples | pkg/config/config.go:111-125 | upper-case names map to their levels; "Unknown" is rejected |
| ExporterConfig.UpperCaseSpelling | pkg/config/config.go:112 | an all-capitals spelling lowers to the word |
| ExporterConfig.LevelVar.constructor | pkg/config/config.go:19-23 | a new level variable starts at Info |
| ExporterConfig.SetLogLevel | pkg/config/config.go:111-125 | no error iff the name parses, and then the level is set; otherwise `ErrUnknownLogLevel` carrying the string, with the level unchanged |
| ExporterConfig.CheckRemote | pkg/config/config.go:89-105 | disabled remote passes unchecked; empty URL fails first; credentials fail iff exactly one is empty; an empty instance becomes the hostname or "localhost"; nothing else changes |
| ExporterConfig.LoadConfig | pkg/config/config.go:62-108 | empty path gives defaults at level Info; read, decode, level and remote errors in that order, each returning the zero config |
| PromMetrics.SelectValue | vendor/github.com/heathcliff26/promremote/v2/promremote/client.go:174-187 | counter first, then gauge, then untyped; none only when all three are missing |
| PromMetrics.OwnLabels | vendor/github.com/heathcliff26/promremote/v2/promremote/client.go:166-171 | the kept labels are no more than the input and carry no reserved name |
| PromMetrics.OwnLabelsMembers | vendor/github.com/heathcliff26/promremote/v2/promremote/client.go:166-171 | a label is kept iff it is in the input and its name is not reserved |
| PromMetrics.OwnLabelsAppend | vendor/github.com/heathcliff26/promremote/v2/promremote/client.go:167-171 | filtering distributes over concatenation, so input order is kept |
| PromMetrics.OwnLabelsOfUnreserved | vendor/github.com/heathcliff26/promremote/v2/promremote/client.go:167-171 | labels with no reserved name pass through unchanged |
| PromMetrics.Flatten | vendor/github.com/heathcliff26/promremote/v2/promremote/client.go:169 | a flattened list is twice as long as its pairs |
| PromMetrics.FlattenIndex | vendor/github.com/heathcliff26/promremote/v2/promremote/client.go:169 | entry 2i is pair i's name and entry 2i+1 its value |
| PromMetrics.FlattenAppend | vendor/github.com/heathcliff26/promremote/v2/promremote/client.go:169 | flattening distributes over concatenation |
| PromRemoteV2.ApplyOption | vendor/github.com/heathcliff26/promremote/v2/promremote/client.go:54-86 | an option fails iff one of its arguments is empty, with its own error; otherwise it sets its own field only |
| PromRemoteV2.ApplyAllSucceedsIff | vendor/github.com/heathcliff26/promremote/v2/promremote/client.go:108-113 | applying options succeeds iff every option is acceptable |
| PromRemoteV2.ApplyAllFirstError | vendor/github.com/heathcliff26/promremote/v2/promremote/client.go:108-113 | a failure carries the error of the first unacceptable option, all before it being acceptable |
| PromRemoteV2.LastInstanceLabelWins | vendor/github.com/heathcliff26/promremote/v2/promremote/client.go:66-113 | the last instance option decides the instance |
| PromRemoteV2.Defaults | vendor/github.com/heathcliff26/promremote/v2/promremote/client.go:101-106 | default job "promremote", no basic auth, instance the hostname or "localhost" |
| PromRemoteV2.ConvertSpec | vendor/github.com/heathcliff26/promremote/v2/promremote/client.go:144-201 | a metric fails on a missing fqName, then on a failed write, then on an unknown type; otherwise its series has the selected kind and value, the help text, the timestamp and the label list |
| PromRemoteV2.LabelListShape | vendor/github.com/heathcliff26/promremote/v2/promremote/client.go:164-171 | the label list has even length, opens with `__name__`, fqName, `instance`, instance, `job`, job, and names nothing reserved after that |
| PromRemoteV2.OwnLabelsStep | vendor/github.com/heathcliff26/promremote/v2/promremote/client.go:167-171 | one loop step of the filter keeps or drops exactly the next label |
| PromRemoteV2.FlattenSnoc | vendor/github.com/heathcliff26/promremote/v2/promremote/client.go:169 | appending a pair appends its name and value |
| PromRemoteV2.BuildLabels | vendor/github.com/heathcliff26/promremote/v2/promremote/client.go:164-171 | the append loop builds the reserved prefix followed by the flattened unreserved labels |
| PromRemoteV2.Client.constructor | vendor/github.com/heathcliff26/promremote/v2/promremote/client.go:101-106 | the client holds the given settings and registry, idle and with no cancel handle |
| PromRemoteV2.Client.Apply | vendor/github.com/heathcliff26/promremote/v2/promremote/client.go:54-86 | an accepted option updates the settings as `ApplyOption` does; a rejected one returns its error and changes nothing |
| PromRemoteV2.Client.ConvertMetric | vendor/github.com/heathcliff26/promremote/v2/promremote/client.go:144-201 | the series built for one metric is its conversion |
| PromRemoteV2.Client.Collect | vendor/github.com/heathcliff26/promremote/v2/promremote/client.go:134-207 | succeeds iff every metric converts, giving their series in order; a failure is the first failing metric's error |
| PromRemoteV2.Client.Run | vendor/github.com/heathcliff26/promremote/v2/promremote/client.go:210-246 | already running gives `ErrClientAlreadyRunning` and no change; otherwise running with a fresh cancel handle |
| PromRemoteV2.Client.IsRunning | vendor/github.com/heathcliff26/promremote/v2/promremote/client.go:249-251 | reports the running flag |
| PromRemoteV2.Client.Stop | vendor/github.com/heathcliff26/promremote/v2/promremote/client.go:254-258 | cancels only when running with a cancel handle; otherwise no change |
| PromRemoteV2.Client.LoopIteration | vendor/github.com/heathcliff26/promremote/v2/promremote/client.go:221-241 | each iteration writes once; it exits exactly on cancellation, and exiting clears the running flag |
| PromRemoteV2.NewWriteClient | vendor/github.com/heathcliff26/promremote/v2/promremote/client.go:93-123 | empty endpoint, then nil registry, then the first failing option, then the remote API, each with its error and no client; otherwise an idle client with the options applied to the defaults |
| PromRemoteV2.RegistryOf | vendor/github.com/heathcliff26/promremote/v2/promremote/client.go:126-131 | nil for a nil client, otherwise its registry |
| PromRemoteV2.Lifecycle | vendor/github.com/heathcliff26/promremote/v2/promremote/client.go:210-258 | start succeeds, a second start is refused, and after stop and loop exit a restart succeeds |
| PromRemoteV1.StatusError | vendor/github.com/heathcliff26/promremote/promremote/client.go:107-109 | no error iff the status is in 200..299; otherwise `ErrRemoteWriteFailed` with that status |
| PromRemoteV1.PostError | vendor/github.com/heathcliff26/promremote/promremote/client.go:88-111 | a post succeeds iff the request was built and sent and the status is 2xx |
| PromRemoteV1.ConvertSpec | vendor/github.com/heathcliff26/promremote/promremote/client.go:124-184 | a metric fails on a missing fqName, then on a failed write, then on an unknown type; otherwise its series has the selected value, the timestamp and the label list |
| PromRemoteV1.LabelsShape | vendor/github.com/heathcliff26/promremote/promremote/client.go:139-160 | the labels open with `__name__`, `instance`, `job`, carrying fqName, instance and job, and name nothing reserved after that |
| PromRemoteV1.LabelsAgreeWithV2 | vendor/github.com/heathcliff26/promremote/promremote/client.go:139-160 | flattened, the v1 label pairs are exactly the v2 label list |
| PromRemoteV1.ConvertAgreesWithV2 | vendor/github.com/heathcliff26/promremote/promremote/client.go:124-176 | v1 converts a metric iff v2 does, with the same value, timestamp and labels |
| PromRemoteV1.BuildLabels | vendor/github.com/heathcliff26/promremote/promremote/client.go:139-160 | the append loop builds the three reserved pairs followed by the unreserved labels in order |
| PromRemoteV1.TicksBeforePush | vendor/github.com/heathcliff26/promremote/promremote/client.go:205-216 | the tick count is ceil(interval / 1 s), and 0 for a non-positive interval |
| PromRemoteV1.TicksExamples | vendor/github.com/heathcliff26/promremote/promremote/client.go:205-216 | 0 and −1 s need no tick, 30 s needs 30, 1.5 s needs 2, 1 ns needs 1 |
| PromRemoteV1.WaitForNextPush | vendor/github.com/heathcliff26/promremote/promremote/client.go:205-216 | without an early quit the loop waits exactly the tick count; a quit before that exits at once after the ticks so far |
| PromRemoteV1.Client.constructor | vendor/github.com/heathcliff26/promremote/promremote/client.go:47-52 | the client holds endpoint, instance, job and registry, with no credentials |
| PromRemoteV1.Client.SetBasicAuth | vendor/github.com/heathcliff26/promremote/promremote/client.go:70-77 | fails with `ErrMissingAuthCredentials` iff either credential is empty, leaving them unchanged; otherwise stores both |
| PromRemoteV1.Client.Request | vendor/github.com/heathcliff26/promremote/promremote/client.go:88-97 | the request goes to the endpoint and carries basic auth iff the username is non-empty |
| PromRemoteV1.Client.Post | vendor/github.com/heathcliff26/promremote/promremote/client.go:80-112 | a request is sent unless it cannot be built; the error is the post outcome's |
| PromRemoteV1.Client.ConvertMetric | vendor/github.com/heathcliff26/promremote/promremote/client.go:124-184 | the series built for one metric is its conversion |
| PromRemoteV1.Client.Collect | vendor/github.com/heathcliff26/promremote/promremote/client.go:115-187 | succeeds iff every metric converts, giving their series in order; a failure is the first failing metric's error |
| PromRemoteV1.Client.PushCycle | vendor/github.com/heathcliff26/promremote/promremote/client.go:193-216 | one loop round: collect, post, then wait the tick count or quit early |
| PromRemoteV1.NewWriteClient | vendor/github.com/heathcliff26/promremote/promremote/client.go:34-53 | endpoint, instance, job and registry are checked in that order, the first missing one's error returned; otherwise a client holding them |
| PromRemoteV1.Endpoint | vendor/github.com/heathcliff26/promremote/promremote/client.go:55-60 | "" for a nil client, otherwise its endpoint |
| PromRemoteV1.RegistryOf | vendor/github.com/heathcliff26/promremote/promremote/client.go:62-67 | nil for a nil client, otherwise its registry |
| MiddlewareLogging.HeaderGet | vendor/github.com/heathcliff26/simple-fileserver/pkg/middleware/logging.go:51 | the first value stored under the key when there is one, and "" when the key is absent or holds no values |
| MiddlewareLogging.ReadUserIP | vendor/github.com/heathcliff26/simple-fileserver/pkg/middleware/logging.go:50-59 | `x-real-ip` if non-empty, else `x-forwarded-for` if non-empty, else the remote address |
| MiddlewareLogging.ReadUserIPEmptyIff | vendor/github.com/heathcliff26/simple-fileserver/pkg/middleware/logging.go:50-59 | the IP is empty iff both headers and the remote address are empty |
| MiddlewareLogging.RealIPOverrides | vendor/github.com/heathcliff26/simple-fileserver/pkg/middleware/logging.go:51-57 | with `x-real-ip` set, `x-forwarded-for` and the remote address do not matter |
| MiddlewareLogging.ResponseWriter.constructor | vendor/github.com/heathcliff26/simple-fileserver/pkg/middleware/logging.go:24 | a new writer has received no status |
| MiddlewareLogging.ResponseWrapper.constructor | vendor/github.com/heathcliff26/simple-fileserver/pkg/middleware/logging.go:27-30 | the wrapper wraps the writer and records 200 |
| MiddlewareLogging.ResponseWrapper.WriteHeader | vendor/github.com/heathcliff26/simple-fileserver/pkg/middleware/logging.go:16-19 | the code is forwarded to the wrapped writer and recorded |
| MiddlewareLogging.Serve | vendor/github.com/heathcliff26/simple-fileserver/pkg/middleware/logging.go:23-42 | every code the handler writes reaches the writer in order; the logged status is the last one, or 200 if none; source, method and path come from the request |
| ExporterVersion.Revision | pkg/version/version.go:12-19 | a non-empty commit is the value of some `vcs.revision` setting |
| ExporterVersion.RevisionIsFirst | pkg/version/version.go:14-18 | the commit is the value of the first `vcs.revision` setting; later ones are ignored |
| ExporterVersion.CommitLabel | pkg/version/version.go:20-24 | an empty commit prints "Unknown"; a longer one is cut to its first 7 characters; the label has 1 to 7 characters |
| ExporterVersion.Version | pkg/version/version.go:11-32 | panics iff there is no build info; otherwise the four-line text of the name, version, commit label and Go version |
| ExporterVersion.TextIsJoinedLines | pkg/version/version.go:26-29 | the text built by `+=` is the four lines, each ending in a newline |
| ExporterVersion.SplitLines | pkg/version/version.go:26-31 | splitting on "\n" gives at least one part |
| ExporterVersion.SplitLine | pkg/version/version.go:26-31 | a line without a newline, followed by "\n", splits off as one part |
| ExporterVersion.JoinLinesCons | pkg/version/version.go:26-29 | joining lines is the first line, a newline, and the rest joined |
| ExporterVersion.SplitJoinLines | pkg/version/version.go:26-31 | splitting newline-free lines, each newline-terminated, gives the lines back plus one empty part |
| ExporterVersion.VersionText | pkg/version/version.go:26-31 | the text splits into 5 parts: "speedtest-exporter:", the version, the commit (never empty after its label), the Go version, and an empty last part |

## Left out

- Concurrency (`sync.Mutex`, `sync.RWMutex`, goroutines, channels, `atomic.Bool`, `context`) is modelled sequentially. The collector's mutex is modelled by running `CheckCache` and `RunLocked` as separate steps. `WaitingCallersShareOneRun` and `DefaultWaitingCallersEachRun` cover callers that take the mutex one after another. Other interleavings, such as a first check racing a refresh in progress, are not modelled.
- SpeedtestCollector.Collector.GetSpeedtestResult: requires t1 <= t2 <= tRun <= t3, the order in which one caller reads Go's monotonic clock. `Collector.Collect` has the same requires. Readings that run backwards are not modelled.
- SpeedtestCollector.NewCollector: Go's `speedtest == nil` is false for an interface holding a nil `*MockSpeedtest`. The source accepts that value and panics later in `Speedtest`. The model has a single `null`, which returns `ErrNoSpeedtest`, so the typed-nil case is not represented.
- `Describe` (`prometheus.DescribeByCollect`) in `collector.go` is a library call and is left out.
- The real providers (`speedtest-cli.go`, `speedtest-go.go`) run processes and use the network. `util.go` does float unit conversion, and `result-json.go` holds only data shapes. None of them is part of this model; the mock provider stands in for them.
- All float arithmetic is left out. Floats are carried as `bv64` patterns, and only finiteness is inspected.
- SpeedtestTypes.UnmarshalJSON: modelled on values (old receiver in, new receiver out) rather than through a pointer, so aliasing of the receiver is not modelled.
- SpeedtestTypes.DecodeAlias: JSON is modelled at the member level. Raw byte parsing, the number grammar, case-insensitive key matching and integer literals for float fields are left out.
- SpeedtestTypes getters are plain field selectors, with no row of their own.
- `time.Time` range limits and monotonic clock readings are not modelled. An instant is an unbounded integer.
- ResultCache: the file open, read and write are replaced by a `FileSystem` map and outcome parameters. A partial write is not modelled; a write either fully succeeds or leaves storage unchanged.
- ResultCache.Save: a nil result is not represented. Go panics on it while persisting, and otherwise `cache.go:103` stores it, which empties the slot. The model takes a non-optional result, so it covers neither case.
- All `slog` logging is left out, including the logged duration (`time.Since`) in the logging middleware.
- ExporterConfig.LoadConfig: the file read, `os.ExpandEnv` and YAML decoding are a `ConfigFile` parameter. `duration.go` and the hostname lookup are outside the model, and the hostname is a parameter.
- ExporterConfig.LowerChar: models `unicode.ToLower` only for ASCII capitals and the two non-ASCII characters that lower to ASCII letters (U+0130 and U+212A). Other non-ASCII characters are kept as they are, which does not change which strings match a level name.
- PromRemoteV2 and PromRemoteV1: fqName and help text are inputs, not extracted from `Desc().String()` by regular expression. Protobuf, snappy, the symbol table, the HTTP transport, `addBasicAuthToHTTPClient`, `remote.NewAPI` and `remote.API.Write` are left out; their outcomes are parameters.
- PromRemoteV2.Client.LoopIteration: requires a running client and that the loop only exits on cancellation. These are the conditions under which the goroutine runs the loop. The ticker panic for a non-positive interval is not modelled.
- PromRemoteV1.WaitForNextPush: requires interval <= 9223372036 s, so that the elapsed-time counter cannot overflow int64. Longer intervals are not modelled.
- Per-sample clock reads in `collect` become one timestamp parameter per collection.
- ExporterVersion.Version: `commit[:7]` slices bytes in Go. The model slices characters, which agrees for the ASCII hex digests a VCS writes. `runtime.Version()` and `debug.ReadBuildInfo()` are parameters.
- MiddlewareLogging.ResponseWrapper.WriteHeader: net/http's handling of a repeated `WriteHeader` (a superfluous call is ignored by the real writer) is not modelled. Every call is recorded.
- `cmd/main.go`, the `errors.go` files (message strings only) and the tests are not part of this model. Error kinds are datatype constructors.
