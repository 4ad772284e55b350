# logharbour: a Dafny model of the structured logger's emission pipeline

This project models the core of the `logharbour` Go package, a structured,
levelled logger. The modelled parts are:

- the priority and log-type enumerations, with their canonical names and JSON
  encodings, and the binary status;
- the log entry and its three payload kinds;
- the fail-over writer (`FallbackWriter`), which writes to a primary sink and
  retries the same bytes on a fallback sink when the primary fails;
- the `Logger` of `logharbour.go` and its older variant `HarbourLogger` of
  `logdock.go`.

A `Logger` holds ambient context fields, a priority threshold, a validator
and a writer. The `With*` methods clone the logger and change one context
field. `ChangePriority` changes the threshold in place. Every `Log*` call
builds an entry and sends it through the same pipeline:

1. re-stamp the application name;
2. drop the entry if its priority is below the threshold;
3. validate it; if it is invalid and the writer is a `FallbackWriter`, send it
   to that writer's fallback sink, otherwise return the validation error;
4. encode it as JSON and write it once, followed by one newline.

Files and modules:

- `platform.dfy`, module `Platform`: stand-ins for the Go library pieces the
  core uses: bytes, `error`, `time.Time`, `any` values, and a byte sink
  (`io.Writer`) as the class `Sink`. It also holds the two JSON encodings that
  matter for the enumerations, a quoted string (`JsonString`) and a decimal
  integer (`JsonNumber`). `Sink` has a `buffer` and a `failure`. A sink with
  no failure appends every write in full. A failing sink refuses every write,
  reports 0 bytes and its error, and keeps its buffer.
- `types.dfy`, module `Types`: logharbour/types.go.
- `logharbour.dfy`, module `Logharbour`: logharbour/logharbour.go. The module
  `LogharbourScenarios` in the same file holds client methods. They show what
  a caller can prove from the contracts alone: a fail-over writer whose
  primary fails; a derived logger that leaves its parent unchanged; a debug
  message, a priority change, then a second debug message, both written in
  order; and an invalid entry that reaches only the fallback sink.
- `logdock.dfy`, module `Logdock`: logharbour/logdock.go. This file redeclares
  the same Go identifiers, so it gets its own module. Its name functions are
  proved equal to those of `Types`.

How the model works:

- **One value and one object per entity.** Entries, contexts and payloads are
  datatypes. Loggers, sinks and fail-over writers are classes, because the
  source updates them in place. A logger's writer is the datatype `Writer`:
  either `PlainWriter(sink)` or `FallbackTo(fallbackWriter)`. This stands for
  the type assertion `l.writer.(*FallbackWriter)`.
- **The pipeline is a function first.** `PlanLog` says what `log` does with
  one entry: suppress it, reject it, fail to encode it, or write a given
  record to the writer or the fallback branch. The method `Logger.Log`, and
  every `Log*` method through it, is proved against `PlanLog`. The two-state
  predicate `Emitted` ties each outcome to the sinks' new buffers and to the
  returned error.
- **Foreign code and the environment are parameters.** The validator
  (`validator.New()`, or `Validator` in logdock.go) is a function value stored
  in the logger. `json.Marshal` on entries is the `Marshaller` function passed
  to each emission call. The host name, the time stamp, the caller location,
  the process id and the Go version are inputs.
- **`Status`.** `Success` is 0 and `Failure` is 1, as the constants at
  logharbour/types.go:115-118 declare. The field comment at
  logharbour/types.go:132 says the opposite; the model follows the constants.
- **Fallback branch result.** On a validation failure with a
  `FallbackWriter`, `log` returns the result of
  `formatAndWriteEntry(fw.fallback, entry)` (logharbour/logharbour.go:154-157).
  A failing fallback sink or a failing encoder therefore returns its error;
  the comments at logharbour/logharbour.go:21-22 and 76 do not promise
  success.

## Model

| member | source | states |
|---|---|---|
| `Types.PriorityRanksConsecutive` | logharbour/types.go:13-30 | the eight named priorities are ranked 1 to 8 without gaps, strictly increasing, from Debug2 to Sec; they are exactly the integers 1..8 |
| `Types.PriorityString` | logharbour/types.go:32-66 | each of ranks 1..8 gets the name at its position in the name table; every other integer, 0 included, gets "Unknown"; a name is "Unknown" exactly when the rank is not 1..8; reading the name back gives the priority |
| `Types.PriorityStringInjective` | logharbour/types.go:45-66 | two named priorities with the same name are the same priority |
| `Types.PriorityMarshalJSON` | logharbour/types.go:68-72 | never fails; the result is a JSON string whose content is the priority's name, and it never equals the JSON number of the rank |
| `Types.LogTypeString` | logharbour/types.go:77-105 | Change, Activity and Debug get their names; every other value, 0 included, gets "Unknown", and only those do; reading the name back gives the type |
| `Types.LogTypeMarshalJSON` | logharbour/types.go:107-111 | never fails; the result is a JSON string whose content is the type's name, and it never equals the JSON number |
| `Types.FallbackWriter.NewFallbackWriter` | logharbour/types.go:166-172 | the writer keeps the given primary and fallback sinks |
| `Types.FallbackWriter.Write` | logharbour/types.go:174-185 | if the primary accepts, its result is returned and the fallback is untouched; if it refuses, its buffer is kept, the same bytes go to the fallback, and the fallback's count and error are returned; an error comes back only when both refused, and it is the fallback's |
| `Platform.Sink.Write` | tests/logdock_test.go:59-69 | one class for the two writers the tests use: a working sink appends exactly the bytes and reports their count, as the `bytes.Buffer` of tests/logdock_test.go:19-21 and 76 does; a failing one reports 0 and its error and keeps its buffer, as `mockFailingWriter` set to fail does |
| `Logharbour.WriteTo` | logharbour/logharbour.go:175 | a write goes to the plain sink, or through the fail-over protocol when the writer is a `FallbackWriter` |
| `Logharbour.Logger.constructor` | logharbour/logharbour.go:46-61 | the literal sets every context field, the writer and the validator as given |
| `Logharbour.Logger.Clone` | logharbour/logharbour.go:45-61 | a fresh logger with the same context, sharing the writer and the validator |
| `Logharbour.Logger.WithWho` | logharbour/logharbour.go:87-92 | a fresh logger equal to the receiver except that `who` is the argument; writer and validator are shared; the receiver is unchanged |
| `Logharbour.Logger.WithModule` | logharbour/logharbour.go:94-99 | as `WithWho`, for `module` |
| `Logharbour.Logger.WithOp` | logharbour/logharbour.go:101-106 | as `WithWho`, for `op` |
| `Logharbour.Logger.WithWhatClass` | logharbour/logharbour.go:108-113 | as `WithWho`, for `whatClass` |
| `Logharbour.Logger.WithWhatInstanceId` | logharbour/logharbour.go:115-120 | as `WithWho`, for `whatInstanceId` |
| `Logharbour.Logger.WithStatus` | logharbour/logharbour.go:122-127 | as `WithWho`, for `status` |
| `Logharbour.Logger.WithPriority` | logharbour/logharbour.go:129-134 | as `WithWho`, for the threshold |
| `Logharbour.Logger.WithRemoteIP` | logharbour/logharbour.go:136-141 | as `WithWho`, for `remoteIP` |
| `Logharbour.NewLogger` | logharbour/logharbour.go:63-73 | a fresh logger with the given name, host and writer, threshold Info, status Success and every other context field empty |
| `Logharbour.NewLoggerWithFallback` | logharbour/logharbour.go:75-85 | as `NewLogger`, with the `FallbackWriter` as the writer |
| `Logharbour.Logger.ChangePriority` | logharbour/logharbour.go:223-228 | only the receiver's threshold changes, to the argument; loggers cloned earlier are different objects and keep theirs |
| `Logharbour.NewLogEntry` | logharbour/logharbour.go:179-196 | the entry carries every context field of the logger, the threshold as its priority, the message, the payload and the time stamp; its type is left at the unnamed zero value |
| `Logharbour.FillDebugInfo` | logharbour/logharbour.go:212-216 | the file name, line number, function name and stack trace are those of the caller lookup, the pid and runtime fields are the supplied process id and Go version, and the caller's variables are kept |
| `Logharbour.FormatEntry` | logharbour/logharbour.go:168-174 | encoding fails exactly when `json.Marshal` fails, with its error; otherwise the record is the encoding followed by one newline |
| `Logharbour.ShouldLog` | logharbour/logharbour.go:163-166 | holds exactly when the priority is at least the threshold |
| `Logharbour.ShouldLogMonotone` | logharbour/logharbour.go:163-166 | a kept entry stays kept at a higher priority or under a lower threshold |
| `Logharbour.PlanLog` | logharbour/logharbour.go:143-166 | with the application name re-stamped: suppressed exactly when the priority is below the threshold; rejected with the validator's error exactly when the entry is invalid and the writer is not a `FallbackWriter`; otherwise an encoding error is returned as is, or the newline-terminated record is written, to the fallback branch exactly when the entry is invalid |
| `Logharbour.SuppressionIgnoresValidator` | logharbour/logharbour.go:148-151 | below the threshold the outcome is suppression, whatever the validator, the encoder and the writer |
| `Logharbour.LogCallsPassFilter` | logharbour/logharbour.go:198-221 | an entry built by a `Log*` method is never suppressed, because its priority is the threshold |
| `Logharbour.Logger.Log` | logharbour/logharbour.go:143-161 | suppression, rejection and encoding failure return nil, the validator's error and the encoder's error, with no sink touched; a valid entry is written once to the writer; an invalid one is written once to the fallback sink, never to the primary, and the write's error is returned |
| `Logharbour.FormatAndWriteEntry` | logharbour/logharbour.go:168-177 | an encoding error is returned with nothing written; otherwise the record is written once and the write's error is returned unchanged |
| `Logharbour.Logger.LogDataChange` | logharbour/logharbour.go:198-203 | the logger's entry for the message, tagged Change, goes through `log` |
| `Logharbour.Logger.LogActivity` | logharbour/logharbour.go:205-210 | the logger's entry for the message, tagged Activity, goes through `log` |
| `Logharbour.Logger.LogDebug` | logharbour/logharbour.go:212-221 | the payload gets the caller location, pid and runtime; the entry, tagged Debug, goes through `log` |
| `Logdock.PriorityString` | logharbour/logdock.go:31-53 | the same name as `LogPriority.string()` of types.go for every integer; "Unknown" exactly outside 1..8 |
| `Logdock.PriorityMarshalJSON` | logharbour/logdock.go:55-58 | the same bytes as types.go's encoding: the name as a JSON string, never the rank |
| `Logdock.LogTypeString` | logharbour/logdock.go:72-84 | the same name as `LogType.string()` of types.go for every value; "Unknown" exactly outside 1..3 |
| `Logdock.LogTypeMarshalJSON` | logharbour/logdock.go:86-89 | the same bytes as types.go's encoding, never the number |
| `Logdock.FallbackWriter.NewFallbackWriter` | logharbour/logdock.go:230-236 | the writer keeps the given primary and fallback sinks |
| `Logdock.FallbackWriter.Write` | logharbour/logdock.go:238-247 | primary first; on its failure the same bytes go to the fallback, whose count and error are returned; the fallback is untouched when the primary accepts |
| `Logdock.WriteTo` | logharbour/logdock.go:162 | a write goes to the plain sink, or through the fail-over protocol |
| `Logdock.HarbourLogger.NewLogger` | logharbour/logdock.go:125-133 | the logger keeps the given context, validator, threshold and writer |
| `Logdock.FormatEntry` | logharbour/logdock.go:156-161 | encoding fails exactly when `json.Marshal` fails, with its error; otherwise the record is the encoding followed by one newline |
| `Logdock.ShouldLog` | logharbour/logdock.go:150-153 | holds exactly when the priority is at least the threshold |
| `Logdock.ShouldLogMonotone` | logharbour/logdock.go:150-153 | a kept entry stays kept at a higher priority or under a lower threshold |
| `Logdock.PlanLog` | logharbour/logdock.go:135-153 | suppressed exactly when the priority is below the threshold; otherwise rejected with the validator's error exactly when invalid, whatever the writer; otherwise an encoding error, or the newline-terminated record is written |
| `Logdock.HarbourLogger.Log` | logharbour/logdock.go:135-148 | a suppressed, rejected or unencodable entry touches no sink and returns nil, the validator's error or the encoder's error; a valid entry is written once and the write's error is returned |
| `Logdock.FormatAndWriteEntry` | logharbour/logdock.go:155-164 | an encoding error is returned with nothing written; otherwise the record is written once and the write's error is returned |
| `Logdock.HarbourLogger.LogDataChange` | logharbour/logdock.go:188-198 | the caller's priority and message with the logger's context, tagged Change, go through `Log`; a priority below the threshold writes nothing |
| `Logdock.HarbourLogger.LogActivity` | logharbour/logdock.go:200-210 | as `LogDataChange`, tagged Activity |
| `Logdock.HarbourLogger.LogDebug` | logharbour/logdock.go:212-222 | as `LogDataChange`, tagged Debug |
| `Logdock.HarbourLogger.ChangePriority` | logharbour/logdock.go:249-251 | only the threshold changes, to the argument; every later `Log` is planned with it |
| `Logdock.ReplayWritesAdmitted` | logharbour/logdock.go:136-153 | over any sequence of log calls and priority changes, an accepting validator and a working encoder, the bytes `Replay` hands to the writer are one line per log call whose priority is at least the threshold in force at that moment, in call order |
| `Logdock.Run` | logharbour/logdock.go:135-153 | a `HarbourLogger` over a working sink, driven through any sequence of `Log` and `ChangePriority` calls, appends exactly `Replay` of those calls to the sink, each log call judged by the threshold in force when it is made; with an accepting validator and a working encoder that is one line per admitted call, in call order |

## Left out

- The mutexes of `Logger` and `FallbackWriter`: calls are modelled one at a time; the race between building an entry and a concurrent `ChangePriority` is not modelled.
- The JSON encoding of a whole entry is an input function (`Marshaller`); the model does not prove that this encoder renders the priority and type fields through their `MarshalJSON`.
- `json.Marshal` string escaping: `JsonString` is stated only for letters and digits, the only characters the names contain.
- The go-playground validator is an input function; what `validator.New()` would accept is not modelled.
- `GetSystemName`, `GetDebugInfo`, `os.Getpid`, `runtime.Version` and `time.Now` (logharbour/utils.go and the calls in logharbour/logharbour.go:188 and 214-216, logharbour/logdock.go:194, 206 and 218) are inputs.
- Payloads typed `any` are an opaque `Value`; `Data` holds only the three payload kinds the `Log*` methods put there.
- Writers nested inside a `FallbackWriter` (a fail-over writer whose primary is itself a fail-over writer) are not modelled: both branches are sinks.
- Sinks that accept part of a write and then fail are not modelled: a sink accepts every write in full or none.
- Go's 64-bit `int` for priorities, types and statuses is an unbounded integer; the core only compares and switches on them, so no wrap-around arises.
- The `Logger` interface of logharbour/logdock.go:106-109 has `HarbourLogger` as its only implementation, and it is modelled only through that class.
- main.go, cmd/main.go and the test file are not part of this model; the three-argument `NewLogger` called at tests/logdock_test.go:36 matches neither logger.
- Types.FallbackWriter.Write: does not count write attempts; that there are at most two, and no third level, follows from both branches being sinks rather than from a contract.
- Logdock.FallbackWriter.Write: does not count write attempts, for the same reason.
