/**
 * The older logger of logharbour/logdock.go, `HarbourLogger`. It redeclares
 * the enumerations and the fail-over writer, takes the priority of every
 * entry from its caller, and returns a validation error in every case (it
 * has no fallback routing for invalid entries).
 */
module Logdock {
  import opened Platform
  import Types

  // ---------------------------------------------------------------------
  // Enumerations, as redeclared here
  // ---------------------------------------------------------------------

  newtype LogPriority = int

  const Debug2: LogPriority := 1
  const Debug1: LogPriority := 2
  const Debug0: LogPriority := 3
  const Info: LogPriority := 4
  const Warn: LogPriority := 5
  const Err: LogPriority := 6
  const Crit: LogPriority := 7
  const Sec: LogPriority := 8

  /** `LogPriority.String()`: the same names as `LogPriority.string()` of types.go. */
  function PriorityString(lp: LogPriority): (s: string)
    ensures s == Types.PriorityString(lp as Types.LogPriority)
    ensures s == "Unknown" <==> !(Debug2 <= lp <= Sec)
  {
    if lp == Debug2 then "Debug2"
    else if lp == Debug1 then "Debug1"
    else if lp == Debug0 then "Debug0"
    else if lp == Info then "Info"
    else if lp == Warn then "Warn"
    else if lp == Err then "Err"
    else if lp == Crit then "Crit"
    else if lp == Sec then "Sec"
    else "Unknown"
  }

  /** `LogPriority.MarshalJSON`: the same encoding as in types.go, the name and never the rank. */
  function PriorityMarshalJSON(lp: LogPriority): (r: Result<Bytes>)
    ensures r == Types.PriorityMarshalJSON(lp as Types.LogPriority)
    ensures r.Ok? && r.value != JsonNumber(lp as int)
  {
    Ok(JsonString(PriorityString(lp)))
  }

  newtype LogType = int

  const LogTypeChange: LogType := 1
  const LogTypeActivity: LogType := 2
  const LogTypeDebug: LogType := 3

  /** `LogType.String()`: the same names as `LogType.string()` of types.go. */
  function LogTypeString(lt: LogType): (s: string)
    ensures s == Types.LogTypeString(lt as Types.LogType)
    ensures s == "Unknown" <==> !(LogTypeChange <= lt <= LogTypeDebug)
  {
    if lt == LogTypeChange then "Change"
    else if lt == LogTypeActivity then "Activity"
    else if lt == LogTypeDebug then "Debug"
    else "Unknown"
  }

  /** `LogType.MarshalJSON`. */
  function LogTypeMarshalJSON(lt: LogType): (r: Result<Bytes>)
    ensures r == Types.LogTypeMarshalJSON(lt as Types.LogType)
    ensures r.Ok? && r.value != JsonNumber(lt as int)
  {
    Ok(JsonString(LogTypeString(lt)))
  }

  // ---------------------------------------------------------------------
  // Entries and payloads
  // ---------------------------------------------------------------------

  /** `LoggerContext`: the fields put in every entry. */
  datatype LoggerContext = LoggerContext(appName: string, systemName: string)

  datatype ChangeInfo = ChangeInfo(entity: string, operation: string, user: string, changes: map<string, Value>)

  /** `ActivityInfo`; the `time.Duration` is in nanoseconds. */
  datatype ActivityInfo = ActivityInfo(activityType: string, endpoint: string, duration: int)

  datatype DebugInfo = DebugInfo(level: string, message: string, location: string)

  /** The `Data any` field, as the three `Log*` methods fill it. */
  datatype Payload =
    | ChangeData(change: ChangeInfo)
    | ActivityData(activity: ActivityInfo)
    | DebugData(debug: DebugInfo)

  datatype LogEntry = LogEntry(
    context: LoggerContext,
    logType: LogType,
    priority: LogPriority,
    timestamp: Time,
    message: string,
    data: Payload)

  /** The `Validator` interface: `None` accepts an entry, `Some(e)` rejects it with `e`. */
  type Validator = LogEntry -> Option<Error>

  /** `json.Marshal` on an entry. */
  type Marshaller = LogEntry -> Result<Bytes>

  // ---------------------------------------------------------------------
  // FallbackWriter, as redeclared here (no mutex)
  // ---------------------------------------------------------------------

  class FallbackWriter {
    const primary: Sink
    const fallback: Sink

    /** `NewFallbackWriter`. */
    constructor NewFallbackWriter(primary: Sink, fallback: Sink)
      ensures this.primary == primary && this.fallback == fallback
    {
      this.primary := primary;
      this.fallback := fallback;
    }

    /** `FallbackWriter.Write`: primary first, the fallback only when the primary fails. */
    method Write(p: Bytes) returns (n: int, err: Option<Error>)
      modifies primary, fallback
      ensures FailoverWrote(primary, fallback, p, err)
      ensures n == if err.None? then |p| else 0
      ensures err.Some? ==> old(primary.failure).Some? && err == old(fallback.failure)
    {
      n, err := primary.Write(p);
      if err.Some? {
        n, err := fallback.Write(p);
      }
    }
  }

  /** The logger's `io.Writer`: a plain sink or this file's `FallbackWriter`. */
  datatype Writer = PlainWriter(sink: Sink) | FallbackTo(fw: FallbackWriter)

  function Sinks(w: Writer): set<Sink>
  {
    match w
    case PlainWriter(s) => {s}
    case FallbackTo(fw) => {fw.primary, fw.fallback}
  }

  twostate predicate WriterWrote(w: Writer, p: Bytes, new err: Option<Error>)
    reads Sinks(w)
  {
    match w
    case PlainWriter(s) => SinkWrote(s, p, err)
    case FallbackTo(fw) => FailoverWrote(fw.primary, fw.fallback, p, err)
  }

  method WriteTo(w: Writer, p: Bytes) returns (n: int, err: Option<Error>)
    modifies Sinks(w)
    ensures WriterWrote(w, p, err)
    ensures n == if err.None? then |p| else 0
  {
    match w
    case PlainWriter(s) =>
      n, err := s.Write(p);
    case FallbackTo(fw) =>
      n, err := fw.Write(p);
  }

  // ---------------------------------------------------------------------
  // The emission pipeline, as a function
  // ---------------------------------------------------------------------

  /** `HarbourLogger.ShouldLog`, with the receiver's threshold passed in. */
  function ShouldLog(threshold: LogPriority, p: LogPriority): (b: bool)
    // an entry is kept exactly when its priority is at least the threshold
    ensures b <==> threshold <= p
  {
    p >= threshold
  }

  /** A more severe entry, or a lower threshold, never turns a kept entry into a dropped one. */
  lemma ShouldLogMonotone(threshold: LogPriority, lower: LogPriority, p: LogPriority, q: LogPriority)
    requires ShouldLog(threshold, p)
    requires lower <= threshold && p <= q
    ensures ShouldLog(threshold, q) && ShouldLog(lower, p)
  {
  }

  /** What `Log` does with one entry. */
  datatype Plan = Suppress | Reject(error: Error) | MarshalFailed(error: Error) | Write(record: Bytes)

  /** The formatting half of `formatAndWriteEntry`: the JSON encoding with a newline appended. */
  function FormatEntry(marshal: Marshaller, entry: LogEntry): (r: Result<Bytes>)
    ensures r.Ok? <==> marshal(entry).Ok?
    ensures r.Fail? ==> r.error == marshal(entry).error
    ensures r.Ok? ==> |r.value| >= 1 && r.value[|r.value| - 1] == Newline
    ensures r.Ok? ==> r.value[..|r.value| - 1] == marshal(entry).value
  {
    match marshal(entry)
    case Fail(e) => Fail(e)
    case Ok(bytes) => Ok(bytes + [Newline])
  }

  /** `HarbourLogger.Log` on `entry`, for a logger with this threshold and validator. */
  function PlanLog(threshold: LogPriority, validator: Validator, marshal: Marshaller, entry: LogEntry): (plan: Plan)
    // below the threshold: dropped, whatever the validator or the encoder would say
    ensures plan.Suppress? <==> !ShouldLog(threshold, entry.priority)
    // a rejected entry is never written, whatever the writer is
    ensures plan.Reject? <==> ShouldLog(threshold, entry.priority) && validator(entry).Some?
    ensures plan.Reject? ==> plan.error == validator(entry).value
    ensures plan.MarshalFailed? <==> ShouldLog(threshold, entry.priority) && validator(entry).None? && marshal(entry).Fail?
    ensures plan.MarshalFailed? ==> plan.error == marshal(entry).error
    ensures plan.Write? ==> FormatEntry(marshal, entry) == Ok(plan.record)
  {
    if !ShouldLog(threshold, entry.priority) then Suppress
    else if validator(entry).Some? then Reject(validator(entry).value)
    else match FormatEntry(marshal, entry)
      case Fail(err) => MarshalFailed(err)
      case Ok(record) => Write(record)
  }

  // ---------------------------------------------------------------------
  // The logger
  // ---------------------------------------------------------------------

  class HarbourLogger {
    const context: LoggerContext
    const writer: Writer
    const validator: Validator
    var priority: LogPriority

    /** `NewLogger`. */
    constructor NewLogger(context: LoggerContext, validator: Validator, priority: LogPriority, writer: Writer)
      ensures this.context == context && this.validator == validator
      ensures this.priority == priority && this.writer == writer
    {
      this.context := context;
      this.writer := writer;
      this.validator := validator;
      this.priority := priority;
    }

    /** What `Log(entry)` did, in terms of `PlanLog`. */
    twostate predicate Emitted(entry: LogEntry, marshal: Marshaller, new err: Option<Error>)
      reads this, Sinks(writer)
    {
      match PlanLog(priority, validator, marshal, entry)
      case Suppress => err == None && unchanged(Sinks(writer))
      case Reject(e) => err == Some(e) && unchanged(Sinks(writer))
      case MarshalFailed(e) => err == Some(e) && unchanged(Sinks(writer))
      case Write(record) => WriterWrote(writer, record, err)
    }

    method Log(entry: LogEntry, marshal: Marshaller) returns (err: Option<Error>)
      modifies Sinks(writer)
      ensures Emitted(entry, marshal, err)
    {
      if !ShouldLog(priority, entry.priority) {
        return None;
      }
      var invalid := validator(entry);
      if invalid.Some? {
        return invalid;
      }
      err := FormatAndWriteEntry(writer, entry, marshal);
    }

    method LogDataChange(priority: LogPriority, message: string, data: ChangeInfo, now: Time, marshal: Marshaller)
      returns (err: Option<Error>)
      modifies Sinks(writer)
      ensures Emitted(LogEntry(context, LogTypeChange, priority, now, message, ChangeData(data)), marshal, err)
    {
      err := Log(LogEntry(context, LogTypeChange, priority, now, message, ChangeData(data)), marshal);
    }

    method LogActivity(priority: LogPriority, message: string, data: ActivityInfo, now: Time, marshal: Marshaller)
      returns (err: Option<Error>)
      modifies Sinks(writer)
      ensures Emitted(LogEntry(context, LogTypeActivity, priority, now, message, ActivityData(data)), marshal, err)
    {
      err := Log(LogEntry(context, LogTypeActivity, priority, now, message, ActivityData(data)), marshal);
    }

    method LogDebug(priority: LogPriority, message: string, data: DebugInfo, now: Time, marshal: Marshaller)
      returns (err: Option<Error>)
      modifies Sinks(writer)
      ensures Emitted(LogEntry(context, LogTypeDebug, priority, now, message, DebugData(data)), marshal, err)
    {
      err := Log(LogEntry(context, LogTypeDebug, priority, now, message, DebugData(data)), marshal);
    }

    method ChangePriority(newPriority: LogPriority)
      modifies this`priority
      ensures priority == newPriority
    {
      priority := newPriority;
    }
  }

  /** `formatAndWriteEntry`: encode, append a newline, write once; the byte count is dropped. */
  method FormatAndWriteEntry(w: Writer, entry: LogEntry, marshal: Marshaller) returns (err: Option<Error>)
    modifies Sinks(w)
    ensures match FormatEntry(marshal, entry)
      case Fail(e) => err == Some(e) && unchanged(Sinks(w))
      case Ok(record) => WriterWrote(w, record, err)
  {
    var formatted := marshal(entry);
    if formatted.Fail? {
      return Some(formatted.error);
    }
    var record := formatted.value + [Newline];
    var _, writeErr := WriteTo(w, record);
    err := writeErr;
  }

  // ---------------------------------------------------------------------
  // Sequences of calls
  // ---------------------------------------------------------------------

  /** One call a client makes on a `HarbourLogger`. */
  datatype Call =
    | LogCall(logType: LogType, priority: LogPriority, message: string, data: Payload, now: Time)
    | ChangePriorityCall(newPriority: LogPriority)

  /** The entry a `Log*` call builds from the logger's context. */
  function CallEntry(context: LoggerContext, c: Call): LogEntry
    requires c.LogCall?
  {
    LogEntry(context, c.logType, c.priority, c.now, c.message, c.data)
  }

  /** The record one plan hands to the writer, if any. */
  function PlanRecord(plan: Plan): Bytes
  {
    if plan.Write? then plan.record else []
  }

  /**
   * The bytes a logger hands to its writer over `calls`, starting at
   * `threshold`: each log call is planned with the threshold in force when it
   * is made, and `ChangePriority` sets the threshold for the calls after it.
   */
  function Replay(context: LoggerContext, validator: Validator, marshal: Marshaller,
                  threshold: LogPriority, calls: seq<Call>): Bytes
    decreases |calls|
  {
    if calls == [] then []
    else match calls[0]
      case ChangePriorityCall(p) => Replay(context, validator, marshal, p, calls[1..])
      case LogCall(_, _, _, _, _) =>
        PlanRecord(PlanLog(threshold, validator, marshal, CallEntry(context, calls[0])))
          + Replay(context, validator, marshal, threshold, calls[1..])
  }

  /** The log calls of `calls` at or above the threshold in force when each is made, in order. */
  function Admitted(context: LoggerContext, threshold: LogPriority, calls: seq<Call>): seq<LogEntry>
    decreases |calls|
  {
    if calls == [] then []
    else if calls[0].ChangePriorityCall? then Admitted(context, calls[0].newPriority, calls[1..])
    else if calls[0].priority < threshold then Admitted(context, threshold, calls[1..])
    else [CallEntry(context, calls[0])] + Admitted(context, threshold, calls[1..])
  }

  /** The encodings of `entries`, each followed by a newline, one after the other. */
  function Lines(marshal: Marshaller, entries: seq<LogEntry>): Bytes
    requires forall e :: marshal(e).Ok?
  {
    if entries == [] then [] else marshal(entries[0]).value + [Newline] + Lines(marshal, entries[1..])
  }

  /**
   * With a validator that accepts everything and an encoder that never fails,
   * the writer receives exactly one line per log call whose priority is at
   * least the threshold in force at that moment, in call order: a
   * `ChangePriority` affects the calls after it and none before it.
   */
  lemma {:induction false} ReplayWritesAdmitted(context: LoggerContext, validator: Validator, marshal: Marshaller,
                                                threshold: LogPriority, calls: seq<Call>)
    requires forall e :: validator(e).None?
    requires forall e :: marshal(e).Ok?
    ensures Replay(context, validator, marshal, threshold, calls) == Lines(marshal, Admitted(context, threshold, calls))
    decreases |calls|
  {
    if calls != [] {
      match calls[0]
      case ChangePriorityCall(p) =>
        ReplayWritesAdmitted(context, validator, marshal, p, calls[1..]);
      case LogCall(_, _, _, _, _) =>
        ReplayWritesAdmitted(context, validator, marshal, threshold, calls[1..]);
        var e := CallEntry(context, calls[0]);
        var rest := Admitted(context, threshold, calls[1..]);
        if e.priority >= threshold {
          assert Admitted(context, threshold, calls) == [e] + rest;
          assert ([e] + rest)[1..] == rest;
        }
    }
  }

  /**
   * A client driving `l` through `calls`, one `Log` or `ChangePriority` at a
   * time, appends to the writer's sink exactly what `Replay` says, and with
   * an accepting validator and a working encoder one line per admitted call.
   */
  method Run(l: HarbourLogger, s: Sink, marshal: Marshaller, calls: seq<Call>)
    requires l.writer == PlainWriter(s) && s.failure.None?
    modifies s, l`priority
    ensures s.buffer == old(s.buffer) + Replay(l.context, l.validator, marshal, old(l.priority), calls)
    ensures (forall e :: l.validator(e).None?) && (forall e :: marshal(e).Ok?) ==>
      s.buffer == old(s.buffer) + Lines(marshal, Admitted(l.context, old(l.priority), calls))
  {
    var i := 0;
    while i < |calls|
      invariant 0 <= i <= |calls|
      invariant s.failure.None?
      invariant old(s.buffer) + Replay(l.context, l.validator, marshal, old(l.priority), calls)
             == s.buffer + Replay(l.context, l.validator, marshal, l.priority, calls[i..])
    {
      assert calls[i..][1..] == calls[i + 1..];
      match calls[i] {
        case ChangePriorityCall(p) =>
          l.ChangePriority(p);
        case LogCall(_, _, _, _, _) =>
          var _ := l.Log(CallEntry(l.context, calls[i]), marshal);
      }
      i := i + 1;
    }
    assert calls[i..] == [];
    if (forall e :: l.validator(e).None?) && (forall e :: marshal(e).Ok?) {
      ReplayWritesAdmitted(l.context, l.validator, marshal, old(l.priority), calls);
    }
  }
}
