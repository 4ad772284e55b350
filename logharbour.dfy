/**
 * The logger of logharbour/logharbour.go: a context that is copied on every
 * `With*` derivation, a priority threshold changed in place, and the emission
 * pipeline (re-stamp the application name, filter by priority, validate,
 * route an invalid entry to the fallback branch of a fail-over writer,
 * encode and write one newline-terminated record).
 */
module Logharbour {
  import opened Platform
  import opened Types

  const DefaultPriority: LogPriority := Info

  // ---------------------------------------------------------------------
  // Writers, validators, encoders
  // ---------------------------------------------------------------------

  /**
   * The logger's `io.Writer`. The pipeline asks one question of it, whether
   * it is a `*FallbackWriter`, so the two cases are told apart here.
   */
  datatype Writer = PlainWriter(sink: Sink) | FallbackTo(fw: FallbackWriter)

  /** The sinks a write to `w` may change. */
  function Sinks(w: Writer): set<Sink>
  {
    match w
    case PlainWriter(s) => {s}
    case FallbackTo(fw) => {fw.primary, fw.fallback}
  }

  /** What one call of `w.Write(p)` did. */
  twostate predicate WriterWrote(w: Writer, p: Bytes, new err: Option<Error>)
    reads Sinks(w)
  {
    match w
    case PlainWriter(s) => SinkWrote(s, p, err)
    case FallbackTo(fw) => FailoverWrote(fw.primary, fw.fallback, p, err)
  }

  /** `w.Write(p)`, dispatched on the writer's dynamic type. */
  method WriteTo(w: Writer, p: Bytes) returns (n: int, err: Option<Error>)
    modifies Sinks(w)
    ensures WriterWrote(w, p, err)
    ensures n == if err.None? then |p| else 0
  {
    match w
    case PlainWriter(s) =>
      n, err := s.Write(p);
    case FallbackTo(fw) =>
      n, err := fw.Write(p);
  }

  /** `validator.Struct` on an entry: `None` accepts it, `Some(e)` rejects it with `e`. */
  type Validator = LogEntry -> Option<Error>

  /** `json.Marshal` on an entry. */
  type Marshaller = LogEntry -> Result<Bytes>

  // ---------------------------------------------------------------------
  // Context and entries
  // ---------------------------------------------------------------------

  /** The ambient fields of a `Logger`; `priority` is its threshold. */
  datatype LoggerContext = LoggerContext(
    appName: string,
    system: string,
    moduleName: string,
    priority: LogPriority,
    who: string,
    op: string,
    whatClass: string,
    whatInstanceId: string,
    status: Status,
    remoteIP: string)

  /** The ambient fields an entry carries. */
  function ContextOf(e: LogEntry): LoggerContext
  {
    LoggerContext(e.appName, e.system, e.moduleName, e.priority, e.who, e.op,
                  e.whatClass, e.whatInstanceId, e.status, e.remoteIP)
  }

  /** `Logger.newLogEntry`, with `time.Now().UTC()` given as `now`. */
  function NewLogEntry(ctx: LoggerContext, message: string, data: Payload, now: Time): (e: LogEntry)
    // every context field is carried over, and the entry's priority is the threshold
    ensures ContextOf(e) == ctx
    ensures e.message == message && e.data == data && e.when == now
    // the type is left at Go's zero value, which has no name
    ensures e.logType as int == 0 && LogTypeString(e.logType) == UnknownStr
  {
    LogEntry(ctx.appName, ctx.system, ctx.moduleName, 0, ctx.priority, now, ctx.who, ctx.op,
             ctx.whatClass, ctx.whatInstanceId, ctx.status, ctx.remoteIP, message, data)
  }

  /** What `runtime.Caller` yields for `GetDebugInfo(2)`; zero values when it cannot resolve the caller. */
  datatype CallerInfo = CallerInfo(fileName: string, lineNumber: int, functionName: string, stackTrace: string)

  /** The six fields `LogDebug` fills in before building the entry. */
  function FillDebugInfo(data: DebugInfo, caller: CallerInfo, pid: int, runtimeVersion: string): (d: DebugInfo)
    // the location comes from the caller lookup, then the process id and the Go version
    ensures d.fileName == caller.fileName && d.lineNumber == caller.lineNumber
    ensures d.functionName == caller.functionName && d.stackTrace == caller.stackTrace
    ensures d.pid == pid && d.runtime == runtimeVersion
    // the caller's own variables are kept
    ensures d.variables == data.variables
  {
    data.(fileName := caller.fileName, lineNumber := caller.lineNumber,
          functionName := caller.functionName, stackTrace := caller.stackTrace,
          pid := pid, runtime := runtimeVersion)
  }

  // ---------------------------------------------------------------------
  // The emission pipeline, as a function
  // ---------------------------------------------------------------------

  /** `Logger.shouldLog`, with the receiver's threshold passed in. */
  function ShouldLog(threshold: LogPriority, p: LogPriority): (b: bool)
    // an entry is kept exactly when its priority is at least the threshold
    ensures b <==> threshold <= p
  {
    p >= threshold
  }

  /** A more severe entry, or a lower threshold, never turns a kept entry into a dropped one. */
  lemma ShouldLogMonotone(threshold: LogPriority, lower: LogPriority, p: LogPriority, q: LogPriority)
    requires ShouldLog(threshold, p)
    requires lower <= threshold && p <= q
    ensures ShouldLog(threshold, q) && ShouldLog(lower, p)
  {
  }

  /** Where a record that is written goes. */
  datatype Route = ToWriter | ToFallbackBranch

  /** What `log` does with one entry. */
  datatype Plan =
    | Suppress
    | Reject(error: Error)
    | MarshalFailed(error: Error)
    | Write(route: Route, record: Bytes)

  /** The formatting half of `formatAndWriteEntry`: the JSON encoding with a newline appended. */
  function FormatEntry(marshal: Marshaller, entry: LogEntry): (r: Result<Bytes>)
    ensures r.Ok? <==> marshal(entry).Ok?
    ensures r.Fail? ==> r.error == marshal(entry).error
    ensures r.Ok? ==> |r.value| >= 1 && r.value[|r.value| - 1] == Newline
    ensures r.Ok? ==> r.value[..|r.value| - 1] == marshal(entry).value
  {
    match marshal(entry)
    case Fail(e) => Fail(e)
    case Ok(bytes) => Ok(bytes + [Newline])
  }

  /** `Logger.log` on `entry`, for a logger with this threshold, name, validator and kind of writer. */
  function PlanLog(threshold: LogPriority, appName: string, validator: Validator, isFallback: bool,
                   marshal: Marshaller, entry: LogEntry): (plan: Plan)
    // the entry is judged, and encoded, with the logger's application name
    ensures var e := entry.(appName := appName);
      // below the threshold: dropped, whatever the validator or the encoder would say
      && (plan.Suppress? <==> e.priority < threshold)
      // rejected by the validator: the error is returned unless the writer can fall back
      && (plan.Reject? <==> !plan.Suppress? && validator(e).Some? && !isFallback)
      && (plan.Reject? ==> plan.error == validator(e).value)
      // otherwise the entry is encoded, and an encoding error is returned as it is
      && (plan.MarshalFailed? <==> !plan.Suppress? && !plan.Reject? && marshal(e).Fail?)
      && (plan.MarshalFailed? ==> plan.error == marshal(e).error)
      // and the record written is the encoding followed by one newline
      && (plan.Write? ==> FormatEntry(marshal, e) == Ok(plan.record))
      // an invalid entry goes to the fallback branch, a valid one to the writer itself
      && (plan.Write? ==> (plan.route == ToFallbackBranch <==> validator(e).Some?))
  {
    var e := entry.(appName := appName);
    if !ShouldLog(threshold, e.priority) then Suppress
    else if validator(e).Some? && !isFallback then Reject(validator(e).value)
    else match FormatEntry(marshal, e)
      case Fail(err) => MarshalFailed(err)
      case Ok(record) => Write(if validator(e).Some? then ToFallbackBranch else ToWriter, record)
  }

  /** An entry below the threshold is dropped before the validator and the encoder are consulted. */
  lemma SuppressionIgnoresValidator(threshold: LogPriority, appName: string, v1: Validator, v2: Validator,
                                    isFallback1: bool, isFallback2: bool, m1: Marshaller, m2: Marshaller,
                                    entry: LogEntry)
    requires entry.priority < threshold
    ensures PlanLog(threshold, appName, v1, isFallback1, m1, entry) == Suppress
    ensures PlanLog(threshold, appName, v1, isFallback1, m1, entry) == PlanLog(threshold, appName, v2, isFallback2, m2, entry)
  {
  }

  /**
   * The entries built by `LogDataChange`, `LogActivity` and `LogDebug` carry the
   * logger's own threshold as their priority, so the filter never drops them.
   */
  lemma LogCallsPassFilter(ctx: LoggerContext, validator: Validator, isFallback: bool, marshal: Marshaller,
                           logType: LogType, message: string, data: Payload, now: Time)
    ensures PlanLog(ctx.priority, ctx.appName, validator, isFallback, marshal,
                    NewLogEntry(ctx, message, data, now).(logType := logType)) != Suppress
  {
  }

  // ---------------------------------------------------------------------
  // The logger
  // ---------------------------------------------------------------------

  class Logger {
    var appName: string
    var system: string
    var moduleName: string
    var priority: LogPriority
    var who: string
    var op: string
    var whatClass: string
    var whatInstanceId: string
    var status: Status
    var remoteIP: string
    const writer: Writer
    const validator: Validator

    function Ctx(): LoggerContext
      reads this
    {
      LoggerContext(appName, system, moduleName, priority, who, op, whatClass, whatInstanceId, status, remoteIP)
    }

    /** The `&Logger{...}` literal. */
    constructor (ctx: LoggerContext, writer: Writer, validator: Validator)
      ensures Ctx() == ctx && this.writer == writer && this.validator == validator
    {
      appName, system, moduleName, priority := ctx.appName, ctx.system, ctx.moduleName, ctx.priority;
      who, op, whatClass, whatInstanceId := ctx.who, ctx.op, ctx.whatClass, ctx.whatInstanceId;
      status, remoteIP := ctx.status, ctx.remoteIP;
      this.writer, this.validator := writer, validator;
    }

    /** `clone`: a new logger with the same context, sharing the writer and the validator. */
    method Clone() returns (c: Logger)
      ensures fresh(c) && c.Ctx() == Ctx() && c.writer == writer && c.validator == validator
    {
      c := new Logger(Ctx(), writer, validator);
    }

    method WithWho(who: string) returns (r: Logger)
      ensures fresh(r) && r.Ctx() == Ctx().(who := who) && r.writer == writer && r.validator == validator
    {
      r := Clone();
      r.who := who;
    }

    method WithModule(moduleName: string) returns (r: Logger)
      ensures fresh(r) && r.Ctx() == Ctx().(moduleName := moduleName) && r.writer == writer && r.validator == validator
    {
      r := Clone();
      r.moduleName := moduleName;
    }

    method WithOp(op: string) returns (r: Logger)
      ensures fresh(r) && r.Ctx() == Ctx().(op := op) && r.writer == writer && r.validator == validator
    {
      r := Clone();
      r.op := op;
    }

    method WithWhatClass(whatClass: string) returns (r: Logger)
      ensures fresh(r) && r.Ctx() == Ctx().(whatClass := whatClass) && r.writer == writer && r.validator == validator
    {
      r := Clone();
      r.whatClass := whatClass;
    }

    method WithWhatInstanceId(whatInstanceId: string) returns (r: Logger)
      ensures fresh(r) && r.Ctx() == Ctx().(whatInstanceId := whatInstanceId)
      ensures r.writer == writer && r.validator == validator
    {
      r := Clone();
      r.whatInstanceId := whatInstanceId;
    }

    method WithStatus(status: Status) returns (r: Logger)
      ensures fresh(r) && r.Ctx() == Ctx().(status := status) && r.writer == writer && r.validator == validator
    {
      r := Clone();
      r.status := status;
    }

    method WithPriority(priority: LogPriority) returns (r: Logger)
      ensures fresh(r) && r.Ctx() == Ctx().(priority := priority) && r.writer == writer && r.validator == validator
    {
      r := Clone();
      r.priority := priority;
    }

    method WithRemoteIP(remoteIP: string) returns (r: Logger)
      ensures fresh(r) && r.Ctx() == Ctx().(remoteIP := remoteIP) && r.writer == writer && r.validator == validator
    {
      r := Clone();
      r.remoteIP := remoteIP;
    }

    /** `ChangePriority`: the one field changed in place; loggers cloned earlier keep their own copy. */
    method ChangePriority(newPriority: LogPriority)
      modifies this`priority
      ensures priority == newPriority
      ensures Ctx() == old(Ctx()).(priority := newPriority)
    {
      priority := newPriority;
    }

    /** What `log(entry)` did, in terms of `PlanLog`. */
    twostate predicate Emitted(entry: LogEntry, marshal: Marshaller, new err: Option<Error>)
      reads this, Sinks(writer)
    {
      match PlanLog(priority, appName, validator, writer.FallbackTo?, marshal, entry)
      case Suppress => err == None && unchanged(Sinks(writer))
      case Reject(e) => err == Some(e) && unchanged(Sinks(writer))
      case MarshalFailed(e) => err == Some(e) && unchanged(Sinks(writer))
      case Write(ToWriter, record) => WriterWrote(writer, record, err)
      case Write(ToFallbackBranch, record) =>
        // only the fallback sink is written; the primary never sees an invalid entry
        && writer.FallbackTo?
        && SinkWrote(writer.fw.fallback, record, err)
        && (writer.fw.primary != writer.fw.fallback ==> SinkUntouched(writer.fw.primary))
    }

    /** `log`; the mutex is not modelled. */
    method Log(entry: LogEntry, marshal: Marshaller) returns (err: Option<Error>)
      modifies Sinks(writer)
      ensures Emitted(entry, marshal, err)
    {
      var e := entry.(appName := appName);
      if !ShouldLog(priority, e.priority) {
        return None;
      }
      var invalid := validator(e);
      if invalid.Some? {
        if writer.FallbackTo? {
          err := FormatAndWriteEntry(PlainWriter(writer.fw.fallback), e, marshal);
          return;
        }
        return invalid;
      }
      err := FormatAndWriteEntry(writer, e, marshal);
    }

    method LogDataChange(message: string, data: ChangeInfo, now: Time, marshal: Marshaller) returns (err: Option<Error>)
      modifies Sinks(writer)
      ensures Emitted(NewLogEntry(Ctx(), message, ChangeData(data), now).(logType := LogTypeChange), marshal, err)
    {
      var entry := NewLogEntry(Ctx(), message, ChangeData(data), now);
      entry := entry.(logType := LogTypeChange);
      err := Log(entry, marshal);
    }

    method LogActivity(message: string, data: ActivityInfo, now: Time, marshal: Marshaller) returns (err: Option<Error>)
      modifies Sinks(writer)
      ensures Emitted(NewLogEntry(Ctx(), message, ActivityData(data), now).(logType := LogTypeActivity), marshal, err)
    {
      var entry := NewLogEntry(Ctx(), message, ActivityData(data), now);
      entry := entry.(logType := LogTypeActivity);
      err := Log(entry, marshal);
    }

    /** `LogDebug`; the caller's location, the process id and the Go version are inputs. */
    method LogDebug(message: string, data: DebugInfo, caller: CallerInfo, pid: int, runtimeVersion: string,
                    now: Time, marshal: Marshaller) returns (err: Option<Error>)
      modifies Sinks(writer)
      ensures Emitted(NewLogEntry(Ctx(), message, DebugData(FillDebugInfo(data, caller, pid, runtimeVersion)), now)
                        .(logType := LogTypeDebug), marshal, err)
    {
      var filled := FillDebugInfo(data, caller, pid, runtimeVersion);
      var entry := NewLogEntry(Ctx(), message, DebugData(filled), now);
      entry := entry.(logType := LogTypeDebug);
      err := Log(entry, marshal);
    }
  }

  /** `formatAndWriteEntry`: encode, append a newline, write once; the byte count is dropped. */
  method FormatAndWriteEntry(w: Writer, entry: LogEntry, marshal: Marshaller) returns (err: Option<Error>)
    modifies Sinks(w)
    ensures match FormatEntry(marshal, entry)
      case Fail(e) => err == Some(e) && unchanged(Sinks(w))
      case Ok(record) => WriterWrote(w, record, err)
  {
    var formatted := marshal(entry);
    if formatted.Fail? {
      return Some(formatted.error);
    }
    var record := formatted.value + [Newline];
    var _, writeErr := WriteTo(w, record);
    err := writeErr;
  }

  /** `NewLogger`, with the host name and `validator.New()` as inputs. */
  method NewLogger(appName: string, system: string, writer: Writer, validator: Validator) returns (l: Logger)
    ensures fresh(l)
    ensures l.Ctx() == LoggerContext(appName, system, "", DefaultPriority, "", "", "", "", Success, "")
    ensures l.writer == writer && l.validator == validator
  {
    l := new Logger(LoggerContext(appName, system, "", DefaultPriority, "", "", "", "", Success, ""), writer, validator);
  }

  /** `NewLoggerWithFallback`, with the host name and `validator.New()` as inputs. */
  method NewLoggerWithFallback(appName: string, system: string, fallbackWriter: FallbackWriter, validator: Validator)
    returns (l: Logger)
    ensures fresh(l)
    ensures l.Ctx() == LoggerContext(appName, system, "", DefaultPriority, "", "", "", "", Success, "")
    ensures l.writer == FallbackTo(fallbackWriter) && l.validator == validator
  {
    l := new Logger(LoggerContext(appName, system, "", DefaultPriority, "", "", "", "", Success, ""),
                    FallbackTo(fallbackWriter), validator);
  }
}

/**
 * Client scenarios: what a caller can conclude from the contracts above alone.
 */
module LogharbourScenarios {
  import opened Platform
  import opened Types
  import opened Logharbour

  /** A primary that always fails and a working fallback: the write succeeds and only the fallback holds the bytes. */
  method FallbackWriterScenario(message: Bytes)
  {
    var primary := new Sink(Some(Error("primary writer failed")));
    var fallback := new Sink(None);
    var fw := new FallbackWriter.NewFallbackWriter(primary, fallback);
    var n, err := fw.Write(message);
    assert err == None && n == |message|;
    assert fallback.buffer == message && primary.buffer == [];
  }

  /** Deriving a logger leaves its parent's context as it was. */
  method WithWhoScenario(appName: string, system: string, output: Sink, validator: Validator)
  {
    var l1 := NewLogger(appName, system, PlainWriter(output), validator);
    var l2 := l1.WithWho("alice");
    assert l2.who == "alice" && l1.who == "";
    l2.ChangePriority(Sec);
    assert l1.priority == Info && l2.priority == Sec;
  }

  /**
   * A logger at Debug1 logs a debug message, is lowered to Debug2 and logs
   * another: both records reach the output, in that order, and an entry
   * rejected by the validator lands on the fallback sink only.
   */
  method PriorityChangeScenario(marshal: Marshaller, caller: CallerInfo, pid: int, version: string, t1: Time, t2: Time)
    requires forall e :: marshal(e).Ok?
  {
    var output := new Sink(None);
    var fw := new FallbackWriter.NewFallbackWriter(output, output);
    var root := NewLoggerWithFallback("TestApp", "host", fw, e => None);
    var logger := root.WithPriority(Debug1);
    var none := DebugInfo(0, "", "", 0, "", "", map[]);
    var debug := DebugData(FillDebugInfo(none, caller, pid, version));
    ghost var e1 := NewLogEntry(logger.Ctx(), "Debug1 message", debug, t1).(logType := LogTypeDebug, appName := "TestApp");
    var err1 := logger.LogDebug("Debug1 message", none, caller, pid, version, t1, marshal);
    assert err1 == None && output.buffer == FormatEntry(marshal, e1).value;
    logger.ChangePriority(Debug2);
    ghost var e2 := NewLogEntry(logger.Ctx(), "Debug2 message", debug, t2).(logType := LogTypeDebug, appName := "TestApp");
    var err2 := logger.LogDebug("Debug2 message", none, caller, pid, version, t2, marshal);
    assert err2 == None;
    assert output.buffer == FormatEntry(marshal, e1).value + FormatEntry(marshal, e2).value;
  }

  /** An entry the validator rejects never reaches the primary sink of a fail-over writer. */
  method InvalidEntryScenario(marshal: Marshaller, entry: LogEntry)
    requires forall e :: marshal(e).Ok?
    requires entry.priority >= Info
  {
    var primary := new Sink(None);
    var fallback := new Sink(None);
    var fw := new FallbackWriter.NewFallbackWriter(primary, fallback);
    var logger := NewLoggerWithFallback("app", "host", fw, e => Some(Error("invalid")));
    var err := logger.Log(entry, marshal);
    assert err == None;
    assert primary.buffer == [] && |fallback.buffer| > 0;
  }
}
