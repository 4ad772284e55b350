/**
 * The value types of the logger (logharbour/types.go): the priority and
 * type enumerations with their canonical names and JSON encodings, the
 * binary status, the log entry and its payloads, and the fail-over writer.
 */
module Types {
  import opened Platform

  // ---------------------------------------------------------------------
  // Priorities
  // ---------------------------------------------------------------------

  /** A Go `int`; every integer is a priority, only eight of them have names. */
  newtype LogPriority = int

  const Debug2: LogPriority := 1
  const Debug1: LogPriority := 2
  const Debug0: LogPriority := 3
  const Info: LogPriority := 4
  const Warn: LogPriority := 5
  const Err: LogPriority := 6
  const Crit: LogPriority := 7
  const Sec: LogPriority := 8

  /** The named priorities from most verbose to most severe. */
  const PriorityLevels: seq<LogPriority> := [Debug2, Debug1, Debug0, Info, Warn, Err, Crit, Sec]

  const Debug2Str: string := "Debug2"
  const Debug1Str: string := "Debug1"
  const Debug0Str: string := "Debug0"
  const InfoStr: string := "Info"
  const WarnStr: string := "Warn"
  const ErrStr: string := "Err"
  const CritStr: string := "Crit"
  const SecStr: string := "Sec"
  const UnknownStr: string := "Unknown"

  /** The names of `PriorityLevels`, position by position. */
  const PriorityNames: seq<string> := [Debug2Str, Debug1Str, Debug0Str, InfoStr, WarnStr, ErrStr, CritStr, SecStr]

  predicate IsNamedPriority(lp: LogPriority) { Debug2 <= lp <= Sec }

  /** The named priorities are ranked 1 to 8 without gaps, in increasing order. */
  lemma PriorityRanksConsecutive()
    ensures |PriorityLevels| == 8
    ensures forall i :: 0 <= i < |PriorityLevels| ==> PriorityLevels[i] as int == i + 1
    ensures forall i, j :: 0 <= i < j < |PriorityLevels| ==> PriorityLevels[i] < PriorityLevels[j]
    ensures forall lp :: IsNamedPriority(lp) <==> lp in PriorityLevels
  {
  }

  /** Reads a canonical priority name back; used to state that the names identify their priorities. */
  function ParsePriority(s: string): Option<LogPriority>
  {
    if s == Debug2Str then Some(Debug2)
    else if s == Debug1Str then Some(Debug1)
    else if s == Debug0Str then Some(Debug0)
    else if s == InfoStr then Some(Info)
    else if s == WarnStr then Some(Warn)
    else if s == ErrStr then Some(Err)
    else if s == CritStr then Some(Crit)
    else if s == SecStr then Some(Sec)
    else None
  }

  /** `LogPriority.string()`. */
  function PriorityString(lp: LogPriority): (s: string)
    // a named priority gets the name standing at its rank, every other integer "Unknown"
    ensures IsNamedPriority(lp) ==> s == PriorityNames[lp - 1]
    ensures s == UnknownStr <==> !IsNamedPriority(lp)
    // the name is enough to recover the priority
    ensures ParsePriority(s) == if IsNamedPriority(lp) then Some(lp) else None
    ensures IsAlphanumeric(s)
  {
    if lp == Debug2 then Debug2Str
    else if lp == Debug1 then Debug1Str
    else if lp == Debug0 then Debug0Str
    else if lp == Info then InfoStr
    else if lp == Warn then WarnStr
    else if lp == Err then ErrStr
    else if lp == Crit then CritStr
    else if lp == Sec then SecStr
    else UnknownStr
  }

  /** Distinct named priorities have distinct names. */
  lemma PriorityStringInjective(a: LogPriority, b: LogPriority)
    requires IsNamedPriority(a) && IsNamedPriority(b)
    requires PriorityString(a) == PriorityString(b)
    ensures a == b
  {
    assert ParsePriority(PriorityString(a)) == Some(a);
    assert ParsePriority(PriorityString(b)) == Some(b);
  }

  /** `LogPriority.MarshalJSON`: the name as a JSON string, never the rank as a JSON number. */
  function PriorityMarshalJSON(lp: LogPriority): (r: Result<Bytes>)
    ensures r.Ok?
    ensures Unquote(r.value) == Some(AsciiBytes(PriorityString(lp)))
    ensures r.value != JsonNumber(lp as int)
  {
    Ok(JsonString(PriorityString(lp)))
  }

  // ---------------------------------------------------------------------
  // Log types
  // ---------------------------------------------------------------------

  newtype LogType = int

  const LogTypeChange: LogType := 1
  const LogTypeActivity: LogType := 2
  const LogTypeDebug: LogType := 3

  const LogTypeChangeStr: string := "Change"
  const LogTypeActivityStr: string := "Activity"
  const LogTypeDebugStr: string := "Debug"
  const LogTypeUnknownStr: string := "Unknown"

  predicate IsNamedLogType(lt: LogType) { LogTypeChange <= lt <= LogTypeDebug }

  /** Reads a canonical type name back. */
  function ParseLogType(s: string): Option<LogType>
  {
    if s == LogTypeChangeStr then Some(LogTypeChange)
    else if s == LogTypeActivityStr then Some(LogTypeActivity)
    else if s == LogTypeDebugStr then Some(LogTypeDebug)
    else None
  }

  /** `LogType.string()`. */
  function LogTypeString(lt: LogType): (s: string)
    ensures lt == LogTypeChange ==> s == "Change"
    ensures lt == LogTypeActivity ==> s == "Activity"
    ensures lt == LogTypeDebug ==> s == "Debug"
    ensures s == "Unknown" <==> !IsNamedLogType(lt)
    ensures ParseLogType(s) == if IsNamedLogType(lt) then Some(lt) else None
    ensures IsAlphanumeric(s)
  {
    if lt == LogTypeChange then LogTypeChangeStr
    else if lt == LogTypeActivity then LogTypeActivityStr
    else if lt == LogTypeDebug then LogTypeDebugStr
    else LogTypeUnknownStr
  }

  /** `LogType.MarshalJSON`: the name as a JSON string, never the number. */
  function LogTypeMarshalJSON(lt: LogType): (r: Result<Bytes>)
    ensures r.Ok?
    ensures Unquote(r.value) == Some(AsciiBytes(LogTypeString(lt)))
    ensures r.value != JsonNumber(lt as int)
  {
    Ok(JsonString(LogTypeString(lt)))
  }

  // ---------------------------------------------------------------------
  // Status, entries and payloads
  // ---------------------------------------------------------------------

  /** A Go `int` with two named values. */
  newtype Status = int

  const Success: Status := 0
  const Failure: Status := 1

  /** `ChangeInfo`: which entity an operation changed, and the new field values. */
  datatype ChangeInfo = ChangeInfo(entity: string, operation: string, changes: map<string, Value>)

  /** `ActivityInfo` is `any`: the caller's own value. */
  type ActivityInfo = Value

  /** `DebugInfo`: the first six fields are filled in by the logger, `variables` by the caller. */
  datatype DebugInfo = DebugInfo(
    pid: int,
    runtime: string,
    fileName: string,
    lineNumber: int,
    functionName: string,
    stackTrace: string,
    variables: map<string, Value>)

  /** The `Data any` field of an entry; the logger only ever puts one of these three kinds in it. */
  datatype Payload =
    | ChangeData(change: ChangeInfo)
    | ActivityData(activity: ActivityInfo)
    | DebugData(debug: DebugInfo)

  /** `LogEntry`. */
  datatype LogEntry = LogEntry(
    appName: string,
    system: string,
    moduleName: string,
    logType: LogType,
    priority: LogPriority,
    when: Time,
    who: string,
    op: string,
    whatClass: string,
    whatInstanceId: string,
    status: Status,
    remoteIP: string,
    message: string,
    data: Payload)

  // ---------------------------------------------------------------------
  // FallbackWriter
  // ---------------------------------------------------------------------

  /** A byte sink that writes to `primary` and, when that fails, to `fallback`. */
  class FallbackWriter {
    const primary: Sink
    const fallback: Sink

    /** `NewFallbackWriter`. */
    constructor NewFallbackWriter(primary: Sink, fallback: Sink)
      ensures this.primary == primary && this.fallback == fallback
    {
      this.primary := primary;
      this.fallback := fallback;
    }

    /** `FallbackWriter.Write`; the mutex only serialises callers and is not modelled. */
    method Write(p: Bytes) returns (n: int, err: Option<Error>)
      modifies primary, fallback
      ensures FailoverWrote(primary, fallback, p, err)
      ensures n == if err.None? then |p| else 0
      // an error is reported only when both sinks refused, and it is the fallback's
      ensures err.Some? ==> old(primary.failure).Some? && err == old(fallback.failure)
    {
      n, err := primary.Write(p);
      if err.Some? {
        n, err := fallback.Write(p);
      }
    }
  }
}
