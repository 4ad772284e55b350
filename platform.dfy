/**
 * Stand-ins for the pieces of Go's standard library that the logger touches:
 * byte slices, `error` values, `time.Time`, `any`-typed caller values, an
 * `io.Writer` byte sink, and the two JSON encodings that matter for the
 * enumerations (a JSON string and a JSON integer).
 */
module Platform {

  newtype byte = x: int | 0 <= x < 256
  type Bytes = seq<byte>

  datatype Option<+T> = None | Some(value: T)

  /** A Go `error`: only its text is observable. */
  datatype Error = Error(message: string)

  /** The `(value, error)` pair several Go calls return. */
  datatype Result<+T> = Ok(value: T) | Fail(error: Error)

  /** A `time.Time`, as nanoseconds since the Unix epoch; the clock is an input of the model. */
  datatype Time = Time(unixNanos: int)

  /** A caller value held in an `any`-typed field; the logger never looks inside it. */
  datatype Value = Value(id: nat)

  const Newline: byte := 10
  const QuoteByte: byte := 34
  const MinusByte: byte := 45
  const ZeroByte: byte := 48

  // ---------------------------------------------------------------------
  // Byte sinks (io.Writer)
  // ---------------------------------------------------------------------

  /**
   * An append-only byte sink. It either accepts every write in full or
   * rejects every write with the same error and keeps its buffer as it was
   * (as an in-memory buffer and a writer that is set to fail do).
   */
  class Sink {
    var buffer: Bytes
    var failure: Option<Error>

    constructor (failure: Option<Error>)
      ensures buffer == [] && this.failure == failure
    {
      buffer := [];
      this.failure := failure;
    }

    method Write(p: Bytes) returns (n: int, err: Option<Error>)
      modifies this
      ensures SinkWrote(this, p, err)
      ensures n == if err.None? then |p| else 0
    {
      if failure.None? {
        buffer := buffer + p;
        n, err := |p|, None;
      } else {
        n, err := 0, failure;
      }
    }
  }

  /** What one write of `p` to `s` did: `p` was appended exactly when `s` accepts writes, and `err` is `s`'s verdict. */
  twostate predicate SinkWrote(s: Sink, p: Bytes, new err: Option<Error>)
    reads s
  {
    && s.failure == old(s.failure)
    && err == old(s.failure)
    && s.buffer == old(s.buffer) + (if err.None? then p else [])
  }

  /**
   * What one fail-over write of `p` did: the primary is tried first; only
   * when it rejects is the same `p` tried on the fallback, and then the
   * fallback's verdict is the one reported (the primary's error is dropped).
   * The two sinks may be one and the same object.
   */
  twostate predicate FailoverWrote(primary: Sink, fallback: Sink, p: Bytes, new err: Option<Error>)
    reads primary, fallback
  {
    if old(primary.failure).None? then
      SinkWrote(primary, p, err) && (fallback != primary ==> SinkUntouched(fallback))
    else
      SinkUntouched(primary) && SinkWrote(fallback, p, err)
  }

  /** `s` holds what it held before. */
  twostate predicate SinkUntouched(s: Sink)
    reads s
  {
    s.buffer == old(s.buffer) && s.failure == old(s.failure)
  }

  // ---------------------------------------------------------------------
  // JSON encodings (encoding/json) of a name and of an integer
  // ---------------------------------------------------------------------

  predicate IsDigitByte(b: byte) { ZeroByte <= b < ZeroByte + 10 }

  /** Letters and digits only: a string that `json.Marshal` emits without any escape. */
  predicate IsAlphanumeric(s: string)
  {
    forall i :: 0 <= i < |s| ==> ('a' <= s[i] <= 'z' || 'A' <= s[i] <= 'Z' || '0' <= s[i] <= '9')
  }

  function AsciiBytes(s: string): (b: Bytes)
    requires IsAlphanumeric(s)
    ensures |b| == |s|
    ensures forall i :: 0 <= i < |s| ==> b[i] as int == s[i] as int
  {
    seq(|s|, i requires 0 <= i < |s| => s[i] as int as byte)
  }

  /** `json.Marshal` of a string that needs no escaping: the text between two quotes. */
  function JsonString(s: string): (r: Bytes)
    requires IsAlphanumeric(s)
    ensures |r| == |s| + 2 && r[0] == QuoteByte
    ensures Unquote(r) == Some(AsciiBytes(s))
  {
    [QuoteByte] + AsciiBytes(s) + [QuoteByte]
  }

  /** The inside of a JSON string token, if `b` is one delimited by quotes. */
  function Unquote(b: Bytes): Option<Bytes>
  {
    if 2 <= |b| && b[0] == QuoteByte && b[|b| - 1] == QuoteByte then Some(b[1..|b| - 1]) else None
  }

  /**
   * Decimal digits of `n`, most significant first, without leading zeros.
   * `JsonNumber` needs only that every byte is a digit; the last clause
   * records the no-leading-zero form Go's encoder emits.
   */
  function Digits(n: nat): (r: Bytes)
    ensures 1 <= |r|
    ensures forall i :: 0 <= i < |r| ==> IsDigitByte(r[i])
    ensures r[0] == ZeroByte ==> n == 0
  {
    if n < 10 then [ZeroByte + n as byte]
    else Digits(n / 10) + [ZeroByte + (n % 10) as byte]
  }

  /** `json.Marshal` of an integer: an optional minus sign and its decimal digits, never a quote. */
  function JsonNumber(i: int): (r: Bytes)
    ensures 1 <= |r|
    ensures r[0] == MinusByte || IsDigitByte(r[0])
    ensures r[0] != QuoteByte
  {
    if i < 0 then [MinusByte] + Digits(-i) else Digits(i)
  }
}
