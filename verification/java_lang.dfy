/**
  The few pieces of the Java runtime the session-lifecycle core leans on:
  optional values (Java's `null`), exceptions with their cause chain,
  results of calls that may throw, and 32/64-bit integer ranges.
 */
module JavaLang {

  /** A reference that may be `null`. */
  datatype Option<+T> = None | Some(value: T)

  /** The exception classes the core throws, catches or wraps. */
  datatype Kind =
    | RuntimeException
    | IllegalArgumentException
    | NumberFormatException
    | NullPointerException
    | InvalidPathException
    | InterruptedException
      /** Thrown by code outside the model (Appium, Selenium, the OS); only its name is kept. */
    | External(name: string)

  /**
    A thrown exception: its class, its `getMessage()` text and its `getCause()`.
    Messages are modelled exactly for the exceptions the core constructs; for
    library exceptions the text is whatever the thrower chose.
   */
  datatype Exc = Exc(kind: Kind, message: string, cause: Option<Exc>)

  /** The outcome of a Java call that either returns a value or throws. */
  datatype Result<+T> = Ok(value: T) | Throw(exc: Exc)

  /** `new RuntimeException(message, cause)`; `cause == None` is the one-argument constructor. */
  function Runtime(message: string, cause: Option<Exc>): Exc {
    Exc(RuntimeException, message, cause)
  }

  /** A `NullPointerException` from dereferencing a missing value; its text is not modelled. */
  const NullPointer: Exc := Exc(NullPointerException, "", None)

  /** The exception itself followed by its causes, outermost first. */
  function CauseChain(e: Exc): (r: seq<Exc>)
    ensures |r| >= 1 && r[0] == e
    ensures e.cause.None? <==> |r| == 1
    ensures e.cause.Some? ==> r[1..] == CauseChain(e.cause.value)
    decreases e
  {
    match e.cause
    case None => [e]
    case Some(c) => [e] + CauseChain(c)
  }

  /** Java `int` range. */
  const MinInt: int := -0x8000_0000
  const MaxInt: int := 0x7fff_ffff
  type Int32 = x: int | -0x8000_0000 <= x <= 0x7fff_ffff

  /** Java `long` range. */
  const MinLong: int := -0x8000_0000_0000_0000
  const MaxLong: int := 0x7fff_ffff_ffff_ffff
  type Int64 = x: int | -0x8000_0000_0000_0000 <= x <= 0x7fff_ffff_ffff_ffff

  /** Java's `a + b` on two `int`s: two's-complement wrap-around. */
  function AddInt32(a: Int32, b: Int32): (r: Int32)
    ensures MinInt <= a + b <= MaxInt ==> r == a + b
    ensures a + b > MaxInt ==> r == a + b - 0x1_0000_0000
    ensures a + b < MinInt ==> r == a + b + 0x1_0000_0000
  {
    if a + b > MaxInt then a + b - 0x1_0000_0000
    else if a + b < MinInt then a + b + 0x1_0000_0000
    else a + b
  }
}
