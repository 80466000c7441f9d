/** The rule applied to `Quantity.content` before it is stored
    (`Quantity.ensure_float_conversion`). A raw value is absent, a float, a
    string or something else; the rule either normalises it to an optional
    non-infinite float or rejects it with an overflow, conversion or type error.
    Overflow and conversion errors are logged once, at error level, before they
    are raised; a type error is raised without logging. The logging sink is
    modelled as the sequence of lines the call writes to it. */
module Coercion {
  import opened Wrappers
  import opened Floats
  import FloatText

  /** What a caller may pass as `content`. `Other` is any value that is neither
      `None`, a `float` nor a `str` (an `int`, a `list`, ...), named by its
      Python type name. */
  datatype Raw = Absent | Num(f: FloatVal) | Text(s: string) | Other(typeName: string)

  /** The Python exception classes the rule raises */
  datatype ErrorKind = OverflowError | ValueError | TypeError

  datatype Error = Error(kind: ErrorKind, message: string)

  /** A result together with the error-log lines emitted while computing it */
  datatype Logged<T> = Logged(value: T, log: seq<string>)

  type Outcome = Logged<Result<Option<FloatVal>, Error>>

  /** Content a Quantity may hold once constructed: absent, finite or NaN */
  predicate Storable(c: Option<FloatVal>) {
    c.None? || !c.value.IsInfinite()
  }

  function KindName(k: ErrorKind): string {
    match k
    case OverflowError => "OverflowError"
    case ValueError => "ValueError"
    case TypeError => "TypeError"
  }

  const TooLargeHead := "The value '"
  const TooLargeTail := "' is too large."
  const UnconvertibleHead := "Unable to convert '"
  const UnconvertibleTail := "' to float."
  const UnsupportedHead := "Unsupported type "
  const UnsupportedTail := "; expected 'str' or 'float'."

  function TooLarge(v: string): Error {
    Error(OverflowError, TooLargeHead + v + TooLargeTail)
  }

  function Unconvertible(v: string): Error {
    Error(ValueError, UnconvertibleHead + v + UnconvertibleTail)
  }

  function Unsupported(typeName: string): Error {
    Error(TypeError, UnsupportedHead + typeName + UnsupportedTail)
  }

  /** The line `logging.error` receives for an error: its class name, a colon, its message */
  function LogLine(e: Error): string {
    KindName(e.kind) + ": " + e.message
  }

  /** Logs `e` and then raises it */
  function LogAndRaise(e: Error): Outcome {
    Logged(Failure(e), [LogLine(e)])
  }

  /** The text between `head` and `tail` when `m` has that shape */
  function Between(m: string, head: string, tail: string): Option<string> {
    if |head| + |tail| <= |m| && m[..|head|] == head && m[|m| - |tail|..] == tail
    then Some(m[|head|..|m| - |tail|])
    else None
  }

  /** The value an error message quotes (the input, or the input's type name):
      the inverse of `TooLarge`, `Unconvertible` and `Unsupported` */
  function Subject(e: Error): Option<string> {
    match e.kind
    case OverflowError => Between(e.message, TooLargeHead, TooLargeTail)
    case ValueError => Between(e.message, UnconvertibleHead, UnconvertibleTail)
    case TypeError => Between(e.message, UnsupportedHead, UnsupportedTail)
  }

  /** Reads an error back from a log line: the inverse of `LogLine` */
  function ErrorOfLogLine(line: string): Option<Error> {
    var overflowTag, valueTag, typeTag := KindName(OverflowError) + ": ", KindName(ValueError) + ": ", KindName(TypeError) + ": ";
    if overflowTag <= line then Some(Error(OverflowError, line[|overflowTag|..]))
    else if valueTag <= line then Some(Error(ValueError, line[|valueTag|..]))
    else if typeTag <= line then Some(Error(TypeError, line[|typeTag|..]))
    else None
  }

  /** Every error message gives back the value it quotes */
  lemma SubjectOfMessages(v: string)
    ensures Subject(TooLarge(v)) == Some(v)
    ensures Subject(Unconvertible(v)) == Some(v)
    ensures Subject(Unsupported(v)) == Some(v)
  {
  }

  /** A log line identifies the error it reports: kind and message are recovered */
  lemma LogLineRoundTrip(e: Error)
    ensures ErrorOfLogLine(LogLine(e)) == Some(e)
  {
    var line := LogLine(e);
    var prefix := KindName(e.kind) + ": ";
    assert line == prefix + e.message;
    assert line[|prefix|..] == e.message;
    assert prefix <= line;
    if e.kind != OverflowError {
      assert line[0] != 'O';
      assert !(KindName(OverflowError) + ": " <= line);
    }
    if e.kind == TypeError {
      assert line[0] != 'V';
      assert !(KindName(ValueError) + ": " <= line);
    }
  }

  /** `Quantity.ensure_float_conversion` */
  function Coerce(grammar: FloatText.Grammar, v: Raw): (r: Outcome)
    // only absent, finite or NaN content is ever produced ...
    ensures r.value.Success? ==> Storable(r.value.value)
    // ... and it is the input itself or what its text parses to, never a substitute
    ensures r.value == Success(None) <==> v.Absent?
    ensures r.value.Success? && r.value.value.Some? ==>
              v == Num(r.value.value.value) || (v.Text? && FloatText.Parse(grammar, v.s) == r.value.value)
    // success is silent; overflow and conversion failures log exactly their own
    // message once; a type failure is silent and only ever answers a foreign type
    ensures r.value.Success? ==> r.log == []
    ensures r.value.Failure? && r.value.error.kind != TypeError ==> r.log == [LogLine(r.value.error)]
    ensures r.value.Failure? && r.value.error.kind == TypeError <==> v.Other?
    ensures r.value.Failure? && r.value.error.kind == TypeError ==> r.log == []
  {
    match v
    case Absent => Logged(Success(None), [])
    case Num(f) =>
      if f.IsInfinite() then LogAndRaise(TooLarge(InfinityText(f))) else Logged(Success(Some(f)), [])
    case Text(s) =>
      (match FloatText.Parse(grammar, s)
       case None => LogAndRaise(Unconvertible(s))
       case Some(f) =>
         if f.IsInfinite() then LogAndRaise(TooLarge(s)) else Logged(Success(Some(f)), []))
    case Other(t) => Logged(Failure(Unsupported(t)), [])
  }
}
