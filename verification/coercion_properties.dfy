/** What the content coercion rule promises, case by case, and how its cases
    relate to one another. Messages and log lines are written out literally here,
    independently of the helpers that build them. */
module CoercionProperties {
  import opened Wrappers
  import opened Floats
  import FloatText
  import opened Coercion

  /** A stored content value handed back to the rule as raw input */
  function Inject(c: Option<FloatVal>): (v: Raw)
    ensures v.Absent? || v.Num?
  {
    match c
    case None => Absent
    case Some(f) => Num(f)
  }

  /** `None` stays `None`, silently */
  lemma AbsentStaysAbsent(grammar: FloatText.Grammar)
    ensures Coerce(grammar, Absent) == Logged(Success(None), [])
  {
  }

  /** An infinite float overflows, quoting Python's rendering of it, logged once */
  lemma InfiniteFloatOverflows(grammar: FloatText.Grammar, f: FloatVal)
    requires f.IsInfinite()
    ensures var msg := "The value '" + InfinityText(f) + "' is too large.";
            Coerce(grammar, Num(f)) == Logged(Failure(Error(OverflowError, msg)), ["OverflowError: " + msg])
  {
    assert KindName(OverflowError) + ": " == "OverflowError: ";
  }

  /** A finite or NaN float is kept as it is, silently */
  lemma FloatKept(grammar: FloatText.Grammar, f: FloatVal)
    requires !f.IsInfinite()
    ensures Coerce(grammar, Num(f)) == Logged(Success(Some(f)), [])
  {
  }

  /** Text that parses to a finite or NaN value is stored as that float, exactly
      as if the float itself had been passed */
  lemma ParsedTextStoredAsFloat(grammar: FloatText.Grammar, s: string, f: FloatVal)
    requires FloatText.Parse(grammar, s) == Some(f) && !f.IsInfinite()
    ensures Coerce(grammar, Text(s)) == Logged(Success(Some(f)), [])
    ensures Coerce(grammar, Text(s)) == Coerce(grammar, Num(f))
  {
  }

  /** Text that parses to an infinity overflows, quoting the text verbatim */
  lemma InfiniteTextOverflows(grammar: FloatText.Grammar, s: string, f: FloatVal)
    requires FloatText.Parse(grammar, s) == Some(f) && f.IsInfinite()
    ensures var msg := "The value '" + s + "' is too large.";
            Coerce(grammar, Text(s)) == Logged(Failure(Error(OverflowError, msg)), ["OverflowError: " + msg])
  {
    assert KindName(OverflowError) + ": " == "OverflowError: ";
  }

  /** Text that does not parse is a conversion error, logged once */
  lemma UnparsableTextRejected(grammar: FloatText.Grammar, s: string)
    requires FloatText.Parse(grammar, s) == None
    ensures var msg := "Unable to convert '" + s + "' to float.";
            Coerce(grammar, Text(s)) == Logged(Failure(Error(ValueError, msg)), ["ValueError: " + msg])
  {
    assert KindName(ValueError) + ": " == "ValueError: ";
  }

  /** Blank text never converts, whatever the literal grammar */
  lemma BlankTextRejected(grammar: FloatText.Grammar, s: string)
    requires FloatText.AllSpace(s)
    ensures Coerce(grammar, Text(s)).value == Failure(Unconvertible(s))
  {
  }

  /** Any other type is a type error, and nothing is logged */
  lemma ForeignTypeRejected(grammar: FloatText.Grammar, typeName: string)
    ensures var msg := "Unsupported type " + typeName + "; expected 'str' or 'float'.";
            Coerce(grammar, Other(typeName)) == Logged(Failure(Error(TypeError, msg)), [])
  {
  }

  /** Content is accepted back unchanged exactly when it is storable content */
  lemma InjectRoundTrip(grammar: FloatText.Grammar, c: Option<FloatVal>)
    ensures Coerce(grammar, Inject(c)).value == Success(c) <==> Storable(c)
    ensures Storable(c) ==> Coerce(grammar, Inject(c)).log == []
  {
  }

  /** Coercing what the rule accepted gives the same value again, silently */
  lemma CoerceIdempotent(grammar: FloatText.Grammar, v: Raw)
    requires Coerce(grammar, v).value.Success?
    ensures Coerce(grammar, Inject(Coerce(grammar, v).value.value)) == Logged(Coerce(grammar, v).value, [])
  {
  }

  /** Whitespace around text changes whether it is accepted, what it is stored
      as and which kind of error it raises in no way; only the quoted text differs */
  lemma PaddedTextCoercesAlike(grammar: FloatText.Grammar, p: string, s: string, q: string)
    requires FloatText.AllSpace(p) && FloatText.AllSpace(q)
    ensures Coerce(grammar, Text(p + s + q)).value.Success? == Coerce(grammar, Text(s)).value.Success?
    ensures Coerce(grammar, Text(s)).value.Success? ==>
              Coerce(grammar, Text(p + s + q)).value == Coerce(grammar, Text(s)).value
    ensures Coerce(grammar, Text(s)).value.Failure? ==>
              Coerce(grammar, Text(p + s + q)).value.error.kind == Coerce(grammar, Text(s)).value.error.kind
  {
    FloatText.ParseIgnoresPadding(grammar, p, s, q);
  }

  /** Every line written to the log reads back as the very error then raised */
  lemma LogReportsRaisedError(grammar: FloatText.Grammar, v: Raw)
    ensures forall line | line in Coerce(grammar, v).log ::
              Coerce(grammar, v).value.Failure? && ErrorOfLogLine(line) == Some(Coerce(grammar, v).value.error)
  {
    var r := Coerce(grammar, v);
    if r.value.Failure? {
      LogLineRoundTrip(r.value.error);
    }
  }

  /** At most one line is logged, and one is logged exactly for overflow and
      conversion failures */
  lemma LogOnlyForLoggedKinds(grammar: FloatText.Grammar, v: Raw)
    ensures |Coerce(grammar, v).log| <= 1
    ensures |Coerce(grammar, v).log| == 1 <==>
              Coerce(grammar, v).value.Failure? && Coerce(grammar, v).value.error.kind in {OverflowError, ValueError}
  {
  }

  /** Error messages quote the original input verbatim: the text as passed, the
      float's rendering, or the foreign type's name */
  lemma MessageQuotesInput(grammar: FloatText.Grammar, v: Raw)
    requires Coerce(grammar, v).value.Failure?
    ensures v.Text? ==> Subject(Coerce(grammar, v).value.error) == Some(v.s)
    ensures v.Num? ==> v.f.IsInfinite() && Subject(Coerce(grammar, v).value.error) == Some(InfinityText(v.f))
    ensures v.Other? ==> Subject(Coerce(grammar, v).value.error) == Some(v.typeName)
    ensures !v.Absent?
  {
  }
}
