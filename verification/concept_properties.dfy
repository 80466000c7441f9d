/** What construction of the records promises: which quantities it accepts,
    which fields are present when the caller supplies none, and the allergy
    type's default. Includes the worked quantity examples the repository's own
    tests exercise, stated for any literal grammar that reads those literals
    the way Python does. */
module ConceptProperties {
  import opened Wrappers
  import opened Floats
  import FloatText
  import opened Coercion
  import opened CoercionProperties
  import opened Concepts

  /** `{name}` when the field is supplied, `{}` when it is absent */
  function Present<T>(name: string, field: Option<T>): set<string> {
    if field.Some? then {name} else {}
  }

  /** The names (as the source spells them) of the fields a concept holds a value for */
  function PresentFields(c: Concept): set<string> {
    var base := Present("code", c.code) + Present("code_system", c.codeSystem)
              + Present("code_system_name", c.codeSystemName) + Present("display_name", c.displayName);
    match c
    case Concept(_, _, _, _) => base
    case ProblemConcept(_, _, _, _, onset, abatement, status, recorded) =>
      base + Present("onset_date", onset) + Present("abatement_date", abatement)
      + Present("status", status) + Present("recorded_date", recorded)
    case MedicationConcept(_, _, _, _, dosage, route, frequency, duration, precondition) =>
      base + Present("dosage", dosage) + Present("route", route) + Present("frequency", frequency)
      + Present("duration", duration) + Present("precondition", precondition)
    case AllergyConcept(_, _, _, _, allergyType, severity, reaction) =>
      base + Present("allergy_type", allergyType) + Present("severity", severity) + Present("reaction", reaction)
  }

  /** The names of the fields a range holds a value for */
  function RangeFields(r: Range): set<string> {
    Present("low", r.low) + Present("high", r.high)
  }

  /** The names of the fields a time interval holds a value for */
  function IntervalFields(i: TimeInterval): set<string> {
    Present("period", i.period) + Present("phase", i.phase) + Present("institution_specified", i.institutionSpecified)
  }

  /** The SNOMED CT concept an allergy's type defaults to */
  const PropensityToAdverseReactions := Concept(
    code := Some("420134006"),
    codeSystem := Some("2.16.840.1.113883.6.96"),
    codeSystemName := Some("SNOMED CT"),
    displayName := Some("Propensity to adverse reactions"))

  /** Construction accepts exactly the valid quantities: every valid quantity is
      rebuilt from its own content and scale, silently, and anything built is valid */
  lemma QuantityRoundTrip(grammar: FloatText.Grammar, q: Quantity)
    ensures NewQuantity(grammar, Inject(q.content), q.scale) == Logged(Success(q), []) <==> q.Valid()
  {
  }

  /** Passing text gives the same quantity and the same log as passing the
      float it parses to, whenever that float is finite or NaN */
  lemma QuantityTextAgreesWithFloat(grammar: FloatText.Grammar, s: string, f: FloatVal, scale: Option<string>)
    requires FloatText.Parse(grammar, s) == Some(f) && !f.IsInfinite()
    ensures NewQuantity(grammar, Text(s), scale) == NewQuantity(grammar, Num(f), scale)
    ensures NewQuantity(grammar, Text(s), scale) == Logged(Success(Quantity(Some(f), scale)), [])
  {
    ParsedTextStoredAsFloat(grammar, s, f);
  }

  /** `Quantity()` and `Quantity(content=None)` both hold no content, silently */
  lemma QuantityDefaults(grammar: FloatText.Grammar, scale: Option<string>)
    ensures NewQuantity(grammar) == Logged(Success(Quantity()), [])
    ensures NewQuantity(grammar, Absent, scale) == Logged(Success(Quantity(None, scale)), [])
    ensures Quantity().content == None && Quantity().scale == None
  {
  }

  /** With nothing supplied, every field is absent except an allergy's type */
  lemma DefaultsAreAbsent()
    ensures PresentFields(Concept()) == {}
    ensures PresentFields(ProblemConcept()) == {}
    ensures PresentFields(MedicationConcept()) == {}
    ensures PresentFields(AllergyConcept()) == {"allergy_type"}
    ensures RangeFields(Range()) == {}
    ensures IntervalFields(TimeInterval()) == {}
  {
  }

  /** An allergy's type is the SNOMED CT default unless the caller supplies one
      (an explicit `None` included); no other field affects it */
  lemma AllergyTypeDefault(code: Option<string>, severity: Option<Concept>, reaction: Option<Concept>, t: Option<Concept>)
    ensures AllergyConcept(code := code, severity := severity, reaction := reaction).allergyType
            == Some(PropensityToAdverseReactions)
    ensures AllergyConcept(code := code, allergyType := t).allergyType == t
    ensures PropensityToAdverseReactions.code == Some("420134006")
    ensures PropensityToAdverseReactions.codeSystemName == Some("SNOMED CT")
  {
  }

  /** A partially supplied problem holds exactly the fields supplied: nothing is
      filled in with an empty string, and dates are not checked against each other */
  lemma ProblemHoldsWhatIsSupplied(code: string, onset: string, abatement: string)
    ensures PresentFields(ProblemConcept(code := Some(code), onsetDate := Some(onset), abatementDate := Some(abatement)))
            == {"code", "onset_date", "abatement_date"}
  {
  }

  /** Records built from default parts hold only valid quantities */
  lemma DefaultsAreValid()
    ensures Quantity().Valid() && Range().Valid() && TimeInterval().Valid()
    ensures Concept().Valid() && ProblemConcept().Valid() && MedicationConcept().Valid() && AllergyConcept().Valid()
  {
  }

  /** A range of two valid quantities is valid in either order: no `low <= high` check */
  lemma RangeIsUnordered(a: Quantity, b: Quantity)
    requires a.Valid() && b.Valid()
    ensures Range(Some(a), Some(b)).Valid() && Range(Some(b), Some(a)).Valid()
  {
  }

  /** `Quantity(content='  42.0  ')` holds 42.0 and logs nothing */
  lemma PaddedTextExample(grammar: FloatText.Grammar)
    requires grammar("42.0") == Some(Finite(42.0))
    ensures NewQuantity(grammar, Text("  42.0  ")) == Logged(Success(Quantity(content := Some(Finite(42.0)))), [])
  {
    StripPaddedNumber();
    ParsedTextStoredAsFloat(grammar, "  42.0  ", Finite(42.0));
  }

  lemma StripPaddedNumber()
    ensures FloatText.Strip("  42.0  ") == "42.0"
  {
    var s := "  42.0  ";
    assert FloatText.SpaceBetween(s, 0, 2) && FloatText.SpaceBetween(s, 6, 8);
    assert s[2..6] == "42.0";
    FloatText.StripAt(s, 2, 6);
  }

  /** `Quantity(content='1,000')` raises a ValueError quoting `1,000`, logged once */
  lemma CommaTextExample(grammar: FloatText.Grammar)
    requires grammar("1,000") == None
    ensures NewQuantity(grammar, Text("1,000")) == Logged(Failure(Unconvertible("1,000")), [LogLine(Unconvertible("1,000"))])
  {
    var s := "1,000";
    assert s[0..|s|] == s;
    FloatText.StripAt(s, 0, |s|);
  }

  /** `Quantity(content='inf')` raises an OverflowError quoting `inf`, logged once */
  lemma InfinityTextExample(grammar: FloatText.Grammar)
    requires grammar("inf") == Some(PosInf)
    ensures NewQuantity(grammar, Text("inf")) == Logged(Failure(TooLarge("inf")), [LogLine(TooLarge("inf"))])
  {
    var s := "inf";
    assert s[0..|s|] == s;
    FloatText.StripAt(s, 0, |s|);
  }

  /** `Quantity(content=float('-inf'))` raises an OverflowError quoting `-inf`, logged once */
  lemma NegativeInfinityExample(grammar: FloatText.Grammar)
    ensures NewQuantity(grammar, Num(NegInf)) == Logged(Failure(TooLarge("-inf")), [LogLine(TooLarge("-inf"))])
  {
  }

  /** `Quantity(content=float('nan'))` holds NaN and logs nothing */
  lemma NanExample(grammar: FloatText.Grammar)
    ensures NewQuantity(grammar, Num(NaN)) == Logged(Success(Quantity(content := Some(NaN))), [])
  {
  }

  /** `Quantity(content=[1, 2, 3])` raises a TypeError naming `list` and logs nothing */
  lemma ListExample(grammar: FloatText.Grammar)
    ensures NewQuantity(grammar, Other("list")) == Logged(Failure(Unsupported("list")), [])
  {
  }
}
