/** The system-agnostic records for clinical data: the value types `Quantity`,
    `Range` and `TimeInterval`, and the concept types (a plain `Concept` and
    its problem, medication and allergy specialisations). Every field is
    optional and defaults to absent, except an allergy's type, which defaults
    to the SNOMED CT concept "Propensity to adverse reactions". Records are
    immutable values; named constructor arguments with defaults stand for
    keyword construction. */
module Concepts {
  import opened Wrappers
  import opened Floats
  import FloatText
  import opened Coercion

  /** An uninterpreted key or value of a medication's `precondition` dictionary */
  type Opaque(==)

  /** A measured value with an optional unit or scale label */
  datatype Quantity = Quantity(content: Option<FloatVal> := None, scale: Option<string> := None) {

    /** What construction guarantees: the content is absent, finite or NaN */
    predicate Valid() {
      Storable(content)
    }
  }

  /** Low and high bounds; nothing orders one against the other */
  datatype Range = Range(low: Option<Quantity> := None, high: Option<Quantity> := None) {

    predicate Valid() {
      (low.Some? ==> low.value.Valid()) && (high.Some? ==> high.value.Valid())
    }
  }

  datatype TimeInterval = TimeInterval(
    period: Option<Quantity> := None,
    phase: Option<Range> := None,
    institutionSpecified: Option<bool> := None)
  {
    predicate Valid() {
      (period.Some? ==> period.value.Valid()) && (phase.Some? ==> phase.value.Valid())
    }
  }

  /** A coded clinical term. The base fields `code`, `codeSystem`,
      `codeSystemName` and `displayName` are shared by every kind of concept, so
      a field typed `Concept` may hold any specialisation. */
  datatype Concept =
    | Concept(
        code: Option<string> := None,
        codeSystem: Option<string> := None,
        codeSystemName: Option<string> := None,
        displayName: Option<string> := None)
    | ProblemConcept(
        code: Option<string> := None,
        codeSystem: Option<string> := None,
        codeSystemName: Option<string> := None,
        displayName: Option<string> := None,
        onsetDate: Option<string> := None,
        abatementDate: Option<string> := None,
        status: Option<string> := None,
        recordedDate: Option<string> := None)
    | MedicationConcept(
        code: Option<string> := None,
        codeSystem: Option<string> := None,
        codeSystemName: Option<string> := None,
        displayName: Option<string> := None,
        dosage: Option<Quantity> := None,
        route: Option<Concept> := None,
        frequency: Option<TimeInterval> := None,
        duration: Option<Range> := None,
        precondition: Option<map<Opaque, Opaque>> := None)
    | AllergyConcept(
        code: Option<string> := None,
        codeSystem: Option<string> := None,
        codeSystemName: Option<string> := None,
        displayName: Option<string> := None,
        allergyType: Option<Concept> := Some(Concept(
          code := Some("420134006"),
          codeSystem := Some("2.16.840.1.113883.6.96"),
          codeSystemName := Some("SNOMED CT"),
          displayName := Some("Propensity to adverse reactions"))),
        severity: Option<Concept> := None,
        reaction: Option<Concept> := None)
  {
    /** Every quantity held, however deeply nested, is one construction could produce */
    predicate Valid() {
      match this
      case Concept(_, _, _, _) => true
      case ProblemConcept(_, _, _, _, _, _, _, _) => true
      case MedicationConcept(_, _, _, _, dosage, route, frequency, duration, _) =>
        && (dosage.Some? ==> dosage.value.Valid())
        && (route.Some? ==> route.value.Valid())
        && (frequency.Some? ==> frequency.value.Valid())
        && (duration.Some? ==> duration.value.Valid())
      case AllergyConcept(_, _, _, _, allergyType, severity, reaction) =>
        && (allergyType.Some? ==> allergyType.value.Valid())
        && (severity.Some? ==> severity.value.Valid())
        && (reaction.Some? ==> reaction.value.Valid())
    }
  }

  /** `Quantity(content=..., scale=...)`: the content goes through the coercion
      rule (also when omitted); the scale is stored as given. Construction either
      yields a quantity or raises the coercion error, with the coercion's log. */
  function NewQuantity(grammar: FloatText.Grammar, content: Raw := Absent, scale: Option<string> := None)
    : (r: Logged<Result<Quantity, Error>>)
    ensures r.log == Coerce(grammar, content).log
    ensures r.value.Success? <==> Coerce(grammar, content).value.Success?
    ensures r.value.Success? ==> r.value.value.Valid() && r.value.value.scale == scale
    ensures r.value.Success? ==> r.value.value.content == Coerce(grammar, content).value.value
    ensures r.value.Failure? ==> r.value.error == Coerce(grammar, content).value.error
  {
    var coerced := Coerce(grammar, content);
    match coerced.value
    case Success(c) => Logged(Success(Quantity(c, scale)), coerced.log)
    case Failure(e) => Logged(Failure(e), coerced.log)
  }
}
