# HealthChain clinical concept data model, in Dafny

This project models HealthChain's system-agnostic representation of clinical
concepts (`healthchain/models/data/concept.py`). Problems, medications and
allergies are held in this form before something renders them as CDA or FHIR.
The model has two parts:

- **The quantity content coercion rule** (`Quantity.ensure_float_conversion`).
  The raw `content` given to a `Quantity` is one of four things: absent, a
  float, a string, or any other value. The rule either normalises it to an
  optional float that is finite or NaN, or rejects it with one of three errors:
  - an `OverflowError` for an infinite value;
  - a `ValueError` for a string that does not convert;
  - a `TypeError` for any other type.

  Overflow and conversion failures write exactly one error-log line before they
  are raised. A type failure writes none.
- **The record hierarchy.**
  - The value types are `Quantity`, `Range` and `TimeInterval`.
  - The concept types are `Concept`, `ProblemConcept`, `MedicationConcept` and
    `AllergyConcept`.
  - Every field is optional and absent by default, with one exception:
    `AllergyConcept.allergy_type` defaults to the SNOMED CT concept 420134006,
    "Propensity to adverse reactions".

Modules:

| file | module | contents |
|---|---|---|
| wrappers.dfy | `Wrappers` | `Option` (absent fields) and `Result` (value or raised error) |
| floats.dfy | `Floats` | `FloatVal`: finite (as a real), NaN, +inf or -inf; Python's text for the infinities |
| float_text.dfy | `FloatText` | `float(str)`: the whitespace `float()` skips around a number, blank text rejected, the numeric literal grammar as a parameter |
| coercion.dfy | `Coercion` | raw input, error kinds and messages, log lines, the rule `Coerce`, and inverses of the message and log formats |
| coercion_properties.dfy | `CoercionProperties` | the rule's promises, case by case, and how its cases relate |
| concept.dfy | `Concepts` | the records, their defaults, and `NewQuantity` (construction through the rule) |
| concept_properties.dfy | `ConceptProperties` | defaults, which quantities construction accepts, and the examples the repository's tests exercise |

How the model maps onto the Python:

- **Input.** `Coerce(grammar, v)` takes the raw input as
  `Absent | Num(FloatVal) | Text(string) | Other(typeName)`.
- **Output.** It returns a `Logged` value: a `Result<Option<FloatVal>, Error>`
  together with the lines written to the error log.
- **Literal grammar.** `grammar` reads a trimmed, non-empty numeric
  literal. It is the part of Python's `float()` the model leaves abstract.
- **Whitespace and blank text.** Stripping skips what `float()` skips: the ASCII
  characters `\t\n\v\f\r` and space, and the non-ASCII characters for which
  `str.isspace` holds. The separators U+001C..U+001F are not skipped, although
  `str.isspace` counts them. A string that strips to nothing never converts,
  because `float("  ")` raises `ValueError`.
- **Keyword construction.** Records are immutable datatypes whose constructor
  parameters have defaults, so `AllergyConcept(code := Some("x"))` reads like
  the keyword call.
- **One concept type.** The concept classes are one datatype with four
  constructors that share the base fields. A field typed `Concept`
  (`route`, `allergy_type`, `severity`, `reaction`) can therefore hold any
  specialisation, as it can in Python.
- **Non-float numbers.** `isinstance(v, float)` is false for Python `int` and
  `bool`. An integer content such as `5` is therefore `Other("int")`, and the
  source rejects it with `Unsupported type int; expected 'str' or 'float'.`

## Model

| member | source | states |
|---|---|---|
| Coercion.Coerce | healthchain/models/data/concept.py:24-43 | Accepted content is always absent, finite or NaN. Absent input is exactly the input accepted as absent. An accepted float is the input itself or what the input text parses to, never a substitute. Success logs nothing. An overflow or conversion failure logs exactly its own log line once. A type failure happens exactly for a foreign type and logs nothing. |
| CoercionProperties.AbsentStaysAbsent | healthchain/models/data/concept.py:26-27 | `None` coerces to `None` with no error and no log line |
| CoercionProperties.InfiniteFloatOverflows | healthchain/models/data/concept.py:28-31 | +inf or -inf raises OverflowError `The value '<inf or -inf>' is too large.` and logs `OverflowError: ` plus that message, once |
| CoercionProperties.FloatKept | healthchain/models/data/concept.py:28-32 | A finite or NaN float is returned unchanged with no log line |
| CoercionProperties.ParsedTextStoredAsFloat | healthchain/models/data/concept.py:33-39 | Text that parses to a finite or NaN value is stored as that float, not as the text. No log line is written, and the outcome is identical to passing the float. |
| CoercionProperties.InfiniteTextOverflows | healthchain/models/data/concept.py:36-38 | Text that parses to an infinity raises OverflowError quoting the original text verbatim, logged once |
| CoercionProperties.UnparsableTextRejected | healthchain/models/data/concept.py:40-42 | Text that does not parse raises ValueError `Unable to convert '<text>' to float.` and logs `ValueError: ` plus that message, once |
| CoercionProperties.BlankTextRejected | healthchain/models/data/concept.py:34-42 | Text that is empty or whitespace only is a conversion error whatever the literal grammar |
| CoercionProperties.ForeignTypeRejected | healthchain/models/data/concept.py:43 | Any other type raises TypeError `Unsupported type <T>; expected 'str' or 'float'.` and logs nothing |
| CoercionProperties.InjectRoundTrip | healthchain/models/data/concept.py:26-32 | Stored content passed back as input comes back unchanged exactly when it is absent, finite or NaN. When it does, nothing is logged. |
| CoercionProperties.CoerceIdempotent | healthchain/models/data/concept.py:24-43 | Coercing an accepted result again gives the same result with no log line |
| CoercionProperties.PaddedTextCoercesAlike | healthchain/models/data/concept.py:33-42 | Whitespace around text changes neither acceptance nor the stored float nor the error kind |
| CoercionProperties.LogReportsRaisedError | healthchain/models/data/concept.py:28-42 | Every logged line decodes back to exactly the error then raised, both kind and message |
| CoercionProperties.LogOnlyForLoggedKinds | healthchain/models/data/concept.py:24-43 | At most one line is logged. One is logged exactly when the error is an OverflowError or a ValueError. |
| CoercionProperties.MessageQuotesInput | healthchain/models/data/concept.py:28-43 | A failure's message quotes what was passed: the text verbatim, `inf` or `-inf` for a float, or the type name. Absent input never fails, and a float fails only when infinite. |
| Coercion.SubjectOfMessages | healthchain/models/data/concept.py:31-43 | Each of the three message formats gives back the value it quotes |
| Coercion.LogLineRoundTrip | healthchain/models/data/concept.py:30-41 | A log line (`<ErrorClass>: <message>`) determines the error it reports |
| Floats.InfinityText | healthchain/models/data/concept.py:30-31 | An infinite float is quoted as `inf` exactly when positive and `-inf` exactly when negative |
| FloatText.Strip | healthchain/models/data/concept.py:35 | Stripped text neither starts nor ends with whitespace and is no longer than the input |
| FloatText.StripShape | healthchain/models/data/concept.py:35 | The stripped text is the slice of the input between a leading and a trailing whitespace run |
| FloatText.Parse | healthchain/models/data/concept.py:35 | Whitespace-only text, the empty string included, does not convert. Any other text converts as the grammar reads its stripped form. |
| FloatText.SeparatorIsKept | healthchain/models/data/concept.py:35 | A U+001C file separator before a number is not skipped, though `str.isspace` counts it as whitespace |
| FloatText.StripAt | healthchain/models/data/concept.py:35 | Stripping has exactly one answer: the core between a leading and a trailing whitespace run, when the core is trimmed |
| FloatText.StripIgnoresPadding | healthchain/models/data/concept.py:35 | Surrounding whitespace does not change what text strips to |
| FloatText.ParseIgnoresPadding | healthchain/models/data/concept.py:35 | Surrounding whitespace does not change how text converts to a float |
| FloatText.StripIdempotent | healthchain/models/data/concept.py:35 | Stripping twice is the same as stripping once |
| FloatText.StripOfBlank | healthchain/models/data/concept.py:35 | Whitespace-only text strips to nothing |
| Concepts.NewQuantity | healthchain/models/data/concept.py:20-43 | Construction writes the rule's log. It succeeds exactly when the rule accepts the content. A built quantity is valid, keeps the scale as given and holds the coerced content. A failure raises the rule's error. |
| ConceptProperties.QuantityTextAgreesWithFloat | healthchain/models/data/concept.py:20-39 | A quantity built from text that parses to a finite or NaN float is the same, with the same empty log, as one built from that float. It holds the float, not the text. |
| ConceptProperties.QuantityRoundTrip | healthchain/models/data/concept.py:20-32 | A quantity is rebuilt, silently, from its own content and scale exactly when it is valid |
| ConceptProperties.QuantityDefaults | healthchain/models/data/concept.py:21-27 | `Quantity()` and `Quantity(content=None)` hold no content and log nothing. The scale is absent unless given. |
| ConceptProperties.DefaultsAreAbsent | healthchain/models/data/concept.py:48-111 | With nothing supplied, no field of any record is present except `allergy_type`: the present-field sets of `Range()`, `TimeInterval()` and the four concept kinds are empty, and an allergy's is exactly `{allergy_type}` |
| ConceptProperties.AllergyTypeDefault | healthchain/models/data/concept.py:102-109 | An allergy's type is the SNOMED CT concept 420134006 "Propensity to adverse reactions" (code system 2.16.840.1.113883.6.96) unless the caller supplies one, an explicit `None` included |
| ConceptProperties.ProblemHoldsWhatIsSupplied | healthchain/models/data/concept.py:72-80 | A problem built from any code, onset date and abatement date holds exactly those three fields. Nothing else is filled in, and the two dates are not checked against each other. |
| ConceptProperties.DefaultsAreValid | healthchain/models/data/concept.py:20-111 | Every default-built record holds only valid quantities |
| ConceptProperties.RangeIsUnordered | healthchain/models/data/concept.py:48-50 | Two valid quantities form a valid range in either order, so no `low <= high` check is made |
| ConceptProperties.PaddedTextExample | tests/test_concept.py:105-110 | `'  42.0  '` is stored as 42.0 with no log line |
| ConceptProperties.StripPaddedNumber | tests/test_concept.py:108 | `'  42.0  '` strips to `'42.0'` |
| ConceptProperties.CommaTextExample | tests/test_concept.py:112-119 | `'1,000'` raises ValueError quoting `1,000`, logged once |
| ConceptProperties.InfinityTextExample | tests/test_concept.py:50-57 | `'inf'` raises OverflowError quoting `inf`, logged once |
| ConceptProperties.NegativeInfinityExample | tests/test_concept.py:96-103 | `float('-inf')` raises OverflowError quoting `-inf`, logged once |
| ConceptProperties.NanExample | tests/test_concept.py:121-127 | `float('nan')` is stored as NaN with no log line |
| ConceptProperties.ListExample | tests/test_concept.py:59-64 | `[1, 2, 3]` raises TypeError naming `list` with no log line |

## Left out

- The validation library (the `BaseModel` base class and the `validator` decorator) is not modelled. The model leaves out:
  - the library's check of the declared type `Optional[Union[str, float]]` after the rule runs;
  - the library's wrapping of `ValueError` into its `ValidationError`, which is itself a `ValueError` subclass. `OverflowError` and `TypeError` reach the caller unchanged, as modelled.

  The rule is modelled as an explicit function that `NewQuantity` calls.
- Reassignment is not modelled, and records are immutable values. Running the rule again when `content` is reassigned would need validation on assignment. The source does not turn that on, so the source does not re-check a reassigned value.
- Python's `float()` literal grammar is a parameter (`FloatText.Grammar`). It is given the stripped, non-empty text, and every property holds for any grammar.
- IEEE-754 arithmetic and rounding are not modelled. A float is its class; a finite float is its exact real value. Signed zero is therefore not distinguished: `-0.0`, stored by Python as given, is `Finite(0.0)` here.
- NaN is compared structurally. `FloatVal` equality means the same class and the same real value, not Python's `==`, under which `nan != nan`. So `ParsedTextStoredAsFloat` says that text parsing to NaN stores NaN, as passing NaN does. It does not say the two results compare equal in Python.
- `str()` of finite floats is not modelled. The rule only ever quotes infinite floats, which print as `inf` and `-inf`.
- The logging facility is not modelled. A call's log is the sequence of lines it passes to `logging.error`.
- The private `_source` and `_standard` attributes and the `Standard` enumeration are not modelled. They are metadata that is not serialised and has no behaviour in this file.
- The contents of `MedicationConcept.precondition` are not interpreted. It is a map between values of the abstract type `Opaque`.
- Python class identity is not modelled. Subclasses of `float` or `str` are the caller's choice of `Num` or `Text`. Every other runtime type, `int` and `bool` included, is `Other` with its type name.
- Rendering to CDA or FHIR is not modelled. It lives outside this file.
