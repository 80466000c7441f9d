/** The floating-point values a Quantity can hold, described by their IEEE-754
    class rather than their bits: a finite value (its exact real value), NaN, or
    one of the two infinities. No arithmetic is done on them. */
module Floats {

  datatype FloatVal = Finite(r: real) | NaN | PosInf | NegInf {

    /** Python's `math.isinf` */
    predicate IsInfinite() {
      PosInf? || NegInf?
    }
  }

  /** Python's `str()` of an infinite float, as interpolated by an f-string */
  function InfinityText(f: FloatVal): (t: string)
    requires f.IsInfinite()
    ensures t == "inf" <==> f == PosInf
    ensures t == "-inf" <==> f == NegInf
  {
    if f.PosInf? then "inf" else "-inf"
  }
}
