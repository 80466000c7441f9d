/** Text-to-float conversion as Python's `float(str)` performs it, split into the
    part that matters here — leading and trailing whitespace (ASCII `\t\n\v\f\r`
    and space, and the non-ASCII characters Python counts as whitespace) is
    ignored and a blank string is rejected — and the numeric literal grammar
    itself, which is
    left abstract as a `Grammar` parameter (it may yield NaN or an infinity, as
    `float('nan')` and `float('1e400')` do). */
module FloatText {
  import opened Wrappers
  import opened Floats

  /** Reads a trimmed, non-empty numeric literal; `None` is a ValueError */
  type Grammar = string -> Option<FloatVal>

  /** The characters `float()` skips around a number: the ASCII whitespace
      `\t\n\v\f\r` and space, and every non-ASCII character for which
      `str.isspace` holds (it maps those to a space before skipping). The ASCII
      separators U+001C..U+001F count for `str.isspace` but are not skipped. */
  predicate IsSpace(c: char) {
    || '\U{9}' <= c <= '\U{d}'
    || c == ' '
    || c == '\U{85}' || c == '\U{a0}' || c == '\U{1680}'
    || '\U{2000}' <= c <= '\U{200a}'
    || c == '\U{2028}' || c == '\U{2029}' || c == '\U{202f}'
    || c == '\U{205f}' || c == '\U{3000}'
  }

  /** `s[lo..hi]` is whitespace only */
  predicate SpaceBetween(s: string, lo: int, hi: int)
    requires 0 <= lo && hi <= |s|
  {
    forall i :: lo <= i < hi ==> IsSpace(s[i])
  }

  predicate AllSpace(s: string) {
    SpaceBetween(s, 0, |s|)
  }

  /** Text that neither starts nor ends with whitespace */
  predicate Trimmed(t: string) {
    t == [] || (!IsSpace(t[0]) && !IsSpace(t[|t| - 1]))
  }

  /** The first index at or after `i` that is not whitespace, or `|s|` */
  function FirstNonSpace(s: string, i: nat): (k: nat)
    requires i <= |s|
    ensures i <= k <= |s| && SpaceBetween(s, i, k)
    ensures k == |s| || !IsSpace(s[k])
    decreases |s| - i
  {
    if i == |s| || !IsSpace(s[i]) then i else FirstNonSpace(s, i + 1)
  }

  /** The end of the last non-whitespace character in `s[lo..j]`, or `lo` */
  function LastNonSpace(s: string, lo: nat, j: nat): (k: nat)
    requires lo <= j <= |s|
    ensures lo <= k <= j && SpaceBetween(s, k, j)
    ensures k == lo || !IsSpace(s[k - 1])
  {
    if j == lo || !IsSpace(s[j - 1]) then j else LastNonSpace(s, lo, j - 1)
  }

  /** The text `float()` reads once surrounding whitespace is skipped */
  function Strip(s: string): (t: string)
    ensures Trimmed(t) && |t| <= |s|
  {
    var a := FirstNonSpace(s, 0);
    s[a..LastNonSpace(s, a, |s|)]
  }

  /** `float(s)`: surrounding whitespace is ignored, blank text does not convert */
  function Parse(grammar: Grammar, s: string): (r: Option<FloatVal>)
    ensures AllSpace(s) ==> r == None
    ensures !AllSpace(s) ==> r == grammar(Strip(s))
  {
    var t := Strip(s);
    if t == [] then None else grammar(t)
  }

  /** Strip has exactly one answer: the trimmed core of `s` between whitespace runs */
  lemma StripAt(s: string, a: nat, b: nat)
    requires a <= b <= |s| && SpaceBetween(s, 0, a) && SpaceBetween(s, b, |s|)
    requires Trimmed(s[a..b])
    ensures Strip(s) == s[a..b]
  {
  }

  /** Where the stripped text lies in `s` */
  lemma StripShape(s: string) returns (a: nat, b: nat)
    ensures a <= b <= |s| && Strip(s) == s[a..b]
    ensures SpaceBetween(s, 0, a) && SpaceBetween(s, b, |s|)
  {
    a := FirstNonSpace(s, 0);
    b := LastNonSpace(s, a, |s|);
  }

  /** Whitespace before `s` extends its leading whitespace run */
  lemma SpaceBeforeShifts(p: string, s: string, a: nat)
    requires AllSpace(p) && a <= |s| && SpaceBetween(s, 0, a)
    ensures SpaceBetween(p + s, 0, |p| + a)
  {
    var u := p + s;
    forall i | 0 <= i < |p| + a ensures IsSpace(u[i]) {
      if i < |p| { assert u[i] == p[i]; } else { assert u[i] == s[i - |p|]; }
    }
  }

  /** A whitespace run inside `s` stays one, shifted, after a prefix */
  lemma SpaceWithinShifts(p: string, s: string, lo: nat, hi: nat)
    requires lo <= hi <= |s| && SpaceBetween(s, lo, hi)
    ensures SpaceBetween(p + s, |p| + lo, |p| + hi)
  {
    var u := p + s;
    forall i | |p| + lo <= i < |p| + hi ensures IsSpace(u[i]) {
      assert u[i] == s[i - |p|];
    }
  }

  /** A whitespace run inside `s` stays one after a suffix */
  lemma SpaceWithinKept(s: string, q: string, lo: nat, hi: nat)
    requires lo <= hi <= |s| && SpaceBetween(s, lo, hi)
    ensures SpaceBetween(s + q, lo, hi)
  {
    forall i | lo <= i < hi ensures IsSpace((s + q)[i]) {
      assert (s + q)[i] == s[i];
    }
  }

  /** Whitespace after `s` extends its trailing whitespace run */
  lemma SpaceAfterExtends(s: string, q: string, b: nat)
    requires AllSpace(q) && b <= |s| && SpaceBetween(s, b, |s|)
    ensures SpaceBetween(s + q, b, |s + q|)
  {
    var u := s + q;
    forall i | b <= i < |u| ensures IsSpace(u[i]) {
      if i < |s| { assert u[i] == s[i]; } else { assert u[i] == q[i - |s|]; }
    }
  }

  lemma {:induction false} StripIgnoresLeadingSpace(p: string, s: string)
    requires AllSpace(p)
    ensures Strip(p + s) == Strip(s)
  {
    var a, b := StripShape(s);
    SpaceBeforeShifts(p, s, a);
    SpaceWithinShifts(p, s, b, |s|);
    assert (p + s)[|p| + a..|p| + b] == s[a..b];
    StripAt(p + s, |p| + a, |p| + b);
  }

  lemma {:induction false} StripIgnoresTrailingSpace(s: string, q: string)
    requires AllSpace(q)
    ensures Strip(s + q) == Strip(s)
  {
    var a, b := StripShape(s);
    SpaceWithinKept(s, q, 0, a);
    SpaceAfterExtends(s, q, b);
    assert (s + q)[a..b] == s[a..b];
    StripAt(s + q, a, b);
  }

  /** Whitespace around text does not change what it strips to */
  lemma StripIgnoresPadding(p: string, s: string, q: string)
    requires AllSpace(p) && AllSpace(q)
    ensures Strip(p + s + q) == Strip(s)
  {
    StripIgnoresLeadingSpace(p, s + q);
    assert p + s + q == p + (s + q);
    StripIgnoresTrailingSpace(s, q);
  }

  /** Whitespace around text does not change how it parses */
  lemma ParseIgnoresPadding(grammar: Grammar, p: string, s: string, q: string)
    requires AllSpace(p) && AllSpace(q)
    ensures Parse(grammar, p + s + q) == Parse(grammar, s)
  {
    StripIgnoresPadding(p, s, q);
  }

  /** Stripping twice is stripping once */
  lemma StripIdempotent(s: string)
    ensures Strip(Strip(s)) == Strip(s)
  {
  }

  /** A file separator (U+001C) in front of a number is kept, not skipped */
  lemma SeparatorIsKept()
    ensures Strip("\U{1c}1.0") == "\U{1c}1.0"
  {
    var s := "\U{1c}1.0";
    assert s[0..|s|] == s;
    StripAt(s, 0, |s|);
  }

  /** Blank text strips to nothing */
  lemma StripOfBlank(s: string)
    requires AllSpace(s)
    ensures Strip(s) == []
  {
  }
}
