/** The weight form of the upload flow: the keystroke filter (the pattern
    `^\d*\.?\d*$`), `parseFloat` on the strings that filter lets through,
    and the submit check. */
module WeightInput {
  import opened Base

  predicate IsDigit(c: char)
  {
    '0' <= c <= '9'
  }

  predicate AllDigits(s: string)
  {
    forall i :: 0 <= i < |s| ==> IsDigit(s[i])
  }

  /** The pattern `^\d*\.?\d*$` as written: digits, at most one point,
      digits. */
  ghost predicate MatchesPattern(s: string)
  {
    exists a: string, b: string ::
      AllDigits(a) && AllDigits(b) && (s == a + b || s == a + "." + b)
  }

  /** Where the first point is; the length when there is none. */
  function PointAt(s: string): (i: nat)
    ensures i <= |s|
    ensures forall j :: 0 <= j < i ==> s[j] != '.'
    ensures i < |s| ==> s[i] == '.'
  {
    if |s| == 0 then 0 else if s[0] == '.' then 0 else 1 + PointAt(s[1..])
  }

  /** The text before the first point. */
  function Whole(s: string): string
  {
    s[..PointAt(s)]
  }

  /** The text after the first point; none when there is no point. */
  function Fraction(s: string): string
  {
    if PointAt(s) < |s| then s[PointAt(s) + 1..] else ""
  }

  /** The check the form performs: digits up to the first point, and only
      digits after it. */
  predicate Accepts(s: string)
  {
    AllDigits(Whole(s)) && AllDigits(Fraction(s))
  }

  /** A string is its whole part, then the point and the fraction if there
      is a point. */
  lemma WholeAndFraction(s: string)
    ensures PointAt(s) == |s| ==> s == Whole(s) && Fraction(s) == ""
    ensures PointAt(s) < |s| ==> s == Whole(s) + "." + Fraction(s)
  {
    var i := PointAt(s);
    if i < |s| {
      SplitAtPoint(s, i);
    } else {
      assert s[..i] == s;
    }
  }

  /** A string with a point at `i` is the text before it, the point and the
      text after it. */
  lemma SplitAtPoint(s: string, i: nat)
    requires i < |s| && s[i] == '.'
    ensures s == s[..i] + "." + s[i + 1..]
  {
    var t := s[..i] + "." + s[i + 1..];
    assert |t| == |s|;
    forall k | 0 <= k < |s|
      ensures t[k] == s[k]
    {
      if k < i { assert t[k] == s[..i][k]; }
      else if k == i { assert t[k] == '.'; }
      else { assert t[k] == s[i + 1..][k - i - 1]; }
    }
  }

  /** What the check accepts fits the pattern: the whole part and the
      fraction are the two runs of digits. */
  lemma AcceptedMatches(s: string)
    requires Accepts(s)
    ensures MatchesPattern(s)
  {
    WholeAndFraction(s);
    if PointAt(s) == |s| {
      assert s == Whole(s) + Fraction(s);
    }
  }

  /** What fits the pattern passes the check: the point of the pattern, if
      any, is the first point. */
  lemma MatchedAccepts(s: string, a: string, b: string)
    requires AllDigits(a) && AllDigits(b) && (s == a + b || s == a + "." + b)
    ensures Accepts(s)
  {
    if s == a + b {
      forall j | 0 <= j < |s| ensures s[j] != '.' {
        if j < |a| { assert s[j] == a[j]; } else { assert s[j] == b[j - |a|]; }
      }
      assert PointAt(s) == |s|;
      assert Whole(s) == s;
      forall j | 0 <= j < |s| ensures IsDigit(s[j]) {
        if j < |a| { assert s[j] == a[j]; } else { assert s[j] == b[j - |a|]; }
      }
    } else {
      assert forall j :: 0 <= j < |a| ==> s[j] == a[j];
      assert s[|a|] == '.';
      assert PointAt(s) == |a|;
      assert Whole(s) == a;
      assert Fraction(s) == b;
    }
  }

  /** The check recognises exactly the pattern. */
  lemma AcceptsIffPattern(s: string)
    ensures Accepts(s) <==> MatchesPattern(s)
  {
    if Accepts(s) {
      AcceptedMatches(s);
    }
    if MatchesPattern(s) {
      var a, b :| AllDigits(a) && AllDigits(b) && (s == a + b || s == a + "." + b);
      MatchedAccepts(s, a, b);
    }
  }

  /** The value of a string of decimal digits. */
  function DigitsValue(d: string): (v: nat)
    requires AllDigits(d)
  {
    if |d| == 0 then 0 else DigitsValue(d[..|d| - 1]) * 10 + (d[|d| - 1] as int - '0' as int)
  }

  function Pow10(n: nat): (p: nat)
    ensures p >= 1
  {
    if n == 0 then 1 else 10 * Pow10(n - 1)
  }

  /** A string of digits has a non-zero value exactly when one of its digits
      is not `0`. */
  lemma {:induction false} DigitsValuePositive(d: string)
    requires AllDigits(d)
    ensures DigitsValue(d) > 0 <==> exists i :: 0 <= i < |d| && d[i] != '0'
    decreases |d|
  {
    if |d| > 0 {
      var p := d[..|d| - 1];
      DigitsValuePositive(p);
      assert forall i :: 0 <= i < |p| ==> p[i] == d[i];
      if exists i :: 0 <= i < |d| && d[i] != '0' {
        var i :| 0 <= i < |d| && d[i] != '0';
        if i < |p| {
          assert p[i] != '0';
        }
      }
    }
  }

  /** `parseFloat` on a string the form accepts: the whole part, then the
      fraction after the point; `None` (NaN) when there are no digits at
      all. */
  function ParseWeight(s: string): (r: Option<real>)
    requires Accepts(s)
    ensures r.None? <==> s == "" || s == "."
    ensures r.Some? ==> r.value >= 0.0
  {
    WholeAndFraction(s);
    var whole, fraction := Whole(s), Fraction(s);
    if |whole| == 0 && |fraction| == 0 then None
    else Some(DigitsValue(whole) as real + DigitsValue(fraction) as real / Pow10(|fraction|) as real)
  }

  /** Examples: `5.` is 5, `.5` is one half, `1.25` is 1.25, `.` is NaN. */
  lemma ParseExamples()
    ensures Accepts("5.") && Accepts(".5") && Accepts("1.25") && Accepts(".")
    ensures ParseWeight("5.") == Some(5.0)
    ensures ParseWeight(".5") == Some(0.5)
    ensures ParseWeight("1.25") == Some(1.25)
    ensures ParseWeight(".") == None
  {
    assert PointAt("5.") == 1;
    assert PointAt(".5") == 0;
    assert PointAt("1.25") == 1;
    assert "1.25"[2..] == "25" && "25"[..1] == "2";
    assert DigitsValue("25") == 25;
  }

  /** The form's state. */
  datatype WeightForm = WeightForm(weight: string, error: Option<string>)

  const InitialForm := WeightForm("", None)

  const InvalidWeightMessage := "Please enter a valid weight greater than zero"

  /** The component keeps only strings the filter accepted. */
  predicate Invariant(f: WeightForm)
  {
    Accepts(f.weight)
  }

  /** `handleWeightChange`: an accepted value replaces the weight and
      clears the error; anything else is ignored. */
  function Change(f: WeightForm, value: string): (r: WeightForm)
    ensures Accepts(value) ==> r == WeightForm(value, None)
    ensures !Accepts(value) ==> r == f
    ensures Invariant(f) ==> Invariant(r)
  {
    if Accepts(value) || value == "" then WeightForm(value, None) else f
  }

  /** `handleSubmit`: the form after the click and the weight handed to
      `onWeightSubmit`, if it is called. */
  function Submit(f: WeightForm): (r: (WeightForm, Option<real>))
    requires Invariant(f)
    ensures r.1.Some? ==> ParseWeight(f.weight) == r.1 && r.1.value > 0.0 && r.0 == f
    ensures r.1.None? ==> r.0 == f.(error := Some(InvalidWeightMessage))
  {
    if f.weight == "" || f.weight == "0" || f.weight == "0.0" then (f.(error := Some(InvalidWeightMessage)), None)
    else
      match ParseWeight(f.weight)
      case None => (f.(error := Some(InvalidWeightMessage)), None)
      case Some(v) =>
        if v <= 0.0 then (f.(error := Some(InvalidWeightMessage)), None)
        else (f, Some(v))
  }

  /** `s` holds a digit other than `0`. */
  predicate HasNonZeroDigit(s: string)
  {
    exists i :: 0 <= i < |s| && '1' <= s[i] <= '9'
  }

  /** In an accepted string, a non-zero digit sits in the whole part or in
      the fraction. */
  lemma NonZeroDigitInPart(s: string)
    requires Accepts(s)
    ensures HasNonZeroDigit(s) <==> HasNonZeroDigit(Whole(s)) || HasNonZeroDigit(Fraction(s))
  {
    var i, w, f := PointAt(s), Whole(s), Fraction(s);
    assert |w| == i && forall j :: 0 <= j < i ==> w[j] == s[j];
    assert i < |s| ==> |f| == |s| - i - 1 && forall j :: 0 <= j < |f| ==> f[j] == s[i + 1 + j];
    assert i == |s| ==> f == "";
    if HasNonZeroDigit(s) {
      var j :| 0 <= j < |s| && '1' <= s[j] <= '9';
      if j < i {
        assert '1' <= w[j] <= '9';
      } else {
        assert j != i;
        assert '1' <= f[j - i - 1] <= '9';
      }
    }
    if HasNonZeroDigit(w) {
      var j :| 0 <= j < |w| && '1' <= w[j] <= '9';
      assert '1' <= s[j] <= '9';
    }
    if HasNonZeroDigit(f) {
      var j :| 0 <= j < |f| && '1' <= f[j] <= '9';
      assert '1' <= s[i + 1 + j] <= '9';
    }
  }

  /** `parseFloat` gives a positive number exactly when the text holds a
      digit other than `0`. */
  lemma ParsePositiveIffNonZeroDigit(s: string)
    requires Accepts(s)
    ensures (ParseWeight(s).Some? && ParseWeight(s).value > 0.0) <==> HasNonZeroDigit(s)
  {
    NonZeroDigitInPart(s);
    var w, f := Whole(s), Fraction(s);
    DigitsValuePositive(w);
    DigitsValuePositive(f);
    assert HasNonZeroDigit(w) <==> exists i :: 0 <= i < |w| && w[i] != '0';
    assert HasNonZeroDigit(f) <==> exists i :: 0 <= i < |f| && f[i] != '0';
    if |w| > 0 || |f| > 0 {
      var p := Pow10(|f|) as real;
      assert DigitsValue(f) as real / p > 0.0 <==> DigitsValue(f) > 0;
    }
  }

  /** A weight is submitted exactly when the text holds a digit other than
      `0`: `''`, `'0'`, `'0.0'`, `'.'`, `'00'` and `'0.000'` are all refused
      with the same message. */
  lemma SubmitsIffNonZeroDigit(f: WeightForm)
    requires Invariant(f)
    ensures Submit(f).1.Some? <==> HasNonZeroDigit(f.weight)
  {
    ParsePositiveIffNonZeroDigit(f.weight);
    if f.weight == "0" || f.weight == "0.0" {
      assert !HasNonZeroDigit(f.weight);
    }
  }

  /** Neither the filter nor a submit ever leaves a string the filter would
      refuse. */
  lemma InvariantKept(f: WeightForm, value: string)
    requires Invariant(f)
    ensures Invariant(InitialForm)
    ensures Invariant(Change(f, value))
    ensures Invariant(Submit(f).0)
  {
  }
}
