/** JavaScript numbers as the forms use them: `Number(text)` on an input's text,
    `n.toString()` when a record is copied back into a form, and `n || 0`. A number is
    a finite decimal (an integer mantissa scaled by a power of ten) or NaN. */
module JsNumbers {
  import opened Text

  /** `Num(m, k)` is the value m / 10^k; NaN is JavaScript's not-a-number. */
  datatype JsNumber = Num(mantissa: int, scale: nat) | NaN

  /** One representation per value: no trailing zero after the decimal point. */
  predicate Canonical(x: JsNumber)
  {
    x.NaN? || x.scale == 0 || x.mantissa % 10 != 0
  }

  /** A JavaScript number value. */
  type Number = x: JsNumber | Canonical(x) witness NaN

  /** A number other than NaN, which is what `x || 0` produces. */
  type Finite = x: Number | x.Num? witness Num(0, 0)

  const Zero: Finite := Num(0, 0)

  /** The value a finite number denotes. */
  function Value(x: Finite): (r: real)
    ensures x.mantissa >= 0 ==> r >= 0.0
    ensures x.scale == 0 ==> r == x.mantissa as real
  {
    x.mantissa as real / Pow10(x.scale) as real
  }

  // -------------------------------------------------------------- Number(text)

  /** The white space `Number` strips from both ends (ASCII part). */
  predicate IsSpace(c: char)
  {
    c == ' ' || c == '\t' || c == '\n' || c == '\r'
  }

  /** The text without its leading white space. */
  function TrimStart(s: string): (r: string)
    ensures |r| <= |s|
    ensures r != [] ==> !IsSpace(r[0])
  {
    if s != [] && IsSpace(s[0]) then TrimStart(s[1..]) else s
  }

  /** The text without its trailing white space. */
  function TrimEnd(s: string): (r: string)
    ensures |r| <= |s|
    ensures r != [] ==> !IsSpace(r[|r| - 1])
  {
    if s != [] && IsSpace(s[|s| - 1]) then TrimEnd(s[..|s| - 1]) else s
  }

  function Trim(s: string): string
  {
    TrimEnd(TrimStart(s))
  }

  /** The characters a decimal numeral is written with. */
  predicate NumeralChar(c: char)
  {
    IsDigit(c) || c == '.' || c == '+' || c == '-'
  }

  /** The length of the run of digits `u` starts with. */
  function LeadingDigits(u: string): (n: nat)
    ensures n <= |u| && AllDigits(u[..n])
    ensures n < |u| ==> !IsDigit(u[n])
  {
    if u != [] && IsDigit(u[0]) then
      var m := LeadingDigits(u[1..]);
      assert u[..m + 1] == [u[0]] + u[1..][..m];
      m + 1
    else 0
  }

  /** The number `m / 10^k` with the trailing zeros of its fraction removed. */
  function Normalize(m: nat, k: nat): (r: Finite)
    ensures r.mantissa >= 0 && r.scale <= k
    ensures r.mantissa * Pow10(k - r.scale) == m
    decreases k
  {
    if k > 0 && m % 10 == 0 then
      var r := Normalize(m / 10, k - 1);
      assert Pow10(k - r.scale) == 10 * Pow10(k - 1 - r.scale);
      assert r.mantissa * Pow10(k - r.scale) == 10 * (r.mantissa * Pow10(k - 1 - r.scale));
      r
    else Num(m, k)
  }

  /** An unsigned decimal numeral: digits, optionally a point and more digits, and at
      least one digit in all ("5", "5.", ".5", "12.99"); anything else is NaN. */
  function Unsigned(u: string): (r: Number)
    ensures r.Num? ==> r.mantissa >= 0 && u != []
    ensures r.Num? ==> forall i :: 0 <= i < |u| ==> IsDigit(u[i]) || u[i] == '.'
  {
    var n := LeadingDigits(u);
    if n == |u| then
      assert u[..n] == u;
      if u == [] then NaN else Num(DigitsValue(u), 0)
    else if u[n] == '.' && AllDigits(u[n + 1..]) && |u| > 1 then
      AllDigitsAppend(u[..n], u[n + 1..]);
      assert forall i :: 0 <= i < |u| && i != n ==> IsDigit(u[i]) by {
        forall i | 0 <= i < |u| && i != n ensures IsDigit(u[i]) {
          if i < n { assert u[i] == u[..n][i]; } else { assert u[i] == u[n + 1..][i - n - 1]; }
        }
      }
      Normalize(DigitsValue(u[..n] + u[n + 1..]), |u| - n - 1)
    else NaN
  }

  /** Unary minus. */
  function Negate(x: Number): (r: Number)
    ensures r.Num? <==> x.Num?
    ensures x.Num? ==> r.mantissa == -x.mantissa && r.scale == x.scale
  {
    match x
    case NaN => NaN
    case Num(m, k) => Num(-m, k)
  }

  /** `Number(s)`: blank text is 0; an optionally signed decimal numeral is its value;
      anything else is NaN. */
  function ToNumber(s: string): (r: Number)
    ensures Trim(s) == [] ==> r == Zero
    ensures r.Num? ==> forall i :: 0 <= i < |Trim(s)| ==> NumeralChar(Trim(s)[i])
  {
    var t := Trim(s);
    if t == [] then Zero
    else if t[0] == '-' then
      assert forall i :: 1 <= i < |t| ==> t[i] == t[1..][i - 1];
      Negate(Unsigned(t[1..]))
    else if t[0] == '+' then
      assert forall i :: 1 <= i < |t| ==> t[i] == t[1..][i - 1];
      Unsigned(t[1..])
    else Unsigned(t)
  }

  // --------------------------------------------------------------- toString

  /** The unsigned text of a / 10^k: integer digits, then a point and `k` fraction digits
      when `k` is positive. */
  function Magnitude(a: nat, k: nat): (s: string)
    ensures s != [] && IsDigit(s[0]) && IsDigit(s[|s| - 1])
  {
    if k == 0 then NatToDigits(a)
    else
      var d, p := NatToDigits(DropDigits(a, k)), Pad(a, k);
      var s := d + "." + p;
      assert s[0] == d[0] && s[|s| - 1] == p[k - 1];
      s
  }

  /** `x.toString()` */
  function NumberToString(x: JsNumber): (s: string)
    ensures x.NaN? <==> s == "NaN"
    ensures x.Num? ==> s != [] && (s[0] == '-' <==> x.mantissa < 0)
  {
    match x
    case NaN => "NaN"
    case Num(m, k) =>
      var s := if m < 0 then "-" + Magnitude(-m, k) else Magnitude(m, k);
      assert s[0] != 'N';
      s
  }

  // ------------------------------------------------------------------ x || 0

  /** `x || 0`: NaN and 0 are falsy and become 0; every other number is kept. */
  function OrZero(x: Number): (r: Finite)
    ensures x.Num? ==> r == x
    ensures x.NaN? ==> r == Zero
  {
    if x.NaN? || x == Zero then Zero else x
  }

  /** `Number(s) || 0`, the coercion applied to every numeric form field: the text is
      stored as 0 exactly when `Number` reads it as NaN or as 0. */
  function Coerce(s: string): (r: Finite)
    ensures r == Zero <==> ToNumber(s).NaN? || ToNumber(s) == Zero
  {
    OrZero(ToNumber(s))
  }

  // ------------------------------------------------------------------ lemmas

  /** A run of digits followed by a non-digit is the leading run. */
  lemma {:induction false} LeadingDigitsOf(d: string, rest: string)
    requires AllDigits(d)
    requires rest == [] || !IsDigit(rest[0])
    ensures LeadingDigits(d + rest) == |d|
    decreases |d|
  {
    if d != [] {
      assert (d + rest)[1..] == d[1..] + rest;
      LeadingDigitsOf(d[1..], rest);
    } else {
      assert d + rest == rest;
    }
  }

  /** The unsigned text of a canonical magnitude parses back to it. */
  lemma MagnitudeRoundTrip(a: nat, k: nat)
    requires k == 0 || a % 10 != 0
    ensures Unsigned(Magnitude(a, k)) == Num(a, k)
  {
    var u := Magnitude(a, k);
    if k == 0 {
      LeadingDigitsOf(u, []);
      assert u + [] == u;
      DigitsRoundTrip(a);
    } else {
      var d, p := NatToDigits(DropDigits(a, k)), Pad(a, k);
      assert u == d + ("." + p);
      LeadingDigitsOf(d, "." + p);
      assert u[|d|] == '.' && u[|d| + 1..] == p && u[..|d|] == d;
      DigitsValueAppend(d, p);
      DigitsRoundTrip(DropDigits(a, k));
      PadSplit(a, k);
      assert DigitsValue(d + p) == a;
    }
  }

  /** Text with no white space at either end is its own trim. */
  lemma TrimUnchanged(s: string)
    requires s != [] && !IsSpace(s[0]) && !IsSpace(s[|s| - 1])
    ensures Trim(s) == s
  {
  }

  /** `Number(x.toString())` is `x`: copying a number into a form and submitting it
      unchanged stores the same number. */
  lemma NumberRoundTrip(x: Number)
    ensures ToNumber(NumberToString(x)) == x
  {
    var t := NumberToString(x);
    match x
    case NaN =>
      TrimUnchanged(t);
      assert !IsDigit(t[0]) && t[0] != '.';
    case Num(m, k) =>
      if m < 0 {
        NegativeRoundTrip(m, k);
      } else {
        MagnitudeRoundTrip(m, k);
        TrimUnchanged(t);
      }
  }

  /** `NumberRoundTrip` for a negative number: the sign, then its magnitude. */
  lemma NegativeRoundTrip(m: int, k: nat)
    requires m < 0 && Canonical(Num(m, k))
    ensures ToNumber(NumberToString(Num(m, k))) == Num(m, k)
  {
    var u := Magnitude(-m, k);
    assert NumberToString(Num(m, k)) == "-" + u;
    NegatedCanonical(m, k);
    MagnitudeRoundTrip(-m, k);
    SignedText(u);
  }

  /** The magnitude of a canonical negative number is canonical. */
  lemma NegatedCanonical(m: int, k: nat)
    requires m < 0 && Canonical(Num(m, k))
    ensures k == 0 || (-m) % 10 != 0
  {
  }

  /** A minus sign before an unsigned numeral negates it. */
  lemma SignedText(u: string)
    requires u != [] && IsDigit(u[0]) && IsDigit(u[|u| - 1])
    ensures ToNumber("-" + u) == Negate(Unsigned(u))
  {
    var t := "-" + u;
    TrimUnchanged(t);
    assert t[0] == '-' && t[1..] == u;
  }

  /** The form coercion gives back any number written by `toString`. */
  lemma CoerceRoundTrip(n: Finite)
    ensures Coerce(NumberToString(n)) == n
  {
    NumberRoundTrip(n);
  }

  lemma ShortFractionText()
    ensures NumberToString(Num(9, 1)) == "0.9" && NumberToString(Num(-25, 1)) == "-2.5"
  {
    assert DigitChar(0) == '0' && DigitChar(2) == '2' && DigitChar(5) == '5' && DigitChar(9) == '9';
    assert Magnitude(9, 1) == NatToDigits(0) + "." + Pad(9, 1);
    assert Magnitude(25, 1) == NatToDigits(2) + "." + Pad(25, 1);
  }

  lemma PriceText()
    ensures NumberToString(Num(1299, 2)) == "12.99"
  {
    assert DigitChar(1) == '1' && DigitChar(2) == '2' && DigitChar(9) == '9';
    assert NatToDigits(12) == NatToDigits(1) + [DigitChar(2)];
    assert Pad(1299, 2) == Pad(129, 1) + [DigitChar(9)];
    assert Magnitude(1299, 2) == NatToDigits(12) + "." + Pad(1299, 2);
  }

  /** `CoerceRoundTrip` for every number at once. */
  lemma CoerceReadsBack()
    ensures forall n: Finite :: Coerce(NumberToString(n)) == n
  {
    forall n: Finite ensures Coerce(NumberToString(n)) == n {
      CoerceRoundTrip(n);
    }
  }

  /** Decimal input as the number inputs produce it keeps its fraction. */
  lemma DecimalInput()
    ensures Coerce("0.9") == Num(9, 1)
    ensures Coerce("12.99") == Num(1299, 2)
    ensures Coerce("-2.5") == Num(-25, 1)
  {
    ShortFractionText();
    PriceText();
    CoerceRoundTrip(Num(9, 1));
    CoerceRoundTrip(Num(1299, 2));
    CoerceRoundTrip(Num(-25, 1));
  }

  /** Empty or blank input is stored as 0. */
  lemma {:induction false} CoerceBlank(s: string)
    requires forall i :: 0 <= i < |s| ==> IsSpace(s[i])
    ensures ToNumber(s) == Zero && Coerce(s) == Zero
  {
    BlankTrimStart(s);
  }

  lemma {:induction false} BlankTrimStart(s: string)
    requires forall i :: 0 <= i < |s| ==> IsSpace(s[i])
    ensures TrimStart(s) == []
  {
    if s != [] {
      BlankTrimStart(s[1..]);
    }
  }

  /** A character that no JavaScript numeral contains: printable ASCII punctuation other
      than a sign or a point (letters are left out, since `e`, `x` and `Infinity` belong
      to numerals). */
  predicate IsForeign(c: char)
  {
    '!' <= c <= '~' && !NumeralChar(c) && !('a' <= c <= 'z') && !('A' <= c <= 'Z')
  }

  /** Trimming the start drops a prefix of white space. */
  lemma {:induction false} TrimStartSuffix(s: string)
    ensures TrimStart(s) == s[|s| - |TrimStart(s)|..]
    ensures forall j :: 0 <= j < |s| - |TrimStart(s)| ==> IsSpace(s[j])
  {
    if s != [] && IsSpace(s[0]) {
      TrimStartSuffix(s[1..]);
    }
  }

  /** Trimming the end drops a suffix of white space. */
  lemma {:induction false} TrimEndPrefix(s: string)
    ensures TrimEnd(s) == s[..|TrimEnd(s)|]
    ensures forall j :: |TrimEnd(s)| <= j < |s| ==> IsSpace(s[j])
  {
    if s != [] && IsSpace(s[|s| - 1]) {
      TrimEndPrefix(s[..|s| - 1]);
    }
  }

  /** A character that is not white space survives the trim. */
  lemma TrimKeeps(s: string, i: int)
    requires 0 <= i < |s| && !IsSpace(s[i])
    ensures s[i] in Trim(s)
  {
    TrimStartSuffix(s);
    TrimEndPrefix(TrimStart(s));
    var a := TrimStart(s);
    var off := |s| - |a|;
    assert a[i - off] == s[i];
    var b := TrimEnd(a);
    assert b[i - off] == a[i - off];
  }

  /** Text holding a foreign character is NaN, and the coercion stores 0 for it. */
  lemma CoerceUnparsable(s: string, i: int)
    requires 0 <= i < |s| && IsForeign(s[i])
    ensures ToNumber(s) == NaN && Coerce(s) == Zero
  {
    TrimKeeps(s, i);
    var t := Trim(s);
    var j :| 0 <= j < |t| && t[j] == s[i];
    assert !NumeralChar(t[j]);
  }
}
