/** The string operations the filters use: `toLowerCase`, `includes`, and the
    calendar-date comparison that `new Date("YYYY-MM-DD")` gives them. */
module Text {
  import opened Collections

  /** `toLowerCase` on one character, for the ASCII letters only. */
  function LowerChar(c: char): (r: char)
    ensures 'A' <= c <= 'Z' ==> r as int == c as int + 32
    ensures !('A' <= c <= 'Z') ==> r == c
    ensures !('A' <= r <= 'Z')
  {
    if 'A' <= c <= 'Z' then (c as int + 32) as char else c
  }

  /** `s.toLowerCase()`: same length, every letter lower-cased, no upper-case letter left. */
  function Lower(s: string): (r: string)
    ensures |r| == |s|
    ensures forall i :: 0 <= i < |s| ==> r[i] == LowerChar(s[i])
    ensures forall i :: 0 <= i < |r| ==> !('A' <= r[i] <= 'Z')
  {
    seq(|s|, i requires 0 <= i < |s| => LowerChar(s[i]))
  }

  /** `hay.startsWith(needle)` */
  predicate StartsWith(hay: string, needle: string)
  {
    |needle| <= |hay| && hay[..|needle|] == needle
  }

  /** `hay.includes(needle)`: `needle` occurs somewhere in `hay`. */
  predicate Includes(hay: string, needle: string): (r: bool)
    ensures StartsWith(hay, needle) ==> r
    ensures r ==> |needle| <= |hay|
    decreases |hay|
  {
    StartsWith(hay, needle) || (hay != [] && Includes(hay[1..], needle))
  }

  /** `needle` occurs in `hay` starting at offset `k`. */
  predicate OccursAt(hay: string, needle: string, k: int)
  {
    0 <= k && k + |needle| <= |hay| && hay[k..k + |needle|] == needle
  }

  /** `includes` reports an occurrence exactly when one exists at some offset. */
  lemma {:induction false} IncludesAt(hay: string, needle: string)
    ensures Includes(hay, needle) <==> exists k :: OccursAt(hay, needle, k)
    decreases |hay|
  {
    if hay != [] {
      IncludesAt(hay[1..], needle);
      if Includes(hay[1..], needle) && !StartsWith(hay, needle) {
        var k :| OccursAt(hay[1..], needle, k);
        assert hay[1..][k..k + |needle|] == hay[k + 1..k + 1 + |needle|];
        assert OccursAt(hay, needle, k + 1);
      }
      if StartsWith(hay, needle) {
        assert OccursAt(hay, needle, 0);
      }
      if exists k :: OccursAt(hay, needle, k) {
        var k :| OccursAt(hay, needle, k);
        if k > 0 {
          assert hay[1..][k - 1..k - 1 + |needle|] == hay[k..k + |needle|];
          assert OccursAt(hay[1..], needle, k - 1);
        } else {
          assert StartsWith(hay, needle);
        }
      }
    } else {
      if StartsWith(hay, needle) {
        assert OccursAt(hay, needle, 0);
      }
      if exists k :: OccursAt(hay, needle, k) {
        var k :| OccursAt(hay, needle, k);
        assert k == 0 && needle == [];
        assert StartsWith(hay, needle);
      }
    }
  }

  /** The empty search term is found in every field. */
  lemma EmptyIncluded(hay: string)
    ensures Includes(Lower(hay), Lower(""))
  {
    assert StartsWith(Lower(hay), []);
  }

  /** Case-insensitive `includes`, as every search box writes it: the empty term matches
      every field, and a term longer than the field matches none. */
  predicate MatchesTerm(field: string, term: string): (r: bool)
    ensures term == [] ==> r
    ensures r ==> |term| <= |field|
  {
    assert term == [] ==> StartsWith(Lower(field), Lower(term));
    Includes(Lower(field), Lower(term))
  }

  /** A calendar day, the value `new Date("YYYY-MM-DD")` denotes (time of day is always midnight UTC). */
  datatype Day = Day(year: int, month: int, day: int)

  predicate IsDigit(c: char)
  {
    '0' <= c <= '9'
  }

  function DigitValue(c: char): (d: nat)
    requires IsDigit(c)
    ensures d < 10
  {
    c as int - '0' as int
  }

  /** The value of a string of decimal digits, most significant first. */
  function DigitsValue(s: string): (n: nat)
    requires forall i :: 0 <= i < |s| ==> IsDigit(s[i])
  {
    if s == [] then 0 else DigitsValue(s[..|s| - 1]) * 10 + DigitValue(s[|s| - 1])
  }

  predicate AllDigits(s: string)
  {
    forall i :: 0 <= i < |s| ==> IsDigit(s[i])
  }

  function Pow10(n: nat): (r: nat)
    ensures r >= 1
  {
    if n == 0 then 1 else 10 * Pow10(n - 1)
  }

  function DigitChar(d: nat): (c: char)
    requires d < 10
    ensures IsDigit(c) && DigitValue(c) == d
  {
    ('0' as int + d) as char
  }

  /** The decimal digits of `n`, without leading zeros. */
  function NatToDigits(n: nat): (s: string)
    ensures s != [] && AllDigits(s)
    decreases n
  {
    if n < 10 then [DigitChar(n)] else NatToDigits(n / 10) + [DigitChar(n % 10)]
  }

  /** The last `k` decimal digits of `r`, with leading zeros. */
  function Pad(r: nat, k: nat): (s: string)
    ensures |s| == k && AllDigits(s)
    ensures k > 0 ==> s[k - 1] == DigitChar(r % 10)
  {
    if k == 0 then [] else Pad(r / 10, k - 1) + [DigitChar(r % 10)]
  }

  /** `a` without its last `k` decimal digits, that is a / 10^k. */
  function DropDigits(a: nat, k: nat): nat
  {
    if k == 0 then a else DropDigits(a / 10, k - 1)
  }

  lemma AllDigitsAppend(a: string, b: string)
    requires AllDigits(a) && AllDigits(b)
    ensures AllDigits(a + b)
  {
    assert forall i :: 0 <= i < |a + b| ==> (a + b)[i] == if i < |a| then a[i] else b[i - |a|];
  }

  /** Reading back the digits of `n` gives `n`. */
  lemma {:induction false} DigitsRoundTrip(n: nat)
    ensures DigitsValue(NatToDigits(n)) == n
    decreases n
  {
    if n >= 10 {
      DigitsRoundTrip(n / 10);
      var s := NatToDigits(n);
      assert s[..|s| - 1] == NatToDigits(n / 10);
    }
  }

  /** The value of two digit strings written one after the other. */
  lemma {:induction false} DigitsValueAppend(a: string, b: string)
    requires AllDigits(a) && AllDigits(b)
    ensures AllDigits(a + b)
    ensures DigitsValue(a + b) == DigitsValue(a) * Pow10(|b|) + DigitsValue(b)
    decreases |b|
  {
    AllDigitsAppend(a, b);
    if b == [] {
      assert a + b == a;
    } else {
      var b' := b[..|b| - 1];
      assert (a + b)[..|a + b| - 1] == a + b';
      DigitsValueAppend(a, b');
      var c := DigitValue(b[|b| - 1]);
      assert DigitsValue(a + b) == DigitsValue(a + b') * 10 + c;
      assert DigitsValue(b) == DigitsValue(b') * 10 + c;
      assert Pow10(|b|) == Pow10(|b'|) * 10;
      AppendDigit(DigitsValue(a), DigitsValue(b'), Pow10(|b'|), c);
    }
  }

  /** Arithmetic step of `DigitsValueAppend`: one more digit written after both parts. */
  lemma AppendDigit(x: nat, y: nat, p: nat, c: nat)
    ensures (x * p + y) * 10 + c == x * (p * 10) + (y * 10 + c)
  {
    assert x * (p * 10) == (x * p) * 10;
  }

  /** The padded last `k` digits and the digits before them make up the number again. */
  lemma {:induction false} PadSplit(r: nat, k: nat)
    ensures DigitsValue(Pad(r, k)) + DropDigits(r, k) * Pow10(k) == r
  {
    if k > 0 {
      PadSplit(r / 10, k - 1);
      var s := Pad(r, k);
      assert s[..k - 1] == Pad(r / 10, k - 1);
      var v, q, p := DigitsValue(Pad(r / 10, k - 1)), DropDigits(r, k), Pow10(k - 1);
      assert DigitsValue(s) == v * 10 + r % 10;
      assert Pow10(k) == 10 * p;
      ShiftDigit(r, v, q, p);
    }
  }

  /** Arithmetic step of `PadSplit`: one more digit moved from the front part to the padding. */
  lemma ShiftDigit(r: nat, v: nat, q: nat, p: nat)
    requires v + q * p == r / 10
    ensures v * 10 + r % 10 + q * (10 * p) == r
  {
    assert q * (10 * p) == 10 * (q * p);
    assert (v + q * p) * 10 == v * 10 + 10 * (q * p);
  }

  /** A number below 10^k has nothing left once its last `k` digits are dropped. */
  lemma {:induction false} DropSmall(r: nat, k: nat)
    requires r < Pow10(k)
    ensures DropDigits(r, k) == 0
  {
    if k > 0 {
      DropSmall(r / 10, k - 1);
    }
  }

  /** `k` padded digits of a number below 10^k read back as the number. */
  lemma PadRoundTrip(r: nat, k: nat)
    requires r < Pow10(k)
    ensures DigitsValue(Pad(r, k)) == r
  {
    PadSplit(r, k);
    DropSmall(r, k);
  }

  /** `new Date(s)` for the `YYYY-MM-DD` strings the date inputs and the records hold;
      any other shape, a month outside 1..12 or a day outside 1..31, is an Invalid Date. */
  function ParseIsoDate(s: string): (r: Option<Day>)
    ensures r.Some? ==> |s| == 10 && s[4] == '-' && s[7] == '-'
    ensures r.Some? ==> ValidDay(r.value) && s == FormatIsoDate(r.value)
  {
    if |s| == 10 && s[4] == '-' && s[7] == '-'
       && AllDigits(s[..4]) && AllDigits(s[5..7]) && AllDigits(s[8..])
    then
      var y, m, d := DigitsValue(s[..4]), DigitsValue(s[5..7]), DigitsValue(s[8..]);
      if 1 <= m <= 12 && 1 <= d <= 31 then
        DateTextOfDigits(s);
        Some(Day(y, m, d))
      else None
    else None
  }

  /** A `YYYY-MM-DD` text of digits is the ISO text of the day its digits spell. */
  lemma DateTextOfDigits(s: string)
    requires |s| == 10 && s[4] == '-' && s[7] == '-'
    requires AllDigits(s[..4]) && AllDigits(s[5..7]) && AllDigits(s[8..])
    requires 1 <= DigitsValue(s[5..7]) <= 12 && 1 <= DigitsValue(s[8..]) <= 31
    ensures var d := Day(DigitsValue(s[..4]), DigitsValue(s[5..7]), DigitsValue(s[8..]));
      ValidDay(d) && s == FormatIsoDate(d)
  {
    DigitsBound(s[..4]);
    assert Pow10(4) == 10000;
    PadDigits(s[..4]);
    PadDigits(s[5..7]);
    PadDigits(s[8..]);
    assert s == s[..4] + "-" + s[5..7] + "-" + s[8..];
  }

  /** A string of `k` digits denotes a number below 10^k. */
  lemma {:induction false} DigitsBound(t: string)
    requires AllDigits(t)
    ensures DigitsValue(t) < Pow10(|t|)
    decreases |t|
  {
    if t != [] {
      DigitsBound(t[..|t| - 1]);
    }
  }

  /** Padding the value of a digit string to its own length gives the string back. */
  lemma {:induction false} PadDigits(t: string)
    requires AllDigits(t)
    ensures Pad(DigitsValue(t), |t|) == t
    decreases |t|
  {
    if t != [] {
      var t', c := t[..|t| - 1], t[|t| - 1];
      PadDigits(t');
      var n, v := DigitsValue(t), DigitValue(c);
      assert n == DigitsValue(t') * 10 + v;
      LastDigit(DigitsValue(t'), v);
      assert Pad(n, |t|) == Pad(DigitsValue(t'), |t'|) + [DigitChar(v)];
      assert DigitChar(v) == c;
      assert t == t' + [c];
    }
  }

  /** The quotient and remainder by 10 of a number with one more digit written after it. */
  lemma LastDigit(a: nat, b: nat)
    requires b < 10
    ensures (a * 10 + b) / 10 == a && (a * 10 + b) % 10 == b
  {
  }

  /** Calendar order on days. */
  predicate DayLe(a: Day, b: Day)
  {
    a.year < b.year
    || (a.year == b.year && a.month < b.month)
    || (a.year == b.year && a.month == b.month && a.day <= b.day)
  }

  /** `date >= new Date(from) && date <= new Date(to)`: comparing an Invalid Date is always
      false, so a date is in range only when all three are valid and the range is not empty. */
  predicate InDateRange(date: string, from: string, to: string): (r: bool)
    ensures r ==> ParseIsoDate(date).Some? && ParseIsoDate(from).Some? && ParseIsoDate(to).Some?
    ensures r ==> DayLe(ParseIsoDate(from).value, ParseIsoDate(to).value)
  {
    var d, f, t := ParseIsoDate(date), ParseIsoDate(from), ParseIsoDate(to);
    d.Some? && f.Some? && t.Some? && DayLe(f.value, d.value) && DayLe(d.value, t.value)
  }

  /** A range whose start comes after its end contains no date. */
  lemma EmptyRange(date: string, from: string, to: string)
    requires ParseIsoDate(from).Some? && ParseIsoDate(to).Some?
    requires !DayLe(ParseIsoDate(from).value, ParseIsoDate(to).value)
    ensures !InDateRange(date, from, to)
  {
  }

  /** A day `ParseIsoDate` can return, with a four-digit year. */
  predicate ValidDay(d: Day)
  {
    0 <= d.year < 10000 && 1 <= d.month <= 12 && 1 <= d.day <= 31
  }

  /** `toISOString().split('T')[0]`: the day as `YYYY-MM-DD`. */
  function FormatIsoDate(d: Day): (s: string)
    requires ValidDay(d)
    ensures |s| == 10 && s[4] == '-' && s[7] == '-'
  {
    Pad(d.year, 4) + "-" + Pad(d.month, 2) + "-" + Pad(d.day, 2)
  }

  /** `new Date(day.toISOString().split('T')[0])` is the day again. */
  lemma IsoDateRoundTrip(d: Day)
    requires ValidDay(d)
    ensures ParseIsoDate(FormatIsoDate(d)) == Some(d)
  {
    var s := FormatIsoDate(d);
    assert s[..4] == Pad(d.year, 4) && s[5..7] == Pad(d.month, 2) && s[8..] == Pad(d.day, 2);
    assert Pow10(2) == 100 && Pow10(4) == 10000;
    PadRoundTrip(d.year, 4);
    PadRoundTrip(d.month, 2);
    PadRoundTrip(d.day, 2);
  }

  /** Every page starts with both range ends set to today, so a record created today is
      inside the default range. */
  lemma TodayInDefaultRange(d: Day)
    requires ValidDay(d)
    ensures var today := FormatIsoDate(d); InDateRange(today, today, today)
  {
    IsoDateRoundTrip(d);
  }
}
