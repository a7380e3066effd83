/** Dates are the strings the app stores (`YYYY-MM-DD`, possibly followed by a time
    after a `T`). The source compares them through `new Date(...)`; the model compares
    the strings lexicographically, and `LexLeIsChronological` shows that for well-formed
    `YYYY-MM-DD` strings this is the order of (year, month, day). */
module Dates {
  import opened Text

  /** Lexicographic order on strings (a prefix comes first). */
  predicate LexLe(a: string, b: string)
  {
    if |a| == 0 then true
    else if |b| == 0 then false
    else a[0] < b[0] || (a[0] == b[0] && LexLe(a[1..], b[1..]))
  }

  lemma {:induction false} LexLeRefl(a: string)
    ensures LexLe(a, a)
  {
    if |a| > 0 { LexLeRefl(a[1..]); }
  }

  lemma {:induction false} LexLeTotal(a: string, b: string)
    ensures LexLe(a, b) || LexLe(b, a)
  {
    if |a| > 0 && |b| > 0 && a[0] == b[0] { LexLeTotal(a[1..], b[1..]); }
  }

  lemma {:induction false} LexLeAntisymmetric(a: string, b: string)
    requires LexLe(a, b) && LexLe(b, a)
    ensures a == b
  {
    if |a| > 0 {
      LexLeAntisymmetric(a[1..], b[1..]);
      assert a == [a[0]] + a[1..] && b == [b[0]] + b[1..];
    }
  }

  lemma {:induction false} LexLeTransitive(a: string, b: string, c: string)
    requires LexLe(a, b) && LexLe(b, c)
    ensures LexLe(a, c)
  {
    if |a| > 0 && a[0] == b[0] && b[0] == c[0] { LexLeTransitive(a[1..], b[1..], c[1..]); }
  }

  /** Comparing two concatenations whose first parts have equal length: the first parts
      decide unless they are equal. */
  lemma {:induction false} LexLeConcat(a1: string, a2: string, b1: string, b2: string)
    requires |a1| == |b1|
    ensures LexLe(a1 + a2, b1 + b2) <==> (a1 != b1 && LexLe(a1, b1)) || (a1 == b1 && LexLe(a2, b2))
  {
    if |a1| > 0 {
      assert (a1 + a2)[0] == a1[0] && (b1 + b2)[0] == b1[0];
      assert (a1 + a2)[1..] == a1[1..] + a2 && (b1 + b2)[1..] == b1[1..] + b2;
      LexLeConcat(a1[1..], a2, b1[1..], b2);
      if a1[0] == b1[0] {
        assert a1 == b1 <==> a1[1..] == b1[1..] by {
          assert a1 == [a1[0]] + a1[1..] && b1 == [b1[0]] + b1[1..];
        }
      }
    } else {
      assert a1 + a2 == a2 && b1 + b2 == b2;
    }
  }

  /** `d.split('T')[0]`: the part of the string before its first `T`. */
  function DayKey(d: string): (r: string)
    ensures StartsWith(d, r)
    ensures forall i :: 0 <= i < |r| ==> r[i] != 'T'
    ensures |r| < |d| ==> d[|r|] == 'T'
  {
    if |d| == 0 || d[0] == 'T' then "" else [d[0]] + DayKey(d[1..])
  }

  /** A date without a time part is its own key, so cutting twice is cutting once. */
  lemma DayKeyIdempotent(d: string)
    ensures DayKey(DayKey(d)) == DayKey(d)
  {
    NoTIsOwnKey(DayKey(d));
  }

  lemma {:induction false} NoTIsOwnKey(d: string)
    requires forall i :: 0 <= i < |d| ==> d[i] != 'T'
    ensures DayKey(d) == d
  {
    if |d| > 0 {
      NoTIsOwnKey(d[1..]);
      assert d == [d[0]] + d[1..];
    }
  }

  predicate IsDigit(c: char)
  {
    '0' <= c <= '9'
  }

  predicate AllDigits(s: string)
  {
    forall i :: 0 <= i < |s| ==> IsDigit(s[i])
  }

  /** A well-formed `YYYY-MM-DD` string. */
  predicate WellFormed(d: string)
  {
    |d| == 10 && d[4] == '-' && d[7] == '-'
    && AllDigits(d[..4]) && AllDigits(d[5..7]) && AllDigits(d[8..])
  }

  function Pow10(n: nat): (p: nat)
    ensures p >= 1
  {
    if n == 0 then 1 else 10 * Pow10(n - 1)
  }

  /** The number a string of decimal digits spells. */
  function Num(s: string): (v: nat)
    requires AllDigits(s)
    ensures v < Pow10(|s|)
  {
    if |s| == 0 then 0
    else
      var d := s[0] as int - '0' as int;
      var rest := Num(s[1..]);
      MulLe(d, 9, Pow10(|s| - 1));
      d * Pow10(|s| - 1) + rest
  }

  lemma MulLe(x: int, y: int, p: int)
    requires x <= y && p >= 0
    ensures x * p <= y * p
  {
  }

  /** A smaller leading digit gives a smaller number, whatever follows. */
  lemma LeadingDigit(da: int, db: int, ra: int, rb: int, p: int)
    requires da < db && 0 <= ra < p && 0 <= rb
    ensures da * p + ra < db * p + rb
  {
    MulLe(da + 1, db, p);
    assert (da + 1) * p == da * p + p;
  }

  /** On digit strings of equal length, lexicographic order is numeric order. */
  lemma {:induction false} DigitsLexIsNumeric(a: string, b: string)
    requires AllDigits(a) && AllDigits(b) && |a| == |b|
    ensures LexLe(a, b) <==> Num(a) <= Num(b)
  {
    if |a| > 0 {
      var p := Pow10(|a| - 1);
      var da, db := a[0] as int - '0' as int, b[0] as int - '0' as int;
      var ra, rb := Num(a[1..]), Num(b[1..]);
      assert Num(a) == da * p + ra && ra < p;
      assert Num(b) == db * p + rb && rb < p;
      if da < db {
        assert a[0] < b[0];
        LeadingDigit(da, db, ra, rb, p);
      } else if db < da {
        assert b[0] < a[0];
        LeadingDigit(db, da, rb, ra, p);
      } else {
        assert a[0] == b[0];
        DigitsLexIsNumeric(a[1..], b[1..]);
      }
    }
  }

  function Year(d: string): nat requires WellFormed(d) { Num(d[..4]) }
  function Month(d: string): nat requires WellFormed(d) { Num(d[5..7]) }
  function Day(d: string): nat requires WellFormed(d) { Num(d[8..]) }

  /** Calendar order: by year, then month, then day. */
  predicate ChronoLe(a: string, b: string)
    requires WellFormed(a) && WellFormed(b)
  {
    Year(a) < Year(b)
    || (Year(a) == Year(b) && (Month(a) < Month(b) || (Month(a) == Month(b) && Day(a) <= Day(b))))
  }

  /** Equal-length digit strings: strictly before in lex order iff a smaller number. */
  lemma DigitsLexStrict(a: string, b: string)
    requires AllDigits(a) && AllDigits(b) && |a| == |b|
    ensures (a != b && LexLe(a, b)) <==> Num(a) < Num(b)
    ensures a == b <==> Num(a) == Num(b)
  {
    DigitsLexIsNumeric(a, b);
    DigitsLexIsNumeric(b, a);
    if Num(a) == Num(b) { LexLeAntisymmetric(a, b); }
  }

  /** For well-formed dates, comparing the strings is comparing the calendar dates, so the
      model's string comparisons agree with the source's `Date` comparisons. */
  lemma LexLeIsChronological(a: string, b: string)
    requires WellFormed(a) && WellFormed(b)
    ensures LexLe(a, b) <==> ChronoLe(a, b)
  {
    assert a == a[..4] + a[4..] && b == b[..4] + b[4..];
    assert a[4..] == "-" + a[5..] && b[4..] == "-" + b[5..];
    assert a[5..] == a[5..7] + a[7..] && b[5..] == b[5..7] + b[7..];
    assert a[7..] == "-" + a[8..] && b[7..] == "-" + b[8..];
    LexLeConcat(a[..4], a[4..], b[..4], b[4..]);
    LexLeConcat("-", a[5..], "-", b[5..]);
    LexLeConcat(a[5..7], a[7..], b[5..7], b[7..]);
    LexLeConcat("-", a[8..], "-", b[8..]);
    DigitsLexStrict(a[..4], b[..4]);
    DigitsLexStrict(a[5..7], b[5..7]);
    DigitsLexIsNumeric(a[8..], b[8..]);
  }
}
