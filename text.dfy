/** The string operations the pages use: `toLowerCase`, `toUpperCase`, `trim`,
    `includes` and `startsWith`. Case mapping covers the ASCII letters only. */
module Text {

  function LowerChar(c: char): char
  {
    if 'A' <= c <= 'Z' then (c as int + 32) as char else c
  }

  function UpperChar(c: char): char
  {
    if 'a' <= c <= 'z' then (c as int - 32) as char else c
  }

  /** `s.toLowerCase()`. */
  function Lower(s: string): (r: string)
    ensures |r| == |s|
    ensures forall i :: 0 <= i < |s| ==> r[i] == LowerChar(s[i])
  {
    seq(|s|, i requires 0 <= i < |s| => LowerChar(s[i]))
  }

  /** `s.toUpperCase()`. */
  function Upper(s: string): (r: string)
    ensures |r| == |s|
    ensures forall i :: 0 <= i < |s| ==> r[i] == UpperChar(s[i])
  {
    seq(|s|, i requires 0 <= i < |s| => UpperChar(s[i]))
  }

  /** Upper-casing twice is upper-casing once. */
  lemma UpperIdempotent(s: string)
    ensures Upper(Upper(s)) == Upper(s)
  {
    assert forall i :: 0 <= i < |s| ==> UpperChar(UpperChar(s[i])) == UpperChar(s[i]);
  }

  /** Lower-casing twice is lower-casing once. */
  lemma LowerIdempotent(s: string)
    ensures Lower(Lower(s)) == Lower(s)
  {
  }

  /** The characters `trim` removes (the ASCII ones, no-break space and the byte-order mark). */
  predicate IsSpace(c: char)
  {
    c == ' ' || c == '\t' || c == '\n' || c == '\r' || c == '\U{000B}' || c == '\U{000C}'
    || c == '\U{00A0}' || c == '\U{FEFF}'
  }

  function TrimStart(s: string): (r: string)
    ensures |r| <= |s| && r == s[|s| - |r|..]
    ensures forall i :: 0 <= i < |s| - |r| ==> IsSpace(s[i])
    ensures |r| > 0 ==> !IsSpace(r[0])
  {
    if |s| > 0 && IsSpace(s[0]) then TrimStart(s[1..]) else s
  }

  function TrimEnd(s: string): (r: string)
    ensures |r| <= |s| && r == s[..|r|]
    ensures forall i :: |r| <= i < |s| ==> IsSpace(s[i])
    ensures |r| > 0 ==> !IsSpace(r[|r| - 1])
  {
    if |s| > 0 && IsSpace(s[|s| - 1]) then TrimEnd(s[..|s| - 1]) else s
  }

  /** `needle` occurs in `hay` starting at position `k`. */
  predicate OccursAt(hay: string, needle: string, k: int)
  {
    0 <= k <= |hay| - |needle| && hay[k..k + |needle|] == needle
  }

  /** `r` is the slice of `s` at `k` with only white space before and after it. */
  predicate TrimmedAt(s: string, r: string, k: int)
  {
    OccursAt(s, r, k)
    && (forall i :: 0 <= i < k ==> IsSpace(s[i]))
    && (forall i :: k + |r| <= i < |s| ==> IsSpace(s[i]))
  }

  /** The part `TrimEnd` keeps of `t` sits in `s` where `t` starts. */
  lemma TrimSliceOccurs(s: string, t: string)
    requires |t| <= |s| && t == s[|s| - |t|..]
    ensures OccursAt(s, TrimEnd(t), |s| - |t|)
  {
    var r := TrimEnd(t);
    assert r == t[..|r|];
  }

  /** What `TrimEnd` drops from `t` is white space in `s` too. */
  lemma TrimSliceAfter(s: string, t: string)
    requires |t| <= |s| && t == s[|s| - |t|..]
    ensures forall i :: |s| - |t| + |TrimEnd(t)| <= i < |s| ==> IsSpace(s[i])
  {
    var k := |s| - |t|;
    forall i | k + |TrimEnd(t)| <= i < |s| ensures IsSpace(s[i]) {
      assert s[i] == t[i - k];
    }
  }

  /** Trimming the start and then the end cuts a slice surrounded by white space. */
  lemma TrimSlice(s: string)
    ensures TrimmedAt(s, TrimEnd(TrimStart(s)), |s| - |TrimStart(s)|)
    ensures var r := TrimEnd(TrimStart(s)); |r| > 0 ==> !IsSpace(r[0]) && !IsSpace(r[|r| - 1])
  {
    var t := TrimStart(s);
    TrimSliceOccurs(s, t);
    TrimSliceAfter(s, t);
    var r := TrimEnd(t);
    assert |r| > 0 ==> r[0] == t[0];
  }

  /** `s.trim()`: the slice of `s` left after removing white space at both ends. */
  function Trim(s: string): (r: string)
    ensures exists k :: TrimmedAt(s, r, k)
    ensures |r| > 0 ==> !IsSpace(r[0]) && !IsSpace(r[|r| - 1])
  {
    TrimSlice(s);
    TrimEnd(TrimStart(s))
  }

  /** `!s.trim()`: the trimmed string is empty exactly when every character is white space. */
  lemma TrimEmptyIffBlank(s: string)
    ensures Trim(s) == "" <==> forall i :: 0 <= i < |s| ==> IsSpace(s[i])
  {
    var r := Trim(s);
    var k :| TrimmedAt(s, r, k);
    if r != "" {
      assert r[0] == s[k];
    }
  }

  /** `s.startsWith(prefix)`. */
  predicate StartsWith(s: string, prefix: string)
  {
    |prefix| <= |s| && s[..|prefix|] == prefix
  }

  /** `hay.includes(needle)`: `needle` occurs at some position of `hay`. */
  function Contains(hay: string, needle: string): (r: bool)
    ensures r <==> exists k :: OccursAt(hay, needle, k)
  {
    if StartsWith(hay, needle) then
      assert OccursAt(hay, needle, 0);
      true
    else if |hay| == 0 then
      assert forall k :: !OccursAt(hay, needle, k);
      false
    else
      var r := Contains(hay[1..], needle);
      assert r ==> exists k :: OccursAt(hay, needle, k) by {
        if r {
          var k :| OccursAt(hay[1..], needle, k);
          assert hay[1..][k..k + |needle|] == hay[k + 1..k + 1 + |needle|];
          assert OccursAt(hay, needle, k + 1);
        }
      }
      assert (exists k :: OccursAt(hay, needle, k)) ==> r by {
        if exists k :: OccursAt(hay, needle, k) {
          var k :| OccursAt(hay, needle, k);
          assert k != 0;
          assert hay[1..][k - 1..k - 1 + |needle|] == hay[k..k + |needle|];
          assert OccursAt(hay[1..], needle, k - 1);
        }
      }
      r
  }

  /** Every string includes the empty string. */
  lemma ContainsEmpty(hay: string)
    ensures Contains(hay, "")
  {
    assert OccursAt(hay, "", 0);
  }
}
