/** Form fields as the pages read them: a number input's value is text while typed and
    the stored number itself after an edit loads it, so its truthiness depends on which. */
module Forms {
  import opened Seqs

  type Digit = d: int | 0 <= d < 10

  /** The text of a number input, which the browser keeps only when it is a valid
      floating-point number: an optional minus sign, the digits before the point, the
      digits after it (`.5` has none before it), and an optional exponent (`1e1`,
      `100e-1`). */
  datatype NumText = NumText(negative: bool, whole: seq<Digit>, fraction: seq<Digit>, exponent: Option<int>)

  /** A number field of a form: empty, typed (any non-empty text, `"0"` included, is
      truthy), or filled from a stored number (truthy unless 0). */
  datatype NumField = Empty | Typed(text: NumText) | Loaded(value: real)

  predicate Truthy(f: NumField)
  {
    f.Typed? || (f.Loaded? && f.value != 0.0)
  }

  /** The number a run of decimal digits spells. */
  function DigitsValue(ds: seq<Digit>): nat
  {
    if |ds| == 0 then 0 else DigitsValue(ds[..|ds| - 1]) * 10 + ds[|ds| - 1]
  }

  /** The value of the digits after the point: a share of one. */
  function FractionValue(ds: seq<Digit>): (r: real)
    ensures 0.0 <= r < 1.0
    ensures r == 0.0 <==> forall i :: 0 <= i < |ds| ==> ds[i] == 0
  {
    if |ds| == 0 then 0.0
    else (ds[0] as real + FractionValue(ds[1..])) / 10.0
  }

  /** Ten to the power `e`, for any whole `e`. */
  function Pow10(e: int): (r: real)
    ensures r > 0.0
    decreases if e >= 0 then e else -e
  {
    if e == 0 then 1.0
    else if e > 0 then 10.0 * Pow10(e - 1)
    else Pow10(e + 1) / 10.0
  }

  /** The number the text denotes, which is what `parseFloat` reads from it. */
  function TextValue(t: NumText): real
  {
    var mantissa := DigitsValue(t.whole) as real + FractionValue(t.fraction);
    var scaled := if t.exponent.Some? then mantissa * Pow10(t.exponent.value) else mantissa;
    if t.negative then -scaled else scaled
  }

  /** `parseInt` of the text: the sign and the digits before the point; the point and the
      exponent end the reading. With no digit before the point the result is `NaN`
      (`None`). */
  function TextInt(t: NumText): Option<int>
  {
    if |t.whole| == 0 then None
    else
      var n: int := DigitsValue(t.whole);
      Some(if t.negative then -n else n)
  }

  /** `parseFloat` of a field that is not empty. */
  function Parsed(f: NumField): real
  {
    match f
    case Empty => 0.0
    case Typed(t) => TextValue(t)
    case Loaded(v) => v
  }

  /** `parseInt` of a number: the digits before the decimal point, so the value is cut
      toward zero. */
  function Truncated(x: real): (n: int)
    ensures x >= 0.0 ==> 0 <= n && n as real <= x < n as real + 1.0
    ensures x < 0.0 ==> n <= 0 && n as real - 1.0 < x <= n as real
  {
    if x >= 0.0 then x.Floor else -((-x).Floor)
  }

  /** `parseInt` of a field: of the typed text, or of a stored number's decimal form;
      `None` is `NaN`. */
  function ParsedInt(f: NumField): Option<int>
  {
    match f
    case Empty => None
    case Typed(t) => TextInt(t)
    case Loaded(v) => Some(Truncated(v))
  }

  /** The field holds no exponent: it is empty, loaded, or typed as plain decimal text. */
  predicate Plain(f: NumField)
  {
    f.Typed? ==> f.text.exponent.None?
  }

  /** On plain decimal text with a digit before the point, `parseInt` cuts the value
      toward zero, as it does for a loaded number; and a plain field whose value is a
      whole number other than 0 reads back as that number. */
  lemma PlainParseInt(f: NumField)
    requires Plain(f) && !f.Empty?
    ensures f.Typed? && |f.text.whole| > 0 ==> ParsedInt(f) == Some(Truncated(Parsed(f)))
    ensures Parsed(f) == Parsed(f).Floor as real && Parsed(f) != 0.0 ==> ParsedInt(f) == Some(Parsed(f).Floor)
  {
    if f.Typed? {
      var t := f.text;
      var d := DigitsValue(t.whole);
      var m := d as real + FractionValue(t.fraction);
      assert d as real <= m < d as real + 1.0;
      assert m.Floor == d;
      if |t.whole| == 0 {
        assert d == 0;
      }
    }
  }

  /** Text with an exponent is where `parseInt` and the value part: `1e1` is 10 and reads
      as 1, `100e-1` is 10 and reads as 100, and `.5e1` is 5 and reads as `NaN`. */
  lemma ExponentTexts()
    ensures TextValue(NumText(false, [1], [], Some(1))) == 10.0
    ensures TextInt(NumText(false, [1], [], Some(1))) == Some(1)
    ensures TextValue(NumText(false, [1, 0, 0], [], Some(-1))) == 10.0
    ensures TextInt(NumText(false, [1, 0, 0], [], Some(-1))) == Some(100)
    ensures TextValue(NumText(false, [], [5], Some(1))) == 5.0
    ensures TextInt(NumText(false, [], [5], Some(1))) == None
  {
    var hundred: seq<Digit> := [1, 0, 0];
    assert hundred[..1][..0] == [] && hundred[..2][..1] == hundred[..1];
    assert DigitsValue(hundred[..1]) == 1;
    assert DigitsValue(hundred[..2]) == 10;
    assert DigitsValue(hundred) == 100;
    var five: seq<Digit> := [5];
    assert five[1..] == [];
    assert FractionValue(five) == 0.5;
  }

  /** An id kept in page state, `null` or a number; only a non-zero number is truthy. */
  predicate TruthyId(id: Option<int>)
  {
    id.Some? && id.value != 0
  }
}
