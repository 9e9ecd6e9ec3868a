/** The numeric values of the form fields. The pages keep amounts as the text
    of number inputs or as `toFixed(2)` strings; the model keeps their value
    as an exact integer in the field's smallest unit (cents for money, whole
    units for stock and kilometres). */
module Numbers {

  /** A numeric field: empty text, text that `parseFloat` turns into `NaN`
      (what `toFixed` then prints as "NaN"), or a number. */
  datatype Num = Blank | NotANumber | Val(v: int)

  /** `parseFloat(x)`: the empty text is `NaN`. */
  function ParseFloat(n: Num): (r: Num)
    ensures r.Val? <==> n.Val?
    ensures r.Val? ==> r == n
    ensures n == Blank ==> r == NotANumber
    ensures n == NotANumber ==> r == NotANumber
    ensures r != Blank
  {
    if n.Blank? then NotANumber else n
  }

  /** `x || 0`: an empty field counts as zero; non-numeric text is kept. */
  function OrZero(n: Num): (r: Num)
    ensures r != Blank
    ensures n.Val? ==> r == n
    ensures n == Blank ==> r == Val(0)
    ensures n == NotANumber ==> r == NotANumber
  {
    if n.Blank? then Val(0) else n
  }

  /** A number times an integer; `NaN` stays `NaN`. */
  function Times(n: Num, k: int): Num
    requires n != Blank
  {
    if n.Val? then Val(n.v * k) else NotANumber
  }

  /** The sum of two numbers; `NaN` if either is `NaN`. */
  function Plus(a: Num, b: Num): Num
    requires a != Blank && b != Blank
  {
    if a.Val? && b.Val? then Val(a.v + b.v) else NotANumber
  }

  /** The product of two numbers; `NaN` if either is `NaN`. */
  function Product(a: Num, b: Num): Num
    requires a != Blank && b != Blank
  {
    if a.Val? && b.Val? then Val(a.v * b.v) else NotANumber
  }

  /** `(x / 100).toFixed(0)` on an integer `x`: to the nearest integer, ties
      away from zero (`toFixed` rounds the magnitude half up). */
  function RoundHundredths(x: int): (r: int)
    ensures x >= 0 ==> 100 * r - 50 <= x < 100 * r + 50
    ensures x < 0 ==> 100 * r - 50 < x <= 100 * r + 50
  {
    if x >= 0 then (x + 50) / 100 else -((-x + 50) / 100)
  }

  /** Rounding the sum of a whole number of hundreds and a same-signed rest
      gives the whole part plus the rounded rest. */
  lemma RoundHundredthsShift(c: int, y: int)
    requires (c >= 0 && y >= 0) || (c <= 0 && y <= 0)
    ensures RoundHundredths(100 * c + y) == c + RoundHundredths(y)
  {
    var r, q := RoundHundredths(100 * c + y), RoundHundredths(y);
    if 100 * c + y >= 0 {
      assert y >= 0 || c == 0;
      assert 100 * (c + q) - 50 <= 100 * c + y < 100 * (c + q) + 50;
    } else {
      assert 100 * (c + q) - 50 < 100 * c + y <= 100 * (c + q) + 50;
    }
  }

  /** `(x * p / 100).toFixed(2)` for an amount `x` in cents and a whole
      percentage `p`: the result in cents; `NaN` stays `NaN`. */
  function ScalePercent(n: Num, p: int): (r: Num)
    requires n != Blank
    ensures r.Val? <==> n.Val?
    ensures r.Val? ==> -50 <= 100 * r.v - n.v * p <= 50
  {
    if n.Val? then Val(RoundHundredths(n.v * p)) else NotANumber
  }
}
