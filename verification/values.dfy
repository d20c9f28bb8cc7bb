/** Values shared by the cards and the store: optional values, the numbers the
    cards compute with, inputs that are either a scalar or an array, and the
    sample handed to the chart. */
module Values {

  datatype Option<+T> = None | Some(value: T)

  /** A JavaScript number as the cards see it. Integers stand for the finite
      numbers; `NaN` stands for every value that is not a number, both `NaN`
      itself and the `undefined` read from past the end of an array. */
  datatype Num = Num(value: int) | NaN

  /** JavaScript `+` on numbers: any non-number operand makes the sum `NaN`. */
  function Add(a: Num, b: Num): (r: Num)
    ensures r.Num? <==> a.Num? && b.Num?
    ensures r.Num? ==> r.value == a.value + b.value
  {
    if a.Num? && b.Num? then Num(a.value + b.value) else NaN
  }

  /** A card input: a single number, or the array produced by an upstream card. */
  datatype Val = Scalar(n: Num) | Arr(s: seq<Num>)

  /** `Array.isArray(v) ? v[i] : v`: an array is indexed (past its end the read
      gives `undefined`), a scalar stands for itself at every position. */
  function At(v: Val, i: nat): (r: Num)
    ensures v.Scalar? ==> r == v.n
    ensures v.Arr? && i < |v.s| ==> r == v.s[i]
    ensures v.Arr? && i >= |v.s| ==> r == NaN
  {
    match v
    case Scalar(n) => n
    case Arr(s) => if i < |s| then s[i] else NaN
  }

  /** The two series the chart plots. */
  datatype Sample = Sample(x: seq<Num>, y: seq<Num>)
}
