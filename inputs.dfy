/** How the calculators coerce raw form-field values before any arithmetic:
    `clamp`, `toNum`, and the `parseInt(text || default, 10)` idiom.
    A form value is abstracted to what JavaScript's parsers make of it. */
module Inputs {

  datatype Option<+T> = None | Some(value: T)

  /** What `Number(v)` yields for a field value: `Some(x)` for a finite number
      (a blank text box gives `Some(0.0)`, since `Number("")` is 0), `None` for
      NaN, an infinity, or a missing element (`undefined`). */
  type NumberInput = Option<real>

  /** A text field read with `parseInt(text || dflt, 10)`: the empty string
      selects the default text, digits parse to their integer prefix, and
      anything else gives NaN. */
  datatype IntField = Blank | Digits(n: int) | NotANumber

  /** `clamp(n, lo, hi) = Math.max(lo, Math.min(hi, n))` for a number `n`. */
  function Clamp(n: real, lo: real, hi: real): (r: real)
    ensures lo <= hi ==> lo <= r <= hi
    ensures lo <= n <= hi ==> r == n
    ensures n < lo ==> r == lo
    ensures lo <= hi < n ==> r == hi
  {
    var m := if n < hi then n else hi;
    if lo < m then m else lo
  }

  /** The same `clamp` applied to the integer that `parseInt` produced; NaN
      (`None`) passes straight through `Math.min` and `Math.max`. */
  function ClampInt(n: Option<int>, lo: int, hi: int): (r: Option<int>)
    ensures r.Some? <==> n.Some?
    ensures r.Some? && lo <= hi ==> lo <= r.value <= hi
    ensures n.Some? && lo <= n.value <= hi ==> r == n
    ensures n.Some? && n.value < lo ==> r == Some(lo)
    ensures n.Some? && lo <= hi < n.value ==> r == Some(hi)
  {
    match n
    case None => None
    case Some(v) =>
      var m := if v < hi then v else hi;
      Some(if lo < m then m else lo)
  }

  /** `toNum(v, fallback)`: the number if it is finite, otherwise the fallback. */
  function ToNum(v: NumberInput, fallback: real): (r: real)
    ensures v.Some? ==> r == v.value
    ensures v.None? ==> r == fallback
  {
    match v
    case Some(x) => x
    case None => fallback
  }

  /** `parseInt(text || dflt, 10)`; `None` is NaN. */
  function ParseIntOr(f: IntField, dflt: int): (r: Option<int>)
    ensures r.None? <==> f.NotANumber?
    ensures f.Blank? ==> r == Some(dflt)
    ensures f.Digits? ==> r == Some(f.n)
  {
    match f
    case Blank => Some(dflt)
    case Digits(n) => Some(n)
    case NotANumber => None
  }

  /** Clamping twice is clamping once: a clamped value is a fixed point. */
  lemma {:induction false} ClampIdempotent(n: real, lo: real, hi: real)
    requires lo <= hi
    ensures Clamp(Clamp(n, lo, hi), lo, hi) == Clamp(n, lo, hi)
  {
  }

  /** Clamping never reorders two numbers. */
  lemma {:induction false} ClampMonotone(a: real, b: real, lo: real, hi: real)
    requires lo <= hi && a <= b
    ensures Clamp(a, lo, hi) <= Clamp(b, lo, hi)
  {
  }
}
