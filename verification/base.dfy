/** Values shared by every component: optional values (JavaScript's
    `undefined`/`null`), and the fallbacks the components apply to numbers
    parsed from form inputs (`parseInt(...) || 0`, `parseFloat(...) || 0`).
    Parsing itself happens in the browser and is not modelled: a parse result
    enters the model as `None` (NaN) or `Some(n)`. */
module Base {

  datatype Option<+T> = None | Some(value: T)

  /** `parseFloat(text) || 0`: NaN and 0 both become 0. */
  function RealOrZero(parsed: Option<real>): (r: real)
    ensures parsed.Some? ==> r == parsed.value
    ensures parsed.None? ==> r == 0.0
  {
    match parsed
    case None => 0.0
    case Some(x) => if x != 0.0 then x else 0.0
  }

  /** `parseInt(text) || 0`: NaN and 0 both become 0. */
  function IntOrZero(parsed: Option<int>): (r: int)
    ensures parsed.Some? ==> r == parsed.value
    ensures parsed.None? ==> r == 0
  {
    match parsed
    case None => 0
    case Some(n) => if n != 0 then n else 0
  }
}
