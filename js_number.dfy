/**
 * JavaScript number behaviour the core relies on, over unbounded reals:
 * truthiness of optional numbers, `x || d`, `Math.ceil`, `Math.round` and `Math.max`.
 */
module JsNumber {
  import opened Wrappers

  /** An optional number is truthy when present and not 0 (NaN does not arise over reals). */
  predicate Truthy(x: Option<real>) {
    x.Some? && x.value != 0.0
  }

  /** `x || d` for an optional number. */
  function OrElse(x: Option<real>, d: real): (r: real)
    ensures Truthy(x) ==> r == x.value
    ensures !Truthy(x) ==> r == d
  {
    if Truthy(x) then x.value else d
  }

  /** `Math.ceil`: the least integer not below `x`. */
  function Ceil(x: real): (r: int)
    ensures x <= r as real < x + 1.0
  {
    if x.Floor as real == x then x.Floor else x.Floor + 1
  }

  /** `Math.round`: JavaScript rounds halves towards +infinity, i.e. floor(x + 0.5). */
  function Round(x: real): (r: int)
    ensures x - 0.5 < r as real <= x + 0.5
  {
    (x + 0.5).Floor
  }

  function Max(a: real, b: real): (r: real)
    ensures r >= a && r >= b && (r == a || r == b)
  {
    if a >= b then a else b
  }

  lemma CeilOfInteger(n: int)
    ensures Ceil(n as real) == n
  {
  }
}
