/** Small shared vocabulary: an option type, real-number helpers that follow
    the JavaScript `Math` functions the components call, and the abstract
    trigonometry the simulation feeds with angles. */
module Common {

  datatype Option<+T> = None | Some(value: T)

  /** A value in [-1, 1]: the range of `Math.sin` and `Math.cos`. */
  type Unit = r: real | -1.0 <= r <= 1.0

  /** `Math.sin` and `Math.cos`, left abstract: any pair of total functions
      whose results lie in [-1, 1]. Nothing else about them is assumed. */
  datatype Trig = Trig(sin: real -> Unit, cos: real -> Unit)

  /** JavaScript's `Math.PI`, written as the shortest decimal that reads back
      as that double (not the double's exact binary value). */
  const Pi: real := 3.141592653589793

  /** Degrees to radians, `deg * Math.PI / 180`. */
  function Radians(deg: real): real {
    deg * Pi / 180.0
  }

  function Abs(x: real): (r: real)
    ensures 0.0 <= r && (r == x || r == -x)
  {
    if x < 0.0 then -x else x
  }

  /** `Math.min` on two numbers. */
  function Min(a: real, b: real): (r: real)
    ensures r <= a && r <= b && (r == a || r == b)
  {
    if a <= b then a else b
  }

  /** `Math.max` on two numbers. */
  function Max(a: real, b: real): (r: real)
    ensures a <= r && b <= r && (r == a || r == b)
  {
    if a <= b then b else a
  }

  /** `Math.round`: rounds half-way cases toward +infinity. */
  function Round(x: real): (r: int)
    ensures x - 0.5 < r as real <= x + 0.5
  {
    (x + 0.5).Floor
  }

  /** `Math.round(x * 100) / 100`: rounding to hundredths. */
  function RoundHundredths(x: real): (r: real)
    ensures x - 0.005 < r <= x + 0.005
    ensures (r * 100.0).Floor as real == r * 100.0
  {
    var n := Round(x * 100.0);
    assert (n as real / 100.0) * 100.0 == n as real;
    n as real / 100.0
  }

  predicate NoDuplicates<T(==)>(s: seq<T>) {
    forall i, j :: 0 <= i < j < |s| ==> s[i] != s[j]
  }
}
