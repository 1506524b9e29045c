/**
 * Random draws. The model never generates randomness: every draw is an explicit value handed in by
 * the caller, and these functions turn a draw of `random.random()` into the value the source derives
 * from it.
 */
module Draws {

  /** A value of `random.random()`: uniform on [0, 1), so never 1. */
  type Unit = r: real | 0.0 <= r < 1.0

  /** A value on [0, 1], such as a Beta draw. */
  type Probability = r: real | 0.0 <= r <= 1.0

  /** `random.uniform(a, b)`, computed as `a + (b - a) * random()`. */
  function Uniform(a: real, b: real, u: Unit): (r: real)
    requires a <= b
    ensures a <= r <= b
    ensures a < b ==> r < b
  {
    var w := b - a;
    ProductSigns(w, u);
    a + w * u
  }

  /** For a width w >= 0 and u in [0, 1): 0 <= w*u <= w, and w*u < w when w > 0. */
  lemma ProductSigns(w: real, u: Unit)
    requires w >= 0.0
    ensures 0.0 <= w * u <= w
    ensures w > 0.0 ==> w * u < w
  {
    assert w * (1.0 - u) == w - w * u;
    if w > 0.0 {
      assert w * (1.0 - u) > 0.0;
    }
  }

  /** `random.randint(a, b)`: an integer in [a, b], both ends included. */
  function RandInt(a: int, b: int, u: Unit): (r: int)
    requires a <= b
    ensures a <= r <= b
  {
    var n := (b - a + 1) as real;
    ProductSigns(n, u);
    assert 0.0 <= u * n < n;
    a + (u * n).Floor
  }

  /** `random.choice(options)`. */
  function Choice<T>(options: seq<T>, u: Unit): (r: T)
    requires |options| > 0
    ensures r in options
  {
    options[RandInt(0, |options| - 1, u)]
  }

  /** `max(lo, min(hi, x))`. */
  function Clamp(lo: real, hi: real, x: real): (r: real)
    requires lo <= hi
    ensures lo <= r <= hi
    ensures lo <= x <= hi ==> r == x
    ensures x < lo ==> r == lo
    ensures x > hi ==> r == hi
  {
    if hi < x then hi else if x < lo then lo else x
  }

  /** `max(0, x)`. */
  function Max0(x: real): (r: real)
    ensures r >= 0.0 && r >= x
    ensures x >= 0.0 ==> r == x
  {
    if x > 0.0 then x else 0.0
  }
}
