// Shared vocabulary: optional values, fallible results, and the integer
// operations whose rounding the sources fix explicitly.
module Common {

  datatype Option<+T> = None | Some(value: T)

  datatype Result<+T, +E> = Ok(value: T) | Err(error: E) {
    predicate IsFailure() {
      Err?
    }

    function PropagateFailure<U>(): Result<U, E>
      requires Err?
    {
      Err(error)
    }

    function Extract(): T
      requires Ok?
    {
      value
    }
  }

  function Abs(x: int): nat {
    if x < 0 then -x else x
  }

  function Min(a: int, b: int): int {
    if a < b then a else b
  }

  function Max(a: int, b: int): int {
    if a > b then a else b
  }

  function Sign(x: int): int {
    if x < 0 then -1 else if x > 0 then 1 else 0
  }

  /** Integer division truncating toward zero, as in Go and Rust. */
  function Trunc(n: int, d: int): (q: int)
    requires d > 0
    ensures -d < n - d * q < d
    ensures n >= 0 ==> 0 <= q && d * q <= n
    ensures n <= 0 ==> q <= 0 && n <= d * q
  {
    if n >= 0 then n / d else -((-n) / d)
  }

  // ------------------------------------------------------------------ sums

  function SumOf<T>(xs: seq<T>, f: T -> int): int {
    if xs == [] then 0 else SumOf(xs[..|xs| - 1], f) + f(xs[|xs| - 1])
  }

  lemma {:induction false} SumUpdate<T>(xs: seq<T>, f: T -> int, i: nat, x: T)
    requires i < |xs|
    ensures SumOf(xs[i := x], f) == SumOf(xs, f) - f(xs[i]) + f(x)
  {
    var n := |xs| - 1;
    if i == n {
      assert xs[i := x][..n] == xs[..n];
    } else {
      assert xs[i := x][..n] == xs[..n][i := x];
      SumUpdate(xs[..n], f, i, x);
    }
  }

  lemma {:induction false} SumSame<T>(xs: seq<T>, f: T -> int, ys: seq<T>, g: T -> int)
    requires |xs| == |ys| && forall i :: 0 <= i < |xs| ==> f(xs[i]) == g(ys[i])
    ensures SumOf(xs, f) == SumOf(ys, g)
  {
    if xs != [] { SumSame(xs[..|xs| - 1], f, ys[..|xs| - 1], g); }
  }

  lemma SumAppend<T>(xs: seq<T>, f: T -> int, x: T)
    ensures SumOf(xs + [x], f) == SumOf(xs, f) + f(x)
  {
    assert (xs + [x])[..|xs|] == xs;
  }

  lemma {:induction false} SumBounds<T>(xs: seq<T>, f: T -> int, g: T -> int)
    requires forall i :: 0 <= i < |xs| ==> 0 <= f(xs[i]) <= g(xs[i])
    ensures 0 <= SumOf(xs, f) <= SumOf(xs, g)
  {
    if xs != [] { SumBounds(xs[..|xs| - 1], f, g); }
  }
}
