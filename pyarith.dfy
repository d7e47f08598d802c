/** The two Python built-ins the forecast rule leans on, stated over unbounded integers:
    `sum` of a list of ints, and `int(x)` applied to a quotient, which truncates toward
    zero (unlike Dafny's `/`, which is Euclidean). */
module PyArith {

  /** Python's `sum(xs)`: a left fold with `+`, starting from 0. */
  function Sum(xs: seq<int>): (r: int)
    ensures xs == [] ==> r == 0
    ensures (forall k :: 0 <= k < |xs| ==> xs[k] >= 0) ==> r >= 0
  {
    if xs == [] then 0 else Sum(xs[..|xs| - 1]) + xs[|xs| - 1]
  }

  /** The sum of a three-element slice is the sum of its three elements. */
  lemma {:induction false} SumOfThree(xs: seq<int>)
    requires |xs| == 3
    ensures Sum(xs) == xs[0] + xs[1] + xs[2]
  {
    var two, one := xs[..2], xs[..1];
    assert two[..1] == one && one[..0] == [];
    assert Sum(one) == xs[0];
    assert Sum(two) == xs[0] + xs[1];
  }

  /** `r` is the integer obtained by truncating the rational `n / d` toward zero,
      as Python's `int()` does with a float quotient. */
  ghost predicate IsTruncatedQuotient(r: int, n: int, d: int)
  {
    && d > 0
    && (n >= 0 ==> 0 <= r && r * d <= n < r * d + d)
    && (n < 0 ==> r <= 0 && r * d - d < n <= r * d)
  }

  /** `int(n / d)` for a positive denominator. */
  function TruncDiv(n: int, d: int): (r: int)
    requires d > 0
    ensures IsTruncatedQuotient(r, n, d)
  {
    if n >= 0 then n / d else -((-n) / d)
  }

  lemma MulLeftMono(a: int, b: int, d: int)
    requires a <= b && d > 0
    ensures a * d <= b * d
  {
  }

  /** The truncated quotient is unique: `TruncDiv` is the only value meeting
      `IsTruncatedQuotient`. */
  lemma {:induction false} TruncatedQuotientUnique(r: int, n: int, d: int)
    requires IsTruncatedQuotient(r, n, d)
    ensures r == TruncDiv(n, d)
  {
    var q := TruncDiv(n, d);
    if r < q {
      MulLeftMono(r + 1, q, d);
    } else if q < r {
      MulLeftMono(q + 1, r, d);
    }
  }

  /** Truncating division by a positive number is monotone in the numerator. */
  lemma {:induction false} TruncDivMonotone(a: int, b: int, d: int)
    requires a <= b && d > 0
    ensures TruncDiv(a, d) <= TruncDiv(b, d)
  {
    var ra, rb := TruncDiv(a, d), TruncDiv(b, d);
    if ra > rb {
      if a >= 0 {
        MulLeftMono(rb + 1, ra, d);
      } else if b < 0 {
        MulLeftMono(rb, ra - 1, d);
      }
    }
  }
}
