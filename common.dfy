/**
 * Helpers shared by the models of the bot's modules: an optional value, the
 * ASCII part of JavaScript's `toLowerCase`, `String.prototype.includes`,
 * `startsWith`, and sums of numeric series.
 */
module Common {

  /** `undefined`/`null` versus a present value. */
  datatype Option<T> = None | Some(value: T)

  /** A value or a thrown error with its message. */
  datatype Result<T> = Ok(value: T) | Err(message: string)

  /** `toLowerCase` on one character; only A-Z is folded. */
  function LowerChar(c: char): char
  {
    if 'A' <= c <= 'Z' then (c as int + 32) as char else c
  }

  /** `toLowerCase` on a string, character by character. */
  function Lower(s: string): (r: string)
    ensures |r| == |s|
    ensures forall i :: 0 <= i < |s| ==> r[i] == LowerChar(s[i])
  {
    seq(|s|, i requires 0 <= i < |s| => LowerChar(s[i]))
  }

  lemma LowerAppend(a: string, b: string)
    ensures Lower(a + b) == Lower(a) + Lower(b)
  {
  }

  lemma LowerPrefix(s: string, n: nat)
    requires n <= |s|
    ensures Lower(s[..n]) == Lower(s)[..n]
  {
  }

  /** `sub` occurs in `s` starting at position `i`. */
  predicate OccursAt(s: string, sub: string, i: int)
  {
    0 <= i <= |s| - |sub| && s[i..i + |sub|] == sub
  }

  /** `sub` occurs in `s` at some position. */
  ghost predicate Occurs(s: string, sub: string)
  {
    exists i :: OccursAt(s, sub, i)
  }

  /** `s.includes(sub)`, by scanning the start positions from the left. */
  function Includes(s: string, sub: string): (r: bool)
    ensures r <==> Occurs(s, sub)
    decreases |s|
  {
    if |sub| > |s| then false
    else if sub <= s then
      assert OccursAt(s, sub, 0);
      true
    else
      var r := Includes(s[1..], sub);
      if r then
        var i :| OccursAt(s[1..], sub, i);
        assert s[i + 1..i + 1 + |sub|] == s[1..][i..i + |sub|];
        assert OccursAt(s, sub, i + 1);
        r
      else
        assert forall i :: OccursAt(s, sub, i) && i >= 1 ==> OccursAt(s[1..], sub, i - 1);
        r
  }

  /** `s.startsWith(p)`. */
  predicate StartsWith(s: string, p: string)
  {
    p <= s
  }

  /** Sum of a series, accumulated from the left as `reduce((a, b) => a + b, 0)` does. */
  function Sum(s: seq<real>): real
  {
    if |s| == 0 then 0.0 else Sum(s[..|s| - 1]) + s[|s| - 1]
  }

  /** Sum of an integer series. */
  function SumInt(s: seq<int>): int
  {
    if |s| == 0 then 0 else SumInt(s[..|s| - 1]) + s[|s| - 1]
  }

  /** Arithmetic mean (`reduce(+) / length`) of a non-empty series. */
  function Mean(s: seq<real>): real
    requires |s| > 0
  {
    Sum(s) / (|s| as real)
  }

  lemma {:induction false} SumBounds(s: seq<real>, lo: real, hi: real)
    requires forall i :: 0 <= i < |s| ==> lo <= s[i] <= hi
    ensures (|s| as real) * lo <= Sum(s) <= (|s| as real) * hi
  {
    if |s| > 0 {
      SumBounds(s[..|s| - 1], lo, hi);
    }
  }

  lemma MeanBounds(s: seq<real>, lo: real, hi: real)
    requires |s| > 0
    requires forall i :: 0 <= i < |s| ==> lo <= s[i] <= hi
    ensures lo <= Mean(s) <= hi
  {
    SumBounds(s, lo, hi);
    var n := |s| as real;
    assert n * lo <= Sum(s) <= n * hi;
    assert Sum(s) / n >= lo by {
      assert Sum(s) / n * n == Sum(s);
    }
    assert Sum(s) / n <= hi by {
      assert Sum(s) / n * n == Sum(s);
    }
  }

  lemma {:induction false} SumConstant(s: seq<real>, c: real)
    requires forall i :: 0 <= i < |s| ==> s[i] == c
    ensures Sum(s) == (|s| as real) * c
  {
    if |s| > 0 {
      SumConstant(s[..|s| - 1], c);
    }
  }

  lemma MulNonNegative(a: real, b: real)
    requires a >= 0.0 && b >= 0.0
    ensures a * b >= 0.0
  {
  }

  lemma MulMonotone(a: real, b: real, c: real)
    requires a <= b && c >= 0.0
    ensures a * c <= b * c
  {
    MulNonNegative(b - a, c);
    assert (b - a) * c == b * c - a * c;
  }

  lemma MulStrictMonotone(a: real, b: real, c: real)
    requires a < b && c > 0.0
    ensures a * c < b * c
  {
    assert (b - a) * c > 0.0;
    assert (b - a) * c == b * c - a * c;
  }

  /** For a positive divisor, comparing a quotient with `c` is comparing the
      dividend with `c` times the divisor. */
  lemma QuotientCompare(x: real, f: real, c: real)
    requires f > 0.0
    ensures x / f > c <==> x > c * f
    ensures x / f < c <==> x < c * f
  {
    QuotientAbove(x, f, c);
    QuotientBelow(x, f, c);
  }

  /** For a negative divisor, both comparisons flip. */
  lemma QuotientCompareNegative(x: real, f: real, c: real)
    requires f < 0.0
    ensures x / f > c <==> x < c * f
    ensures x / f < c <==> x > c * f
  {
    assert x / f == (-x) / (-f);
    assert c * (-f) == -(c * f);
    QuotientCompare(-x, -f, c);
  }

  lemma QuotientAbove(x: real, f: real, c: real)
    requires f > 0.0
    ensures x / f > c <==> x > c * f
  {
    var q := x / f;
    assert q * f == x;
    if q > c {
      MulStrictMonotone(c, q, f);
      assert x > c * f;
    } else {
      MulMonotone(q, c, f);
      assert x <= c * f;
    }
  }

  lemma QuotientBelow(x: real, f: real, c: real)
    requires f > 0.0
    ensures x / f < c <==> x < c * f
  {
    var q := x / f;
    assert q * f == x;
    if q < c {
      MulStrictMonotone(q, c, f);
      assert x < c * f;
    } else {
      MulMonotone(c, q, f);
      assert x >= c * f;
    }
  }

  /** The share `k / n` of a count `k` out of `n` is a fraction in [0, 1]
      that gives `k` back when multiplied by `n`. */
  lemma CountRatio(k: nat, n: nat)
    requires 0 < n
    ensures k <= n ==> 0.0 <= k as real / n as real <= 1.0
    ensures (k as real / n as real) * n as real == k as real
    ensures k == n ==> k as real / n as real == 1.0
  {
    var q := k as real / n as real;
    assert q * n as real == k as real;
    QuotientBelow(k as real, n as real, 0.0);
    QuotientAbove(k as real, n as real, 1.0);
  }

  /** `Math.round` on a real: the nearest integer, halves rounded up. */
  function Round(x: real): int
  {
    (x + 0.5).Floor
  }

  /** Reducing `x` modulo `n` before adding `y` does not change the
      remainder: stepping an index round a ring of `n` places. */
  lemma ModuloAdd(x: nat, y: nat, n: nat)
    requires n > 0
    ensures (x % n + y) % n == (x + y) % n
  {
    var q := x / n;
    var r := x % n;
    assert x == q * n + r;
    assert x + y == q * n + (r + y);
    ModuloAddMultiple(r + y, q, n);
  }

  /** Adding a multiple of `n` does not change the remainder. */
  lemma ModuloAddMultiple(a: nat, m: nat, n: nat)
    requires n > 0
    ensures (m * n + a) % n == a % n
  {
    var q := a / n;
    var r := a % n;
    assert a == q * n + r;
    assert m * n + a == (m + q) * n + r;
    ModuloShift(r, m + q, n);
    ModuloShift(r, q, n);
  }

  /** Every place of a ring of `n` is reached within `n` steps from `start`. */
  lemma ModuloCovers(start: nat, j: nat, n: nat) returns (k: nat)
    requires j < n
    ensures k < n && (start + k) % n == j
  {
    var r := start % n;
    var q := start / n;
    assert start == q * n + r;
    if j >= r {
      k := j - r;
      assert start + k == q * n + j;
      ModuloShift(j, q, n);
    } else {
      k := j - r + n;
      assert start + k == (q + 1) * n + j;
      ModuloShift(j, q + 1, n);
    }
  }

  lemma {:induction false} MulAtLeast(z: nat, n: nat)
    requires z >= 1
    ensures z * n >= n
  {
    if z > 1 {
      MulAtLeast(z - 1, n);
      assert z * n == (z - 1) * n + n;
    }
  }

  /** `j` below `n` is its own remainder after adding multiples of `n`. */
  lemma ModuloShift(j: nat, m: nat, n: nat)
    requires j < n
    ensures (m * n + j) % n == j
  {
    var a := m * n + j;
    var q := a / n;
    var r := a % n;
    assert a == q * n + r && 0 <= r < n;
    assert (q - m) * n == j - r;
    if q > m {
      MulAtLeast(q - m, n);
    } else if q < m {
      MulAtLeast(m - q, n);
    }
  }

  /** `Array.prototype.filter`. */
  function Filter<T(!new)>(s: seq<T>, p: T -> bool): (r: seq<T>)
    ensures |r| <= |s|
    ensures forall x :: x in r <==> x in s && p(x)
  {
    if |s| == 0 then []
    else
      var rest := Filter(s[..|s| - 1], p);
      assert forall x :: x in s <==> x in s[..|s| - 1] || x == s[|s| - 1];
      if p(s[|s| - 1]) then rest + [s[|s| - 1]] else rest
  }

  /** Filtering twice with the same test filters once. */
  lemma {:induction false} FilterTwice<T(!new)>(s: seq<T>, p: T -> bool)
    ensures Filter(Filter(s, p), p) == Filter(s, p)
  {
    if |s| > 0 {
      FilterTwice(s[..|s| - 1], p);
      var rest := Filter(s[..|s| - 1], p);
      if p(s[|s| - 1]) {
        assert (rest + [s[|s| - 1]])[..|rest|] == rest;
      }
    }
  }

  /** Filtering distributes over concatenation: the filter keeps the order
      of the entries it keeps. */
  lemma {:induction false} FilterAppend<T(!new)>(a: seq<T>, b: seq<T>, p: T -> bool)
    ensures Filter(a + b, p) == Filter(a, p) + Filter(b, p)
  {
    if |b| == 0 {
      assert a + b == a;
    } else {
      var init := b[..|b| - 1];
      assert (a + b)[..|a + b| - 1] == a + init;
      assert (a + b)[|a + b| - 1] == b[|b| - 1];
      FilterAppend(a, init, p);
    }
  }
}
