/** Shared vocabulary: optional and fallible values, JavaScript number helpers
    (Math.round, 32-bit wrap-around) and the polynomial string hash that every
    "deterministic" fallback of the crawler seeds its numbers from. */
module Common {

  datatype Option<+T> = None | Some(value: T) {
    function GetOr(default: T): T {
      match this
      case Some(v) => v
      case None => default
    }
  }

  /** The outcome of an operation that can throw: the error carries the message. */
  datatype Result<+T> = Success(value: T) | Failure(error: string)

  /** An HTTP reply of a route: its status and either the JSON payload or the
      `{ error }` message. */
  datatype Reply<+T> = Reply(status: nat, payload: Result<T>)

  const TWO31: int := 0x8000_0000
  const TWO32: int := 0x1_0000_0000

  /** JavaScript's ToInt32: the unique signed 32-bit integer congruent to x. */
  function ToInt32(x: int): (r: int)
    ensures -TWO31 <= r < TWO31
    ensures (x - r) % TWO32 == 0
  {
    var m := x % TWO32;
    if m >= TWO31 then m - TWO32 else m
  }

  function Abs(x: int): nat { if x < 0 then -x else x }

  /** One step of the source's hash, `a = ((a << 5) - a) + code; a & a`, on a
      32-bit value: `<<` wraps to 32 bits first, `& a` wraps the sum again. */
  function HashStep(a: int, c: char): int {
    ToInt32(ToInt32(a * 32) - a + c as int)
  }

  /** The shift form of the step is the polynomial step 31*a + code, wrapped. */
  lemma HashStepIsPolynomial(a: int, c: char)
    ensures HashStep(a, c) == ToInt32(31 * a + c as int)
  {
    var s := ToInt32(a * 32);
    assert (a * 32 - s) % TWO32 == 0;
    var x := s - a + c as int;
    var y := 31 * a + c as int;
    assert y - x == a * 32 - s;
    ToInt32Congruent(x, y);
  }

  lemma ToInt32Congruent(x: int, y: int)
    requires (y - x) % TWO32 == 0
    ensures ToInt32(x) == ToInt32(y)
  {
    var k := (y - x) / TWO32;
    assert y == x + k * TWO32;
    ModShift(x, k);
  }

  lemma ModShift(x: int, k: int)
    ensures (x + k * TWO32) % TWO32 == x % TWO32
  {
  }

  /** `s.split('').reduce((a, b) => step(a, b), 0)`: the hash folds over the
      characters from the left, so it is defined on the prefix without the last one. */
  function StringHash(s: string): (h: int)
    ensures -TWO31 <= h < TWO31
  {
    if |s| == 0 then 0 else HashStep(StringHash(s[..|s| - 1]), s[|s| - 1])
  }

  /** `Math.abs(hash)`: the seed used by every synthetic-data generator. */
  function Seed(s: string): (r: nat)
    ensures r <= TWO31
  {
    Abs(StringHash(s))
  }

  /** One day in milliseconds: `date.setDate(date.getDate() - k)` moves a date back by `k` of these. */
  const DayMs: int := 86400000

  /** Math.round on exact reals: halves round up. */
  function RoundHalfUp(x: real): (r: int)
    ensures x - 0.5 < r as real <= x + 0.5
  {
    (x + 0.5).Floor
  }

  /** Math.floor. */
  function Floor(x: real): (r: int)
    ensures r as real <= x < r as real + 1.0
  {
    x.Floor
  }

  function MinR(a: real, b: real): real { if a <= b then a else b }
  function MaxR(a: real, b: real): real { if a >= b then a else b }
  function MinI(a: int, b: int): int { if a <= b then a else b }
  function MaxI(a: int, b: int): int { if a >= b then a else b }

  /** `Math.min(hi, Math.max(lo, x))`. */
  function Clamp(x: real, lo: real, hi: real): (r: real)
    requires lo <= hi
    ensures lo <= r <= hi
    ensures lo <= x <= hi ==> r == x
    ensures x < lo ==> r == lo
    ensures x > hi ==> r == hi
  {
    MinR(hi, MaxR(lo, x))
  }

  /** `xs.reduce((sum, x) => sum + f(x), 0)` over exact reals. */
  function Sum<T>(xs: seq<T>, f: T -> real): real {
    if |xs| == 0 then 0.0 else Sum(xs[..|xs| - 1], f) + f(xs[|xs| - 1])
  }

  /** The mean the source computes as a reduce followed by a division by length. */
  function Mean<T>(xs: seq<T>, f: T -> real): real
    requires |xs| > 0
  {
    Sum(xs, f) / |xs| as real
  }

  lemma {:induction false} SumBounds<T>(xs: seq<T>, f: T -> real, lo: real, hi: real)
    requires forall x :: x in xs ==> lo <= f(x) <= hi
    ensures |xs| as real * lo <= Sum(xs, f) <= |xs| as real * hi
  {
    if |xs| > 0 {
      SumBounds(xs[..|xs| - 1], f, lo, hi);
      assert xs[|xs| - 1] in xs;
    }
  }

  /** A mean of values that all lie in [lo, hi] lies in [lo, hi]. */
  lemma MeanBounds<T>(xs: seq<T>, f: T -> real, lo: real, hi: real)
    requires |xs| > 0
    requires forall x :: x in xs ==> lo <= f(x) <= hi
    ensures lo <= Mean(xs, f) <= hi
  {
    SumBounds(xs, f, lo, hi);
    var n := |xs| as real;
    assert n * lo <= Sum(xs, f) <= n * hi;
    DivBounds(Sum(xs, f), n, lo, hi);
  }

  /** `Math.round(total / count)` of integer values that all lie in [lo, hi]
      lies in [lo, hi] too. */
  lemma RoundedMeanBounds<T>(xs: seq<T>, f: T -> real, lo: int, hi: int)
    requires |xs| > 0
    requires forall x :: x in xs ==> lo as real <= f(x) <= hi as real
    ensures lo <= RoundHalfUp(Mean(xs, f)) <= hi
  {
    MeanBounds(xs, f, lo as real, hi as real);
  }

  lemma DivBounds(s: real, n: real, lo: real, hi: real)
    requires n > 0.0
    requires n * lo <= s <= n * hi
    ensures lo <= s / n <= hi
  {
  }

  lemma {:induction false} SumNonNegative<T>(xs: seq<T>, f: T -> real)
    requires forall x :: x in xs ==> 0.0 <= f(x)
    ensures 0.0 <= Sum(xs, f)
  {
    if |xs| > 0 {
      SumNonNegative(xs[..|xs| - 1], f);
      assert xs[|xs| - 1] in xs;
    }
  }

  // ---------------------------------------------------------------------------
  // Filtering

  /** `r` is `t` with some elements left out, the rest in their order in `t`. */
  predicate IsSubsequenceOf<T(==)>(r: seq<T>, t: seq<T>)
    decreases |t|
  {
    if |r| == 0 then true
    else if |t| == 0 then false
    else (r[|r| - 1] == t[|t| - 1] && IsSubsequenceOf(r[..|r| - 1], t[..|t| - 1]))
         || IsSubsequenceOf(r, t[..|t| - 1])
  }

  /** Every sequence is a subsequence of itself. */
  lemma {:induction false} SubsequenceOfSelf<T>(t: seq<T>)
    ensures IsSubsequenceOf(t, t)
    decreases |t|
  {
    if |t| > 0 {
      SubsequenceOfSelf(t[..|t| - 1]);
    }
  }

  /** Keeping or dropping one more element keeps the subsequence relation. */
  lemma SubsequenceSnoc<T>(r: seq<T>, t: seq<T>, x: T, kept: bool)
    requires IsSubsequenceOf(r, t)
    ensures IsSubsequenceOf(r + (if kept then [x] else []), t + [x])
  {
    var t' := t + [x];
    assert t'[..|t'| - 1] == t;
    if kept {
      var r' := r + [x];
      assert r'[..|r'| - 1] == r && r'[|r'| - 1] == t'[|t'| - 1];
      assert IsSubsequenceOf(r', t');
      assert r + (if kept then [x] else []) == r';
    } else {
      assert r + (if kept then [x] else []) == r;
      if |r| > 0 {
        assert IsSubsequenceOf(r, t'[..|t'| - 1]);
        assert IsSubsequenceOf(r, t');
      }
    }
  }

  /** The same for the counts of the kept elements. */
  lemma CountsSnoc<T>(r: seq<T>, t: seq<T>, x: T, keep: T -> bool)
    requires forall y :: multiset(r)[y] == if keep(y) then multiset(t)[y] else 0
    ensures var r' := r + (if keep(x) then [x] else []);
      forall y :: multiset(r')[y] == if keep(y) then multiset(t + [x])[y] else 0
  {
    var r' := r + (if keep(x) then [x] else []);
    assert multiset(t + [x]) == multiset(t) + multiset{x};
    assert multiset(r') == multiset(r) + (if keep(x) then multiset{x} else multiset{});
  }

  /** `s.filter(keep)`: the elements that pass, each as often as in `s`, in
      their order in `s`. */
  function Filter<T(!new)>(s: seq<T>, keep: T -> bool): (r: seq<T>)
    ensures |r| <= |s|
    ensures forall x :: x in r <==> x in s && keep(x)
    ensures forall x :: multiset(r)[x] == if keep(x) then multiset(s)[x] else 0
    ensures IsSubsequenceOf(r, s)
  {
    if |s| == 0 then []
    else
      var init, last := s[..|s| - 1], s[|s| - 1];
      assert s == init + [last];
      var r := Filter(init, keep);
      SubsequenceSnoc(r, init, last, keep(last));
      CountsSnoc(r, init, last, keep);
      r + (if keep(last) then [last] else [])
  }
}
