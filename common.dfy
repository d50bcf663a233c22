/** Shared vocabulary of the game model: optional values, axis-aligned boxes and their overlap
    test, distance thresholds stated without square roots, the JavaScript numeric idioms the
    source relies on (`Math.floor`, `Math.ceil`, a counted `for` loop, `x || d`), the foreign
    math functions, and the injected source of `Math.random` draws. */
module Common {

  datatype Option<T> = None | Some(value: T)

  /** An axis-aligned rectangle given by its top-left corner and its size, as every entity of
      the game carries it (`x`, `y`, `width`, `height`). */
  datatype Box = Box(x: real, y: real, width: real, height: real)

  /** The strict overlap test used for every rectangle collision of the game: the two boxes
      share an interior point on both axes. */
  predicate Overlaps(a: Box, b: Box)
  {
    a.x < b.x + b.width && a.x + a.width > b.x &&
    a.y < b.y + b.height && a.y + a.height > b.y
  }

  /** Overlap does not depend on which box is asked first. */
  lemma OverlapsSymmetric(a: Box, b: Box)
    ensures Overlaps(a, b) == Overlaps(b, a)
  {
  }

  /** Touching edges do not count as overlap, and a box of positive size overlaps itself. */
  lemma OverlapsStrict(a: Box, dx: real)
    requires a.width > 0.0 && a.height > 0.0
    ensures Overlaps(a, a)
    ensures !Overlaps(a, a.(x := a.x + a.width + dx)) <== dx >= 0.0
  {
  }

  /** `Math.sqrt(dx*dx + dy*dy) < r`: a non-negative root is below `r` exactly when `r` is
      positive and the squared distance is below `r*r`. */
  predicate WithinRadius(dx: real, dy: real, r: real)
  {
    r > 0.0 && dx * dx + dy * dy < r * r
  }

  /** `Math.sqrt(dx*dx + dy*dy) > r` for a non-negative threshold `r`. */
  predicate Beyond(dx: real, dy: real, r: real)
    requires r >= 0.0
  {
    dx * dx + dy * dy > r * r
  }

  function MinInt(a: int, b: int): int { if a <= b then a else b }
  function MaxInt(a: int, b: int): int { if a >= b then a else b }
  function MinReal(a: real, b: real): real { if a <= b then a else b }
  function MaxReal(a: real, b: real): real { if a >= b then a else b }

  /** `Math.ceil` on reals. */
  function Ceil(v: real): (c: int)
    ensures c as real - 1.0 < v <= c as real
  {
    -((-v).Floor)
  }

  /** How many times `for (let i = 0; i < v; i++)` runs: none for `v <= 0`, otherwise the
      count `n` of naturals below `v` (`n - 1 < v <= n`). */
  function LoopCount(v: real): (n: nat)
    ensures v <= 0.0 ==> n == 0
    ensures v > 0.0 ==> (n - 1) as real < v <= n as real
  {
    if v <= 0.0 then 0 else Ceil(v)
  }

  /** A whole-number bound runs exactly that many times, a fractional one rounds up. */
  lemma LoopCountRoundsUp(v: real)
    requires v > 0.0
    ensures LoopCount(v) == Ceil(v) && LoopCount(v) >= 1
    ensures v == v.Floor as real ==> LoopCount(v) == v.Floor
    ensures v != v.Floor as real ==> LoopCount(v) == v.Floor + 1
  {
  }

  /** `Array.prototype.map`: `f` applied to every element, in order. */
  function Map<T, U>(xs: seq<T>, f: T --> U): (r: seq<U>)
    requires forall i :: 0 <= i < |xs| ==> f.requires(xs[i])
    ensures |r| == |xs| && forall i :: 0 <= i < |xs| ==> r[i] == f(xs[i])
  {
    seq(|xs|, i requires 0 <= i < |xs| => f(xs[i]))
  }

  /** `Array.prototype.filter`: the elements of `xs` that pass `keep`, in their order. */
  function Filter<T>(xs: seq<T>, keep: T -> bool): (r: seq<T>)
    ensures |r| <= |xs|
    ensures forall i :: 0 <= i < |r| ==> keep(r[i]) && r[i] in xs
    decreases |xs|
  {
    if xs == [] then []
    else (if keep(xs[0]) then [xs[0]] else []) + Filter(xs[1..], keep)
  }

  /** Filtering a concatenation filters each part: the kept elements stay in their order. */
  lemma {:induction false} FilterAppend<T>(xs: seq<T>, ys: seq<T>, keep: T -> bool)
    ensures Filter(xs + ys, keep) == Filter(xs, keep) + Filter(ys, keep)
    decreases |xs|
  {
    if xs == [] {
      assert xs + ys == ys;
    } else {
      assert (xs + ys)[0] == xs[0] && (xs + ys)[1..] == xs[1..] + ys;
      FilterAppend(xs[1..], ys, keep);
    }
  }

  /** Nothing that passes is lost: each passing element is kept as often as it occurs, and
      an element that fails is never kept. */
  lemma {:induction false} FilterCounts<T>(xs: seq<T>, keep: T -> bool, x: T)
    ensures multiset(Filter(xs, keep))[x] == if keep(x) then multiset(xs)[x] else 0
    decreases |xs|
  {
    if xs != [] {
      FilterCounts(xs[1..], keep, x);
      assert xs == [xs[0]] + xs[1..];
      assert multiset(xs) == multiset([xs[0]]) + multiset(xs[1..]);
    }
  }

  /** A list whose every element passes is kept whole. */
  lemma {:induction false} FilterKeepsAll<T>(xs: seq<T>, keep: T -> bool)
    requires forall i :: 0 <= i < |xs| ==> keep(xs[i])
    ensures Filter(xs, keep) == xs
    decreases |xs|
  {
    if xs != [] {
      FilterKeepsAll(xs[1..], keep);
    }
  }

  /** Filtering a mapped list, taken apart at its first element. */
  lemma FilterMapFirst<T, U>(xs: seq<T>, f: T --> U, keep: U -> bool)
    requires xs != [] && forall i :: 0 <= i < |xs| ==> f.requires(xs[i])
    ensures Filter(Map(xs, f), keep) == (if keep(f(xs[0])) then [f(xs[0])] else []) + Filter(Map(xs[1..], f), keep)
  {
    assert Map(xs, f)[1..] == Map(xs[1..], f);
  }

  /** Filtering a mapped list, taken apart at its last element. */
  lemma FilterMapLast<T, U>(xs: seq<T>, f: T --> U, keep: U -> bool)
    requires xs != [] && forall i :: 0 <= i < |xs| ==> f.requires(xs[i])
    ensures Filter(Map(xs, f), keep) ==
            Filter(Map(xs[..|xs| - 1], f), keep) + (if keep(f(xs[|xs| - 1])) then [f(xs[|xs| - 1])] else [])
  {
    var n := |xs| - 1;
    assert Map(xs, f) == Map(xs[..n], f) + [f(xs[n])];
    FilterAppend(Map(xs[..n], f), [f(xs[n])], keep);
    assert [f(xs[n])][1..] == [];
  }

  /** JavaScript's `v || d` on a number: zero is falsy, so it falls back to `d`. */
  function OrDefault(v: real, d: real): real
  {
    if v == 0.0 then d else v
  }

  /** Division guarded against a zero divisor (where JavaScript would produce NaN). */
  function SafeDiv(a: real, b: real): real
  {
    if b == 0.0 then 0.0 else a / b
  }

  /** The foreign math library the game calls: `Math.sqrt`, `Math.sin`, `Math.cos` and `Math.PI`.
      Nothing is assumed about these functions; the model only passes values through them. */
  datatype MathLib = MathLib(sqrt: real -> real, sin: real -> real, cos: real -> real, pi: real)

  /** `Math.sqrt(a * a + b * b)`, the length of a vector, through the given library. */
  function Norm(m: MathLib, a: real, b: real): real
  {
    m.sqrt(a * a + b * b)
  }

  /** A math library whose `sqrt` is the true non-negative square root on non-negative input. */
  ghost predicate SoundSqrt(m: MathLib)
  {
    forall v :: v >= 0.0 ==> m.sqrt(v) >= 0.0 && m.sqrt(v) * m.sqrt(v) == v
  }

  /** Under a sound square root the length squares back to the sum of squares. */
  lemma NormSquared(m: MathLib, a: real, b: real)
    requires SoundSqrt(m)
    ensures Norm(m, a, b) >= 0.0 && Norm(m, a, b) * Norm(m, a, b) == a * a + b * b
  {
    assert a * a >= 0.0 && b * b >= 0.0;
  }

  /** The source of `Math.random()`: an injected stream of draws in [0, 1), consumed in order. */
  class Random {
    const source: nat -> real
    var next: nat

    ghost predicate Valid()
    {
      forall i: nat :: 0.0 <= source(i) < 1.0
    }

    constructor (source: nat -> real)
      requires forall i: nat :: 0.0 <= source(i) < 1.0
      ensures Valid() && this.source == source && next == 0
    {
      this.source := source;
      next := 0;
    }

    /** One call of `Math.random()`. */
    method Draw() returns (r: real)
      requires Valid()
      modifies this`next
      ensures r == source(old(next)) && next == old(next) + 1
      ensures 0.0 <= r < 1.0
    {
      r := source(next);
      next := next + 1;
    }
  }
}
