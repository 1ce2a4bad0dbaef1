/** The adaptive resolution policy of the portal scene capture: the render
    size chosen from the distance between the viewer's camera and the capture
    component, the optional clamp to the viewport, and the hysteresis that
    decides whether a new render target is allocated. Everything here is pure. */
module RenderSize {

  datatype Option<T> = None | Some(value: T)

  /** Size of the game viewport in whole pixels. */
  datatype Viewport = Viewport(x: nat, y: nat)

  const NEAR_DISTANCE: real := 300.0
  const FAR_DISTANCE: real := 2000.0
  const MAX_TEXTURE_SIZE: int := 1024
  const MIN_TEXTURE_SIZE: int := 256
  /** A render target is reallocated only when the size moves by more than this. */
  const RESIZE_THRESHOLD: int := 32

  predicate IsPowerOfTwo(n: int)
    decreases if n > 0 then n else 0
  {
    n == 1 || (n > 1 && n % 2 == 0 && IsPowerOfTwo(n / 2))
  }

  /** The sizes CalculateRenderSize can return. */
  const RENDER_SIZES: set<int> := {1, 2, 4, 8, 16, 32, 64, 128, 256, 512, 1024}

  predicate IsRenderSize(n: int) {
    n in RENDER_SIZES
  }

  /** The render sizes are exactly the powers of two up to the maximum size. */
  lemma {:induction false} RenderSizesArePowers(n: int)
    ensures IsRenderSize(n) <==> IsPowerOfTwo(n) && n <= MAX_TEXTURE_SIZE
  {
    if IsPowerOfTwo(n) && n <= MAX_TEXTURE_SIZE && n > 1 {
      RenderSizesArePowers(n / 2);
    }
  }

  /** The smallest power of two, starting the search at `p`, that is at least `n`. */
  function PowerOfTwoAtLeast(n: int, p: nat): (r: nat)
    requires IsPowerOfTwo(p)
    ensures IsPowerOfTwo(r) && n <= r && p <= r
    ensures r == p || r / 2 < n
    decreases if n > p then n - p else 0
  {
    if n <= p then p else PowerOfTwoAtLeast(n, 2 * p)
  }

  /** The engine's RoundUpToPowerOfTwo: the least power of two that is at
      least `n` (1 for every `n` up to 1). */
  function RoundUpToPowerOfTwo(n: int): (r: nat)
    ensures IsPowerOfTwo(r) && n <= r
    ensures r == 1 || r / 2 < n
  {
    PowerOfTwoAtLeast(n, 1)
  }

  /** Of two powers of two, one that is more than half of the other is at least as large. */
  lemma {:induction false} PowerOfTwoAbove(p: int, q: int)
    requires IsPowerOfTwo(p) && IsPowerOfTwo(q)
    requires p / 2 < q
    ensures p <= q
  {
    if p > 1 && q > 1 {
      PowerOfTwoAbove(p / 2, q / 2);
    }
  }

  /** RoundUpToPowerOfTwo returns the LEAST power of two at or above its argument. */
  lemma RoundUpIsLeast(n: int, q: int)
    requires IsPowerOfTwo(q) && n <= q
    ensures RoundUpToPowerOfTwo(n) <= q
  {
    var r := RoundUpToPowerOfTwo(n);
    if r != 1 {
      PowerOfTwoAbove(r, q);
    }
  }

  /** A power of two is its own round-up. */
  lemma RoundUpFixesPowers(n: int)
    requires IsPowerOfTwo(n)
    ensures RoundUpToPowerOfTwo(n) == n
  {
    RoundUpIsLeast(n, n);
  }

  lemma RoundUpMonotone(a: int, b: int)
    requires a <= b
    ensures RoundUpToPowerOfTwo(a) <= RoundUpToPowerOfTwo(b)
  {
    RoundUpIsLeast(a, RoundUpToPowerOfTwo(b));
  }

  /** The engine's Clamp(x, lo, hi): `lo` below it, `hi` at or above it.
      When `hi < lo` the result is `lo` for `x < lo` and `hi` otherwise. */
  function Clamp(x: int, lo: int, hi: int): (r: int)
    ensures lo <= hi ==> lo <= r <= hi
    ensures lo <= x && x < hi ==> r == x
  {
    if x < lo then lo else if x < hi then x else hi
  }

  function ClampReal(x: real, lo: real, hi: real): (r: real)
    ensures lo <= hi ==> lo <= r <= hi
    ensures lo <= x && x < hi ==> r == x
  {
    if x < lo then lo else if x < hi then x else hi
  }

  /** The interpolation factor: 0 up to the near distance, 1 from the far distance on. */
  function Alpha(distance: real): (a: real)
    ensures 0.0 <= a <= 1.0
    ensures distance <= NEAR_DISTANCE ==> a == 0.0
    ensures distance >= FAR_DISTANCE ==> a == 1.0
  {
    ClampReal((distance - NEAR_DISTANCE) / (FAR_DISTANCE - NEAR_DISTANCE), 0.0, 1.0)
  }

  /** Lerp from the maximum to the minimum size, converted to an integer.
      The interpolated value is never negative, so truncation is the floor. */
  function LerpedSize(distance: real): (s: int)
    ensures MIN_TEXTURE_SIZE <= s <= MAX_TEXTURE_SIZE
    ensures distance <= NEAR_DISTANCE ==> s == MAX_TEXTURE_SIZE
    ensures distance >= FAR_DISTANCE ==> s == MIN_TEXTURE_SIZE
  {
    var a := Alpha(distance);
    (MAX_TEXTURE_SIZE as real + a * (MIN_TEXTURE_SIZE - MAX_TEXTURE_SIZE) as real).Floor
  }

  /** The viewport's smaller side, rounded up to a power of two: the least
      power of two that reaches at least one of the two sides. */
  function ScreenBound(v: Viewport): (b: int)
    ensures IsPowerOfTwo(b)
    ensures v.x <= b || v.y <= b
    ensures b == 1 || (b / 2 < v.x && b / 2 < v.y)
  {
    RoundUpToPowerOfTwo(if v.x < v.y then v.x else v.y)
  }

  /** CalculateRenderSize: the square render size for a capture at `distance`
      from the viewer's camera, clamped to the viewport when one exists. */
  function CalculateRenderSize(distance: real, viewport: Option<Viewport>): (r: int)
    ensures IsRenderSize(r)
  {
    var size := RoundUpToPowerOfTwo(LerpedSize(distance));
    RoundUpMonotone(LerpedSize(distance), MAX_TEXTURE_SIZE);
    RoundUpFixesPowers(MAX_TEXTURE_SIZE);
    RenderSizesArePowers(size);
    match viewport
    case None => size
    case Some(v) =>
      var bound := ScreenBound(v);
      RenderSizesArePowers(bound);
      Clamp(size, MIN_TEXTURE_SIZE, bound)
  }

  lemma PowersBetweenMinAndMax(p: int)
    requires IsPowerOfTwo(p) && MIN_TEXTURE_SIZE <= p <= MAX_TEXTURE_SIZE
    ensures p == 256 || p == 512 || p == 1024
  {
    if 256 < p <= 512 {
      PowerOfTwoAbove(512, p);
    } else if 512 < p {
      PowerOfTwoAbove(1024, p);
    }
  }

  /** Without a viewport the size is one of 256, 512 and 1024: 1024 at or
      below the near distance and 256 at or beyond the far distance. */
  lemma UnclampedSizes(distance: real)
    ensures var r := CalculateRenderSize(distance, None);
      (r == 256 || r == 512 || r == 1024)
      && (distance <= NEAR_DISTANCE ==> r == MAX_TEXTURE_SIZE)
      && (distance >= FAR_DISTANCE ==> r == MIN_TEXTURE_SIZE)
  {
    var s := LerpedSize(distance);
    RoundUpMonotone(MIN_TEXTURE_SIZE, s);
    RoundUpMonotone(s, MAX_TEXTURE_SIZE);
    RoundUpFixesPowers(MIN_TEXTURE_SIZE);
    RoundUpFixesPowers(MAX_TEXTURE_SIZE);
    PowersBetweenMinAndMax(RoundUpToPowerOfTwo(s));
  }

  /** Between the minimum and maximum sizes, rounding up gives 1024 exactly
      above 512, and 256 only for 256 itself. */
  lemma RoundUpBands(s: int)
    requires MIN_TEXTURE_SIZE <= s <= MAX_TEXTURE_SIZE
    ensures RoundUpToPowerOfTwo(s) == 1024 <==> s > 512
    ensures RoundUpToPowerOfTwo(s) == 256 <==> s == 256
  {
    var r := RoundUpToPowerOfTwo(s);
    RoundUpMonotone(MIN_TEXTURE_SIZE, s);
    RoundUpMonotone(s, MAX_TEXTURE_SIZE);
    RoundUpFixesPowers(MIN_TEXTURE_SIZE);
    RoundUpFixesPowers(MAX_TEXTURE_SIZE);
    PowersBetweenMinAndMax(r);
    if s <= 512 {
      RoundUpIsLeast(s, 512);
    }
  }

  /** Without a viewport, the distances that get each size: 1024 up to the
      point where the interpolated size drops to 512, 256 once it drops
      below 257, and 512 in between. */
  lemma UnclampedBands(distance: real)
    ensures var r := CalculateRenderSize(distance, None);
      (r == 1024 <==> distance <= NEAR_DISTANCE + (FAR_DISTANCE - NEAR_DISTANCE) * 511.0 / 768.0)
      && (r == 256 <==> distance > NEAR_DISTANCE + (FAR_DISTANCE - NEAR_DISTANCE) * 767.0 / 768.0)
  {
    var s := LerpedSize(distance);
    var v := MAX_TEXTURE_SIZE as real + Alpha(distance) * (MIN_TEXTURE_SIZE - MAX_TEXTURE_SIZE) as real;
    assert s as real <= v < s as real + 1.0;
    RoundUpBands(s);
  }

  lemma LerpedSizeMonotone(d1: real, d2: real)
    requires d1 <= d2
    ensures LerpedSize(d2) <= LerpedSize(d1)
  {
    var a1, a2 := Alpha(d1), Alpha(d2);
    assert a1 <= a2 by {
      var x1 := (d1 - NEAR_DISTANCE) / (FAR_DISTANCE - NEAR_DISTANCE);
      var x2 := (d2 - NEAR_DISTANCE) / (FAR_DISTANCE - NEAR_DISTANCE);
      assert x1 <= x2;
    }
    var v1 := MAX_TEXTURE_SIZE as real + a1 * (MIN_TEXTURE_SIZE - MAX_TEXTURE_SIZE) as real;
    var v2 := MAX_TEXTURE_SIZE as real + a2 * (MIN_TEXTURE_SIZE - MAX_TEXTURE_SIZE) as real;
    assert v2 <= v1;
  }

  /** The farther the viewer, the smaller (or equal) the render size, with or without a viewport. */
  lemma RenderSizeMonotone(d1: real, d2: real, viewport: Option<Viewport>)
    requires d1 <= d2
    ensures CalculateRenderSize(d2, viewport) <= CalculateRenderSize(d1, viewport)
  {
    LerpedSizeMonotone(d1, d2);
    RoundUpMonotone(LerpedSize(d2), LerpedSize(d1));
  }

  /** With a viewport the size never exceeds the screen bound. It is at least
      the minimum size exactly when the screen bound is: then it is the
      smaller of the unclamped size and the bound; below that it is the
      screen bound itself. */
  lemma ViewportClamp(distance: real, v: Viewport)
    ensures var r := CalculateRenderSize(distance, Some(v));
      var u := CalculateRenderSize(distance, None);
      var b := ScreenBound(v);
      r <= b
      && r <= u
      && (r >= MIN_TEXTURE_SIZE <==> b >= MIN_TEXTURE_SIZE)
      && (b >= MIN_TEXTURE_SIZE ==> r == (if u < b then u else b))
      && (b < MIN_TEXTURE_SIZE ==> r == b)
  {
    UnclampedSizes(distance);
  }

  /** The resize rule: a reallocation happens only when the desired size
      differs from the cached one by more than the threshold. */
  predicate NeedsResize(desired: int, cached: int)
    ensures NeedsResize(desired, cached) ==> desired != cached
    ensures !NeedsResize(desired, cached) <==> -RESIZE_THRESHOLD <= desired - cached <= RESIZE_THRESHOLD
  {
    desired - cached > RESIZE_THRESHOLD || cached - desired > RESIZE_THRESHOLD
  }

  /** The cached size after one update towards `desired`; a second update
      towards the same size never reallocates again. */
  function NextCachedSize(desired: int, cached: int): (c: int)
    ensures c == desired || c == cached
    ensures !NeedsResize(desired, c)
    ensures c != cached <==> NeedsResize(desired, cached) && desired != cached
  {
    if NeedsResize(desired, cached) then desired else cached
  }

  /** Two different render sizes of at least 64 are always far enough apart
      to reallocate: the hysteresis only ever holds back changes among the
      tiny sizes a viewport under 64 pixels produces, and changes away from
      the initial cached size 0 to sizes of at most 32. */
  lemma {:induction false} DistinctSizesResize(p: int, q: int)
    requires IsPowerOfTwo(p) && IsPowerOfTwo(q) && p != q
    requires p >= 64 && q >= 64
    ensures NeedsResize(p, q)
  {
    if p < q {
      PowerOfTwoAbove(2 * p, q);
    } else {
      PowerOfTwoAbove(2 * q, p);
    }
  }
}
