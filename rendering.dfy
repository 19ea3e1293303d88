/** The rendering session of atomic_renderer.py: min-max normalisation of
    the point cloud with aspect preservation and margin, the colour flag,
    the palette's final clip, aspect-corrected pixel indexing, and the
    `AtomicRenderer` class whose buffer is filled by a scatter-add. */
module Rendering {
  import opened Common
  import opened Grids

  // ---------------------------------------------------------------------
  // Real arithmetic helpers

  /** Division by a positive number keeps the order. */
  lemma DivOrder(a: real, b: real, d: real)
    requires d > 0.0
    ensures a <= b <==> a / d <= b / d
  {
    var qa, qb := a / d, b / d;
    assert qa * d == a && qb * d == b;
    if a <= b {
      assert (qb - qa) * d == b - a;
    } else {
      assert (qa - qb) * d == a - b;
    }
  }

  /** Multiplication by a positive number keeps the order. */
  lemma MulOrder(a: real, b: real, p: real)
    requires p > 0.0 && a <= b
    ensures a * p <= b * p
  {
    assert b * p - a * p == (b - a) * p;
  }

  lemma MulPositive(a: real, b: real)
    requires a > 0.0 && b > 0.0
    ensures a * b > 0.0
  {
  }

  lemma DivSelf(d: real)
    requires d != 0.0
    ensures d / d == 1.0
  {
  }

  lemma DivZero(d: real)
    requires d != 0.0
    ensures 0.0 / d == 0.0
  {
  }

  // ---------------------------------------------------------------------
  // `normalize`

  /** Maps [mn, mx] affinely onto [0, 1]. */
  function UnitRescale(v: real, mn: real, mx: real): real
    requires mn < mx
  {
    (v - mn) / (mx - mn)
  }

  lemma RescaleBounds(v: real, mn: real, mx: real)
    requires mn < mx && mn <= v <= mx
    ensures 0.0 <= UnitRescale(v, mn, mx) <= 1.0
  {
    DivOrder(0.0, v - mn, mx - mn);
    DivOrder(v - mn, mx - mn, mx - mn);
  }

  lemma RescaleEnds(mn: real, mx: real)
    requires mn < mx
    ensures UnitRescale(mx, mn, mx) == 1.0 && UnitRescale(mn, mn, mx) == 0.0
  {
    DivSelf(mx - mn);
    DivZero(mx - mn);
  }

  lemma RescaleOrder(a: real, b: real, mn: real, mx: real)
    requires mn < mx
    ensures a <= b <==> UnitRescale(a, mn, mx) <= UnitRescale(b, mn, mx)
  {
    DivOrder(a - mn, b - mn, mx - mn);
  }

  /** `normalize(x)`: `(x - x.min()) / (x.max() - x.min())`. */
  function Normalize(s: seq<real>): (r: seq<real>)
    requires |s| > 0 && Min(s) < Max(s)
    ensures |r| == |s|
    ensures forall k :: 0 <= k < |s| ==> r[k] == UnitRescale(s[k], Min(s), Max(s))
    ensures forall k :: 0 <= k < |s| ==> 0.0 <= r[k] <= 1.0
  {
    var mn, mx := Min(s), Max(s);
    var r := MapReal(s, v => UnitRescale(v, mn, mx));
    assert forall k :: 0 <= k < |s| ==> 0.0 <= r[k] <= 1.0 by {
      forall k | 0 <= k < |s|
        ensures 0.0 <= r[k] <= 1.0
      {
        RescaleBounds(s[k], mn, mx);
      }
    }
    r
  }

  lemma {:induction false} NormalizeMaxIsOne(s: seq<real>)
    requires |s| > 0 && Min(s) < Max(s)
    ensures Max(Normalize(s)) == 1.0
  {
    var r := Normalize(s);
    var i :| 0 <= i < |s| && s[i] == Max(s);
    RescaleEnds(Min(s), Max(s));
    assert r[i] == 1.0;
    MaxIsAttainedBound(r, 1.0, i);
  }

  lemma {:induction false} NormalizeMinIsZero(s: seq<real>)
    requires |s| > 0 && Min(s) < Max(s)
    ensures Min(Normalize(s)) == 0.0
  {
    var r := Normalize(s);
    var j :| 0 <= j < |s| && s[j] == Min(s);
    RescaleEnds(Min(s), Max(s));
    assert r[j] == 0.0;
    MinIsAttainedBound(r, 0.0, j);
  }

  /** The minimum goes to 0 and the maximum to 1. */
  lemma {:induction false} NormalizeExtremes(s: seq<real>)
    requires |s| > 0 && Min(s) < Max(s)
    ensures Min(Normalize(s)) == 0.0 && Max(Normalize(s)) == 1.0
  {
    NormalizeMaxIsOne(s);
    NormalizeMinIsZero(s);
  }

  /** Normalisation keeps the relative order of any two points. */
  lemma {:induction false} NormalizePreservesOrder(s: seq<real>, k: int, l: int)
    requires |s| > 0 && Min(s) < Max(s)
    requires 0 <= k < |s| && 0 <= l < |s|
    ensures s[k] <= s[l] <==> Normalize(s)[k] <= Normalize(s)[l]
  {
    RescaleOrder(s[k], s[l], Min(s), Max(s));
  }

  // ---------------------------------------------------------------------
  // `normalize_points`: spans, aspect and margin

  /** Spans below this make `normalize_points` raise. */
  const MinSpan: real := 0.000001

  function Span(s: seq<real>): real
    requires |s| > 0
  {
    Max(s) - Min(s)
  }

  /** `x_aspect_adjust, y_aspect_adjust` from `xy_aspect = delta_x / delta_y`:
      the wider axis keeps factor 1 and the other shrinks so that the
      adjusted factors stand in the ratio dx : dy. */
  function AspectAdjust(dx: real, dy: real): (adj: (real, real))
    requires dx > 0.0 && dy > 0.0
    ensures 0.0 < adj.0 <= 1.0 && 0.0 < adj.1 <= 1.0
    ensures dx >= dy ==> adj.0 == 1.0
    ensures dy >= dx ==> adj.1 == 1.0
    ensures adj.0 * dy == adj.1 * dx
  {
    var aspect := dx / dy;
    assert aspect * dy == dx;
    DivOrder(dy, dx, dy);
    assert dy / dy == 1.0;
    if aspect >= 1.0 then
      assert 1.0 / aspect * aspect == 1.0;
      DivOrder(1.0, aspect, aspect);
      (1.0, 1.0 / aspect)
    else
      (aspect, 1.0)
  }

  /** The normalised coordinates a successful `normalize_points` stores. */
  datatype Axes = Axes(xs: seq<real>, ys: seq<real>)

  /** `image_area_size * (v - 0.5) * adjust` for one normalised value. */
  function Place(v: real, areaSize: real, adjust: real): real
  {
    areaSize * (v - 0.5) * adjust
  }

  /** `Place` applied elementwise to a normalised axis. */
  function PlaceAxis(n: seq<real>, areaSize: real, adjust: real): (p: seq<real>)
    ensures |p| == |n|
    ensures forall k :: 0 <= k < |n| ==> p[k] == Place(n[k], areaSize, adjust)
  {
    MapReal(n, v => Place(v, areaSize, adjust))
  }

  /** Neither span is below the 1e-6 threshold. */
  predicate Spread(xs: seq<real>, ys: seq<real>)
  {
    |xs| > 0 && |ys| > 0 && Span(xs) >= MinSpan && Span(ys) >= MinSpan
  }

  /** `1 - 2*margin`, the side of the square the points are placed in. */
  function AreaSize(margin: real): real
  {
    1.0 - 2.0 * margin
  }

  /** The rescaled axes of a spread point cloud. */
  function AxesOf(xs: seq<real>, ys: seq<real>, margin: real): (a: Axes)
    requires Spread(xs, ys)
    ensures |a.xs| == |xs| && |a.ys| == |ys|
  {
    var adj := AspectAdjust(Span(xs), Span(ys));
    Axes(PlaceAxis(Normalize(xs), AreaSize(margin), adj.0), PlaceAxis(Normalize(ys), AreaSize(margin), adj.1))
  }

  /** The coordinate part of `normalize_points`. An empty array makes
      numpy's `max` raise; a span below 1e-6 raises the instability error;
      otherwise both axes are rescaled into the margin-reduced square. */
  function NormalizeAxes(xs: seq<real>, ys: seq<real>, margin: real): (r: Result<Axes>)
    ensures r.Err? <==> (|xs| == 0 || |ys| == 0 || Span(xs) < MinSpan || Span(ys) < MinSpan)
    ensures r.Err? && (|xs| == 0 || |ys| == 0) ==> r.error == EmptyInput
    ensures r.Err? && |xs| > 0 && |ys| > 0 ==> r.error == DegenerateRange
    ensures r.Ok? ==> Spread(xs, ys) && r.value == AxesOf(xs, ys, margin)
  {
    if |xs| == 0 || |ys| == 0 then Err(EmptyInput)
    else if Span(xs) < MinSpan || Span(ys) < MinSpan then Err(DegenerateRange)
    else Ok(AxesOf(xs, ys, margin))
  }

  lemma HalfBound(t: real, p: real, bound: real)
    requires -0.5 <= t <= 0.5 && 0.0 < p <= bound
    ensures -(bound / 2.0) <= t * p <= bound / 2.0
  {
    MulOrder(p, bound, 0.5);
    MulOrder(-0.5, t, p);
    MulOrder(t, 0.5, p);
  }

  /** A placed value lies within half the area times its adjust factor. */
  lemma PlaceWithin(u: real, areaSize: real, adjust: real)
    requires 0.0 <= u <= 1.0 && areaSize > 0.0 && adjust > 0.0
    ensures -(areaSize * adjust / 2.0) <= Place(u, areaSize, adjust) <= areaSize * adjust / 2.0
  {
    MulPositive(areaSize, adjust);
    assert Place(u, areaSize, adjust) == (u - 0.5) * (areaSize * adjust);
    HalfBound(u - 0.5, areaSize * adjust, areaSize * adjust);
  }

  lemma PlaceEnds(areaSize: real, adjust: real)
    ensures Place(1.0, areaSize, adjust) == areaSize * adjust / 2.0
    ensures Place(0.0, areaSize, adjust) == -(areaSize * adjust / 2.0)
  {
  }

  /** And within half the area itself, since the adjust factor is at most 1. */
  lemma PlaceBound(u: real, areaSize: real, adjust: real)
    requires 0.0 <= u <= 1.0 && areaSize > 0.0 && 0.0 < adjust <= 1.0
    ensures -(areaSize / 2.0) <= Place(u, areaSize, adjust) <= areaSize / 2.0
  {
    MulPositive(areaSize, adjust);
    MulOrder(adjust, 1.0, areaSize);
    assert Place(u, areaSize, adjust) == (u - 0.5) * (areaSize * adjust);
    HalfBound(u - 0.5, areaSize * adjust, areaSize);
  }

  /** A normalised axis, placed, stays within half the area size. */
  lemma {:induction false} PlacedWithinHalfArea(n: seq<real>, areaSize: real, adjust: real)
    requires forall k :: 0 <= k < |n| ==> 0.0 <= n[k] <= 1.0
    requires areaSize > 0.0 && 0.0 < adjust <= 1.0
    ensures forall k :: 0 <= k < |n| ==>
      -(areaSize / 2.0) <= PlaceAxis(n, areaSize, adjust)[k] <= areaSize / 2.0
  {
    var p := PlaceAxis(n, areaSize, adjust);
    forall k | 0 <= k < |n|
      ensures -(areaSize / 2.0) <= p[k] <= areaSize / 2.0
    {
      PlaceBound(n[k], areaSize, adjust);
    }
  }

  /** Every normalised coordinate lies in [-(0.5 - margin), 0.5 - margin]. */
  lemma {:induction false} NormalizedAxesInMargin(xs: seq<real>, ys: seq<real>, margin: real)
    requires 0.0 <= margin < 0.4
    requires NormalizeAxes(xs, ys, margin).Ok?
    ensures var a := NormalizeAxes(xs, ys, margin).value;
      (forall k :: 0 <= k < |a.xs| ==> -(0.5 - margin) <= a.xs[k] <= 0.5 - margin) &&
      (forall k :: 0 <= k < |a.ys| ==> -(0.5 - margin) <= a.ys[k] <= 0.5 - margin)
  {
    var adj := AspectAdjust(Span(xs), Span(ys));
    assert AreaSize(margin) / 2.0 == 0.5 - margin;
    PlacedWithinHalfArea(Normalize(xs), AreaSize(margin), adj.0);
    PlacedWithinHalfArea(Normalize(ys), AreaSize(margin), adj.1);
  }

  /** Half the extent of a placed axis. */
  function HalfExtent(areaSize: real, adjust: real): real
  {
    areaSize * adjust / 2.0
  }

  /** Placing a normalised axis spans exactly [-HalfExtent, HalfExtent]. */
  lemma {:induction false} PlacedExtremes(n: seq<real>, areaSize: real, adjust: real)
    requires |n| > 0 && areaSize > 0.0 && adjust > 0.0
    requires forall k :: 0 <= k < |n| ==> 0.0 <= n[k] <= 1.0
    requires Min(n) == 0.0 && Max(n) == 1.0
    ensures Max(PlaceAxis(n, areaSize, adjust)) == HalfExtent(areaSize, adjust)
    ensures Min(PlaceAxis(n, areaSize, adjust)) == -HalfExtent(areaSize, adjust)
    ensures Span(PlaceAxis(n, areaSize, adjust)) == 2.0 * HalfExtent(areaSize, adjust)
  {
    var p := PlaceAxis(n, areaSize, adjust);
    var e := HalfExtent(areaSize, adjust);
    var i :| 0 <= i < |n| && n[i] == Max(n);
    var j :| 0 <= j < |n| && n[j] == Min(n);
    forall k | 0 <= k < |p|
      ensures -e <= p[k] <= e
    {
      PlaceWithin(n[k], areaSize, adjust);
    }
    PlaceEnds(areaSize, adjust);
    MaxIsAttainedBound(p, e, i);
    MinIsAttainedBound(p, -e, j);
  }

  /** Each placed axis spans exactly [-HalfExtent, HalfExtent] for its
      adjust factor. */
  lemma {:induction false} NormalizedAxesSpans(xs: seq<real>, ys: seq<real>, margin: real)
    requires 0.0 <= margin < 0.4 && Spread(xs, ys)
    ensures var a := AxesOf(xs, ys, margin);
      var adj := AspectAdjust(Span(xs), Span(ys));
      Max(a.xs) == HalfExtent(AreaSize(margin), adj.0) && Min(a.xs) == -HalfExtent(AreaSize(margin), adj.0) &&
      Max(a.ys) == HalfExtent(AreaSize(margin), adj.1) && Min(a.ys) == -HalfExtent(AreaSize(margin), adj.1) &&
      Span(a.xs) == 2.0 * HalfExtent(AreaSize(margin), adj.0) && Span(a.ys) == 2.0 * HalfExtent(AreaSize(margin), adj.1)
  {
    var adj := AspectAdjust(Span(xs), Span(ys));
    NormalizeExtremes(xs);
    NormalizeExtremes(ys);
    PlacedExtremes(Normalize(xs), AreaSize(margin), adj.0);
    PlacedExtremes(Normalize(ys), AreaSize(margin), adj.1);
  }

  /** The axis with the larger input span fills [-(0.5 - margin), 0.5 -
      margin] exactly (both do when the spans are equal). */
  lemma {:induction false} NormalizedAxesFillMargin(xs: seq<real>, ys: seq<real>, margin: real)
    requires 0.0 <= margin < 0.4
    requires NormalizeAxes(xs, ys, margin).Ok?
    ensures var a := NormalizeAxes(xs, ys, margin).value;
      |a.xs| > 0 && |a.ys| > 0 &&
      (Span(xs) >= Span(ys) ==> Min(a.xs) == -(0.5 - margin) && Max(a.xs) == 0.5 - margin) &&
      (Span(ys) >= Span(xs) ==> Min(a.ys) == -(0.5 - margin) && Max(a.ys) == 0.5 - margin)
  {
    NormalizedAxesSpans(xs, ys, margin);
    assert HalfExtent(AreaSize(margin), 1.0) == 0.5 - margin;
  }

  lemma PlaceDifference(u: real, v: real, areaSize: real, adjust: real)
    ensures Place(u, areaSize, adjust) - Place(v, areaSize, adjust) == areaSize * adjust * (u - v)
  {
  }

  lemma RescaleDifference(x: real, y: real, mn: real, mx: real)
    requires mn < mx
    ensures UnitRescale(x, mn, mx) - UnitRescale(y, mn, mx) == (x - y) / (mx - mn)
  {
  }

  /** `areaSize / d`, with `d` the larger span, is `areaSize * adjust /
      span` for either axis's adjust factor. */
  lemma AdjustedFactor(dx: real, dy: real, d: real, areaSize: real, factor: real)
    requires dx > 0.0 && dy > 0.0 && areaSize > 0.0
    requires d == (if dx >= dy then dx else dy) && factor == areaSize / d
    ensures var adj := AspectAdjust(dx, dy);
      factor > 0.0 && factor == areaSize * adj.0 / dx && factor == areaSize * adj.1 / dy
  {
    var adj := AspectAdjust(dx, dy);
    if dx >= dy {
      assert adj.1 * dx == dy;
      assert adj.1 / dy == 1.0 / dx;
      assert areaSize * adj.1 / dy == areaSize * (adj.1 / dy);
    } else {
      assert adj.0 * dy == dx;
      assert adj.0 / dx == 1.0 / dy;
      assert areaSize * adj.0 / dx == areaSize * (adj.0 / dx);
    }
  }

  /** `areaSize * adjust / span`: the factor by which placing a
      normalised axis scales differences of its inputs. */
  function AxisFactor(areaSize: real, adjust: real, span: real): real
    requires span > 0.0
  {
    areaSize * adjust / span
  }

  /** `d1 == factor * d0`. */
  predicate ScaledBy(d1: real, d0: real, factor: real)
  {
    d1 == factor * d0
  }

  lemma AxisFactorSpan(areaSize: real, adjust: real, span: real, factor: real)
    requires span > 0.0 && factor == AxisFactor(areaSize, adjust, span)
    ensures factor * span == areaSize * adjust
  {
  }

  lemma ScaledDifference(pi: real, pj: real, x: real, y: real, mn: real, mx: real,
                                            span: real, areaSize: real, adjust: real, factor: real)
    requires mn < mx && span == mx - mn && factor == AxisFactor(areaSize, adjust, span)
    requires pi == Place(UnitRescale(x, mn, mx), areaSize, adjust)
    requires pj == Place(UnitRescale(y, mn, mx), areaSize, adjust)
    ensures ScaledBy(pi - pj, x - y, factor)
  {
    AxisFactorSpan(areaSize, adjust, span, factor);
    PlaceDifference(UnitRescale(x, mn, mx), UnitRescale(y, mn, mx), areaSize, adjust);
    RescaleDifference(x, y, mn, mx);
    var q := (x - y) / span;
    assert q * span == x - y;
    assert areaSize * adjust * q == factor * span * q;
    assert factor * span * q == factor * (q * span);
  }

  /** Placing a normalised axis scales every difference of two inputs by
      the axis factor. */
  lemma {:induction false} PlacedAxisScales(s: seq<real>, n: seq<real>, p: seq<real>, areaSize: real, adjust: real, i: int, j: int)
    requires |s| > 0 && Min(s) < Max(s) && 0 <= i < |s| && 0 <= j < |s|
    requires n == Normalize(s) && p == PlaceAxis(n, areaSize, adjust)
    ensures |p| == |s| && ScaledBy(p[i] - p[j], s[i] - s[j], AxisFactor(areaSize, adjust, Span(s)))
  {
    ScaledDifference(p[i], p[j], s[i], s[j], Min(s), Max(s), Span(s), areaSize, adjust, AxisFactor(areaSize, adjust, Span(s)));
  }

  /** The two axes' factors are equal and positive. */
  lemma AspectFactorsAgree(dx: real, dy: real, areaSize: real)
    requires dx > 0.0 && dy > 0.0 && areaSize > 0.0
    ensures AxisFactor(areaSize, AspectAdjust(dx, dy).0, dx) > 0.0
    ensures AxisFactor(areaSize, AspectAdjust(dx, dy).0, dx) == AxisFactor(areaSize, AspectAdjust(dx, dy).1, dy)
  {
    AdjustedFactor(dx, dy, if dx >= dy then dx else dy, areaSize, areaSize / (if dx >= dy then dx else dy));
  }

  /** Aspect preservation, pointwise: one positive factor scales every
      x-distance and every y-distance between input points. */
  lemma {:induction false} NormalizedPointsScaleUniformly(xs: seq<real>, ys: seq<real>, margin: real, i: int, j: int, k: int, l: int)
    requires 0.0 <= margin < 0.4 && Spread(xs, ys)
    requires 0 <= i < |xs| && 0 <= j < |xs| && 0 <= k < |ys| && 0 <= l < |ys|
    ensures var a := AxesOf(xs, ys, margin);
      var factor := AxisFactor(AreaSize(margin), AspectAdjust(Span(xs), Span(ys)).0, Span(xs));
      factor > 0.0 &&
      ScaledBy(a.xs[i] - a.xs[j], xs[i] - xs[j], factor) &&
      ScaledBy(a.ys[k] - a.ys[l], ys[k] - ys[l], factor)
  {
    var adj := AspectAdjust(Span(xs), Span(ys));
    AspectFactorsAgree(Span(xs), Span(ys), AreaSize(margin));
    PlacedAxisScales(xs, Normalize(xs), AxesOf(xs, ys, margin).xs, AreaSize(margin), adj.0, i, j);
    PlacedAxisScales(ys, Normalize(ys), AxesOf(xs, ys, margin).ys, AreaSize(margin), adj.1, k, l);
  }

  /** `outX / outY == dx / dy`, cross-multiplied. */
  predicate SameRatio(outX: real, outY: real, dx: real, dy: real)
  {
    outX * dy == outY * dx
  }

  lemma ExtentsKeepRatio(outX: real, outY: real, areaSize: real, dx: real, dy: real)
    requires dx > 0.0 && dy > 0.0
    requires outX == 2.0 * HalfExtent(areaSize, AspectAdjust(dx, dy).0)
    requires outY == 2.0 * HalfExtent(areaSize, AspectAdjust(dx, dy).1)
    ensures SameRatio(outX, outY, dx, dy)
  {
    var adj := AspectAdjust(dx, dy);
    assert outX * dy == areaSize * (adj.0 * dy);
    assert outY * dx == areaSize * (adj.1 * dx);
  }

  /** Each placed axis is exactly twice its half extent wide. */
  lemma {:induction false} NormalizedAxesWidths(xs: seq<real>, ys: seq<real>, margin: real)
    requires 0.0 <= margin < 0.4 && Spread(xs, ys)
    ensures var a := AxesOf(xs, ys, margin);
      |a.xs| > 0 && |a.ys| > 0 &&
      Span(a.xs) == 2.0 * HalfExtent(AreaSize(margin), AspectAdjust(Span(xs), Span(ys)).0) &&
      Span(a.ys) == 2.0 * HalfExtent(AreaSize(margin), AspectAdjust(Span(xs), Span(ys)).1)
  {
    NormalizedAxesSpans(xs, ys, margin);
  }

  /** Aspect preservation: the output x-span over the output y-span equals
      the input x-span over the input y-span (stated cross-multiplied). */
  lemma {:induction false} NormalizedAxesKeepAspect(xs: seq<real>, ys: seq<real>, margin: real)
    requires 0.0 <= margin < 0.4 && Spread(xs, ys)
    ensures var a := AxesOf(xs, ys, margin);
      |a.xs| > 0 && |a.ys| > 0 && SameRatio(Span(a.xs), Span(a.ys), Span(xs), Span(ys))
  {
    NormalizedAxesWidths(xs, ys, margin);
    ExtentsKeepRatio(Span(AxesOf(xs, ys, margin).xs), Span(AxesOf(xs, ys, margin).ys), AreaSize(margin), Span(xs), Span(ys));
  }

  // ---------------------------------------------------------------------
  // Colour data

  /** `cs` holds either one scalar per point or one RGB triple per point. */
  datatype ColorData = Scalars(values: seq<real>) | Rgbs(colors: seq<RGB>)

  function ColorCount(cs: ColorData): nat
  {
    match cs
    case Scalars(s) => |s|
    case Rgbs(c) => |c|
  }

  function Reds(c: seq<RGB>): (v: seq<real>)
    ensures |v| == |c| && forall k :: 0 <= k < |c| ==> v[k] == c[k].r
  {
    seq(|c|, k requires 0 <= k < |c| => c[k].r)
  }

  function Greens(c: seq<RGB>): (v: seq<real>)
    ensures |v| == |c| && forall k :: 0 <= k < |c| ==> v[k] == c[k].g
  {
    seq(|c|, k requires 0 <= k < |c| => c[k].g)
  }

  function Blues(c: seq<RGB>): (v: seq<real>)
    ensures |v| == |c| && forall k :: 0 <= k < |c| ==> v[k] == c[k].b
  {
    seq(|c|, k requires 0 <= k < |c| => c[k].b)
  }

  function Min3(a: real, b: real, c: real): real
  {
    if a <= b && a <= c then a else if b <= c then b else c
  }

  function Max3(a: real, b: real, c: real): real
  {
    if a >= b && a >= c then a else if b >= c then b else c
  }

  /** `cs.min()` over an N-by-3 array: the smallest of all channels. */
  function ColorsMin(c: seq<RGB>): real
    requires |c| > 0
  {
    Min3(Min(Reds(c)), Min(Greens(c)), Min(Blues(c)))
  }

  /** `cs.max()` over an N-by-3 array. */
  function ColorsMax(c: seq<RGB>): real
    requires |c| > 0
  {
    Max3(Max(Reds(c)), Max(Greens(c)), Max(Blues(c)))
  }

  lemma {:induction false} ColorsBound(c: seq<RGB>, k: int)
    requires 0 <= k < |c|
    ensures ColorsMin(c) <= c[k].r <= ColorsMax(c)
    ensures ColorsMin(c) <= c[k].g <= ColorsMax(c)
    ensures ColorsMin(c) <= c[k].b <= ColorsMax(c)
  {
    assert Reds(c)[k] == c[k].r && Greens(c)[k] == c[k].g && Blues(c)[k] == c[k].b;
  }

  /** Normalisation of the colour array is undefined: an empty array makes
      numpy raise, a constant one divides 0 by 0. */
  predicate ColorRangeUndefined(cs: ColorData)
  {
    match cs
    case Scalars(s) => |s| == 0 || Min(s) == Max(s)
    case Rgbs(c) => |c| == 0 || ColorsMin(c) == ColorsMax(c)
  }

  predicate InUnitCube(c: RGB)
  {
    0.0 <= c.r <= 1.0 && 0.0 <= c.g <= 1.0 && 0.0 <= c.b <= 1.0
  }

  predicate InUnitRange(cs: ColorData)
  {
    match cs
    case Scalars(s) => forall k :: 0 <= k < |s| ==> 0.0 <= s[k] <= 1.0
    case Rgbs(c) => forall k :: 0 <= k < |c| ==> InUnitCube(c[k])
  }

  function RescaleColor(c: RGB, mn: real, mx: real): RGB
    requires mn < mx
  {
    RGB(UnitRescale(c.r, mn, mx), UnitRescale(c.g, mn, mx), UnitRescale(c.b, mn, mx))
  }

  /** `normalize` on an N-by-3 array: every channel of every triple is
      rescaled with the minimum and maximum over all entries. */
  function RescaleColors(c: seq<RGB>): (n: seq<RGB>)
    requires |c| > 0 && ColorsMin(c) < ColorsMax(c)
    ensures |n| == |c|
    ensures forall k :: 0 <= k < |c| ==> n[k] == RescaleColor(c[k], ColorsMin(c), ColorsMax(c)) && InUnitCube(n[k])
  {
    var mn, mx := ColorsMin(c), ColorsMax(c);
    var n := seq(|c|, k requires 0 <= k < |c| => RescaleColor(c[k], mn, mx));
    assert forall k :: 0 <= k < |c| ==> InUnitCube(n[k]) by {
      forall k | 0 <= k < |c|
        ensures InUnitCube(n[k])
      {
        ColorsBound(c, k);
        RescaleBounds(c[k].r, mn, mx);
        RescaleBounds(c[k].g, mn, mx);
        RescaleBounds(c[k].b, mn, mx);
      }
    }
    n
  }

  /** `normalize(self.cs)`, with min and max taken over every entry. */
  function NormalizeColorData(cs: ColorData): (r: Result<ColorData>)
    ensures r.Err? <==> ColorRangeUndefined(cs)
    ensures r.Err? && ColorCount(cs) == 0 ==> r.error == EmptyInput
    ensures r.Err? && ColorCount(cs) > 0 ==> r.error == NonFiniteColors
    ensures r.Ok? ==> ColorCount(r.value) == ColorCount(cs) && r.value.Scalars? == cs.Scalars?
    ensures r.Ok? ==> InUnitRange(r.value)
    ensures r.Ok? && cs.Scalars? ==>
      |cs.values| > 0 && Min(cs.values) < Max(cs.values) && r.value == Scalars(Normalize(cs.values))
    ensures r.Ok? && cs.Rgbs? ==>
      |cs.colors| > 0 && ColorsMin(cs.colors) < ColorsMax(cs.colors) && r.value == Rgbs(RescaleColors(cs.colors))
  {
    match cs
    case Scalars(s) =>
      if |s| == 0 then Err(EmptyInput)
      else if Min(s) == Max(s) then Err(NonFiniteColors)
      else Ok(Scalars(Normalize(s)))
    case Rgbs(c) =>
      if |c| == 0 then Err(EmptyInput)
      else
        ColorsBound(c, 0);
        if ColorsMin(c) == ColorsMax(c) then Err(NonFiniteColors)
        else Ok(Rgbs(RescaleColors(c)))
  }

  /** Channel `ch` of a rescaled triple is the rescaled channel. */
  lemma {:induction false} RescaleColorChannel(x: RGB, mn: real, mx: real, ch: int)
    requires mn < mx && 0 <= ch < 3
    ensures Channel(RescaleColor(x, mn, mx), ch) == UnitRescale(Channel(x, ch), mn, mx)
  {
    if ch == 0 {
    } else if ch == 1 {
    } else {
      assert ch == 2;
    }
  }

  /** Some entry of some triple is the overall minimum, and some is the
      overall maximum. */
  lemma {:induction false} ColorsExtremesAttained(c: seq<RGB>)
    requires |c| > 0
    ensures exists k, ch :: 0 <= k < |c| && 0 <= ch < 3 && Channel(c[k], ch) == ColorsMin(c)
    ensures exists k, ch :: 0 <= k < |c| && 0 <= ch < 3 && Channel(c[k], ch) == ColorsMax(c)
  {
    var kr :| 0 <= kr < |c| && Reds(c)[kr] == Min(Reds(c));
    var kg :| 0 <= kg < |c| && Greens(c)[kg] == Min(Greens(c));
    var kb :| 0 <= kb < |c| && Blues(c)[kb] == Min(Blues(c));
    assert Channel(c[kr], 0) == Min(Reds(c)) && Channel(c[kg], 1) == Min(Greens(c)) && Channel(c[kb], 2) == Min(Blues(c));
    var jr :| 0 <= jr < |c| && Reds(c)[jr] == Max(Reds(c));
    var jg :| 0 <= jg < |c| && Greens(c)[jg] == Max(Greens(c));
    var jb :| 0 <= jb < |c| && Blues(c)[jb] == Max(Blues(c));
    assert Channel(c[jr], 0) == Max(Reds(c)) && Channel(c[jg], 1) == Max(Greens(c)) && Channel(c[jb], 2) == Max(Blues(c));
  }

  lemma Min3Is(a: real, b: real, d: real, m: real)
    requires m <= a && m <= b && m <= d && (a == m || b == m || d == m)
    ensures Min3(a, b, d) == m
  {
  }

  lemma Max3Is(a: real, b: real, d: real, m: real)
    requires a <= m && b <= m && d <= m && (a == m || b == m || d == m)
    ensures Max3(a, b, d) == m
  {
  }

  /** An attained lower bound of every entry is the overall minimum. */
  lemma {:induction false} ColorsMinIsAttainedBound(c: seq<RGB>, m: real, k0: int, ch0: int)
    requires 0 <= k0 < |c| && 0 <= ch0 < 3 && Channel(c[k0], ch0) == m
    requires forall k :: 0 <= k < |c| ==> m <= c[k].r && m <= c[k].g && m <= c[k].b
    ensures ColorsMin(c) == m
  {
    var rs, gs, bs := Reds(c), Greens(c), Blues(c);
    var kr :| 0 <= kr < |c| && rs[kr] == Min(rs);
    var kg :| 0 <= kg < |c| && gs[kg] == Min(gs);
    var kb :| 0 <= kb < |c| && bs[kb] == Min(bs);
    assert m <= c[kr].r && m <= c[kg].g && m <= c[kb].b;
    if ch0 == 0 {
      assert rs[k0] == m;
    } else if ch0 == 1 {
      assert gs[k0] == m;
    } else {
      assert bs[k0] == m;
    }
    Min3Is(Min(rs), Min(gs), Min(bs), m);
  }

  /** An attained upper bound of every entry is the overall maximum. */
  lemma {:induction false} ColorsMaxIsAttainedBound(c: seq<RGB>, m: real, k0: int, ch0: int)
    requires 0 <= k0 < |c| && 0 <= ch0 < 3 && Channel(c[k0], ch0) == m
    requires forall k :: 0 <= k < |c| ==> c[k].r <= m && c[k].g <= m && c[k].b <= m
    ensures ColorsMax(c) == m
  {
    var rs, gs, bs := Reds(c), Greens(c), Blues(c);
    var kr :| 0 <= kr < |c| && rs[kr] == Max(rs);
    var kg :| 0 <= kg < |c| && gs[kg] == Max(gs);
    var kb :| 0 <= kb < |c| && bs[kb] == Max(bs);
    assert c[kr].r <= m && c[kg].g <= m && c[kb].b <= m;
    if ch0 == 0 {
      assert rs[k0] == m;
    } else if ch0 == 1 {
      assert gs[k0] == m;
    } else {
      assert bs[k0] == m;
    }
    Max3Is(Max(rs), Max(gs), Max(bs), m);
  }

  /** Normalising an N-by-3 colour array sends its smallest entry to 0 and
      its largest to 1. */
  lemma {:induction false} RescaleColorsExtremes(c: seq<RGB>)
    requires |c| > 0 && ColorsMin(c) < ColorsMax(c)
    ensures ColorsMin(RescaleColors(c)) == 0.0 && ColorsMax(RescaleColors(c)) == 1.0
  {
    var mn, mx := ColorsMin(c), ColorsMax(c);
    var n := RescaleColors(c);
    ColorsExtremesAttained(c);
    var k0, ch0 :| 0 <= k0 < |c| && 0 <= ch0 < 3 && Channel(c[k0], ch0) == mn;
    var k1, ch1 :| 0 <= k1 < |c| && 0 <= ch1 < 3 && Channel(c[k1], ch1) == mx;
    RescaleEnds(mn, mx);
    RescaleColorChannel(c[k0], mn, mx, ch0);
    RescaleColorChannel(c[k1], mn, mx, ch1);
    assert Channel(n[k0], ch0) == 0.0;
    assert Channel(n[k1], ch1) == 1.0;
    assert forall k :: 0 <= k < |n| ==> InUnitCube(n[k]);
    ColorsMinIsAttainedBound(n, 0.0, k0, ch0);
    ColorsMaxIsAttainedBound(n, 1.0, k1, ch1);
  }

  /** The colours `normalize_points` stores span exactly [0, 1]: the
      smallest entry becomes 0 and the largest 1, for scalar and RGB
      colours alike. */
  lemma {:induction false} NormalizedColorsSpanUnitRange(cs: ColorData)
    requires NormalizeColorData(cs).Ok?
    ensures var v := NormalizeColorData(cs).value;
      (v.Scalars? ==> |v.values| > 0 && Min(v.values) == 0.0 && Max(v.values) == 1.0) &&
      (v.Rgbs? ==> |v.colors| > 0 && ColorsMin(v.colors) == 0.0 && ColorsMax(v.colors) == 1.0)
  {
    match cs
    case Scalars(s) => NormalizeExtremes(s);
    case Rgbs(c) => RescaleColorsExtremes(c);
  }

  // ---------------------------------------------------------------------
  // The palette of `make_colormap_from_four_hex`

  /** An RGB triple as `ImageColor.getcolor` returns it. */
  datatype Rgb8 = Rgb8(r: int, g: int, b: int)

  predicate IsRgb8(c: Rgb8)
  {
    0 <= c.r < 256 && 0 <= c.g < 256 && 0 <= c.b < 256
  }

  /** The four palette vectors: offset a, amplitude complement b,
      frequency c and phase d. */
  datatype Palette = Palette(a: RGB, b: RGB, c: RGB, d: RGB)

  function ScaleRgb8(c: Rgb8, divisor: real): RGB
    requires divisor > 0.0
  {
    RGB(c.r as real / divisor, c.g as real / divisor, c.b as real / divisor)
  }

  predicate InHalfOpen(c: RGB, hi: real)
  {
    0.0 <= c.r < hi && 0.0 <= c.g < hi && 0.0 <= c.b < hi
  }

  lemma {:induction false} ByteScaleBound(v: int, divisor: real)
    requires 0 <= v < 256 && divisor > 0.0
    ensures 0.0 <= v as real / divisor < 256.0 / divisor
  {
    DivOrder(0.0, v as real, divisor);
    DivOrder(v as real, 255.0, divisor);
    DivOrder(255.0, 256.0, divisor);
    assert 255.0 / divisor != 256.0 / divisor by {
      assert 255.0 / divisor * divisor == 255.0 && 256.0 / divisor * divisor == 256.0;
    }
  }

  /** The palette from four parsed colours: a and b divided by 256, c and d
      by 128, so a and b lie in [0, 1) and c and d in [0, 2). */
  function MakeColormapFromFourHex(ha: Rgb8, hb: Rgb8, hc: Rgb8, hd: Rgb8): (p: Palette)
    requires IsRgb8(ha) && IsRgb8(hb) && IsRgb8(hc) && IsRgb8(hd)
    ensures InHalfOpen(p.a, 1.0) && InHalfOpen(p.b, 1.0)
    ensures InHalfOpen(p.c, 2.0) && InHalfOpen(p.d, 2.0)
  {
    ByteScaleBound(ha.r, 256.0); ByteScaleBound(ha.g, 256.0); ByteScaleBound(ha.b, 256.0);
    ByteScaleBound(hb.r, 256.0); ByteScaleBound(hb.g, 256.0); ByteScaleBound(hb.b, 256.0);
    ByteScaleBound(hc.r, 128.0); ByteScaleBound(hc.g, 128.0); ByteScaleBound(hc.b, 128.0);
    ByteScaleBound(hd.r, 128.0); ByteScaleBound(hd.g, 128.0); ByteScaleBound(hd.b, 128.0);
    Palette(ScaleRgb8(ha, 256.0), ScaleRgb8(hb, 256.0), ScaleRgb8(hc, 128.0), ScaleRgb8(hd, 128.0))
  }

  /** `np.clip(v, 0, 1)`. */
  function Clip01(v: real): (r: real)
    ensures 0.0 <= r <= 1.0
    ensures 0.0 <= v <= 1.0 ==> r == v
    ensures v < 0.0 ==> r == 0.0
    ensures v > 1.0 ==> r == 1.0
  {
    if v < 0.0 then 0.0 else if v > 1.0 then 1.0 else v
  }

  /** One channel of the colour applicator: the cosine palette, softened by
      `sqrt(v^2 + 1e-3)` and clipped into [0, 1]. */
  function PaletteValue(p: Palette, tr: Transcendentals, ch: int, v: real): (r: real)
    ensures 0.0 <= r <= 1.0
  {
    var raw := Channel(p.a, ch) + (1.0 - Channel(p.b, ch)) * tr.cos(2.0 * tr.pi * (Channel(p.c, ch) * v + Channel(p.d, ch)));
    Clip01(tr.sqrt(raw * raw + 0.001))
  }

  function PaletteColor(p: Palette, tr: Transcendentals, v: real): (c: RGB)
    ensures InUnitCube(c)
  {
    RGB(PaletteValue(p, tr, 0, v), PaletteValue(p, tr, 1, v), PaletteValue(p, tr, 2, v))
  }

  /** `color_applicator(cs)`: N scalar colour coordinates become N RGB
      triples; an N-by-3 input is mapped channel by channel, each channel
      with its own palette row. Every output channel is within [0, 1]. */
  function ColorApplicator(p: Palette, tr: Transcendentals, cs: ColorData): (r: ColorData)
    ensures r.Rgbs? && ColorCount(r) == ColorCount(cs)
    ensures InUnitRange(r)
  {
    match cs
    case Scalars(s) =>
      Rgbs(seq(|s|, k requires 0 <= k < |s| => PaletteColor(p, tr, s[k])))
    case Rgbs(c) =>
      Rgbs(seq(|c|, k requires 0 <= k < |c| =>
        RGB(PaletteValue(p, tr, 0, c[k].r), PaletteValue(p, tr, 1, c[k].g), PaletteValue(p, tr, 2, c[k].b))))
  }

  /** The applicator works point by point: two points with the same colour
      coordinate get the same RGB triple, wherever they are. */
  lemma {:induction false} ColorApplicatorIsPointwise(p: Palette, tr: Transcendentals, s: seq<real>, k: int, l: int)
    requires 0 <= k < |s| && 0 <= l < |s| && s[k] == s[l]
    ensures ColorApplicator(p, tr, Scalars(s)).colors[k] == ColorApplicator(p, tr, Scalars(s)).colors[l]
  {
    assert ColorApplicator(p, tr, Scalars(s)).colors[k] == PaletteColor(p, tr, s[k]);
  }

  // ---------------------------------------------------------------------
  // Pixel indexing

  function MinDim(w: nat, h: nat): nat
  {
    if w < h then w else h
  }

  /** `(rx, ry)` from `r = w / h`: both axes are scaled to `min(w, h)`
      pixels per unit, so a square of the plane stays square. */
  function AspectScale(w: nat, h: nat): (s: (real, real))
    requires w > 0 && h > 0
    ensures 0.0 < s.0 <= 1.0 && 0.0 < s.1 <= 1.0
    ensures w < h ==> s.0 == 1.0
    ensures h <= w ==> s.1 == 1.0
    ensures w as real * s.0 == MinDim(w, h) as real && h as real * s.1 == MinDim(w, h) as real
  {
    var ratio := w as real / h as real;
    RatioFacts(w as real, h as real);
    if ratio < 1.0 then
      (1.0, ratio)
    else
      (1.0 / ratio, 1.0)
  }

  lemma RatioFacts(a: real, b: real)
    requires a > 0.0 && b > 0.0
    ensures a / b > 0.0 && a / b * b == a
    ensures a < b <==> a / b < 1.0
    ensures a >= b ==> 0.0 < 1.0 / (a / b) <= 1.0 && a * (1.0 / (a / b)) == b
  {
    var r := a / b;
    assert r * b == a;
    DivOrder(a, b, b);
    DivSelf(b);
    if a >= b {
      assert 1.0 / r * r == 1.0;
      assert a * (1.0 / r) == b by {
        assert a == r * b;
      }
      DivOrder(1.0, r, r);
    }
  }

  /** Python's `int(v)`: truncation toward zero. */
  function Trunc(v: real): (n: int)
    ensures v >= 0.0 ==> n as real <= v < n as real + 1.0
    ensures v < 0.0 ==> n as real - 1.0 < v <= n as real
  {
    if v >= 0.0 then v.Floor else -((-v).Floor)
  }

  /** `np.clip(v, lo, hi)` on an integer. */
  function ClipInt(v: int, lo: int, hi: int): (r: int)
    requires lo <= hi
    ensures lo <= r <= hi
    ensures lo <= v <= hi ==> r == v
    ensures v < lo ==> r == lo
    ensures v > hi ==> r == hi
  {
    if v < lo then lo else if v > hi then hi else v
  }

  /** The pixel coordinate before truncation, `w*x*rx + w/2`. */
  function PixelCoordinate(coord: real, size: nat, scale: real): real
  {
    size as real * coord * scale + size as real / 2.0
  }

  /** A point's pixel index along one axis: truncated, then clipped into
      `[0, size - 1]`. Points outside are pinned to the border. */
  function PixelIndex(coord: real, size: nat, scale: real): (p: int)
    requires size > 0
    ensures 0 <= p < size
    ensures var raw := PixelCoordinate(coord, size, scale);
      (0.0 <= raw < size as real ==> p == raw.Floor) &&
      (raw < 0.0 ==> p == 0) &&
      (raw >= size as real ==> p == size - 1)
  {
    ClipInt(Trunc(PixelCoordinate(coord, size, scale)), 0, size - 1)
  }

  /** After the clip, truncation and floor give the same index, so Floor is
      an equivalent model of `int(...)` here. */
  lemma {:induction false} TruncAndFloorAgreeAfterClip(v: real, size: nat)
    requires size > 0
    ensures ClipInt(Trunc(v), 0, size - 1) == ClipInt(v.Floor, 0, size - 1)
  {
    if v < 0.0 {
      assert v.Floor < 0;
    }
  }

  /** `zip(self.xs, self.ys, self.cs)` stops at the shortest input. */
  function ZipLength(xs: seq<real>, ys: seq<real>, cs: ColorData): nat
  {
    var n := if |xs| < |ys| then |xs| else |ys|;
    if n < ColorCount(cs) then n else ColorCount(cs)
  }

  /** What `img_array[pw,ph] += c` adds: a scalar broadcasts to all three
      channels. */
  function Contribution(cs: ColorData, k: int): (c: RGB)
    requires 0 <= k < ColorCount(cs)
    ensures cs.Scalars? ==> c == RGB(cs.values[k], cs.values[k], cs.values[k])
    ensures cs.Rgbs? ==> c == cs.colors[k]
    ensures cs.Scalars? ==> RgbMass(c) == 3.0 * cs.values[k]
  {
    match cs
    case Scalars(s) => RGB(s[k], s[k], s[k])
    case Rgbs(c) => c[k]
  }

  function HitAt(xs: seq<real>, ys: seq<real>, cs: ColorData, w: nat, h: nat, k: int): Hit
    requires w > 0 && h > 0 && 0 <= k < ZipLength(xs, ys, cs)
  {
    var scale := AspectScale(w, h);
    Hit(PixelIndex(xs[k], w, scale.0), PixelIndex(ys[k], h, scale.1), Contribution(cs, k))
  }

  /** One in-bounds hit per zipped point: no point is dropped. */
  function Hits(xs: seq<real>, ys: seq<real>, cs: ColorData, w: nat, h: nat): (hits: seq<Hit>)
    requires w > 0 && h > 0
    ensures |hits| == ZipLength(xs, ys, cs)
    ensures HitsInside(hits, w, h)
    ensures forall k :: 0 <= k < |hits| ==> hits[k] == HitAt(xs, ys, cs, w, h, k)
  {
    seq(ZipLength(xs, ys, cs), k requires 0 <= k < ZipLength(xs, ys, cs) => HitAt(xs, ys, cs, w, h, k))
  }

  /** One more hit adds its channel value to its own cell only. */
  lemma {:induction false} CellSumStep(hits: seq<Hit>, k: int)
    requires 0 <= k < |hits|
    ensures forall i, j, ch ::
      (CellSum(hits[..k + 1], i, j, ch) ==
       CellSum(hits[..k], i, j, ch) + (if hits[k].pw == i && hits[k].ph == j then Channel(hits[k].c, ch) else 0.0))
  {
    assert hits[..k + 1][..k] == hits[..k];
  }

  // ---------------------------------------------------------------------
  // The renderer

  class AtomicRenderer {
    const width: nat
    const height: nat
    const margin: real
    /** `img_array`, of shape [width, height, 3]. */
    var imgArray: array3<real>
    var xs: seq<real>
    var ys: seq<real>
    var cs: ColorData
    var colorsAreRgb: bool

    ghost predicate Valid()
      reads this
    {
      width > 0 && height > 0 && 0.0 <= margin < 0.4 &&
      imgArray.Length0 == width && imgArray.Length1 == height && imgArray.Length2 == 3
    }

    /** The buffer's contents as a value. */
    function Image(): (g: Grid)
      reads this, imgArray
      requires Valid()
      ensures IsBuffer(g) && |g| == width && Height(g) == height
      ensures forall i, j, ch :: 0 <= i < width && 0 <= j < height && 0 <= ch < 3 ==> g[i][j][ch] == imgArray[i, j, ch]
    {
      var a := imgArray;
      seq(width, i requires 0 <= i < width reads a =>
        seq(height, j requires 0 <= j < height reads a =>
          seq(3, ch requires 0 <= ch < 3 reads a => a[i, j, ch])))
    }

    /** `__init__`: a zero buffer of the given size; no points yet. */
    constructor (w: nat, h: nat, margin: real)
      requires w > 0 && h > 0 && 0.0 <= margin < 0.4
      ensures Valid() && fresh(imgArray)
      ensures width == w && height == h && this.margin == margin
      ensures Image() == Zeros(w, h)
      ensures xs == [] && ys == [] && cs == Scalars([]) && !colorsAreRgb
    {
      width := w;
      height := h;
      this.margin := margin;
      imgArray := new real[w, h, 3]((i, j, ch) => 0.0);
      xs := [];
      ys := [];
      cs := Scalars([]);
      colorsAreRgb := false;
      new;
      GridsEqual(Image(), Zeros(w, h));
    }

    /** `load_points_into_renderer`. */
    method LoadPointsIntoRenderer(newXs: seq<real>, newYs: seq<real>, newCs: ColorData, rgb: bool)
      requires Valid()
      modifies this
      ensures Valid() && imgArray == old(imgArray)
      ensures xs == newXs && ys == newYs && cs == newCs && colorsAreRgb == rgb
    {
      colorsAreRgb := rgb;
      xs := newXs;
      ys := newYs;
      cs := newCs;
    }

    /** `normalize_points`. On a span error nothing changes; otherwise xs
        and ys are replaced by their normalised placement, and cs is
        min-max normalised only when the colours are not yet RGB. */
    method NormalizePoints() returns (err: Option<Error>)
      requires Valid()
      modifies this
      ensures Valid() && imgArray == old(imgArray) && colorsAreRgb == old(colorsAreRgb)
      ensures NormalizeAxes(old(xs), old(ys), margin).Err? ==>
        err == Some(NormalizeAxes(old(xs), old(ys), margin).error) &&
        xs == old(xs) && ys == old(ys) && cs == old(cs)
      ensures NormalizeAxes(old(xs), old(ys), margin).Ok? ==>
        xs == NormalizeAxes(old(xs), old(ys), margin).value.xs &&
        ys == NormalizeAxes(old(xs), old(ys), margin).value.ys
      ensures NormalizeAxes(old(xs), old(ys), margin).Ok? && old(colorsAreRgb) ==>
        err.None? && cs == old(cs)
      ensures NormalizeAxes(old(xs), old(ys), margin).Ok? && !old(colorsAreRgb) ==>
        (NormalizeColorData(old(cs)).Err? ==> err == Some(NormalizeColorData(old(cs)).error) && cs == old(cs)) &&
        (NormalizeColorData(old(cs)).Ok? ==> err.None? && cs == NormalizeColorData(old(cs)).value)
      ensures err.None? && !colorsAreRgb ==> InUnitRange(cs)
    {
      var axes := NormalizeAxes(xs, ys, margin);
      if axes.Err? {
        return Some(axes.error);
      }
      xs := axes.value.xs;
      ys := axes.value.ys;
      err := NormalizeColors();
    }

    /** The colour step of `normalize_points`: scalar or RGB colours that
        are not yet RGB-mapped are min-max normalised over all entries. */
    method NormalizeColors() returns (err: Option<Error>)
      requires Valid()
      modifies this
      ensures Valid() && imgArray == old(imgArray) && colorsAreRgb == old(colorsAreRgb)
      ensures xs == old(xs) && ys == old(ys)
      ensures colorsAreRgb ==> err.None? && cs == old(cs)
      ensures !colorsAreRgb ==>
        (NormalizeColorData(old(cs)).Err? ==> err == Some(NormalizeColorData(old(cs)).error) && cs == old(cs)) &&
        (NormalizeColorData(old(cs)).Ok? ==> err.None? && cs == NormalizeColorData(old(cs)).value)
    {
      err := None;
      if !colorsAreRgb {
        var c := NormalizeColorData(cs);
        if c.Err? {
          return Some(c.error);
        }
        cs := c.value;
      }
    }

    /** `apply_color_mapping`: replaces the colours and marks them RGB. */
    method ApplyColorMapping(func: ColorData -> ColorData)
      requires Valid()
      modifies this
      ensures Valid() && imgArray == old(imgArray) && xs == old(xs) && ys == old(ys)
      ensures cs == func(old(cs)) && colorsAreRgb
    {
      cs := func(cs);
      colorsAreRgb := true;
    }

    /** `img_array[pw, ph] += c`: the triple is added to one pixel's three
        channels and every other entry keeps its value. */
    method AddToPixel(pw: int, ph: int, c: RGB)
      requires Valid() && 0 <= pw < width && 0 <= ph < height
      modifies imgArray
      ensures Valid()
      ensures forall i, j, ch :: 0 <= i < width && 0 <= j < height && 0 <= ch < 3 ==>
        imgArray[i, j, ch] == old(imgArray[i, j, ch]) + (if i == pw && j == ph then Channel(c, ch) else 0.0)
    {
      imgArray[pw, ph, 0] := imgArray[pw, ph, 0] + c.r;
      imgArray[pw, ph, 1] := imgArray[pw, ph, 1] + c.g;
      imgArray[pw, ph, 2] := imgArray[pw, ph, 2] + c.b;
    }

    /** `load_points_into_array`: add every zipped point's colour to its
        clipped pixel, then clip the buffer to non-negative values. */
    method LoadPointsIntoArray()
      requires Valid()
      modifies imgArray
      ensures Valid()
      ensures Image() == ClipNonNegative(Scatter(old(Image()), Hits(xs, ys, cs, width, height)))
      ensures NonNegative(Image())
      ensures NonNegative(old(Image())) && NonNegativeHits(Hits(xs, ys, cs, width, height)) ==>
        Mass(Image()) == Mass(old(Image())) + HitsMass(Hits(xs, ys, cs, width, height))
    {
      var scale := AspectScale(width, height);
      var n := ZipLength(xs, ys, cs);
      ghost var start := Image();
      ghost var hits := Hits(xs, ys, cs, width, height);
      var k := 0;
      while k < n
        invariant 0 <= k <= n
        invariant forall i, j, ch :: 0 <= i < width && 0 <= j < height && 0 <= ch < 3 ==>
          imgArray[i, j, ch] == start[i][j][ch] + CellSum(hits[..k], i, j, ch)
      {
        var pw := PixelIndex(xs[k], width, scale.0);
        var ph := PixelIndex(ys[k], height, scale.1);
        var c := Contribution(cs, k);
        assert hits[k] == Hit(pw, ph, c);
        CellSumStep(hits, k);
        AddToPixel(pw, ph, c);
        k := k + 1;
      }
      assert hits[..k] == hits;
      ghost var scattered := Scatter(start, hits);
      forall i, j, ch | 0 <= i < width && 0 <= j < height && 0 <= ch < 3
        ensures imgArray[i, j, ch] == scattered[i][j][ch]
      {
        ScatterAt(start, hits, i, j, ch);
      }
      forall i, j, ch | 0 <= i < width && 0 <= j < height && 0 <= ch < 3 {
        imgArray[i, j, ch] := ClipBelowZero(imgArray[i, j, ch]);
      }
      GridsEqual(Image(), ClipNonNegative(scattered));
      if NonNegative(start) && NonNegativeHits(hits) {
        ClipKeepsNonNegativeScatter(start, hits);
      }
    }

    /** `get_image_transposed_array`: the buffer with its two spatial axes
        swapped and the channel axis kept last. */
    function GetImageTransposedArray(): (t: Grid)
      reads this, imgArray
      requires Valid()
      ensures IsBuffer(t) && |t| == height && Height(t) == width
      ensures forall i, j, ch :: 0 <= i < width && 0 <= j < height && 0 <= ch < 3 ==> t[j][i][ch] == imgArray[i, j, ch]
    {
      Transpose(Image())
    }
  }
}
