/** The renderer's w-by-h-by-3 pixel buffer as a value, and the pure array
    operations of atomic_renderer.py on it: the scatter-add of coloured
    points, the final clip to non-negative values, the post-processors and
    the axis swap used before export. */
module Grids {
  import opened Common

  /** `g[i][j][ch]` is channel `ch` of pixel column `i`, row `j`. */
  type Grid = seq<seq<seq<real>>>

  predicate IsGrid(g: Grid, w: nat, h: nat)
  {
    |g| == w && (forall i :: 0 <= i < w ==> |g[i]| == h) &&
    (forall i, j :: 0 <= i < w && 0 <= j < h ==> |g[i][j]| == 3)
  }

  function Height(g: Grid): nat
  {
    if |g| == 0 then 0 else |g[0]|
  }

  /** A non-empty w-by-h-by-3 buffer. */
  predicate IsBuffer(g: Grid)
  {
    |g| > 0 && Height(g) > 0 && IsGrid(g, |g|, Height(g))
  }

  predicate SameShape(r: Grid, g: Grid)
    requires IsBuffer(g)
  {
    IsBuffer(r) && |r| == |g| && Height(r) == Height(g)
  }

  /** Two buffers of one shape that agree everywhere are equal. */
  lemma {:induction false} GridsEqual(a: Grid, b: Grid)
    requires IsBuffer(a) && SameShape(b, a)
    requires forall i, j, ch :: 0 <= i < |a| && 0 <= j < Height(a) && 0 <= ch < 3 ==> a[i][j][ch] == b[i][j][ch]
    ensures a == b
  {
    forall i | 0 <= i < |a|
      ensures a[i] == b[i]
    {
      forall j | 0 <= j < Height(a)
        ensures a[i][j] == b[i][j]
      {
        assert a[i][j][0] == b[i][j][0] && a[i][j][1] == b[i][j][1] && a[i][j][2] == b[i][j][2];
      }
    }
  }

  datatype RGB = RGB(r: real, g: real, b: real)

  function Channel(c: RGB, ch: int): real
  {
    if ch == 0 then c.r else if ch == 1 then c.g else c.b
  }

  /** `np.zeros([w, h, 3])`. */
  function Zeros(w: nat, h: nat): (g: Grid)
    ensures IsGrid(g, w, h)
    ensures forall i, j, ch :: 0 <= i < w && 0 <= j < h && 0 <= ch < 3 ==> g[i][j][ch] == 0.0
  {
    seq(w, i => seq(h, j => [0.0, 0.0, 0.0]))
  }

  /** Elementwise map; `f` also sees the channel index. */
  function MapCells(g: Grid, f: (int, real) -> real): (r: Grid)
    requires IsBuffer(g)
    ensures SameShape(r, g)
    ensures forall i, j, ch :: 0 <= i < |g| && 0 <= j < Height(g) && 0 <= ch < 3 ==> r[i][j][ch] == f(ch, g[i][j][ch])
  {
    seq(|g|, i requires 0 <= i < |g| =>
      seq(Height(g), j requires 0 <= j < Height(g) =>
        seq(3, ch requires 0 <= ch < 3 => f(ch, g[i][j][ch]))))
  }

  // ---------------------------------------------------------------------
  // Extrema over the buffer

  /** Channel `ch` of pixel column `i`. */
  function PlaneColumn(g: Grid, i: int, ch: int): (col: seq<real>)
    requires IsBuffer(g) && 0 <= i < |g| && 0 <= ch < 3
    ensures |col| == Height(g) && forall j :: 0 <= j < Height(g) ==> col[j] == g[i][j][ch]
  {
    seq(Height(g), j requires 0 <= j < Height(g) => g[i][j][ch])
  }

  /** The maximum of channel `ch` in each pixel column. */
  function ColumnMaxima(g: Grid, ch: int): (cols: seq<real>)
    requires IsBuffer(g) && 0 <= ch < 3
    ensures |cols| == |g| && forall i :: 0 <= i < |g| ==> cols[i] == Max(PlaneColumn(g, i, ch))
  {
    seq(|g|, i requires 0 <= i < |g| => Max(PlaneColumn(g, i, ch)))
  }

  lemma {:induction false} ChannelMaxFacts(g: Grid, ch: int)
    requires IsBuffer(g) && 0 <= ch < 3
    ensures forall i, j :: 0 <= i < |g| && 0 <= j < Height(g) ==> g[i][j][ch] <= Max(ColumnMaxima(g, ch))
    ensures exists i, j :: 0 <= i < |g| && 0 <= j < Height(g) && g[i][j][ch] == Max(ColumnMaxima(g, ch))
  {
    var cols := ColumnMaxima(g, ch);
    var m := Max(cols);
    forall i, j | 0 <= i < |g| && 0 <= j < Height(g)
      ensures g[i][j][ch] <= m
    {
      assert g[i][j][ch] == PlaneColumn(g, i, ch)[j] <= cols[i] <= m;
    }
    var i :| 0 <= i < |g| && cols[i] == m;
    var j :| 0 <= j < Height(g) && PlaneColumn(g, i, ch)[j] == cols[i];
    assert g[i][j][ch] == m;
  }

  /** `np.amax(array, (0,1))[ch]`: the largest value of one channel plane. */
  function ChannelMax(g: Grid, ch: int): (m: real)
    requires IsBuffer(g) && 0 <= ch < 3
    ensures forall i, j :: 0 <= i < |g| && 0 <= j < Height(g) ==> g[i][j][ch] <= m
    ensures exists i, j :: 0 <= i < |g| && 0 <= j < Height(g) && g[i][j][ch] == m
  {
    ChannelMaxFacts(g, ch);
    Max(ColumnMaxima(g, ch))
  }

  /** The three channel-plane maxima of a buffer. */
  function ChannelMaxima(g: Grid): (m: seq<real>)
    requires IsBuffer(g)
    ensures |m| == 3 && m[0] == ChannelMax(g, 0) && m[1] == ChannelMax(g, 1) && m[2] == ChannelMax(g, 2)
  {
    [ChannelMax(g, 0), ChannelMax(g, 1), ChannelMax(g, 2)]
  }

  lemma {:induction false} ChannelMaximaAt(g: Grid, ch: int)
    requires IsBuffer(g) && 0 <= ch < 3
    ensures ChannelMaxima(g)[ch] == ChannelMax(g, ch)
  {
    if ch == 0 {
    } else if ch == 1 {
    } else {
      assert ch == 2;
    }
  }

  lemma {:induction false} CellBelowGridMax(g: Grid, i: int, j: int, ch: int)
    requires IsBuffer(g) && 0 <= i < |g| && 0 <= j < Height(g) && 0 <= ch < 3
    ensures g[i][j][ch] <= Max(ChannelMaxima(g))
  {
    ChannelMaximaAt(g, ch);
    assert g[i][j][ch] <= ChannelMax(g, ch);
  }

  lemma {:induction false} GridMaxBound(g: Grid)
    requires IsBuffer(g)
    ensures forall i, j, ch :: 0 <= i < |g| && 0 <= j < Height(g) && 0 <= ch < 3 ==> g[i][j][ch] <= Max(ChannelMaxima(g))
  {
    forall i, j, ch | 0 <= i < |g| && 0 <= j < Height(g) && 0 <= ch < 3
      ensures g[i][j][ch] <= Max(ChannelMaxima(g))
    {
      CellBelowGridMax(g, i, j, ch);
    }
  }

  lemma {:induction false} GridMaxAttained(g: Grid)
    requires IsBuffer(g)
    ensures exists i, j, ch :: 0 <= i < |g| && 0 <= j < Height(g) && 0 <= ch < 3 && g[i][j][ch] == Max(ChannelMaxima(g))
  {
    var ms := ChannelMaxima(g);
    var ch :| 0 <= ch < 3 && ms[ch] == Max(ms);
    var i, j :| 0 <= i < |g| && 0 <= j < Height(g) && g[i][j][ch] == ChannelMax(g, ch);
  }

  /** `array.max()`: the largest entry of the buffer. */
  function GridMax(g: Grid): (m: real)
    requires IsBuffer(g)
    ensures forall i, j, ch :: 0 <= i < |g| && 0 <= j < Height(g) && 0 <= ch < 3 ==> g[i][j][ch] <= m
    ensures exists i, j, ch :: 0 <= i < |g| && 0 <= j < Height(g) && 0 <= ch < 3 && g[i][j][ch] == m
  {
    GridMaxBound(g);
    GridMaxAttained(g);
    Max(ChannelMaxima(g))
  }

  /** An attained upper bound is the buffer's maximum. */
  lemma {:induction false} GridMaxIsAttainedBound(g: Grid, m: real, i0: int, j0: int, ch0: int)
    requires IsBuffer(g)
    requires forall i, j, ch :: 0 <= i < |g| && 0 <= j < Height(g) && 0 <= ch < 3 ==> g[i][j][ch] <= m
    requires 0 <= i0 < |g| && 0 <= j0 < Height(g) && 0 <= ch0 < 3 && g[i0][j0][ch0] == m
    ensures GridMax(g) == m
  {
    var i, j, ch :| 0 <= i < |g| && 0 <= j < Height(g) && 0 <= ch < 3 && g[i][j][ch] == GridMax(g);
  }

  // ---------------------------------------------------------------------
  // Post-processors

  /** `postprocess_apply_gamma`: `np.power(array, gamma)`, the power left
      uninterpreted. */
  function PostprocessApplyGamma(g: Grid, gamma: real, tr: Transcendentals): (r: Grid)
    requires IsBuffer(g)
    ensures SameShape(r, g)
  {
    MapCells(g, (ch: int, v: real) => tr.pow(v, gamma))
  }

  /** With a power function for which v^1 = v, gamma 1 changes nothing. */
  lemma {:induction false} GammaOneIsIdentity(g: Grid, tr: Transcendentals)
    requires IsBuffer(g)
    requires forall v :: tr.pow(v, 1.0) == v
    ensures PostprocessApplyGamma(g, 1.0, tr) == g
  {
    var r := PostprocessApplyGamma(g, 1.0, tr);
    GridsEqual(g, r);
  }

  /** `postprocess_make_negative`: `1 - array`. */
  function PostprocessMakeNegative(g: Grid): (r: Grid)
    requires IsBuffer(g)
    ensures SameShape(r, g)
    ensures forall i, j, ch :: 0 <= i < |g| && 0 <= j < Height(g) && 0 <= ch < 3 ==>
      r[i][j][ch] + g[i][j][ch] == 1.0 && (0.0 <= g[i][j][ch] <= 1.0 ==> 0.0 <= r[i][j][ch] <= 1.0)
  {
    MapCells(g, (ch: int, v: real) => 1.0 - v)
  }

  /** Taking the negative twice gives back the buffer. */
  lemma {:induction false} MakeNegativeIsInvolution(g: Grid)
    requires IsBuffer(g)
    ensures PostprocessMakeNegative(PostprocessMakeNegative(g)) == g
  {
    var n := PostprocessMakeNegative(g);
    GridsEqual(g, PostprocessMakeNegative(n));
  }

  /** `postprocess_normalize_color_by_total_max`: `array / array.max()`. */
  function PostprocessNormalizeColorByTotalMax(g: Grid): (r: Grid)
    requires IsBuffer(g) && GridMax(g) != 0.0
    ensures SameShape(r, g)
    ensures forall i, j, ch :: 0 <= i < |g| && 0 <= j < Height(g) && 0 <= ch < 3 ==>
      r[i][j][ch] == g[i][j][ch] / GridMax(g)
  {
    var m := GridMax(g);
    MapCells(g, (ch: int, v: real) => v / m)
  }

  /** `postprocess_normalize_colors_per_pixel`: `array / np.amax(array,
      (0,1), keepdims=True)`, so each channel plane is divided by that
      plane's maximum over the whole image. */
  function PostprocessNormalizeColorsPerPixel(g: Grid): (r: Grid)
    requires IsBuffer(g) && forall ch :: 0 <= ch < 3 ==> ChannelMaxima(g)[ch] != 0.0
    ensures SameShape(r, g)
    ensures forall i, j, ch :: 0 <= i < |g| && 0 <= j < Height(g) && 0 <= ch < 3 ==>
      r[i][j][ch] == g[i][j][ch] / ChannelMaxima(g)[ch]
  {
    var ms := ChannelMaxima(g);
    MapCells(g, (ch: int, v: real) => if 0 <= ch < 3 then v / ms[ch] else v)
  }

  lemma DivideByLarger(v: real, m: real)
    requires m > 0.0 && v <= m
    ensures v / m <= 1.0
  {
    assert v / m * m == v;
  }

  /** Dividing a buffer by a positive attained upper bound of it leaves
      every entry at most 1 and the attaining entry at exactly 1. */
  lemma {:induction false} DividedGridPeaksAtOne(g: Grid, r: Grid, m: real, i0: int, j0: int, ch0: int)
    requires IsBuffer(g) && SameShape(r, g) && m > 0.0
    requires forall i, j, ch :: 0 <= i < |g| && 0 <= j < Height(g) && 0 <= ch < 3 ==> g[i][j][ch] <= m
    requires forall i, j, ch :: 0 <= i < |g| && 0 <= j < Height(g) && 0 <= ch < 3 ==> r[i][j][ch] == g[i][j][ch] / m
    requires 0 <= i0 < |g| && 0 <= j0 < Height(g) && 0 <= ch0 < 3 && g[i0][j0][ch0] == m
    ensures forall i, j, ch :: 0 <= i < |g| && 0 <= j < Height(g) && 0 <= ch < 3 ==> r[i][j][ch] <= 1.0
    ensures r[i0][j0][ch0] == 1.0
  {
    forall i, j, ch | 0 <= i < |g| && 0 <= j < Height(g) && 0 <= ch < 3
      ensures r[i][j][ch] <= 1.0
    {
      DivideByLarger(g[i][j][ch], m);
    }
  }

  /** The same for one channel plane. */
  lemma {:induction false} DividedPlanePeaksAtOne(g: Grid, r: Grid, ch: int, m: real, i0: int, j0: int)
    requires IsBuffer(g) && SameShape(r, g) && 0 <= ch < 3 && m > 0.0
    requires forall i, j :: 0 <= i < |g| && 0 <= j < Height(g) ==> g[i][j][ch] <= m
    requires forall i, j :: 0 <= i < |g| && 0 <= j < Height(g) ==> r[i][j][ch] == g[i][j][ch] / m
    requires 0 <= i0 < |g| && 0 <= j0 < Height(g) && g[i0][j0][ch] == m
    ensures forall i, j :: 0 <= i < |g| && 0 <= j < Height(g) ==> r[i][j][ch] <= 1.0
    ensures r[i0][j0][ch] == 1.0
  {
    forall i, j | 0 <= i < |g| && 0 <= j < Height(g)
      ensures r[i][j][ch] <= 1.0
    {
      DivideByLarger(g[i][j][ch], m);
    }
  }

  /** An attained upper bound of a channel plane is its maximum. */
  lemma {:induction false} ChannelMaxIsAttainedBound(g: Grid, ch: int, m: real, i0: int, j0: int)
    requires IsBuffer(g) && 0 <= ch < 3
    requires forall i, j :: 0 <= i < |g| && 0 <= j < Height(g) ==> g[i][j][ch] <= m
    requires 0 <= i0 < |g| && 0 <= j0 < Height(g) && g[i0][j0][ch] == m
    ensures ChannelMax(g, ch) == m
  {
    var i, j :| 0 <= i < |g| && 0 <= j < Height(g) && g[i][j][ch] == ChannelMax(g, ch);
  }

  /** After dividing by a positive total maximum, the brightest entry is
      exactly 1. */
  lemma {:induction false} NormalizeByTotalMaxPeaksAtOne(g: Grid)
    requires IsBuffer(g) && GridMax(g) > 0.0
    ensures GridMax(PostprocessNormalizeColorByTotalMax(g)) == 1.0
  {
    var m := GridMax(g);
    var r := PostprocessNormalizeColorByTotalMax(g);
    var i0, j0, ch0 :| 0 <= i0 < |g| && 0 <= j0 < Height(g) && 0 <= ch0 < 3 && g[i0][j0][ch0] == m;
    DividedGridPeaksAtOne(g, r, m, i0, j0, ch0);
    GridMaxIsAttainedBound(r, 1.0, i0, j0, ch0);
  }

  /** Every channel plane with a positive maximum peaks at exactly 1 after
      the per-channel normalisation. */
  lemma {:induction false} NormalizePerChannelPeaksAtOne(g: Grid, ch: int)
    requires IsBuffer(g) && forall c :: 0 <= c < 3 ==> ChannelMaxima(g)[c] != 0.0
    requires 0 <= ch < 3 && ChannelMax(g, ch) > 0.0
    ensures ChannelMax(PostprocessNormalizeColorsPerPixel(g), ch) == 1.0
  {
    var m := ChannelMax(g, ch);
    ChannelMaximaAt(g, ch);
    var r := PostprocessNormalizeColorsPerPixel(g);
    var i0, j0 :| 0 <= i0 < |g| && 0 <= j0 < Height(g) && g[i0][j0][ch] == m;
    DividedPlanePeaksAtOne(g, r, ch, m, i0, j0);
    ChannelMaxIsAttainedBound(r, ch, 1.0, i0, j0);
  }

  // ---------------------------------------------------------------------
  // Transposition for export

  /** `np.transpose(array, (1,0,2))`: swaps the two spatial axes; each
      pixel's channel triple moves as a whole, so channels stay last. */
  function Transpose(g: Grid): (t: Grid)
    requires IsBuffer(g)
    ensures IsBuffer(t) && |t| == Height(g) && Height(t) == |g|
    ensures forall i, j :: 0 <= i < |g| && 0 <= j < Height(g) ==> t[j][i] == g[i][j]
  {
    seq(Height(g), j requires 0 <= j < Height(g) => seq(|g|, i requires 0 <= i < |g| => g[i][j]))
  }

  /** Transposing twice gives back the buffer. */
  lemma {:induction false} TransposeIsInvolution(g: Grid)
    requires IsBuffer(g)
    ensures Transpose(Transpose(g)) == g
  {
    var tt := Transpose(Transpose(g));
    GridsEqual(g, tt);
  }

  // ---------------------------------------------------------------------
  // Scatter-add of coloured points

  /** A point's clipped pixel and its RGB contribution. */
  datatype Hit = Hit(pw: int, ph: int, c: RGB)

  predicate HitsInside(hits: seq<Hit>, w: int, h: int)
  {
    forall k :: 0 <= k < |hits| ==> 0 <= hits[k].pw < w && 0 <= hits[k].ph < h
  }

  function AddRGB(cell: seq<real>, c: RGB): (r: seq<real>)
    requires |cell| == 3
    ensures |r| == 3 && forall ch :: 0 <= ch < 3 ==> r[ch] == cell[ch] + Channel(c, ch)
  {
    [cell[0] + c.r, cell[1] + c.g, cell[2] + c.b]
  }

  /** `img_array[pw,ph] += c`: the triple lands in one cell and no other
      cell changes. */
  function AddAt(g: Grid, hit: Hit): (r: Grid)
    requires IsBuffer(g) && 0 <= hit.pw < |g| && 0 <= hit.ph < Height(g)
    ensures SameShape(r, g)
    ensures forall i, j :: 0 <= i < |g| && 0 <= j < Height(g) ==>
      r[i][j] == if i == hit.pw && j == hit.ph then AddRGB(g[i][j], hit.c) else g[i][j]
  {
    g[hit.pw := g[hit.pw][hit.ph := AddRGB(g[hit.pw][hit.ph], hit.c)]]
  }

  /** The buffer after adding every hit in order. */
  function Scatter(g: Grid, hits: seq<Hit>): (r: Grid)
    requires IsBuffer(g) && HitsInside(hits, |g|, Height(g))
    ensures SameShape(r, g)
    decreases |hits|
  {
    if hits == [] then g
    else AddAt(Scatter(g, hits[..|hits| - 1]), hits[|hits| - 1])
  }

  /** What the hits landing on pixel (i, j) add to channel ch. */
  function CellSum(hits: seq<Hit>, i: int, j: int, ch: int): real
    decreases |hits|
  {
    if hits == [] then 0.0
    else
      var last := hits[|hits| - 1];
      CellSum(hits[..|hits| - 1], i, j, ch) + (if last.pw == i && last.ph == j then Channel(last.c, ch) else 0.0)
  }

  /** Each cell ends up as its start value plus the contributions of the
      hits that land on it. */
  lemma {:induction false} ScatterAt(g: Grid, hits: seq<Hit>, i: int, j: int, ch: int)
    requires IsBuffer(g) && HitsInside(hits, |g|, Height(g))
    requires 0 <= i < |g| && 0 <= j < Height(g) && 0 <= ch < 3
    ensures Scatter(g, hits)[i][j][ch] == g[i][j][ch] + CellSum(hits, i, j, ch)
    decreases |hits|
  {
    if hits != [] {
      ScatterAt(g, hits[..|hits| - 1], i, j, ch);
    }
  }

  lemma {:induction false} CellSumOfMissedCell(hits: seq<Hit>, i: int, j: int, ch: int)
    requires forall k :: 0 <= k < |hits| ==> !(hits[k].pw == i && hits[k].ph == j)
    ensures CellSum(hits, i, j, ch) == 0.0
    decreases |hits|
  {
    if hits != [] {
      CellSumOfMissedCell(hits[..|hits| - 1], i, j, ch);
    }
  }

  /** Cells that no hit lands on keep their value. */
  lemma {:induction false} UnhitCellUnchanged(g: Grid, hits: seq<Hit>, i: int, j: int)
    requires IsBuffer(g) && HitsInside(hits, |g|, Height(g))
    requires 0 <= i < |g| && 0 <= j < Height(g)
    requires forall k :: 0 <= k < |hits| ==> !(hits[k].pw == i && hits[k].ph == j)
    ensures Scatter(g, hits)[i][j] == g[i][j]
  {
    var r := Scatter(g, hits);
    forall ch | 0 <= ch < 3
      ensures r[i][j][ch] == g[i][j][ch]
    {
      ScatterAt(g, hits, i, j, ch);
      CellSumOfMissedCell(hits, i, j, ch);
    }
  }

  // ---------------------------------------------------------------------
  // Mass conservation

  function ColumnMass(col: seq<seq<real>>): real
  {
    if col == [] then 0.0 else Sum(col[0]) + ColumnMass(col[1..])
  }

  /** The summed value of every entry of the buffer. */
  function Mass(g: Grid): real
  {
    if g == [] then 0.0 else ColumnMass(g[0]) + Mass(g[1..])
  }

  function RgbMass(c: RGB): real
  {
    c.r + c.g + c.b
  }

  /** The summed contributions of a sequence of hits. */
  function HitsMass(hits: seq<Hit>): real
    decreases |hits|
  {
    if hits == [] then 0.0 else HitsMass(hits[..|hits| - 1]) + RgbMass(hits[|hits| - 1].c)
  }

  lemma {:induction false} ColumnMassUpdate(col: seq<seq<real>>, j: nat, cell: seq<real>)
    requires j < |col|
    ensures ColumnMass(col[j := cell]) == ColumnMass(col) - Sum(col[j]) + Sum(cell)
  {
    if j == 0 {
      assert col[j := cell][1..] == col[1..];
    } else {
      assert col[j := cell][1..] == col[1..][j - 1 := cell];
      ColumnMassUpdate(col[1..], j - 1, cell);
    }
  }

  lemma {:induction false} MassUpdate(g: Grid, i: nat, col: seq<seq<real>>)
    requires i < |g|
    ensures Mass(g[i := col]) == Mass(g) - ColumnMass(g[i]) + ColumnMass(col)
  {
    if i == 0 {
      assert g[i := col][1..] == g[1..];
    } else {
      assert g[i := col][1..] == g[1..][i - 1 := col];
      MassUpdate(g[1..], i - 1, col);
    }
  }

  lemma {:induction false} AddRGBMass(cell: seq<real>, c: RGB)
    requires |cell| == 3
    ensures Sum(AddRGB(cell, c)) == Sum(cell) + RgbMass(c)
  {
    var r := AddRGB(cell, c);
    assert Sum(r[2..]) == r[2] by { assert r[2..][1..] == []; }
    assert Sum(cell[2..]) == cell[2] by { assert cell[2..][1..] == []; }
    assert r[1..][1..] == r[2..] && cell[1..][1..] == cell[2..];
  }

  /** One `+=` adds exactly the triple's sum to the buffer's mass. */
  lemma {:induction false} AddAtMass(g: Grid, hit: Hit)
    requires IsBuffer(g) && 0 <= hit.pw < |g| && 0 <= hit.ph < Height(g)
    ensures Mass(AddAt(g, hit)) == Mass(g) + RgbMass(hit.c)
  {
    var col := g[hit.pw];
    var cell := AddRGB(col[hit.ph], hit.c);
    AddRGBMass(col[hit.ph], hit.c);
    ColumnMassUpdate(col, hit.ph, cell);
    MassUpdate(g, hit.pw, col[hit.ph := cell]);
  }

  /** Conservation law: scattering raises the mass by the sum of all
      contributions. */
  lemma {:induction false} ScatterMass(g: Grid, hits: seq<Hit>)
    requires IsBuffer(g) && HitsInside(hits, |g|, Height(g))
    ensures Mass(Scatter(g, hits)) == Mass(g) + HitsMass(hits)
    decreases |hits|
  {
    if hits != [] {
      var prefix := hits[..|hits| - 1];
      ScatterMass(g, prefix);
      AddAtMass(Scatter(g, prefix), hits[|hits| - 1]);
    }
  }

  // ---------------------------------------------------------------------
  // The defensive clip after accumulation

  function ClipBelowZero(v: real): real
  {
    if v < 0.0 then 0.0 else v
  }

  /** `np.clip(array, 0, np.inf)`. */
  function ClipNonNegative(g: Grid): (r: Grid)
    requires IsBuffer(g)
    ensures SameShape(r, g)
    ensures forall i, j, ch :: 0 <= i < |g| && 0 <= j < Height(g) && 0 <= ch < 3 ==>
      0.0 <= r[i][j][ch] && (0.0 <= g[i][j][ch] ==> r[i][j][ch] == g[i][j][ch])
  {
    MapCells(g, (ch: int, v: real) => ClipBelowZero(v))
  }

  predicate NonNegative(g: Grid)
    requires IsBuffer(g)
  {
    forall i, j, ch :: 0 <= i < |g| && 0 <= j < Height(g) && 0 <= ch < 3 ==> 0.0 <= g[i][j][ch]
  }

  predicate NonNegativeHits(hits: seq<Hit>)
  {
    forall k :: 0 <= k < |hits| ==> 0.0 <= hits[k].c.r && 0.0 <= hits[k].c.g && 0.0 <= hits[k].c.b
  }

  lemma {:induction false} CellSumNonNegative(hits: seq<Hit>, i: int, j: int, ch: int)
    requires NonNegativeHits(hits)
    ensures 0.0 <= CellSum(hits, i, j, ch)
    decreases |hits|
  {
    if hits != [] {
      CellSumNonNegative(hits[..|hits| - 1], i, j, ch);
    }
  }

  /** With a non-negative start and non-negative contributions the clip
      changes nothing, so the conservation law survives it. */
  lemma {:induction false} ClipKeepsNonNegativeScatter(g: Grid, hits: seq<Hit>)
    requires IsBuffer(g) && HitsInside(hits, |g|, Height(g))
    requires NonNegative(g) && NonNegativeHits(hits)
    ensures ClipNonNegative(Scatter(g, hits)) == Scatter(g, hits)
    ensures Mass(ClipNonNegative(Scatter(g, hits))) == Mass(g) + HitsMass(hits)
  {
    var s := Scatter(g, hits);
    forall i, j, ch | 0 <= i < |g| && 0 <= j < Height(g) && 0 <= ch < 3
      ensures 0.0 <= s[i][j][ch]
    {
      ScatterAt(g, hits, i, j, ch);
      CellSumNonNegative(hits, i, j, ch);
    }
    GridsEqual(s, ClipNonNegative(s));
    ScatterMass(g, hits);
  }
}
