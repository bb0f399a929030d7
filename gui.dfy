/** The texture compositor of src/GUI.js. A cached fabric layer is painted once when
    the fabric image loads; every applyToTShirt() recreates the texture, text and logo
    layers as blank 1024 by 256 canvases, paints them from the customization records,
    stacks clear, fabric, texture, text and logo onto a new composite canvas, and puts
    that composite on the active garment's material. Math.random is the stream `rand`,
    read from index `from` on; each method returns the first index it did not read. */
module Gui {
  import opened Basics
  import opened Three
  import opened Canvas2D
  import opened State
  import opened Model

  const TileSize: nat := 64
  const SplatterCount: nat := 100
  const SplatterBlur: real := 5.0
  /** The top-left corner of a logo before its offsets, on the front and on the back. */
  const FrontLogoX: real := 276.0
  const FrontLogoY: real := 148.3125
  const BackLogoX: real := 723.0
  const BackLogoY: real := 142.6875
  const EmissiveScale: real := 0.05
  const TextFont := "Arial"

  /** A layer canvas holding the given drawing operations. */
  function Layer(ops: seq<Op>): Surface
  {
    Surface(SurfaceWidth, SurfaceHeight, ops)
  }

  // ----- the fabric layer -----

  /** The fabric image drawn over the whole layer, then drawn again multiplied onto itself. */
  function FabricOps(image: nat): seq<Op>
  {
    var shape := Image(Picture(image), 0.0, 0.0, SurfaceWidth as real, SurfaceHeight as real);
    [Draw(shape, FreshPen), Draw(shape, FreshPen.(mode := Multiply))]
  }

  /** Every pixel of the painted fabric layer is the image multiplied by itself. */
  lemma FabricSelfMultiply(raster: Raster, image: nat, p: Point)
    requires InBounds(Layer([]), p)
    ensures var px := raster(Image(Picture(image), 0.0, 0.0, SurfaceWidth as real, SurfaceHeight as real), NoFilter, p);
      PixelAt(raster, Layer(FabricOps(image)), p) == Composite(Multiply, px, px)
  {
    var s := Layer(FabricOps(image));
    assert Pix(raster, s, 1, p) == Composite(SourceOver, Fade(raster(s.ops[0].shape, NoFilter, p), 1.0), Transparent);
  }

  // ----- the splatter pattern -----

  /** The circle of the splat that reads draws base .. base + 2: centre and radius. */
  function SplatCircle(rand: Stream, base: nat, w: nat, h: nat): (c: Circle)
    requires IsUnitStream(rand)
    ensures 0.0 <= c.cx && (w > 0 ==> c.cx < w as real)
    ensures 0.0 <= c.cy && (h > 0 ==> c.cy < h as real)
    ensures 10.0 <= c.r < 60.0
  {
    Circle(Spread(rand(base), w as real, 0.0), Spread(rand(base + 1), h as real, 0.0), Spread(rand(base + 2), 50.0, 10.0))
  }

  /** The palette entry the splat's fourth draw picks. */
  function SplatColor(colors: seq<Color>, rand: Stream, base: nat): (c: Color)
    requires IsUnitStream(rand) && |colors| > 0
    ensures c in colors
  {
    colors[PickIndex(rand(base + 3), |colors|)]
  }

  /** The two fills of the splat that reads draws base .. base + 3, entered with pen p. */
  function SplatPair(colors: seq<Color>, rand: Stream, base: nat, w: nat, h: nat, p: Pen): seq<Op>
    requires IsUnitStream(rand) && |colors| > 0
  {
    var shape := Path([SplatCircle(rand, base, w, h)], ColorStyle(SplatColor(colors, rand, base)));
    [Draw(shape, p), Draw(shape, p.(filter := Blur(SplatterBlur)))]
  }

  /** Splat i: the same one-circle path filled sharp, then with a 5px blur. The sharp fill
      of the first splat runs under the filter the context had on entry; every later one
      runs after the filter was set back to none. */
  function SplatOps(colors: seq<Color>, rand: Stream, from: nat, w: nat, h: nat, pen: Pen, i: nat): seq<Op>
    requires IsUnitStream(rand) && |colors| > 0
  {
    var base := from + 4 * i;
    var shape := Path([SplatCircle(rand, base, w, h)], ColorStyle(SplatColor(colors, rand, base)));
    [Draw(shape, if i == 0 then pen else pen.(filter := NoFilter)), Draw(shape, pen.(filter := Blur(SplatterBlur)))]
  }

  /** The first n splats. */
  function SplatterOps(colors: seq<Color>, rand: Stream, from: nat, w: nat, h: nat, pen: Pen, n: nat): seq<Op>
    requires IsUnitStream(rand) && |colors| > 0
  {
    if n == 0 then [] else SplatterOps(colors, rand, from, w, h, pen, n - 1) + SplatOps(colors, rand, from, w, h, pen, n - 1)
  }

  /** Operation k of the splatter is fill k % 2 of splat k / 2. */
  lemma {:induction false} SplatterIndex(colors: seq<Color>, rand: Stream, from: nat, w: nat, h: nat, pen: Pen, n: nat)
    requires IsUnitStream(rand) && |colors| > 0
    ensures |SplatterOps(colors, rand, from, w, h, pen, n)| == 2 * n
    ensures forall k :: 0 <= k < 2 * n ==>
      SplatterOps(colors, rand, from, w, h, pen, n)[k] == SplatOps(colors, rand, from, w, h, pen, k / 2)[k % 2]
  {
    if n > 0 {
      SplatterIndex(colors, rand, from, w, h, pen, n - 1);
    }
  }

  /** The splatter is exactly 100 circles, each filled twice (sharp, then blurred), each with
      its centre inside the w by h surface, a radius in [10, 60) and a palette colour. */
  lemma SplatterRanges(colors: seq<Color>, rand: Stream, from: nat, w: nat, h: nat, pen: Pen)
    requires IsUnitStream(rand) && |colors| > 0 && w > 0 && h > 0
    ensures var ops := SplatterOps(colors, rand, from, w, h, pen, SplatterCount);
      && |ops| == 2 * SplatterCount
      && forall k :: 0 <= k < |ops| ==>
        && ops[k].DrawOp? && ops[k].shape.Path? && |ops[k].shape.circles| == 1
        && 0.0 <= ops[k].shape.circles[0].cx < w as real
        && 0.0 <= ops[k].shape.circles[0].cy < h as real
        && 10.0 <= ops[k].shape.circles[0].r < 60.0
        && ops[k].shape.style.ColorStyle? && ops[k].shape.style.color in colors
        && ops[k].alpha == pen.alpha && ops[k].mode == pen.mode
        && (k % 2 == 1 ==> ops[k].filter == Blur(SplatterBlur) && ops[k].shape == ops[k - 1].shape)
        && (k % 2 == 0 && k > 0 ==> ops[k].filter == NoFilter)
  {
    var ops := SplatterOps(colors, rand, from, w, h, pen, SplatterCount);
    SplatterIndex(colors, rand, from, w, h, pen, SplatterCount);
    forall k | 0 <= k < |ops|
      ensures && ops[k].DrawOp? && ops[k].shape.Path? && |ops[k].shape.circles| == 1
        && 0.0 <= ops[k].shape.circles[0].cx < w as real
        && 0.0 <= ops[k].shape.circles[0].cy < h as real
        && 10.0 <= ops[k].shape.circles[0].r < 60.0
        && ops[k].shape.style.ColorStyle? && ops[k].shape.style.color in colors
        && ops[k].alpha == pen.alpha && ops[k].mode == pen.mode
        && (k % 2 == 1 ==> ops[k].filter == Blur(SplatterBlur) && ops[k].shape == ops[k - 1].shape)
        && (k % 2 == 0 && k > 0 ==> ops[k].filter == NoFilter)
    {
      SplatFills(colors, rand, from, w, h, pen, k / 2);
      if k % 2 == 1 {
        assert (k - 1) / 2 == k / 2 && (k - 1) % 2 == 0;
      }
    }
  }

  /** The two fills of one splat: the same circle, inside the surface, with a radius in
      [10, 60) and a palette colour; the second blurred. */
  lemma SplatFills(colors: seq<Color>, rand: Stream, from: nat, w: nat, h: nat, pen: Pen, i: nat)
    requires IsUnitStream(rand) && |colors| > 0 && w > 0 && h > 0
    ensures var fills := SplatOps(colors, rand, from, w, h, pen, i);
      && |fills| == 2 && fills[0].DrawOp? && fills[1].DrawOp? && fills[1].shape == fills[0].shape
      && fills[0].shape.Path? && |fills[0].shape.circles| == 1
      && 0.0 <= fills[0].shape.circles[0].cx < w as real
      && 0.0 <= fills[0].shape.circles[0].cy < h as real
      && 10.0 <= fills[0].shape.circles[0].r < 60.0
      && fills[0].shape.style.ColorStyle? && fills[0].shape.style.color in colors
      && fills[0].alpha == pen.alpha && fills[0].mode == pen.mode
      && fills[1].alpha == pen.alpha && fills[1].mode == pen.mode
      && fills[1].filter == Blur(SplatterBlur) && (i > 0 ==> fills[0].filter == NoFilter)
  {
  }

  /** One iteration of the splatter loop: a circle at a random centre with a random radius
      and palette colour, filled, then filled again under a 5px blur. */
  method Splat(ctx: Canvas, colors: seq<Color>, w: nat, h: nat, rand: Stream, base: nat)
    requires IsUnitStream(rand) && |colors| > 0
    modifies ctx
    ensures ctx.ops == old(ctx.ops) + SplatPair(colors, rand, base, w, h, old(ctx.CurrentPen()))
    ensures ctx.CurrentPen() == old(ctx.CurrentPen()).(filter := NoFilter)
  {
    var x := Spread(rand(base), w as real, 0.0);
    var y := Spread(rand(base + 1), h as real, 0.0);
    var radius := Spread(rand(base + 2), 50.0, 10.0);
    var color := colors[PickIndex(rand(base + 3), |colors|)];
    ghost var pen := ctx.CurrentPen();
    ghost var shape := Path([Circle(x, y, radius)], ColorStyle(color));
    assert shape == Path([SplatCircle(rand, base, w, h)], ColorStyle(SplatColor(colors, rand, base)));
    ctx.fillStyle := ColorStyle(color);
    ctx.BeginPath();
    ctx.Arc(x, y, radius);
    assert ctx.path == [Circle(x, y, radius)];
    assert ctx.CurrentPen() == pen;
    assert ctx.ops == old(ctx.ops);
    ctx.Fill();
    assert ctx.ops == old(ctx.ops) + [Draw(shape, pen)];
    ctx.filter := Blur(SplatterBlur);
    ctx.Fill();
    assert ctx.ops == old(ctx.ops) + SplatPair(colors, rand, base, w, h, pen);
    ctx.filter := NoFilter;
  }

  /** Splat i, entered with the pen the loop has at that point, extends the first i splats
      to the first i + 1. */
  lemma SplatStep(colors: seq<Color>, rand: Stream, from: nat, w: nat, h: nat, pen: Pen, i: nat, current: Pen)
    requires IsUnitStream(rand) && |colors| > 0
    requires current == if i == 0 then pen else pen.(filter := NoFilter)
    ensures SplatterOps(colors, rand, from, w, h, pen, i + 1)
        == SplatterOps(colors, rand, from, w, h, pen, i) + SplatPair(colors, rand, from + 4 * i, w, h, current)
  {
    assert current.(filter := Blur(SplatterBlur)) == pen.(filter := Blur(SplatterBlur));
  }

  method ApplySplatterPattern(ctx: Canvas, colors: seq<Color>, w: nat, h: nat, rand: Stream, from: nat) returns (next: nat)
    requires IsUnitStream(rand) && |colors| > 0
    modifies ctx
    ensures ctx.ops == old(ctx.ops) + SplatterOps(colors, rand, from, w, h, old(ctx.CurrentPen()), SplatterCount)
    ensures ctx.CurrentPen() == old(ctx.CurrentPen()).(filter := NoFilter)
    ensures next == from + 4 * SplatterCount
  {
    var pen := ctx.CurrentPen();
    var i := 0;
    next := from;
    while i < SplatterCount
      invariant 0 <= i <= SplatterCount
      invariant next == from + 4 * i
      invariant ctx.ops == old(ctx.ops) + SplatterOps(colors, rand, from, w, h, pen, i)
      invariant ctx.CurrentPen() == if i == 0 then pen else pen.(filter := NoFilter)
    {
      ghost var before, current := ctx.ops, ctx.CurrentPen();
      SplatStep(colors, rand, from, w, h, pen, i, current);
      Splat(ctx, colors, w, h, rand, next);
      assert ctx.ops == (old(ctx.ops) + SplatterOps(colors, rand, from, w, h, pen, i)) + SplatPair(colors, rand, next, w, h, current);
      i := i + 1;
      next := next + 4;
    }
  }

  // ----- the gradient pattern -----

  /** The offset forEach gives colour idx of n: idx / (n - 1). */
  function StopOffset(idx: nat, n: nat): real
    requires n != 1
  {
    idx as real / (n - 1) as real
  }

  /** The colour stops, or None for a single colour: its offset is 0 / 0, which is not
      finite, and addColorStop throws. */
  function GradientStops(colors: seq<Color>): (r: Option<seq<ColorStop>>)
    ensures r.None? <==> |colors| == 1
    ensures r.Some? ==> |r.value| == |colors|
  {
    if |colors| == 1 then None
    else Some(seq(|colors|, i requires 0 <= i < |colors| => ColorStop(StopOffset(i, |colors|), colors[i])))
  }

  lemma DivLess(a: real, b: real, d: real)
    requires 0.0 <= a < b && d > 0.0
    ensures a / d < b / d
  {
    assert b / d - a / d == (b - a) / d;
  }

  /** Offsets run from 0 for the first colour to 1 for the last, strictly increasing. */
  lemma StopOffsetOrdered(i: nat, j: nat, n: nat)
    requires i < j < n
    ensures 0.0 <= StopOffset(i, n) < StopOffset(j, n) <= 1.0
    ensures i == 0 ==> StopOffset(i, n) == 0.0
    ensures j == n - 1 ==> StopOffset(j, n) == 1.0
  {
    var d := (n - 1) as real;
    assert d >= 1.0;
    assert StopOffset(i, n) == i as real / d && StopOffset(j, n) == j as real / d;
    DivLess(i as real, j as real, d);
    DivNonneg(i as real, d);
    if j < n - 1 {
      DivLess(j as real, d, d);
    }
    assert d / d == 1.0;
  }

  lemma DivNonneg(a: real, d: real)
    requires 0.0 <= a && d > 0.0
    ensures 0.0 <= a / d
  {
  }

  /** With two or more colours the stops start at 0, end at 1, strictly increase, and carry
      the palette in order. */
  lemma GradientStopsOrdered(colors: seq<Color>)
    requires |colors| >= 2
    ensures var stops := GradientStops(colors).value;
      && stops[0].offset == 0.0 && stops[|stops| - 1].offset == 1.0
      && (forall i :: 0 <= i < |stops| ==> 0.0 <= stops[i].offset <= 1.0 && stops[i].color == colors[i])
      && (forall i, j :: 0 <= i < j < |stops| ==> stops[i].offset < stops[j].offset)
  {
    var n := |colors|;
    var stops := GradientStops(colors).value;
    StopOffsetOrdered(0, n - 1, n);
    forall i, j | 0 <= i < j < n ensures stops[i].offset < stops[j].offset {
      StopOffsetOrdered(i, j, n);
    }
    forall i | 0 <= i < n ensures 0.0 <= stops[i].offset <= 1.0 {
      if i < n - 1 {
        StopOffsetOrdered(i, n - 1, n);
      } else {
        StopOffsetOrdered(0, i, n);
      }
    }
  }

  /** The whole surface filled with a left-to-right gradient. */
  function GradientOps(stops: seq<ColorStop>, w: nat, h: nat, pen: Pen): seq<Op>
  {
    [Draw(Rect(0.0, 0.0, w as real, h as real, LinearGradient(0.0, 0.0, w as real, 0.0, stops)), pen)]
  }

  /** applyGradientPattern; ok is false when addColorStop throws, and then nothing is filled. */
  method ApplyGradientPattern(ctx: Canvas, colors: seq<Color>, w: nat, h: nat) returns (ok: bool)
    modifies ctx
    ensures ok <==> GradientStops(colors).Some?
    ensures ok ==> ctx.ops == old(ctx.ops) + GradientOps(GradientStops(colors).value, w, h, old(ctx.CurrentPen()))
    ensures !ok ==> ctx.ops == old(ctx.ops)
    ensures ok ==> ctx.fillStyle == LinearGradient(0.0, 0.0, w as real, 0.0, GradientStops(colors).value)
    ensures !ok ==> ctx.fillStyle == old(ctx.fillStyle)
    ensures ctx.CurrentPen() == old(ctx.CurrentPen())
    ensures ctx.font == old(ctx.font) && ctx.textAlign == old(ctx.textAlign)
    ensures ctx.textBaseline == old(ctx.textBaseline) && ctx.path == old(ctx.path)
  {
    var stops: seq<ColorStop> := [];
    var idx := 0;
    while idx < |colors|
      invariant 0 <= idx <= |colors|
      invariant |colors| == 1 ==> idx == 0
      invariant |stops| == idx
      invariant forall i :: 0 <= i < idx ==> stops[i] == ColorStop(StopOffset(i, |colors|), colors[i])
      invariant ctx.ops == old(ctx.ops) && ctx.CurrentPen() == old(ctx.CurrentPen())
      invariant ctx.fillStyle == old(ctx.fillStyle)
    {
      if |colors| == 1 {
        return false;
      }
      stops := stops + [ColorStop(StopOffset(idx, |colors|), colors[idx])];
      idx := idx + 1;
    }
    if |colors| == 1 {
      return false;
    }
    assert stops == GradientStops(colors).value;
    ctx.fillStyle := LinearGradient(0.0, 0.0, w as real, 0.0, stops);
    ctx.FillRect(0.0, 0.0, w as real, h as real);
    ok := true;
  }

  // ----- the grid pattern -----

  /** How many tile starts 0, 64, 128, ... lie below extent. */
  function Tiles(extent: nat): nat
  {
    (extent + TileSize - 1) / TileSize
  }

  lemma TilesBound(extent: nat, c: nat)
    ensures c * TileSize < extent <==> c < Tiles(extent)
  {
  }

  lemma MulAtLeast(a: nat, d: nat)
    requires a >= 1
    ensures a * d >= d
  {
    if a > 1 {
      MulAtLeast(a - 1, d);
      assert a * d == (a - 1) * d + d;
    }
  }

  /** Euclidean division of q * d + r by d, for 0 <= r < d, gives back q and r. */
  lemma DivModOf(q: nat, r: nat, d: nat)
    requires r < d
    ensures (q * d + r) / d == q && (q * d + r) % d == r
  {
    var n := q * d + r;
    var q', r' := n / d, n % d;
    assert n == q' * d + r' && 0 <= r' < d;
    if q' > q {
      assert q' * d == q * d + (q' - q) * d;
      MulAtLeast(q' - q, d);
      assert false;
    } else if q' < q {
      assert q * d == q' * d + (q - q') * d;
      MulAtLeast(q - q', d);
      assert false;
    }
  }

  /** Tile k when each column holds `rows` tiles, in the order the nested loops visit them:
      column k / rows, row k % rows, coloured by draw from + k. */
  function GridTile(colors: seq<Color>, rand: Stream, from: nat, rows: nat, pen: Pen, k: nat): Op
    requires IsUnitStream(rand) && |colors| > 0 && rows > 0
  {
    Draw(Rect((k / rows * TileSize) as real, (k % rows * TileSize) as real, TileSize as real, TileSize as real,
              ColorStyle(colors[PickIndex(rand(from + k), |colors|)])), pen)
  }

  /** The first n tiles. */
  function GridPrefix(colors: seq<Color>, rand: Stream, from: nat, rows: nat, pen: Pen, n: nat): (ops: seq<Op>)
    requires IsUnitStream(rand) && |colors| > 0
    ensures |ops| == if rows == 0 then 0 else n
  {
    if rows == 0 then []
    else seq(n, k requires 0 <= k < n => GridTile(colors, rand, from, rows, pen, k))
  }

  /** The whole grid over a w by h surface. */
  function GridOps(colors: seq<Color>, rand: Stream, from: nat, w: nat, h: nat, pen: Pen): seq<Op>
    requires IsUnitStream(rand) && |colors| > 0
  {
    GridPrefix(colors, rand, from, Tiles(h), pen, Tiles(w) * Tiles(h))
  }

  /** Tile c * rows + r, the one the loops draw at column c and row r, extends the prefix. */
  lemma GridStep(colors: seq<Color>, rand: Stream, from: nat, rows: nat, pen: Pen, c: nat, r: nat)
    requires IsUnitStream(rand) && |colors| > 0 && r < rows
    ensures GridPrefix(colors, rand, from, rows, pen, c * rows + r + 1)
         == GridPrefix(colors, rand, from, rows, pen, c * rows + r)
            + [Draw(Rect((c * TileSize) as real, (r * TileSize) as real, TileSize as real, TileSize as real,
                         ColorStyle(colors[PickIndex(rand(from + c * rows + r), |colors|)])), pen)]
  {
    var n := c * rows + r;
    DivModOf(c, r, rows);
    assert GridPrefix(colors, rand, from, rows, pen, n + 1)
        == GridPrefix(colors, rand, from, rows, pen, n) + [GridTile(colors, rand, from, rows, pen, n)];
  }

  method ApplyGridPattern(ctx: Canvas, colors: seq<Color>, w: nat, h: nat, rand: Stream, from: nat) returns (next: nat)
    requires IsUnitStream(rand) && |colors| > 0
    modifies ctx
    ensures ctx.ops == old(ctx.ops) + GridOps(colors, rand, from, w, h, old(ctx.CurrentPen()))
    ensures ctx.CurrentPen() == old(ctx.CurrentPen())
    ensures next == from + Tiles(w) * Tiles(h)
  {
    var pen := ctx.CurrentPen();
    var rows := Tiles(h);
    next := from;
    var x: nat := 0;
    ghost var c: nat := 0;
    ghost var base: nat := 0;
    while x < w
      invariant x == c * TileSize && c <= Tiles(w) && base == c * rows
      invariant next == from + base
      invariant ctx.ops == old(ctx.ops) + GridPrefix(colors, rand, from, rows, pen, base)
      invariant ctx.CurrentPen() == pen
    {
      TilesBound(w, c);
      var y: nat := 0;
      ghost var r: nat := 0;
      while y < h
        invariant y == r * TileSize && r <= rows
        invariant next == from + base + r
        invariant ctx.ops == old(ctx.ops) + GridPrefix(colors, rand, from, rows, pen, base + r)
        invariant ctx.CurrentPen() == pen
      {
        TilesBound(h, r);
        GridStep(colors, rand, from, rows, pen, c, r);
        var color := colors[PickIndex(rand(next), |colors|)];
        ctx.fillStyle := ColorStyle(color);
        ctx.FillRect(x as real, y as real, TileSize as real, TileSize as real);
        y := y + TileSize;
        r := r + 1;
        next := next + 1;
      }
      TilesBound(h, r);
      assert (c + 1) * rows == base + rows;
      x := x + TileSize;
      c := c + 1;
      base := base + rows;
    }
    TilesBound(w, c);
  }

  /** On the 1024 by 256 layer the grid is 64 tiles: columns at 0, 64, ..., 960 and rows at
      0, 64, 128, 192. */
  lemma GridTileCount(colors: seq<Color>, rand: Stream, from: nat, pen: Pen)
    requires IsUnitStream(rand) && |colors| > 0
    ensures var ops := GridOps(colors, rand, from, SurfaceWidth, SurfaceHeight, pen);
      && |ops| == 64
      && forall k :: 0 <= k < |ops| ==>
        && ops[k].DrawOp? && ops[k].shape.Rect? && ops[k].shape.w == 64.0 && ops[k].shape.h == 64.0
        && ops[k].shape.x == (64 * (k / 4)) as real && ops[k].shape.y == (64 * (k % 4)) as real
        && k / 4 < 16
  {
    assert Tiles(SurfaceWidth) == 16 && Tiles(SurfaceHeight) == 4;
  }

  /** The index, in drawing order, of the tile over pixel p when each column holds `rows` tiles. */
  function TileIndex(p: Point, rows: nat): int
  {
    p.x / TileSize * rows + p.y / TileSize
  }

  /** Tile j covers p exactly when j is the index of p's column and row. */
  lemma GridTileCovers(colors: seq<Color>, rand: Stream, from: nat, rows: nat, pen: Pen, j: nat, p: Point)
    requires IsUnitStream(rand) && |colors| > 0
    requires 0 <= p.x && 0 <= p.y && p.y / TileSize < rows
    ensures var s := GridTile(colors, rand, from, rows, pen, j).shape;
      Covers(s.x, s.y, s.w, s.h, p) <==> j == TileIndex(p, rows)
  {
    CoversTile(j / rows, j % rows, p);
    DivModOf(p.x / TileSize, p.y / TileSize, rows);
    assert j == j / rows * rows + j % rows;
  }

  /** The tile of pixel p's column and row is one of the grid's. */
  lemma GridIndexBound(w: nat, h: nat, p: Point)
    requires 0 <= p.x < w && 0 <= p.y < h
    ensures p.y / TileSize < Tiles(h)
    ensures 0 <= TileIndex(p, Tiles(h)) < Tiles(w) * Tiles(h)
  {
    var a, b, rows := p.x / TileSize, p.y / TileSize, Tiles(h);
    TilesBound(w, a);
    TilesBound(h, b);
    assert (a + 1) * rows == a * rows + rows;
    MulMonotone(a + 1, Tiles(w), rows);
  }

  /** Entry j of the grid is tile j. */
  lemma GridOpsAt(colors: seq<Color>, rand: Stream, from: nat, w: nat, h: nat, pen: Pen, j: nat)
    requires IsUnitStream(rand) && |colors| > 0 && j < |GridOps(colors, rand, from, w, h, pen)|
    ensures Tiles(h) > 0 && GridOps(colors, rand, from, w, h, pen)[j] == GridTile(colors, rand, from, Tiles(h), pen, j)
  {
  }

  /** Entry j of the grid covers an in-bounds pixel exactly when j is the pixel's tile index. */
  lemma GridEntryCovers(colors: seq<Color>, rand: Stream, from: nat, w: nat, h: nat, pen: Pen, j: nat, p: Point)
    requires IsUnitStream(rand) && |colors| > 0 && j < |GridOps(colors, rand, from, w, h, pen)|
    requires 0 <= p.x < w && 0 <= p.y < h
    ensures var op := GridOps(colors, rand, from, w, h, pen)[j];
      Covers(op.shape.x, op.shape.y, op.shape.w, op.shape.h, p) <==> j == TileIndex(p, Tiles(h))
  {
    GridOpsAt(colors, rand, from, w, h, pen, j);
    GridIndexBound(w, h, p);
    GridTileCovers(colors, rand, from, Tiles(h), pen, j, p);
  }

  /** Pixel p of a w by h surface is covered by exactly one tile: the one of its column and row. */
  lemma GridCoverage(colors: seq<Color>, rand: Stream, from: nat, w: nat, h: nat, pen: Pen, p: Point)
    requires IsUnitStream(rand) && |colors| > 0
    requires 0 <= p.x < w && 0 <= p.y < h
    ensures var ops := GridOps(colors, rand, from, w, h, pen);
      var k := TileIndex(p, Tiles(h));
      && 0 <= k < |ops|
      && forall j :: 0 <= j < |ops| ==>
        (Covers(ops[j].shape.x, ops[j].shape.y, ops[j].shape.w, ops[j].shape.h, p) <==> j == k)
  {
    var ops := GridOps(colors, rand, from, w, h, pen);
    GridIndexBound(w, h, p);
    assert |ops| == Tiles(w) * Tiles(h);
    forall j | 0 <= j < |ops|
      ensures Covers(ops[j].shape.x, ops[j].shape.y, ops[j].shape.w, ops[j].shape.h, p) <==> j == TileIndex(p, Tiles(h))
    {
      GridEntryCovers(colors, rand, from, w, h, pen, j, p);
    }
  }

  lemma MulMonotone(a: nat, b: nat, d: nat)
    requires a <= b
    ensures a * d <= b * d
  {
    if a < b {
      MulAtLeast(b - a, d);
      assert b * d == a * d + (b - a) * d;
    }
  }

  /** A 64 by 64 tile at column a, row b covers p exactly when p lies in that column and row. */
  lemma CoversTile(a: nat, b: nat, p: Point)
    requires 0 <= p.x && 0 <= p.y
    ensures Covers((a * TileSize) as real, (b * TileSize) as real, TileSize as real, TileSize as real, p)
        <==> a == p.x / TileSize && b == p.y / TileSize
  {
  }

  /** Drawn with a fresh context, every tile is an opaque fill, so each pixel of the grid
      shows the colour of the one tile over it. */
  lemma {:induction false} GridPixel(raster: Raster, colors: seq<Color>, rand: Stream, from: nat, w: nat, h: nat, p: Point)
    requires IsUnitStream(rand) && |colors| > 0
    requires 0 <= p.x < w && 0 <= p.y < h
    ensures var ops := GridOps(colors, rand, from, w, h, FreshPen);
      var k := TileIndex(p, Tiles(h));
      0 <= k < |ops| && PixelAt(raster, Surface(w, h, ops), p) == Ink(StyleAt(ops[k].shape.style, p), 1.0)
  {
    var ops := GridOps(colors, rand, from, w, h, FreshPen);
    GridCoverage(colors, rand, from, w, h, FreshPen, p);
    var k := TileIndex(p, Tiles(h));
    GridPixelFrom(raster, Surface(w, h, ops), k, |ops|, p);
  }

  lemma {:induction false} GridPixelFrom(raster: Raster, s: Surface, k: nat, n: nat, p: Point)
    requires k < n <= |s.ops|
    requires forall j :: 0 <= j < |s.ops| ==>
      (s.ops[j].DrawOp? && s.ops[j].shape.Rect? && s.ops[j].alpha == 1.0 && s.ops[j].mode == SourceOver && s.ops[j].filter == NoFilter)
    requires forall j :: 0 <= j < |s.ops| ==>
      (Covers(s.ops[j].shape.x, s.ops[j].shape.y, s.ops[j].shape.w, s.ops[j].shape.h, p) <==> j == k)
    ensures Pix(raster, s, n, p) == Ink(StyleAt(s.ops[k].shape.style, p), 1.0)
  {
    if n > k + 1 {
      GridPixelFrom(raster, s, k, n - 1, p);
    }
  }

  // ----- pattern dispatch and the three layers -----

  /** applyPattern's operations, or None when the pattern throws; an unrecognised kind draws nothing. */
  function PatternOps(kind: string, colors: seq<Color>, w: nat, h: nat, pen: Pen, rand: Stream, from: nat): Option<seq<Op>>
    requires IsUnitStream(rand) && |colors| > 0
  {
    if kind == "splatter" then Some(SplatterOps(colors, rand, from, w, h, pen, SplatterCount))
    else if kind == "gradient" then
      (if GradientStops(colors).Some? then Some(GradientOps(GradientStops(colors).value, w, h, pen)) else None)
    else if kind == "grid" then Some(GridOps(colors, rand, from, w, h, pen))
    else Some([])
  }

  /** How many random draws applyPattern reads. */
  function PatternDraws(kind: string, w: nat, h: nat): nat
  {
    if kind == "splatter" then 4 * SplatterCount
    else if kind == "grid" then Tiles(w) * Tiles(h)
    else 0
  }

  method ApplyPattern(ctx: Canvas, kind: string, colors: seq<Color>, w: nat, h: nat, rand: Stream, from: nat)
    returns (next: nat, ok: bool)
    requires IsUnitStream(rand) && |colors| > 0
    modifies ctx
    ensures ok <==> PatternOps(kind, colors, w, h, old(ctx.CurrentPen()), rand, from).Some?
    ensures ok ==> ctx.ops == old(ctx.ops) + PatternOps(kind, colors, w, h, old(ctx.CurrentPen()), rand, from).value
    ensures !ok ==> ctx.ops == old(ctx.ops)
    ensures next == from + PatternDraws(kind, w, h)
  {
    next, ok := from, true;
    if kind == "splatter" {
      next := ApplySplatterPattern(ctx, colors, w, h, rand, from);
    } else if kind == "gradient" {
      ok := ApplyGradientPattern(ctx, colors, w, h);
    } else if kind == "grid" {
      next := ApplyGridPattern(ctx, colors, w, h, rand, from);
    }
  }

  /** What updateTextureLayer paints: a pattern only when a kind is set and the palette is non-empty. */
  function TextureOps(texture: TextureRecord, rand: Stream, from: nat): Option<seq<Op>>
    requires IsUnitStream(rand)
  {
    if texture.patternType != "" && |texture.colors| > 0
    then PatternOps(texture.patternType, texture.colors, SurfaceWidth, SurfaceHeight, FreshPen, rand, from)
    else Some([])
  }

  function TextureDraws(texture: TextureRecord): nat
  {
    if texture.patternType != "" && |texture.colors| > 0 then PatternDraws(texture.patternType, SurfaceWidth, SurfaceHeight) else 0
  }

  /** The texture layer is blank without a kind, without colours, or with an unrecognised
      kind; it fails only for a one-colour gradient. */
  lemma TextureGuard(texture: TextureRecord, rand: Stream, from: nat)
    requires IsUnitStream(rand)
    ensures texture.patternType == "" || texture.colors == [] ==> TextureOps(texture, rand, from) == Some([]) && TextureDraws(texture) == 0
    ensures texture.patternType !in {"splatter", "gradient", "grid"} ==> TextureOps(texture, rand, from) == Some([])
    ensures TextureOps(texture, rand, from).None? <==> texture.patternType == "gradient" && |texture.colors| == 1
  {
  }

  /** `fontSize || 30`: a zero size falls back to 30. */
  function TextFontSize(size: real): (r: real)
    ensures size != 0.0 ==> r == size
    ensures size == 0.0 ==> r == 30.0
  {
    if size == 0.0 then 30.0 else size
  }

  /** One centred fillText of the record's text at an anchor. */
  function TextAt(t: TextRecord, a: Anchor): Op
  {
    Draw(Text(t.text, a.x, a.y, Font(TextFontSize(t.fontSize), TextFont), Css(t.color), CenterAlign, MiddleBaseline), FreshPen)
  }

  /** What updateTextLayer paints. */
  function TextOps(t: TextRecord): seq<Op>
  {
    if t.text == "" || t.positions == [] then []
    else seq(|t.positions|, i requires 0 <= i < |t.positions| => TextAt(t, t.positions[i]))
  }

  /** The text layer is painted only when both the text and the positions are non-empty, and
      then holds one centred, middle-baseline fillText per position, in order. */
  lemma TextLayerShape(t: TextRecord)
    ensures TextOps(t) == [] <==> t.text == "" || t.positions == []
    ensures t.text != "" ==> |TextOps(t)| == |t.positions|
    ensures t.text != "" ==> forall i :: 0 <= i < |t.positions| ==>
      && TextOps(t)[i].DrawOp? && TextOps(t)[i].shape == Text(t.text, t.positions[i].x, t.positions[i].y,
           Font(TextFontSize(t.fontSize), TextFont), Css(t.color), CenterAlign, MiddleBaseline)
      && TextOps(t)[i].alpha == 1.0 && TextOps(t)[i].mode == SourceOver
  {
    if t.text != "" && t.positions != [] {
      assert TextOps(t)[0] == TextAt(t, t.positions[0]);
    }
  }

  /** The top-left corner a logo is drawn at. */
  function LogoCorner(l: LogoRecord): (real, real)
  {
    if l.position == "front" then (FrontLogoX + l.xOffset, FrontLogoY + l.yOffset)
    else (BackLogoX + l.xOffset, BackLogoY + l.yOffset)
  }

  /** Assigning globalAlpha on a fresh context: an opacity outside [0, 1] leaves it at 1. */
  function LogoAlpha(opacity: real): (a: real)
    ensures 0.0 <= a <= 1.0
    ensures 0.0 <= opacity <= 1.0 ==> a == opacity
  {
    if 0.0 <= opacity <= 1.0 then opacity else 1.0
  }

  /** What updateLogoLayer paints. */
  function LogoOps(l: LogoRecord): seq<Op>
  {
    if l.image.None? then []
    else
      var corner := LogoCorner(l);
      [Draw(Image(Picture(l.image.value), corner.0, corner.1, l.width, l.height), FreshPen.(alpha := LogoAlpha(l.opacity)))]
  }

  /** Without an image the logo layer stays blank; with one it holds a single draw of it at
      (276, 148.3125) on the front and (723, 142.6875) otherwise, moved by the offsets, sized
      as stored, at the stored opacity. */
  lemma LogoPlacement(l: LogoRecord)
    ensures l.image.None? ==> LogoOps(l) == []
    ensures l.image.Some? ==> |LogoOps(l)| == 1 && LogoOps(l)[0].DrawOp?
    ensures l.image.Some? && l.position == "front" ==>
      LogoOps(l)[0].shape == Image(Picture(l.image.value), 276.0 + l.xOffset, 148.3125 + l.yOffset, l.width, l.height)
    ensures l.image.Some? && l.position != "front" ==>
      LogoOps(l)[0].shape == Image(Picture(l.image.value), 723.0 + l.xOffset, 142.6875 + l.yOffset, l.width, l.height)
    ensures l.image.Some? && 0.0 <= l.opacity <= 1.0 ==> LogoOps(l)[0].alpha == l.opacity
  {
  }

  // ----- the composite -----

  /** clear, fabric, texture, text, logo: the fixed order of applyToTShirt. */
  /** A layer canvas that is still null is skipped. */
  function CopyIfPresent(layer: Option<Surface>): seq<Op>
  {
    if layer.Some? then [CopyLayer(layer.value)] else []
  }

  lemma CopiesOfPresent(fabric: Surface, texture: Surface, text: Surface, logo: Surface)
    ensures [ClearOp(0.0, 0.0, SurfaceWidth as real, SurfaceHeight as real), CopyLayer(fabric)]
            + CopyIfPresent(Some(texture)) + CopyIfPresent(Some(text)) + CopyIfPresent(Some(logo))
            == CompositeOps(fabric, texture, text, logo)
  {
  }

  function CompositeOps(fabric: Surface, texture: Surface, text: Surface, logo: Surface): seq<Op>
  {
    [ClearOp(0.0, 0.0, SurfaceWidth as real, SurfaceHeight as real),
     CopyLayer(fabric), CopyLayer(texture), CopyLayer(text), CopyLayer(logo)]
  }

  predicate LayerSized(s: Surface)
  {
    s.width == SurfaceWidth && s.height == SurfaceHeight
  }

  /** Each composite pixel is the logo over the text over the texture over the fabric. */
  lemma CompositePixel(raster: Raster, fabric: Surface, texture: Surface, text: Surface, logo: Surface, p: Point)
    requires LayerSized(fabric) && LayerSized(texture) && LayerSized(text) && LayerSized(logo)
    ensures PixelAt(raster, Layer(CompositeOps(fabric, texture, text, logo)), p)
         == Composite(SourceOver, PixelAt(raster, logo, p),
              Composite(SourceOver, PixelAt(raster, text, p),
                Composite(SourceOver, PixelAt(raster, texture, p), PixelAt(raster, fabric, p))))
  {
    var ops := CompositeOps(fabric, texture, text, logo);
    var s0 := Layer(ops[..1]);
    assert PixelAt(raster, s0, p) == Transparent;
    CopyLayerPixel(raster, s0, fabric, p);
    assert ops[..2] == ops[..1] + [CopyLayer(fabric)];
    CopyLayerPixel(raster, Layer(ops[..2]), texture, p);
    assert ops[..3] == ops[..2] + [CopyLayer(texture)];
    CopyLayerPixel(raster, Layer(ops[..3]), text, p);
    assert ops[..4] == ops[..3] + [CopyLayer(text)];
    CopyLayerPixel(raster, Layer(ops[..4]), logo, p);
    assert ops == ops[..4] + [CopyLayer(logo)];
  }

  /** With blank texture, text and logo layers the composite shows the fabric layer. */
  lemma BlankLayersShowFabric(raster: Raster, fabric: Surface, p: Point)
    requires LayerSized(fabric)
    ensures PixelAt(raster, Layer(CompositeOps(fabric, Layer([]), Layer([]), Layer([]))), p) == PixelAt(raster, fabric, p)
  {
    CompositePixel(raster, fabric, Layer([]), Layer([]), Layer([]), p);
  }

  /** Where the logo layer is opaque the composite shows the logo, whatever lies beneath. */
  lemma LogoOnTop(raster: Raster, fabric: Surface, texture: Surface, text: Surface, logo: Surface, p: Point)
    requires LayerSized(fabric) && LayerSized(texture) && LayerSized(text) && LayerSized(logo)
    requires Opaque(PixelAt(raster, logo, p))
    ensures PixelAt(raster, Layer(CompositeOps(fabric, texture, text, logo)), p) == PixelAt(raster, logo, p)
  {
    CompositePixel(raster, fabric, texture, text, logo, p);
  }

  // ----- applyToTShirt -----

  /** The compositor's module state: each layer canvas's drawing, or None while it is null. */
  datatype Layers = Layers(fabric: Option<Surface>, texture: Option<Surface>, text: Option<Surface>,
                           logo: Option<Surface>, composite: Option<Surface>)

  /** The result of applyToTShirt: the new layers and registry, the next unread draw, and
      whether it stopped on an exception. */
  datatype Applied = Applied(layers: Layers, reg: Registry, next: nat, failed: bool)

  /** The active garment's material after the composite is applied: the composite as map and
      emissive map, the stored colour, and an emissive glow of 0.05 of it. */
  function PaintedMaterial(color: Color, composite: Surface): Material
  {
    Material(color, CanvasMap(composite), ScaleColor(color, EmissiveScale), Some(CanvasMap(composite)))
  }

  function Apply(layers: Layers, reg: Registry, text: TextRecord, texture: TextureRecord, logo: LogoRecord,
                 rand: Stream, from: nat): Applied
    requires IsUnitStream(rand)
  {
    if reg.current.None? || reg.current.value !in reg.models || layers.fabric.None? then Applied(layers, reg, from, false)
    else
      match Refresh(layers, text, texture, logo, rand, from)
      case None => Applied(layers.(texture := Some(Layer([]))), reg, from, true)
      case Some(refreshed) =>
        Applied(refreshed, Dress(reg, reg.current.value, refreshed.composite.value), from + TextureDraws(texture), false)
  }

  /** updateTextureLayer, updateTextLayer, updateLogoLayer and the composite canvas; None when
      the texture layer throws. */
  function Refresh(layers: Layers, text: TextRecord, texture: TextureRecord, logo: LogoRecord,
                   rand: Stream, from: nat): (r: Option<Layers>)
    requires IsUnitStream(rand) && layers.fabric.Some?
    ensures r.Some? ==> r.value.fabric == layers.fabric && r.value.composite.Some?
  {
    match TextureOps(texture, rand, from)
    case None => None
    case Some(textureOps) =>
      var textureLayer, textLayer, logoLayer := Layer(textureOps), Layer(TextOps(text)), Layer(LogoOps(logo));
      var composite := Layer(CompositeOps(layers.fabric.value, textureLayer, textLayer, logoLayer));
      Some(Layers(layers.fabric, Some(textureLayer), Some(textLayer), Some(logoLayer), Some(composite)))
  }

  /** The traverse over the garment's mesh: the material gets the composite and the stored
      colour, setCompositeCanvas records the composite, and the garment is shown. */
  function Dress(reg: Registry, name: string, composite: Surface): Registry
    requires name in reg.models
  {
    var painted := reg.(models := reg.models[name := reg.models[name].(material := PaintedMaterial(GetCurrentColor(reg, name), composite))]);
    var stored := StoreComposite(painted, composite, name);
    stored.(models := stored.models[name := stored.models[name].(visible := true)])
  }

  /** applyToTShirt does nothing without an active garment or before the fabric layer exists. */
  lemma ApplyGuard(layers: Layers, reg: Registry, text: TextRecord, texture: TextureRecord, logo: LogoRecord, rand: Stream, from: nat)
    requires IsUnitStream(rand)
    requires reg.current.None? || reg.current.value !in reg.models || layers.fabric.None?
    ensures Apply(layers, reg, text, texture, logo, rand, from) == Applied(layers, reg, from, false)
  {
  }

  /** The texture, text and logo layers are rebuilt from the records alone: whatever the
      previous layers held, the result is the same. */
  lemma ApplyRebuilds(l1: Layers, l2: Layers, reg: Registry, text: TextRecord, texture: TextureRecord, logo: LogoRecord,
                      rand: Stream, from: nat)
    requires IsUnitStream(rand)
    requires l1.fabric == l2.fabric && l1.fabric.Some? && reg.current.Some? && reg.current.value in reg.models
    ensures TextureOps(texture, rand, from).Some? ==>
      Apply(l1, reg, text, texture, logo, rand, from) == Apply(l2, reg, text, texture, logo, rand, from)
    ensures var r := Apply(l1, reg, text, texture, logo, rand, from);
      !r.failed ==>
        && r.layers.texture == Some(Layer(TextureOps(texture, rand, from).value))
        && r.layers.text == Some(Layer(TextOps(text))) && r.layers.logo == Some(Layer(LogoOps(logo)))
        && r.layers.composite == Some(Layer(CompositeOps(l1.fabric.value, r.layers.texture.value, r.layers.text.value, r.layers.logo.value)))
  {
  }

  /** After a successful apply the active garment is visible and wears the new composite with
      its stored colour, the composite is stored in its record, its colour record is kept,
      and no other garment or record changes. */
  lemma ApplyEffect(layers: Layers, reg: Registry, text: TextRecord, texture: TextureRecord, logo: LogoRecord, rand: Stream, from: nat)
    requires IsUnitStream(rand) && Consistent(reg)
    requires reg.current.Some? && layers.fabric.Some? && TextureOps(texture, rand, from).Some?
    ensures var r := Apply(layers, reg, text, texture, logo, rand, from);
      var name := reg.current.value;
      var composite := r.layers.composite.value;
      && !r.failed && r.layers.composite.Some? && r.layers.fabric == layers.fabric
      && Consistent(r.reg) && r.reg.current == reg.current
      && r.reg.models[name].visible
      && r.reg.models[name].material == PaintedMaterial(GetCurrentColor(reg, name), composite)
      && GetCompositeCanvas(r.reg, name) == Some(composite)
      && GetCurrentColor(r.reg, name) == GetCurrentColor(reg, name)
      && r.reg.models.Keys == reg.models.Keys
      && (forall other :: other in reg.models && other != name ==> r.reg.models[other] == reg.models[other])
      && (forall other :: other != name ==>
            GetCurrentColor(r.reg, other) == GetCurrentColor(reg, other) && GetCompositeCanvas(r.reg, other) == GetCompositeCanvas(reg, other))
  {
  }

  /** A one-colour gradient throws inside updateTextureLayer: only the texture layer has been
      replaced (by a blank canvas) and the garment is left as it was. */
  lemma ApplyFailure(layers: Layers, reg: Registry, text: TextRecord, texture: TextureRecord, logo: LogoRecord, rand: Stream, from: nat)
    requires IsUnitStream(rand)
    requires reg.current.Some? && reg.current.value in reg.models && layers.fabric.Some?
    requires texture.patternType == "gradient" && |texture.colors| == 1
    ensures Apply(layers, reg, text, texture, logo, rand, from) == Applied(layers.(texture := Some(Layer([]))), reg, from, true)
  {
  }

  /** The material update of applyToTShirt on the garment, then setCompositeCanvas, then
      model.visible = true. */
  method DressGarment(garments: Garments, name: string, composite: Surface)
    requires garments.Valid() && name in garments.models
    modifies garments
    ensures garments.Valid() && garments.Snapshot() == Dress(old(garments.Snapshot()), name, composite)
  {
    var color := GetCurrentColor(garments.Snapshot(), name);
    garments.models := garments.models[name := garments.models[name].(material := PaintedMaterial(color, composite))];
    garments.SetCompositeCanvas(composite, name);
    garments.models := garments.models[name := garments.models[name].(visible := true)];
  }

  function ContentsOf(c: Canvas?): Option<Surface>
    reads c
  {
    if c == null then None else Some(c.Contents())
  }

  /** The body of updateTextLayer on its fresh canvas: the font, colour and centring are set
      once, then one fillText per position. */
  method PaintText(layer: Canvas, t: TextRecord)
    requires layer.ops == [] && layer.CurrentPen() == FreshPen
    modifies layer
    ensures layer.ops == TextOps(t)
  {
    if t.text != "" && |t.positions| > 0 {
      layer.font := Font(TextFontSize(t.fontSize), TextFont);
      layer.fillStyle := Css(t.color);
      layer.textAlign := CenterAlign;
      layer.textBaseline := MiddleBaseline;
      var i := 0;
      while i < |t.positions|
        invariant 0 <= i <= |t.positions|
        invariant layer.ops == seq(i, k requires 0 <= k < i => TextAt(t, t.positions[k]))
        invariant layer.CurrentPen() == FreshPen
        invariant layer.font == Font(TextFontSize(t.fontSize), TextFont) && layer.fillStyle == Css(t.color)
        invariant layer.textAlign == CenterAlign && layer.textBaseline == MiddleBaseline
      {
        layer.FillText(t.text, t.positions[i].x, t.positions[i].y);
        i := i + 1;
      }
    }
  }

  /** The body of updateLogoLayer on its fresh canvas: the image drawn at its corner under
      the stored opacity, then the opacity set back to 1. */
  method PaintLogo(layer: Canvas, l: LogoRecord)
    requires layer.ops == [] && layer.CurrentPen() == FreshPen
    modifies layer
    ensures layer.ops == LogoOps(l) && layer.globalAlpha == 1.0
  {
    if l.image.Some? {
      var x := (if l.position == "front" then FrontLogoX else BackLogoX) + l.xOffset;
      var y := (if l.position == "front" then FrontLogoY else BackLogoY) + l.yOffset;
      layer.SetGlobalAlpha(l.opacity);
      layer.DrawPicture(l.image.value, x, y, l.width, l.height);
      layer.SetGlobalAlpha(1.0);
      assert (x, y) == LogoCorner(l);
    }
  }

  /** The layer canvases held at module level by GUI.js. */
  class Compositor {
    var fabricLayer: Canvas?
    var textureLayer: Canvas?
    var textLayer: Canvas?
    var logoLayer: Canvas?
    var compositeLayer: Canvas?

    function Snapshot(): Layers
      reads this, fabricLayer, textureLayer, textLayer, logoLayer, compositeLayer
    {
      Layers(ContentsOf(fabricLayer), ContentsOf(textureLayer), ContentsOf(textLayer), ContentsOf(logoLayer), ContentsOf(compositeLayer))
    }

    /** Every layer is 1024 by 256; the fabric layer is a canvas of its own whose context is
        back in its initial state between paints. */
    ghost predicate Valid()
      reads this, fabricLayer, textureLayer, textLayer, logoLayer, compositeLayer
    {
      && (fabricLayer != null ==>
            && fabricLayer.width == SurfaceWidth && fabricLayer.height == SurfaceHeight
            && fabricLayer.CurrentPen() == FreshPen
            && fabricLayer != textureLayer && fabricLayer != textLayer
            && fabricLayer != logoLayer && fabricLayer != compositeLayer)
      && (textureLayer != null ==> textureLayer.width == SurfaceWidth && textureLayer.height == SurfaceHeight)
      && (textLayer != null ==> textLayer.width == SurfaceWidth && textLayer.height == SurfaceHeight)
      && (logoLayer != null ==> logoLayer.width == SurfaceWidth && logoLayer.height == SurfaceHeight)
      && (compositeLayer != null ==> compositeLayer.width == SurfaceWidth && compositeLayer.height == SurfaceHeight)
    }

    /** Before setupGUI every layer is null. */
    constructor ()
      ensures Valid() && Snapshot() == Layers(None, None, None, None, None)
    {
      fabricLayer, textureLayer, textLayer, logoLayer, compositeLayer := null, null, null, null, null;
    }

    /** setupGUI creates the fabric layer, blank until the fabric image arrives. */
    method CreateFabricLayer()
      requires Valid()
      modifies this
      ensures Valid() && Snapshot() == old(Snapshot()).(fabric := Some(Layer([])))
    {
      fabricLayer := new Canvas(SurfaceWidth, SurfaceHeight);
    }

    /** The fabric image's load callback: draw it, draw it again multiplied, restore
        source-over, then apply. With no fabric layer it only applies. */
    method FabricLoaded(image: nat, garments: Garments, text: TextState, texture: TextureState, logo: LogoState,
                        rand: Stream, from: nat) returns (next: nat, failed: bool)
      requires Valid() && garments.Valid() && IsUnitStream(rand)
      modifies this, fabricLayer, garments
      ensures Valid() && garments.Valid()
      ensures var painted := if old(fabricLayer) == null then old(Snapshot())
                             else old(Snapshot()).(fabric := Some(Layer(old(fabricLayer.ops) + FabricOps(image))));
        Applied(Snapshot(), garments.Snapshot(), next, failed)
          == Apply(painted, old(garments.Snapshot()), text.Value(), texture.Value(), logo.Value(), rand, from)
    {
      if fabricLayer != null {
        PaintFabric(image);
      }
      next, failed := ApplyToTShirt(garments, text, texture, logo, rand, from);
    }

    /** drawImage(fabric), then drawImage(fabric) again under multiply, then back to source-over. */
    method PaintFabric(image: nat)
      requires Valid() && fabricLayer != null
      modifies fabricLayer
      ensures Valid() && Snapshot() == old(Snapshot()).(fabric := Some(Layer(old(fabricLayer.ops) + FabricOps(image))))
    {
      ghost var s0 := Snapshot();
      fabricLayer.DrawPicture(image, 0.0, 0.0, fabricLayer.width as real, fabricLayer.height as real);
      fabricLayer.compositeOp := Multiply;
      fabricLayer.DrawPicture(image, 0.0, 0.0, fabricLayer.width as real, fabricLayer.height as real);
      fabricLayer.compositeOp := SourceOver;
      assert fabricLayer.ops == old(fabricLayer.ops) + FabricOps(image);
      assert ContentsOf(textureLayer) == s0.texture && ContentsOf(textLayer) == s0.text;
      assert ContentsOf(logoLayer) == s0.logo && ContentsOf(compositeLayer) == s0.composite;
    }

    method UpdateTextureLayer(texture: TextureState, rand: Stream, from: nat) returns (next: nat, ok: bool)
      requires Valid() && IsUnitStream(rand)
      modifies this`textureLayer
      ensures Valid() && textureLayer != null && fresh(textureLayer)
      ensures ok <==> TextureOps(texture.Value(), rand, from).Some?
      ensures Snapshot() == old(Snapshot()).(texture := Some(Layer(if ok then TextureOps(texture.Value(), rand, from).value else [])))
      ensures next == if ok then from + TextureDraws(texture.Value()) else from
    {
      ghost var s0 := Snapshot();
      var layer := new Canvas(SurfaceWidth, SurfaceHeight);
      textureLayer := layer;
      next, ok := from, true;
      if texture.patternType != "" && |texture.colors| > 0 {
        next, ok := ApplyPattern(layer, texture.patternType, texture.colors, layer.width, layer.height, rand, from);
        if !ok {
          next := from;
        }
      }
      assert layer.ops == if ok then TextureOps(texture.Value(), rand, from).value else [];
      assert ContentsOf(fabricLayer) == s0.fabric && ContentsOf(textLayer) == s0.text;
      assert ContentsOf(logoLayer) == s0.logo && ContentsOf(compositeLayer) == s0.composite;
    }

    method UpdateTextLayer(text: TextState)
      requires Valid()
      modifies this`textLayer
      ensures Valid() && textLayer != null && fresh(textLayer)
      ensures Snapshot() == old(Snapshot()).(text := Some(Layer(TextOps(text.Value()))))
    {
      ghost var s0 := Snapshot();
      var layer := new Canvas(SurfaceWidth, SurfaceHeight);
      PaintText(layer, text.Value());
      textLayer := layer;
      assert ContentsOf(fabricLayer) == s0.fabric && ContentsOf(textureLayer) == s0.texture;
      assert ContentsOf(logoLayer) == s0.logo && ContentsOf(compositeLayer) == s0.composite;
    }

    method UpdateLogoLayer(logo: LogoState)
      requires Valid()
      modifies this`logoLayer
      ensures Valid() && logoLayer != null && fresh(logoLayer) && logoLayer.globalAlpha == 1.0
      ensures Snapshot() == old(Snapshot()).(logo := Some(Layer(LogoOps(logo.Value()))))
    {
      ghost var s0 := Snapshot();
      var layer := new Canvas(SurfaceWidth, SurfaceHeight);
      PaintLogo(layer, logo.Value());
      logoLayer := layer;
      assert ContentsOf(fabricLayer) == s0.fabric && ContentsOf(textureLayer) == s0.texture;
      assert ContentsOf(textLayer) == s0.text && ContentsOf(compositeLayer) == s0.composite;
    }

    /** The composite canvas: cleared, then the fabric, texture, text and logo layers drawn
        at (0, 0) in that order, each one that is not null. */
    method BuildComposite()
      requires Valid() && fabricLayer != null
      modifies this`compositeLayer
      ensures Valid() && compositeLayer != null && fresh(compositeLayer)
      ensures var l := old(Snapshot());
        Snapshot() == l.(composite := Some(Layer(
          [ClearOp(0.0, 0.0, SurfaceWidth as real, SurfaceHeight as real), CopyLayer(l.fabric.value)]
          + CopyIfPresent(l.texture) + CopyIfPresent(l.text) + CopyIfPresent(l.logo))))
    {
      ghost var s0 := Snapshot();
      var ctx := new Canvas(SurfaceWidth, SurfaceHeight);
      compositeLayer := ctx;
      ctx.ClearRect(0.0, 0.0, ctx.width as real, ctx.height as real);
      ctx.DrawCanvas(fabricLayer, 0.0, 0.0);
      assert ctx.CurrentPen() == FreshPen;
      ghost var ops := [ClearOp(0.0, 0.0, SurfaceWidth as real, SurfaceHeight as real), CopyLayer(s0.fabric.value)];
      assert ctx.ops == ops;
      if textureLayer != null {
        ctx.DrawCanvas(textureLayer, 0.0, 0.0);
      }
      ops := ops + CopyIfPresent(s0.texture);
      assert ctx.ops == ops;
      if textLayer != null {
        ctx.DrawCanvas(textLayer, 0.0, 0.0);
      }
      ops := ops + CopyIfPresent(s0.text);
      assert ctx.ops == ops;
      if logoLayer != null {
        ctx.DrawCanvas(logoLayer, 0.0, 0.0);
      }
      ops := ops + CopyIfPresent(s0.logo);
      assert ctx.ops == ops;
      assert ContentsOf(fabricLayer) == s0.fabric && ContentsOf(textureLayer) == s0.texture;
      assert ContentsOf(textLayer) == s0.text && ContentsOf(logoLayer) == s0.logo;
    }

    /** The layer half of applyToTShirt, once the garment and the fabric layer exist. */
    method RefreshLayers(text: TextState, texture: TextureState, logo: LogoState, rand: Stream, from: nat)
      returns (next: nat, ok: bool)
      requires Valid() && fabricLayer != null && IsUnitStream(rand)
      modifies this
      ensures Valid() && fabricLayer == old(fabricLayer)
      ensures ok <==> Refresh(old(Snapshot()), text.Value(), texture.Value(), logo.Value(), rand, from).Some?
      ensures ok ==> Snapshot() == Refresh(old(Snapshot()), text.Value(), texture.Value(), logo.Value(), rand, from).value
      ensures !ok ==> Snapshot() == old(Snapshot()).(texture := Some(Layer([])))
      ensures next == if ok then from + TextureDraws(texture.Value()) else from
    {
      ghost var l0 := Snapshot();
      next, ok := UpdateTextureLayer(texture, rand, from);
      if !ok {
        return;
      }
      ghost var textureOps := TextureOps(texture.Value(), rand, from).value;
      UpdateTextLayer(text);
      UpdateLogoLayer(logo);
      assert Snapshot() == l0.(texture := Some(Layer(textureOps)), text := Some(Layer(TextOps(text.Value()))),
                               logo := Some(Layer(LogoOps(logo.Value()))));
      BuildComposite();
      CopiesOfPresent(l0.fabric.value, Layer(textureOps), Layer(TextOps(text.Value())), Layer(LogoOps(logo.Value())));
    }

    method ApplyToTShirt(garments: Garments, text: TextState, texture: TextureState, logo: LogoState,
                         rand: Stream, from: nat) returns (next: nat, failed: bool)
      requires Valid() && garments.Valid() && IsUnitStream(rand)
      modifies this, garments
      ensures Valid() && garments.Valid()
      ensures Applied(Snapshot(), garments.Snapshot(), next, failed)
           == Apply(old(Snapshot()), old(garments.Snapshot()), text.Value(), texture.Value(), logo.Value(), rand, from)
    {
      if garments.currentModelName.None? || garments.currentModelName.value !in garments.models || fabricLayer == null {
        return from, false;
      }
      var name := garments.currentModelName.value;
      var ok;
      next, ok := RefreshLayers(text, texture, logo, rand, from);
      if !ok {
        return next, true;
      }
      DressGarment(garments, name, compositeLayer.Contents());
      failed := false;
    }
  }
}
