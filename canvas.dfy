/** The browser's 2D canvas as the compositor uses it. A surface is the list of
    drawing operations issued on it, in order; what a pixel of it shows is the
    function PixelAt. Rectangles, clears and whole-canvas copies are given a
    pixel meaning; arcs, glyphs, bitmaps and blur filters are rasterised by a
    parameter of type Raster, and paints are kept symbolic, while the alpha of
    source-over and multiply compositing is computed in real arithmetic, with no
    8-bit quantisation of channels or alpha. */
module Canvas2D {
  import opened Three

  /** Every layer canvas the compositor creates is 1024 by 256 pixels. */
  const SurfaceWidth: nat := 1024
  const SurfaceHeight: nat := 256

  /** An integer pixel position: column x, row y. */
  datatype Point = Point(x: int, y: int)

  datatype ColorStop = ColorStop(offset: real, color: Color)

  /** A fill style: a CSS colour string, the style string of a THREE.Color, or a linear gradient. */
  datatype Style =
    | Css(css: string)
    | ColorStyle(color: Color)
    | LinearGradient(x0: real, y0: real, x1: real, y1: real, stops: seq<ColorStop>)

  datatype Filter = NoFilter | Blur(px: real)

  /** The globalCompositeOperation values the source uses. */
  datatype Mode = SourceOver | Multiply

  datatype Align = StartAlign | CenterAlign
  datatype Baseline = AlphabeticBaseline | MiddleBaseline
  datatype Font = Font(sizePx: real, family: string)

  /** A full circle, as ctx.arc(cx, cy, r, 0, 2 * PI) adds to the current path. */
  datatype Circle = Circle(cx: real, cy: real, r: real)

  datatype Shape =
    | Rect(x: real, y: real, w: real, h: real, style: Style)
    | Path(circles: seq<Circle>, style: Style)
    | Text(text: string, x: real, y: real, font: Font, style: Style, align: Align, baseline: Baseline)
    | Image(source: Source, x: real, y: real, w: real, h: real)

  /** What drawImage copies from: a loaded bitmap, or another canvas as it was at that moment. */
  datatype Source = Picture(id: nat) | CanvasCopy(surface: Surface)

  /** One drawing call, with the context state (globalAlpha, composite mode, filter) it ran under. */
  datatype Op =
    | ClearOp(x: real, y: real, w: real, h: real)
    | DrawOp(shape: Shape, alpha: real, mode: Mode, filter: Filter)

  datatype Surface = Surface(width: nat, height: nat, ops: seq<Op>)

  /** The part of a context's state that every drawing call records. */
  datatype Pen = Pen(alpha: real, mode: Mode, filter: Filter)

  /** The state of a freshly created context. */
  const FreshPen := Pen(1.0, SourceOver, NoFilter)

  function Draw(shape: Shape, pen: Pen): Op
  {
    DrawOp(shape, pen.alpha, pen.mode, pen.filter)
  }

  /** A freshly created canvas: nothing drawn, every pixel transparent. */
  function Blank(w: nat, h: nat): Surface
  {
    Surface(w, h, [])
  }

  /** Colours are symbolic; only their alpha is computed. */
  datatype Paint =
    | StyleAt(style: Style, at: Point)
    | Rasterised(shape: Shape, filter: Filter, at: Point)
    | Mixed(mode: Mode, top: Paint, topAlpha: real, bottom: Paint, bottomAlpha: real)

  datatype Pixel = Transparent | Ink(paint: Paint, alpha: real)

  /** What a rasteriser puts at a pixel for a shape it draws (before globalAlpha and compositing). */
  type Raster = (Shape, Filter, Point) -> Pixel

  function AlphaOf(px: Pixel): real
  {
    if px.Ink? then px.alpha else 0.0
  }

  predicate Opaque(px: Pixel)
  {
    px.Ink? && px.alpha == 1.0
  }

  /** Compositing a source pixel onto a destination pixel under a composite mode. */
  function Composite(mode: Mode, top: Pixel, bottom: Pixel): (r: Pixel)
    ensures AlphaOf(r) == AlphaOf(top) + AlphaOf(bottom) * (1.0 - AlphaOf(top))
    ensures top == Transparent ==> r == bottom
    ensures bottom == Transparent ==> r == top
    ensures mode == SourceOver && Opaque(top) ==> r == top
  {
    if top.Transparent? then bottom
    else if bottom.Transparent? then top
    else if mode == SourceOver && top.alpha == 1.0 then top
    else Ink(Mixed(mode, top.paint, top.alpha, bottom.paint, bottom.alpha),
             top.alpha + bottom.alpha * (1.0 - top.alpha))
  }

  /** A source pixel drawn under globalAlpha g. */
  function Fade(px: Pixel, g: real): (r: Pixel)
    requires 0.0 <= g <= 1.0
    ensures AlphaOf(r) == AlphaOf(px) * g
    ensures g == 1.0 ==> r == px
  {
    if px.Transparent? || g == 0.0 then Transparent else Ink(px.paint, px.alpha * g)
  }

  /** True when the centre of pixel p lies inside the rectangle. */
  predicate Covers(x: real, y: real, w: real, h: real, p: Point)
  {
    x <= p.x as real + 0.5 < x + w && y <= p.y as real + 0.5 < y + h
  }

  predicate InBounds(s: Surface, p: Point)
  {
    0 <= p.x < s.width && 0 <= p.y < s.height
  }

  /** The pixel at p after the first n operations of s. */
  function Pix(raster: Raster, s: Surface, n: nat, p: Point): Pixel
    requires n <= |s.ops|
    decreases s, n
  {
    if n == 0 then Transparent
    else
      var below := Pix(raster, s, n - 1, p);
      match s.ops[n - 1]
      case ClearOp(x, y, w, h) => if Covers(x, y, w, h, p) then Transparent else below
      case DrawOp(shape, alpha, mode, filter) =>
        var src :=
          match shape
          case Rect(x, y, w, h, style) =>
            if filter != NoFilter then raster(shape, filter, p)
            else if Covers(x, y, w, h, p) then Ink(StyleAt(style, p), 1.0)
            else Transparent
          case Image(CanvasCopy(inner), x, y, w, h) =>
            assert s.ops[n - 1] in s.ops;
            if filter == NoFilter && x == 0.0 && y == 0.0 && w == inner.width as real && h == inner.height as real
            then (if InBounds(inner, p) then Pix(raster, inner, |inner.ops|, p) else Transparent)
            else raster(shape, filter, p)
          case _ => raster(shape, filter, p);
        Composite(mode, Fade(src, if 0.0 <= alpha <= 1.0 then alpha else 1.0), below)
  }

  /** The pixel a surface shows at p; outside the canvas nothing is drawn. */
  function PixelAt(raster: Raster, s: Surface, p: Point): Pixel
  {
    if InBounds(s, p) then Pix(raster, s, |s.ops|, p) else Transparent
  }

  /** Drawing a whole same-sized canvas at (0, 0) at full alpha, as drawImage(layer, 0, 0) does. */
  function CopyLayer(layer: Surface): Op
  {
    DrawOp(Image(CanvasCopy(layer), 0.0, 0.0, layer.width as real, layer.height as real), 1.0, SourceOver, NoFilter)
  }

  /** Operations appended later do not change what the earlier ones painted. */
  lemma {:induction false} PixPrefix(raster: Raster, w: nat, h: nat, ops: seq<Op>, more: seq<Op>, n: nat, p: Point)
    requires n <= |ops|
    ensures Pix(raster, Surface(w, h, ops + more), n, p) == Pix(raster, Surface(w, h, ops), n, p)
  {
    if n > 0 {
      PixPrefix(raster, w, h, ops, more, n - 1, p);
      assert (ops + more)[n - 1] == ops[n - 1];
    }
  }

  /** Copying a same-sized layer at (0, 0) paints it over what was there by source-over. */
  lemma CopyLayerPixel(raster: Raster, base: Surface, layer: Surface, p: Point)
    requires layer.width == base.width && layer.height == base.height
    ensures PixelAt(raster, Surface(base.width, base.height, base.ops + [CopyLayer(layer)]), p)
         == Composite(SourceOver, PixelAt(raster, layer, p), PixelAt(raster, base, p))
  {
    var s := Surface(base.width, base.height, base.ops + [CopyLayer(layer)]);
    if InBounds(s, p) {
      PixPrefix(raster, base.width, base.height, base.ops, [CopyLayer(layer)], |base.ops|, p);
      assert s.ops[|s.ops| - 1] == CopyLayer(layer);
    }
  }

  /** A 2D context together with its canvas: the drawing state the source sets, and the
      operations drawn so far. */
  class Canvas {
    const width: nat
    const height: nat
    var ops: seq<Op>
    var globalAlpha: real
    var compositeOp: Mode
    var fillStyle: Style
    var filter: Filter
    var font: Font
    var textAlign: Align
    var textBaseline: Baseline
    var path: seq<Circle>

    /** The context never holds a globalAlpha outside [0, 1]. */
    ghost predicate Valid()
      reads this
    {
      0.0 <= globalAlpha <= 1.0
    }

    function CurrentPen(): Pen
      reads this
    {
      Pen(globalAlpha, compositeOp, filter)
    }

    /** What has been drawn, as a value. */
    function Contents(): Surface
      reads this
    {
      Surface(width, height, ops)
    }

    /** document.createElement("canvas") sized w by h, and its fresh 2D context. */
    constructor (w: nat, h: nat)
      ensures Valid() && width == w && height == h && ops == [] && path == []
      ensures globalAlpha == 1.0 && compositeOp == SourceOver && filter == NoFilter
      ensures fillStyle == Css("#000000") && font == Font(10.0, "sans-serif")
      ensures textAlign == StartAlign && textBaseline == AlphabeticBaseline
    {
      width, height := w, h;
      ops, path := [], [];
      globalAlpha, compositeOp, filter := 1.0, SourceOver, NoFilter;
      fillStyle, font := Css("#000000"), Font(10.0, "sans-serif");
      textAlign, textBaseline := StartAlign, AlphabeticBaseline;
    }

    /** Assigning ctx.globalAlpha: a value outside [0, 1] is ignored. */
    method SetGlobalAlpha(a: real)
      modifies this`globalAlpha
      ensures globalAlpha == if 0.0 <= a <= 1.0 then a else old(globalAlpha)
      ensures old(Valid()) ==> Valid()
    {
      if 0.0 <= a <= 1.0 {
        globalAlpha := a;
      }
    }

    method ClearRect(x: real, y: real, w: real, h: real)
      modifies this`ops
      ensures ops == old(ops) + [ClearOp(x, y, w, h)]
    {
      ops := ops + [ClearOp(x, y, w, h)];
    }

    method FillRect(x: real, y: real, w: real, h: real)
      modifies this`ops
      ensures ops == old(ops) + [DrawOp(Rect(x, y, w, h, fillStyle), globalAlpha, compositeOp, filter)]
    {
      ops := ops + [DrawOp(Rect(x, y, w, h, fillStyle), globalAlpha, compositeOp, filter)];
    }

    method BeginPath()
      modifies this`path
      ensures path == []
    {
      path := [];
    }

    /** ctx.arc(cx, cy, r, 0, 2 * PI): a full circle added to the current path. */
    method Arc(cx: real, cy: real, r: real)
      modifies this`path
      ensures path == old(path) + [Circle(cx, cy, r)]
    {
      path := path + [Circle(cx, cy, r)];
    }

    /** ctx.fill(): fills the current path, which stays current. */
    method Fill()
      modifies this`ops
      ensures ops == old(ops) + [DrawOp(Path(path, fillStyle), globalAlpha, compositeOp, filter)]
    {
      ops := ops + [DrawOp(Path(path, fillStyle), globalAlpha, compositeOp, filter)];
    }

    method FillText(text: string, x: real, y: real)
      modifies this`ops
      ensures ops == old(ops) + [DrawOp(Text(text, x, y, font, fillStyle, textAlign, textBaseline), globalAlpha, compositeOp, filter)]
    {
      ops := ops + [DrawOp(Text(text, x, y, font, fillStyle, textAlign, textBaseline), globalAlpha, compositeOp, filter)];
    }

    /** ctx.drawImage(picture, x, y, w, h). */
    method DrawPicture(id: nat, x: real, y: real, w: real, h: real)
      modifies this`ops
      ensures ops == old(ops) + [DrawOp(Image(Picture(id), x, y, w, h), globalAlpha, compositeOp, filter)]
    {
      ops := ops + [DrawOp(Image(Picture(id), x, y, w, h), globalAlpha, compositeOp, filter)];
    }

    /** ctx.drawImage(other, x, y): a copy of the other canvas at its own size. */
    method DrawCanvas(other: Canvas, x: real, y: real)
      modifies this`ops
      ensures ops == old(ops) + [DrawOp(Image(CanvasCopy(old(other.Contents())), x, y, other.width as real, other.height as real),
                                        globalAlpha, compositeOp, filter)]
    {
      ops := ops + [DrawOp(Image(CanvasCopy(other.Contents()), x, y, other.width as real, other.height as real),
                           globalAlpha, compositeOp, filter)];
    }
  }
}
