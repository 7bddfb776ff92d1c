/**
 * The canvas rasterizer: `checkCanvasDimensions` and `imageToCanvas`
 * (src/util.ts lines 221-279).
 *
 * A canvas's `width` and `height` are `unsigned long` attributes: a number
 * assigned to one is converted by Web IDL (integer part, modulo 2^32) and
 * then, by HTML's rule for reflected unsigned long attributes, replaced by
 * the default (300 wide, 150 high) when it exceeds 2147483647. Drawing
 * calls are recorded in order instead of producing pixels.
 */
module Canvas {
  import opened Wrappers
  import opened Js
  import opened Options
  import opened Geometry

  /** The largest device dimension `checkCanvasDimensions` allows. */
  const Limit: nat := 16384

  /** The largest value a reflected unsigned long attribute keeps. */
  const MaxReflected: nat := 2147483647

  const DefaultWidth: nat := 300
  const DefaultHeight: nat := 150

  /** The integer part of a number, truncating toward zero. */
  function IntegerPart(x: real): (n: int)
    ensures 0.0 <= x ==> n == x.Floor
    ensures x < 0.0 ==> n <= 0 && x <= n as real < x + 1.0
  {
    if x >= 0.0 then x.Floor else -((-x).Floor)
  }

  /** What an attribute assignment `canvas.width = x` stores. */
  function StoreDimension(x: real, default: nat): (n: nat)
    requires default <= MaxReflected
    ensures n <= MaxReflected
    ensures 0.0 <= x < (MaxReflected + 1) as real ==> n == x.Floor
    ensures (MaxReflected + 1) as real <= x < 0x1_0000_0000 as real ==> n == default
    ensures -((MaxReflected + 1) as real) <= x <= -1.0 ==> n == default
  {
    var u := IntegerPart(x) % 0x1_0000_0000;
    if u <= MaxReflected then u else default
  }

  /** `other * (limit / dominant)`, truncated: the other axis scaled by the dominant axis's factor. */
  function Scaled(other: nat, dominant: nat): nat
    requires dominant > 0
  {
    other * Limit / dominant
  }

  /** Scaling by `Limit / dominant` around an axis no larger than the dominant one stays within the limit. */
  lemma ScaledWithin(other: nat, dominant: nat)
    requires 0 < dominant && other <= dominant
    ensures Scaled(other, dominant) <= Limit
  {
    var q := other * Limit / dominant;
    assert q * dominant <= other * Limit;
    assert other * Limit <= dominant * Limit;
  }

  /** Scaling down never grows an axis. */
  lemma ScaledShrinks(other: nat, dominant: nat)
    requires Limit < dominant
    ensures Scaled(other, dominant) <= other
  {
    var q := other * Limit / dominant;
    assert q * dominant <= other * Limit;
    assert other * Limit <= other * dominant;
  }

  /** The width is the axis scaled to the limit (a tie goes to the height). */
  predicate WidthDominates(width: nat, height: nat) {
    width > Limit && (height <= Limit || width > height)
  }

  predicate HeightDominates(width: nat, height: nat) {
    height > Limit && !WidthDominates(width, height)
  }

  /**
   * The size `checkCanvasDimensions` leaves: within the limit nothing
   * changes; otherwise the dominant axis becomes the limit and the other
   * is scaled by the same factor and truncated.
   */
  function ClampDimensions(width: nat, height: nat): (r: (nat, nat))
    ensures r.0 <= Limit && r.1 <= Limit
    ensures r.0 <= width && r.1 <= height
    ensures r == (width, height) <==> width <= Limit && height <= Limit
  {
    if width > Limit || height > Limit then
      if width > Limit && height > Limit then
        if width > height then
          ScaledWithin(height, width); ScaledShrinks(height, width);
          (Limit, Scaled(height, width))
        else
          ScaledWithin(width, height); ScaledShrinks(width, height);
          (Scaled(width, height), Limit)
      else if width > Limit then
        ScaledWithin(height, width); ScaledShrinks(height, width);
        (Limit, Scaled(height, width))
      else
        ScaledWithin(width, height); ScaledShrinks(width, height);
        (Scaled(width, height), Limit)
    else
      (width, height)
  }

  /**
   * The dominant axis ends exactly at the limit, and the other keeps the
   * aspect ratio up to truncation: new/old lies in (factor - 1/old, factor].
   */
  lemma ClampKeepsAspect(width: nat, height: nat)
    ensures WidthDominates(width, height) ==>
      var r := ClampDimensions(width, height);
      r.0 == Limit && r.1 * width <= height * Limit < (r.1 + 1) * width
    ensures HeightDominates(width, height) ==>
      var r := ClampDimensions(width, height);
      r.1 == Limit && r.0 * height <= width * Limit < (r.0 + 1) * height
  {
    if WidthDominates(width, height) {
      var q := height * Limit / width;
      assert ClampDimensions(width, height) == (Limit, q);
      assert q * width + (height * Limit) % width == height * Limit;
    } else if HeightDominates(width, height) {
      var q := width * Limit / height;
      assert ClampDimensions(width, height) == (q, Limit);
      assert q * height + (width * Limit) % height == width * Limit;
    }
  }

  /** Clamping twice is clamping once. */
  lemma ClampIdempotent(width: nat, height: nat)
    ensures ClampDimensions(ClampDimensions(width, height).0, ClampDimensions(width, height).1)
         == ClampDimensions(width, height)
  {
  }

  /** A 20000 x 10000 surface becomes 16384 x 8192. */
  lemma ClampExample()
    ensures ClampDimensions(20000, 10000) == (16384, 8192)
    ensures ClampDimensions(10000, 20000) == (8192, 16384)
    ensures ClampDimensions(20000, 20000) == (16384, 16384)
  {
    assert WidthDominates(20000, 10000);
    ClampKeepsAspect(20000, 10000);
    ClampKeepsAspect(10000, 20000);
    ClampKeepsAspect(20000, 20000);
  }

  /** The materialized image drawn into the canvas; only its identity matters here. */
  datatype Image = Image(source: string)

  /** A recorded 2D-context call. */
  datatype DrawOp =
    | Fill(color: string, x: int, y: int, w: int, h: int)
    | Draw(image: Image, x: int, y: int, w: int, h: int)

  /** The observable state of a canvas: device size, CSS size and drawing log. */
  datatype Surface = Surface(
    width: nat,
    height: nat,
    styleWidth: Option<real>,
    styleHeight: Option<real>,
    ops: seq<DrawOp>)

  class Canvas {
    var width: nat
    var height: nat
    var styleWidth: Option<real>
    var styleHeight: Option<real>
    var ops: seq<DrawOp>

    ghost predicate Valid()
      reads this
    {
      width <= MaxReflected && height <= MaxReflected
    }

    function State(): Surface
      reads this
    {
      Surface(width, height, styleWidth, styleHeight, ops)
    }

    /** `document.createElement('canvas')`: 300 x 150, no style size, nothing drawn. */
    constructor ()
      ensures Valid()
      ensures State() == Surface(DefaultWidth, DefaultHeight, None, None, [])
    {
      width, height := DefaultWidth, DefaultHeight;
      styleWidth, styleHeight := None, None;
      ops := [];
    }

    /** `context.fillStyle = color; context.fillRect(x, y, w, h)`. */
    method FillRect(color: string, x: int, y: int, w: int, h: int)
      requires Valid()
      modifies this
      ensures Valid()
      ensures State() == old(State()).(ops := old(ops) + [Fill(color, x, y, w, h)])
    {
      ops := ops + [Fill(color, x, y, w, h)];
    }

    /** `context.drawImage(image, x, y, w, h)`. */
    method DrawImage(image: Image, x: int, y: int, w: int, h: int)
      requires Valid()
      modifies this
      ensures Valid()
      ensures State() == old(State()).(ops := old(ops) + [Draw(image, x, y, w, h)])
    {
      ops := ops + [Draw(image, x, y, w, h)];
    }
  }

  /** `checkCanvasDimensions`: clamps the canvas's device size in place. */
  method CheckCanvasDimensions(canvas: Canvas)
    requires canvas.Valid()
    modifies canvas
    ensures canvas.Valid()
    ensures (canvas.width, canvas.height) == ClampDimensions(old(canvas.width), old(canvas.height))
    ensures canvas.styleWidth == old(canvas.styleWidth) && canvas.styleHeight == old(canvas.styleHeight)
    ensures canvas.ops == old(canvas.ops)
  {
    ghost var clamped := ClampDimensions(canvas.width, canvas.height);
    if canvas.width > Limit || canvas.height > Limit {
      if canvas.width > Limit && canvas.height > Limit {
        if canvas.width > canvas.height {
          canvas.height := Scaled(canvas.height, canvas.width);
          canvas.width := Limit;
        } else {
          canvas.width := Scaled(canvas.width, canvas.height);
          canvas.height := Limit;
        }
      } else if canvas.width > Limit {
        canvas.height := Scaled(canvas.height, canvas.width);
        canvas.width := Limit;
      } else {
        canvas.width := Scaled(canvas.width, canvas.height);
        canvas.height := Limit;
      }
    }
    assert (canvas.width, canvas.height) == clamped;
  }

  /** The device pixel ratio `imageToCanvas` uses: `options.pixelRatio || getPixelRatio()`. */
  function CanvasRatio(options: ConversionOptions, env: Option<string>, windowRatio: Option<real>): (r: real)
    ensures r != 0.0
    ensures NumberTruthy(options.pixelRatio) ==> r == options.pixelRatio.value
    ensures !NumberTruthy(options.pixelRatio) ==> r == PixelRatio(env, windowRatio)
  {
    OrNumber(options.pixelRatio, PixelRatio(env, windowRatio))
  }

  /**
   * The logical (CSS) size: `options.canvasWidth || width`,
   * `options.canvasHeight || height`, where width and height are
   * `getImageSize`'s. A truthy canvas size wins over the image size.
   */
  function LogicalSize(node: NodeMetrics, options: ConversionOptions): (d: Dimensions)
    ensures NumberTruthy(options.canvasWidth) ==> d.width == options.canvasWidth.value
    ensures !NumberTruthy(options.canvasWidth) ==> d.width == ImageSize(node, options).width
    ensures NumberTruthy(options.canvasHeight) ==> d.height == options.canvasHeight.value
    ensures !NumberTruthy(options.canvasHeight) ==> d.height == ImageSize(node, options).height
  {
    var size := ImageSize(node, options);
    Dimensions(OrNumber(options.canvasWidth, size.width), OrNumber(options.canvasHeight, size.height))
  }

  /**
   * The canvas `imageToCanvas` returns. The device size is the logical
   * size times the ratio as the attributes store it, clamped unless
   * `skipAutoScale`; the CSS size is the logical size; the log is an
   * optional full-canvas fill followed by one full-canvas draw.
   */
  function Rasterize(node: NodeMetrics, image: Image, options: ConversionOptions,
                     env: Option<string>, windowRatio: Option<real>): (s: Surface)
    ensures !BoolTruthy(options.skipAutoScale) ==> s.width <= Limit && s.height <= Limit
    ensures s.styleWidth == Some(LogicalSize(node, options).width)
    ensures s.styleHeight == Some(LogicalSize(node, options).height)
    ensures |s.ops| == if StringTruthy(options.backgroundColor) then 2 else 1
    ensures s.ops[|s.ops| - 1] == Draw(image, 0, 0, s.width, s.height)
    ensures StringTruthy(options.backgroundColor) ==>
      s.ops[0] == Fill(options.backgroundColor.value, 0, 0, s.width, s.height)
  {
    var logical := LogicalSize(node, options);
    var device := DeviceSize(logical, CanvasRatio(options, env, windowRatio));
    var size := if BoolTruthy(options.skipAutoScale) then device else ClampDimensions(device.0, device.1);
    var fill := if StringTruthy(options.backgroundColor)
      then [Fill(options.backgroundColor.value, 0, 0, size.0, size.1)] else [];
    Surface(size.0, size.1, Some(logical.width), Some(logical.height),
            fill + [Draw(image, 0, 0, size.0, size.1)])
  }

  /** The device size before clamping: logical size times ratio, as the attributes store it. */
  function DeviceSize(logical: Dimensions, ratio: real): (d: (nat, nat))
    ensures d.0 <= MaxReflected && d.1 <= MaxReflected
    ensures 0.0 <= logical.width * ratio < (MaxReflected + 1) as real ==> d.0 == (logical.width * ratio).Floor
    ensures 0.0 <= logical.height * ratio < (MaxReflected + 1) as real ==> d.1 == (logical.height * ratio).Floor
  {
    (StoreDimension(logical.width * ratio, DefaultWidth), StoreDimension(logical.height * ratio, DefaultHeight))
  }

  /**
   * With `skipAutoScale` the device size is left as stored; without it,
   * it is clamped, which changes nothing when it is within the limit.
   */
  lemma RasterizeDeviceSize(node: NodeMetrics, image: Image, options: ConversionOptions,
                            env: Option<string>, windowRatio: Option<real>)
    ensures var s := Rasterize(node, image, options, env, windowRatio);
      var d := DeviceSize(LogicalSize(node, options), CanvasRatio(options, env, windowRatio));
      (s.width, s.height) == (if BoolTruthy(options.skipAutoScale) then d else ClampDimensions(d.0, d.1))
    ensures var s := Rasterize(node, image, options, env, windowRatio);
      var d := DeviceSize(LogicalSize(node, options), CanvasRatio(options, env, windowRatio));
      d.0 <= Limit && d.1 <= Limit ==> (s.width, s.height) == d
  {
  }

  /** A 100 x 50 node at `pixelRatio: 2` has device size 200 x 100 and CSS size 100 x 50. */
  lemma RasterizeExample(image: Image, env: Option<string>, windowRatio: Option<real>)
    ensures var options := NoOptions.(pixelRatio := Some(2.0));
      Rasterize(NodeMetrics(100, 50, 0.0, 0.0, 0.0, 0.0), image, options, env, windowRatio)
      == Surface(200, 100, Some(100.0), Some(50.0), [Draw(image, 0, 0, 200, 100)])
  {
    var options := NoOptions.(pixelRatio := Some(2.0));
    var node := NodeMetrics(100, 50, 0.0, 0.0, 0.0, 0.0);
    assert LogicalSize(node, options) == Dimensions(100.0, 50.0);
    assert CanvasRatio(options, env, windowRatio) == 2.0;
    assert StoreDimension(200.0, DefaultWidth) == 200;
    assert StoreDimension(100.0, DefaultHeight) == 100;
  }

  /**
   * A negative env ratio is kept by `getPixelRatio`, the negative device
   * size wraps modulo 2^32 past the attribute's range, and the canvas
   * keeps its 300 x 150 default.
   */
  lemma RasterizeNegativeRatio(image: Image, windowRatio: Option<real>)
    ensures Rasterize(NodeMetrics(100, 50, 0.0, 0.0, 0.0, 0.0), image, NoOptions, Some("-2"), windowRatio)
      == Surface(DefaultWidth, DefaultHeight, Some(100.0), Some(50.0), [Draw(image, 0, 0, DefaultWidth, DefaultHeight)])
  {
    var node := NodeMetrics(100, 50, 0.0, 0.0, 0.0, 0.0);
    assert LogicalSize(node, NoOptions) == Dimensions(100.0, 50.0);
    MinusTwoRatio(windowRatio);
    NegativeDeviceSize();
    assert ClampDimensions(DefaultWidth, DefaultHeight) == (DefaultWidth, DefaultHeight);
  }

  /** The env text `"-2"` is read as the ratio -2. */
  lemma MinusTwoRatio(windowRatio: Option<real>)
    ensures CanvasRatio(NoOptions, Some("-2"), windowRatio) == -2.0
  {
    assert IntegerText(-2) == "-2";
    PixelRatioFromEnv(-2, windowRatio);
  }

  /** A 100 x 50 logical size at ratio -2 stores the default size in both attributes. */
  lemma NegativeDeviceSize()
    ensures DeviceSize(Dimensions(100.0, 50.0), -2.0) == (DefaultWidth, DefaultHeight)
  {
    assert IntegerPart(-200.0) == -200;
    assert IntegerPart(-100.0) == -100;
  }

  /**
   * `imageToCanvas`: a fresh canvas, sized, clamped unless
   * `skipAutoScale`, styled to the logical size, filled when a background
   * color is given and drawn.
   */
  method ImageToCanvas(node: NodeMetrics, image: Image, options: ConversionOptions,
                       env: Option<string>, windowRatio: Option<real>) returns (canvas: Canvas)
    ensures fresh(canvas) && canvas.Valid()
    ensures canvas.State() == Rasterize(node, image, options, env, windowRatio)
  {
    ghost var expected := Rasterize(node, image, options, env, windowRatio);
    canvas := new Canvas();
    var ratio: real;
    if NumberTruthy(options.pixelRatio) {
      ratio := options.pixelRatio.value;
    } else {
      ratio := GetPixelRatio(env, windowRatio);
    }
    var size := ImageSize(node, options);
    var canvasWidth := OrNumber(options.canvasWidth, size.width);
    var canvasHeight := OrNumber(options.canvasHeight, size.height);
    assert ratio == CanvasRatio(options, env, windowRatio);
    assert Dimensions(canvasWidth, canvasHeight) == LogicalSize(node, options);

    // canvas.width = canvasWidth * ratio; canvas.height = canvasHeight * ratio
    var device := DeviceSize(Dimensions(canvasWidth, canvasHeight), ratio);
    canvas.width, canvas.height := device.0, device.1;

    if !BoolTruthy(options.skipAutoScale) {
      CheckCanvasDimensions(canvas);
    }
    RasterizeDeviceSize(node, image, options, env, windowRatio);
    assert canvas.width == expected.width && canvas.height == expected.height;
    canvas.styleWidth := Some(canvasWidth);
    canvas.styleHeight := Some(canvasHeight);
    assert canvas.ops == [];

    if StringTruthy(options.backgroundColor) {
      canvas.FillRect(options.backgroundColor.value, 0, 0, canvas.width, canvas.height);
    }
    canvas.DrawImage(image, 0, 0, canvas.width, canvas.height);
  }
}
