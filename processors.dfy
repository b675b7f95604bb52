/**
 * The image processors: anchor crop, edge crop, flip, resize, rotate and rotate-crop.
 *
 * Each processor is given twice: as a function from an image and the caller's
 * options to the result (the meaning of one call through `as_callable`), and as
 * a class whose `Prep` stores the merged options and the input size on the
 * instance, as `BaseProcessor.prep` does, and whose `Call` runs
 * prep, pre, process and post and is proved to compute that function.
 */
module Processors {
  import opened Results
  import opened Numerics
  import opened Images

  function Min(a: int, b: int): int { if a <= b then a else b }

  // ------------------------------------------------------------------
  // Anchor crop (AnchorCropProcessorMixin.get_crop_box)
  // ------------------------------------------------------------------

  /** The anchors that mean "crop around the centre". */
  predicate IsCenterAnchor(anchor: string) {
    anchor == "center" || anchor == "crop" || anchor == "fill"
  }

  predicate SupportedAnchor(anchor: string) {
    IsCenterAnchor(anchor) || anchor == "top" || anchor == "left" || anchor == "right" || anchor == "bottom"
  }

  /** `int(center - length * 0.5)` with `center = int(extent * 0.5)`. */
  function Centered(extent: nat, length: int): int {
    Trunc((extent / 2) as real - length as real / 2.0)
  }

  /** A box with corner `(x1, y1)` whose far corner is the corner plus the size. */
  function BoxAt(x1: int, y1: int, width: int, height: int): Box {
    Box(x1, y1, x1 + width, y1 + height)
  }

  /**
   * The box of the requested size, clamped to the image, placed at `anchor`.
   * The far corner is the near corner plus the clamped size, so the box has
   * exactly the clamped size, whatever the truncation did to the corner.
   */
  function AnchorCropBox(size: Size, width: int, height: int, anchor: string): (r: Result<Box>)
    ensures r.Ok? <==> SupportedAnchor(anchor)
    ensures r.Err? ==> r.error == UnsupportedAnchor(anchor)
    ensures r.Ok? ==> r.value.Width() == Min(width, size.width) && r.value.Height() == Min(height, size.height)
    ensures r.Ok? && anchor == "top" ==> r.value.y1 == 0
    ensures r.Ok? && anchor == "left" ==> r.value.x1 == 0
    ensures r.Ok? && anchor == "right" ==> r.value.x2 == size.width
    ensures r.Ok? && anchor == "bottom" ==> r.value.y2 == size.height
    ensures r.Ok? && anchor != "left" && anchor != "right" ==> r.value.x1 == Centered(size.width, Min(width, size.width))
    ensures r.Ok? && anchor != "top" && anchor != "bottom" ==> r.value.y1 == Centered(size.height, Min(height, size.height))
  {
    var width := if width > size.width then size.width else width;
    var height := if height > size.height then size.height else height;
    if IsCenterAnchor(anchor) then
      Ok(BoxAt(Centered(size.width, width), Centered(size.height, height), width, height))
    else if anchor == "top" then
      Ok(BoxAt(Centered(size.width, width), 0, width, height))
    else if anchor == "left" then
      Ok(BoxAt(0, Centered(size.height, height), width, height))
    else if anchor == "right" then
      Ok(BoxAt(size.width - width, Centered(size.height, height), width, height))
    else if anchor == "bottom" then
      Ok(BoxAt(Centered(size.width, width), size.height - height, width, height))
    else
      Err(UnsupportedAnchor(anchor))
  }

  /**
   * A centred run of `length` pixels starts inside the extent, ends inside it, and
   * leaves at most two more pixels after it than before it.
   */
  lemma CenteredBounds(extent: nat, length: int)
    requires 0 <= length <= extent
    ensures 0 <= Centered(extent, length) <= extent - length
    ensures 0 <= (extent - length - Centered(extent, length)) - Centered(extent, length) <= 2
  {
    var c := extent / 2;
    var v := c as real - length as real / 2.0;
    assert 2 * c <= extent <= 2 * c + 1;
    assert v >= -0.5;
    TruncNonNegative(v);
    var x := Trunc(v);
    if v < 0.0 {
      assert x == 0;
      assert length == extent;
    } else {
      var k := length / 2;
      assert length == 2 * k || length == 2 * k + 1;
      if length == 2 * k {
        assert v == (c - k) as real;
        assert x == c - k;
      } else {
        assert v == (c - k - 1) as real + 0.5;
        assert x == c - k - 1;
      }
    }
  }

  /**
   * The exact centred corner: half the extent, rounded down, less half the length, rounded
   * up, and 0 when that would be negative (a run as long as an odd extent).
   */
  lemma CenteredCorner(extent: nat, length: int)
    requires 0 <= length <= extent
    ensures Centered(extent, length) == if extent / 2 >= (length + 1) / 2 then extent / 2 - (length + 1) / 2 else 0
  {
    var c := extent / 2;
    var v := c as real - length as real / 2.0;
    var k := length / 2;
    assert length == 2 * k || length == 2 * k + 1;
    if length == 2 * k {
      assert v == (c - k) as real;
      assert (length + 1) / 2 == k;
      TruncOfInt(c - k);
    } else {
      assert v == (c - k - 1) as real + 0.5;
      assert (length + 1) / 2 == k + 1;
      if c - k - 1 < 0 {
        assert 2 * c <= extent <= 2 * c + 1;
        assert v == -0.5;
        TruncNonNegative(v);
      }
    }
  }

  /** A 3x3 centre crop of a 5x5 image starts at the corner: `int(2 - 1.5)` is 0. */
  lemma CenterCropExample()
    ensures AnchorCropBox(Size(5, 5), 3, 3, "center") == Ok(Box(0, 0, 3, 3))
  {
    CenteredCorner(5, 3);
  }

  /** The three centre anchors give the same box. */
  lemma CenterAnchorsAgree(size: Size, width: int, height: int, anchor: string)
    requires IsCenterAnchor(anchor)
    ensures AnchorCropBox(size, width, height, anchor) == AnchorCropBox(size, width, height, "center")
  {
  }

  /** For a supported anchor and non-negative sizes the box lies inside the image. */
  lemma AnchorCropBoxInside(size: Size, width: int, height: int, anchor: string)
    requires SupportedAnchor(anchor) && width >= 0 && height >= 0
    ensures AnchorCropBox(size, width, height, anchor).Ok?
    ensures AnchorCropBox(size, width, height, anchor).value.Inside(size)
  {
    CenteredBounds(size.width, Min(width, size.width));
    CenteredBounds(size.height, Min(height, size.height));
  }

  /** Centring leaves 0, 1 or 2 more pixels to the right (below) than to the left (above). */
  lemma CenterAnchorMargins(size: Size, width: int, height: int)
    requires width >= 0 && height >= 0
    ensures var b := AnchorCropBox(size, width, height, "center").value;
      && 0 <= (size.width - b.x2) - b.x1 <= 2
      && 0 <= (size.height - b.y2) - b.y1 <= 2
  {
    CenteredBounds(size.width, Min(width, size.width));
    CenteredBounds(size.height, Min(height, size.height));
  }

  // ------------------------------------------------------------------
  // Edge crop (CropProcessor)
  // ------------------------------------------------------------------

  /**
   * `crop_box` holds the insets from the left, top, right and bottom edges; an
   * empty list stands for the default `None`. Entries may be `None` (no inset).
   */
  datatype CropOptions = CropOptions(cropBox: seq<Option<real>>, cropPercent: bool)

  const CropDefaults := CropOptions([], true)

  /** A missing inset counts as zero. */
  function Inset(e: Option<real>): real {
    if e.Some? then e.value else 0.0
  }

  /** The four edge insets, in percent or in pixels. */
  datatype Insets = Insets(left: real, top: real, right: real, bottom: real)

  /**
   * The insets of a crop box: an empty box stands for four `None`s, a `None` entry for
   * zero; the source indexes four entries, so a shorter box is an IndexError.
   */
  function InsetsOf(cropBox: seq<Option<real>>): (r: Result<Insets>)
    ensures r.Err? <==> 0 < |cropBox| < 4
    ensures r.Err? ==> r.error == IndexOutOfRange
    ensures |cropBox| == 0 ==> r == Ok(Insets(0.0, 0.0, 0.0, 0.0))
  {
    var entries := if |cropBox| > 0 then cropBox else [None, None, None, None];
    if |entries| < 4 then Err(IndexOutOfRange)
    else Ok(Insets(Inset(entries[0]), Inset(entries[1]), Inset(entries[2]), Inset(entries[3])))
  }

  /** `percent / 100. * extent`: a percentage of an extent. */
  function PercentOf(percent: real, extent: nat): real {
    percent / 100.0 * (extent as real)
  }

  /** `(int(near / 100. * extent), int(extent - far / 100. * extent))`: one axis of a percent box. */
  function PercentSpanOf(near: real, far: real, extent: nat): (int, int) {
    (Trunc(PercentOf(near, extent)), Trunc(extent as real - PercentOf(far, extent)))
  }

  /** `(int(near), int(extent - far))`: one axis of a pixel box. */
  function PixelSpanOf(near: real, far: real, extent: nat): (int, int) {
    (Trunc(near), Trunc(extent as real - far))
  }

  /** Edge insets turned into an absolute box: the far insets are taken off the far edges. */
  function AbsoluteBox(insets: Insets, percent: bool, input: Size): Box {
    var xs := if percent then PercentSpanOf(insets.left, insets.right, input.width)
              else PixelSpanOf(insets.left, insets.right, input.width);
    var ys := if percent then PercentSpanOf(insets.top, insets.bottom, input.height)
              else PixelSpanOf(insets.top, insets.bottom, input.height);
    Box(xs.0, ys.0, xs.1, ys.1)
  }

  /** `CropProcessor.get_crop_box`: the absolute crop box for an image of size `input`. */
  function EdgeCropBox(cropBox: seq<Option<real>>, percent: bool, input: Size): (r: Result<Box>)
    ensures r.Err? <==> 0 < |cropBox| < 4
    ensures r.Err? ==> r.error == IndexOutOfRange
  {
    var insets :- InsetsOf(cropBox);
    Ok(AbsoluteBox(insets, percent, input))
  }

  /** One crop processor call. */
  function EdgeCropImage(image: Image, options: CropOptions): (r: Result<Image>)
    ensures EdgeCropBox(options.cropBox, options.cropPercent, image.size).Err? ==> r == Err(IndexOutOfRange)
    ensures r.Ok? ==> var b := EdgeCropBox(options.cropBox, options.cropPercent, image.size).value;
      r.value.size.width == b.Width() && r.value.size.height == b.Height() && r.value.mode == image.mode
      && r.value.history == image.history + [Cropped(b)]
  {
    var box :- EdgeCropBox(options.cropBox, options.cropPercent, image.size);
    Crop(image, box)
  }

  /** No crop box, or one whose insets are all `None` or zero, selects the whole image. */
  lemma EdgeCropNoInsets(cropBox: seq<Option<real>>, percent: bool, input: Size)
    requires |cropBox| == 0 || (|cropBox| >= 4 && forall i :: 0 <= i < 4 ==> Inset(cropBox[i]) == 0.0)
    ensures EdgeCropBox(cropBox, percent, input) == Ok(Box(0, 0, input.width, input.height))
  {
    if |cropBox| > 0 {
      assert Inset(cropBox[0]) == 0.0 && Inset(cropBox[1]) == 0.0;
      assert Inset(cropBox[2]) == 0.0 && Inset(cropBox[3]) == 0.0;
    }
    TruncOfInt(input.width);
    TruncOfInt(input.height);
  }

  /** Truncating two ordered values within `[0, extent]` keeps them ordered and within `[0, extent]`. */
  lemma SpanBounds(lo: real, hi: real, extent: nat)
    requires 0.0 <= lo <= hi <= extent as real
    ensures 0 <= Trunc(lo) <= Trunc(hi) <= extent
  {
    TruncOfInt(extent);
  }

  /** Two non-negative fractions of an extent that add up to at most the whole leave a span in order. */
  lemma FractionSpan(a: real, b: real, e: real)
    requires 0.0 <= a && 0.0 <= b && a + b <= 1.0 && 0.0 <= e
    ensures 0.0 <= a * e <= e - b * e <= e
  {
    assert 0.0 <= a * e && 0.0 <= b * e;
    assert (a + b) * e == a * e + b * e;
    assert (a + b) * e <= 1.0 * e;
  }

  /** Non-negative percentages adding up to at most 100 cut an extent at two points in order. */
  lemma PercentBounds(p: real, q: real, extent: nat)
    requires 0.0 <= p && 0.0 <= q && p + q <= 100.0
    ensures 0.0 <= PercentOf(p, extent) <= extent as real - PercentOf(q, extent) <= extent as real
  {
    FractionSpan(p / 100.0, q / 100.0, extent as real);
  }

  /** A percent span with non-negative insets adding up to at most 100 lies within the extent, in order. */
  lemma PercentSpan(p: real, q: real, extent: nat)
    requires 0.0 <= p && 0.0 <= q && p + q <= 100.0
    ensures 0 <= PercentSpanOf(p, q, extent).0 <= PercentSpanOf(p, q, extent).1 <= extent
  {
    PercentBounds(p, q, extent);
    SpanBounds(PercentOf(p, extent), extent as real - PercentOf(q, extent), extent);
  }

  /**
   * Percent mode: non-negative insets that add up to at most 100 percent on each axis
   * give a box inside the image, which the crop therefore accepts.
   */
  lemma PercentBoxInside(insets: Insets, input: Size)
    requires insets.left >= 0.0 && insets.top >= 0.0 && insets.right >= 0.0 && insets.bottom >= 0.0
    requires insets.left + insets.right <= 100.0 && insets.top + insets.bottom <= 100.0
    ensures AbsoluteBox(insets, true, input).Inside(input)
  {
    PercentSpan(insets.left, insets.right, input.width);
    PercentSpan(insets.top, insets.bottom, input.height);
  }

  /**
   * Percent mode: each inset comes off its own edge. The left (top) edge lies at the
   * truncated left (top) percentage of the width (height); the right (bottom) edge at the
   * truncated remainder once the right (bottom) percentage is taken off.
   */
  lemma PercentBoxEdges(insets: Insets, input: Size)
    requires insets.left >= 0.0 && insets.top >= 0.0 && insets.right <= 100.0 && insets.bottom <= 100.0
    ensures var b := AbsoluteBox(insets, true, input);
      && b.x1 as real <= PercentOf(insets.left, input.width) < b.x1 as real + 1.0
      && b.y1 as real <= PercentOf(insets.top, input.height) < b.y1 as real + 1.0
      && b.x2 as real <= input.width as real - PercentOf(insets.right, input.width) < b.x2 as real + 1.0
      && b.y2 as real <= input.height as real - PercentOf(insets.bottom, input.height) < b.y2 as real + 1.0
  {
    PercentNear(insets.left, input.width);
    PercentNear(insets.top, input.height);
    PercentFar(insets.right, input.width);
    PercentFar(insets.bottom, input.height);
  }

  lemma PercentNear(p: real, extent: nat)
    requires p >= 0.0
    ensures PercentOf(p, extent) >= 0.0
  {
    assert p / 100.0 >= 0.0;
  }

  lemma PercentFar(p: real, extent: nat)
    requires p <= 100.0
    ensures extent as real - PercentOf(p, extent) >= 0.0
  {
    assert p / 100.0 <= 1.0;
    assert (1.0 - p / 100.0) * (extent as real) >= 0.0;
  }

  /** 10, 20, 30 and 40 percent off a 200x100 image keep the box from (20, 20) to (140, 60). */
  lemma PercentBoxExample()
    ensures EdgeCropBox([Some(10.0), Some(20.0), Some(30.0), Some(40.0)], true, Size(200, 100))
         == Ok(Box(20, 20, 140, 60))
  {
    assert PercentOf(10.0, 200) == 20.0 && PercentOf(20.0, 100) == 20.0;
    assert PercentOf(30.0, 200) == 60.0 && PercentOf(40.0, 100) == 40.0;
    TruncOfInt(20);
    TruncOfInt(140);
    TruncOfInt(60);
  }

  /**
   * Pixel mode: whole-pixel insets are subtracted from the far edges, so insets that fit
   * the image give the box that keeps exactly the remaining pixels.
   */
  lemma PixelBoxSize(input: Size, left: nat, top: nat, right: nat, bottom: nat)
    requires left + right <= input.width && top + bottom <= input.height
    ensures var b := AbsoluteBox(Insets(left as real, top as real, right as real, bottom as real), false, input);
      && b == Box(left, top, input.width - right, input.height - bottom)
      && b.Inside(input)
      && b.Width() == input.width - left - right && b.Height() == input.height - top - bottom
  {
    TruncOfInt(left);
    TruncOfInt(top);
    TruncOfInt(input.width - right);
    TruncOfInt(input.height - bottom);
    assert input.width as real - right as real == (input.width - right) as real;
    assert input.height as real - bottom as real == (input.height - bottom) as real;
  }

  /** A crop call whose box lies inside the image succeeds with the box's size. */
  lemma EdgeCropInsideSucceeds(image: Image, options: CropOptions)
    requires EdgeCropBox(options.cropBox, options.cropPercent, image.size).Ok?
    requires EdgeCropBox(options.cropBox, options.cropPercent, image.size).value.Inside(image.size)
    ensures var b := EdgeCropBox(options.cropBox, options.cropPercent, image.size).value;
      EdgeCropImage(image, options) == Crop(image, b) && Crop(image, b).Ok?
      && Crop(image, b).value.size == Size(b.Width(), b.Height())
  {
  }

  // ------------------------------------------------------------------
  // Flip (FlipProcessor)
  // ------------------------------------------------------------------

  datatype FlipOptions = FlipOptions(flip: string)

  const FlipDefaults := FlipOptions("")

  /** `'x'` and `'h'` select a left-right flip; every other non-empty value a top-bottom flip. */
  function FlipMethod(flip: string): (r: Transposition)
    ensures r == FlipLeftRight <==> flip in {"x", "h"}
    ensures r != FlipLeftRight ==> r == FlipTopBottom
  {
    if flip == "x" || flip == "h" then FlipLeftRight else FlipTopBottom
  }

  /** One flip processor call: an empty `flip` leaves the image alone. */
  function FlipImage(image: Image, options: FlipOptions): (r: Image)
    ensures r.size == image.size && r.mode == image.mode
  {
    if options.flip == "" then image else Transpose(image, FlipMethod(options.flip))
  }

  /**
   * A flip keeps the size and mode; an empty `flip` is the identity, any other value adds
   * exactly one flip, left-right for `'x'` and `'h'` and top-bottom otherwise.
   */
  lemma FlipKeepsGeometry(image: Image, options: FlipOptions)
    ensures var r := FlipImage(image, options);
      && r.size == image.size && r.mode == image.mode
      && (options.flip == "" <==> r == image)
      && (options.flip != "" ==> r.history == image.history + [Transposed(FlipMethod(options.flip))])
      && (options.flip != "" ==>
            (FlipMethod(options.flip) == FlipLeftRight <==> options.flip in {"x", "h"}))
      && (options.flip != "" && options.flip !in {"x", "h"} ==> FlipMethod(options.flip) == FlipTopBottom)
  {
    if options.flip != "" {
      assert |FlipImage(image, options).history| == |image.history| + 1;
    }
  }

  // ------------------------------------------------------------------
  // Resize (ResizeProcessor)
  // ------------------------------------------------------------------

  datatype ResizeOptions = ResizeOptions(width: Option<nat>, height: Option<nat>, fit: string, upscale: bool)

  const ResizeDefaults := ResizeOptions(None, None, "fit", false)

  /** The bounding box after prep: a missing (or zero) side is the input's side. */
  function BoundingBox(input: Size, options: ResizeOptions): (r: Size)
    ensures Truthy(options.width) ==> r.width == options.width.value
    ensures !Truthy(options.width) ==> r.width == input.width
    ensures Truthy(options.height) ==> r.height == options.height.value
    ensures !Truthy(options.height) ==> r.height == input.height
  {
    Size(OrElse(options.width, input.width), OrElse(options.height, input.height))
  }

  /** Intermediate sizes of the resize arithmetic, which the source keeps as floats. */
  datatype Dims = Dims(w: real, h: real)

  function DimsOf(s: Size): Dims {
    Dims(s.width as real, s.height as real)
  }

  /** `d` has aspect ratio `ratio` (width over height). */
  predicate HasRatio(d: Dims, ratio: real) {
    d.w == d.h * ratio
  }

  /**
   * Grow a size to reach the box, first in width and then in height; each step re-derives
   * the other side from `ratio`. Used for the upscale step and for the enlarge-for-cropping
   * step. Dividing by a zero ratio is the source's ZeroDivisionError.
   */
  function Enlarge(d: Dims, box: Size, ratio: real): (r: Result<Dims>)
    requires d.w >= 0.0 && d.h >= 0.0 && ratio >= 0.0
    ensures r.Err? <==> d.w < box.width as real && ratio == 0.0
    ensures r.Ok? ==> r.value.w >= 0.0 && r.value.h >= 0.0
  {
    var bw, bh := box.width as real, box.height as real;
    if d.w < bw && ratio == 0.0 then Err(DivisionByZero)
    else
      var d1 := if d.w < bw then Dims(bw, bw / ratio) else d;
      Ok(if d1.h < bh then Dims(bh * ratio, bh) else d1)
  }

  /**
   * Shrink a size into the box, first in width and then in height; the re-derived side
   * is truncated and kept at least 1, the constrained side becomes the box's side.
   */
  function Fit(d: Dims, box: Size): (r: Dims)
    requires d.w >= 0.0 && d.h >= 0.0
    ensures r.w >= 0.0 && r.h >= 0.0
  {
    var bw, bh := box.width as real, box.height as real;
    var d1 := if d.w > bw then Dims(bw, Shrunk(d.w, d.h, bw)) else d;
    if d1.h > bh then Dims(Shrunk(d1.h, d1.w, bh), bh) else d1
  }

  /** The other side after `side` is shrunk to `limit`: `max(other * limit / side, 1)`, truncated. */
  function Shrunk(side: real, other: real, limit: real): (r: real)
    requires side > 0.0
    ensures r >= 1.0
  {
    Max(other * limit / side, 1.0).Floor as real
  }

  /**
   * `get_scaled_size`: upscale if asked, fit into the box, enlarge to cover the box unless
   * the mode is `fit`, and round both sides up.
   */
  function ScaledSize(input: Size, box: Size, fit: string, upscale: bool): (r: Result<Size>)
    ensures input.height == 0 ==> r == Err(DivisionByZero)
  {
    if input.height == 0 then Err(DivisionByZero)
    else
      var ratio := input.width as real / input.height as real;
      var start := DimsOf(input);
      var grown :- if upscale then Enlarge(start, box, ratio) else Ok(start);
      var fitted := Fit(grown, box);
      var out :- if fit != "fit" then Enlarge(fitted, box, ratio) else Ok(fitted);
      Ok(Size(Ceil(out.w), Ceil(out.h)))
  }

  /** One resize processor call. */
  function ResizeImage(image: Image, options: ResizeOptions): (r: Result<Image>)
    ensures image.size.height == 0 ==> r == Err(DivisionByZero)
    ensures r.Ok? ==> r.value.mode == image.mode
  {
    var box := BoundingBox(image.size, options);
    var size :- ScaledSize(image.size, box, options.fit, options.upscale);
    var resized := Resize(image, size);
    if options.fit != "fit" then
      var cropBox :- AnchorCropBox(resized.size, box.width, box.height, options.fit);
      Crop(resized, cropBox)
    else
      Ok(resized)
  }

  /** `x * num / den` is at most `x` when `num < den`. */
  lemma ShrinkBelow(x: real, num: real, den: real)
    requires x >= 0.0 && 0.0 <= num < den
    ensures x * num / den <= x
  {
    assert x * num <= x * den;
  }

  /** A real in `[1, n]` rounds up to an integer in `[1, n]`. */
  lemma CeilWithin(x: real, n: nat)
    requires 1.0 <= x <= n as real
    ensures 1 <= Ceil(x) <= n
  {
  }

  /** Enlarging a size of the right aspect ratio keeps the ratio and never shrinks a side. */
  lemma EnlargeGrows(d: Dims, box: Size, ratio: real)
    requires ratio > 0.0 && d.w >= 0.0 && d.h >= 0.0 && HasRatio(d, ratio)
    ensures Enlarge(d, box, ratio).Ok?
    ensures var r := Enlarge(d, box, ratio).value;
      HasRatio(r, ratio) && r.w >= d.w && r.h >= d.h
  {
    var bw, bh := box.width as real, box.height as real;
    var d1 := if d.w < bw then Dims(bw, bw / ratio) else d;
    if d.w < bw {
      assert bw / ratio * ratio == bw;
      assert d.h == d.w / ratio;
      assert bw / ratio > d.w / ratio;
    }
    assert HasRatio(d1, ratio) && d1.w >= d.w && d1.h >= d.h;
    if d1.h < bh {
      assert bh * ratio > d1.h * ratio;
    }
  }

  /**
   * Enlarging reaches the box from any size that is already wide enough, or already tall
   * enough, or whose box height times the ratio reaches the box width.
   */
  predicate CanReach(d: Dims, box: Size, ratio: real) {
    d.w < box.width as real || d.h >= box.height as real || box.width as real <= box.height as real * ratio
  }

  lemma EnlargeReaches(d: Dims, box: Size, ratio: real)
    requires ratio > 0.0 && d.w >= 0.0 && d.h >= 0.0 && CanReach(d, box, ratio)
    ensures Enlarge(d, box, ratio).Ok?
    ensures Enlarge(d, box, ratio).value.w >= box.width as real
    ensures Enlarge(d, box, ratio).value.h >= box.height as real
  {
    var bw, bh := box.width as real, box.height as real;
    if d.w < bw {
      assert bw / ratio * ratio == bw;
      if bw / ratio < bh {
        assert bh * ratio > bw / ratio * ratio;
      }
    }
  }

  /** Shrinking never lengthens the other side past a whole-number bound it already keeps. */
  lemma ShrunkAtMost(side: real, other: real, limit: real, cap: nat)
    requires side > limit >= 0.0 && 0.0 <= other <= cap as real && cap >= 1
    ensures Shrunk(side, other, limit) <= cap as real
  {
    ShrinkBelow(other, limit, side);
    assert Max(other * limit / side, 1.0) <= cap as real;
  }

  /** A truncated `max(x, 1)` below a whole number means `x` was below it too. */
  lemma FloorBelowBound(x: real, bound: nat)
    requires Max(x, 1.0).Floor as real < bound as real
    ensures x < bound as real
  {
    var m := Max(x, 1.0);
    var f := m.Floor;
    assert f < bound;
    assert m < (f + 1) as real;
  }

  /** Division undoes multiplication by a positive number. */
  lemma DivideBack(a: real, b: real, c: real)
    requires b > 0.0 && a == c * b
    ensures a / b == c
  {
  }

  /** Fitting a size of at least one pixel a side into a box of at least one pixel a side. */
  lemma FitBounds(d: Dims, box: Size)
    requires box.width >= 1 && box.height >= 1 && d.w >= 1.0 && d.h >= 1.0
    ensures var r := Fit(d, box);
      1.0 <= r.w <= box.width as real && 1.0 <= r.h <= box.height as real
  {
    var bw, bh := box.width as real, box.height as real;
    var d1 := if d.w > bw then Dims(bw, Shrunk(d.w, d.h, bw)) else d;
    assert 1.0 <= d1.w <= bw && 1.0 <= d1.h;
    if d1.h > bh {
      ShrunkAtMost(d1.h, d1.w, bh, box.width);
    }
  }

  /** If the height re-derived from a width shrunk to `bw` is below `bh`, the box is wider than `bh * ratio`. */
  lemma RatioBelow(w: real, h: real, ratio: real, bw: real, bh: real)
    requires ratio > 0.0 && w == h * ratio && w > bw >= 0.0 && h * bw / w < bh
    ensures bw < bh * ratio
  {
    var q := bw / ratio;
    assert h > 0.0;
    assert q * ratio == bw;
    assert q * w == h * (q * ratio);
    DivideBack(h * bw, w, q);
    assert q * ratio < bh * ratio;
  }

  /** The same, stated on the truncated height the fitting step actually computes. */
  lemma ShrunkBelow(w: real, h: real, ratio: real, bw: real, bh: nat)
    requires ratio > 0.0 && w == h * ratio && w > bw >= 0.0 && Shrunk(w, h, bw) < bh as real
    ensures bw < bh as real * ratio
  {
    assert Shrunk(w, h, bw) == Max(h * bw / w, 1.0).Floor as real;
    FloorBelowBound(h * bw / w, bh);
    RatioBelow(w, h, ratio, bw, bh as real);
  }

  /** After fitting a size of the input's aspect ratio, enlarging can reach the box. */
  lemma FitCanReach(d: Dims, box: Size, ratio: real)
    requires ratio > 0.0 && d.w >= 0.0 && d.h >= 0.0 && HasRatio(d, ratio)
    ensures CanReach(Fit(d, box), box, ratio)
  {
    var bw, bh := box.width as real, box.height as real;
    var d1 := if d.w > bw then Dims(bw, Shrunk(d.w, d.h, bw)) else d;
    assert Fit(d, box) == if d1.h > bh then Dims(Shrunk(d1.h, d1.w, bh), bh) else d1;
    if d1.h <= bh {
      if d.w > bw {
        if d1.h < bh {
          ShrunkBelow(d.w, d.h, ratio, bw, box.height);
        }
      } else if d.w >= bw && d.h < bh {
        assert bh * ratio > d.h * ratio;
      }
    }
  }

  /**
   * `fit` mode: a positive input is scaled to at least one pixel and at most the box on
   * each side, with or without upscaling.
   */
  lemma ScaledSizeFitsBox(input: Size, box: Size, upscale: bool)
    requires input.width >= 1 && input.height >= 1 && box.width >= 1 && box.height >= 1
    ensures ScaledSize(input, box, "fit", upscale).Ok?
    ensures var s := ScaledSize(input, box, "fit", upscale).value;
      1 <= s.width <= box.width && 1 <= s.height <= box.height
  {
    var ratio := input.width as real / input.height as real;
    var start := DimsOf(input);
    assert HasRatio(start, ratio);
    if upscale {
      EnlargeGrows(start, box, ratio);
    }
    var grown := if upscale then Enlarge(start, box, ratio).value else start;
    FitBounds(grown, box);
    var fitted := Fit(grown, box);
    CeilWithin(fitted.w, box.width);
    CeilWithin(fitted.h, box.height);
  }

  /** `fit` mode without upscaling leaves an input that already fits the box unchanged. */
  lemma ScaledSizeKeepsFittingInput(input: Size, box: Size)
    requires input.height >= 1 && input.width <= box.width && input.height <= box.height
    ensures ScaledSize(input, box, "fit", false) == Ok(input)
  {
    CeilOfInt(input.width);
    CeilOfInt(input.height);
  }

  /** Whatever the mode, a box equal to the input leaves a positive input unchanged. */
  lemma ScaledSizeOfOwnBox(input: Size, fit: string, upscale: bool)
    requires input.width >= 1 && input.height >= 1
    ensures ScaledSize(input, input, fit, upscale) == Ok(input)
  {
    CeilOfInt(input.width);
    CeilOfInt(input.height);
  }

  /**
   * Any other mode: a positive input is scaled to cover the box on both sides, so the
   * anchor crop that follows can cut out exactly the box.
   */
  lemma ScaledSizeCoversBox(input: Size, box: Size, fit: string, upscale: bool)
    requires input.width >= 1 && input.height >= 1 && box.width >= 1 && box.height >= 1
    requires fit != "fit"
    ensures ScaledSize(input, box, fit, upscale).Ok?
    ensures var s := ScaledSize(input, box, fit, upscale).value;
      s.width >= box.width && s.height >= box.height
  {
    var ratio := input.width as real / input.height as real;
    var start := DimsOf(input);
    assert HasRatio(start, ratio);
    if upscale {
      EnlargeGrows(start, box, ratio);
    }
    var grown := if upscale then Enlarge(start, box, ratio).value else start;
    FitCanReach(grown, box, ratio);
    EnlargeReaches(Fit(grown, box), box, ratio);
  }

  /**
   * The fit steps re-derive the second side from the first one's truncated result, so
   * the aspect ratio is kept only approximately: 1000x119 into a 100x10 box gives 90x10,
   * although 10 pixels of height at the input's ratio are about 84 pixels of width.
   */
  lemma FitDriftsFromRatio()
    ensures ScaledSize(Size(1000, 119), Size(100, 10), "fit", false) == Ok(Size(90, 10))
    ensures 84.0 < 10.0 * (1000.0 / 119.0) < 85.0
  {
    var first := Shrunk(1000.0, 119.0, 100.0);
    assert 119.0 * 100.0 / 1000.0 == 11.9;
    assert Max(11.9, 1.0) == 11.9;
    assert first == 11.0;
    var second := Shrunk(11.0, 100.0, 10.0);
    assert 100.0 * 10.0 / 11.0 == 1000.0 / 11.0;
    assert 90.0 <= 1000.0 / 11.0 < 91.0;
    assert (1000.0 / 11.0).Floor == 90;
    assert second == 90.0;
    assert Fit(Dims(1000.0, 119.0), Size(100, 10)) == Dims(90.0, 10.0);
    CeilOfInt(90);
    CeilOfInt(10);
  }

  /** The bounding box is positive on each side when the input is. */
  lemma BoundingBoxPositive(input: Size, options: ResizeOptions)
    requires input.width >= 1 && input.height >= 1
    ensures BoundingBox(input, options).width >= 1 && BoundingBox(input, options).height >= 1
  {
  }

  /** `fit` mode: the resized image lies within the bounding box, at least one pixel a side. */
  lemma ResizeFitsWithinBox(image: Image, options: ResizeOptions)
    requires image.size.width >= 1 && image.size.height >= 1 && options.fit == "fit"
    ensures ResizeImage(image, options).Ok?
    ensures var r := ResizeImage(image, options).value; var box := BoundingBox(image.size, options);
      1 <= r.size.width <= box.width && 1 <= r.size.height <= box.height
  {
    var box := BoundingBox(image.size, options);
    BoundingBoxPositive(image.size, options);
    ScaledSizeFitsBox(image.size, box, options.upscale);
  }

  /**
   * A supported anchor mode fills the bounding box exactly: resize to cover, then crop to
   * it, with the fit mode as the crop's anchor (so `top` keeps the top rows, and so on).
   */
  lemma ResizeCropFillsBox(image: Image, options: ResizeOptions)
    requires image.size.width >= 1 && image.size.height >= 1
    requires options.fit != "fit" && SupportedAnchor(options.fit)
    ensures ResizeImage(image, options).Ok?
    ensures ResizeImage(image, options).value.size == BoundingBox(image.size, options)
    ensures var box := BoundingBox(image.size, options);
      var scaled := ScaledSize(image.size, box, options.fit, options.upscale);
      && scaled.Ok?
      && ResizeImage(image, options).value.history == image.history
           + [Resized(scaled.value), Cropped(AnchorCropBox(scaled.value, box.width, box.height, options.fit).value)]
  {
    var box := BoundingBox(image.size, options);
    BoundingBoxPositive(image.size, options);
    ScaledSizeCoversBox(image.size, box, options.fit, options.upscale);
  }

  /** An unknown fit mode is rejected once the image has been resized. */
  lemma ResizeRejectsUnknownFit(image: Image, options: ResizeOptions)
    requires image.size.width >= 1 && image.size.height >= 1
    requires options.fit != "fit" && !SupportedAnchor(options.fit)
    ensures ResizeImage(image, options) == Err(UnsupportedAnchor(options.fit))
  {
    var box := BoundingBox(image.size, options);
    BoundingBoxPositive(image.size, options);
    ScaledSizeCoversBox(image.size, box, options.fit, options.upscale);
  }

  /** An image with no height cannot be resized: its aspect ratio divides by zero. */
  lemma ResizeZeroHeight(image: Image, options: ResizeOptions)
    requires image.size.height == 0
    ensures ResizeImage(image, options) == Err(DivisionByZero)
  {
  }

  /**
   * Without a width or a height the box is the input itself, and a resize in `fit` mode
   * or any anchor mode keeps the input's size.
   */
  lemma ResizeUnconstrainedKeepsSize(image: Image, options: ResizeOptions)
    requires image.size.width >= 1 && image.size.height >= 1
    requires !Truthy(options.width) && !Truthy(options.height)
    requires options.fit == "fit" || SupportedAnchor(options.fit)
    ensures ResizeImage(image, options).Ok?
    ensures ResizeImage(image, options).value.size == image.size
  {
    assert BoundingBox(image.size, options) == image.size;
    ScaledSizeOfOwnBox(image.size, options.fit, options.upscale);
  }

  /** `fit` mode without upscaling leaves an image that already fits the box at its size. */
  lemma ResizeKeepsFittingImage(image: Image, options: ResizeOptions)
    requires image.size.height >= 1 && options.fit == "fit" && !options.upscale
    requires image.size.width <= BoundingBox(image.size, options).width
    requires image.size.height <= BoundingBox(image.size, options).height
    ensures ResizeImage(image, options) == Ok(Resize(image, image.size))
  {
    ScaledSizeKeepsFittingInput(image.size, BoundingBox(image.size, options));
  }

  // ---------------------------------------------------------------------------
  // Rotate processor.

  datatype RotateOptions = RotateOptions(
    degrees: int, extend: bool, color: seq<int>, preserveTransparency: bool)

  /** `degrees=0, extend=True, color=None, preserve_transparency=True`; `[]` stands for `None`. */
  const RotateDefaults := RotateOptions(0, true, [], true)

  /** Set by prep: a rotation by a multiple of 90 degrees (Python's `%` by 90 is never negative). */
  predicate Transposable(degrees: int) {
    degrees % 90 == 0
  }

  /** `getattr(Image, 'ROTATE_<degrees>')`: the library names exactly three quarter turns. */
  function QuarterTurn(degrees: int): (r: Result<Transposition>)
    ensures r.Ok? <==> degrees in {90, 180, 270}
    ensures r.Err? ==> r.error == NoSuchTranspose(degrees)
    ensures degrees == 90 ==> r == Ok(Rotate90)
    ensures degrees == 180 ==> r == Ok(Rotate180)
    ensures degrees == 270 ==> r == Ok(Rotate270)
  {
    if degrees == 90 then Ok(Rotate90)
    else if degrees == 180 then Ok(Rotate180)
    else if degrees == 270 then Ok(Rotate270)
    else Err(NoSuchTranspose(degrees))
  }

  /**
   * One rotate processor call: a transposition for multiples of 90 degrees, otherwise a
   * bicubic rotation, over a solid background when a colour is given.
   */
  function RotateImage(image: Image, options: RotateOptions, trig: Trig): (r: Result<Image>)
    ensures r.Ok? ==> r.value.mode == image.mode || r.value.mode == "RGBA"
    ensures |options.color| == 0 && r.Ok? ==> r.value.mode == image.mode
    ensures r.Err? ==> r.error == NoSuchTranspose(options.degrees) || r.error == IndexOutOfRange
  {
    if Transposable(options.degrees) then
      if options.degrees == 0 then Ok(image)
      else
        var how :- QuarterTurn(options.degrees);
        Ok(Transpose(image, how))
    else if |options.color| > 0 then
      var rotated := Rotate(Convert(image, "RGBA"), options.degrees, options.extend, trig);
      var filled := CompositeOnColor(rotated, options.color);
      if !options.preserveTransparency then Ok(Convert(filled, image.mode))
      else if |options.color| < 4 then Err(IndexOutOfRange)
      else if options.color[3] == 255 then Ok(Convert(filled, image.mode))
      else Ok(filled)
    else
      Ok(Rotate(image, options.degrees, options.extend, trig))
  }

  /** A rotation by zero degrees returns the image itself, whatever the other options. */
  lemma RotateByZero(image: Image, options: RotateOptions, trig: Trig)
    requires options.degrees == 0
    ensures RotateImage(image, options, trig) == Ok(image)
  {
  }

  /**
   * Any other multiple of 90 degrees succeeds exactly for 90, 180 and 270, and is one
   * lossless transposition: no resampling, no mode change, sides swapped for quarter turns.
   */
  lemma RotateQuarterTurns(image: Image, options: RotateOptions, trig: Trig)
    requires Transposable(options.degrees) && options.degrees != 0
    ensures RotateImage(image, options, trig).Ok? <==> options.degrees in {90, 180, 270}
    ensures RotateImage(image, options, trig).Err? ==>
      RotateImage(image, options, trig).error == NoSuchTranspose(options.degrees)
    ensures RotateImage(image, options, trig).Ok? ==>
      var r := RotateImage(image, options, trig).value;
      |r.history| == |image.history| + 1 && r.history[..|image.history|] == image.history &&
      r.history[|image.history|] == Transposed(QuarterTurn(options.degrees).value) && r.mode == image.mode &&
      (options.degrees == 180 ==> r.size == image.size) &&
      (options.degrees != 180 ==> r.size == Size(image.size.height, image.size.width))
  {
    if options.degrees in {90, 180, 270} {
      var how := QuarterTurn(options.degrees).value;
      assert RotateImage(image, options, trig) == Ok(Transpose(image, how));
    }
  }

  /** Without a background colour a rotation is a single bicubic rotation of the image. */
  lemma RotatePlain(image: Image, options: RotateOptions, trig: Trig)
    requires !Transposable(options.degrees) && |options.color| == 0
    ensures RotateImage(image, options, trig) == Ok(Rotate(image, options.degrees, options.extend, trig))
    ensures options.extend ==>
      RotateImage(image, options, trig).value.size == trig.canvas(image.size, options.degrees)
    ensures !options.extend ==> RotateImage(image, options, trig).value.size == image.size
  {
  }

  /**
   * With a background colour the result keeps the original mode unless transparency is
   * preserved and the colour's alpha is not 255; a colour without an alpha entry is an
   * index error only when transparency is preserved.
   */
  lemma RotateOnColor(image: Image, options: RotateOptions, trig: Trig)
    requires !Transposable(options.degrees) && |options.color| > 0
    ensures RotateImage(image, options, trig).Err? <==>
      options.preserveTransparency && |options.color| < 4
    ensures RotateImage(image, options, trig).Err? ==>
      RotateImage(image, options, trig).error == IndexOutOfRange
    ensures RotateImage(image, options, trig).Ok? ==>
      var r := RotateImage(image, options, trig).value;
      (r.mode == image.mode || r.mode == "RGBA") &&
      (!options.preserveTransparency || options.color[3] == 255 ==> r.mode == image.mode) &&
      (options.preserveTransparency && options.color[3] != 255 ==> r.mode == "RGBA")
    ensures RotateImage(image, options, trig).Ok? && options.extend ==>
      RotateImage(image, options, trig).value.size == trig.canvas(image.size, options.degrees)
    ensures RotateImage(image, options, trig).Ok? ==>
      var r := RotateImage(image, options, trig).value;
      var filled := image.history + [Converted("RGBA"), Rotated(options.degrees, options.extend), Composited(options.color)];
      && (!options.preserveTransparency || options.color[3] == 255 ==> r.history == filled + [Converted(image.mode)])
      && (options.preserveTransparency && options.color[3] != 255 ==> r.history == filled)
  {
  }

  // ---------------------------------------------------------------------------
  // Rotate-crop processor.

  datatype RotateCropOptions = RotateCropOptions(rotate: RotateOptions, cropMode: string)

  /** The rotate defaults plus `crop_mode='aspect_ratio'`. */
  const RotateCropDefaults := RotateCropOptions(RotateDefaults, "aspect_ratio")

  /** Prep always extends the canvas and drops the background colour. */
  function Forced(options: RotateOptions): (r: RotateOptions)
    ensures r.extend && r.color == []
    ensures r.degrees == options.degrees && r.preserveTransparency == options.preserveTransparency
  {
    options.(extend := true, color := [])
  }

  /**
   * `get_rotated_rect_aspect_ratio`: the two aspect ratios divide by the input's and the
   * rotated canvas's heights, and a portrait input (aspect ratio below 1) is then divided by
   * the rotated aspect ratio, which is zero for a canvas of width 0; the trigonometric rest
   * is supplied.
   */
  function AspectRatioCropSize(input: Size, rotated: Size, degrees: int, trig: Trig): (r: Result<(int, int)>)
    ensures r.Err? <==> input.height == 0 || rotated.height == 0
                        || (input.width < input.height && rotated.width == 0)
    ensures r.Err? ==> r.error == DivisionByZero
    ensures r.Ok? ==> r.value == trig.aspectRatioCrop(input, rotated, degrees)
  {
    if input.height == 0 || rotated.height == 0 then Err(DivisionByZero)
    else if input.width as real / input.height as real < 1.0 && rotated.width == 0 then Err(DivisionByZero)
    else Ok(trig.aspectRatioCrop(input, rotated, degrees))
  }

  /** `get_rotated_rect_max_area`: a degenerate input gives an empty rectangle. */
  function MaxAreaCropSize(input: Size, degrees: int, trig: Trig): (r: (int, int))
    ensures input.width == 0 || input.height == 0 ==> r == (0, 0)
    ensures input.width > 0 && input.height > 0 ==> r == trig.maxAreaCrop(input, degrees)
  {
    if input.width <= 0 || input.height <= 0 then (0, 0) else trig.maxAreaCrop(input, degrees)
  }

  /** `getattr(self, 'get_rotated_rect_<crop_mode>')`: only the two named modes exist. */
  function CropSizeFor(mode: string, input: Size, rotated: Size, degrees: int, trig: Trig): (r: Result<(int, int)>)
    ensures mode !in {"aspect_ratio", "max_area"} ==> r == Err(NoSuchCropMode(mode))
    ensures mode == "aspect_ratio" ==> r == AspectRatioCropSize(input, rotated, degrees, trig)
    ensures mode == "max_area" ==> r == Ok(MaxAreaCropSize(input, degrees, trig))
  {
    if mode == "aspect_ratio" then AspectRatioCropSize(input, rotated, degrees, trig)
    else if mode == "max_area" then Ok(MaxAreaCropSize(input, degrees, trig))
    else Err(NoSuchCropMode(mode))
  }

  /**
   * One rotate-crop processor call: the rotate processor's work on an extended canvas
   * without background, then, for a rotation that is not a transposition, a centred crop
   * of the size the crop mode computes.
   */
  function RotateCropImage(image: Image, options: RotateCropOptions, trig: Trig): (r: Result<Image>)
    ensures r.Ok? ==> r.value.mode == image.mode
  {
    var rotation := Forced(options.rotate);
    var rotated :- RotateImage(image, rotation, trig);
    if Transposable(rotation.degrees) then Ok(rotated)
    else
      var size :- CropSizeFor(options.cropMode, image.size, rotated.size, rotation.degrees, trig);
      var box :- AnchorCropBox(rotated.size, size.0, size.1, "center");
      Crop(rotated, box)
  }

  /** The caller's `extend` and `color` make no difference. */
  lemma RotateCropIgnoresExtendAndColor(image: Image, options: RotateCropOptions, trig: Trig,
                                        extend: bool, color: seq<int>)
    ensures RotateCropImage(image, options.(rotate := options.rotate.(extend := extend, color := color)), trig)
         == RotateCropImage(image, options, trig)
  {
    assert Forced(options.rotate.(extend := extend, color := color)) == Forced(options.rotate);
  }

  /** A multiple of 90 degrees is the plain rotation, uncropped, whatever the crop mode. */
  lemma RotateCropTransposes(image: Image, options: RotateCropOptions, trig: Trig)
    requires Transposable(options.rotate.degrees)
    ensures RotateCropImage(image, options, trig) == RotateImage(image, options.rotate, trig)
  {
  }

  /**
   * Any other angle: the input is rotated onto the expanded canvas and then cropped to a
   * rectangle that lies within that canvas, centred on it (0 to 2 more pixels to the right
   * and below than to the left and above); an unknown crop mode is an error.
   */
  lemma RotateCropWithinCanvas(image: Image, options: RotateCropOptions, trig: Trig)
    requires !Transposable(options.rotate.degrees)
    ensures var canvas := trig.canvas(image.size, options.rotate.degrees);
      RotateCropImage(image, options, trig).Ok? ==>
        RotateCropImage(image, options, trig).value.size.width <= canvas.width &&
        RotateCropImage(image, options, trig).value.size.height <= canvas.height
    ensures var canvas := trig.canvas(image.size, options.rotate.degrees);
      var r := RotateCropImage(image, options, trig);
      r.Ok? ==> (
        && |r.value.history| > 0 && r.value.history[|r.value.history| - 1].Cropped?
        && var b := r.value.history[|r.value.history| - 1].box;
           0 <= (canvas.width - b.x2) - b.x1 <= 2 && 0 <= (canvas.height - b.y2) - b.y1 <= 2)
    ensures options.cropMode !in {"aspect_ratio", "max_area"} ==>
      RotateCropImage(image, options, trig) == Err(NoSuchCropMode(options.cropMode))
  {
    var rotated := RotateImage(image, Forced(options.rotate), trig).value;
    RotatePlain(image, Forced(options.rotate), trig);
    var canvas := trig.canvas(image.size, options.rotate.degrees);
    assert rotated.size == canvas;
    var r := RotateCropImage(image, options, trig);
    if r.Ok? {
      var size := CropSizeFor(options.cropMode, image.size, rotated.size, options.rotate.degrees, trig).value;
      var box := AnchorCropBox(rotated.size, size.0, size.1, "center").value;
      assert r == Crop(rotated, box);
      assert r.value.history == rotated.history + [Cropped(box)];
      assert size.0 >= 0 && size.1 >= 0;
      CenterAnchorMargins(canvas, size.0, size.1);
    }
  }

  /**
   * In `max_area` mode, a crop size that fits the canvas is cut out at exactly that size
   * (the crop is centred, see `CenterAnchorMargins`).
   */
  lemma RotateCropMaxAreaSize(image: Image, options: RotateCropOptions, trig: Trig)
    requires !Transposable(options.rotate.degrees) && options.cropMode == "max_area"
    requires image.size.width > 0 && image.size.height > 0
    requires var canvas := trig.canvas(image.size, options.rotate.degrees);
      var size := trig.maxAreaCrop(image.size, options.rotate.degrees);
      0 <= size.0 <= canvas.width && 0 <= size.1 <= canvas.height
    ensures RotateCropImage(image, options, trig).Ok?
    ensures var r := RotateCropImage(image, options, trig).value;
      r.size == Size(trig.maxAreaCrop(image.size, options.rotate.degrees).0,
                     trig.maxAreaCrop(image.size, options.rotate.degrees).1)
  {
    RotatePlain(image, Forced(options.rotate), trig);
  }

  /**
   * In `aspect_ratio` mode, past the division-by-zero guards, a crop size computed from the
   * input's size and the rotated canvas that fits the canvas is cut out at exactly that size.
   */
  lemma RotateCropAspectRatioSize(image: Image, options: RotateCropOptions, trig: Trig)
    requires !Transposable(options.rotate.degrees) && options.cropMode == "aspect_ratio"
    requires var canvas := trig.canvas(image.size, options.rotate.degrees);
      image.size.height > 0 && canvas.height > 0 && (image.size.width < image.size.height ==> canvas.width > 0)
    requires var canvas := trig.canvas(image.size, options.rotate.degrees);
      var size := trig.aspectRatioCrop(image.size, canvas, options.rotate.degrees);
      0 <= size.0 <= canvas.width && 0 <= size.1 <= canvas.height
    ensures RotateCropImage(image, options, trig).Ok?
    ensures var size := trig.aspectRatioCrop(image.size, trig.canvas(image.size, options.rotate.degrees), options.rotate.degrees);
      RotateCropImage(image, options, trig).value.size == Size(size.0, size.1)
  {
    RotatePlain(image, Forced(options.rotate), trig);
  }

  // ------------------------------------------------------------------
  // Processor classes (BaseProcessor and its subclasses)
  // ------------------------------------------------------------------

  /** `BaseProcessor.pre`, inherited by every processor: the image unchanged. */
  method Pre(image: Image) returns (r: Image)
    ensures r == image
  {
    r := image;
  }

  /** `BaseProcessor.post`, inherited by every processor: the image unchanged. */
  method Post(image: Image) returns (r: Image)
    ensures r == image
  {
    r := image;
  }

  /** `CropProcessor`: prep stores the options and the input size. */
  class CropProcessor {
    var options: CropOptions
    var inputSize: Size

    constructor ()
      ensures options == CropDefaults
    {
      options := CropDefaults;
      inputSize := Size(0, 0);
    }

    method Prep(image: Image, options: CropOptions)
      modifies this
      ensures this.options == options && inputSize == image.size
    {
      this.options := options;
      inputSize := image.size;
    }

    /**
     * `get_crop_box`: copy the insets (or four `None`s), replace every `None` by zero in
     * place, then convert the first four to an absolute box.
     */
    method GetCropBox() returns (r: Result<Box>)
      ensures r == EdgeCropBox(options.cropBox, options.cropPercent, inputSize)
    {
      var source := if |options.cropBox| > 0 then options.cropBox else [None, None, None, None];
      var entries := new Option<real>[|source|](k => if 0 <= k < |source| then source[k] else None);
      var i := 0;
      while i < entries.Length
        invariant 0 <= i <= entries.Length == |source|
        invariant forall k :: 0 <= k < i ==> entries[k] == Some(Inset(source[k]))
        invariant forall k :: i <= k < entries.Length ==> entries[k] == source[k]
      {
        if entries[i].None? {
          entries[i] := Some(0.0);
        }
        i := i + 1;
      }
      if entries.Length < 4 {
        return Err(IndexOutOfRange);
      }
      var insets := Insets(entries[0].value, entries[1].value, entries[2].value, entries[3].value);
      assert Ok(insets) == InsetsOf(options.cropBox);
      r := Ok(AbsoluteBox(insets, options.cropPercent, inputSize));
    }

    method Process(image: Image) returns (r: Result<Image>)
      requires inputSize == image.size  // prep has run on this image
      ensures r == EdgeCropImage(image, options)
    {
      var box :- GetCropBox();
      r := Crop(image, box);
    }

    method Call(image: Image, options: CropOptions) returns (r: Result<Image>)
      modifies this
      ensures this.options == options && inputSize == image.size
      ensures r == EdgeCropImage(image, options)
    {
      Prep(image, options);
      var pre := Pre(image);
      var processed :- Process(pre);
      var post := Post(processed);
      r := Ok(post);
    }
  }

  /** `FlipProcessor`. */
  class FlipProcessor {
    var options: FlipOptions
    var inputSize: Size

    constructor ()
      ensures options == FlipDefaults
    {
      options := FlipDefaults;
      inputSize := Size(0, 0);
    }

    method Prep(image: Image, options: FlipOptions)
      modifies this
      ensures this.options == options && inputSize == image.size
    {
      this.options := options;
      inputSize := image.size;
    }

    method Process(image: Image) returns (r: Image)
      ensures r == FlipImage(image, options)
    {
      if options.flip == "" {
        return image;
      }
      var how := if options.flip in ["x", "h"] then FlipLeftRight else FlipTopBottom;
      r := Transpose(image, how);
    }

    method Call(image: Image, options: FlipOptions) returns (r: Image)
      modifies this
      ensures this.options == options && inputSize == image.size
      ensures r == FlipImage(image, options)
    {
      Prep(image, options);
      var pre := Pre(image);
      var processed := Process(pre);
      r := Post(processed);
    }
  }

  /**
   * The upscale block of `get_scaled_size` (repeated there as the enlarge-for-cropping
   * block), on two float variables.
   */
  method EnlargeStep(size: Dims, box: Size, aspectRatio: real) returns (r: Result<Dims>)
    requires size.w >= 0.0 && size.h >= 0.0 && aspectRatio >= 0.0
    ensures r == Enlarge(size, box, aspectRatio)
  {
    var width, height := size.w, size.h;
    var boxWidth, boxHeight := box.width as real, box.height as real;
    if width < boxWidth {
      if aspectRatio == 0.0 {
        return Err(DivisionByZero);
      }
      width := boxWidth;
      height := width / aspectRatio;
    }
    if height < boxHeight {
      height := boxHeight;
      width := height * aspectRatio;
    }
    r := Ok(Dims(width, height));
  }

  /** The fit-into-bounding-box block of `get_scaled_size`. */
  method FitStep(size: Dims, box: Size) returns (r: Dims)
    requires size.w >= 0.0 && size.h >= 0.0
    ensures r == Fit(size, box)
  {
    var width, height := size.w, size.h;
    var boxWidth, boxHeight := box.width as real, box.height as real;
    if width > boxWidth {
      height := Shrunk(width, height, boxWidth);
      width := boxWidth;
    }
    if height > boxHeight {
      width := Shrunk(height, width, boxHeight);
      height := boxHeight;
    }
    r := Dims(width, height);
  }

  /** `ResizeProcessor`: prep replaces a missing (or zero) width or height by the input's. */
  class ResizeProcessor {
    var options: ResizeOptions
    var inputSize: Size

    constructor ()
      ensures options == ResizeDefaults
    {
      options := ResizeDefaults;
      inputSize := Size(0, 0);
    }

    /** Prep has filled in both sides of the bounding box, from the options or the input. */
    predicate Prepared()
      reads this
    {
      && options.width.Some? && options.height.Some?
      && BoundingBox(inputSize, options) == Size(options.width.value, options.height.value)
    }

    /** The bounding box held in the prepared options. */
    function BoxSize(): (r: Size)
      requires Prepared()
      reads this
      ensures r.width == options.width.value && r.height == options.height.value
    {
      Size(options.width.value, options.height.value)
    }

    method Prep(image: Image, options: ResizeOptions)
      modifies this
      ensures inputSize == image.size
      ensures this.options == options.(width := Some(OrElse(options.width, image.size.width)),
                                       height := Some(OrElse(options.height, image.size.height)))
      ensures Prepared() && BoxSize() == BoundingBox(image.size, options)
    {
      this.options := options;
      inputSize := image.size;
      this.options := this.options.(width := Some(OrElse(this.options.width, inputSize.width)));
      this.options := this.options.(height := Some(OrElse(this.options.height, inputSize.height)));
    }

    /** `get_scaled_size`: optional upscale, fit into the box, enlarge unless `fit`, round up. */
    method GetScaledSize() returns (r: Result<Size>)
      requires Prepared()
      ensures r == ScaledSize(inputSize, BoxSize(), options.fit, options.upscale)
    {
      var box := BoxSize();
      if inputSize.height == 0 {
        return Err(DivisionByZero);
      }
      var aspectRatio := inputSize.width as real / inputSize.height as real;
      var size := DimsOf(inputSize);
      if options.upscale {
        size :- EnlargeStep(size, box, aspectRatio);
      }
      size := FitStep(size, box);
      if options.fit != "fit" {
        size :- EnlargeStep(size, box, aspectRatio);
      }
      r := Ok(Size(Ceil(size.w), Ceil(size.h)));
    }

    method Process(image: Image) returns (r: Result<Image>)
      requires Prepared() && inputSize == image.size  // prep has run on this image
      ensures r == ResizeImage(image, options)
    {
      var size :- GetScaledSize();
      var resized := Resize(image, size);
      if options.fit != "fit" {
        var cropBox :- AnchorCropBox(resized.size, options.width.value, options.height.value, options.fit);
        r := Crop(resized, cropBox);
      } else {
        r := Ok(resized);
      }
    }

    method Call(image: Image, options: ResizeOptions) returns (r: Result<Image>)
      modifies this
      ensures inputSize == image.size && Prepared() && BoxSize() == BoundingBox(image.size, options)
      ensures this.options == options.(width := Some(OrElse(options.width, image.size.width)),
                                       height := Some(OrElse(options.height, image.size.height)))
      ensures r == ResizeImage(image, options)
    {
      Prep(image, options);
      assert BoundingBox(image.size, this.options) == BoundingBox(image.size, options);
      var pre := Pre(image);
      var processed :- Process(pre);
      var post := Post(processed);
      r := Ok(post);
    }
  }

  /**
   * `RotateProcessor.process`, shared by the rotate and rotate-crop processors (the latter
   * calls it through `super`); `transposable` is the flag prep stored.
   */
  method RotateStep(image: Image, options: RotateOptions, transposable: bool, trig: Trig)
    returns (r: Result<Image>)
    requires transposable == Transposable(options.degrees)
    ensures r == RotateImage(image, options, trig)
  {
    if transposable {
      if options.degrees == 0 {
        return Ok(image);
      }
      var how :- QuarterTurn(options.degrees);
      return Ok(Transpose(image, how));
    }
    var result := image;
    if |options.color| > 0 {
      var originalMode := image.mode;
      result := Convert(result, "RGBA");
      var rotated := Rotate(result, options.degrees, options.extend, trig);
      result := CompositeOnColor(rotated, options.color);
      if !options.preserveTransparency {
        result := Convert(result, originalMode);
      } else if |options.color| < 4 {
        return Err(IndexOutOfRange);
      } else if options.color[3] == 255 {
        result := Convert(result, originalMode);
      }
    } else {
      result := Rotate(result, options.degrees, options.extend, trig);
    }
    r := Ok(result);
  }

  /** `RotateProcessor`: prep also records whether the angle is a multiple of 90 degrees. */
  class RotateProcessor {
    var options: RotateOptions
    var inputSize: Size
    var transposable: bool

    constructor ()
      ensures options == RotateDefaults && Prepared()
    {
      options := RotateDefaults;
      inputSize := Size(0, 0);
      transposable := true;
    }

    predicate Prepared()
      reads this
    {
      transposable == Transposable(options.degrees)
    }

    method Prep(image: Image, options: RotateOptions)
      modifies this
      ensures this.options == options && inputSize == image.size
      ensures transposable == (options.degrees % 90 == 0) && Prepared()
    {
      this.options := options;
      inputSize := image.size;
      transposable := this.options.degrees % 90 == 0;
    }

    method Process(image: Image, trig: Trig) returns (r: Result<Image>)
      requires Prepared()
      ensures r == RotateImage(image, options, trig)
    {
      r := RotateStep(image, options, transposable, trig);
    }

    method Call(image: Image, options: RotateOptions, trig: Trig) returns (r: Result<Image>)
      modifies this
      ensures this.options == options && inputSize == image.size && Prepared()
      ensures r == RotateImage(image, options, trig)
    {
      Prep(image, options);
      var pre := Pre(image);
      var processed :- Process(pre, trig);
      var post := Post(processed);
      r := Ok(post);
    }
  }

  /** `RotateCropProcessor`: the rotate processor's prep, then `extend` forced on and `color` off. */
  class RotateCropProcessor {
    var options: RotateCropOptions
    var inputSize: Size
    var transposable: bool

    constructor ()
      ensures options == RotateCropDefaults
    {
      options := RotateCropDefaults;
      inputSize := Size(0, 0);
      transposable := true;
    }

    predicate Prepared()
      reads this
    {
      transposable == Transposable(options.rotate.degrees) && options.rotate == Forced(options.rotate)
    }

    method Prep(image: Image, options: RotateCropOptions)
      modifies this
      ensures this.options == options.(rotate := Forced(options.rotate)) && inputSize == image.size
      ensures transposable == (options.rotate.degrees % 90 == 0) && Prepared()
    {
      this.options := options;
      inputSize := image.size;
      transposable := this.options.rotate.degrees % 90 == 0;
      this.options := this.options.(rotate := this.options.rotate.(extend := true));
      this.options := this.options.(rotate := this.options.rotate.(color := []));
    }

    /** `getattr(self, 'get_rotated_rect_<crop_mode>')(rotated)`. */
    method GetRotatedRect(rotated: Image, trig: Trig) returns (r: Result<(int, int)>)
      ensures r == CropSizeFor(options.cropMode, inputSize, rotated.size, options.rotate.degrees, trig)
    {
      if options.cropMode == "aspect_ratio" {
        if inputSize.height == 0 || rotated.size.height == 0 {
          return Err(DivisionByZero);
        }
        var aspectRatio := inputSize.width as real / inputSize.height as real;
        if aspectRatio < 1.0 && rotated.size.width == 0 {
          return Err(DivisionByZero);
        }
        r := Ok(trig.aspectRatioCrop(inputSize, rotated.size, options.rotate.degrees));
      } else if options.cropMode == "max_area" {
        if inputSize.width <= 0 || inputSize.height <= 0 {
          return Ok((0, 0));
        }
        r := Ok(trig.maxAreaCrop(inputSize, options.rotate.degrees));
      } else {
        r := Err(NoSuchCropMode(options.cropMode));
      }
    }

    method Process(image: Image, trig: Trig) returns (r: Result<Image>)
      requires Prepared() && inputSize == image.size  // prep has run on this image
      ensures r == RotateCropImage(image, options, trig)
    {
      var rotated :- RotateStep(image, options.rotate, transposable, trig);
      if transposable {
        return Ok(rotated);
      }
      var size :- GetRotatedRect(rotated, trig);
      var cropBox :- AnchorCropBox(rotated.size, size.0, size.1, "center");
      r := Crop(rotated, cropBox);
    }

    method Call(image: Image, options: RotateCropOptions, trig: Trig) returns (r: Result<Image>)
      modifies this
      ensures this.options == options.(rotate := Forced(options.rotate)) && inputSize == image.size
      ensures transposable == (options.rotate.degrees % 90 == 0) && Prepared()
      ensures r == RotateCropImage(image, options, trig)
    {
      Prep(image, options);
      assert Forced(this.options.rotate) == Forced(options.rotate);
      var pre := Pre(image);
      var processed :- Process(pre, trig);
      var post := Post(processed);
      r := Ok(post);
    }
  }

  // ------------------------------------------------------------------
  // The module-level callables (`as_callable`): a fresh instance per call
  // ------------------------------------------------------------------

  method CropProcessorCallable(image: Image, options: CropOptions) returns (r: Result<Image>)
    ensures r == EdgeCropImage(image, options)
  {
    var processor := new CropProcessor();
    r := processor.Call(image, options);
  }

  method FlipProcessorCallable(image: Image, options: FlipOptions) returns (r: Image)
    ensures r == FlipImage(image, options)
  {
    var processor := new FlipProcessor();
    r := processor.Call(image, options);
  }

  method ResizeProcessorCallable(image: Image, options: ResizeOptions) returns (r: Result<Image>)
    ensures r == ResizeImage(image, options)
  {
    var processor := new ResizeProcessor();
    r := processor.Call(image, options);
  }

  method RotateProcessorCallable(image: Image, options: RotateOptions, trig: Trig) returns (r: Result<Image>)
    ensures r == RotateImage(image, options, trig)
  {
    var processor := new RotateProcessor();
    r := processor.Call(image, options, trig);
  }

  method RotateCropProcessorCallable(image: Image, options: RotateCropOptions, trig: Trig)
    returns (r: Result<Image>)
    ensures r == RotateCropImage(image, options, trig)
  {
    var processor := new RotateCropProcessor();
    r := processor.Call(image, options, trig);
  }
}
