/**
 * An abstract raster image and the imaging-library calls the core makes on it.
 *
 * An image is its size, its colour mode and the sequence of library operations
 * that produced it from the decoded source. The library's pixel work is not
 * modelled; each call below fixes only what the core relies on: the size and
 * mode of its result, and that the call was made (it is appended to `history`).
 */
module Images {
  import opened Results

  datatype Size = Size(width: nat, height: nat)

  /** A crop rectangle `(x1, y1, x2, y2)` in the library's convention. */
  datatype Box = Box(x1: int, y1: int, x2: int, y2: int) {
    function Width(): int { x2 - x1 }
    function Height(): int { y2 - y1 }

    /** The rectangle lies within an image of size `s`. */
    predicate Inside(s: Size) {
      0 <= x1 <= x2 <= s.width && 0 <= y1 <= y2 <= s.height
    }
  }

  /** The lossless transpositions `Image.FLIP_*` and `Image.ROTATE_*`. */
  datatype Transposition = FlipLeftRight | FlipTopBottom | Rotate90 | Rotate180 | Rotate270

  /** One imaging-library call, as recorded in an image's history. */
  datatype Operation =
    | Transposed(how: Transposition)
    | Cropped(box: Box)
    | Resized(size: Size)
    | Rotated(degrees: int, expand: bool)
    | Converted(mode: string)
    | Composited(background: seq<int>)

  datatype Image = Image(size: Size, mode: string, history: seq<Operation>)

  /**
   * The floating-point trigonometry the model does not compute, supplied by the caller:
   * the canvas of an expanded bicubic rotation (computed by the imaging library), and the
   * two crop-size formulas of the rotate-crop processor (input size, rotated size, degrees).
   */
  datatype Trig = Trig(
    canvas: (Size, int) -> Size,
    aspectRatioCrop: (Size, Size, int) -> (int, int),
    maxAreaCrop: (Size, int) -> (int, int))

  /** `image.transpose(how)`: quarter turns swap the sides, flips and half turns keep them. */
  function Transpose(im: Image, how: Transposition): (r: Image)
    ensures r.mode == im.mode && r.history == im.history + [Transposed(how)]
    ensures how in {Rotate90, Rotate270} ==> r.size == Size(im.size.height, im.size.width)
    ensures how !in {Rotate90, Rotate270} ==> r.size == im.size
  {
    var size := if how == Rotate90 || how == Rotate270
      then Size(im.size.height, im.size.width) else im.size;
    Image(size, im.mode, im.history + [Transposed(how)])
  }

  /**
   * `image.crop(box)`: the library rejects a box whose right edge is left of its left
   * edge or whose bottom is above its top; any other box, even one reaching outside the
   * image, gives an image of the box's size.
   */
  function Crop(im: Image, box: Box): (r: Result<Image>)
    ensures r.Ok? <==> box.x1 <= box.x2 && box.y1 <= box.y2
    ensures r.Ok? ==> r.value.size == Size(box.Width(), box.Height()) && r.value.mode == im.mode
    ensures r.Ok? ==> r.value.history == im.history + [Cropped(box)]
  {
    if box.x2 < box.x1 || box.y2 < box.y1 then Err(InvertedCropBox)
    else Ok(Image(Size(box.x2 - box.x1, box.y2 - box.y1), im.mode, im.history + [Cropped(box)]))
  }

  /** `image.resize(size, Image.ANTIALIAS)`. */
  function Resize(im: Image, size: Size): (r: Image)
    ensures r.size == size && r.mode == im.mode && r.history == im.history + [Resized(size)]
  {
    Image(size, im.mode, im.history + [Resized(size)])
  }

  /** `image.rotate(degrees, Image.BICUBIC, expand)`: the canvas grows only when `expand` is set. */
  function Rotate(im: Image, degrees: int, expand: bool, trig: Trig): (r: Image)
    ensures !expand ==> r.size == im.size
    ensures expand ==> r.size == trig.canvas(im.size, degrees)
    ensures r.mode == im.mode && r.history == im.history + [Rotated(degrees, expand)]
  {
    var size := if expand then trig.canvas(im.size, degrees) else im.size;
    Image(size, im.mode, im.history + [Rotated(degrees, expand)])
  }

  /** `image.convert(mode)`. */
  function Convert(im: Image, mode: string): (r: Image)
    ensures r.size == im.size && r.mode == mode && r.history == im.history + [Converted(mode)]
  {
    Image(im.size, mode, im.history + [Converted(mode)])
  }

  /**
   * `Image.composite(rotated, Image.new('RGBA', rotated.size, color), rotated)`:
   * the rotated image laid over a solid background of the same size.
   */
  function CompositeOnColor(rotated: Image, color: seq<int>): (r: Image)
    ensures r.size == rotated.size && r.mode == "RGBA" && r.history == rotated.history + [Composited(color)]
  {
    Image(rotated.size, "RGBA", rotated.history + [Composited(color)])
  }
}
