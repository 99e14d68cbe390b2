/** The image library as the applications see it, reduced to sizes and modes. Pixel content
    (resampling, alpha blending, flattening, JPEG encoding) is not modelled; what is kept is
    the size every operation produces, the errors it raises, and, for the canvas that `paste`
    mutates in place, the sequence of images painted into it and where. */
module Pillow {
  import opened Python

  datatype Mode = RGB | RGBA | OtherMode(name: string)

  /** The range of a C `int`, in which the library's C layer takes every size and
      coordinate. */
  const INT_MIN: int := -0x8000_0000
  const INT_MAX: int := 0x7fff_ffff

  predicate IsCInt(n: int)
  {
    INT_MIN <= n <= INT_MAX
  }

  /** The `OverflowError` the C layer raises when handed `n` where it expects a C `int`. */
  function CIntOverflow(n: int): (e: Exception)
    requires !IsCInt(n)
    ensures e.OverflowError?
  {
    if n > INT_MAX then OverflowError("signed integer is greater than maximum")
    else OverflowError("signed integer is less than minimum")
  }

  /** One side of an image: the library stores it in a C `int`. */
  type Dim = n: int | 0 <= n <= INT_MAX

  /** An image, abstracted to its size and pixel mode. */
  datatype Image = Image(width: Dim, height: Dim, mode: Mode)

  /** A crop box `(left, upper, right, lower)`. */
  datatype Box = Box(left: int, upper: int, right: int, lower: int)

  /** One `paste` into a canvas: the image, its upper-left corner, and whether the image's
      own alpha channel was passed as the blend mask. */
  datatype Layer = Layer(source: Image, x: int, y: int, masked: bool)

  /** A flattened copy of a canvas: its size and mode, and the pastes that painted it. */
  datatype Composite = Composite(image: Image, layers: seq<Layer>)

  /** `im.convert(mode)`: a copy of the same size in the new mode. */
  function Convert(im: Image, mode: Mode): (r: Image)
    ensures r.width == im.width && r.height == im.height && r.mode == mode
  {
    im.(mode := mode)
  }

  /** Whether the C layer accepts the crop box: its four coordinates and its size fit a
      C `int`. */
  predicate CropFits(box: Box)
  {
    && IsCInt(box.left) && IsCInt(box.upper) && IsCInt(box.right) && IsCInt(box.lower)
    && box.right - box.left <= INT_MAX && box.lower - box.upper <= INT_MAX
  }

  /** `im.crop(box)`: a box may reach outside the image (the library pads), but its right
      edge may not lie left of its left edge, nor its lower edge above its upper edge, and
      it must fit the C layer's integers. */
  function Crop(im: Image, box: Box): (r: Result<Image>)
    ensures r.Ok? <==> box.left <= box.right && box.upper <= box.lower && CropFits(box)
    ensures r.Ok? ==> r.value == Image(box.right - box.left, box.lower - box.upper, im.mode)
    ensures r.Raised? ==> (r.error.ValueError? <==> box.right < box.left || box.lower < box.upper)
    ensures r.Raised? ==> r.error.ValueError? || r.error.OverflowError?
    ensures r.Raised? && r.error.OverflowError? && box.left < INT_MIN ==>
      r.error.message == "signed integer is less than minimum"
  {
    if box.right < box.left then Raised(ValueError("Coordinate 'right' is less than 'left'"))
    else if box.lower < box.upper then Raised(ValueError("Coordinate 'lower' is less than 'upper'"))
    else if !IsCInt(box.left) then Raised(CIntOverflow(box.left))
    else if !IsCInt(box.upper) then Raised(CIntOverflow(box.upper))
    else if !IsCInt(box.right) then Raised(CIntOverflow(box.right))
    else if !IsCInt(box.lower) then Raised(CIntOverflow(box.lower))
    else if !CropFits(box) then Raised(OverflowError("signed integer is greater than maximum"))
    else Ok(Image(box.right - box.left, box.lower - box.upper, im.mode))
  }

  /** Whether `im.resize((width, height))` succeeds: a request for the image's own size is
      answered with a copy; any other size needs both sides at least one pixel and at most
      the largest C `int`. */
  predicate ResizeAccepts(im: Image, width: int, height: int)
  {
    (width == im.width && height == im.height) || (1 <= width <= INT_MAX && 1 <= height <= INT_MAX)
  }

  /** `im.resize((width, height), LANCZOS)`. A size outside the C `int` range raises
      `OverflowError` when the C layer reads it; an in-range side below one raises
      `ValueError`. */
  function Resize(im: Image, width: int, height: int): (r: Result<Image>)
    ensures r.Ok? <==> ResizeAccepts(im, width, height)
    ensures r.Ok? ==> r.value.width == width && r.value.height == height && r.value.mode == im.mode
    ensures r.Raised? ==> (r.error.OverflowError? <==> !(IsCInt(width) && IsCInt(height)))
    ensures r.Raised? ==> r.error.OverflowError? || r.error.ValueError?
  {
    if width == im.width && height == im.height then Ok(im)
    else if !IsCInt(width) then Raised(CIntOverflow(width))
    else if !IsCInt(height) then Raised(CIntOverflow(height))
    else if width < 1 || height < 1 then Raised(ValueError("height and width must be > 0"))
    else Ok(Image(width, height, im.mode))
  }

  /** Whether `expanded` can be the bounding box the library computes for `im.rotate(angle,
      expand=True)` at an angle that is not a multiple of 90 degrees. Each side of that box
      is the ceiling of the rotated corners' maximum minus the floor of their minimum, so it
      is at least the rotated image's extent along that axis, and an image with both sides
      non-empty has a box with both sides non-empty. */
  predicate RotationBox(im: Image, expanded: (Dim, Dim))
  {
    im.width >= 1 && im.height >= 1 ==> expanded.0 >= 1 && expanded.1 >= 1
  }

  /** `im.rotate(angle, expand=True)`. The angle is first reduced modulo 360; a multiple of
      90 degrees is an exact transpose (a half or whole turn keeps the size, a quarter turn
      swaps the sides). For any other angle the expanded bounding box comes from
      floating-point trigonometry, which is not modelled: `expanded` is that box, except
      for an empty image, whose corners all lie at the origin and whose box is `(0, 0)`. */
  function Rotate(im: Image, angle: real, expanded: (Dim, Dim)): (r: Image)
    requires RotationBox(im, expanded)
    ensures r.mode == im.mode
    ensures Mod360(angle) in {0.0, 180.0} ==> r.width == im.width && r.height == im.height
    ensures Mod360(angle) in {90.0, 270.0} ==> r.width == im.height && r.height == im.width
    ensures im.width == 0 && im.height == 0 ==> r == im
    ensures im.width >= 1 && im.height >= 1 ==> r.width >= 1 && r.height >= 1
  {
    var a := Mod360(angle);
    if a == 0.0 || a == 180.0 then im
    else if a == 90.0 || a == 270.0 then Image(im.height, im.width, im.mode)
    else if im.width == 0 && im.height == 0 then im
    else Image(expanded.0, expanded.1, im.mode)
  }

  /** A rotation by a whole number of turns, in either direction, leaves the size alone. */
  lemma RotateWholeTurns(im: Image, turns: int, expanded: (Dim, Dim))
    requires RotationBox(im, expanded)
    ensures Rotate(im, turns as real * 360.0, expanded) == im
  {
  }

  /** The largest side the JPEG encoder (libjpeg's `JPEG_MAX_DIMENSION`) accepts. */
  const JPEG_MAX_DIMENSION: int := 65500

  /** Whether `im.save(path, "JPEG")` can encode `im`: neither side empty, neither side
      above the encoder's limit. */
  predicate JpegFits(im: Image)
  {
    1 <= im.width <= JPEG_MAX_DIMENSION && 1 <= im.height <= JPEG_MAX_DIMENSION
  }

  /** The outcome of `im.save(path, "JPEG")`. The JPEG plugin refuses an empty image with
      `ValueError` before encoding; the encoder refuses a side above its limit, which the
      library reports as `OSError`. */
  function SaveJpeg(im: Image): (r: Result<()>)
    ensures r.Ok? <==> JpegFits(im)
    ensures r.Raised? ==> (r.error.ValueError? <==> im.width == 0 || im.height == 0)
    ensures r.Raised? ==> r.error.ValueError? || r.error.OSError?
  {
    if im.width == 0 || im.height == 0 then Raised(ValueError("cannot write empty image as JPEG"))
    else if im.width > JPEG_MAX_DIMENSION || im.height > JPEG_MAX_DIMENSION then
      Raised(OSError("encoder error -2 when writing image file"))
    else Ok(())
  }

  /** Whether the C layer accepts the box `(x, y, x + width, y + height)` that `paste`
      builds from a corner and the pasted image's size. */
  predicate PasteFits(x: int, y: int, width: int, height: int)
  {
    IsCInt(x) && IsCInt(y) && IsCInt(x + width) && IsCInt(y + height)
  }

  /** Whether pasting `l` paints the canvas pixel `(px, py)`. */
  predicate Paints(l: Layer, px: int, py: int)
  {
    l.x <= px < l.x + l.source.width && l.y <= py < l.y + l.source.height
  }

  /** Every pixel of a `width` x `height` canvas is painted by `l`. */
  predicate Covers(width: nat, height: nat, l: Layer)
  {
    forall px, py :: 0 <= px < width && 0 <= py < height ==> Paints(l, px, py)
  }

  /** A paste covers a non-empty canvas exactly when the pasted rectangle contains the
      canvas's top-left and bottom-right pixels. */
  lemma CoversIff(width: nat, height: nat, l: Layer)
    requires width > 0 && height > 0
    ensures Covers(width, height, l) <==>
      l.x <= 0 && l.y <= 0 && width <= l.x + l.source.width && height <= l.y + l.source.height
  {
    if Covers(width, height, l) {
      assert Paints(l, 0, 0);
      assert Paints(l, width - 1, height - 1);
    }
  }

  /** The canvas that `Image.new(mode, size)` allocates and `paste` then draws into in
      place. Its size and mode never change after allocation. */
  class Canvas {
    var width: Dim
    var height: Dim
    var mode: Mode
    /** The pastes made so far, oldest first. */
    var layers: seq<Layer>

    /** `Image.new(mode, (width, height))`. */
    constructor New(mode: Mode, width: Dim, height: Dim)
      ensures this.width == width && this.height == height && this.mode == mode
      ensures layers == []
    {
      this.width := width;
      this.height := height;
      this.mode := mode;
      layers := [];
    }

    /** `canvas.paste(im, (x, y))`, or `canvas.paste(im, (x, y), im)` when `masked`. Parts
        of `im` outside the canvas are clipped; the canvas keeps its size and mode. The
        paste is refused with `OverflowError`, and nothing is painted, when the box it
        builds leaves the C `int` range. */
    method Paste(im: Image, x: int, y: int, masked: bool) returns (r: Result<()>)
      modifies this
      ensures width == old(width) && height == old(height) && mode == old(mode)
      ensures r.Ok? <==> PasteFits(x, y, im.width, im.height)
      ensures r.Raised? ==> r.error.OverflowError?
      ensures layers == if r.Ok? then old(layers) + [Layer(im, x, y, masked)] else old(layers)
    {
      if !IsCInt(x) {
        r := Raised(CIntOverflow(x));
      } else if !IsCInt(y) {
        r := Raised(CIntOverflow(y));
      } else if !IsCInt(x + im.width) {
        r := Raised(CIntOverflow(x + im.width));
      } else if !IsCInt(y + im.height) {
        r := Raised(CIntOverflow(y + im.height));
      } else {
        layers := layers + [Layer(im, x, y, masked)];
        r := Ok(());
      }
    }

    /** `canvas.convert(mode)`: a new image of the canvas's size holding what was painted. */
    function Flatten(mode: Mode): (r: Composite)
      reads this
      ensures r.image.width == width && r.image.height == height && r.image.mode == mode
      ensures r.layers == layers
    {
      Composite(Image(width, height, mode), layers)
    }
  }
}
