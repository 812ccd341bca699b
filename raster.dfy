/**
 * Raster images as the layer store sees them: a 3-D block of 8-bit samples
 * indexed by (row, column, channel), as a numpy array of shape
 * (height, width, depth) with dtype uint8.
 */
module Raster {

  /** An unsigned 8-bit sample. */
  type Sample = x: int | 0 <= x < 256

  /** The alpha value given to every pixel of an image that arrives without one. */
  const DefaultAlpha: Sample := 128

  /** Samples are stored row by row, pixel by pixel: data[row][col][channel]. */
  datatype Image = Image(height: nat, width: nat, depth: nat, data: seq<seq<seq<Sample>>>) {

    /** The nested sequences really have the shape (height, width, depth). */
    predicate WellFormed() {
      |data| == height &&
      (forall i :: 0 <= i < height ==> |data[i]| == width) &&
      (forall i, j :: 0 <= i < height && 0 <= j < width ==> |data[i][j]| == depth)
    }

    /** The (height, width) part of the shape, `img.shape[:2]`. */
    function Dims(): (nat, nat) {
      (height, width)
    }
  }

  /** A layer as the store keeps it: its pixel block and its (top, left) placement on the canvas. */
  datatype Layer = Layer(image: Image, offset: (int, int))

  /** One channel plane, `img[..., c]`: a height x width grid of samples. */
  function Plane(img: Image, c: nat): seq<seq<Sample>>
    requires img.WellFormed() && c < img.depth
  {
    seq(img.height, i requires 0 <= i < img.height =>
      seq(img.width, j requires 0 <= j < img.width => img.data[i][j][c]))
  }

  /**
   * `rgba` is what the store makes of the 3-channel image `img`: same height
   * and width, four channels, the first three copied sample for sample and
   * the fourth constant at DefaultAlpha.
   */
  ghost predicate IsRgbaOf(img: Image, rgba: Image)
    requires img.WellFormed() && img.depth == 3
  {
    rgba.WellFormed() &&
    rgba.height == img.height && rgba.width == img.width && rgba.depth == 4 &&
    (forall i, j, c :: 0 <= i < img.height && 0 <= j < img.width && 0 <= c < 3 ==>
       rgba.data[i][j][c] == img.data[i][j][c]) &&
    (forall i, j :: 0 <= i < img.height && 0 <= j < img.width ==> rgba.data[i][j][3] == DefaultAlpha)
  }

  /**
   * Widens an RGB image to RGBA: a fresh height x width x 4 block whose first
   * three channels take the input and whose alpha channel is DefaultAlpha.
   * The zero fill and the two slice assignments become one pass that writes
   * each pixel as [r, g, b, DefaultAlpha].
   */
  method AddAlphaPlane(img: Image) returns (rgba: Image)
    requires img.WellFormed() && img.depth == 3
    ensures IsRgbaOf(img, rgba)
  {
    var rows: seq<seq<seq<Sample>>> := [];
    var i := 0;
    while i < img.height
      invariant 0 <= i <= img.height
      invariant |rows| == i
      invariant forall k :: 0 <= k < i ==> |rows[k]| == img.width
      invariant forall k, j :: 0 <= k < i && 0 <= j < img.width ==> rows[k][j] == img.data[k][j] + [DefaultAlpha]
    {
      var row: seq<seq<Sample>> := [];
      var j := 0;
      while j < img.width
        invariant 0 <= j <= img.width
        invariant |row| == j
        invariant forall m :: 0 <= m < j ==> row[m] == img.data[i][m] + [DefaultAlpha]
      {
        row := row + [img.data[i][j] + [DefaultAlpha]];
        j := j + 1;
      }
      rows := rows + [row];
      i := i + 1;
    }
    rgba := Image(img.height, img.width, 4, rows);
  }

  /** The widening of an RGB image is determined by the image: two widenings agree everywhere. */
  lemma RgbaOfUnique(img: Image, a: Image, b: Image)
    requires img.WellFormed() && img.depth == 3
    requires IsRgbaOf(img, a) && IsRgbaOf(img, b)
    ensures a == b
  {
    forall i | 0 <= i < img.height
      ensures a.data[i] == b.data[i]
    {
      forall j | 0 <= j < img.width
        ensures a.data[i][j] == b.data[i][j]
      {
        assert a.data[i][j][3] == b.data[i][j][3];
        forall c | 0 <= c < 3
          ensures a.data[i][j][c] == b.data[i][j][c]
        {
        }
      }
    }
  }

  /**
   * Channel planes of a widened image: planes 0-2 are the input's planes and
   * plane 3, the alpha plane, holds DefaultAlpha everywhere.
   */
  lemma RgbaPlanes(img: Image, rgba: Image)
    requires img.WellFormed() && img.depth == 3
    requires IsRgbaOf(img, rgba)
    ensures forall c :: 0 <= c < 3 ==> Plane(rgba, c) == Plane(img, c)
    ensures Plane(rgba, 3) == seq(img.height, i => seq(img.width, j => DefaultAlpha))
  {
    forall c | 0 <= c < 3
      ensures Plane(rgba, c) == Plane(img, c)
    {
      var p, q := Plane(rgba, c), Plane(img, c);
      forall i | 0 <= i < img.height
        ensures p[i] == q[i]
      {
      }
    }
    var p, q := Plane(rgba, 3), seq(img.height, i => seq(img.width, j => DefaultAlpha));
    forall i | 0 <= i < img.height
      ensures p[i] == q[i]
    {
    }
  }
}
