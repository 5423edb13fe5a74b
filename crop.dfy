/**
 * The crop of get_car_pic_matrix (classifier_model_creator.py:38-49):
 * `image[min_y:max_y, min_x:max_x]` on a row-major image, rows (y) first and
 * columns (x) second. Reading the file and resizing the crop are left to the
 * image library and are not part of this module.
 */
module ImageCrop {
  /** The four crop points in the order the metadata rows store them. */
  datatype CropBox = CropBox(minX: int, minY: int, maxX: int, maxY: int)

  /** Where a Python slice bound lands in a sequence of length n (step 1): negatives count from the end, and both ends clamp. */
  function SliceBound(x: int, n: nat): (b: nat)
    ensures b <= n
    ensures 0 <= x <= n ==> b == x
    ensures x > n ==> b == n
    ensures -(n as int) <= x < 0 ==> b == x + n
    ensures x < -(n as int) ==> b == 0
  {
    if x < 0 then (if x + n < 0 then 0 else x + n)
    else if x > n then n
    else x
  }

  /** The Python slice `s[lo:hi]`. */
  function Slice<T>(s: seq<T>, lo: int, hi: int): (r: seq<T>)
    ensures var a, b := SliceBound(lo, |s|), SliceBound(hi, |s|);
      |r| == (if a < b then b - a else 0) &&
      forall k :: 0 <= k < |r| ==> r[k] == s[a + k]
  {
    var a, b := SliceBound(lo, |s|), SliceBound(hi, |s|);
    if a < b then s[a..b] else []
  }

  /** Every row of `image` has `width` pixels. */
  predicate Rectangular<P>(image: seq<seq<P>>, width: nat) {
    forall y :: 0 <= y < |image| ==> |image[y]| == width
  }

  /**
   * `image[box.minY:box.maxY, box.minX:box.maxX]`. For any box, with the row
   * bounds normalised to a, b and each row's column bounds to c, d, the crop
   * has max(0, b - a) rows, row y has max(0, d - c) pixels, and its pixel x is
   * pixel (a + y, c + x) of the image.
   */
  function CropImage<P>(image: seq<seq<P>>, box: CropBox): (r: seq<seq<P>>)
    ensures var a, b := SliceBound(box.minY, |image|), SliceBound(box.maxY, |image|);
      |r| == (if a < b then b - a else 0) &&
      forall y :: 0 <= y < |r| ==>
        var c, d := SliceBound(box.minX, |image[a + y]|), SliceBound(box.maxX, |image[a + y]|);
        |r[y]| == (if c < d then d - c else 0) &&
        forall x :: 0 <= x < |r[y]| ==> r[y][x] == image[a + y][c + x]
  {
    var rows := Slice(image, box.minY, box.maxY);
    seq(|rows|, y requires 0 <= y < |rows| => Slice(rows[y], box.minX, box.maxX))
  }

  /**
   * A box inside a height-by-width image keeps `maxY - minY` rows of
   * `maxX - minX` pixels, and pixel (y, x) of the crop is pixel
   * (minY + y, minX + x) of the image: y indexes first.
   */
  lemma CropInBounds<P>(image: seq<seq<P>>, width: nat, box: CropBox)
    requires Rectangular(image, width)
    requires 0 <= box.minY <= box.maxY <= |image|
    requires 0 <= box.minX <= box.maxX <= width
    ensures |CropImage(image, box)| == box.maxY - box.minY
    ensures Rectangular(CropImage(image, box), box.maxX - box.minX)
    ensures forall y, x :: 0 <= y < box.maxY - box.minY && 0 <= x < box.maxX - box.minX ==>
      CropImage(image, box)[y][x] == image[box.minY + y][box.minX + x]
  {
  }

  /**
   * Slicing never fails: a box reaching past the bottom or right edge is
   * clipped to the image, and a box with `maxX <= minX` or `maxY <= minY`
   * gives an empty crop rather than an error.
   */
  lemma CropClips<P>(image: seq<seq<P>>, width: nat, box: CropBox)
    requires Rectangular(image, width)
    requires 0 <= box.minY && 0 <= box.maxY && 0 <= box.minX && 0 <= box.maxX
    ensures var h := if box.maxY < |image| then box.maxY else |image|;
      |CropImage(image, box)| == (if box.minY < h then h - box.minY else 0)
    ensures var w := if box.maxX < width then box.maxX else width;
      Rectangular(CropImage(image, box), if box.minX < w then w - box.minX else 0)
  {
  }
}
