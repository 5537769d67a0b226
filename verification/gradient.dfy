/**
 * create_gradient_image (visualization.py): an RGB strip `height` rows tall
 * and `targetWidth` columns wide in which column i carries colour i, and the
 * columns past the last colour repeat the last colour.
 */
module Gradient {
  import opened Colors

  /** Python's `img[:, x, :] = c`: every row of column `x` becomes `c`. */
  method FillColumn(img: array2<Rgb>, x: nat, c: Rgb)
    requires x < img.Length1
    modifies img
    ensures forall y :: 0 <= y < img.Length0 ==> img[y, x] == c
    ensures forall y, x' :: 0 <= y < img.Length0 && 0 <= x' < img.Length1 && x' != x ==> img[y, x'] == old(img[y, x'])
  {
    var y := 0;
    while y < img.Length0
      invariant 0 <= y <= img.Length0
      invariant forall y' :: 0 <= y' < y ==> img[y', x] == c
      invariant forall y', x' :: 0 <= y' < img.Length0 && 0 <= x' < img.Length1 && x' != x ==> img[y', x'] == old(img[y', x'])
    {
      img[y, x] := c;
      y := y + 1;
    }
  }

  method CreateGradientImage(colors: seq<Rgb>, height: nat, targetWidth: nat) returns (img: array2<Rgb>)
    ensures fresh(img)
    ensures img.Length0 == height && img.Length1 == targetWidth
    ensures colors == [] ==>
      forall y, x :: 0 <= y < height && 0 <= x < targetWidth ==> img[y, x] == Black
    ensures forall y, x :: 0 <= y < height && 0 <= x < targetWidth && x < |colors| ==> img[y, x] == colors[x]
    ensures colors != [] ==>
      forall y, x :: 0 <= y < height && |colors| <= x < targetWidth ==> img[y, x] == colors[|colors| - 1]
  {
    // np.zeros((height, target_width, 3), dtype=np.uint8)
    img := new Rgb[height, targetWidth]((y, x) => Black);
    var width := |colors|;
    if width == 0 {
      return;
    }
    var limit := if width < targetWidth then width else targetWidth;
    var i := 0;
    while i < limit
      invariant 0 <= i <= limit
      invariant img.Length0 == height && img.Length1 == targetWidth
      invariant forall y, x :: 0 <= y < height && 0 <= x < i ==> img[y, x] == colors[x]
      invariant forall y, x :: 0 <= y < height && i <= x < targetWidth ==> img[y, x] == Black
    {
      FillColumn(img, i, colors[i]);
      i := i + 1;
    }
    if width < targetWidth {
      // img[:, width:, :] = colors[-1]
      var j := width;
      while j < targetWidth
        invariant width <= j <= targetWidth
        invariant img.Length0 == height && img.Length1 == targetWidth
        invariant forall y, x :: 0 <= y < height && 0 <= x < width ==> img[y, x] == colors[x]
        invariant forall y, x :: 0 <= y < height && width <= x < j ==> img[y, x] == colors[width - 1]
      {
        FillColumn(img, j, colors[width - 1]);
        j := j + 1;
      }
    }
  }
}
