/** Images and face boxes as the detector and OpenCV hand them over. Pixel arithmetic is foreign
    code, so an image is either a grey-level raster (its pixels are data) or a symbolic record of
    the OpenCV call that produced it, which is enough to know its size. */
module Imaging {
  /** A face box `(x, y, w, h)` as `detectMultiScale` returns it. */
  datatype Box = Box(x: nat, y: nat, w: nat, h: nat)

  function Area(b: Box): nat {
    b.w * b.h
  }

  /** The index `max(boxes, key=lambda b: b[2] * b[3])` selects: a box of greatest area, and among
      several such boxes the first (Python's max only replaces its candidate on a strictly greater key). */
  function LargestIndex(boxes: seq<Box>): (i: nat)
    requires |boxes| > 0
    ensures i < |boxes|
    ensures forall j :: 0 <= j < |boxes| ==> Area(boxes[j]) <= Area(boxes[i])
    ensures forall j :: 0 <= j < i ==> Area(boxes[j]) < Area(boxes[i])
  {
    if |boxes| == 1 then 0
    else
      var k := LargestIndex(boxes[..|boxes| - 1]);
      if Area(boxes[|boxes| - 1]) > Area(boxes[k]) then |boxes| - 1 else k
  }

  /** The largest-looking face of a frame. */
  function Largest(boxes: seq<Box>): Box
    requires |boxes| > 0
  {
    boxes[LargestIndex(boxes)]
  }

  datatype Image =
    | Raster(width: nat, height: nat, pixels: seq<int>)      // a frame or a file as decoded, grey levels row by row
    | Crop(src: Image, box: Box)                              // `img[y:y+h, x:x+w]`
    | Resize(src: Image, newWidth: nat, newHeight: nat)       // `cv2.resize(img, (w, h))`
    | Rotate(src: Image, degrees: int)                        // `cv2.warpAffine(img, M, (w, h))` about the centre
    | ScaleAbs(src: Image, alphaPercent: nat)                 // `cv2.convertScaleAbs(img, alpha=a/100, beta=0)`
    | AddNoise(src: Image, sigma: nat)                        // `cv2.add(img, gaussian noise)`

  /** The length of the slice `[start:start+len]` of an axis of `size` entries. */
  function SliceLength(start: nat, len: nat, size: nat): (n: nat)
    ensures n <= len && (n == 0 || start + n <= size)
  {
    if start >= size then 0 else if start + len > size then size - start else len
  }

  function Width(img: Image): nat {
    match img
    case Raster(w, _, _) => w
    case Crop(src, b) => SliceLength(b.x, b.w, Width(src))
    case Resize(_, w, _) => w
    case Rotate(src, _) => Width(src)
    case ScaleAbs(src, _) => Width(src)
    case AddNoise(src, _) => Width(src)
  }

  function Height(img: Image): nat {
    match img
    case Raster(_, h, _) => h
    case Crop(src, b) => SliceLength(b.y, b.h, Height(src))
    case Resize(_, _, h) => h
    case Rotate(src, _) => Height(src)
    case ScaleAbs(src, _) => Height(src)
    case AddNoise(src, _) => Height(src)
  }
}
