/**
 * A model of the hand-written parts of the stereo image corrector of a
 * Leap Motion listener: unpacking a camera's interleaved calibration buffer
 * into two coordinate maps, caching those maps after the first frame, and
 * the manual bilinear undistortion of one camera image onto a 320 x 120 grid.
 *
 * Calibration values are `real`: single-precision rounding is not modelled.
 */
module ImageCorrection {

  /** An `unsigned char` pixel. */
  newtype Byte = b: int | 0 <= b < 256

  datatype Option<T> = None | Some(value: T)

  /** The conversion of an `int` to `unsigned char`: reduction modulo 256. */
  function ToUnsignedChar(v: int): (b: Byte)
    ensures (b as int - v) % 256 == 0
  {
    (v % 256) as Byte
  }

  /** The value the slow path writes for a cell whose source lies outside the image: `-1`. */
  const Sentinel: Byte := ToUnsignedChar(-1)

  lemma SentinelIs255()
    ensures Sentinel == 255
  {
  }

  /** Round toward zero, as `truncf` and a `float`-to-`int` conversion do. */
  function Trunc(x: real): (n: int)
    ensures -1.0 < x - n as real < 1.0
    ensures x >= 0.0 ==> 0 <= n && n as real <= x
    ensures x <= 0.0 ==> n <= 0 && x <= n as real
  {
    if x >= 0.0 then x.Floor else -((-x).Floor)
  }

  /**
   * What the model sees of a camera image: the raw pixels (row-major,
   * `width` by `height`) and the calibration buffer, `distortionHeight` rows of
   * `distortionWidth` floats, each row interleaving (x, y) pairs.
   */
  datatype Image = Image(
    width: int, height: int, data: seq<Byte>,
    distortionWidth: int, distortionHeight: int, distortion: seq<real>)

  // ---------------------------------------------------------------------
  // Unpacking the calibration buffer (getDistortionMaps)
  // ---------------------------------------------------------------------

  /** Scale factors of the unpacked x and y values (the 640 x 240 destination). */
  const DestinationWidth: real := 640.0
  const DestinationHeight: real := 240.0

  /** The buffer's length is the one the camera reports, and it holds whole pairs. */
  predicate HasCalibration(image: Image)
  {
    && |image.distortion| == image.distortionWidth * image.distortionHeight
    && |image.distortion| % 2 == 0
  }

  /**
   * Component `component` (0 for x, 1 for y) of every pair of `buf`, each
   * multiplied by `scale`, with the pairs in reverse order.
   */
  function ReversedComponent(buf: seq<real>, component: nat, scale: real): (r: seq<real>)
    requires |buf| % 2 == 0 && component < 2
    ensures |r| == |buf| / 2
  {
    if buf == [] then [] else ReversedComponent(buf[2..], component, scale) + [buf[component] * scale]
  }

  /** The x-map and the y-map unpacked from a calibration buffer. */
  datatype Maps = Maps(xmap: seq<real>, ymap: seq<real>)

  function DistortionMaps(buf: seq<real>): (m: Maps)
    requires |buf| % 2 == 0
    ensures |m.xmap| == |m.ymap| == |buf| / 2
  {
    Maps(ReversedComponent(buf, 0, DestinationWidth), ReversedComponent(buf, 1, DestinationHeight))
  }

  /** Pair `k` lands in slot `|buf| / 2 - 1 - k`. */
  lemma {:induction false} ReversedComponentAt(buf: seq<real>, component: nat, scale: real, k: int)
    requires |buf| % 2 == 0 && component < 2 && 0 <= k < |buf| / 2
    ensures ReversedComponent(buf, component, scale)[|buf| / 2 - 1 - k] == buf[2 * k + component] * scale
  {
    var rest := buf[2..];
    if k > 0 {
      ReversedComponentAt(rest, component, scale, k - 1);
      assert rest[2 * (k - 1) + component] == buf[2 * k + component];
    }
  }

  lemma DistortionMapsAt(buf: seq<real>, k: int)
    requires |buf| % 2 == 0 && 0 <= k < |buf| / 2
    ensures DistortionMaps(buf).xmap[|buf| / 2 - 1 - k] == buf[2 * k] * 640.0
    ensures DistortionMaps(buf).ymap[|buf| / 2 - 1 - k] == buf[2 * k + 1] * 240.0
  {
    ReversedComponentAt(buf, 0, DestinationWidth, k);
    ReversedComponentAt(buf, 1, DestinationHeight, k);
  }

  /** Slot 0 of both maps holds the last calibration pair. */
  lemma DistortionMapsFirstSlot(buf: seq<real>)
    requires |buf| % 2 == 0 && |buf| >= 2
    ensures DistortionMaps(buf).xmap[0] == buf[|buf| - 2] * 640.0
    ensures DistortionMaps(buf).ymap[0] == buf[|buf| - 1] * 240.0
  {
    DistortionMapsAt(buf, |buf| / 2 - 1);
  }

  /**
   * Viewed as `rows` rows of `cols` pairs, the unpacked maps are the
   * calibration grid turned by 180 degrees: both the row order and the order
   * within each row are reversed.
   */
  lemma DistortionMapsRotated(buf: seq<real>, rows: int, cols: int, r: int, c: int)
    requires rows > 0 && cols > 0 && |buf| == 2 * (rows * cols)
    requires 0 <= r < rows && 0 <= c < cols
    ensures 0 <= r * cols + c < rows * cols
    ensures DistortionMaps(buf).xmap[r * cols + c] == buf[2 * ((rows - 1 - r) * cols + (cols - 1 - c))] * 640.0
    ensures DistortionMaps(buf).ymap[r * cols + c] == buf[2 * ((rows - 1 - r) * cols + (cols - 1 - c)) + 1] * 240.0
  {
    var k := (rows - 1 - r) * cols + (cols - 1 - c);
    assert (rows - 1 - r) * cols == rows * cols - cols - r * cols;
    assert r * cols <= (rows - 1) * cols by { MulMonotone(r, rows - 1, cols); }
    assert 0 <= k < rows * cols;
    assert rows * cols - 1 - k == r * cols + c;
    DistortionMapsAt(buf, k);
  }

  lemma MulMonotone(a: int, b: int, c: int)
    requires a <= b && c >= 0
    ensures a * c <= b * c
  {
    assert (b - a) * c >= 0;
  }

  /**
   * On an odd-length buffer the loop's last step (`i == |buf| - 1`) reads
   * index `i + 1 == |buf|` of the buffer and writes slot `-1` of the maps:
   * both leave their arrays.
   */
  lemma OddLengthLeavesArrays(buf: seq<real>)
    requires |buf| % 2 == 1
    ensures var i := |buf| - 1;
      && i % 2 == 0 && 0 <= i < |buf|
      && !(i + 1 < |buf|)
      && |buf| / 2 - i / 2 - 1 < 0
  {
  }

  /** The unpack loop: fills the two fresh arrays slot by slot, in reverse pair order. */
  method GetDistortionMaps(image: Image) returns (xmap: array<real>, ymap: array<real>)
    requires HasCalibration(image)
    ensures fresh(xmap) && fresh(ymap)
    ensures xmap[..] == DistortionMaps(image.distortion).xmap
    ensures ymap[..] == DistortionMaps(image.distortion).ymap
  {
    var distortionLength := image.distortionHeight * image.distortionWidth;
    var buffer := image.distortion;
    assert distortionLength == |buffer|;
    var n := distortionLength / 2;
    xmap := new real[n];
    ymap := new real[n];
    var i := 0;
    ghost var pairs := 0;  // the pairs unpacked so far: i / 2
    while i < distortionLength
      invariant 0 <= pairs <= n && i == 2 * pairs && distortionLength == 2 * n == |buffer|
      invariant forall s :: n - pairs <= s < n ==> xmap[s] == buffer[2 * (n - 1 - s)] * DestinationWidth
      invariant forall s :: n - pairs <= s < n ==> ymap[s] == buffer[2 * (n - 1 - s) + 1] * DestinationHeight
    {
      xmap[distortionLength / 2 - i / 2 - 1] := buffer[i] * DestinationWidth;
      ymap[distortionLength / 2 - i / 2 - 1] := buffer[i + 1] * DestinationHeight;
      i, pairs := i + 2, pairs + 1;
    }
    ReversedFillIsDistortionMaps(buffer, xmap[..], ymap[..]);
  }

  /** Two sequences filled pair by pair in reverse order are the unpacked maps. */
  lemma ReversedFillIsDistortionMaps(buf: seq<real>, xs: seq<real>, ys: seq<real>)
    requires |buf| % 2 == 0 && |xs| == |ys| == |buf| / 2
    requires forall s :: 0 <= s < |xs| ==> xs[s] == buf[2 * (|xs| - 1 - s)] * DestinationWidth
    requires forall s :: 0 <= s < |ys| ==> ys[s] == buf[2 * (|ys| - 1 - s) + 1] * DestinationHeight
    ensures xs == DistortionMaps(buf).xmap && ys == DistortionMaps(buf).ymap
  {
    var n := |xs|;
    forall s | 0 <= s < n
      ensures xs[s] == DistortionMaps(buf).xmap[s] && ys[s] == DistortionMaps(buf).ymap[s]
    {
      DistortionMapsAt(buf, n - 1 - s);
    }
  }

  // ---------------------------------------------------------------------
  // The compute-once map cache (onInit, correctImages)
  // ---------------------------------------------------------------------

  class SampleListener {
    var distortionInitFlag: bool
    var leftDistortionMaps: Maps
    var rightDistortionMaps: Maps
    /** The calibration buffers the cached maps were computed from. */
    ghost var leftCalibration: seq<real>
    ghost var rightCalibration: seq<real>

    /** Once the flag is set, each cached pair is the unpacking of its calibration. */
    ghost predicate Valid()
      reads this
    {
      distortionInitFlag ==>
        && |leftCalibration| % 2 == 0 && leftDistortionMaps == DistortionMaps(leftCalibration)
        && |rightCalibration| % 2 == 0 && rightDistortionMaps == DistortionMaps(rightCalibration)
    }

    /** Clears the flag, so that the next frame recomputes both maps. */
    method OnInit()
      modifies this`distortionInitFlag
      ensures Valid() && !distortionInitFlag
    {
      distortionInitFlag := false;
    }

    /**
     * The map bookkeeping of one frame: computes both pairs of maps if the
     * flag is clear (the calibrations are read only then), and returns the
     * cached pairs.
     */
    method CorrectImages(leftImage: Image, rightImage: Image) returns (leftMaps: Maps, rightMaps: Maps)
      requires Valid()
      requires !distortionInitFlag ==> HasCalibration(leftImage) && HasCalibration(rightImage)
      modifies this
      ensures Valid() && distortionInitFlag
      ensures leftMaps == leftDistortionMaps && rightMaps == rightDistortionMaps
      ensures old(distortionInitFlag) ==> unchanged(this)
      ensures !old(distortionInitFlag) ==>
        && leftDistortionMaps == DistortionMaps(leftImage.distortion)
        && rightDistortionMaps == DistortionMaps(rightImage.distortion)
        && leftCalibration == leftImage.distortion && rightCalibration == rightImage.distortion
      ensures !old(distortionInitFlag) || leftImage.distortion == old(leftCalibration) ==>
        leftMaps == DistortionMaps(leftImage.distortion)
      ensures !old(distortionInitFlag) || rightImage.distortion == old(rightCalibration) ==>
        rightMaps == DistortionMaps(rightImage.distortion)
    {
      if !distortionInitFlag {
        var lx, ly := GetDistortionMaps(leftImage);
        leftDistortionMaps := Maps(lx[..], ly[..]);
        var rx, ry := GetDistortionMaps(rightImage);
        rightDistortionMaps := Maps(rx[..], ry[..]);
        leftCalibration, rightCalibration := leftImage.distortion, rightImage.distortion;
        distortionInitFlag := true;
      }
      leftMaps, rightMaps := leftDistortionMaps, rightDistortionMaps;
    }
  }

  /**
   * The cache lasts until the next `OnInit`: only `OnInit` clears the flag
   * (`onConnect` and `onDisconnect` leave it alone). The second frame still
   * uses the maps of the first frame's calibration (its own calibration is
   * never read); after `OnInit` the third frame uses maps of its own calibration.
   */
  method CacheUntilOnInit(left1: Image, right1: Image, left2: Image, right2: Image, left3: Image, right3: Image)
    returns (secondLeft: Maps, secondRight: Maps, thirdLeft: Maps, thirdRight: Maps)
    requires HasCalibration(left1) && HasCalibration(right1)
    requires HasCalibration(left3) && HasCalibration(right3)
    ensures secondLeft == DistortionMaps(left1.distortion) && secondRight == DistortionMaps(right1.distortion)
    ensures thirdLeft == DistortionMaps(left3.distortion) && thirdRight == DistortionMaps(right3.distortion)
  {
    var listener := new SampleListener;
    listener.OnInit();
    var firstLeft, firstRight := listener.CorrectImages(left1, right1);
    secondLeft, secondRight := listener.CorrectImages(left2, right2);
    listener.OnInit();
    thirdLeft, thirdRight := listener.CorrectImages(left3, right3);
  }

  // ---------------------------------------------------------------------
  // Manual bilinear undistortion (slowInterpolation)
  // ---------------------------------------------------------------------

  /** The slow path's destination grid: 320 columns by 120 rows. */
  const SlowWidth := 320
  const SlowHeight := 120

  /** Coarse-grid column coordinate of destination column `i`. */
  function CalibrationX(i: int): (c: real)
    ensures 0 <= i < SlowWidth ==> 0.0 <= c < 63.0
    ensures i == 0 ==> c == 0.0
  {
    (63 * i) as real / 320.0
  }

  /** Coarse-grid row coordinate of destination row `j`: row 0 is grid row 62. */
  function CalibrationY(j: int): (c: real)
    ensures 0 <= j < SlowHeight ==> 0.0 < c <= 62.0
    ensures j == 0 ==> c == 62.0
  {
    62.0 * (1.0 - j as real / 120.0)
  }

  /** Fractional part toward zero. */
  function Weight(c: real): (w: real)
    ensures -1.0 < w < 1.0
    ensures c >= 0.0 ==> 0.0 <= w < 1.0
  {
    c - Trunc(c) as real
  }

  lemma GridCoordinatesInRange(i: int, j: int)
    requires 0 <= i < SlowWidth && 0 <= j < SlowHeight
    ensures 0 <= Trunc(CalibrationX(i)) <= 62 && 0 <= Trunc(CalibrationY(j)) <= 62
    ensures 0.0 <= Weight(CalibrationX(i)) < 1.0 && 0.0 <= Weight(CalibrationY(j)) < 1.0
    ensures Trunc(CalibrationX(i)) == CalibrationX(i).Floor && Trunc(CalibrationY(j)) == CalibrationY(j).Floor
  {
    assert CalibrationX(i) < 63.0;
    assert 0.0 < CalibrationY(j) <= 62.0;
  }

  /** The grid the slow path reads: at least 64 rows of 64 pairs, as the camera supplies. */
  predicate HasLeapGrid(image: Image)
  {
    && image.distortionWidth >= 128 && image.distortionHeight >= 64
    && |image.distortion| == image.distortionWidth * image.distortionHeight
  }

  /** The raw pixels fill a non-empty `width` by `height` image. */
  predicate HasPixels(image: Image)
  {
    image.width > 0 && image.height > 0 && |image.data| == image.width * image.height
  }

  predicate Interpolatable(image: Image)
  {
    HasLeapGrid(image) && HasPixels(image)
  }

  /** Position in the calibration buffer of component `c` of grid point (`x`, `y`). */
  function CornerIndex(x: int, y: int, c: int, distortionWidth: int): (k: int)
    ensures 0 <= x <= 63 && 0 <= y <= 63 && 0 <= c < 2 && distortionWidth >= 128 ==>
      0 <= k < 64 * distortionWidth
  {
    assert 0 <= y <= 63 && distortionWidth >= 128 ==> 0 <= y * distortionWidth <= 63 * distortionWidth by {
      if 0 <= y <= 63 && distortionWidth >= 128 {
        MulMonotone(y, 63, distortionWidth);
        MulMonotone(0, y, distortionWidth);
      }
    }
    x * 2 + y * distortionWidth + c
  }

  lemma CornerIndexInRange(x: int, y: int, c: int, distortionWidth: int, distortionHeight: int)
    requires 0 <= x <= 63 && 0 <= y <= 63 && 0 <= c < 2
    requires distortionWidth >= 128 && distortionHeight >= 64
    ensures 0 <= CornerIndex(x, y, c, distortionWidth) < distortionWidth * distortionHeight
  {
    MulMonotone(64, distortionHeight, distortionWidth);
  }

  /** Component `c` of grid point (`x`, `y`), as the slow path reads it. */
  function Corner(image: Image, x: int, y: int, c: int): real
    requires HasLeapGrid(image) && 0 <= x <= 63 && 0 <= y <= 63 && 0 <= c < 2
  {
    CornerIndexInRange(x, y, c, image.distortionWidth, image.distortionHeight);
    image.distortion[CornerIndex(x, y, c, image.distortionWidth)]
  }

  /** Linear interpolation from `a` (at 0) to `b` (at 1). */
  function Lerp(a: real, b: real, t: real): real
  {
    a * (1.0 - t) + b * t
  }

  /** The per-cell bilinear blend of four corner values. */
  function Blend(c1: real, c2: real, c3: real, c4: real, weightX: real, weightY: real): (r: real)
    ensures weightX == 0.0 && weightY == 0.0 ==> r == c1
  {
    c1 * (1.0 - weightX) * (1.0 - weightY) +
    c2 * weightX * (1.0 - weightY) +
    c3 * (1.0 - weightX) * weightY +
    c4 * weightX * weightY
  }

  /** The blend is interpolation along x on both rows, then along y. */
  lemma BlendIsNestedLerp(c1: real, c2: real, c3: real, c4: real, wx: real, wy: real)
    ensures Blend(c1, c2, c3, c4, wx, wy) == Lerp(Lerp(c1, c2, wx), Lerp(c3, c4, wx), wy)
  {
  }

  lemma MulNonNegative(a: real, b: real)
    requires a >= 0.0 && b >= 0.0
    ensures a * b >= 0.0
  {
  }

  lemma MulFraction(a: real, t: real)
    requires a >= 0.0 && 0.0 <= t <= 1.0
    ensures 0.0 <= a * t <= a
  {
  }

  /** For weights in [0, 1] the four coefficients are non-negative and sum to 1. */
  lemma BlendCoefficients(wx: real, wy: real)
    requires 0.0 <= wx <= 1.0 && 0.0 <= wy <= 1.0
    ensures (1.0 - wx) * (1.0 - wy) >= 0.0 && wx * (1.0 - wy) >= 0.0
    ensures (1.0 - wx) * wy >= 0.0 && wx * wy >= 0.0
    ensures (1.0 - wx) * (1.0 - wy) + wx * (1.0 - wy) + (1.0 - wx) * wy + wx * wy == 1.0
  {
    MulNonNegative(1.0 - wx, 1.0 - wy);
    MulNonNegative(wx, 1.0 - wy);
    MulNonNegative(1.0 - wx, wy);
    MulNonNegative(wx, wy);
  }

  function Min(a: real, b: real): real { if a <= b then a else b }
  function Max(a: real, b: real): real { if a <= b then b else a }

  lemma LerpBetween(a: real, b: real, t: real)
    requires 0.0 <= t <= 1.0
    ensures Min(a, b) <= Lerp(a, b, t) <= Max(a, b)
  {
    if a <= b {
      MulFraction(b - a, t);
      assert Lerp(a, b, t) == a + (b - a) * t;
    } else {
      MulFraction(a - b, 1.0 - t);
      assert Lerp(a, b, t) == b + (a - b) * (1.0 - t);
    }
  }

  /** The blended value lies between the smallest and the largest corner. */
  lemma BlendWithinCorners(c1: real, c2: real, c3: real, c4: real, wx: real, wy: real)
    requires 0.0 <= wx <= 1.0 && 0.0 <= wy <= 1.0
    ensures Min(Min(c1, c2), Min(c3, c4)) <= Blend(c1, c2, c3, c4, wx, wy)
    ensures Blend(c1, c2, c3, c4, wx, wy) <= Max(Max(c1, c2), Max(c3, c4))
  {
    BlendIsNestedLerp(c1, c2, c3, c4, wx, wy);
    LerpBetween(c1, c2, wx);
    LerpBetween(c3, c4, wx);
    LerpBetween(Lerp(c1, c2, wx), Lerp(c3, c4, wx), wy);
  }

  /** Four equal corners blend to their common value. */
  lemma BlendOfEqualCorners(c: real, wx: real, wy: real)
    ensures Blend(c, c, c, c, wx, wy) == c
  {
    BlendIsNestedLerp(c, c, c, c, wx, wy);
    LerpOfEqual(c, wx);
    LerpOfEqual(c, wy);
  }

  lemma LerpOfEqual(c: real, t: real)
    ensures Lerp(c, c, t) == c
  {
    assert c * (1.0 - t) + c * t == c * ((1.0 - t) + t);
  }

  /** A normalized source coordinate. */
  datatype Point = Point(x: real, y: real)

  /** Every calibration value lies in [0, 1]: no grid point marks an invalid pixel. */
  predicate NormalizedGrid(image: Image)
  {
    forall k :: 0 <= k < |image.distortion| ==> 0.0 <= image.distortion[k] <= 1.0
  }

  /** The blended source coordinate (dX, dY) of destination cell (`i`, `j`). */
  function SourcePoint(image: Image, i: int, j: int): (p: Point)
    requires HasLeapGrid(image) && 0 <= i < SlowWidth && 0 <= j < SlowHeight
    ensures NormalizedGrid(image) ==> GuardAsWritten(p)
  {
    GridCoordinatesInRange(i, j);
    var calibrationX := CalibrationX(i);
    var calibrationY := CalibrationY(j);
    var weightX := Weight(calibrationX);
    var weightY := Weight(calibrationY);
    var x1 := Trunc(calibrationX);
    var y1 := Trunc(calibrationY);
    var dX1, dX2, dX3, dX4 := Corner(image, x1, y1, 0), Corner(image, x1 + 1, y1, 0),
                              Corner(image, x1, y1 + 1, 0), Corner(image, x1 + 1, y1 + 1, 0);
    var dY1, dY2, dY3, dY4 := Corner(image, x1, y1, 1), Corner(image, x1 + 1, y1, 1),
                              Corner(image, x1, y1 + 1, 1), Corner(image, x1 + 1, y1 + 1, 1);
    var dX := Blend(dX1, dX2, dX3, dX4, weightX, weightY);
    var dY := Blend(dY1, dY2, dY3, dY4, weightX, weightY);
    assert NormalizedGrid(image) ==> GuardAsWritten(Point(dX, dY)) by {
      if NormalizedGrid(image) {
        NormalizedCorners(image, x1, y1, 0);
        NormalizedCorners(image, x1, y1, 1);
        BlendOfUnitCorners(dX1, dX2, dX3, dX4, weightX, weightY);
        BlendOfUnitCorners(dY1, dY2, dY3, dY4, weightX, weightY);
      }
    }
    Point(dX, dY)
  }

  /** On a normalized grid the four corners of a cell lie in [0, 1]. */
  lemma NormalizedCorners(image: Image, x: int, y: int, c: int)
    requires HasLeapGrid(image) && NormalizedGrid(image) && 0 <= x <= 62 && 0 <= y <= 62 && 0 <= c < 2
    ensures 0.0 <= Corner(image, x, y, c) <= 1.0 && 0.0 <= Corner(image, x + 1, y, c) <= 1.0
    ensures 0.0 <= Corner(image, x, y + 1, c) <= 1.0 && 0.0 <= Corner(image, x + 1, y + 1, c) <= 1.0
  {
    CornerIndexInRange(x, y, c, image.distortionWidth, image.distortionHeight);
    CornerIndexInRange(x + 1, y, c, image.distortionWidth, image.distortionHeight);
    CornerIndexInRange(x, y + 1, c, image.distortionWidth, image.distortionHeight);
    CornerIndexInRange(x + 1, y + 1, c, image.distortionWidth, image.distortionHeight);
  }

  /** Corners in [0, 1] blend to a value in [0, 1]. */
  lemma BlendOfUnitCorners(c1: real, c2: real, c3: real, c4: real, wx: real, wy: real)
    requires 0.0 <= c1 <= 1.0 && 0.0 <= c2 <= 1.0 && 0.0 <= c3 <= 1.0 && 0.0 <= c4 <= 1.0
    requires 0.0 <= wx <= 1.0 && 0.0 <= wy <= 1.0
    ensures 0.0 <= Blend(c1, c2, c3, c4, wx, wy) <= 1.0
  {
    BlendWithinCorners(c1, c2, c3, c4, wx, wy);
  }

  /** The pixel column under `p`: `denormalizedX`. */
  function Column(p: Point, width: int): (column: int)
    ensures 0.0 <= p.x < 1.0 && width > 0 ==> 0 <= column < width
    ensures p.x == 1.0 ==> column == width
  {
    assert 0.0 <= p.x < 1.0 && width > 0 ==> 0 <= Trunc(p.x * width as real) < width by {
      if 0.0 <= p.x < 1.0 && width > 0 {
        ScaledTruncBelow(p.x, width);
      }
    }
    Trunc(p.x * width as real)
  }

  /** The pixel row under `p`: `denormalizedY`. */
  function Row(p: Point, height: int): (row: int)
    ensures 0.0 <= p.y < 1.0 && height > 0 ==> 0 <= row < height
    ensures p.y == 1.0 ==> row == height
  {
    assert 0.0 <= p.y < 1.0 && height > 0 ==> 0 <= Trunc(p.y * height as real) < height by {
      if 0.0 <= p.y < 1.0 && height > 0 {
        ScaledTruncBelow(p.y, height);
      }
    }
    Trunc(p.y * height as real)
  }

  /** Row-major position in the raw pixels of the source point `p` scaled to the image. */
  function ReadIndex(p: Point, width: int, height: int): int
  {
    Column(p, width) + Row(p, height) * width
  }

  /** `p` lies inside the image: the half-open unit square. */
  predicate InImage(p: Point)
  {
    0.0 <= p.x < 1.0 && 0.0 <= p.y < 1.0
  }

  lemma ScaledTruncBelow(t: real, n: int)
    requires 0.0 <= t < 1.0 && n > 0
    ensures 0 <= Trunc(t * n as real) < n
  {
    MulFraction(n as real, t);
    assert t * n as real < n as real by {
      MulNonNegative(1.0 - t, n as real);
      assert (1.0 - t) * n as real != 0.0;
    }
  }

  lemma DivideThenScale(a: int, n: int)
    requires n > 0
    ensures (a as real / n as real) * n as real == a as real
  {
  }

  lemma RowMajorInRange(column: int, row: int, width: int, height: int)
    requires 0 <= column < width && 0 <= row < height
    ensures 0 <= column + row * width < width * height
  {
    MulMonotone(row, height - 1, width);
    MulMonotone(0, row, width);
  }

  /** Inside the image the read index is a pixel (column, row) of the image and lies in the buffer. */
  lemma ReadIndexInRange(p: Point, width: int, height: int)
    requires InImage(p) && width > 0 && height > 0
    ensures 0 <= Column(p, width) < width && 0 <= Row(p, height) < height
    ensures 0 <= ReadIndex(p, width, height) < width * height
  {
    ScaledTruncBelow(p.x, width);
    ScaledTruncBelow(p.y, height);
    RowMajorInRange(Column(p, width), Row(p, height), width, height);
  }

  /**
   * The source pixel under `p`, or the sentinel when `p` is outside the image
   * (the guard with strict upper bounds).
   */
  function Sample(raw: seq<Byte>, width: int, height: int, p: Point): (b: Byte)
    requires width > 0 && height > 0 && |raw| == width * height
    ensures InImage(p) ==>
      && 0 <= Column(p, width) < width && 0 <= Row(p, height) < height
      && 0 <= ReadIndex(p, width, height) < |raw| && b == raw[ReadIndex(p, width, height)]
    ensures !InImage(p) ==> b == 255
  {
    if InImage(p) then
      ReadIndexInRange(p, width, height);
      raw[ReadIndex(p, width, height)]
    else
      Sentinel
  }

  /** The guard of the source as written: closed upper bounds. */
  predicate GuardAsWritten(p: Point)
    ensures InImage(p) ==> GuardAsWritten(p)
    ensures GuardAsWritten(p) && !InImage(p) ==> p.x == 1.0 || p.y == 1.0
  {
    0.0 <= p.x <= 1.0 && 0.0 <= p.y <= 1.0
  }

  /**
   * The sampling step as the source writes it; `None` when the read leaves
   * the pixel buffer.
   */
  function SampleAsWritten(raw: seq<Byte>, width: int, height: int, p: Point): (r: Option<Byte>)
    requires width > 0 && height > 0 && |raw| == width * height
    ensures r.None? ==> GuardAsWritten(p) && ReadIndex(p, width, height) >= |raw|
    ensures !GuardAsWritten(p) ==> r == Some(255)
  {
    if GuardAsWritten(p) then
      var k := ReadIndex(p, width, height);
      assert k >= 0 by {
        MulNonNegative(p.x, width as real);
        MulNonNegative(p.y, height as real);
        MulMonotone(0, Row(p, height), width);
      }
      if k < |raw| then Some(raw[k]) else None
    else
      Some(Sentinel)
  }

  /** With `dY == 1` the guard lets the read go one whole image past the buffer's start: out of it. */
  lemma AsWrittenReadsPastBuffer(raw: seq<Byte>, width: int, height: int, x: real)
    requires width > 0 && height > 0 && |raw| == width * height && 0.0 <= x <= 1.0
    ensures GuardAsWritten(Point(x, 1.0))
    ensures ReadIndex(Point(x, 1.0), width, height) >= width * height
    ensures SampleAsWritten(raw, width, height, Point(x, 1.0)) == None
  {
    assert Trunc(1.0 * height as real) == height;
    MulMonotone(0, Trunc(x * width as real), 1);
  }

  /**
   * With `dX == 1` the read is the first pixel of the next row rather than a
   * pixel of row `row`.
   */
  lemma AsWrittenWrapsToNextRow(raw: seq<Byte>, width: int, height: int, row: int)
    requires width > 0 && height > 0 && |raw| == width * height && 0 <= row < height - 1
    ensures GuardAsWritten(Point(1.0, row as real / height as real))
    ensures ReadIndex(Point(1.0, row as real / height as real), width, height) == (row + 1) * width
    ensures 0 <= (row + 1) * width < |raw|
    ensures SampleAsWritten(raw, width, height, Point(1.0, row as real / height as real)) == Some(raw[(row + 1) * width])
  {
    var p := Point(1.0, row as real / height as real);
    assert p.y * height as real == row as real by {
      DivideThenScale(row, height);
    }
    assert Row(p, height) == row;
    assert Column(p, width) == width;
    assert ReadIndex(p, width, height) == (row + 1) * width;
    assert 0 <= (row + 1) * width < |raw| by {
      RowMajorInRange(0, row + 1, width, height);
    }
  }

  /** The two guards differ only on the boundary `dX == 1` or `dY == 1`. */
  lemma SampleAgreesOffBoundary(raw: seq<Byte>, width: int, height: int, p: Point)
    requires width > 0 && height > 0 && |raw| == width * height
    requires InImage(p) || !GuardAsWritten(p)
    ensures SampleAsWritten(raw, width, height, p) == Some(Sample(raw, width, height, p))
  {
    if InImage(p) {
      ReadIndexInRange(p, width, height);
    }
  }

  /** The value of destination cell (`i`, `j`): column `i`, row `j` of the 320 x 120 grid. */
  function CellValue(image: Image, i: int, j: int): (b: Byte)
    requires Interpolatable(image) && 0 <= i < SlowWidth && 0 <= j < SlowHeight
    ensures !InImage(SourcePoint(image, i, j)) ==> b == 255
    ensures InImage(SourcePoint(image, i, j)) ==>
      && 0 <= ReadIndex(SourcePoint(image, i, j), image.width, image.height) < |image.data|
      && b == image.data[ReadIndex(SourcePoint(image, i, j), image.width, image.height)]
  {
    Sample(image.data, image.width, image.height, SourcePoint(image, i, j))
  }

  /** The calibration buffer holds the pair (`x`, `y`) at every grid point. */
  predicate UniformGrid(image: Image, x: real, y: real)
  {
    forall k :: 0 <= k < |image.distortion| ==> image.distortion[k] == if k % 2 == 0 then x else y
  }

  lemma UniformCorner(image: Image, x: real, y: real, gx: int, gy: int, c: int)
    requires HasLeapGrid(image) && image.distortionWidth % 2 == 0 && UniformGrid(image, x, y)
    requires 0 <= gx <= 63 && 0 <= gy <= 63 && 0 <= c < 2
    ensures Corner(image, gx, gy, c) == if c == 0 then x else y
  {
    CornerIndexInRange(gx, gy, c, image.distortionWidth, image.distortionHeight);
    var half := image.distortionWidth / 2;
    assert gy * image.distortionWidth == 2 * (gy * half);
    assert CornerIndex(gx, gy, c, image.distortionWidth) % 2 == c;
  }

  /** On a uniform grid every cell blends to the grid's one pair. */
  lemma UniformSourcePoint(image: Image, x: real, y: real, i: int, j: int)
    requires HasLeapGrid(image) && image.distortionWidth % 2 == 0 && UniformGrid(image, x, y)
    requires 0 <= i < SlowWidth && 0 <= j < SlowHeight
    ensures SourcePoint(image, i, j) == Point(x, y)
  {
    GridCoordinatesInRange(i, j);
    var x1 := Trunc(CalibrationX(i));
    var y1 := Trunc(CalibrationY(j));
    UniformCorner(image, x, y, x1, y1, 0);
    UniformCorner(image, x, y, x1 + 1, y1, 0);
    UniformCorner(image, x, y, x1, y1 + 1, 0);
    UniformCorner(image, x, y, x1 + 1, y1 + 1, 0);
    UniformCorner(image, x, y, x1, y1, 1);
    UniformCorner(image, x, y, x1 + 1, y1, 1);
    UniformCorner(image, x, y, x1, y1 + 1, 1);
    UniformCorner(image, x, y, x1 + 1, y1 + 1, 1);
    BlendOfEqualCorners(x, Weight(CalibrationX(i)), Weight(CalibrationY(j)));
    BlendOfEqualCorners(y, Weight(CalibrationX(i)), Weight(CalibrationY(j)));
  }

  /**
   * With the same pair (x, y) at every grid point, every cell samples the one
   * source pixel under (x, y), or is the sentinel when (x, y) is outside the image.
   */
  lemma UniformCalibration(image: Image, x: real, y: real, i: int, j: int)
    requires Interpolatable(image) && image.distortionWidth % 2 == 0 && UniformGrid(image, x, y)
    requires 0 <= i < SlowWidth && 0 <= j < SlowHeight
    ensures CellValue(image, i, j) == Sample(image.data, image.width, image.height, Point(x, y))
  {
    UniformSourcePoint(image, x, y, i, j);
  }

  /**
   * The slow undistortion: fills the 320 x 120 destination cell by cell, then
   * returns it transposed (120 rows of 320 columns).
   */
  method SlowInterpolation(image: Image) returns (undistorted: array2<Byte>)
    requires Interpolatable(image)
    ensures fresh(undistorted)
    ensures undistorted.Length0 == SlowHeight && undistorted.Length1 == SlowWidth
    ensures forall j, i :: 0 <= j < SlowHeight && 0 <= i < SlowWidth ==> undistorted[j, i] == CellValue(image, i, j)
  {
    var destination := new Byte[SlowWidth, SlowHeight];
    var raw := image.data;
    var width := image.width;
    var height := image.height;
    var i := 0;
    while i < SlowWidth
      invariant 0 <= i <= SlowWidth
      invariant forall i', j' :: 0 <= i' < i && 0 <= j' < SlowHeight ==> destination[i', j'] == CellValue(image, i', j')
    {
      var j := 0;
      while j < SlowHeight
        invariant 0 <= j <= SlowHeight
        invariant forall i', j' :: 0 <= i' < i && 0 <= j' < SlowHeight ==> destination[i', j'] == CellValue(image, i', j')
        invariant forall j' :: 0 <= j' < j ==> destination[i, j'] == CellValue(image, i, j')
      {
        var calibrationX := CalibrationX(i);
        var calibrationY := CalibrationY(j);
        var weightX := Weight(calibrationX);
        var weightY := Weight(calibrationY);
        GridCoordinatesInRange(i, j);
        var x1 := Trunc(calibrationX);
        var y1 := Trunc(calibrationY);
        var x2 := x1 + 1;
        var y2 := y1 + 1;
        var dX := Blend(Corner(image, x1, y1, 0), Corner(image, x2, y1, 0),
                        Corner(image, x1, y2, 0), Corner(image, x2, y2, 0), weightX, weightY);
        var dY := Blend(Corner(image, x1, y1, 1), Corner(image, x2, y1, 1),
                        Corner(image, x1, y2, 1), Corner(image, x2, y2, 1), weightX, weightY);
        var p := Point(dX, dY);
        assert p == SourcePoint(image, i, j);
        if 0.0 <= dX < 1.0 && 0.0 <= dY < 1.0 {
          var denormalizedX := Column(p, width);
          var denormalizedY := Row(p, height);
          ReadIndexInRange(p, width, height);
          destination[i, j] := raw[denormalizedX + denormalizedY * width];
        } else {
          destination[i, j] := ToUnsignedChar(-1);
        }
        assert destination[i, j] == Sample(raw, width, height, p);
        j := j + 1;
      }
      i := i + 1;
    }
    undistorted := new Byte[SlowHeight, SlowWidth]((r, c) requires 0 <= r < SlowHeight && 0 <= c < SlowWidth reads destination => destination[c, r]);
  }
}
