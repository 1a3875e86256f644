# Stereo image correction: calibration unpacking, map cache, slow undistortion

A Dafny model of the hand-written logic in the Leap Motion stereo listener
`ImageCorrection.cpp`. The listener receives a left and a right camera image;
each image carries raw 8-bit pixels and a calibration buffer: a coarse grid of
interleaved `(x, y)` pairs of normalized source coordinates. The module
`ImageCorrection` (file `ImageCorrection.dfy`) models three parts of it:

1. **Calibration unpacking** (`getDistortionMaps`). The interleaved buffer of
   length `L` is split into an x-map and a y-map of `L/2` entries each. The
   pair order is reversed and x is scaled by 640, y by 240. `GetDistortionMaps`
   is the loop over two fresh arrays. It is proved equal to the function
   `DistortionMaps`, whose properties are proved as lemmas.
2. **The compute-once map cache** (`onInit`, `correctImages`). The class
   `SampleListener` holds the flag `distortionInitFlag` and the two cached map
   pairs. `OnInit` clears the flag. `CorrectImages` computes both pairs only
   while the flag is clear, then sets it, and otherwise leaves the object
   untouched. Ghost fields record the calibration each cached pair came from.
   The invariant `Valid()` says that the cached pairs are exactly the unpacking
   of those calibrations.
3. **Manual bilinear undistortion** (`slowInterpolation`). A 320 x 120
   destination is filled cell by cell. Each cell `(i, j)` is mapped to
   coarse-grid coordinates `63*i/320` and `62*(1 - j/120)`. The four
   surrounding grid pairs are blended bilinearly. The source pixel under the
   blended point is read, or the sentinel `-1` (255 as `unsigned char`) is
   written. The result is transposed to 120 rows of 320 columns.
   `SlowInterpolation` is the nested loop over an `array2`. `CellValue` is the
   specification of one cell.

Calibration values and weights are `real`. Truncation toward zero (`truncf`,
`float` to `int`) is written out as `Trunc`. The `unsigned char` store is
written out as `ToUnsignedChar`, a reduction modulo 256.

Two behaviours of the code are easy to misread:

- The unpacking reverses the whole flat buffer. Viewed as a grid, that turns
  the grid by 180 degrees: the row order AND the order within each row are
  reversed (`DistortionMapsRotated`). It is not a row flip alone.
- The slow path's out-of-image sentinel is `(unsigned char)-1`, which is 255.
  The library remap of `correctImages` fills with 0 instead; it is not modelled.

## Model

| member | source | states |
|---|---|---|
| `ImageCorrection.ToUnsignedChar` | C++/ImageProcessing/ImageProcessing/ImageCorrection.cpp:201 | The stored byte is congruent to the int modulo 256. |
| `ImageCorrection.SentinelIs255` | C++/ImageProcessing/ImageProcessing/ImageCorrection.cpp:201 | Storing `-1` in an `unsigned char` cell gives 255. |
| `ImageCorrection.Trunc` | C++/ImageProcessing/ImageProcessing/ImageCorrection.cpp:168-172 | Rounding toward zero: the result is within 1 of its argument, has the argument's sign, and is no farther from zero. |
| `ImageCorrection.ReversedComponent` | C++/ImageProcessing/ImageProcessing/ImageCorrection.cpp:64-68 | One component of every pair, scaled and in reverse pair order, has exactly `L/2` entries. |
| `ImageCorrection.DistortionMaps` | C++/ImageProcessing/ImageProcessing/ImageCorrection.cpp:62-69 | Both unpacked maps have `L/2` entries. |
| `ImageCorrection.ReversedComponentAt` | C++/ImageProcessing/ImageProcessing/ImageCorrection.cpp:66-68 | Pair `k` lands in slot `L/2-1-k`, scaled. |
| `ImageCorrection.DistortionMapsAt` | C++/ImageProcessing/ImageProcessing/ImageCorrection.cpp:66-68 | For every pair index `k`: `xmap[L/2-1-k] = buf[2k]*640` and `ymap[L/2-1-k] = buf[2k+1]*240`. |
| `ImageCorrection.DistortionMapsFirstSlot` | C++/ImageProcessing/ImageProcessing/ImageCorrection.cpp:67-68 | Slot 0 of both maps holds the last calibration pair. |
| `ImageCorrection.DistortionMapsRotated` | C++/ImageProcessing/ImageProcessing/ImageCorrection.cpp:66-71 | Read as `distortionHeight` rows of `distortionWidth/2` entries, the maps are the calibration grid turned by 180 degrees. |
| `ImageCorrection.OddLengthLeavesArrays` | C++/ImageProcessing/ImageProcessing/ImageCorrection.cpp:62-68 | For a buffer of odd length the last step's read index `i + 1` equals the buffer's length and its write slot is negative, so evenness is required. |
| `ImageCorrection.GetDistortionMaps` | C++/ImageProcessing/ImageProcessing/ImageCorrection.cpp:58-69 | The two arrays are freshly allocated. The loop fills every slot of both, in bounds, and the arrays equal `DistortionMaps` of the buffer. |
| `ImageCorrection.SampleListener.Valid` | C++/ImageProcessing/ImageProcessing/ImageCorrection.cpp:30-32 | The invariant over the flag and the two cached pairs: once the flag is set, each cached pair is the unpacking of the calibration it was computed from. `OnInit` establishes it and `CorrectImages` keeps it. |
| `ImageCorrection.SampleListener.OnInit` | C++/ImageProcessing/ImageProcessing/ImageCorrection.cpp:41-44 | The flag is cleared, the cache invariant holds, and the cached maps are not touched. |
| `ImageCorrection.SampleListener.CorrectImages` | C++/ImageProcessing/ImageProcessing/ImageCorrection.cpp:77-91 | Afterwards the flag is set. With the flag clear, both pairs are recomputed from the images' calibrations, the only case that needs them. With the flag set, nothing changes. The returned pairs are the cached ones, and they equal a fresh unpacking whenever the calibration is the one cached. |
| `ImageCorrection.CacheUntilOnInit` | C++/ImageProcessing/ImageProcessing/ImageCorrection.cpp:83-87 | A second frame still uses the first frame's maps, whatever its own calibration. Only after `OnInit` does the next frame use maps of its own calibration. |
| `ImageCorrection.CalibrationX` | C++/ImageProcessing/ImageProcessing/ImageCorrection.cpp:166 | `63*i/320` lies in `[0, 63)` for every destination column, and is 0 at column 0. Bounds of its truncation: `GridCoordinatesInRange`. |
| `ImageCorrection.CalibrationY` | C++/ImageProcessing/ImageProcessing/ImageCorrection.cpp:167 | `62*(1 - j/120)` lies in `(0, 62]` for every destination row, and is 62 at row 0. Bounds of its truncation: `GridCoordinatesInRange`. |
| `ImageCorrection.Weight` | C++/ImageProcessing/ImageProcessing/ImageCorrection.cpp:168-169 | The weight `c - truncf(c)` lies in `(-1, 1)`, and in `[0, 1)` for non-negative `c`. |
| `ImageCorrection.GridCoordinatesInRange` | C++/ImageProcessing/ImageProcessing/ImageCorrection.cpp:166-174 | For every destination cell, `0 <= x1, y1 <= 62` (so `x2, y2 <= 63`), truncation equals floor, and both weights lie in `[0, 1)`. |
| `ImageCorrection.CornerIndex` | C++/ImageProcessing/ImageProcessing/ImageCorrection.cpp:175-182 | The read index `x*2 + y*distortionWidth (+1)` of a grid point with `x, y <= 63` lies in `[0, 64*distortionWidth)`. |
| `ImageCorrection.Corner` | C++/ImageProcessing/ImageProcessing/ImageCorrection.cpp:175-182 | One corner read of the buffer. It is in bounds by `CornerIndexInRange`; on a uniform grid it is that grid's x or y value by `UniformCorner`; on a normalized grid it is in `[0, 1]` by `NormalizedCorners`. |
| `ImageCorrection.CornerIndexInRange` | C++/ImageProcessing/ImageProcessing/ImageCorrection.cpp:175-182 | Every corner read `x*2 + y*distortionWidth (+1)` lies inside a grid of at least 64 rows of 64 pairs. |
| `ImageCorrection.Blend` | C++/ImageProcessing/ImageProcessing/ImageCorrection.cpp:184-192 | With both weights 0 the blend is the first corner. Its coefficients: `BlendCoefficients`; its range: `BlendWithinCorners`; equal corners: `BlendOfEqualCorners`. |
| `ImageCorrection.BlendIsNestedLerp` | C++/ImageProcessing/ImageProcessing/ImageCorrection.cpp:184-192 | The blend equals linear interpolation along x on both grid rows, then along y. |
| `ImageCorrection.BlendCoefficients` | C++/ImageProcessing/ImageProcessing/ImageCorrection.cpp:184-192 | For weights in `[0, 1]` the four coefficients are non-negative and sum to 1. |
| `ImageCorrection.BlendWithinCorners` | C++/ImageProcessing/ImageProcessing/ImageCorrection.cpp:184-192 | The blended value lies between the smallest and the largest of its four corners. |
| `ImageCorrection.BlendOfEqualCorners` | C++/ImageProcessing/ImageProcessing/ImageCorrection.cpp:184-192 | Four equal corners blend to their common value. |
| `ImageCorrection.BlendOfUnitCorners` | C++/ImageProcessing/ImageProcessing/ImageCorrection.cpp:184-192 | Corners in `[0, 1]` blend to a value in `[0, 1]`. |
| `ImageCorrection.NormalizedCorners` | C++/ImageProcessing/ImageProcessing/ImageCorrection.cpp:175-182 | When every calibration value is in `[0, 1]`, so are the four corners of every cell. |
| `ImageCorrection.SourcePoint` | C++/ImageProcessing/ImageProcessing/ImageCorrection.cpp:166-192 | The blended point `(dX, dY)` of a cell. When every calibration value is in `[0, 1]`, it passes the source's guard. On a uniform grid it is the grid's pair (`UniformSourcePoint`). |
| `ImageCorrection.Column` | C++/ImageProcessing/ImageProcessing/ImageCorrection.cpp:195 | `denormalizedX` is in `[0, width)` for `0 <= dX < 1`, and equals `width` at `dX = 1`. |
| `ImageCorrection.Row` | C++/ImageProcessing/ImageProcessing/ImageCorrection.cpp:196 | `denormalizedY` is in `[0, height)` for `0 <= dY < 1`, and equals `height` at `dY = 1`. |
| `ImageCorrection.ReadIndex` | C++/ImageProcessing/ImageProcessing/ImageCorrection.cpp:198 | The read index `denormalizedX + denormalizedY*width`. It is in the buffer inside the image (`ReadIndexInRange`) and leaves it at `dY = 1` (`AsWrittenReadsPastBuffer`). |
| `ImageCorrection.ReadIndexInRange` | C++/ImageProcessing/ImageProcessing/ImageCorrection.cpp:194-198 | For `0 <= dX, dY < 1`, `denormalizedX < width`, `denormalizedY < height`, and the read index lies in `[0, width*height)`. |
| `ImageCorrection.Sample` | C++/ImageProcessing/ImageProcessing/ImageCorrection.cpp:194-202 | With the corrected half-open guard (see Findings): inside the image the cell takes the raw pixel at (column, row) under the point. Outside it, the cell is 255. |
| `ImageCorrection.GuardAsWritten` | C++/ImageProcessing/ImageProcessing/ImageCorrection.cpp:194 | The source's closed guard admits every in-image point, and admits a point outside the image only when `dX = 1` or `dY = 1`. |
| `ImageCorrection.SampleAsWritten` | C++/ImageProcessing/ImageProcessing/ImageCorrection.cpp:194-202 | With the source's closed guard, a read can leave the buffer only when the guard admitted the point. A point outside the guard gives 255. |
| `ImageCorrection.AsWrittenReadsPastBuffer` | C++/ImageProcessing/ImageProcessing/ImageCorrection.cpp:194-198 | With `dY = 1` the guard passes and the read index is at least `width*height`. |
| `ImageCorrection.AsWrittenWrapsToNextRow` | C++/ImageProcessing/ImageProcessing/ImageCorrection.cpp:194-198 | With `dX = 1` the guard passes and the read is the first pixel of the next row. |
| `ImageCorrection.SampleAgreesOffBoundary` | C++/ImageProcessing/ImageProcessing/ImageCorrection.cpp:194-202 | Apart from the edge `dX = 1` or `dY = 1`, the corrected guard and the written guard give the same cell. |
| `ImageCorrection.CellValue` | C++/ImageProcessing/ImageProcessing/ImageCorrection.cpp:164-202 | With the corrected half-open guard (see Findings): a cell whose blended point is outside the image is 255. Otherwise it is the raw pixel at the in-bounds read index (`Sample`). On a uniform grid every cell is the same sample (`UniformCalibration`). |
| `ImageCorrection.UniformSourcePoint` | C++/ImageProcessing/ImageProcessing/ImageCorrection.cpp:175-192 | When every grid point holds the same pair, every cell's blended point is that pair. |
| `ImageCorrection.UniformCalibration` | C++/ImageProcessing/ImageProcessing/ImageCorrection.cpp:164-202 | When every grid point holds the same pair, every cell is the one source pixel under it, or the sentinel. |
| `ImageCorrection.SlowInterpolation` | C++/ImageProcessing/ImageProcessing/ImageCorrection.cpp:145-208 | The result is a fresh array. All 320 x 120 cells are written. The result has 120 rows and 320 columns, with `out[j][i]` the value of destination cell `(i, j)`. |

## Findings

| source | as written | input that shows it | evidently intended | confidence | as-written member | corrected member |
|---|---|---|---|---|---|---|
| C++/ImageProcessing/ImageProcessing/ImageCorrection.cpp:194-198 | guard `dY <= 1`, then `raw[denormalizedX + denormalizedY*width]` | all four y corners of a cell equal 1.0, so `dY = 1`: `denormalizedY = height` and the index is at least `width*height`, past the pixel buffer | sample only when `0 <= dY < 1` | high that the read is out of bounds for that input, medium that the camera supplies exactly 1.0; not executed | `SampleAsWritten`, `AsWrittenReadsPastBuffer` | `Sample`, `ReadIndexInRange` |
| C++/ImageProcessing/ImageProcessing/ImageCorrection.cpp:194-198 | guard `dX <= 1`, then `raw[denormalizedX + denormalizedY*width]` | `dX = 1`, `dY = row/height` with `row < height - 1`: `denormalizedX = width`, and the read is pixel 0 of row `row + 1` | sample only when `0 <= dX < 1` | high for that input, medium that it arises; not executed | `SampleAsWritten`, `AsWrittenWrapsToNextRow` | `Sample`, `SampleAgreesOffBoundary` |

`SlowInterpolation` and `CellValue` use the corrected guard (`dX < 1`,
`dY < 1`). The written guard's out-of-buffer read has no value that could be
modelled.

## Left out

- The library calls `resize`, `remap`, `transpose`, `StereoBM`, `StereoVar` and `normalize` are foreign code. `getDisparityMap` and `getSteroVar` hold nothing but such calls and parameter constants. The maps are modelled up to the unpacking, and the `resize` to 640 x 240 is not modelled. `CorrectImages` caches and returns the unpacked maps from which the source's `resize` builds the maps `remap` uses, not the resized maps and not the remapped images. The slow path's final `transpose` is stated by its result: `out[j][i] = destination[i][j]`.
- Listener callbacks other than `onInit`, the per-frame dispatch and image validity check in `onFrame`, the display windows, console output, `main` and its policy flag are event plumbing and I/O.
- The unused name tables `fingerNames`, `boneNames` and `stateNames` are not modelled.
- The shape quirks of the `Mat` objects in `correctImages` are not modelled: the destinations are 640 rows by 240 columns, and the right source uses the left image's height. Their effect depends on how the library reallocates.
- Single-precision rounding is not captured: values are exact reals. The `float` to `int` conversion of out-of-range values is not captured either.
- `SampleListener.CorrectImages` requires `Valid()`. The source relies on `onInit` having run before the first frame, which the camera service guarantees. A listener that was never initialised has an unspecified flag, in the source as in the model.
- `GetDistortionMaps` requires a calibration buffer of `distortionWidth * distortionHeight` values, an even number (`HasCalibration`); `OddLengthLeavesArrays` shows why the loop needs it. `SampleListener.CorrectImages` requires the same of both images only when the flag is clear, the one case in which it reads them. The source relies on the camera for this.
- `SlowInterpolation` requires a grid of at least 64 rows of 64 pairs (`distortionWidth >= 128`, `distortionHeight >= 64`), which is what the camera supplies. The source reads that grid without checking its size.
- `Sample`, `CellValue` and `SlowInterpolation` follow the corrected guard (`dX < 1`, `dY < 1`), not the source's `dX <= 1`, `dY <= 1`; see Findings. The as-written guard is modelled by `SampleAsWritten`.
- `onConnect` and `onDisconnect` (C++/ImageProcessing/ImageProcessing/ImageCorrection.cpp:46-52) only print a line and leave `distortionInitFlag` alone, so the source keeps the cached maps across a reconnect; only `onInit` clears them (`CacheUntilOnInit`).
