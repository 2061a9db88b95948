/** The integer geometry of the camera's area of interest (AOI): the binning
    specifier, the default size and offset, floor division into binned
    pixels, the extent check against the sensor, and the per-axis pixel
    index sequences. */
module AoiGeometry {
  import opened Wrappers

  /** Why configuring the AOI fails. The driver raises these as Python
      exceptions; the comment names the exception. */
  datatype AoiError =
    | EmptyBinning                            // `binning[0]` on "" (IndexError)
    | InvalidBinning(c: char)                 // `int(c)` of a non-digit (ValueError)
    | UnknownFeature(name: string)            // `features[name]` unregistered (KeyError)
    | ZeroBinning                             // `width //= 0` (ZeroDivisionError)
    | WidthOverflow(extent: int, limit: int)  // width extent past the sensor (ValueError)
    | HeightOverflow(extent: int, limit: int) // height extent past the sensor (ValueError)

  predicate IsDigit(c: char) {
    '0' <= c <= '9'
  }

  /** `int(spec[0])`: the binning is the first character of the specifier
      (such as "2x2"), read as a decimal digit; the rest is ignored because
      binning is equal on both axes. */
  function ParseBinning(spec: string): (r: Result<int, AoiError>)
    ensures r.Success? <==> |spec| > 0 && IsDigit(spec[0])
    ensures r.Success? ==> 0 <= r.value <= 9 && DigitChar(r.value) == spec[0]
    ensures |spec| == 0 ==> r == Failure(EmptyBinning)
    ensures |spec| > 0 && !IsDigit(spec[0]) ==> r == Failure(InvalidBinning(spec[0]))
  {
    if |spec| == 0 then Failure(EmptyBinning)
    else if !IsDigit(spec[0]) then Failure(InvalidBinning(spec[0]))
    else Success(spec[0] as int - '0' as int)
  }

  /** The decimal digit character for 0 <= d <= 9. */
  function DigitChar(d: int): (c: char)
    requires 0 <= d <= 9
    ensures IsDigit(c)
    ensures c as int - '0' as int == d
  {
    ('0' as int + d) as char
  }

  /** `f"{binning}x{binning}"`: the value written back to `aoi_binning`. */
  function FormatBinning(b: int): (s: string)
    requires 0 <= b <= 9
    ensures |s| == 3 && s[1] == 'x' && s[0] == s[2] && IsDigit(s[0])
    ensures s[0] as int - '0' as int == b
  {
    [DigitChar(b), 'x', DigitChar(b)]
  }

  /** Parsing the written-back specifier gives the binning that was written. */
  lemma BinningRoundTrip(b: int)
    requires 0 <= b <= 9
    ensures ParseBinning(FormatBinning(b)) == Success(b)
  {
  }

  /** Only the first character of the specifier is consulted: "2x4" and "2"
      configure the same binning, and the written-back specifier repeats
      that character on both axes. */
  lemma ParseReadsFirstCharOnly(spec: string, rest: string)
    requires |spec| > 0
    ensures ParseBinning(spec) == ParseBinning([spec[0]] + rest)
    ensures ParseBinning(spec).Success? ==> FormatBinning(ParseBinning(spec).value) == [spec[0], 'x', spec[0]]
  {
  }

  /** A resolved AOI: binning, and width/height in binned pixels, left/top as
      1-based sensor offsets. */
  datatype Aoi = Aoi(binning: int, width: int, left: int, height: int, top: int)

  /** The optional geometry keys of the configuration (`None` when absent). */
  datatype Request = Request(width: Option<int>, left: Option<int>, height: Option<int>, top: Option<int>)

  /** The last sensor pixel covered along one axis by `count` binned pixels
      starting at the 1-based `offset`: the end of the last binned pixel of
      the axis index. */
  function Extent(count: int, offset: int, binning: int): (e: int)
    ensures count > 0 && binning > 0 ==> e == AxisIndex(offset, count, binning)[count - 1] + binning - 1
  {
    count * binning + (offset - 1)
  }

  predicate WithinSensor(a: Aoi, maxWidth: int, maxHeight: int) {
    && Extent(a.width, a.left, a.binning) <= maxWidth
    && Extent(a.height, a.top, a.binning) <= maxHeight
  }

  /** Python's `requested // binning` for a positive divisor: the largest
      number of whole binned pixels that fit in `requested` sensor pixels. */
  function BinnedCount(requested: int, binning: int): (r: int)
    requires binning > 0
    ensures r * binning <= requested < (r + 1) * binning
  {
    requested / binning
  }

  /** The geometry before the bounds check: defaults filled in, then width
      and height floor-divided by the binning. */
  function Resolve(binning: int, req: Request, maxWidth: int, maxHeight: int): (a: Aoi)
    requires binning > 0
    ensures a.binning == binning
    ensures a.left == (if req.left.None? then 1 else req.left.value)
    ensures a.top == (if req.top.None? then 1 else req.top.value)
    ensures req.width.Some? ==> a.width * binning <= req.width.value < (a.width + 1) * binning
    ensures req.width.None? ==> a.width * binning <= maxWidth - a.left + 1 < (a.width + 1) * binning
    ensures req.height.Some? ==> a.height * binning <= req.height.value < (a.height + 1) * binning
    ensures req.height.None? ==> a.height * binning <= maxHeight - a.top + 1 < (a.height + 1) * binning
  {
    var left := req.left.GetOr(1);
    var top := req.top.GetOr(1);
    var width := req.width.GetOr(maxWidth - left + 1);
    var height := req.height.GetOr(maxHeight - top + 1);
    Aoi(binning, BinnedCount(width, binning), left, BinnedCount(height, binning), top)
  }

  /** The validated AOI for a parsed binning and the sensor's limits, or the
      error: a zero binning fails at the division, then the width extent is
      checked before the height extent. */
  function Plan(binning: int, req: Request, maxWidth: int, maxHeight: int): (r: Result<Aoi, AoiError>)
    requires binning >= 0
    ensures r.Success? ==> binning > 0 && r.value.binning == binning && WithinSensor(r.value, maxWidth, maxHeight)
    ensures binning == 0 ==> r == Failure(ZeroBinning)
  {
    if binning == 0 then Failure(ZeroBinning)
    else
      var a := Resolve(binning, req, maxWidth, maxHeight);
      var wExtent := Extent(a.width, a.left, binning);
      var hExtent := Extent(a.height, a.top, binning);
      if wExtent > maxWidth then Failure(WidthOverflow(wExtent, maxWidth))
      else if hExtent > maxHeight then Failure(HeightOverflow(hExtent, maxHeight))
      else Success(a)
  }

  /** With a positive binning the routine fails exactly when one of the two
      extents passes its sensor limit, and it reports the width first. */
  lemma PlanFailsExactlyOutOfBounds(binning: int, req: Request, maxWidth: int, maxHeight: int)
    requires binning > 0
    ensures var a := Resolve(binning, req, maxWidth, maxHeight);
            var wExtent := Extent(a.width, a.left, binning);
            var hExtent := Extent(a.height, a.top, binning);
            && (Plan(binning, req, maxWidth, maxHeight).Success? <==> WithinSensor(a, maxWidth, maxHeight))
            && (Plan(binning, req, maxWidth, maxHeight).Success? ==> Plan(binning, req, maxWidth, maxHeight).value == a)
            && (wExtent > maxWidth ==> Plan(binning, req, maxWidth, maxHeight) == Failure(WidthOverflow(wExtent, maxWidth)))
            && (wExtent <= maxWidth && hExtent > maxHeight ==> Plan(binning, req, maxWidth, maxHeight) == Failure(HeightOverflow(hExtent, maxHeight)))
  {
  }

  /** A defaulted width always fits: ((maxWidth - left + 1) // binning) * binning
      + (left - 1) <= maxWidth. */
  lemma DefaultWidthFits(binning: int, req: Request, maxWidth: int, maxHeight: int)
    requires binning > 0 && req.width.None?
    ensures var a := Resolve(binning, req, maxWidth, maxHeight);
            Extent(a.width, a.left, binning) <= maxWidth
  {
  }

  /** A defaulted height always fits, as for the width. */
  lemma DefaultHeightFits(binning: int, req: Request, maxWidth: int, maxHeight: int)
    requires binning > 0 && req.height.None?
    ensures var a := Resolve(binning, req, maxWidth, maxHeight);
            Extent(a.height, a.top, binning) <= maxHeight
  {
  }

  /** With no geometry configured, the AOI is the whole sensor from the
      top-left corner, in whole binned pixels, and the check passes. */
  lemma FullSensorByDefault(binning: int, maxWidth: int, maxHeight: int)
    requires binning > 0
    ensures Plan(binning, Request(None, None, None, None), maxWidth, maxHeight)
            == Success(Aoi(binning, maxWidth / binning, 1, maxHeight / binning, 1))
  {
  }

  /** `np.arange(start, stop, step)` for a positive step: start, start + step,
      ... for as long as the values stay below `stop`. */
  function Arange(start: int, stop: int, step: int): (r: seq<int>)
    requires step > 0
    ensures forall i :: 0 <= i < |r| ==> r[i] == start + i * step && r[i] < stop
    ensures start + |r| * step >= stop
    decreases stop - start
  {
    if start >= stop then [] else [start] + Arange(start + step, stop, step)
  }

  /** The pixel index sequence of one axis: `np.arange(offset, offset +
      count * binning, binning)`. */
  function AxisIndex(offset: int, count: int, binning: int): (r: seq<int>)
    requires binning > 0
    ensures |r| == if count < 0 then 0 else count
    ensures forall i :: 0 <= i < |r| ==> r[i] == offset + i * binning
  {
    ArangeCount(offset, count, binning);
    Arange(offset, offset + count * binning, binning)
  }

  /** For a positive b, a * b <= c * b exactly when a <= c. */
  lemma MulMonotone(a: int, c: int, b: int)
    requires b > 0
    ensures a * b <= c * b <==> a <= c
  {
  }

  /** `arange` from `offset` to `offset + count * binning` in steps of
      `binning` has one entry per step (none when the count is negative). */
  lemma ArangeCount(offset: int, count: int, binning: int)
    requires binning > 0
    ensures |Arange(offset, offset + count * binning, binning)| == if count < 0 then 0 else count
  {
    var r := Arange(offset, offset + count * binning, binning);
    var n := |r|;
    var target := if count < 0 then 0 else count;
    MulMonotone(target, n, binning);
    if n > target {
      MulMonotone(target, n - 1, binning);
      assert r[n - 1] == offset + (n - 1) * binning;
      if count < 0 {
        MulMonotone(count, 0, binning);
      }
      assert false;
    }
  }

  /** Every x index of an AOI that passed the width check lies between
      `left` and `maxWidth - binning + 1`: each binned pixel is wholly on
      the sensor. */
  lemma AxisIndexWithinSensor(offset: int, count: int, binning: int, limit: int)
    requires binning > 0
    requires Extent(count, offset, binning) <= limit
    ensures forall x :: x in AxisIndex(offset, count, binning) ==> offset <= x <= limit - binning + 1
  {
    var r := AxisIndex(offset, count, binning);
    forall i | 0 <= i < |r|
      ensures offset <= r[i] <= limit - binning + 1
    {
      MulMonotone(i + 1, count, binning);
      MulMonotone(0, i, binning);
    }
  }
}
