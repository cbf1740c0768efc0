/**
 * DataSet.py: a plotable data set with its line fit. The curve fit itself
 * (scipy's curve_fit), the fitted line's samples, the equation text and
 * the parameter standard deviations are not part of this model: the fitted
 * slope and intercept are arguments of the constructor.
 */
module DataSets {
  import opened Wrappers
  import opened PySeq
  import opened FitFunctions
  import opened PlotSettings
  import opened Text
  import opened DensityCommon
  import DensityCalculations

  /** `np.where(bfield == value)[0][0]`: the first position holding `value`; IndexError when there is none. */
  function FindInBfieldArray(bfield: seq<real>, value: real): (r: Result<nat>)
    ensures r.Ok? ==> r.value < |bfield| && bfield[r.value] == value
    ensures r.Ok? ==> forall j :: 0 <= j < r.value ==> bfield[j] != value
    ensures r.Err? <==> forall j :: 0 <= j < |bfield| ==> bfield[j] != value
    ensures r.Err? ==> r.error.IndexError?
  {
    if |bfield| == 0 then Err(IndexError("np.where(...)[0][0]"))
    else if bfield[0] == value then Ok(0)
    else
      match FindInBfieldArray(bfield[1..], value)
      case Err(e) => Err(e)
      case Ok(j) => Ok(j + 1)
  }

  /** The squared, error-weighted residuals of the points about the line y = a x + b. */
  function WeightedResiduals(x: seq<real>, y: seq<real>, yErr: seq<real>, a: real, b: real): (terms: seq<real>)
    requires |y| == |x| && |yErr| == |x|
    requires forall k :: 0 <= k < |x| ==> yErr[k] != 0.0
    ensures |terms| == |x|
    ensures forall k :: 0 <= k < |x| ==> terms[k] >= 0.0
    ensures forall k :: 0 <= k < |x| ==> (terms[k] == 0.0 <==> y[k] == Line(x[k], a, b))
  {
    seq(|x|, k requires 0 <= k < |x| =>
      var r := (y[k] - Line(x[k], a, b)) / yErr[k];
      assert r == 0.0 <==> y[k] == Line(x[k], a, b) by {
        if r == 0.0 {
          assert y[k] - Line(x[k], a, b) == r * yErr[k];
        }
      }
      r * r)
  }

  /**
   * get_chi_squared_linefit on parallel arrays: the sum of the squared,
   * error-weighted residuals. A zero error makes numpy divide by zero, and
   * the result is not a finite number: `None`.
   */
  function ChiSquaredLinefit(x: seq<real>, y: seq<real>, yErr: seq<real>, a: real, b: real): (r: Option<real>)
    requires |y| == |x| && |yErr| == |x|
    ensures r.Some? <==> forall k :: 0 <= k < |x| ==> yErr[k] != 0.0
    ensures r.Some? ==> r.value >= 0.0
    ensures r.Some? ==> (r.value == 0.0 <==> forall k :: 0 <= k < |x| ==> y[k] == Line(x[k], a, b))
  {
    if forall k :: 0 <= k < |x| ==> yErr[k] != 0.0 then
      var terms := WeightedResiduals(x, y, yErr, a, b);
      SumNonNegative(terms);
      SumZeroIff(terms);
      Some(Sum(terms))
    else None
  }

  /**
   * The slice bounds data_subset_bfield picks, given as field values: the
   * first occurrence of value1 is looked up before the kind is examined.
   * "before" stops just after it, "after" stops at length - 1 (one short
   * of the end), "between" stops just after the first occurrence of
   * value2. An absent value is an IndexError; an unknown kind leaves
   * start_index unassigned.
   */
  function BfieldBounds(bfield: seq<real>, kind: string, value1: real, value2: Option<real>): (r: Result<(int, int)>)
    ensures FindInBfieldArray(bfield, value1).Err? ==> r == Err(FindInBfieldArray(bfield, value1).error)
    ensures r.Ok? ==> kind == "before" || kind == "after" || kind == "between"
    ensures r.Ok? ==> var loc := FindInBfieldArray(bfield, value1).value;
                      r.value.0 == (if kind == "before" then 0 else loc)
    ensures r.Ok? && kind == "after" ==> r.value.1 == |bfield| - 1
  {
    match FindInBfieldArray(bfield, value1)
    case Err(e) => Err(e)
    case Ok(loc1) =>
      if kind == "before" then Ok((0, loc1 + 1))
      else if kind == "after" then Ok((loc1, |bfield| - 1))
      else if kind == "between" then
        if value2.None? then Err(IndexError("np.where(bfield == None)[0][0]"))
        else
          match FindInBfieldArray(bfield, value2.value)
          case Err(e) => Err(e)
          case Ok(loc2) => Ok((loc1, loc2 + 1))
      else Err(UnboundLocalError("start_index"))
  }

  /**
   * The slice bounds data_subset_index picks: "before" and "after" take
   * index1 as a position, but "between" looks index2 up as a field value.
   */
  function IndexBounds(bfield: seq<real>, kind: string, index1: int, index2: Option<real>): (r: Result<(int, int)>)
    ensures r.Ok? ==> r.value.0 == (if kind == "before" then 0 else index1)
    ensures kind == "before" ==> r == Ok((0, index1 + 1))
    ensures kind == "after" ==> r == Ok((index1, |bfield|))
    ensures kind == "between" && index2.Some? ==>
              (r.Ok? <==> FindInBfieldArray(bfield, index2.value).Ok?)
              && (r.Ok? ==> r.value.1 == FindInBfieldArray(bfield, index2.value).value + 1)
  {
    if kind == "before" then Ok((0, index1 + 1))
    else if kind == "after" then Ok((index1, |bfield|))
    else if kind == "between" then
      if index2.None? then Err(IndexError("np.where(bfield == None)[0][0]"))
      else
        match FindInBfieldArray(bfield, index2.value)
        case Err(e) => Err(e)
        case Ok(loc2) => Ok((index1, loc2 + 1))
    else Err(UnboundLocalError("start_index"))
  }

  /** "after" by field value drops the last point: with distinct fields it keeps value1 up to, not including, the last. */
  lemma AfterBfieldDropsLast(bfield: seq<real>, k: nat)
    requires k < |bfield|
    requires forall j :: 0 <= j < k ==> bfield[j] != bfield[k]
    ensures var r := BfieldBounds(bfield, "after", bfield[k], None);
            r == Ok((k, |bfield| - 1)) && Slice(bfield, r.value.0, r.value.1) == bfield[k..|bfield| - 1]
  {
    SliceInRange(bfield, k, |bfield| - 1);
  }

  /**
   * "between" by index includes both ends: from position index1 up to and
   * including the first position holding the field value index2.
   */
  lemma BetweenIncludesBothEnds(bfield: seq<real>, index1: nat, k: nat)
    requires index1 <= k < |bfield|
    requires forall j :: 0 <= j < k ==> bfield[j] != bfield[k]
    ensures var r := IndexBounds(bfield, "between", index1, Some(bfield[k]));
            r == Ok((index1, k + 1)) && Slice(bfield, index1, k + 1) == bfield[index1..k + 1]
            && bfield[index1] == Slice(bfield, index1, k + 1)[0] && bfield[k] == Last(Slice(bfield, index1, k + 1))
  {
    SliceInRange(bfield, index1, k + 1);
  }

  /** A plotable data set with the slope and intercept of its line fit. */
  class DataSet {
    var plotdata: Plotable
    var slope: real
    var intercept: real

    /** DataSet(plotdata, ...), with the fit coefficients given instead of computed. */
    constructor(plotdata: Plotable, slope: real, intercept: real)
      ensures this.plotdata == plotdata && this.slope == slope && this.intercept == intercept
    {
      this.plotdata := plotdata;
      this.slope := slope;
      this.intercept := intercept;
    }

    /** get_chi_squared_linefit for this set's data and fit. */
    function GetChiSquaredLinefit(): (r: Option<real>)
      reads this, plotdata
      requires |plotdata.y| == |plotdata.x| && |plotdata.yError| == |plotdata.x|
      ensures r == ChiSquaredLinefit(plotdata.x, plotdata.y, plotdata.yError, slope, intercept)
      ensures r.Some? ==> r.value >= 0.0
    {
      ChiSquaredLinefit(plotdata.x, plotdata.y, plotdata.yError, slope, intercept)
    }

    /** find_in_Bfield_array on this set's fields. */
    function FindInBfield(value: real): (r: Result<nat>)
      reads this, plotdata
      ensures r.Ok? ==> r.value < |plotdata.x| && plotdata.x[r.value] == value
    {
      FindInBfieldArray(plotdata.x, value)
    }

    /**
     * The subset methods: a new plotable with the wavelength and optical
     * length copied and all four arrays sliced with the same bounds; the
     * data set is not modified.
     */
    method SubsetWith(bounds: Result<(int, int)>) returns (r: Result<Plotable>)
      ensures r.Err? <==> bounds.Err?
      ensures r.Err? ==> r.error == bounds.error
      ensures r.Ok? ==>
                var (a, b) := bounds.value;
                fresh(r.value)
                && r.value.x == Slice(plotdata.x, a, b) && r.value.y == Slice(plotdata.y, a, b)
                && r.value.xError == Slice(plotdata.xError, a, b) && r.value.yError == Slice(plotdata.yError, a, b)
                && r.value.laserWavelength == plotdata.laserWavelength
                && r.value.opticalLength == plotdata.opticalLength
    {
      var subset := new Plotable.WithoutErrors([], [], plotdata.laserWavelength, plotdata.opticalLength);
      if bounds.Err? {
        return Err(bounds.error);
      }
      var (startIndex, stopIndex) := bounds.value;
      subset.x := Slice(plotdata.x, startIndex, stopIndex);
      subset.y := Slice(plotdata.y, startIndex, stopIndex);
      subset.xError := Slice(plotdata.xError, startIndex, stopIndex);
      subset.yError := Slice(plotdata.yError, startIndex, stopIndex);
      return Ok(subset);
    }

    /** data_subset_bfield: the subset between field values. */
    method DataSubsetBfield(kind: string, value1: real, value2: Option<real>) returns (r: Result<Plotable>)
      ensures r.Err? <==> BfieldBounds(plotdata.x, kind, value1, value2).Err?
      ensures r.Ok? ==>
                var (a, b) := BfieldBounds(plotdata.x, kind, value1, value2).value;
                fresh(r.value)
                && r.value.x == Slice(plotdata.x, a, b) && r.value.y == Slice(plotdata.y, a, b)
                && r.value.xError == Slice(plotdata.xError, a, b) && r.value.yError == Slice(plotdata.yError, a, b)
                && r.value.laserWavelength == plotdata.laserWavelength
                && r.value.opticalLength == plotdata.opticalLength
    {
      r := SubsetWith(BfieldBounds(plotdata.x, kind, value1, value2));
    }

    /** data_subset_index: the subset between positions (and, for "between", a field value). */
    method DataSubsetIndex(kind: string, index1: int, index2: Option<real>) returns (r: Result<Plotable>)
      ensures r.Err? <==> IndexBounds(plotdata.x, kind, index1, index2).Err?
      ensures r.Ok? ==>
                var (a, b) := IndexBounds(plotdata.x, kind, index1, index2).value;
                fresh(r.value)
                && r.value.x == Slice(plotdata.x, a, b) && r.value.y == Slice(plotdata.y, a, b)
                && r.value.xError == Slice(plotdata.xError, a, b) && r.value.yError == Slice(plotdata.yError, a, b)
                && r.value.laserWavelength == plotdata.laserWavelength
                && r.value.opticalLength == plotdata.opticalLength
    {
      r := SubsetWith(IndexBounds(plotdata.x, kind, index1, index2));
    }

    /**
     * calculate_rb_density: the magnitude of the density for the fitted
     * slope, and the magnitude of the density for the mean rotation error;
     * the error is `None` (NaN) when there are no errors to average.
     */
    function CalculateRbDensity(): (r: (real, Option<real>))
      reads this, plotdata
      requires plotdata.opticalLength != 0.0 && plotdata.laserWavelength != 0.0
      ensures r.0 >= 0.0 && (r.1.Some? ==> r.1.value >= 0.0)
      ensures r.1.None? <==> |plotdata.yError| == 0
      ensures r.0 == DensityMagnitude(slope, plotdata.opticalLength, plotdata.laserWavelength)
      ensures r.1.Some? ==>
                r.1.value == DensityMagnitude(Mean(plotdata.yError).value, plotdata.opticalLength, plotdata.laserWavelength)
    {
      var ol := plotdata.opticalLength;
      var wl := plotdata.laserWavelength;
      var err := Mean(plotdata.yError);
      (DensityMagnitude(slope, ol, wl), if err.Some? then Some(DensityMagnitude(err.value, ol, wl)) else None)
    }
  }

  /** `abs(rb_density(slope, optical_path, wavelength))`. */
  function DensityMagnitude(slope: real, oLen: real, wavelength: real): (d: real)
    requires oLen != 0.0 && wavelength != 0.0
    ensures d >= 0.0
    ensures d == 0.0 <==> DensityCalculations.RbDensity(slope, oLen, wavelength) == 0.0
  {
    Abs(DensityCalculations.RbDensity(slope, oLen, wavelength))
  }

  /** The reported density scales with the magnitude of the slope: |rb_density(a s)| = |a| |rb_density(s)|. */
  lemma DensityMagnitudeScales(a: real, s: real, oLen: real, wavelength: real)
    requires oLen != 0.0 && wavelength != 0.0
    ensures DensityMagnitude(a * s, oLen, wavelength) == Abs(a) * DensityMagnitude(s, oLen, wavelength)
  {
    var delta := DensityCalculations.DeltaTerm(wavelength);
    DensityLinear(s, 0.0, a, oLen, delta);
    DensityLinear(0.0, 0.0, 1.0, oLen, delta);
    var d := DensityCalculations.RbDensity(s, oLen, wavelength);
    assert DensityCalculations.RbDensity(a * s, oLen, wavelength) == a * d;
    AbsProduct(a, d);
  }

  /** |a b| = |a| |b|. */
  lemma AbsProduct(a: real, b: real)
    ensures Abs(a * b) == Abs(a) * Abs(b)
  {
    if a < 0.0 && b >= 0.0 {
      assert a * b <= 0.0 by { ProductNonNegative(-a, b); }
    } else if a >= 0.0 && b < 0.0 {
      assert a * b <= 0.0 by { ProductNonNegative(a, -b); }
    } else if a < 0.0 && b < 0.0 {
      assert a * b > 0.0 by { ProductPositive(-a, -b); }
    } else {
      ProductNonNegative(a, b);
    }
  }
}
