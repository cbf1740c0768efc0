/**
 * plotSettings.py and density_analysis/density_calculations/plotSettings.py:
 * the `plotable` record of parallel field, rotation and error arrays, and
 * its positional subset. The two files carry the same class, line for
 * line, so it is modelled once. The plotSettings class (titles, labels and
 * axis limits for a figure) has no behaviour and is not part of this model.
 */
module PlotSettings {
  import opened Wrappers
  import opened PySeq

  /**
   * The slice bounds get_plotable_subset picks: "before" stops just after
   * index1, "after" runs from index1 to the length of x. "between" calls
   * find_in_Bfield_array, which a plotable does not have; any other kind
   * leaves start_index unassigned.
   */
  function SubsetBounds(kind: string, index1: int, length: nat): (r: Result<(int, int)>)
    ensures r.Ok? <==> kind == "before" || kind == "after"
    ensures kind == "between" ==> r.Err? && r.error.AttributeError?
    ensures r.Err? && kind != "between" ==> r.error.UnboundLocalError?
  {
    if kind == "before" then Ok((0, index1 + 1))
    else if kind == "after" then Ok((index1, length))
    else if kind == "between" then Err(AttributeError("plotable.find_in_Bfield_array"))
    else Err(UnboundLocalError("start_index"))
  }

  /** "before" index1, with index1 a position of the array, keeps the first index1 + 1 elements. */
  lemma BeforeKeepsPrefix<T>(s: seq<T>, index1: int)
    requires 0 <= index1 < |s|
    ensures var (a, b) := SubsetBounds("before", index1, |s|).value;
            Slice(s, a, b) == s[..index1 + 1] && |Slice(s, a, b)| == index1 + 1
  {
    SliceInRange(s, 0, index1 + 1);
  }

  /** "after" index1 keeps the elements from index1 to the end. */
  lemma AfterKeepsSuffix<T>(s: seq<T>, index1: int)
    requires 0 <= index1 <= |s|
    ensures var (a, b) := SubsetBounds("after", index1, |s|).value;
            Slice(s, a, b) == s[index1..]
  {
    SliceInRange(s, index1, |s|);
  }

  /**
   * Slicing two parallel arrays with the same bounds keeps them parallel
   * and keeps each pair together: position k of both slices is the same
   * position of the originals.
   */
  lemma SameBoundsKeepPairs<T, U>(xs: seq<T>, ys: seq<U>, a: int, b: int)
    requires |xs| == |ys|
    ensures |Slice(xs, a, b)| == |Slice(ys, a, b)|
    ensures forall k :: 0 <= k < |Slice(xs, a, b)| ==>
              Slice(xs, a, b)[k] == xs[ClampIndex(a, |xs|) + k] && Slice(ys, a, b)[k] == ys[ClampIndex(a, |xs|) + k]
  {
    SliceIsContiguous(xs, a, b);
    SliceIsContiguous(ys, a, b);
  }

  /** A data set for a scatter plot: field values x, rotations y and their errors. */
  class Plotable {
    var x: seq<real>
    var y: seq<real>
    var laserWavelength: real
    var opticalLength: real
    var xError: seq<real>
    var yError: seq<real>

    /** plotable(x, y, laser_wavelength, optical_length, x_error, y_error): the arguments, stored. */
    constructor(x: seq<real>, y: seq<real>, laserWavelength: real, opticalLength: real,
                xError: seq<real>, yError: seq<real>)
      ensures this.x == x && this.y == y
      ensures this.laserWavelength == laserWavelength && this.opticalLength == opticalLength
      ensures this.xError == xError && this.yError == yError
    {
      this.x := x;
      this.y := y;
      this.laserWavelength := laserWavelength;
      this.opticalLength := opticalLength;
      this.xError := xError;
      this.yError := yError;
    }

    /** plotable(x, y, laser_wavelength, optical_length): both error arrays default to empty. */
    constructor WithoutErrors(x: seq<real>, y: seq<real>, laserWavelength: real, opticalLength: real)
      ensures this.x == x && this.y == y
      ensures this.laserWavelength == laserWavelength && this.opticalLength == opticalLength
      ensures xError == [] && yError == []
    {
      this.x := x;
      this.y := y;
      this.laserWavelength := laserWavelength;
      this.opticalLength := opticalLength;
      xError := [];
      yError := [];
    }

    /**
     * get_plotable_subset: a new plotable with the wavelength and optical
     * length copied and all four arrays sliced with the same bounds. The
     * receiver is not modified. `index2` is only read by "between", which
     * fails before it does, so it is not a parameter here.
     */
    method GetPlotableSubset(kind: string, index1: int) returns (r: Result<Plotable>)
      ensures r.Ok? <==> SubsetBounds(kind, index1, |x|).Ok?
      ensures r.Err? ==> r.error == SubsetBounds(kind, index1, |x|).error
      ensures r.Ok? ==>
                var (a, b) := SubsetBounds(kind, index1, |x|).value;
                fresh(r.value)
                && r.value.x == Slice(x, a, b) && r.value.y == Slice(y, a, b)
                && r.value.xError == Slice(xError, a, b) && r.value.yError == Slice(yError, a, b)
                && r.value.laserWavelength == laserWavelength && r.value.opticalLength == opticalLength
    {
      var subset := new Plotable.WithoutErrors([], [], laserWavelength, opticalLength);
      var length := |x|;
      var bounds := SubsetBounds(kind, index1, length);
      if bounds.Err? {
        return Err(bounds.error);
      }
      var (startIndex, stopIndex) := bounds.value;
      subset.x := Slice(x, startIndex, stopIndex);
      subset.y := Slice(y, startIndex, stopIndex);
      subset.xError := Slice(xError, startIndex, stopIndex);
      subset.yError := Slice(yError, startIndex, stopIndex);
      return Ok(subset);
    }
  }
}
