/**
 * density_measurement/functions/utilities.py: the helpers the collection app
 * uses for entry validation and file names, the mean absolute error of a
 * burst of lock-in samples, and two list/string reshaping helpers.
 *
 * Python's `float()` is not modelled: the predicate `isFloat` stands for
 * "float(text) does not raise".
 */
module MeasurementUtilities {
  import opened Wrappers
  import opened Text
  import opened PySeq

  /* ---------------- meanAbsError ---------------- */

  /** The absolute deviations |x_i - c| that meanAbsError adds up. */
  function AbsDeviations(xs: seq<real>, c: real): (d: seq<real>)
    ensures |d| == |xs|
    ensures forall i :: 0 <= i < |xs| ==> d[i] == Abs(xs[i] - c) && d[i] >= 0.0
  {
    seq(|xs|, i requires 0 <= i < |xs| => Abs(xs[i] - c))
  }

  /** The mean absolute deviation from the mean, the quantity meanAbsError computes. */
  function MeanAbsDeviation(xs: seq<real>): (r: real)
    requires |xs| > 0
    ensures r >= 0.0
  {
    var d := AbsDeviations(xs, Mean(xs).value);
    SumNonNegative(d);
    Sum(d) / |xs| as real
  }

  /**
   * meanAbsError: the average of |x_i - avg| with avg the mean of the data.
   * Python divides by zero (0 / 0) on an empty list.
   */
  method MeanAbsError(dataSet: seq<real>) returns (r: Result<real>)
    ensures r.Err? <==> |dataSet| == 0
    ensures r.Err? ==> r.error.ZeroDivisionError?
    ensures r.Ok? ==> r.value == MeanAbsDeviation(dataSet)
  {
    var sum := 0.0;
    var numPts := |dataSet|;
    if numPts == 0 {
      return Err(ZeroDivisionError("sum / num_pts"));
    }
    var avg := Mean(dataSet).value;
    ghost var devs := AbsDeviations(dataSet, avg);
    for i := 0 to numPts
      invariant sum == Sum(devs[..i])
    {
      assert devs[..i + 1][..i] == devs[..i];
      sum := sum + Abs(dataSet[i] - avg);
    }
    assert devs[..numPts] == devs;
    return Ok(sum / numPts as real);
  }

  /** Constant data have no spread. */
  lemma MeanAbsDeviationConstant(xs: seq<real>, c: real)
    requires |xs| > 0
    requires forall i :: 0 <= i < |xs| ==> xs[i] == c
    ensures MeanAbsDeviation(xs) == 0.0
  {
    MeanConstant(xs, c);
    var d := AbsDeviations(xs, c);
    SumConstant(d, 0.0);
  }

  /** Every value moved by k. */
  function Shifted(xs: seq<real>, k: real): (ys: seq<real>)
    ensures |ys| == |xs|
    ensures forall i :: 0 <= i < |xs| ==> ys[i] == xs[i] + k
  {
    seq(|xs|, i requires 0 <= i < |xs| => xs[i] + k)
  }

  /** Moving every value by k adds n k to the sum. */
  lemma {:induction false} SumShifted(xs: seq<real>, k: real)
    ensures Sum(Shifted(xs, k)) == Sum(xs) + |xs| as real * k
  {
    if |xs| > 0 {
      var n := |xs| - 1;
      SumShifted(xs[..n], k);
      assert Shifted(xs, k)[..n] == Shifted(xs[..n], k);
    }
  }

  /** Adding the same constant to every value leaves the mean absolute error unchanged. */
  lemma MeanAbsDeviationShift(xs: seq<real>, k: real)
    requires |xs| > 0
    ensures MeanAbsDeviation(Shifted(xs, k)) == MeanAbsDeviation(xs)
  {
    var ys := Shifted(xs, k);
    var n := |xs| as real;
    SumShifted(xs, k);
    var m := Mean(xs).value;
    assert Mean(ys).value * n == (m + k) * n;
    assert Mean(ys).value == m + k;
    assert AbsDeviations(ys, m + k) == AbsDeviations(xs, m) by {
      forall i | 0 <= i < |xs|
        ensures AbsDeviations(ys, m + k)[i] == AbsDeviations(xs, m)[i]
      {
        assert ys[i] - (m + k) == xs[i] - m;
      }
    }
  }

  /* ---------------- entry validation ---------------- */

  /** validate_text_exists: an entry exists when it is not empty. */
  method ValidateTextExists(text: string) returns (entryExists: bool)
    ensures entryExists <==> |text| > 0
  {
    var l := |text|;
    entryExists := false;
    if l > 0 {
      entryExists := true;
    }
  }

  /** The verdict of entry_exists_is_number as a value, for the contracts of its callers. */
  predicate AcceptableNumber(text: string, isFloat: string -> bool)
  {
    |text| > 0 && isFloat(text)
  }

  /**
   * entry_exists_is_number: a non-empty entry that float() accepts. The
   * empty entry is refused whatever float() would say of it.
   */
  method EntryExistsIsNumber(text: string, isFloat: string -> bool) returns (acceptableNumerical: bool)
    ensures acceptableNumerical <==> |text| > 0 && isFloat(text)
    ensures acceptableNumerical == AcceptableNumber(text, isFloat)
    ensures text == "" ==> !acceptableNumerical
  {
    var textExists := ValidateTextExists(text);
    var isNum := isFloat(text);
    acceptableNumerical := false;
    if textExists && isNum {
      acceptableNumerical := true;
    }
  }

  /* ---------------- reshaping ---------------- */

  /**
   * twoDArryToTwoOneDArry: the first and the second components of every
   * entry, as two lists. An entry with fewer than two components is
   * Python's IndexError.
   */
  method TwoDArrayToTwoOneDArray<T>(arry: seq<seq<T>>) returns (r: Result<(seq<T>, seq<T>)>)
    ensures r.Ok? <==> forall i :: 0 <= i < |arry| ==> |arry[i]| >= 2
    ensures r.Ok? ==> |r.value.0| == |arry| && |r.value.1| == |arry|
    ensures r.Ok? ==> forall i :: 0 <= i < |arry| ==> r.value.0[i] == arry[i][0] && r.value.1[i] == arry[i][1]
    ensures r.Err? ==> r.error.IndexError?
  {
    var arry0: seq<T> := [];
    var arry1: seq<T> := [];
    for i := 0 to |arry|
      invariant |arry0| == i && |arry1| == i
      invariant forall j :: 0 <= j < i ==> |arry[j]| >= 2 && arry0[j] == arry[j][0] && arry1[j] == arry[j][1]
    {
      if |arry[i]| < 2 {
        return Err(IndexError("x[" + (if |arry[i]| == 0 then "0" else "1") + "]"));
      }
      arry0 := arry0 + [arry[i][0]];
      arry1 := arry1 + [arry[i][1]];
    }
    return Ok((arry0, arry1));
  }

  /**
   * stringToPandasSeries: every newline removed, then split on the
   * delimiter. No piece holds the delimiter or a newline, and joining the
   * pieces with the delimiter gives back the newline-free text.
   */
  function StringToPandasSeries(strg: string, delimiter: char): (series: seq<string>)
    ensures |series| >= 1
    ensures forall i :: 0 <= i < |series| ==> delimiter !in series[i] && '\n' !in series[i]
    ensures Join(series, delimiter) == RemoveChar(strg, '\n')
  {
    var cleaned := RemoveChar(strg, '\n');
    SplitPiecesLackSeparator(cleaned, delimiter);
    SplitPiecesWithin(cleaned, delimiter);
    JoinSplit(cleaned, delimiter);
    Split(cleaned, delimiter)
  }

  /**
   * The replacement part of dtStringForFilename: the text of the current
   * time with every ':' made '_' and every ' ' made '-', so that it can be
   * part of a file name.
   */
  function DtStringForFilename(now: string): (fn: string)
    ensures |fn| == |now|
    ensures ':' !in fn && ' ' !in fn
    ensures forall i :: 0 <= i < |now| ==>
              fn[i] == (if now[i] == ':' then '_' else if now[i] == ' ' then '-' else now[i])
  {
    ReplaceChar(ReplaceChar(now, ':', '_'), ' ', '-')
  }
}
