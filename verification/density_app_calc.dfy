/**
 * density_app/functions/density_calc.py: the density formula with the two
 * resonances given as wavelengths, the file-name parser of processed data
 * files, the sum of squared errors, the density/error pair of get_my_data
 * and the nm-to-cm guard for wavelengths.
 */
module DensityAppCalc {
  import opened Wrappers
  import opened Text
  import opened PySeq
  import opened DensityCommon

  /** D1 and D2 resonance wavelengths (cm) of the module. */
  const D1ResonanceLambda: real := 7.948e-5
  const D2ResonanceLambda: real := 7.800334e-5

  /** The laser is detuned from a resonance exactly when its wavelength differs from it. */
  lemma DetuningZeroIff(resonance: real, laser: real)
    requires resonance != 0.0 && laser != 0.0
    ensures Detuning(FrequencyOf(resonance), FrequencyOf(laser)) == 0.0 <==> resonance == laser
  {
    FrequencyInjective(resonance, laser);
  }

  /**
   * delta_term(d1_res, d2_res, laser): the detuning factor of the density
   * formula for D1/D2 resonance wavelengths and the laser wavelength. It is
   * undefined (division by zero) for a zero wavelength or when the laser sits
   * on both resonances at once.
   */
  function DeltaTerm(d1Res: real, d2Res: real, laserWavelen: real): (r: real)
    requires d1Res != 0.0 && d2Res != 0.0 && laserWavelen != 0.0
    requires !(d1Res == laserWavelen && d2Res == laserWavelen)
    ensures r >= 0.0
    ensures r == 0.0 <==> d1Res == laserWavelen || d2Res == laserWavelen
  {
    DetuningZeroIff(d1Res, laserWavelen);
    DetuningZeroIff(d2Res, laserWavelen);
    DeltaTermAt(FrequencyOf(d1Res), FrequencyOf(d2Res), laserWavelen)
  }

  /** Two distinct resonance wavelengths admit every non-zero laser wavelength. */
  lemma DistinctResonancesDefineDeltaTerm(d1Res: real, d2Res: real, laserWavelen: real)
    requires d1Res != 0.0 && d2Res != 0.0 && laserWavelen != 0.0 && d1Res != d2Res
    ensures DeltaTerm(d1Res, d2Res, laserWavelen) >= 0.0
  {
  }

  /** The precondition shared by rb_density and get_my_data. */
  predicate DensityDefined(d1Res: real, d2Res: real, oLen: real, laserWave: real)
  {
    d1Res != 0.0 && d2Res != 0.0 && laserWave != 0.0 && oLen != 0.0
    && !(d1Res == laserWave && d2Res == laserWave)
  }

  /** rb_density: slope * optical-length term * delta term for the given resonances. */
  function RbDensity(d1Res: real, d2Res: real, slope: real, oLen: real, laserWave: real): (density: real)
    requires DensityDefined(d1Res, d2Res, oLen, laserWave)
    ensures slope == 0.0 ==> density == 0.0
    ensures oLen > 0.0 && slope >= 0.0 ==> density >= 0.0
  {
    DensityFromSlope(slope, oLen, DeltaTerm(d1Res, d2Res, laserWave))
  }

  /** rb_density is linear in the slope: two slopes give densities in their ratio. */
  lemma RbDensityProportional(d1Res: real, d2Res: real, s1: real, s2: real, oLen: real, laserWave: real)
    requires DensityDefined(d1Res, d2Res, oLen, laserWave)
    ensures InRatio(RbDensity(d1Res, d2Res, s2, oLen, laserWave), RbDensity(d1Res, d2Res, s1, oLen, laserWave), s2, s1)
  {
    var delta := DeltaTerm(d1Res, d2Res, laserWave);
    DensityProportional(s1, s2, oLen, delta);
  }

  /**
   * get_info_from_fname: the collection date, cell name and temperature
   * encoded in the last path segment "date_cell-C_temp-T_...". A missing
   * '_'-part or '-'-field is Python's IndexError.
   */
  function GetInfoFromFname(processedFilepath: string): (r: Result<(string, string, string)>)
    ensures var parts := Split(Split(Last(Split(processedFilepath, '/')), '.')[0], '_');
            r.Ok? <==> |parts| >= 3 && '-' in parts[1] && '-' in parts[2]
    ensures r.Err? ==> r.error.IndexError?
    ensures r.Ok? ==> '_' !in r.value.0 && '-' !in r.value.1 && '-' !in r.value.2
  {
    var fpAry := Split(processedFilepath, '/');
    var properties := Split(Split(Last(fpAry), '.')[0], '_');
    SplitPiecesLackSeparator(Split(Last(fpAry), '.')[0], '_');
    if |properties| < 2 then Err(IndexError("properties[1]"))
    else
      var cellParts := Split(properties[1], '-');
      SplitPiecesLackSeparator(properties[1], '-');
      SplitSingleIff(properties[1], '-');
      if |cellParts| < 2 then Err(IndexError("properties[1].split('-')[1]"))
      else if |properties| < 3 then Err(IndexError("properties[2]"))
      else
        var tempParts := Split(properties[2], '-');
        SplitPiecesLackSeparator(properties[2], '-');
        SplitSingleIff(properties[2], '-');
        if |tempParts| < 2 then Err(IndexError("properties[2].split('-')[1]"))
        else Ok((properties[0], cellParts[1], tempParts[1]))
  }

  /** The squares of the errors, the terms get_average_error adds up. */
  function Squares(xs: seq<real>): (r: seq<real>)
    ensures |r| == |xs|
    ensures forall i :: 0 <= i < |xs| ==> r[i] == Square(xs[i]) && r[i] >= 0.0
  {
    seq(|xs|, i requires 0 <= i < |xs| => SquareSign(xs[i]); Square(xs[i]))
  }

  /**
   * The accumulation loop of get_average_error: the sum of the squared
   * errors (before the square root and the division by the count).
   */
  method GetAverageErrorSum(errorVals: seq<real>) returns (avgErr: real)
    ensures avgErr == Sum(Squares(errorVals))
    ensures avgErr >= 0.0
    ensures avgErr == 0.0 <==> forall i :: 0 <= i < |errorVals| ==> errorVals[i] == 0.0
  {
    var sq := Squares(errorVals);
    avgErr := 0.0;
    var l := |errorVals|;
    for i := 0 to l
      invariant avgErr == Sum(sq[..i])
    {
      assert sq[..i + 1][..i] == sq[..i];
      avgErr := avgErr + Square(errorVals[i]);
    }
    assert sq[..l] == sq;
    SumNonNegative(sq);
    SumZeroIff(sq);
    forall i | 0 <= i < l
      ensures sq[i] == 0.0 <==> errorVals[i] == 0.0
    {
      SquareSign(errorVals[i]);
    }
  }

  /**
   * The absolute temperature killian_density works with, T = float(temp) +
   * 273.15, or the exception it raises before using it: float() of empty or
   * non-numeric text is a ValueError, `4132/T` at T = 0 a ZeroDivisionError
   * and `log10(T)` below 0 a ValueError. `parseFloat` stands for float().
   */
  function KillianTemperature(temp: string, parseFloat: string -> Option<real>): (r: Result<real>)
    ensures r.Ok? <==> |temp| > 0 && parseFloat(temp).Some? && parseFloat(temp).value > -273.15
    ensures r.Ok? ==> r.value == parseFloat(temp).value + 273.15 && r.value > 0.0
    ensures (|temp| == 0 || parseFloat(temp).None?) ==> r == Err(ValueError("float(temp)"))
    ensures |temp| > 0 && parseFloat(temp) == Some(-273.15) ==> r == Err(ZeroDivisionError("4132/T"))
    ensures |temp| > 0 && parseFloat(temp).Some? && parseFloat(temp).value < -273.15 ==>
              r == Err(ValueError("log10(T)"))
  {
    if |temp| == 0 then Err(ValueError("float(temp)"))
    else
      match parseFloat(temp)
      case None => Err(ValueError("float(temp)"))
      case Some(celsius) =>
        var kelvin := celsius + 273.15;
        if kelvin == 0.0 then Err(ZeroDivisionError("4132/T"))
        else if kelvin < 0.0 then Err(ValueError("log10(T)"))
        else Ok(kelvin)
  }

  /** One row of the density table get_my_data assembles (Killian value left out). */
  datatype DensityRow = DensityRow(
    date: string, cellName: string, temperature: string,
    density: real, densityError: real)

  /**
   * get_my_data with the fit already done: `slope` is the fitted slope of
   * rotation against field and `slopeErr` the square root of its variance.
   * The density error is the density formula applied to the slope error.
   * The Killian estimate of the temperature field is not computed, but the
   * exceptions killian_density raises on that field are.
   */
  function GetMyData(d1Res: real, d2Res: real, fp: string, wavelength: real, opticalPath: real,
                     slope: real, slopeErr: real, parseFloat: string -> Option<real>): (r: Result<DensityRow>)
    requires DensityDefined(d1Res, d2Res, opticalPath, wavelength)
    ensures r.Ok? <==> GetInfoFromFname(fp).Ok? && KillianTemperature(GetInfoFromFname(fp).value.2, parseFloat).Ok?
    ensures r.Err? ==> if GetInfoFromFname(fp).Err? then r.error == GetInfoFromFname(fp).error
                       else r.error == KillianTemperature(GetInfoFromFname(fp).value.2, parseFloat).error
    ensures r.Ok? ==> (r.value.date, r.value.cellName, r.value.temperature) == GetInfoFromFname(fp).value
    ensures r.Ok? ==> r.value.density == RbDensity(d1Res, d2Res, slope, opticalPath, wavelength)
    ensures r.Ok? ==> r.value.densityError == RbDensity(d1Res, d2Res, slopeErr, opticalPath, wavelength)
    ensures r.Ok? ==> InRatio(r.value.densityError, r.value.density, slopeErr, slope)
  {
    match GetInfoFromFname(fp)
    case Err(e) => Err(e)
    case Ok(info) =>
      var row := DensityRow(info.0, info.1, info.2,
                            RbDensity(d1Res, d2Res, slope, opticalPath, wavelength),
                            RbDensity(d1Res, d2Res, slopeErr, opticalPath, wavelength));
      RbDensityProportional(d1Res, d2Res, slope, slopeErr, opticalPath, wavelength);
      match KillianTemperature(info.2, parseFloat)
      case Err(e) => Err(e)
      case Ok(_) => Ok(row)
  }

  /** convert_to_cm_if_needed: a wavelength above 100 is taken to be in nm and scaled to cm. */
  function ConvertToCmIfNeeded(wavelength: real): (converted: real)
    ensures wavelength <= 100.0 ==> converted == wavelength
    ensures wavelength > 100.0 ==> converted == wavelength * 1e-7
    ensures wavelength <= 1e9 ==> converted <= 100.0
  {
    if wavelength > 100.0 then wavelength * 1e-7 else wavelength
  }

  /** Converting twice is converting once for every input up to 1e9. */
  lemma ConvertToCmIdempotent(wavelength: real)
    requires wavelength <= 1e9
    ensures ConvertToCmIfNeeded(ConvertToCmIfNeeded(wavelength)) == ConvertToCmIfNeeded(wavelength)
  {
  }

  /** Above 1e9 the scaled value is still above 100 and a second call scales it again. */
  lemma ConvertToCmNotIdempotentAbove()
    ensures ConvertToCmIfNeeded(ConvertToCmIfNeeded(1e10)) != ConvertToCmIfNeeded(1e10)
  {
  }
}
