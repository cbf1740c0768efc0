/**
 * densityCalculations.py: the density formula with the Rb-87 resonance
 * frequencies fixed in the module, and the conversion of collected
 * (current, voltage) points into (field, rotation) points relative to the
 * first point's voltage.
 */
module DensityCalculations {
  import opened Wrappers
  import opened DensityCommon
  import opened DataPoints

  /** D1 and D2 resonance frequencies (Hz). */
  const D1ResonanceF: real := 3.7719e14
  const D2ResonanceF: real := 3.842e14

  /** get_Delta_D1: the laser's detuning from the D1 line. */
  function GetDeltaD1(laserFreq: real): real
  {
    Detuning(D1ResonanceF, laserFreq)
  }

  /** get_Delta_D2: the laser's detuning from the D2 line. */
  function GetDeltaD2(laserFreq: real): real
  {
    Detuning(D2ResonanceF, laserFreq)
  }

  /** The two detunings differ by the fixed line spacing, so they never vanish together. */
  lemma DetuningsNotBothZero(laserFreq: real)
    ensures GetDeltaD1(laserFreq) != 0.0 || GetDeltaD2(laserFreq) != 0.0
    ensures GetDeltaD2(laserFreq) - GetDeltaD1(laserFreq) == D2ResonanceF - D1ResonanceF
  {
  }

  /**
   * delta_term(laser_wavelen) with this file's lines: defined for every
   * non-zero wavelength, non-negative, and zero exactly when the laser sits
   * on one of the lines.
   */
  function DeltaTerm(laserWavelen: real): (r: real)
    requires laserWavelen != 0.0
    ensures r >= 0.0
    ensures r == 0.0 <==> FrequencyOf(laserWavelen) == D1ResonanceF || FrequencyOf(laserWavelen) == D2ResonanceF
  {
    DetuningsNotBothZero(FrequencyOf(laserWavelen));
    DeltaTermAt(D1ResonanceF, D2ResonanceF, laserWavelen)
  }

  /** rb_density(slope, o_len, laser_wave) with this file's delta term. */
  function RbDensity(slope: real, oLen: real, laserWave: real): (density: real)
    requires oLen != 0.0 && laserWave != 0.0
    ensures slope == 0.0 ==> density == 0.0
    ensures oLen > 0.0 && slope >= 0.0 ==> density >= 0.0
  {
    DensityFromSlope(slope, oLen, DeltaTerm(laserWave))
  }

  /**
   * convertCollectedtoAnalyzable, before the formatter rounding: the field
   * of the point's current, its rotation against the zero-field voltage and
   * its error scaled by the conversion factor.
   */
  function ConvertCollectedtoAnalyzable(collected: DataPoint, noBVoltage: real, conversion: real): DataPoint
  {
    DataPoint(ConvertItoBMainroom(collected.xVal),
              ConvertVtoRot(collected.yVal, noBVoltage, conversion),
              collected.yErr * conversion)
  }

  /** A point at the zero-field voltage converts to zero rotation; the field does not depend on the reference. */
  lemma ConvertCollectedAtReference(p: DataPoint, v0: real, w0: real, k: real)
    ensures ConvertCollectedtoAnalyzable(p, p.yVal, k).yVal == 0.0
    ensures ConvertCollectedtoAnalyzable(p, v0, k).xVal == ConvertCollectedtoAnalyzable(p, w0, k).xVal
    ensures ConvertCollectedtoAnalyzable(p, v0, k).yVal - ConvertCollectedtoAnalyzable(p, w0, k).yVal
         == (w0 - v0) * k
  {
  }

  /**
   * convertRawDataArray: one converted point per raw point, in order, all
   * measured against the first point's voltage. An empty list is Python's
   * IndexError on raw_data[0].
   */
  method ConvertRawDataArray(rawData: seq<DataPoint>, conversionFactor: real)
    returns (r: Result<seq<DataPoint>>)
    ensures r.Err? <==> |rawData| == 0
    ensures r.Ok? ==> |r.value| == |rawData|
    ensures r.Ok? ==> forall i :: 0 <= i < |rawData| ==>
      r.value[i] == ConvertCollectedtoAnalyzable(rawData[i], rawData[0].yVal, conversionFactor)
    ensures r.Ok? ==> r.value[0].yVal == 0.0
  {
    if |rawData| == 0 {
      return Err(IndexError("raw_data[0]"));
    }
    var convertedData: seq<DataPoint> := [];
    var zeroFieldVoltage := rawData[0].yVal;
    for i := 0 to |rawData|
      invariant |convertedData| == i
      invariant forall j :: 0 <= j < i ==>
        convertedData[j] == ConvertCollectedtoAnalyzable(rawData[j], zeroFieldVoltage, conversionFactor)
    {
      var analysisDatum := ConvertCollectedtoAnalyzable(rawData[i], zeroFieldVoltage, conversionFactor);
      convertedData := convertedData + [analysisDatum];
    }
    ConvertCollectedAtReference(rawData[0], zeroFieldVoltage, zeroFieldVoltage, conversionFactor);
    return Ok(convertedData);
  }
}
