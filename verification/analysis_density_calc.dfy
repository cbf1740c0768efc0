/**
 * density_analysis/density_calculations/density_calc.py: the density
 * formula with the resonance frequencies of cell 309A fixed in the module
 * (Rb-85 D1 and the pressure-shifted D2). The conversions it shares with the
 * other density files are those of DensityCommon.
 */
module AnalysisDensityCalc {
  import opened DensityCommon

  /** D1 and D2 resonance frequencies (Hz). */
  const D1ResonanceF: real := 3.77107568e14
  const D2ResonanceF: real := 3.842306e14

  /** get_Delta_D1: the laser's detuning from the D1 line. */
  function GetDeltaD1(laserFreq: real): real
  {
    Detuning(D1ResonanceF, laserFreq)
  }

  /** get_Delta_D2: the laser's detuning from the D2 line. */
  function GetDeltaD2(laserFreq: real): real
  {
    Detuning(D2ResonanceF, laserFreq)
  }

  /** The two detunings differ by the fixed line spacing, so they never vanish together. */
  lemma DetuningsNotBothZero(laserFreq: real)
    ensures GetDeltaD1(laserFreq) != 0.0 || GetDeltaD2(laserFreq) != 0.0
    ensures GetDeltaD2(laserFreq) - GetDeltaD1(laserFreq) == D2ResonanceF - D1ResonanceF
  {
  }

  /**
   * delta_term(laser_wavelen) with this file's lines: defined for every
   * non-zero wavelength, non-negative, and zero exactly when the laser sits
   * on one of the lines.
   */
  function DeltaTerm(laserWavelen: real): (r: real)
    requires laserWavelen != 0.0
    ensures r >= 0.0
    ensures r == 0.0 <==> FrequencyOf(laserWavelen) == D1ResonanceF || FrequencyOf(laserWavelen) == D2ResonanceF
  {
    DetuningsNotBothZero(FrequencyOf(laserWavelen));
    DeltaTermAt(D1ResonanceF, D2ResonanceF, laserWavelen)
  }

  /** rb_density(slope, o_len, laser_wave) with this file's delta term. */
  function RbDensity(slope: real, oLen: real, laserWave: real): (density: real)
    requires oLen != 0.0 && laserWave != 0.0
    ensures slope == 0.0 ==> density == 0.0
    ensures oLen > 0.0 && slope >= 0.0 ==> density >= 0.0
  {
    DensityFromSlope(slope, oLen, DeltaTerm(laserWave))
  }
}
