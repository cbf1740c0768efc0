/**
 * The physical constants and the conversion formulas that the three
 * density-calculation files share word for word:
 * density_app/functions/density_calc.py,
 * density_analysis/density_calculations/density_calc.py and
 * densityCalculations.py (the Verdet correction is in the first two
 * only). They differ only in their resonances, which the
 * delta term and the density take here as parameters; the modules
 * DensityAppCalc, AnalysisDensityCalc and DensityCalculations bind them to
 * each file's own lines.
 *
 * Python floats are modelled as exact reals.
 */
module DensityCommon {

  /** Bohr magneton, erg/Gauss. */
  const MuB: real := 9.274e-21
  /** Electron charge, statcoulomb. */
  const QElectron: real := 4.8032e-10
  /** Electron mass, g. */
  const MElectron: real := 9.1094e-28
  /** Planck's constant, erg s. */
  const PlanckH: real := 6.626176e-27
  /** Speed of light, cm/s. */
  const LightSpeed: real := 29979245800.0
  /** numpy's double value of pi. */
  const Pi: real := 3.141592653589793
  /** The double value of (4/5)**(3/2). */
  const FourFifthsToThreeHalves: real := 0.7155417527999327
  /** Helmholtz-coil constant (4/5)^(3/2) * 4e-3 * pi of the front-room coils. */
  const BConst: real := FourFifthsToThreeHalves * 4e-3 * Pi
  /** Verdet constant of Pyrex glass at 773 nm, rad/(cm Gauss). */
  const VerdetGlass: real := 2.3e-6 * 0.3

  /** Turns and radius (m) of the front-room coils used by convertItoB. */
  const FrontRoomTurns: real := 110.0
  const FrontRoomRadius: real := 0.21
  /** Gauss per ampere of the main-room coils, measured by EPR. */
  const MainRoomGaussPerAmp: real := 2.17

  /** The product 18 m_e h c / (q_e^2 mu_B) that the optical-length term divides by the length. */
  const OpticalLengthConstant: real :=
    (18.0 * MElectron * PlanckH * LightSpeed) / (QElectron * QElectron * MuB)

  lemma ConstantsPositive()
    ensures Pi > 0.0 && BConst > 0.0 && VerdetGlass > 0.0 && OpticalLengthConstant > 0.0
  {
  }

  /* ---------------- the detuning ("delta") term ---------------- */

  /**
   * The delta-term denominator 4 D2^2 + 7 D1^2 - 2 D1 D2 written in the
   * source, as a function of the two detunings D1 and D2.
   */
  function DeltaDenominator(d1: real, d2: real): real
  {
    4.0 * Square(d2) + 7.0 * Square(d1) - 2.0 * d1 * d2
  }

  function Square(x: real): real { x * x }

  /** Multiplying by k distributes over a linear combination. */
  lemma ScaleLinear(a: real, x: real, y: real, k: real)
    ensures (a * x + y) * k == a * (x * k) + y * k
  {
  }

  /** Two multiples of the same k are in the ratio of their factors. */
  lemma ScaledCross(x: real, y: real, k: real)
    ensures (y * k) * x == (x * k) * y
  {
  }

  lemma ProductPositive(a: real, b: real)
    requires a > 0.0 && b > 0.0
    ensures a * b > 0.0
  {
  }

  lemma ProductNonNegative(a: real, b: real)
    requires a >= 0.0 && b >= 0.0
    ensures a * b >= 0.0
  {
    if a > 0.0 && b > 0.0 {
      ProductPositive(a, b);
    }
  }

  lemma SquarePositive(x: real)
    requires x != 0.0
    ensures Square(x) > 0.0
  {
    if x > 0.0 {
      calc {
        Square(x);
        == x * x;
        > { ProductPositive(x, x); }
        0.0;
      }
    } else {
      calc {
        Square(x);
        == (-x) * (-x);
        > { ProductPositive(-x, -x); }
        0.0;
      }
    }
  }

  lemma SquareSign(x: real)
    ensures Square(x) >= 0.0
    ensures Square(x) == 0.0 <==> x == 0.0
  {
    if x != 0.0 {
      SquarePositive(x);
    }
  }

  /** The denominator is the positive-definite form (2 D2 - D1/2)^2 + (27/4) D1^2. */
  lemma DeltaDenominatorAsSquares(d1: real, d2: real)
    ensures DeltaDenominator(d1, d2) == Square(2.0 * d2 - d1 / 2.0) + (27.0 / 4.0) * Square(d1)
  {
  }

  /** The denominator is zero exactly when both detunings are zero, and positive otherwise. */
  lemma DeltaDenominatorPositive(d1: real, d2: real)
    ensures DeltaDenominator(d1, d2) >= 0.0
    ensures DeltaDenominator(d1, d2) == 0.0 <==> d1 == 0.0 && d2 == 0.0
  {
    DeltaDenominatorAsSquares(d1, d2);
    SquareSign(2.0 * d2 - d1 / 2.0);
    SquareSign(d1);
    if d1 == 0.0 {
      assert 2.0 * d2 - d1 / 2.0 == 2.0 * d2;
    }
  }

  /** The numerator D1^2 D2^2 is non-negative and zero exactly when a detuning is zero. */
  lemma DeltaNumeratorSign(d1: real, d2: real)
    ensures Square(d1) * Square(d2) >= 0.0
    ensures Square(d1) * Square(d2) == 0.0 <==> d1 == 0.0 || d2 == 0.0
  {
    SquareSign(d1);
    SquareSign(d2);
    if d1 != 0.0 && d2 != 0.0 {
      calc {
        Square(d1) * Square(d2);
        > { ProductPositive(Square(d1), Square(d2)); }
        0.0;
      }
    }
  }

  /**
   * D1^2 D2^2 / (4 D2^2 + 7 D1^2 - 2 D1 D2), the delta term of the density
   * formula. Python raises ZeroDivisionError when both detunings are zero.
   */
  function DeltaFromDetunings(d1: real, d2: real): (r: real)
    requires d1 != 0.0 || d2 != 0.0
    ensures r >= 0.0
    ensures r == 0.0 <==> d1 == 0.0 || d2 == 0.0
  {
    DeltaDenominatorPositive(d1, d2);
    DeltaNumeratorSign(d1, d2);
    Square(d1) * Square(d2) / DeltaDenominator(d1, d2)
  }

  /** Reversing the laser's side of both resonances leaves the delta term unchanged. */
  lemma DeltaFromDetuningsEven(d1: real, d2: real)
    requires d1 != 0.0 || d2 != 0.0
    ensures DeltaFromDetunings(-d1, -d2) == DeltaFromDetunings(d1, d2)
  {
    assert Square(-d1) == Square(d1);
    assert Square(-d2) == Square(d2);
    assert (-d1) * (-d2) == d1 * d2;
    assert DeltaDenominator(-d1, -d2) == DeltaDenominator(d1, d2);
    assert Square(-d1) * Square(-d2) == Square(d1) * Square(d2);
  }

  /** get_laser_f, get_frequency_from_wavelength: c / lambda for a wavelength in cm. */
  function FrequencyOf(wavelength: real): (freq: real)
    requires wavelength != 0.0
    ensures freq * wavelength == LightSpeed
    ensures wavelength > 0.0 ==> freq > 0.0
  {
    LightSpeed / wavelength
  }

  /** Distinct wavelengths have distinct frequencies. */
  lemma FrequencyInjective(w1: real, w2: real)
    requires w1 != 0.0 && w2 != 0.0
    ensures FrequencyOf(w1) == FrequencyOf(w2) <==> w1 == w2
  {
    var f1 := FrequencyOf(w1);
    var f2 := FrequencyOf(w2);
    if f1 == f2 {
      assert f1 != 0.0;
      assert f1 * w1 == f1 * w2;
      calc {
        w1;
        == (f1 * w1) / f1;
        == (f1 * w2) / f1;
        == w2;
      }
    }
  }

  /** get_Delta_D, get_Delta_D1, get_Delta_D2: how far the laser is below a line, in Hz. */
  function Detuning(resonanceF: real, laserF: real): real
  {
    resonanceF - laserF
  }

  /**
   * delta_term for lines at the frequencies d1F and d2F: the delta term of
   * the laser's two detunings. Python divides by zero when the laser sits
   * on both lines at once.
   */
  function DeltaTermAt(d1F: real, d2F: real, laserWavelen: real): (r: real)
    requires laserWavelen != 0.0
    requires d1F != FrequencyOf(laserWavelen) || d2F != FrequencyOf(laserWavelen)
    ensures r >= 0.0
    ensures r == 0.0 <==> FrequencyOf(laserWavelen) == d1F || FrequencyOf(laserWavelen) == d2F
  {
    var laserFr := FrequencyOf(laserWavelen);
    DeltaFromDetunings(Detuning(d1F, laserFr), Detuning(d2F, laserFr))
  }

  /* ---------------- optical length, fields, rotations ---------------- */

  /** optical_length_term: 18 m_e h c / (L q_e^2 mu_B). */
  function OpticalLengthTerm(oLen: real): (r: real)
    requires oLen != 0.0
    ensures r * oLen == OpticalLengthConstant
    ensures oLen > 0.0 ==> r > 0.0
  {
    (18.0 * MElectron * PlanckH * LightSpeed) / (oLen * (QElectron * QElectron) * MuB)
  }

  /** The optical-length term is inversely proportional to the length. */
  lemma OpticalLengthInverse(oLen: real, a: real)
    requires oLen != 0.0 && a != 0.0
    ensures OpticalLengthTerm(a * oLen) * a == OpticalLengthTerm(oLen)
  {
    var t := OpticalLengthTerm(a * oLen);
    assert t * (a * oLen) == OpticalLengthConstant;
    assert OpticalLengthTerm(oLen) * oLen == OpticalLengthConstant;
    assert (t * a) * oLen == OpticalLengthTerm(oLen) * oLen;
  }

  /**
   * rb_density for a given delta term: slope * optical-length term * delta.
   * The density has the sign of the slope for a positive length.
   */
  function DensityFromSlope(slope: real, oLen: real, delta: real): (density: real)
    requires oLen != 0.0
    ensures slope == 0.0 ==> density == 0.0
    ensures oLen > 0.0 && slope >= 0.0 && delta >= 0.0 ==> density >= 0.0
  {
    var olt := OpticalLengthTerm(oLen);
    if oLen > 0.0 && slope >= 0.0 && delta >= 0.0 then
      ProductNonNegative(slope, olt);
      ProductNonNegative(slope * olt, delta);
      slope * olt * delta
    else
      slope * olt * delta
  }

  /** The density is the slope times a factor fixed by the length and the delta term. */
  lemma DensityIsScaledSlope(slope: real, oLen: real, delta: real)
    requires oLen != 0.0
    ensures DensityFromSlope(slope, oLen, delta) == slope * (OpticalLengthTerm(oLen) * delta)
  {
  }

  /** rb_density is linear in the slope. */
  lemma DensityLinear(s1: real, s2: real, a: real, oLen: real, delta: real)
    requires oLen != 0.0
    ensures DensityFromSlope(a * s1 + s2, oLen, delta)
         == a * DensityFromSlope(s1, oLen, delta) + DensityFromSlope(s2, oLen, delta)
  {
    var k := OpticalLengthTerm(oLen) * delta;
    DensityIsScaledSlope(a * s1 + s2, oLen, delta);
    DensityIsScaledSlope(s1, oLen, delta);
    DensityIsScaledSlope(s2, oLen, delta);
    ScaleLinear(a, s1, s2, k);
  }

  /** a is to b as x is to y, written without division: a·y == b·x. */
  predicate InRatio(a: real, b: real, x: real, y: real)
  {
    a * y == b * x
  }

  /** The densities of two slopes are in the ratio of the slopes. */
  lemma DensityProportional(s1: real, s2: real, oLen: real, delta: real)
    requires oLen != 0.0
    ensures InRatio(DensityFromSlope(s2, oLen, delta), DensityFromSlope(s1, oLen, delta), s2, s1)
  {
    DensityIsScaledSlope(s1, oLen, delta);
    DensityIsScaledSlope(s2, oLen, delta);
    ScaledCross(s1, s2, OpticalLengthTerm(oLen) * delta);
  }

  /** Scaling the optical length by a divides the density by a. */
  lemma DensityInverseInLength(slope: real, oLen: real, a: real, delta: real)
    requires oLen != 0.0 && a != 0.0
    ensures DensityFromSlope(slope, a * oLen, delta) * a == DensityFromSlope(slope, oLen, delta)
  {
    OpticalLengthInverse(oLen, a);
    var t := OpticalLengthTerm(a * oLen);
    DensityIsScaledSlope(slope, a * oLen, delta);
    DensityIsScaledSlope(slope, oLen, delta);
    assert DensityFromSlope(slope, a * oLen, delta) * a == slope * (t * a) * delta;
  }

  /** convertItoB: the field (Gauss) of the front-room Helmholtz coils for a current. */
  function ConvertItoB(current: real): real
  {
    BConst * current * FrontRoomTurns / FrontRoomRadius
  }

  /** convertItoB is linear in the current. */
  lemma ConvertItoBLinear(i: real, j: real, a: real)
    ensures ConvertItoB(a * i + j) == a * ConvertItoB(i) + ConvertItoB(j)
    ensures ConvertItoB(0.0) == 0.0
  {
  }

  /** convertItoB_mainroom: 2.17 Gauss per ampere. */
  function ConvertItoBMainroom(current: real): real
  {
    current * MainRoomGaussPerAmp
  }

  /** The main-room field is linear in the current, zero at zero current and increasing. */
  lemma ConvertItoBMainroomLinear(i: real, j: real, a: real)
    ensures ConvertItoBMainroom(a * i + j) == a * ConvertItoBMainroom(i) + ConvertItoBMainroom(j)
    ensures ConvertItoBMainroom(0.0) == 0.0
    ensures i < j ==> ConvertItoBMainroom(i) < ConvertItoBMainroom(j)
  {
  }

  /** convertVtoRot: the rotation (rad) for a voltage, the zero-field voltage and a conversion factor. */
  function ConvertVtoRot(voltage: real, noBVoltage: real, conversion: real): real
  {
    (voltage - noBVoltage) * conversion
  }

  /**
   * The rotation vanishes at the reference voltage, changes sign when the
   * two voltages are swapped, and the voltage is recoverable from it.
   */
  lemma ConvertVtoRotProperties(v: real, v0: real, k: real)
    ensures ConvertVtoRot(v0, v0, k) == 0.0
    ensures ConvertVtoRot(v0, v, k) == -ConvertVtoRot(v, v0, k)
    ensures k != 0.0 ==> v0 + ConvertVtoRot(v, v0, k) / k == v
  {
  }

  /**
   * calculateRotationConversionFactor: radians per volt for a calibration
   * rotation (degrees) and the voltage difference it produced.
   */
  function CalculateRotationConversionFactor(voltageDiff: real, calRot: real): (r: real)
    requires voltageDiff != 0.0
    ensures r * voltageDiff == calRot * Pi / 180.0
    ensures calRot == 0.0 <==> r == 0.0
  {
    calRot * (Pi / 180.0) / voltageDiff
  }

  /**
   * glass_verdet_adj: the rotation with the cell glass's Faraday rotation
   * removed. Only the density_app and density_analysis copies carry it.
   */
  function GlassVerdetAdj(verdet: real, glassDepth: real, rotVal: real, magFieldVal: real): real
  {
    rotVal - (verdet * glassDepth) * magFieldVal
  }

  /**
   * The adjustment removes exactly verdet * depth * B, so adding it back
   * restores the rotation, and it is the identity without field or glass.
   */
  lemma GlassVerdetAdjProperties(verdet: real, depth: real, rot: real, b: real)
    ensures GlassVerdetAdj(verdet, depth, rot, b) + verdet * depth * b == rot
    ensures b == 0.0 || verdet == 0.0 || depth == 0.0 ==> GlassVerdetAdj(verdet, depth, rot, b) == rot
  {
  }
}
