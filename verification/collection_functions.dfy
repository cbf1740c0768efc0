/**
 * density_app/functions/density_collection_functions.py, the arithmetic
 * part: the calibration factor and its error as the collection app computes
 * them, with the lock-in "divide by 10" applied to the sensitivity, and the
 * conversion factor that turns photodiode volts into radians.
 */
module CollectionFunctions {
  import opened DensityCommon
  import opened CalibrationFactors
  import opened PySeq

  /**
   * calculateCalibrationFactor: (angle / (|v_f - v_i| (s / 10))) (pi / 180).
   * Python divides by zero when the readings agree or the sensitivity is 0.
   */
  function CalculateCalibrationFactor(lockInSensitivity: real, vi: real, vf: real, angle: real): (factor: real)
    requires lockInSensitivity != 0.0 && vi != vf
    ensures factor * (Abs(vf - vi) * (lockInSensitivity / 10.0)) == angle * Pi / 180.0
  {
    var scaledDiff := Abs(vf - vi) * (lockInSensitivity / 10.0);
    assert scaledDiff != 0.0 by {
      if lockInSensitivity > 0.0 { ProductPositive(Abs(vf - vi), lockInSensitivity / 10.0); }
      else { ProductPositive(Abs(vf - vi), -lockInSensitivity / 10.0); }
    }
    (angle / scaledDiff) * (Pi / 180.0)
  }

  /** The factor does not depend on which reading is called initial. */
  lemma CalibrationFactorSymmetric(s: real, vi: real, vf: real, angle: real)
    requires s != 0.0 && vi != vf
    ensures CalculateCalibrationFactor(s, vi, vf, angle) == CalculateCalibrationFactor(s, vf, vi, angle)
  {
    assert Abs(vf - vi) == Abs(vi - vf);
    var a := Abs(vf - vi) * (s / 10.0);
    var f1 := CalculateCalibrationFactor(s, vi, vf, angle);
    var f2 := CalculateCalibrationFactor(s, vf, vi, angle);
    assert f1 * a == f2 * a;
    assert a != 0.0 by {
      if s > 0.0 { ProductPositive(Abs(vf - vi), s / 10.0); }
      else { ProductPositive(Abs(vf - vi), -s / 10.0); }
    }
    assert f1 == (f1 * a) / a == (f2 * a) / a == f2;
  }

  /**
   * The two conventions agree for a positive sensitivity; for a negative one
   * this version keeps the sign of the sensitivity and CalibrationFactor.py
   * drops it.
   */
  lemma CalibrationFactorConventionsAgree(s: real, vi: real, vf: real, angle: real)
    requires s != 0.0 && vi != vf
    ensures s > 0.0 ==> CalculateCalibrationFactor(s, vi, vf, angle) == CalculateCalFactor(s, vi, vf, angle)
    ensures s < 0.0 ==> CalculateCalibrationFactor(s, vi, vf, angle) == -CalculateCalFactor(s, vi, vf, angle)
  {
    ScaledDiffFactors(s, vi, vf);
    var d := Abs(vf - vi);
    var b := ScaledDiff(s, vi, vf);
    var f := CalculateCalibrationFactor(s, vi, vf, angle);
    var g := CalculateCalFactor(s, vi, vf, angle);
    if s > 0.0 {
      assert d * (s / 10.0) == b;
      CancelNonZero(f, g, b);
    } else {
      assert d * (s / 10.0) == -b;
      assert (-f) * b == f * (d * (s / 10.0));
      CancelNonZero(-f, g, b);
    }
  }

  /** Equal multiples of a non-zero number have equal factors. */
  lemma CancelNonZero(f: real, g: real, b: real)
    requires b != 0.0 && f * b == g * b
    ensures f == g
  {
    assert f == (f * b) / b;
  }

  /**
   * calculateCalibrationError: (angle / ((s / 10)(|e_i| + |e_f|))) (pi / 180).
   * Python divides by zero when both reading errors are 0.
   */
  function CalculateCalibrationError(lockInSensitivity: real, viErr: real, vfErr: real, angle: real): (err: real)
    requires lockInSensitivity != 0.0 && !(viErr == 0.0 && vfErr == 0.0)
    ensures err * ((lockInSensitivity / 10.0) * (Abs(viErr) + Abs(vfErr))) == angle * Pi / 180.0
  {
    var totalVErr := (lockInSensitivity / 10.0) * (Abs(viErr) + Abs(vfErr));
    assert totalVErr != 0.0 by {
      if lockInSensitivity > 0.0 { ProductPositive(lockInSensitivity / 10.0, Abs(viErr) + Abs(vfErr)); }
      else { ProductPositive(-lockInSensitivity / 10.0, Abs(viErr) + Abs(vfErr)); }
    }
    (angle / totalVErr) * (Pi / 180.0)
  }

  /**
   * The error is angle * pi / 180 divided by the voltage error of
   * CalibrationFactor.py taken at scale s / 10.
   */
  lemma CalibrationErrorInverseOfVoltageError(s: real, ei: real, ef: real, angle: real)
    requires s != 0.0 && !(ei == 0.0 && ef == 0.0)
    ensures CalculateCalibrationError(s, ei, ef, angle) * CalculateCalFactorError(s / 10.0, ei, ef)
         == angle * Pi / 180.0
  {
  }

  /** The error depends only on the magnitudes of the reading errors. */
  lemma CalibrationErrorSignBlind(s: real, ei: real, ef: real, angle: real)
    requires s != 0.0 && !(ei == 0.0 && ef == 0.0)
    ensures CalculateCalibrationError(s, -ei, -ef, angle) == CalculateCalibrationError(s, ei, ef, angle)
    ensures CalculateCalibrationError(s, ef, ei, angle) == CalculateCalibrationError(s, ei, ef, angle)
  {
    assert Abs(-ei) == Abs(ei) && Abs(-ef) == Abs(ef);
    assert Abs(ef) + Abs(ei) == Abs(ei) + Abs(ef);
  }

  /** For a positive angle and sensitivity the error shrinks as the reading errors grow. */
  lemma CalibrationErrorDecreasing(s: real, ei: real, ef: real, ei2: real, ef2: real, angle: real)
    requires s > 0.0 && angle > 0.0 && !(ei == 0.0 && ef == 0.0)
    requires Abs(ei) + Abs(ef) < Abs(ei2) + Abs(ef2)
    ensures CalculateCalibrationError(s, ei2, ef2, angle) < CalculateCalibrationError(s, ei, ef, angle)
  {
    AngleTermPositive(angle);
    ScaledInverseDecreasing(CalculateCalibrationError(s, ei, ef, angle), CalculateCalibrationError(s, ei2, ef2, angle),
                            s / 10.0, Abs(ei) + Abs(ef), Abs(ei2) + Abs(ef2), angle * Pi / 180.0);
  }

  /** Two quantities with the same positive product against k·a1 < k·a2 are in reverse order. */
  lemma ScaledInverseDecreasing(e1: real, e2: real, k: real, a1: real, a2: real, c: real)
    requires k > 0.0 && 0.0 < a1 < a2 && c > 0.0
    requires e1 * (k * a1) == c && e2 * (k * a2) == c
    ensures e2 < e1
  {
    ScaledOrder(k, a1, a2);
    InverseDecreasing(e1, e2, k * a1, k * a2, c);
  }

  /** A positive factor keeps two positive numbers positive and in order. */
  lemma ScaledOrder(k: real, a1: real, a2: real)
    requires k > 0.0 && 0.0 < a1 < a2
    ensures 0.0 < k * a1 < k * a2
  {
    ProductPositive(k, a1);
    ProductPositive(k, a2 - a1);
  }

  /** A positive angle in degrees is a positive angle in radians. */
  lemma AngleTermPositive(angle: real)
    requires angle > 0.0
    ensures angle * Pi / 180.0 > 0.0
  {
    ConstantsPositive();
    ProductPositive(angle, Pi);
  }

  /** Two numbers with the same positive product with t1 < t2 decrease: e2 < e1. */
  lemma InverseDecreasing(e1: real, e2: real, t1: real, t2: real, c: real)
    requires c > 0.0 && 0.0 < t1 < t2 && e1 * t1 == c && e2 * t2 == c
    ensures e2 < e1
  {
    if e1 <= 0.0 {
      ProductNonNegative(-e1, t1);
      assert false;
    }
    ProductPositive(e1, t2 - t1);
    assert e2 * t2 < e1 * t2;
    if e1 - e2 <= 0.0 {
      ProductNonNegative(e2 - e1, t2);
      assert false;
    }
  }

  /** calculate_conversion_factor: (s / 10) * calibration factor. */
  function CalculateConversionFactor(lockInSensitivity: real, calibrationFactor: real): real
  {
    (lockInSensitivity / 10.0) * calibrationFactor
  }

  /** The conversion factor is linear in each argument. */
  lemma ConversionFactorLinear(s1: real, s2: real, c1: real, c2: real, a: real)
    ensures CalculateConversionFactor(a * s1 + s2, c1)
         == a * CalculateConversionFactor(s1, c1) + CalculateConversionFactor(s2, c1)
    ensures CalculateConversionFactor(s1, a * c1 + c2)
         == a * CalculateConversionFactor(s1, c1) + CalculateConversionFactor(s1, c2)
  {
  }

  /**
   * When calibration and collection use the same sensitivity, the sensitivity
   * cancels: the conversion factor is angle pi / (180 |v_f - v_i|).
   */
  lemma ConversionFactorIndependentOfSensitivity(s: real, vi: real, vf: real, angle: real)
    requires s > 0.0 && vi != vf
    ensures CalculateConversionFactor(s, CalculateCalibrationFactor(s, vi, vf, angle)) * Abs(vf - vi)
         == angle * Pi / 180.0
  {
    var f := CalculateCalibrationFactor(s, vi, vf, angle);
    assert f * (Abs(vf - vi) * (s / 10.0)) == angle * Pi / 180.0;
    assert CalculateConversionFactor(s, f) * Abs(vf - vi) == f * (Abs(vf - vi) * (s / 10.0));
  }
}
