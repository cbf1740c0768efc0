/**
 * CalibrationFactor.py: an immutable record of one lock-in calibration
 * (rotation angle, sensitivity, the two voltage readings and their errors,
 * the laser and oven settings) together with the radians-per-volt factor
 * and its error derived from them, and its JSON form.
 */
module CalibrationFactors {
  import opened DensityCommon
  import opened PySeq

  /** The lock-in reading difference |scale v_f / 10 - scale v_i / 10| the factor divides by. */
  function ScaledDiff(scale: real, vi: real, vf: real): real
  {
    Abs((scale * vf) / 10.0 - (scale * vi) / 10.0)
  }

  /** The scaled difference is |scale| |v_f - v_i| / 10: zero exactly when scale is 0 or the readings agree. */
  lemma ScaledDiffFactors(scale: real, vi: real, vf: real)
    ensures ScaledDiff(scale, vi, vf) == Abs(scale) * Abs(vf - vi) / 10.0
    ensures ScaledDiff(scale, vi, vf) == 0.0 <==> scale == 0.0 || vi == vf
  {
    var d := vf - vi;
    assert (scale * vf) / 10.0 - (scale * vi) / 10.0 == scale * d / 10.0;
    if scale != 0.0 && d != 0.0 {
      var p := Abs(scale) * Abs(d);
      assert p == Abs(scale * d) by {
        if scale < 0.0 && d < 0.0 { assert (-scale) * (-d) == scale * d; }
        else if scale < 0.0 { assert (-scale) * d == -(scale * d); }
        else if d < 0.0 { assert scale * (-d) == -(scale * d); }
      }
      ProductPositive(Abs(scale), Abs(d));
    } else {
      assert scale * d == 0.0;
    }
  }

  /**
   * calculateCalFactor: radians per volt, angle pi / (180 |scaled difference|).
   * Python divides by zero when the readings agree or the scale is 0.
   */
  function CalculateCalFactor(scale: real, vi: real, vf: real, angle: real): (factor: real)
    requires scale != 0.0 && vi != vf
    ensures factor * ScaledDiff(scale, vi, vf) == angle * Pi / 180.0
    ensures angle > 0.0 ==> factor > 0.0
  {
    ScaledDiffFactors(scale, vi, vf);
    (angle * Pi) / (180.0 * ScaledDiff(scale, vi, vf))
  }

  /** The factor does not depend on which reading is called initial. */
  lemma CalFactorSymmetric(scale: real, vi: real, vf: real, angle: real)
    requires scale != 0.0 && vi != vf
    ensures CalculateCalFactor(scale, vi, vf, angle) == CalculateCalFactor(scale, vf, vi, angle)
  {
    ScaledDiffFactors(scale, vi, vf);
    ScaledDiffFactors(scale, vf, vi);
    assert Abs(vf - vi) == Abs(vi - vf);
  }

  /** Adding the same offset to both readings leaves the factor unchanged. */
  lemma CalFactorOffsetInvariant(scale: real, vi: real, vf: real, angle: real, offset: real)
    requires scale != 0.0 && vi != vf
    ensures CalculateCalFactor(scale, vi + offset, vf + offset, angle) == CalculateCalFactor(scale, vi, vf, angle)
  {
    ScaledDiffFactors(scale, vi, vf);
    ScaledDiffFactors(scale, vi + offset, vf + offset);
    assert (vf + offset) - (vi + offset) == vf - vi;
  }

  /** The factor is linear in the calibration angle. */
  lemma CalFactorLinearInAngle(scale: real, vi: real, vf: real, a1: real, a2: real, c: real)
    requires scale != 0.0 && vi != vf
    ensures CalculateCalFactor(scale, vi, vf, c * a1 + a2)
         == c * CalculateCalFactor(scale, vi, vf, a1) + CalculateCalFactor(scale, vi, vf, a2)
  {
    ScaledDiffFactors(scale, vi, vf);
    var d := 180.0 * ScaledDiff(scale, vi, vf);
    assert d != 0.0;
    calc {
      CalculateCalFactor(scale, vi, vf, c * a1 + a2);
      == ((c * a1 + a2) * Pi) / d;
      == c * ((a1 * Pi) / d) + (a2 * Pi) / d;
    }
  }

  /** calculateCalFactorError: scale (|e_i| + |e_f|). */
  function CalculateCalFactorError(scale: real, viErr: real, vfErr: real): (err: real)
    ensures scale >= 0.0 ==> err >= 0.0
    ensures viErr == 0.0 && vfErr == 0.0 ==> err == 0.0
  {
    if scale >= 0.0 then
      ProductNonNegative(scale, Abs(viErr) + Abs(vfErr));
      scale * (Abs(viErr) + Abs(vfErr))
    else
      scale * (Abs(viErr) + Abs(vfErr))
  }

  /** The error ignores the signs of the reading errors and is symmetric in them. */
  lemma CalFactorErrorSignBlind(scale: real, viErr: real, vfErr: real)
    ensures CalculateCalFactorError(scale, -viErr, vfErr) == CalculateCalFactorError(scale, viErr, vfErr)
    ensures CalculateCalFactorError(scale, viErr, -vfErr) == CalculateCalFactorError(scale, viErr, vfErr)
    ensures CalculateCalFactorError(scale, vfErr, viErr) == CalculateCalFactorError(scale, viErr, vfErr)
  {
    assert Abs(-viErr) == Abs(viErr);
    assert Abs(-vfErr) == Abs(vfErr);
  }

  /** The fields of a CalibrationFactor object, set once by its constructor. */
  datatype CalibrationFactor = CalibrationFactor(
    collectionDate: string,
    calRotation: real,
    lockinSensitivity: real,
    initialVoltage: real,
    initialVoltageErr: real,
    finalVoltage: real,
    finalVoltageErr: real,
    calibrationFactor: real,
    calibrationFactorErr: real,
    laserWavelength: real,
    opticalLength: real,
    ovenTemp: real,
    laserPower: real,
    laserTemp: real)

  /**
   * The constructor: stores its arguments and derives the factor and its
   * error from the stored fields. `now` stands for str(datetime.now()).
   */
  function NewCalibrationFactor(now: string, calRot: real, locksense: real,
                                initV: real, initVErr: real, finV: real, finVErr: real,
                                wl: real, ol: real, ot: real, lp: real, lt: real): (c: CalibrationFactor)
    requires locksense != 0.0 && initV != finV
    ensures c.collectionDate == now && c.calRotation == calRot && c.lockinSensitivity == locksense
    ensures c.initialVoltage == initV && c.initialVoltageErr == initVErr
    ensures c.finalVoltage == finV && c.finalVoltageErr == finVErr
    ensures c.laserWavelength == wl && c.opticalLength == ol && c.ovenTemp == ot
    ensures c.laserPower == lp && c.laserTemp == lt
    ensures c.calibrationFactor * ScaledDiff(c.lockinSensitivity, c.initialVoltage, c.finalVoltage)
         == c.calRotation * Pi / 180.0
    ensures c.calibrationFactorErr
         == CalculateCalFactorError(c.lockinSensitivity, c.initialVoltageErr, c.finalVoltageErr)
  {
    CalibrationFactor(now, calRot, locksense, initV, initVErr, finV, finVErr,
      CalculateCalFactor(locksense, initV, finV, calRot),
      CalculateCalFactorError(locksense, initVErr, finVErr),
      wl, ol, ot, lp, lt)
  }

  /** The JSON values calFPrepforJSON produces: a date string or a number. */
  datatype JsonField = JString(s: string) | JNumber(n: real)

  /** The fourteen keys of the calibration record in the JSON file. */
  const JsonKeys: set<string> := {
    "dateCollected", "calibrationRotation", "lockinSensitivity",
    "initialVoltage", "initialVoltageError", "finalVoltage", "finalVoltageError",
    "calibrationFactor", "calibrationFactorError", "laserWavelength",
    "opticalLength", "ovenTemp", "laserPower", "laserTemp"}

  /** calFPrepforJSON: every field under its JSON key, unchanged. */
  function CalFPrepForJSON(c: CalibrationFactor): (m: map<string, JsonField>)
    ensures m.Keys == JsonKeys
  {
    map[
      "dateCollected" := JString(c.collectionDate),
      "calibrationRotation" := JNumber(c.calRotation),
      "lockinSensitivity" := JNumber(c.lockinSensitivity),
      "initialVoltage" := JNumber(c.initialVoltage),
      "initialVoltageError" := JNumber(c.initialVoltageErr),
      "finalVoltage" := JNumber(c.finalVoltage),
      "finalVoltageError" := JNumber(c.finalVoltageErr),
      "calibrationFactor" := JNumber(c.calibrationFactor),
      "calibrationFactorError" := JNumber(c.calibrationFactorErr),
      "laserWavelength" := JNumber(c.laserWavelength),
      "opticalLength" := JNumber(c.opticalLength),
      "ovenTemp" := JNumber(c.ovenTemp),
      "laserPower" := JNumber(c.laserPower),
      "laserTemp" := JNumber(c.laserTemp)]
  }

  function NumberAt(m: map<string, JsonField>, key: string): real
    requires key in m && m[key].JNumber?
  {
    m[key].n
  }

  /** Reading a calibration record back from its JSON form (the inverse of calFPrepforJSON). */
  function CalFFromJSON(m: map<string, JsonField>): (c: CalibrationFactor)
    requires JsonKeys <= m.Keys
    requires m["dateCollected"].JString?
    requires forall k :: k in JsonKeys && k != "dateCollected" ==> m[k].JNumber?
  {
    CalibrationFactor(m["dateCollected"].s,
      NumberAt(m, "calibrationRotation"), NumberAt(m, "lockinSensitivity"),
      NumberAt(m, "initialVoltage"), NumberAt(m, "initialVoltageError"),
      NumberAt(m, "finalVoltage"), NumberAt(m, "finalVoltageError"),
      NumberAt(m, "calibrationFactor"), NumberAt(m, "calibrationFactorError"),
      NumberAt(m, "laserWavelength"), NumberAt(m, "opticalLength"),
      NumberAt(m, "ovenTemp"), NumberAt(m, "laserPower"), NumberAt(m, "laserTemp"))
  }

  /** The JSON record carries every field unchanged: reading it back gives the same calibration. */
  lemma CalFJSONRoundTrip(c: CalibrationFactor)
    ensures var m := CalFPrepForJSON(c);
            m["dateCollected"].JString? &&
            (forall k :: k in JsonKeys && k != "dateCollected" ==> m[k].JNumber?) &&
            CalFFromJSON(m) == c
  {
  }
}
