/**
 * DensityCollectionApp.py: the state the three frames of the collection
 * window keep. These are the two-reading calibration (Calibration_Parameters),
 * the day's experiment parameters and trial numbering (Collection_Parameters)
 * and the raw data of one trial (Data_Collection). Widgets, the CSV files
 * and the oscilloscope are not modelled: what a file holds, what the scope
 * reads and what `float()` makes of an entry are parameters of the methods.
 *
 * The arithmetic comes from density_app/functions/density_collection_functions.py
 * (module CollectionFunctions); the DensityCollectionFunctions module the
 * app imports by that name is not part of this model.
 */
module CollectionApp {
  import opened Wrappers
  import opened Text
  import opened CollectionFunctions
  import opened MeasurementUtilities
  import opened TrialFiles
  import opened PySeq
  import opened DensityCommon

  /** What collectDataPoint returns: the mean voltage, its mean absolute error and its standard deviation. */
  datatype Reading = Reading(mean: real, meanAbsError: real, stdDev: real)

  /** A calibration display: "TBD" until a reading's value is shown (before formatting). */
  datatype Label = Tbd | Shown(value: real)

  /** One value of a saved CSV row: the text of an entry, or a number. */
  datatype Cell = Entry(text: string) | Num(number: real)

  /** A row of a data frame, by column name. */
  type Row = map<string, Cell>

  /* ---------------- dict literals ---------------- */

  /** The map `m` after the key/value pairs are stored one after the other. */
  function StorePairs(m: Row, pairs: seq<(string, Cell)>): Row
  {
    if |pairs| == 0 then m
    else StorePairs(m, pairs[..|pairs| - 1])[pairs[|pairs| - 1].0 := pairs[|pairs| - 1].1]
  }

  /** A Python dict literal: a later entry with the same key overwrites an earlier one. */
  function DictLiteral(pairs: seq<(string, Cell)>): Row
  {
    StorePairs(map[], pairs)
  }

  /** A key stored before `pairs` matters only if no pair stores it again. */
  lemma {:induction false} StorePairsOverwrite(m: Row, k: string, v: Cell, pairs: seq<(string, Cell)>)
    ensures (exists j :: 0 <= j < |pairs| && pairs[j].0 == k) ==> StorePairs(m[k := v], pairs) == StorePairs(m, pairs)
    ensures (forall j :: 0 <= j < |pairs| ==> pairs[j].0 != k) ==> StorePairs(m[k := v], pairs) == StorePairs(m, pairs)[k := v]
  {
    if |pairs| > 0 {
      var init := pairs[..|pairs| - 1];
      StorePairsOverwrite(m, k, v, init);
      if (exists j :: 0 <= j < |pairs| && pairs[j].0 == k) && pairs[|pairs| - 1].0 != k {
        var j :| 0 <= j < |pairs| && pairs[j].0 == k;
        assert init[j].0 == k;
      }
      if forall j :: 0 <= j < |pairs| ==> pairs[j].0 != k {
        assert forall j :: 0 <= j < |init| ==> init[j] == pairs[j];
      }
    }
  }

  /** Storing `a` and then `b` is storing `a + b`. */
  lemma {:induction false} StorePairsAppend(m: Row, a: seq<(string, Cell)>, b: seq<(string, Cell)>)
    ensures StorePairs(m, a + b) == StorePairs(StorePairs(m, a), b)
  {
    if |b| > 0 {
      assert (a + b)[..|a + b| - 1] == a + b[..|b| - 1];
      StorePairsAppend(m, a, b[..|b| - 1]);
    } else {
      assert a + b == a;
    }
  }

  /**
   * A dict-literal entry whose key appears again later is lost: the literal
   * is the same with that entry left out.
   */
  lemma DictLiteralDropsOverwritten(pre: seq<(string, Cell)>, x: (string, Cell), post: seq<(string, Cell)>, j: nat)
    requires j < |post| && post[j].0 == x.0
    ensures DictLiteral(pre + [x] + post) == DictLiteral(pre + post)
  {
    StorePairsAppend(map[], pre + [x], post);
    StorePairsAppend(map[], pre, [x]);
    StorePairsOverwrite(StorePairs(map[], pre), x.0, x.1, post);
    StorePairsAppend(map[], pre, post);
  }

  /** The entry for a key that no later entry repeats is the one in the literal. */
  lemma DictLiteralKeepsLast(pre: seq<(string, Cell)>, x: (string, Cell), post: seq<(string, Cell)>)
    requires forall j :: 0 <= j < |post| ==> post[j].0 != x.0
    ensures x.0 in DictLiteral(pre + [x] + post) && DictLiteral(pre + [x] + post)[x.0] == x.1
  {
    StorePairsAppend(map[], pre + [x], post);
    StorePairsAppend(map[], pre, [x]);
    StorePairsOverwrite(StorePairs(map[], pre), x.0, x.1, post);
  }

  /* ---------------- Calibration_Parameters ---------------- */

  /** The text entries of the calibration frame that save_cal_info copies into the row unchanged. */
  datatype CalEntries = CalEntries(cell: string, ovenTemp: string, laserWavelength: string,
                                   opticalLength: string, laserPower: string, laserTemp: string)

  /** The four reading values save_cal_info uses: both readings, or all zeros when either is missing. */
  function CalReadings(cal1: Option<Reading>, cal2: Option<Reading>): (v: (real, real, real, real))
    ensures cal1.Some? && cal2.Some? ==>
              v == (cal1.value.mean, cal1.value.meanAbsError, cal2.value.mean, cal2.value.meanAbsError)
    ensures cal1.None? || cal2.None? ==> v == (0.0, 0.0, 0.0, 0.0)
  {
    if cal1.Some? && cal2.Some? then
      (cal1.value.mean, cal1.value.meanAbsError, cal2.value.mean, cal2.value.meanAbsError)
    else (0.0, 0.0, 0.0, 0.0)
  }

  /**
   * The key/value pairs of save_cal_info's new_row literal, in the order
   * written. The final reading's value is stored under "Final Calibration
   * Error", a key that the next entry uses again.
   */
  function CalRowPairs(date: string, e: CalEntries, lockinSens: real, dialAngle: real, calAngle: real,
                       initcal: real, initcalErr: real, fincal: real, fincalErr: real,
                       calFactor: real, calFactorError: real): seq<(string, Cell)>
  {
    [("Date", Entry(date)), ("Cell", Entry(e.cell)), ("Oven Temperature", Entry(e.ovenTemp)),
     ("Laser Wavelength", Entry(e.laserWavelength)), ("Optical Length", Entry(e.opticalLength)),
     ("Laser Power", Entry(e.laserPower)), ("Laser Temperature", Entry(e.laserTemp)),
     ("Lock-in Sensitivity", Num(lockinSens)), ("Dial Rotation", Num(dialAngle)),
     ("Physical Rotation", Num(calAngle)), ("Initial Calibration Value", Num(initcal)),
     ("Initial Calibration Error", Num(initcalErr)), ("Final Calibration Error", Num(fincal)),
     ("Final Calibration Error", Num(fincalErr)), ("Calibration Factor", Num(calFactor)),
     ("Calibration Factor Error", Num(calFactorError))]
  }

  /**
   * The row save_cal_info builds from the sensitivity, the dial angle and
   * the reading values v = (initial, initial error, final, final error):
   * it holds the dial angle doubled, the factor and its error for that
   * angle, and under "Final Calibration Error" the final reading's error,
   * not its value.
   */
  function CalRowFor(date: string, e: CalEntries, s: real, dial: real, v: (real, real, real, real)): (row: Row)
    requires s != 0.0 && v.0 != v.2 && !(v.1 == 0.0 && v.3 == 0.0)
    ensures "Physical Rotation" in row && row["Physical Rotation"] == Num(dial * 2.0)
    ensures "Calibration Factor" in row && row["Calibration Factor"] == Num(CalculateCalibrationFactor(s, v.0, v.2, dial * 2.0))
    ensures "Calibration Factor Error" in row
            && row["Calibration Factor Error"] == Num(CalculateCalibrationError(s, v.1, v.3, dial * 2.0))
    ensures "Final Calibration Error" in row && row["Final Calibration Error"] == Num(v.3)
  {
    var calAngle := dial * 2.0;
    var f := CalculateCalibrationFactor(s, v.0, v.2, calAngle);
    var fe := CalculateCalibrationError(s, v.1, v.3, calAngle);
    var pairs := CalRowPairs(date, e, s, dial, calAngle, v.0, v.1, v.2, v.3, f, fe);
    DictLiteralKeepsLast(pairs[..9], pairs[9], pairs[10..]);
    assert pairs == pairs[..9] + [pairs[9]] + pairs[10..];
    DictLiteralKeepsLast(pairs[..13], pairs[13], pairs[14..]);
    assert pairs == pairs[..13] + [pairs[13]] + pairs[14..];
    DictLiteralKeepsLast(pairs[..14], pairs[14], pairs[15..]);
    assert pairs == pairs[..14] + [pairs[14]] + pairs[15..];
    DictLiteralKeepsLast(pairs[..15], pairs[15], []);
    assert pairs == pairs[..15] + [pairs[15]] + [];
    DictLiteral(pairs)
  }

  /**
   * The row save_cal_info appends, or the exception it raises: float() of
   * the sensitivity and dial entries, then the calibration factor and its
   * error, which divide by zero when the two readings agree, the
   * sensitivity is 0 or both reading errors are 0.
   */
  function CalibrationRow(date: string, e: CalEntries, lockinSens: Option<real>, dialAngle: Option<real>,
                          cal1: Option<Reading>, cal2: Option<Reading>): (r: Result<Row>)
    ensures r.Ok? <==> lockinSens.Some? && dialAngle.Some? && lockinSens.value != 0.0
                       && CalReadings(cal1, cal2).0 != CalReadings(cal1, cal2).2
                       && !(CalReadings(cal1, cal2).1 == 0.0 && CalReadings(cal1, cal2).3 == 0.0)
    ensures r.Err? && lockinSens.Some? && dialAngle.Some? ==> r.error.ZeroDivisionError?
    ensures r.Err? && (lockinSens.None? || dialAngle.None?) ==> r.error.ValueError?
  {
    var v := CalReadings(cal1, cal2);
    if lockinSens.None? then Err(ValueError("float(lockin_sensitivity)"))
    else if dialAngle.None? then Err(ValueError("float(physical_rotation)"))
    else if lockinSens.value == 0.0 || v.0 == v.2 then Err(ZeroDivisionError("calculateCalibrationFactor"))
    else if v.1 == 0.0 && v.3 == 0.0 then Err(ZeroDivisionError("calculateCalibrationError"))
    else Ok(CalRowFor(date, e, lockinSens.value, dialAngle.value, v))
  }

  /** With both readings taken, a saved row carries the factor of the two means for twice the dial angle. */
  lemma CalibrationRowContents(date: string, e: CalEntries, s: real, dial: real, cal1: Reading, cal2: Reading)
    requires CalibrationRow(date, e, Some(s), Some(dial), Some(cal1), Some(cal2)).Ok?
    ensures var row := CalibrationRow(date, e, Some(s), Some(dial), Some(cal1), Some(cal2)).value;
            s != 0.0 && cal1.mean != cal2.mean
            && "Calibration Factor" in row
            && row["Calibration Factor"] == Num(CalculateCalibrationFactor(s, cal1.mean, cal2.mean, dial * 2.0))
            && "Final Calibration Error" in row && row["Final Calibration Error"] == Num(cal2.meanAbsError)
  {
  }

  /** The saved row does not depend on the final reading's value beyond the factor it yields. */
  lemma CalRowLosesFinalValue(date: string, e: CalEntries, s: real, dial: real, calAngle: real,
                              initcal: real, initcalErr: real, fincal1: real, fincal2: real, fincalErr: real,
                              f: real, fe: real)
    ensures DictLiteral(CalRowPairs(date, e, s, dial, calAngle, initcal, initcalErr, fincal1, fincalErr, f, fe))
         == DictLiteral(CalRowPairs(date, e, s, dial, calAngle, initcal, initcalErr, fincal2, fincalErr, f, fe))
  {
    var p1 := CalRowPairs(date, e, s, dial, calAngle, initcal, initcalErr, fincal1, fincalErr, f, fe);
    var p2 := CalRowPairs(date, e, s, dial, calAngle, initcal, initcalErr, fincal2, fincalErr, f, fe);
    assert p1 == p1[..12] + [p1[12]] + p1[13..];
    assert p2 == p2[..12] + [p2[12]] + p2[13..];
    DictLiteralDropsOverwritten(p1[..12], p1[12], p1[13..], 0);
    DictLiteralDropsOverwritten(p2[..12], p2[12], p2[13..], 0);
    assert p1[..12] + p1[13..] == p2[..12] + p2[13..];
  }

  /**
   * Saving before both readings are taken uses zeros for both, so the two
   * voltages agree and the factor divides by zero.
   */
  lemma MissingReadingDividesByZero(date: string, e: CalEntries, s: real, dial: real,
                                    cal1: Option<Reading>, cal2: Option<Reading>)
    requires cal1.None? || cal2.None?
    ensures CalibrationRow(date, e, Some(s), Some(dial), cal1, cal2) == Err(ZeroDivisionError("calculateCalibrationFactor"))
  {
  }

  class CalibrationParameters {
    var calfilename: string
    var calibrationFilepath: string
    /* cal1 and cal2 do not exist until the first and second press of getCal */
    var cal1: Option<Reading>
    var cal2: Option<Reading>
    var initialCalValDisp: Label
    var finalCalValDisp: Label
    /* cal_params does not exist until checkForCalFile runs */
    var calParams: Option<seq<Row>>
    /** The value "Calibration Factor: ..." shows; `None` while it reads TBD. */
    var displayCalValue: Option<real>

    /**
     * The calibration state machine: each display shows a value exactly when
     * its reading exists, the final display only after the initial one, and
     * then the same value.
     */
    predicate Valid()
      reads this
    {
      (cal1.Some? <==> initialCalValDisp.Shown?)
      && (cal2.Some? <==> finalCalValDisp.Shown?)
      && (initialCalValDisp.Shown? ==> initialCalValDisp.value == cal1.value.mean)
      && (finalCalValDisp.Shown? ==> initialCalValDisp.Shown? && finalCalValDisp == initialCalValDisp)
    }

    /** A fresh frame: the day's calibration file name, both displays TBD. */
    constructor(currentDate: string, rawDataFolder: string)
      ensures Valid()
      ensures calfilename == "Calibration_" + currentDate + ".csv"
      ensures calibrationFilepath == rawDataFolder + calfilename
      ensures cal1.None? && cal2.None? && initialCalValDisp.Tbd? && finalCalValDisp.Tbd?
      ensures calParams.None? && displayCalValue.None?
    {
      calfilename := "Calibration_" + currentDate + ".csv";
      calibrationFilepath := rawDataFolder + calfilename;
      cal1 := None;
      cal2 := None;
      initialCalValDisp := Tbd;
      finalCalValDisp := Tbd;
      calParams := None;
      displayCalValue := None;
    }

    /**
     * getCal with `reading` the scope's answer: the first press stores the
     * initial reading and shows it, the second stores the final reading but
     * shows the initial value again, and later presses change nothing.
     */
    method GetCal(reading: Reading)
      requires Valid()
      modifies this`cal1, this`cal2, this`initialCalValDisp, this`finalCalValDisp
      ensures Valid()
      ensures old(initialCalValDisp).Tbd? ==>
                cal1 == Some(reading) && initialCalValDisp == Shown(reading.mean)
                && cal2 == old(cal2) && finalCalValDisp == old(finalCalValDisp)
      ensures old(initialCalValDisp).Shown? && old(finalCalValDisp).Tbd? ==>
                cal2 == Some(reading) && finalCalValDisp == Shown(old(cal1).value.mean)
                && cal1 == old(cal1) && initialCalValDisp == old(initialCalValDisp)
      ensures old(finalCalValDisp).Shown? ==>
                cal1 == old(cal1) && cal2 == old(cal2)
                && initialCalValDisp == old(initialCalValDisp) && finalCalValDisp == old(finalCalValDisp)
    {
      if initialCalValDisp.Tbd? {
        cal1 := Some(reading);
        initialCalValDisp := Shown(reading.mean);
      } else if finalCalValDisp.Tbd? {
        cal2 := Some(reading);
        finalCalValDisp := Shown(cal1.value.mean);
      }
    }

    /** checkForCalFile: the rows of the day's file, or a new empty table when there is none. */
    method CheckForCalFile(calFileExists: bool, fileRows: seq<Row>)
      modifies this`calParams
      ensures calParams == Some(if calFileExists then fileRows else [])
    {
      if calFileExists {
        calParams := Some(fileRows);
      } else {
        calParams := Some([]);
      }
    }

    /**
     * save_cal_info: the table is (re)loaded first; then, unless an
     * exception stops it, the new row is appended and its factor shown.
     * `lockinSens` and `dialAngle` are float() of the two entries.
     */
    method SaveCalInfo(calFileExists: bool, fileRows: seq<Row>, currentDate: string, entries: CalEntries,
                       lockinSens: Option<real>, dialAngle: Option<real>) returns (err: Option<Error>)
      modifies this`calParams, this`displayCalValue
      ensures var r := CalibrationRow(currentDate, entries, lockinSens, dialAngle, cal1, cal2);
              var base := if calFileExists then fileRows else [];
              (err.None? <==> r.Ok?)
              && (r.Ok? ==> calParams == Some(base + [r.value]) && displayCalValue.Some?
                            && "Calibration Factor" in r.value && Num(displayCalValue.value) == r.value["Calibration Factor"])
              && (r.Err? ==> err == Some(r.error) && calParams == Some(base)
                             && displayCalValue == old(displayCalValue))
    {
      CheckForCalFile(calFileExists, fileRows);
      var readings := CalReadings(cal1, cal2);
      var (initcal, initcalErr, fincal, fincalErr) := readings;
      if lockinSens.None? {
        return Some(ValueError("float(lockin_sensitivity)"));
      }
      if dialAngle.None? {
        return Some(ValueError("float(physical_rotation)"));
      }
      var s := lockinSens.value;
      if s == 0.0 || initcal == fincal {
        return Some(ZeroDivisionError("calculateCalibrationFactor"));
      }
      if initcalErr == 0.0 && fincalErr == 0.0 {
        return Some(ZeroDivisionError("calculateCalibrationError"));
      }
      var newRow := CalRowFor(currentDate, entries, s, dialAngle.value, readings);
      calParams := Some(calParams.value + [newRow]);
      displayCalValue := Some(CalculateCalibrationFactor(s, initcal, fincal, dialAngle.value * 2.0));
      return None;
    }
  }

  /* ---------------- Collection_Parameters ---------------- */

  /**
   * One row of the day's Experiment_Params table. Text columns hold what
   * the entries held; a column never assigned (pandas' NaN) is "" or 0.
   */
  datatype ParamsEntry = ParamsEntry(date: string, cell: string, ovenTemp: string, laserWavelength: string,
                                     trialNumber: string, opticalLength: string, laserPower: string,
                                     laserTemp: string, lockInSensitivity: real, calibrationFactor: real,
                                     calibrationFactorError: real, conversionFactor: real,
                                     conversionFactorError: real)

  /** The row a one-row frame gets when a column is assigned to an empty frame. */
  const BlankEntry := ParamsEntry("", "", "", "", "", "", "", "", 0.0, 0.0, 0.0, 0.0, 0.0)

  /** The rows of the latest_collection_params frame: none until a column is assigned. */
  function LatestRows(latest: Option<ParamsEntry>): (rows: seq<ParamsEntry>)
    ensures |rows| <= 1
    ensures latest.Some? <==> |rows| == 1
  {
    if latest.Some? then [latest.value] else []
  }

  /**
   * The trial number checkForParamsFile sets: 1 when there is no file or
   * the file has no rows, otherwise one more than the last row's Trial
   * Number. `+ 1` on text that is not an integer is Python's TypeError.
   */
  function NextTrial(fileExists: bool, rows: seq<ParamsEntry>): Result<int>
  {
    if !fileExists || |rows| == 0 then Ok(1)
    else match ParseInt(Last(rows).trialNumber)
      case None => Err(TypeError("Trial Number + 1"))
      case Some(n) => Ok(n + 1)
  }

  /**
   * Trial numbers continue: once a row for trial n is appended, the next
   * session that finds the file starts at trial n + 1; with no file or an
   * empty one it starts at 1.
   */
  lemma NextTrialContinues(rows: seq<ParamsEntry>, e: ParamsEntry, n: int)
    requires e.trialNumber == IntToString(n)
    ensures NextTrial(true, rows + [e]) == Ok(n + 1)
    ensures NextTrial(false, rows) == Ok(1) && NextTrial(true, []) == Ok(1)
  {
    ParseIntOfIntToString(n);
  }

  /** A row whose Trial Number is not an integer stops the numbering. */
  lemma NextTrialNeedsInteger(rows: seq<ParamsEntry>, e: ParamsEntry)
    requires ParseInt(e.trialNumber).None?
    ensures NextTrial(true, rows + [e]).Err? && NextTrial(true, rows + [e]).error.TypeError?
  {
  }

  /**
   * `float(cal_params[key][num_cals - 1])` for one row: a missing key is a
   * KeyError, and a text cell is taken as not a number (ValueError).
   */
  function NumberAt(row: Row, key: string): (r: Result<real>)
    ensures r.Ok? <==> key in row && row[key].Num?
    ensures r.Ok? ==> row[key] == Num(r.value)
    ensures key !in row ==> r.Err? && r.error.KeyError?
  {
    if key !in row then Err(KeyError(key))
    else match row[key]
      case Num(x) => Ok(x)
      case Entry(_) => Err(ValueError("float(" + key + ")"))
  }

  /**
   * The row save_exp_params writes, or the exception it raises: the last
   * calibration row's factor and error, each scaled by the sensitivity
   * into a conversion factor, with the trial entry's text as Trial Number.
   * No calibration table is an AttributeError, an empty one the KeyError
   * of label -1.
   */
  function ExpParamsEntry(calParams: Option<seq<Row>>, lockIn: Option<real>, trialEntry: string,
                          base: ParamsEntry): (r: Result<ParamsEntry>)
    ensures calParams.None? ==> r == Err(AttributeError("cal_params"))
    ensures calParams.Some? && |calParams.value| == 0 ==> r.Err? && r.error.KeyError?
    ensures r.Ok? <==> calParams.Some? && |calParams.value| > 0 && lockIn.Some?
                       && NumberAt(Last(calParams.value), "Calibration Factor").Ok?
                       && NumberAt(Last(calParams.value), "Calibration Factor Error").Ok?
    ensures r.Ok? ==> var last := Last(calParams.value);
                      r.value == base.(trialNumber := trialEntry, lockInSensitivity := lockIn.value,
                                       conversionFactor := CalculateConversionFactor(
                                         lockIn.value, NumberAt(last, "Calibration Factor").value),
                                       conversionFactorError := CalculateConversionFactor(
                                         lockIn.value, NumberAt(last, "Calibration Factor Error").value))
  {
    match calParams
    case None => Err(AttributeError("cal_params"))
    case Some(rows) =>
      if |rows| == 0 then Err(KeyError("[num_cals - 1]"))
      else
        var last := rows[|rows| - 1];
        match NumberAt(last, "Calibration Factor")
        case Err(e) => Err(e)
        case Ok(calF) =>
          match NumberAt(last, "Calibration Factor Error")
          case Err(e) => Err(e)
          case Ok(calErr) =>
            match lockIn
            case None => Err(ValueError("float(lock_in_setting)"))
            case Some(s) =>
              Ok(base.(trialNumber := trialEntry, lockInSensitivity := s,
                       conversionFactor := CalculateConversionFactor(s, calF),
                       conversionFactorError := CalculateConversionFactor(s, calErr)))
  }

  /**
   * The two frames together: when the last calibration row was saved with
   * sensitivity s > 0 and the collection uses the same s, the conversion
   * factor times |v_f - v_i| is the physical rotation (twice the dial
   * angle) in radians, whatever s is.
   */
  lemma ConversionFactorFromSavedCalibration(calRows: seq<Row>, date: string, e: CalEntries, s: real, dial: real,
                                             v: (real, real, real, real), trialEntry: string, base: ParamsEntry)
    requires s > 0.0 && v.0 != v.2 && !(v.1 == 0.0 && v.3 == 0.0)
    requires |calRows| > 0 && Last(calRows) == CalRowFor(date, e, s, dial, v)
    ensures var r := ExpParamsEntry(Some(calRows), Some(s), trialEntry, base);
            r.Ok? && r.value.conversionFactor * Abs(v.2 - v.0) == dial * 2.0 * Pi / 180.0
  {
    ConversionFactorIndependentOfSensitivity(s, v.0, v.2, dial * 2.0);
  }

  class CollectionParameters {
    var paramfilename: string
    var paramFilepath: string
    /** latest_collection_params; `None` while it is the empty frame. */
    var latest: Option<ParamsEntry>
    /* collection_params does not exist until checkForParamsFile runs */
    var collectionParams: Option<seq<ParamsEntry>>
    /** collection_params is the latest_collection_params object itself, not a copy. */
    var aliased: bool
    /* trial_num does not exist until checkForParamsFile sets it */
    var trialNum: Option<int>
    /** The value "Conversion Factor: ..." shows; `None` while it reads TBD. */
    var displayConversionFactor: Option<real>

    /** When the two frames are one object, collection_params holds what latest holds. */
    predicate Valid()
      reads this
    {
      aliased ==> collectionParams == Some(LatestRows(latest))
    }

    /** A fresh frame: the day's parameter file name and an empty latest frame. */
    constructor(currentDate: string, rawDataFolder: string)
      ensures Valid()
      ensures paramfilename == ParamFilename(currentDate)
      ensures paramFilepath == rawDataFolder + ParamFilename(currentDate)
      ensures latest.None? && collectionParams.None? && !aliased
      ensures trialNum.None? && displayConversionFactor.None?
    {
      paramfilename := "Experiment_Params_" + currentDate + ".csv";
      paramFilepath := rawDataFolder + paramfilename;
      latest := None;
      collectionParams := None;
      aliased := false;
      trialNum := None;
      displayConversionFactor := None;
    }

    /**
     * checkForParamsFile: with a file, its rows and the trial after its
     * last one; without, the latest frame itself (an alias, not a copy) and
     * trial 1. A last Trial Number that is not an integer raises before
     * trial_num is set.
     */
    method CheckForParamsFile(fileExists: bool, fileRows: seq<ParamsEntry>) returns (err: Option<Error>)
      modifies this`collectionParams, this`aliased, this`trialNum
      ensures Valid()
      ensures collectionParams == Some(if fileExists then fileRows else LatestRows(latest))
      ensures aliased == !fileExists
      ensures err.None? <==> NextTrial(fileExists, fileRows).Ok?
      ensures err.None? ==> trialNum == Some(NextTrial(fileExists, fileRows).value)
      ensures err.Some? ==> err == Some(NextTrial(fileExists, fileRows).error) && trialNum == old(trialNum)
    {
      if fileExists {
        collectionParams := Some(fileRows);
        aliased := false;
        var n := |fileRows|;
        if n == 0 {
          trialNum := Some(1);
        } else {
          var last := ParseInt(fileRows[n - 1].trialNumber);
          if last.None? {
            return Some(TypeError("Trial Number + 1"));
          }
          trialNum := Some(last.value + 1);
        }
      } else {
        collectionParams := Some(LatestRows(latest));
        aliased := true;
        trialNum := Some(1);
      }
      return None;
    }

    /**
     * save_exp_params: the latest frame gets the trial entry, the
     * sensitivity and the two conversion factors; it is then appended to
     * collection_params and its factor shown. While the two frames are one
     * object the update shows in both, so the row is appended twice.
     * `lockIn` is float() of the sensitivity entry.
     */
    method SaveExpParams(calParams: Option<seq<Row>>, lockIn: Option<real>, trialEntry: string)
      returns (err: Option<Error>)
      requires Valid()
      modifies this`latest, this`collectionParams, this`aliased, this`displayConversionFactor
      ensures Valid()
      ensures var r := ExpParamsEntry(calParams, lockIn, trialEntry, old(if latest.Some? then latest.value else BlankEntry));
              (r.Err? ==> err == Some(r.error) && latest == old(latest)
                          && collectionParams == old(collectionParams) && aliased == old(aliased)
                          && displayConversionFactor == old(displayConversionFactor))
              && (r.Ok? ==> latest == Some(r.value)
                            && (old(collectionParams).None? ==>
                                  err == Some(AttributeError("collection_params"))
                                  && collectionParams.None? && displayConversionFactor == old(displayConversionFactor))
                            && (old(collectionParams).Some? ==>
                                  err.None? && !aliased
                                  && collectionParams == Some((if old(aliased) then [r.value] else old(collectionParams).value)
                                                              + [r.value])
                                  && displayConversionFactor == Some(r.value.conversionFactor)))
    {
      var base := if latest.Some? then latest.value else BlankEntry;
      var r := ExpParamsEntry(calParams, lockIn, trialEntry, base);
      if r.Err? {
        return Some(r.error);
      }
      latest := Some(r.value);
      if collectionParams.None? {
        return Some(AttributeError("collection_params"));
      }
      var before := if aliased then LatestRows(latest) else collectionParams.value;
      collectionParams := Some(before + LatestRows(latest));
      aliased := false;
      displayConversionFactor := Some(r.value.conversionFactor);
      return None;
    }
  }

  /* ---------------- Data_Collection ---------------- */

  /** One raw-data row: the current as typed, and the scope's reading. */
  datatype CollectedRow = CollectedRow(current: string, voltage: real, voltageMae: real, voltageStd: real)

  class DataCollection {
    var dataFolder: string
    var rawData: seq<CollectedRow>
    /** The text of the current entry. */
    var currentEntry: string
    var errorDisplayLbl: string
    var rawDataLocLbl: string
    /** Whether the Submit button takes clicks. */
    var submitEnabled: bool
    /**
     * The attributes collection_setup creates. `None` is an attribute that
     * does not exist yet: __init__ does not create them.
     */
    var timeConstant: Option<int>
    var numPoints: Option<int>
    var dataFilename: Option<string>
    var dataFilepath: Option<string>

    /**
     * What collection_setup leaves behind: the time constant and point
     * count exist before any file name does, and the file path is the data
     * folder followed by the file name.
     */
    predicate Valid()
      reads this`dataFolder, this`timeConstant, this`numPoints, this`dataFilename, this`dataFilepath
    {
      (timeConstant.Some? <==> numPoints.Some?)
      && (dataFilename.Some? <==> dataFilepath.Some?)
      && (dataFilepath.Some? ==>
            timeConstant.Some? && dataFilepath.value == dataFolder + dataFilename.value)
    }

    /**
     * A fresh frame: no raw data yet, everything blank, Submit enabled, and
     * none of the attributes collection_setup creates.
     */
    constructor(rawDataFolder: string)
      ensures Valid()
      ensures dataFolder == rawDataFolder && rawData == [] && currentEntry == ""
      ensures errorDisplayLbl == "" && rawDataLocLbl == "" && submitEnabled
      ensures timeConstant.None? && numPoints.None? && dataFilename.None? && dataFilepath.None?
    {
      dataFolder := rawDataFolder;
      rawData := [];
      currentEntry := "";
      errorDisplayLbl := "";
      rawDataLocLbl := "";
      submitEnabled := true;
      timeConstant := None;
      numPoints := None;
      dataFilename := None;
      dataFilepath := None;
    }

    /**
     * collection_setup: the file for the trial of the last parameters row,
     * named by today's date and that row's cell, oven temperature and
     * trial number. The time constant and point count are set first, so
     * they exist even when the lookup fails: no parameters table is an
     * AttributeError, an empty one the IndexError of `values[-1]`, and
     * either leaves the file name and path as they were.
     */
    method CollectionSetup(expParams: Option<seq<ParamsEntry>>, currentDate: string) returns (err: Option<Error>)
      requires Valid()
      modifies this`timeConstant, this`numPoints, this`dataFilename, this`dataFilepath, this`rawDataLocLbl
      ensures Valid()
      ensures timeConstant == Some(1) && numPoints == Some(10)
      ensures err.None? <==> expParams.Some? && |expParams.value| > 0
      ensures expParams.None? ==> err == Some(AttributeError("collection_params"))
      ensures expParams.Some? && |expParams.value| == 0 ==> err.Some? && err.value.IndexError?
      ensures err.None? ==>
                var last := Last(expParams.value);
                dataFilename == Some(TrialFilename(currentDate, last.cell, last.ovenTemp, last.trialNumber))
                && dataFilepath == Some(dataFolder + dataFilename.value)
                && rawDataLocLbl == "Raw Data File: " + dataFilename.value
      ensures err.Some? ==> dataFilename == old(dataFilename) && dataFilepath == old(dataFilepath)
                            && rawDataLocLbl == old(rawDataLocLbl)
    {
      timeConstant := Some(1);
      numPoints := Some(10);
      if expParams.None? {
        return Some(AttributeError("collection_params"));
      }
      var rows := expParams.value;
      var l := |rows|;
      if l == 0 {
        return Some(IndexError("values[l - 1]"));
      }
      var trial := "trial-" + rows[l - 1].trialNumber;
      var cell := "cell-" + rows[l - 1].cell;
      var temp := "temp-" + rows[l - 1].ovenTemp;
      var filename := currentDate + "_" + cell + "_" + temp + "_" + trial + ".csv";
      dataFilename := Some(filename);
      dataFilepath := Some(dataFolder + filename);
      rawDataLocLbl := "Raw Data File: " + filename;
      return None;
    }

    /**
     * save_text_and_clear with `reading` the scope's answer. An entry that
     * is not a number adds nothing and shows the error message. A number
     * clears the message and disables Submit. Without a time constant
     * (setup never pressed) or a file path (setup failed), Python's
     * AttributeError stops it there: nothing is added, the entry is kept
     * and Submit stays disabled. Otherwise exactly one row is added,
     * holding the entry's text and the reading, the entry is cleared and
     * Submit is enabled again.
     */
    method SaveTextAndClear(isFloat: string -> bool, reading: Reading) returns (err: Option<Error>)
      requires Valid()
      modifies this`rawData, this`currentEntry, this`errorDisplayLbl, this`submitEnabled
      ensures Valid()
      ensures !AcceptableNumber(old(currentEntry), isFloat) ==>
                err.None? && rawData == old(rawData) && currentEntry == old(currentEntry)
                && errorDisplayLbl == "Current value must be a number." && submitEnabled == old(submitEnabled)
      ensures AcceptableNumber(old(currentEntry), isFloat) && timeConstant.None? ==>
                err == Some(AttributeError("time_constant"))
      ensures AcceptableNumber(old(currentEntry), isFloat) && timeConstant.Some? && dataFilepath.None? ==>
                err == Some(AttributeError("data_filepath"))
      ensures AcceptableNumber(old(currentEntry), isFloat) ==>
                errorDisplayLbl == "" && (err.None? <==> dataFilepath.Some?)
      ensures err.Some? ==>
                rawData == old(rawData) && currentEntry == old(currentEntry) && !submitEnabled
      ensures AcceptableNumber(old(currentEntry), isFloat) && dataFilepath.Some? ==>
                rawData == old(rawData) + [CollectedRow(old(currentEntry), reading.mean, reading.meanAbsError, reading.stdDev)]
                && currentEntry == "" && submitEnabled
    {
      var val := currentEntry;
      var isOK := EntryExistsIsNumber(val, isFloat);
      if !isOK {
        errorDisplayLbl := "Current value must be a number.";
        return None;
      }
      submitEnabled := false;
      errorDisplayLbl := "";
      if timeConstant.None? {
        return Some(AttributeError("time_constant"));
      }
      var c := currentEntry;
      if dataFilepath.None? {
        return Some(AttributeError("data_filepath"));
      }
      var newRow := CollectedRow(c, reading.mean, reading.meanAbsError, reading.stdDev);
      rawData := rawData + [newRow];
      currentEntry := "";
      submitEnabled := true;
      return None;
    }
  }
}
