/**
 * density_analysis/app.py: the analysis app that turns a raw-data file into
 * a processed file of fields and rotations. The window and its widgets are
 * not modelled; the file the dialog returns, the CSV it holds and the day's
 * Experiment_Params rows are parameters of ChooseFile.
 */
module DensityAnalysisApp {
  import opened Wrappers
  import opened Text
  import opened PySeq
  import opened DensityCommon
  import opened TrialFiles

  /** The voltages of the rows whose current is exactly zero, in file order. */
  function ZeroCurrentVoltages(rows: seq<RawRow>): (vs: seq<real>)
    ensures |vs| <= |rows|
    ensures |vs| == 0 <==> forall i :: 0 <= i < |rows| ==> rows[i].current != 0.0
    ensures forall v :: v in vs ==> exists i :: 0 <= i < |rows| && rows[i].current == 0.0 && rows[i].voltage == v
  {
    if |rows| == 0 then []
    else
      var rest := ZeroCurrentVoltages(rows[1..]);
      assert forall i :: 1 <= i < |rows| ==> rows[i] == rows[1..][i - 1];
      if rows[0].current == 0.0 then [rows[0].voltage] + rest else rest
  }

  /** With the first row the only zero-current row, the reference is that row's voltage. */
  lemma ZeroReferenceIsFirstSample(rows: seq<RawRow>)
    requires |rows| > 0 && rows[0].current == 0.0
    requires forall i :: 1 <= i < |rows| ==> rows[i].current != 0.0
    ensures ZeroCurrentVoltages(rows) == [rows[0].voltage]
  {
    assert forall i :: 0 <= i < |rows[1..]| ==> rows[1..][i] == rows[i + 1];
  }

  /**
   * A rotation of the processed file. `None` stands for the NaN numpy
   * produces when the zero-rotation voltage is the mean of no samples.
   */
  function RotationAt(voltage: real, zeroVoltage: Option<real>, conversion: real): (r: Option<real>)
    ensures r.Some? <==> zeroVoltage.Some?
    ensures r.Some? ==> r.value == ConvertVtoRot(voltage, zeroVoltage.value, conversion)
  {
    if zeroVoltage.Some? then Some(ConvertVtoRot(voltage, zeroVoltage.value, conversion)) else None
  }

  /**
   * One row of the processed data frame: the columns "Magnetic Field
   * (Gauss)", "Rotation (Radians)", "Rotation Mean Absolute Error" and
   * "Rotation Standard Deviation".
   */
  datatype ProcessedRow = ProcessedRow(magneticField: real, rotation: Option<real>,
                                       rotationMae: real, rotationStd: real)

  /** The processed row of one raw row, against the zero-rotation voltage `zero` and conversion factor k. */
  function ProcessedRowOf(raw: RawRow, zero: Option<real>, k: real): (p: ProcessedRow)
    ensures p.magneticField == ConvertItoBMainroom(raw.current)
    ensures p.rotation == RotationAt(raw.voltage, zero, k)
    ensures p.rotationMae == raw.voltageMae * k && p.rotationStd == raw.voltageStd * k
  {
    ProcessedRow(ConvertItoBMainroom(raw.current), RotationAt(raw.voltage, zero, k),
                 raw.voltageMae * k, raw.voltageStd * k)
  }

  /** The conversion loop of createProcessedFile: one processed row per raw row, in order. */
  method ProcessRows(raw: seq<RawRow>, zero: Option<real>, k: real) returns (rows: seq<ProcessedRow>)
    ensures |rows| == |raw|
    ensures forall i :: 0 <= i < |raw| ==> rows[i] == ProcessedRowOf(raw[i], zero, k)
  {
    rows := [];
    for i := 0 to |raw|
      invariant |rows| == i
      invariant forall j :: 0 <= j < i ==> rows[j] == ProcessedRowOf(raw[j], zero, k)
    {
      rows := rows + [ProcessedRowOf(raw[i], zero, k)];
    }
  }

  class App {
    /** The Verdet constant and glass depth inputs; no operation reads them. */
    var verdet: real
    var verdetPathLen: real

    var rawData: seq<RawRow>
    var rawFilename: string
    var baseFilepath: string
    var date: string
    var cellId: string
    var ovenTemp: string
    var trialNum: string
    var paramFilename: string
    var paramFilepath: string
    var conversionFactor: real
    var conversionFactorErr: real

    /* the processed file */
    var processedFilename: string
    var processedFilepath: string
    var processedData: seq<ProcessedRow>

    /** The state the window starts with: Verdet constant and glass depth 1, nothing loaded. */
    constructor()
      ensures verdet == 1.0 && verdetPathLen == 1.0
      ensures rawData == [] && rawFilename == "" && baseFilepath == ""
      ensures processedData == []
    {
      verdet := 1.0;
      verdetPathLen := 1.0;
      rawData := [];
      rawFilename := "";
      baseFilepath := "";
      date := "";
      cellId := "";
      ovenTemp := "";
      trialNum := "";
      paramFilename := "";
      paramFilepath := "";
      conversionFactor := 0.0;
      conversionFactorErr := 0.0;
      processedFilename := "";
      processedFilepath := "";
      processedData := [];
    }

    /**
     * getZeroRotationVoltage: the mean voltage of the zero-current samples;
     * `None` (numpy's NaN) when there is none.
     */
    function GetZeroRotationVoltage(): (v: Option<real>)
      reads this
      ensures v.None? <==> forall i :: 0 <= i < |rawData| ==> rawData[i].current != 0.0
      ensures v.Some? ==> v.value * |ZeroCurrentVoltages(rawData)| as real == Sum(ZeroCurrentVoltages(rawData))
    {
      Mean(ZeroCurrentVoltages(rawData))
    }

    /**
     * createProcessedFile: one processed row per raw row. The field is
     * 2.17 G/A times the current, the rotation is taken against the
     * zero-rotation voltage, and both voltage errors are scaled by the
     * conversion factor. The Verdet glass correction is not applied.
     */
    method CreateProcessedFile()
      modifies this`processedFilename, this`processedFilepath, this`processedData
      ensures processedFilename == rawFilename + "_processed.csv"
      ensures processedFilepath == baseFilepath + rawFilename + "_processed.csv"
      ensures |processedData| == |rawData|
      ensures forall i :: 0 <= i < |rawData| ==>
                processedData[i].magneticField == ConvertItoBMainroom(rawData[i].current)
                && processedData[i].rotation == RotationAt(rawData[i].voltage, GetZeroRotationVoltage(), conversionFactor)
                && processedData[i].rotationMae == rawData[i].voltageMae * conversionFactor
                && processedData[i].rotationStd == rawData[i].voltageStd * conversionFactor
    ensures forall i :: 0 <= i < |rawData| ==>
              processedData[i] == ProcessedRowOf(rawData[i], GetZeroRotationVoltage(), conversionFactor)
    {
      processedFilename := rawFilename + "_processed.csv";
      processedFilepath := baseFilepath + processedFilename;
      var zeroRotationVoltage := GetZeroRotationVoltage();
      processedData := ProcessRows(rawData, zeroRotationVoltage, conversionFactor);
    }

    /**
     * deconstruct_filename: the date is part 0 of the '_'-split name; cell,
     * temperature and trial are the values after '-' in parts 1, 2 and 3.
     * Python assigns the fields in that order, so a failing part leaves it
     * and the fields after it as they were.
     */
    method DeconstructFilename() returns (err: Option<Error>)
      modifies this`date, this`cellId, this`ovenTemp, this`trialNum
      ensures (TrialInfo(date, cellId, ovenTemp, trialNum), err)
           == Deconstruct(rawFilename, old(TrialInfo(date, cellId, ovenTemp, trialNum)))
    {
      var fnArr := Split(rawFilename, '_');
      ghost var fields := NameFields(fnArr);
      date := fnArr[0];
      ghost var info0 := TrialInfo(date, cellId, ovenTemp, trialNum);
      var f := PartField(fnArr, 1);
      if f.Err? {
        return Some(f.error);
      }
      cellId := f.value;
      AssignFieldsStep(fields, info0, 1);
      f := PartField(fnArr, 2);
      if f.Err? {
        return Some(f.error);
      }
      ovenTemp := f.value;
      AssignFieldsStep(fields, TrialInfo(date, cellId, old(ovenTemp), trialNum), 2);
      f := PartField(fnArr, 3);
      if f.Err? {
        return Some(f.error);
      }
      trialNum := f.value;
      AssignFieldsStep(fields, TrialInfo(date, cellId, ovenTemp, old(trialNum)), 3);
      return None;
    }

    /**
     * get_experiment_params: the day's parameter file is named after the
     * date; the conversion factor and its error come from the first row
     * of `allParams` for this trial. On failure they are left as they were.
     */
    method GetExperimentParams(allParams: seq<ParamsRow>) returns (err: Option<Error>)
      modifies this`paramFilename, this`paramFilepath, this`conversionFactor, this`conversionFactorErr
      ensures paramFilename == ParamFilename(date)
      ensures paramFilepath == baseFilepath + ParamFilename(date)
      ensures err.None? <==> SelectTrialParams(allParams, trialNum).Ok?
      ensures err.Some? ==> err == Some(SelectTrialParams(allParams, trialNum).error)
      ensures err.None? ==> (conversionFactor == SelectTrialParams(allParams, trialNum).value.conversionFactor
                             && conversionFactorErr == SelectTrialParams(allParams, trialNum).value.conversionFactorError)
      ensures err.Some? ==> conversionFactor == old(conversionFactor) && conversionFactorErr == old(conversionFactorErr)
    {
      paramFilename := ParamFilename(date);
      paramFilepath := baseFilepath + paramFilename;
      var row := SelectTrialParams(allParams, trialNum);
      if row.Err? {
        return Some(row.error);
      }
      conversionFactor := row.value.conversionFactor;
      conversionFactorErr := row.value.conversionFactorError;
      return None;
    }

    /**
     * The path split of choose_file: the raw data are loaded, the last path
     * segment without its extension is the raw file name and the segments
     * before it, rebuilt, are the base path.
     */
    method LoadChosenFile(file: string, data: seq<RawRow>)
      modifies this`rawData, this`rawFilename, this`baseFilepath
      ensures rawData == data
      ensures rawFilename == Split(Last(Split(file, '/')), '.')[0]
      ensures baseFilepath + Last(Split(file, '/')) == file
    {
      rawData := data;
      ChosenPathRebuilt(file);
      var rf := Split(file, '/');
      var popped := Last(rf);
      rf := rf[..|rf| - 1];
      rawFilename := Split(popped, '.')[0];
      baseFilepath := ReconstructBasefilepath(rf);
    }

    /**
     * The first half of choose_file: load the chosen file and decode its
     * name. The name's fields are those Deconstruct reads, starting from
     * the old ones, and the error is Deconstruct's.
     */
    method LoadAndDecode(file: string, data: seq<RawRow>) returns (err: Option<Error>)
      modifies this`rawData, this`rawFilename, this`baseFilepath, this`date, this`cellId, this`ovenTemp,
               this`trialNum
      ensures rawData == data
      ensures rawFilename == Split(Last(Split(file, '/')), '.')[0]
      ensures baseFilepath + Last(Split(file, '/')) == file
      ensures (TrialInfo(date, cellId, ovenTemp, trialNum), err)
           == Deconstruct(rawFilename, old(TrialInfo(date, cellId, ovenTemp, trialNum)))
    {
      LoadChosenFile(file, data);
      err := DeconstructFilename();
    }

    /**
     * The second half of choose_file: name the day's parameter file, look up
     * the trial's parameters and build the processed file. It succeeds
     * exactly when the trial's row is found, and otherwise returns the
     * lookup's error. On success the conversion factors are that row's and
     * the processed file and table are built from the raw ones. On error the
     * factors and the processed file's name, path and table are as they were.
     */
    method LookUpAndProcess(allParams: seq<ParamsRow>) returns (err: Option<Error>)
      modifies this`paramFilename, this`paramFilepath, this`conversionFactor,
               this`conversionFactorErr, this`processedFilename, this`processedFilepath, this`processedData
      ensures paramFilename == ParamFilename(date) && paramFilepath == baseFilepath + ParamFilename(date)
      ensures err.None? <==> SelectTrialParams(allParams, trialNum).Ok?
      ensures err.Some? ==> err == Some(SelectTrialParams(allParams, trialNum).error)
      ensures err.None? ==>
                conversionFactor == SelectTrialParams(allParams, trialNum).value.conversionFactor
                && conversionFactorErr == SelectTrialParams(allParams, trialNum).value.conversionFactorError
      ensures err.None? ==>
                |processedData| == |rawData|
                && forall i :: 0 <= i < |rawData| ==>
                     processedData[i] == ProcessedRowOf(rawData[i], Mean(ZeroCurrentVoltages(rawData)), conversionFactor)
      ensures err.None? ==>
                processedFilename == rawFilename + "_processed.csv"
                && processedFilepath == baseFilepath + rawFilename + "_processed.csv"
      ensures err.Some? ==>
                conversionFactor == old(conversionFactor) && conversionFactorErr == old(conversionFactorErr)
                && processedData == old(processedData)
                && processedFilename == old(processedFilename) && processedFilepath == old(processedFilepath)
    {
      err := GetExperimentParams(allParams);
      if err.Some? {
        return;
      }
      CreateProcessedFile();
    }

    /**
     * choose_file after the dialog: load the file, decode its name, look up
     * the trial's parameters and build the processed file, stopping at the
     * first error. A name that cannot be decoded returns its error and
     * leaves the parameter file's name and path as they were. Otherwise
     * those are set from the date before the lookup, and the call succeeds
     * exactly when the trial's row is found; a missing row returns the
     * lookup's error. On success the conversion factors are that row's, the
     * processed file is named after the raw file and the processed table
     * holds one processed row per loaded raw row. On any error the factors
     * and the processed file's name, path and table are as they were.
     */
    method ChooseFile(file: string, data: seq<RawRow>, allParams: seq<ParamsRow>) returns (err: Option<Error>)
      modifies this`rawData, this`rawFilename, this`baseFilepath, this`date, this`cellId, this`ovenTemp,
               this`trialNum, this`paramFilename, this`paramFilepath, this`conversionFactor,
               this`conversionFactorErr, this`processedFilename, this`processedFilepath, this`processedData
      ensures rawData == data
      ensures rawFilename == Split(Last(Split(file, '/')), '.')[0]
      ensures baseFilepath + Last(Split(file, '/')) == file
      ensures var (info, decodeErr) := Deconstruct(rawFilename, old(TrialInfo(date, cellId, ovenTemp, trialNum)));
              TrialInfo(date, cellId, ovenTemp, trialNum) == info
              && (decodeErr.Some? ==> err == decodeErr)
              && (decodeErr.None? ==>
                    (err.None? <==> SelectTrialParams(allParams, info.trialNum).Ok?)
                    && (err.Some? ==> err == Some(SelectTrialParams(allParams, info.trialNum).error)))
              && (decodeErr.None? ==>
                    paramFilename == ParamFilename(info.date) && paramFilepath == baseFilepath + ParamFilename(info.date))
              && (decodeErr.Some? ==> paramFilename == old(paramFilename) && paramFilepath == old(paramFilepath))
      ensures err.None? ==>
                processedFilename == rawFilename + "_processed.csv"
                && processedFilepath == baseFilepath + rawFilename + "_processed.csv"
      ensures err.Some? ==>
                processedFilename == old(processedFilename) && processedFilepath == old(processedFilepath)
      ensures err.None? ==>
                conversionFactor == SelectTrialParams(allParams, trialNum).value.conversionFactor
                && conversionFactorErr == SelectTrialParams(allParams, trialNum).value.conversionFactorError
      ensures err.None? ==>
                |processedData| == |data|
                && forall i :: 0 <= i < |data| ==>
                     processedData[i] == ProcessedRowOf(data[i], Mean(ZeroCurrentVoltages(data)), conversionFactor)
      ensures err.Some? ==>
                conversionFactor == old(conversionFactor) && conversionFactorErr == old(conversionFactorErr)
                && processedData == old(processedData)
    {
      err := LoadAndDecode(file, data);
      if err.Some? {
        return;
      }
      err := LookUpAndProcess(allParams);
    }
  }

  /** The cell, temperature and trial fields of this app's file names: the values after '-' in parts 1-3. */
  function NameFields(parts: seq<string>): (fields: seq<Result<string>>)
    ensures |fields| == 3
  {
    [PartField(parts, 1), PartField(parts, 2), PartField(parts, 3)]
  }

  /** deconstruct_filename as a value, starting from the fields `before`. */
  function Deconstruct(fn: string, before: TrialInfo): (TrialInfo, Option<Error>)
  {
    var parts := Split(fn, '_');
    AssignFields(NameFields(parts), before.(date := parts[0]), 1)
  }
}
