/**
 * analysis/density_analysis/app.py: the second analysis app, which loads a
 * raw-data file, decodes its name and looks up the trial's conversion
 * factor. Unlike density_analysis/app.py it keeps the popped path segment
 * whole (extension included) as the raw file name and strips the
 * extension only from the trial field. The window is not modelled; the
 * file the dialog returns, its rows and the day's Experiment_Params rows
 * are parameters of ChooseFile.
 */
module AnalysisApp {
  import opened Wrappers
  import opened Text
  import opened TrialFiles

  class App {
    var rawData: seq<RawRow>
    var rawFilename: string
    var baseFilepath: string
    var date: string
    var cellId: string
    var ovenTemp: string
    var trialNum: string
    var paramFilename: string
    var paramFilepath: string
    var conversionFactor: real
    var conversionFactorErr: real

    /** Nothing loaded yet. */
    constructor()
      ensures rawData == [] && rawFilename == "" && baseFilepath == ""
    {
      rawData := [];
      rawFilename := "";
      baseFilepath := "";
      date := "";
      cellId := "";
      ovenTemp := "";
      trialNum := "";
      paramFilename := "";
      paramFilepath := "";
      conversionFactor := 0.0;
      conversionFactorErr := 0.0;
    }

    /**
     * deconstruct_filename: the date is part 0 of the '_'-split name; cell
     * and temperature are the values after '-' in parts 1 and 2, the trial
     * the value after '-' in part 3 with its extension cut off. Python
     * assigns the fields in that order, so a failing part leaves it and the
     * fields after it as they were.
     */
    method DeconstructFilename() returns (err: Option<Error>)
      modifies this`date, this`cellId, this`ovenTemp, this`trialNum
      ensures (TrialInfo(date, cellId, ovenTemp, trialNum), err)
           == Deconstruct(rawFilename, old(TrialInfo(date, cellId, ovenTemp, trialNum)))
    {
      var fnArr := Split(rawFilename, '_');
      ghost var fields := NameFields(fnArr);
      date := fnArr[0];
      ghost var info0 := TrialInfo(date, cellId, ovenTemp, trialNum);
      var f := PartField(fnArr, 1);
      if f.Err? {
        return Some(f.error);
      }
      cellId := f.value;
      AssignFieldsStep(fields, info0, 1);
      f := PartField(fnArr, 2);
      if f.Err? {
        return Some(f.error);
      }
      ovenTemp := f.value;
      AssignFieldsStep(fields, TrialInfo(date, cellId, old(ovenTemp), trialNum), 2);
      f := TrialField(fnArr);
      if f.Err? {
        return Some(f.error);
      }
      trialNum := f.value;
      AssignFieldsStep(fields, TrialInfo(date, cellId, ovenTemp, old(trialNum)), 3);
      return None;
    }

    /**
     * get_experiment_params: the day's parameter file is named after the
     * date; the conversion factor and its error come from the first row
     * of `allParams` for this trial. On failure they are left as they were.
     */
    method GetExperimentParams(allParams: seq<ParamsRow>) returns (err: Option<Error>)
      modifies this`paramFilename, this`paramFilepath, this`conversionFactor, this`conversionFactorErr
      ensures paramFilename == ParamFilename(date)
      ensures paramFilepath == baseFilepath + ParamFilename(date)
      ensures err.None? <==> SelectTrialParams(allParams, trialNum).Ok?
      ensures err.Some? ==> err == Some(SelectTrialParams(allParams, trialNum).error)
      ensures err.None? ==> (conversionFactor == SelectTrialParams(allParams, trialNum).value.conversionFactor
                             && conversionFactorErr == SelectTrialParams(allParams, trialNum).value.conversionFactorError)
      ensures err.Some? ==> conversionFactor == old(conversionFactor) && conversionFactorErr == old(conversionFactorErr)
    {
      paramFilename := ParamFilename(date);
      paramFilepath := baseFilepath + paramFilename;
      var row := SelectTrialParams(allParams, trialNum);
      if row.Err? {
        return Some(row.error);
      }
      conversionFactor := row.value.conversionFactor;
      conversionFactorErr := row.value.conversionFactorError;
      return None;
    }

    /**
     * The path split of choose_file: the raw data are loaded, the popped
     * last segment is the raw file name and the segments before it,
     * rebuilt, are the base path, so that the two together are the path.
     */
    method LoadChosenFile(file: string, data: seq<RawRow>)
      modifies this`rawData, this`rawFilename, this`baseFilepath
      ensures rawData == data
      ensures rawFilename == Last(Split(file, '/')) && '/' !in rawFilename
      ensures baseFilepath + rawFilename == file
    {
      rawData := data;
      ChosenPathRebuilt(file);
      var rf := Split(file, '/');
      rawFilename := Last(rf);
      rf := rf[..|rf| - 1];
      baseFilepath := ReconstructBasefilepath(rf);
    }

    /**
     * The first half of choose_file: load the chosen file and decode its
     * name. The name's fields are those Deconstruct reads, starting from
     * the old ones, and the error is Deconstruct's.
     */
    method LoadAndDecode(file: string, data: seq<RawRow>) returns (err: Option<Error>)
      modifies this`rawData, this`rawFilename, this`baseFilepath, this`date, this`cellId, this`ovenTemp,
               this`trialNum
      ensures rawData == data
      ensures rawFilename == Last(Split(file, '/')) && '/' !in rawFilename
      ensures baseFilepath + rawFilename == file
      ensures (TrialInfo(date, cellId, ovenTemp, trialNum), err)
           == Deconstruct(rawFilename, old(TrialInfo(date, cellId, ovenTemp, trialNum)))
    {
      LoadChosenFile(file, data);
      err := DeconstructFilename();
    }

    /**
     * choose_file after the dialog: load the file, decode its name and look
     * up the trial's parameters, stopping at the first error. The name's
     * fields are those Deconstruct reads, starting from the old ones. A name
     * that cannot be decoded returns its error and leaves the parameter
     * file's name and path as they were. Otherwise those are set from the
     * date before the lookup, and the call succeeds
     * exactly when the trial's row is found, and a missing row returns the
     * lookup's error. On success the conversion factors are that row's; on
     * any error they are as they were.
     */
    method ChooseFile(file: string, data: seq<RawRow>, allParams: seq<ParamsRow>) returns (err: Option<Error>)
      modifies this`rawData, this`rawFilename, this`baseFilepath, this`date, this`cellId, this`ovenTemp,
               this`trialNum, this`paramFilename, this`paramFilepath, this`conversionFactor, this`conversionFactorErr
      ensures rawData == data
      ensures rawFilename == Last(Split(file, '/')) && '/' !in rawFilename
      ensures baseFilepath + rawFilename == file
      ensures var (info, decodeErr) := Deconstruct(rawFilename, old(TrialInfo(date, cellId, ovenTemp, trialNum)));
              TrialInfo(date, cellId, ovenTemp, trialNum) == info
              && (decodeErr.Some? ==> err == decodeErr)
              && (decodeErr.None? ==>
                    (err.None? <==> SelectTrialParams(allParams, info.trialNum).Ok?)
                    && (err.Some? ==> err == Some(SelectTrialParams(allParams, info.trialNum).error)))
              && (decodeErr.None? ==>
                    paramFilename == ParamFilename(info.date) && paramFilepath == baseFilepath + ParamFilename(info.date))
              && (decodeErr.Some? ==> paramFilename == old(paramFilename) && paramFilepath == old(paramFilepath))
      ensures err.None? ==>
                conversionFactor == SelectTrialParams(allParams, trialNum).value.conversionFactor
                && conversionFactorErr == SelectTrialParams(allParams, trialNum).value.conversionFactorError
      ensures err.Some? ==> conversionFactor == old(conversionFactor) && conversionFactorErr == old(conversionFactorErr)
    {
      err := LoadAndDecode(file, data);
      if err.Some? {
        return;
      }
      err := GetExperimentParams(allParams);
    }
  }

  /** `fn_arr[3].split(".")[0].split("-")[1]`: the trial field without its extension. */
  function TrialField(parts: seq<string>): (r: Result<string>)
    ensures 3 >= |parts| ==> r.Err? && r.error.IndexError?
    ensures 3 < |parts| ==> r == DashField(Split(parts[3], '.')[0])
    ensures r.Ok? ==> '.' !in r.value && '-' !in r.value
  {
    if 3 < |parts| then
      var stem := Split(parts[3], '.')[0];
      SplitPiecesLackSeparator(parts[3], '.');
      DashField(stem)
    else Err(IndexError("fn_arr[3]"))
  }

  /** The cell, temperature and trial fields of this app's file names. */
  function NameFields(parts: seq<string>): (fields: seq<Result<string>>)
    ensures |fields| == 3
  {
    [PartField(parts, 1), PartField(parts, 2), TrialField(parts)]
  }

  /** deconstruct_filename as a value, starting from the fields `before`. */
  function Deconstruct(fn: string, before: TrialInfo): (TrialInfo, Option<Error>)
  {
    var parts := Split(fn, '_');
    AssignFields(NameFields(parts), before.(date := parts[0]), 1)
  }
}
