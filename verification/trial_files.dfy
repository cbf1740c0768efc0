/**
 * What the two analysis apps (density_analysis/app.py and
 * analysis/density_analysis/app.py) share: the raw-data row they read, the
 * "tag-value" fields of a trial file name, the path rebuild loop and the
 * selection of a trial's row in the day's Experiment_Params file.
 */
module TrialFiles {
  import opened Wrappers
  import opened Text

  /** One row of a raw-data CSV: coil current and the lock-in voltage statistics. */
  datatype RawRow = RawRow(current: real, voltage: real, voltageMae: real, voltageStd: real)

  /** The four fields a trial file name encodes. */
  datatype TrialInfo = TrialInfo(date: string, cellId: string, ovenTemp: string, trialNum: string)

  /**
   * The raw-data file name collection_setup builds for a trial: the date,
   * then "cell-", "temp-" and "trial-" parts joined by '_', then ".csv".
   */
  function TrialFilename(date: string, cell: string, temp: string, trial: string): (fn: string)
    ensures |fn| == |date| + |cell| + |temp| + |trial| + 23
    ensures fn[|fn| - 4..] == ".csv"
    ensures fn[..|date|] == date
  {
    var trialPart := "trial-" + trial;
    var cellPart := "cell-" + cell;
    var tempPart := "temp-" + temp;
    date + "_" + cellPart + "_" + tempPart + "_" + trialPart + ".csv"
  }

  /** `part.split("-")[1]`; a part without '-' is Python's IndexError. */
  function DashField(part: string): (r: Result<string>)
    ensures r.Ok? <==> '-' in part
    ensures r.Ok? ==> '-' !in r.value
    ensures r.Ok? ==> forall c :: c in r.value ==> c in part
  {
    var fields := Split(part, '-');
    SplitSingleIff(part, '-');
    SplitPiecesLackSeparator(part, '-');
    SplitPiecesWithin(part, '-');
    if |fields| < 2 then Err(IndexError("split('-')[1]")) else Ok(fields[1])
  }

  /** `fn_arr[k].split("-")[1]`, with the IndexError of a missing part first. */
  function PartField(parts: seq<string>, k: nat): (r: Result<string>)
    ensures k >= |parts| ==> r.Err? && r.error.IndexError?
    ensures k < |parts| ==> r == DashField(parts[k])
  {
    if k < |parts| then DashField(parts[k]) else Err(IndexError("fn_arr[k]"))
  }

  /** The field a "tag-value" part carries is the value, whatever the tag. */
  lemma DashFieldOfTagged(tag: string, value: string)
    requires '-' !in tag && '-' !in value
    ensures DashField(tag + "-" + value) == Ok(value)
  {
    SplitConcat(tag, value, '-');
    SplitWithoutSeparator(tag, '-');
    SplitWithoutSeparator(value, '-');
  }

  /** `info` with field k replaced: 1 is the cell, 2 the oven temperature, 3 the trial. */
  function WithField(info: TrialInfo, k: nat, v: string): TrialInfo
  {
    if k == 1 then info.(cellId := v)
    else if k == 2 then info.(ovenTemp := v)
    else info.(trialNum := v)
  }

  /**
   * deconstruct_filename's assignments from field k on: each field that can
   * be read is stored, in order, and the first that cannot ends the
   * sequence with its error.
   */
  function AssignFields(fields: seq<Result<string>>, info: TrialInfo, k: nat): (TrialInfo, Option<Error>)
    requires |fields| == 3 && 1 <= k
    decreases 4 - k
  {
    if k > 3 then (info, None)
    else
      match fields[k - 1]
      case Err(e) => (info, Some(e))
      case Ok(v) => AssignFields(fields, WithField(info, k, v), k + 1)
  }

  /** One assignment step: storing a readable field k continues from k + 1. */
  lemma AssignFieldsStep(fields: seq<Result<string>>, info: TrialInfo, k: nat)
    requires |fields| == 3 && 1 <= k <= 3 && fields[k - 1].Ok?
    ensures AssignFields(fields, info, k) == AssignFields(fields, WithField(info, k, fields[k - 1].value), k + 1)
  {
  }

  /**
   * What the assignments leave behind: all three fields, independent of the
   * old ones, when every field can be read; otherwise the first error, with
   * the fields before it stored and the failing one and those after it as
   * they were.
   */
  lemma AssignFieldsOutcome(fields: seq<Result<string>>, d: TrialInfo)
    requires |fields| == 3
    ensures var (after, err) := AssignFields(fields, d, 1);
            after.date == d.date
            && (err.None? <==> fields[0].Ok? && fields[1].Ok? && fields[2].Ok?)
            && (err.None? ==> after == TrialInfo(d.date, fields[0].value, fields[1].value, fields[2].value))
            && (fields[0].Err? ==> err == Some(fields[0].error) && after == d)
            && (fields[0].Ok? && fields[1].Err? ==>
                  err == Some(fields[1].error) && after == d.(cellId := fields[0].value))
            && (fields[0].Ok? && fields[1].Ok? && fields[2].Err? ==>
                  err == Some(fields[2].error)
                  && after == d.(cellId := fields[0].value, ovenTemp := fields[1].value))
  {
    if fields[0].Ok? {
      var c := WithField(d, 1, fields[0].value);
      AssignFieldsStep(fields, d, 1);
      if fields[1].Ok? {
        var t := WithField(c, 2, fields[1].value);
        AssignFieldsStep(fields, c, 2);
        if fields[2].Ok? {
          AssignFieldsStep(fields, t, 3);
        }
      }
    }
  }

  /**
   * reconstruct_basefilepath: every segment followed by '/', so "" for an
   * empty list. Both analysis apps carry this same loop.
   */
  method ReconstructBasefilepath(arr: seq<string>) returns (basefp: string)
    ensures basefp == Terminated(arr, '/')
    ensures |arr| == 0 <==> basefp == ""
    ensures |arr| > 0 ==> Last(basefp) == '/'
  {
    basefp := "";
    for i := 0 to |arr|
      invariant basefp == Terminated(arr[..i], '/')
    {
      assert arr[..i + 1][..i] == arr[..i];
      basefp := basefp + arr[i] + "/";
    }
    assert arr[..|arr|] == arr;
  }

  /**
   * The choose_file path split: the segments before the popped last one,
   * rebuilt, followed by the popped segment, give back the chosen path.
   */
  lemma ChosenPathRebuilt(file: string)
    ensures var rf := Split(file, '/');
            Terminated(rf[..|rf| - 1], '/') + Last(rf) == file
    ensures '/' !in Last(Split(file, '/'))
  {
    PathRebuild(file, '/');
    SplitPiecesLackSeparator(file, '/');
  }

  /** One row of an Experiment_Params CSV, as the analysis apps read it. */
  datatype ParamsRow = ParamsRow(trialNumber: int, conversionFactor: real, conversionFactorError: real)

  /** The name of the day's parameter file. */
  function ParamFilename(date: string): string
  {
    "Experiment_Params_" + date + ".csv"
  }

  /** Position of the first row whose Trial Number is `trial`, if any. */
  function FirstTrialIndex(rows: seq<ParamsRow>, trial: int): (k: Option<nat>)
    ensures k.Some? ==> k.value < |rows| && rows[k.value].trialNumber == trial
    ensures k.Some? ==> forall j :: 0 <= j < k.value ==> rows[j].trialNumber != trial
    ensures k.None? ==> forall j :: 0 <= j < |rows| ==> rows[j].trialNumber != trial
  {
    if |rows| == 0 then None
    else if rows[0].trialNumber == trial then Some(0)
    else
      match FirstTrialIndex(rows[1..], trial)
      case None => None
      case Some(j) => Some(j + 1)
  }

  /**
   * The trial-row selection of get_experiment_params: the rows whose Trial
   * Number equals int(trial_num), re-indexed, and row 0 of that. A
   * non-integer trial text is Python's ValueError, an empty selection the
   * KeyError of `[0]`.
   */
  function SelectTrialParams(rows: seq<ParamsRow>, trialText: string): (r: Result<ParamsRow>)
    ensures ParseInt(trialText).None? ==> r.Err? && r.error.ValueError?
    ensures r.Ok? <==> ParseInt(trialText).Some?
                       && exists j :: 0 <= j < |rows| && rows[j].trialNumber == ParseInt(trialText).value
    ensures r.Ok? ==> r.value.trialNumber == ParseInt(trialText).value
    ensures r.Ok? ==> exists k :: 0 <= k < |rows| && rows[k] == r.value
                                  && forall j :: 0 <= j < k ==> rows[j].trialNumber != r.value.trialNumber
  {
    match ParseInt(trialText)
    case None => Err(ValueError("int(trial_num)"))
    case Some(trial) =>
      match FirstTrialIndex(rows, trial)
      case None => Err(KeyError("experiment_params[...][0]"))
      case Some(k) => Ok(rows[k])
  }
}
