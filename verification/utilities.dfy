/**
 * Utilities.py: counting, record search and the dictionaries the older
 * tools save as JSON. The JSON file itself, the clock and the
 * scientific-notation formatter are not part of this model; the date a
 * record is stamped with is a parameter.
 */
module Utilities {
  import opened Wrappers
  import opened PySeq
  import opened DataPoints
  import opened PlotSettings

  /** count_data_sets: one count per element, by iteration. */
  method CountDataSets<T>(jsonData: seq<T>) returns (dataCount: nat)
    ensures dataCount == |jsonData|
  {
    dataCount := 0;
    for i := 0 to |jsonData|
      invariant dataCount == i
    {
      dataCount := dataCount + 1;
    }
  }

  /** count_keys: one count per key of the dictionary, by iteration over its keys. */
  method CountKeys<K, V>(dictObj: map<K, V>) returns (keyCount: nat)
    ensures keyCount == |dictObj|
  {
    keyCount := 0;
    var remaining := dictObj.Keys;
    while remaining != {}
      invariant remaining <= dictObj.Keys
      invariant keyCount + |remaining| == |dictObj.Keys|
      decreases |remaining|
    {
      var x :| x in remaining;
      remaining := remaining - {x};
      keyCount := keyCount + 1;
    }
  }

  /** The dictionary prepRawDataForFile builds. */
  datatype RawRecord = RawRecord(date: string, current: seq<real>, voltage: seq<real>, voltageError: seq<real>)

  /**
   * prepRawDataForFile, stamped with `currentTime`: three lists parallel to
   * the points. The voltageError list is filled from each point's x value,
   * the current, not from its error.
   */
  method PrepRawDataForFile(rawData: seq<DataPoint>, currentTime: string) returns (raw: RawRecord)
    ensures raw.date == currentTime
    ensures |raw.current| == |rawData| && |raw.voltage| == |rawData| && |raw.voltageError| == |rawData|
    ensures forall i :: 0 <= i < |rawData| ==>
              raw.current[i] == rawData[i].xVal && raw.voltage[i] == rawData[i].yVal
              && raw.voltageError[i] == rawData[i].xVal
    ensures raw.voltageError == raw.current
  {
    var currentArray: seq<real> := [];
    var voltageArray: seq<real> := [];
    var voltageErrArray: seq<real> := [];
    for k := 0 to |rawData|
      invariant |currentArray| == k && |voltageArray| == k && |voltageErrArray| == k
      invariant forall i :: 0 <= i < k ==>
                  currentArray[i] == rawData[i].xVal && voltageArray[i] == rawData[i].yVal
                  && voltageErrArray[i] == rawData[i].xVal
    {
      var p := rawData[k];
      currentArray := currentArray + [p.xVal];
      voltageArray := voltageArray + [p.yVal];
      voltageErrArray := voltageErrArray + [p.xVal];
    }
    raw := RawRecord(currentTime, currentArray, voltageArray, voltageErrArray);
  }

  /** The dictionary prepConvertedDataforFile builds, one trial of the rotation data file. */
  datatype ConvertedRecord = ConvertedRecord(
    dateCollected: string, trial: int, laserWavelength: real, opticalLength: real, ovenTemp: real,
    laserPower: real, rotationConversionFactor: real, laserTemp: real,
    magneticField: seq<real>, rotation: seq<real>, magFieldError: seq<real>, rotationError: seq<real>)

  /**
   * prepConvertedDataforFile, stamped with `today`: field, rotation and
   * rotation error lists parallel to the points, the error as a magnitude,
   * and an empty field-error list.
   */
  method PrepConvertedDataforFile(convertedData: seq<DataPoint>, trialNum: int, laserWl: real, optLen: real,
                                  temp: real, power: real, convFactor: real, laserT: real, today: string)
    returns (converted: ConvertedRecord)
    ensures converted.dateCollected == today && converted.trial == trialNum
    ensures converted.laserWavelength == laserWl && converted.opticalLength == optLen && converted.ovenTemp == temp
    ensures converted.laserPower == power && converted.rotationConversionFactor == convFactor
    ensures converted.laserTemp == laserT && converted.magFieldError == []
    ensures |converted.magneticField| == |convertedData| && |converted.rotation| == |convertedData|
    ensures |converted.rotationError| == |convertedData|
    ensures forall i :: 0 <= i < |convertedData| ==>
              converted.magneticField[i] == convertedData[i].xVal && converted.rotation[i] == convertedData[i].yVal
              && converted.rotationError[i] == Abs(convertedData[i].yErr) && converted.rotationError[i] >= 0.0
  {
    var bFieldArray: seq<real> := [];
    var rotationArray: seq<real> := [];
    var rotationErrArray: seq<real> := [];
    for k := 0 to |convertedData|
      invariant |bFieldArray| == k && |rotationArray| == k && |rotationErrArray| == k
      invariant forall i :: 0 <= i < k ==>
                  bFieldArray[i] == convertedData[i].xVal && rotationArray[i] == convertedData[i].yVal
                  && rotationErrArray[i] == Abs(convertedData[i].yErr)
    {
      var p := convertedData[k];
      bFieldArray := bFieldArray + [p.xVal];
      rotationArray := rotationArray + [p.yVal];
      rotationErrArray := rotationErrArray + [Abs(p.yErr)];
    }
    converted := ConvertedRecord(today, trialNum, laserWl, optLen, temp, power, convFactor, laserT,
                                 bFieldArray, rotationArray, [], rotationErrArray);
  }

  /** Position of the first record of that date and trial, if any. */
  function FirstMatch(jsonData: seq<ConvertedRecord>, date: string, trialnum: int): (k: Option<nat>)
    ensures k.Some? ==> k.value < |jsonData|
                        && jsonData[k.value].dateCollected == date && jsonData[k.value].trial == trialnum
    ensures k.Some? ==> forall j :: 0 <= j < k.value ==>
                          !(jsonData[j].dateCollected == date && jsonData[j].trial == trialnum)
    ensures k.None? <==> forall j :: 0 <= j < |jsonData| ==>
                           !(jsonData[j].dateCollected == date && jsonData[j].trial == trialnum)
  {
    if |jsonData| == 0 then None
    else if jsonData[0].dateCollected == date && jsonData[0].trial == trialnum then Some(0)
    else
      match FirstMatch(jsonData[1..], date, trialnum)
      case None => None
      case Some(j) => Some(j + 1)
  }

  /**
   * find_specific_trial: the plot data of the first record collected on
   * `date` with trial number `trialnum`, or nothing (Python's `[]`) when no
   * record matches.
   */
  method FindSpecificTrial(jsonData: seq<ConvertedRecord>, date: string, trialnum: int)
    returns (targetData: Option<Plotable>)
    ensures targetData.None? <==> FirstMatch(jsonData, date, trialnum).None?
    ensures targetData.Some? ==>
              var rec := jsonData[FirstMatch(jsonData, date, trialnum).value];
              fresh(targetData.value)
              && targetData.value.x == rec.magneticField && targetData.value.y == rec.rotation
              && targetData.value.xError == rec.magFieldError && targetData.value.yError == rec.rotationError
              && targetData.value.laserWavelength == rec.laserWavelength
              && targetData.value.opticalLength == rec.opticalLength
  {
    var dataIndex := 0;
    targetData := None;
    while dataIndex < |jsonData|
      invariant 0 <= dataIndex <= |jsonData|
      invariant forall j :: 0 <= j < dataIndex ==>
                  !(jsonData[j].dateCollected == date && jsonData[j].trial == trialnum)
    {
      var dataSet := jsonData[dataIndex];
      if dataSet.dateCollected == date && dataSet.trial == trialnum {
        var p := new Plotable(dataSet.magneticField, dataSet.rotation, dataSet.laserWavelength,
                              dataSet.opticalLength, dataSet.magFieldError, dataSet.rotationError);
        targetData := Some(p);
        FirstMatchAt(jsonData, date, trialnum, dataIndex);
        return;
      }
      dataIndex := dataIndex + 1;
    }
  }

  /** The first match is the first position that matches with none before it. */
  lemma {:induction false} FirstMatchAt(jsonData: seq<ConvertedRecord>, date: string, trialnum: int, k: nat)
    requires k < |jsonData| && jsonData[k].dateCollected == date && jsonData[k].trial == trialnum
    requires forall j :: 0 <= j < k ==> !(jsonData[j].dateCollected == date && jsonData[j].trial == trialnum)
    ensures FirstMatch(jsonData, date, trialnum) == Some(k)
  {
    if k > 0 {
      FirstMatchAt(jsonData[1..], date, trialnum, k - 1);
    }
  }

  /**
   * A record appended to the file is found again by its date and trial,
   * at its own position, as long as no earlier record has the same pair.
   */
  lemma SavedTrialIsFound(earlier: seq<ConvertedRecord>, rec: ConvertedRecord, later: seq<ConvertedRecord>)
    requires forall j :: 0 <= j < |earlier| ==> !(earlier[j].dateCollected == rec.dateCollected && earlier[j].trial == rec.trial)
    ensures FirstMatch(earlier + [rec] + later, rec.dateCollected, rec.trial) == Some(|earlier|)
  {
    var all := earlier + [rec] + later;
    assert forall j :: 0 <= j < |earlier| ==> all[j] == earlier[j];
    FirstMatchAt(all, rec.dateCollected, rec.trial, |earlier|);
  }

  /**
   * convertTemptoWavelength: the line -T + 781.75, scaled by 1e-7, so the
   * wavelength falls as the temperature rises.
   */
  function ConvertTemptoWavelength(laserTemp: real): (wavelength: real)
    ensures wavelength * 10000000.0 == 781.75 - laserTemp
  {
    var m := -1.0;
    var b := 781.75;
    (m * laserTemp + b) / 10000000.0
  }

  /** The conversion is strictly decreasing in the temperature. */
  lemma TempToWavelengthDecreasing(t1: real, t2: real)
    requires t1 < t2
    ensures ConvertTemptoWavelength(t2) < ConvertTemptoWavelength(t1)
  {
  }
}
