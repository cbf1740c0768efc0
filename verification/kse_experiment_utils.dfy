/**
 * KSEExperimentUtils.py: turning the spin-exchange experiment's timestamps
 * and DMM voltages into time intervals and frequencies. The CSV reading,
 * float() of the text columns and the pandas frames are not part of this
 * model; the columns arrive as numbers.
 */
module KseExperimentUtils {
  import opened Wrappers

  /* gyromagnetic ratios, Hz per gauss, for the high- and low-energy transitions */
  const Rb87GyromagneticRatioHE: real := -687948.167
  const Rb85GyromagneticRatioHE: real := -447338.733
  const Cs133GyromagneticRatioHE: real := -344814.813
  const Rb87GyromagneticRatioLE: real := -711218.443
  const Rb85GyromagneticRatioLE: real := -486146.856
  const Cs133GyromagneticRatioLE: real := -354909.377

  const ConvFactV: real := 0.1   // volts
  const ConvFactG: real := 0.01  // gauss
  const BFieldGain: real := 0.01 // 1/100

  /**
   * getTimeIntervals: each time minus the first, so the list keeps its
   * length and starts at 0. An empty list gives an empty list (times[0]
   * is never read).
   */
  method GetTimeIntervals(times: seq<real>) returns (deltaT: seq<real>)
    ensures |deltaT| == |times|
    ensures forall i :: 0 <= i < |times| ==> deltaT[i] == times[i] - times[0]
    ensures |times| > 0 ==> deltaT[0] == 0.0
  {
    var i := 0;
    deltaT := [];
    for k := 0 to |times|
      invariant i == k && |deltaT| == k
      invariant forall j :: 0 <= j < k ==> deltaT[j] == times[j] - times[0]
    {
      deltaT := deltaT + [times[i] - times[0]];
      i := i + 1;
    }
  }

  /** getMagetometerConversionFactor: gauss per volt, times the gain. */
  function GetMagetometerConversionFactor(volts: real, gauss: real, gain: real): (f: real)
    requires volts != 0.0
    ensures f * volts == gauss * gain
  {
    (gauss / volts) * gain
  }

  /** With the module's constants the magnetometer gives 0.001 gauss per volt. */
  lemma ModuleMagnetometerFactor()
    ensures GetMagetometerConversionFactor(ConvFactV, ConvFactG, BFieldGain) == 0.001
  {
  }

  /** The gyromagnetic ratio for a metal ("rb87", "rb85", "cs133") and transition ("low", "high"). */
  function GyromagneticRatio(metal: string, energy: string): (g: Option<real>)
    ensures g.Some? <==> (energy == "low" || energy == "high") && (metal == "rb87" || metal == "rb85" || metal == "cs133")
    ensures g.Some? ==> g.value < 0.0
  {
    if energy == "low" then
      if metal == "rb87" then Some(Rb87GyromagneticRatioLE)
      else if metal == "rb85" then Some(Rb85GyromagneticRatioLE)
      else if metal == "cs133" then Some(Cs133GyromagneticRatioLE)
      else None
    else if energy == "high" then
      if metal == "rb87" then Some(Rb87GyromagneticRatioHE)
      else if metal == "rb85" then Some(Rb85GyromagneticRatioHE)
      else if metal == "cs133" then Some(Cs133GyromagneticRatioHE)
      else None
    else None
  }

  /**
   * getVoltstoHzConversion: the magnetometer factor times the metal's
   * gyromagnetic ratio; 0 for a metal or energy it does not know.
   */
  function GetVoltstoHzConversion(metal: string, energy: string): (c: real)
    ensures GyromagneticRatio(metal, energy).None? ==> c == 0.0
    ensures GyromagneticRatio(metal, energy).Some? ==>
              c == 0.001 * GyromagneticRatio(metal, energy).value && c < 0.0
  {
    var mConvF := GetMagetometerConversionFactor(ConvFactV, ConvFactG, BFieldGain);
    ModuleMagnetometerFactor();
    var g := GyromagneticRatio(metal, energy);
    if g.Some? then mConvF * g.value else 0.0
  }

  /**
   * convertDMMData: every voltage's change from the first, converted to a
   * frequency. The first voltage is read before the loop, so an empty list
   * is an IndexError.
   */
  method ConvertDMMData(volts: seq<real>, metal: string, energy: string) returns (r: Result<seq<real>>)
    ensures r.Err? <==> |volts| == 0
    ensures r.Err? ==> r.error.IndexError?
    ensures r.Ok? ==> |r.value| == |volts| && r.value[0] == 0.0
    ensures r.Ok? ==> forall i :: 0 <= i < |volts| ==>
                        r.value[i] == VoltageChanges(volts)[i] * GetVoltstoHzConversion(metal, energy)
  {
    var dmmFreqs: seq<real> := [];
    var convf := GetVoltstoHzConversion(metal, energy);
    if |volts| == 0 {
      return Err(IndexError("volts[0]"));
    }
    var initialV := volts[0];
    ghost var target := seq(|volts|, i requires 0 <= i < |volts| => (volts[i] - initialV) * convf);
    for k := 0 to |volts|
      invariant dmmFreqs == target[..k]
    {
      var deltaV := volts[k] - initialV;
      assert target[k] == deltaV * convf;
      assert target[..k + 1] == target[..k] + [target[k]];
      dmmFreqs := dmmFreqs + [deltaV * convf];
    }
    assert target[..|volts|] == target;
    assert forall i :: 0 <= i < |volts| ==> target[i] == VoltageChanges(volts)[i] * convf;
    return Ok(dmmFreqs);
  }

  /**
   * adjustKSfromDMM: the counter frequencies plus the DMM frequencies, one
   * per counter value; a DMM list shorter than the counter list is an
   * IndexError.
   */
  method AdjustKSfromDMM(ks: seq<real>, dmm: seq<real>) returns (r: Result<seq<real>>)
    ensures r.Ok? <==> |dmm| >= |ks|
    ensures r.Err? ==> r.error.IndexError?
    ensures r.Ok? ==> |r.value| == |ks| && forall i :: 0 <= i < |ks| ==> r.value[i] == ks[i] + dmm[i]
  {
    var ksAdj: seq<real> := [];
    for i := 0 to |ks|
      invariant |ksAdj| == i && i <= |dmm|
      invariant forall j :: 0 <= j < i ==> ksAdj[j] == ks[j] + dmm[j]
    {
      if i >= |dmm| {
        return Err(IndexError("dmm[i]"));
      }
      ksAdj := ksAdj + [ks[i] + dmm[i]];
    }
    return Ok(ksAdj);
  }

  /** `lst[i] = v` on a Python list: an index past the end is an IndexError. */
  function StoreAt(lst: seq<real>, i: nat, v: real): (r: Result<seq<real>>)
    ensures r.Ok? <==> i < |lst|
    ensures r.Ok? ==> |r.value| == |lst| && r.value[i] == v
    ensures r.Err? ==> r.error.IndexError?
  {
    if i < |lst| then Ok(lst[i := v]) else Err(IndexError("list assignment index out of range"))
  }

  /**
   * getDMMChangeInVoltage as written: the first voltage is read, then the
   * first pass of the loop assigns position 0 of the empty list delta_Vs,
   * so no input gets past it; an empty input already fails on voltages[0].
   */
  function GetDMMChangeInVoltageAsWritten(voltages: seq<real>): (r: Result<seq<real>>)
    ensures r.Err? && r.error.IndexError?
  {
    if |voltages| == 0 then Err(IndexError("voltages[0]"))
    else
      var deltaVs: seq<real> := [];
      var initialV := voltages[0];
      StoreAt(deltaVs, 0, voltages[0] - initialV)
  }

  /** What getDMMChangeInVoltage is meant to return: each voltage's change from the first. */
  function VoltageChanges(voltages: seq<real>): (d: seq<real>)
    requires |voltages| > 0
    ensures |d| == |voltages| && d[0] == 0.0
    ensures forall i :: 0 <= i < |voltages| ==> d[i] == voltages[i] - voltages[0]
  {
    seq(|voltages|, i requires 0 <= i < |voltages| => voltages[i] - voltages[0])
  }

  /** A single reading shows the difference: the code fails where the intended result is [0.0]. */
  lemma DMMChangeFailsOnOneReading(v: real)
    ensures GetDMMChangeInVoltageAsWritten([v]).Err?
    ensures VoltageChanges([v]) == [0.0]
  {
  }

  /**
   * getDMMChangeInVoltage with the assignment made an append: each
   * voltage's change from the first, in order.
   */
  method GetDMMChangeInVoltage(voltages: seq<real>) returns (r: Result<seq<real>>)
    ensures r.Err? <==> |voltages| == 0
    ensures r.Ok? ==> r.value == VoltageChanges(voltages)
  {
    if |voltages| == 0 {
      return Err(IndexError("voltages[0]"));
    }
    var initialV := voltages[0];
    var deltaVs: seq<real> := [];
    for i := 0 to |voltages|
      invariant deltaVs == VoltageChanges(voltages)[..i]
    {
      deltaVs := deltaVs + [voltages[i] - initialV];
    }
    return Ok(deltaVs);
  }

  /** The DMM overflow reading: anything above 10000 volts. */
  const OverflowVolts: real := 10000.0

  /** findDMMOverflowVals: the row labels (0, 1, ...) whose Voltages exceed 10000, in ascending order. */
  function FindDMMOverflowVals(voltages: seq<real>): (rows: seq<nat>)
    ensures forall k :: 0 <= k < |rows| ==> rows[k] < |voltages| && voltages[rows[k]] > OverflowVolts
    ensures forall i :: 0 <= i < |voltages| && voltages[i] > OverflowVolts ==> i in rows
    ensures forall k, m :: 0 <= k < m < |rows| ==> rows[k] < rows[m]
  {
    if |voltages| == 0 then []
    else
      var init := voltages[..|voltages| - 1];
      var rest := FindDMMOverflowVals(init);
      assert forall k :: 0 <= k < |rest| ==> voltages[rest[k]] == init[rest[k]];
      if voltages[|voltages| - 1] > OverflowVolts then rest + [|voltages| - 1] else rest
  }
}
