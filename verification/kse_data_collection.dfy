/**
 * kseDataCollection.py: the SCPI command texts, the number of trigger
 * cycles a collection time needs, and the cycle/trigger loop of
 * collectKSEData. kse_data_collection_DEPRICATED.py carries the same three
 * helpers, character for character; they are modelled once, here. The
 * instruments (frequency counter, DMM, DAQ), the sleeps and the CSV file
 * are not part of this model: `clock(c, i)` is the timestamp time.time()
 * gives at trigger i of cycle c.
 */
module KseDataCollection {
  import opened Wrappers
  import opened Text

  /** getTrigCountCmd: "TRIG:COUN " followed by str(num). */
  function GetTrigCountCmd(num: int): (cmd: string)
    ensures |cmd| >= 10
    ensures cmd[..10] == "TRIG:COUN " && ParseInt(cmd[10..]) == Some(num)
  {
    ParseIntOfIntToString(num);
    var c := "TRIG:COUN " + IntToString(num);
    assert c[10..] == IntToString(num);
    c
  }

  /** getTrigSourceCmd: "TRIG:SOUR " followed by the source. */
  function GetTrigSourceCmd(sr: string): (cmd: string)
    ensures |cmd| == |sr| + 10 && cmd[..10] == "TRIG:SOUR " && cmd[10..] == sr
  {
    "TRIG:SOUR " + sr
  }

  /** math.ceil on a float: the least integer at or above x. */
  function Ceil(x: real): (n: int)
    ensures n as real >= x && (n - 1) as real < x
  {
    if x.Floor as real == x then x.Floor else x.Floor + 1
  }

  /**
   * collectionTimeToNumCycles: the collection time over the time one cycle
   * takes (trig_count triggers of low + high seconds each), rounded up.
   * Python divides by zero when that cycle time is 0.
   */
  function CollectionTimeToNumCycles(colTime: real, trigCount: int, lowTime: real, highTime: real): (n: int)
    requires (lowTime + highTime) * trigCount as real != 0.0
  {
    var timePerPoint := lowTime + highTime;
    var timePerCycle := timePerPoint * trigCount as real;
    Ceil(colTime / timePerCycle)
  }

  /**
   * With a positive cycle time, the count is the least number of cycles
   * that covers the collection time: n cycles are enough and n - 1 are not.
   * No time needs no cycles, and any positive time at least one.
   */
  lemma NumCyclesIsLeastCover(colTime: real, trigCount: int, lowTime: real, highTime: real)
    requires (lowTime + highTime) * trigCount as real > 0.0
    ensures var n := CollectionTimeToNumCycles(colTime, trigCount, lowTime, highTime);
            var cycle := (lowTime + highTime) * trigCount as real;
            n as real * cycle >= colTime && (n - 1) as real * cycle < colTime
    ensures colTime == 0.0 ==> CollectionTimeToNumCycles(colTime, trigCount, lowTime, highTime) == 0
    ensures colTime > 0.0 ==> CollectionTimeToNumCycles(colTime, trigCount, lowTime, highTime) >= 1
  {
    var cycle := (lowTime + highTime) * trigCount as real;
    var q := colTime / cycle;
    var n := CollectionTimeToNumCycles(colTime, trigCount, lowTime, highTime);
    assert n == Ceil(q);
    assert q * cycle == colTime;
    CeilingCovers(q, cycle, n, colTime);
    if colTime == 0.0 {
      assert q == 0.0;
      assert n as real >= 0.0 && (n - 1) as real < 0.0;
    } else if colTime > 0.0 {
      assert q > 0.0 by {
        if q <= 0.0 {
          MultiplyPreservesOrder(q, 0.0, cycle);
        }
      }
      assert n as real >= q;
      assert n >= 1;
    }
  }

  /** n = ceil(q) cycles of a positive length cover q cycles' time t, and n - 1 do not. */
  lemma CeilingCovers(q: real, cycle: real, n: int, t: real)
    requires cycle > 0.0 && n as real >= q && (n - 1) as real < q && q * cycle == t
    ensures n as real * cycle >= t && (n - 1) as real * cycle < t
  {
    MultiplyPreservesOrder(q, n as real, cycle);
    MultiplyPreservesStrictOrder((n - 1) as real, q, cycle);
  }

  /** a <= b and c > 0 give a c <= b c. */
  lemma MultiplyPreservesOrder(a: real, b: real, c: real)
    requires a <= b && c > 0.0
    ensures a * c <= b * c
  {
  }

  /** a < b and c > 0 give a c < b c. */
  lemma MultiplyPreservesStrictOrder(a: real, b: real, c: real)
    requires a < b && c > 0.0
    ensures a * c < b * c
  {
  }

  /**
   * collectKSEData's loops with `triggerCount` triggers per cycle and
   * `colLeng` seconds of collection, at 0.5 s high and 0.5 s low: cycles
   * 1 to how_many_cycles run, and each records one timestamp per trigger.
   * A trigger count of 0 makes the cycle count divide by zero.
   */
  method CollectKSEData(triggerCount: int, colLeng: real, clock: (nat, nat) -> real)
    returns (r: Result<seq<seq<real>>>)
    ensures r.Err? <==> triggerCount == 0
    ensures r.Ok? ==>
              var howManyCycles := CollectionTimeToNumCycles(colLeng, triggerCount, 0.5, 0.5);
              |r.value| == (if howManyCycles > 0 then howManyCycles else 0)
              && forall c :: 0 <= c < |r.value| ==>
                   |r.value[c]| == (if triggerCount > 0 then triggerCount else 0)
                   && forall i :: 0 <= i < |r.value[c]| ==> r.value[c][i] == clock(c + 1, i)
  {
    var trigCount := triggerCount;
    var highTime := 0.5;
    var lowTime := 0.5;
    if (lowTime + highTime) * trigCount as real == 0.0 {
      return Err(ZeroDivisionError("col_time / time_per_cycle"));
    }
    var howManyCycles := CollectionTimeToNumCycles(colLeng, trigCount, lowTime, highTime);
    var perCycle := if trigCount > 0 then trigCount else 0;
    var cycles: seq<seq<real>> := [];
    var cycleNum := 1;
    while cycleNum <= howManyCycles
      invariant 1 <= cycleNum <= (if howManyCycles > 0 then howManyCycles + 1 else 1)
      invariant |cycles| == cycleNum - 1
      invariant forall c :: 0 <= c < |cycles| ==>
                  |cycles[c]| == perCycle && forall i :: 0 <= i < |cycles[c]| ==> cycles[c][i] == clock(c + 1, i)
      decreases howManyCycles - cycleNum
    {
      var times: seq<real> := [];
      var i := 0;
      while i < trigCount
        invariant 0 <= i <= perCycle
        invariant |times| == i
        invariant forall j :: 0 <= j < i ==> times[j] == clock(cycleNum, j)
      {
        times := times + [clock(cycleNum, i)];
        i := i + 1;
      }
      cycles := cycles + [times];
      cycleNum := cycleNum + 1;
    }
    return Ok(cycles);
  }
}
