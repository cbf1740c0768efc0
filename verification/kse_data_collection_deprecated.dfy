/**
 * kse_data_collection_DEPRICATED.py: the earlier KSE collection window. Its
 * helper functions are the same as kseDataCollection.py's and are taken
 * from KseDataCollection. What is modelled is the window's collection
 * settings and the timing bookkeeping of collect_data: cycle numbers, the
 * trigger timestamps of a cycle and their intervals from the start of the
 * run. The instruments, the sleeps and the frequency and voltage columns
 * are not part of this model; `clock(c, i)` is the timestamp time.time()
 * gives at trigger i of cycle c.
 */
module KseDataCollectionDeprecated {
  import opened Wrappers
  import opened KseDataCollection

  /** The timestamps one cycle records: one per trigger, in trigger order. */
  function CycleTimestamps(clock: (nat, nat) -> real, cycle: nat, trigCount: nat): (ts: seq<real>)
    ensures |ts| == trigCount
    ensures forall i :: 0 <= i < trigCount ==> ts[i] == clock(cycle, i)
  {
    seq(trigCount, i requires 0 <= i < trigCount => clock(cycle, i))
  }

  /** The timestamps of cycles 1 to k, one entry per cycle. */
  function RunTimestamps(clock: (nat, nat) -> real, k: nat, trigCount: nat): (log: seq<seq<real>>)
    ensures |log| == k
    ensures forall c :: 0 <= c < k ==> log[c] == CycleTimestamps(clock, c + 1, trigCount)
  {
    seq(k, c requires 0 <= c < k => CycleTimestamps(clock, c + 1, trigCount))
  }

  /** One more cycle adds its timestamps at the end of the log. */
  lemma RunTimestampsSnoc(clock: (nat, nat) -> real, k: nat, trigCount: nat)
    ensures RunTimestamps(clock, k + 1, trigCount)
         == RunTimestamps(clock, k, trigCount) + [CycleTimestamps(clock, k + 1, trigCount)]
  {
    assert RunTimestamps(clock, k + 1, trigCount)[..k] == RunTimestamps(clock, k, trigCount);
  }

  /** Every timestamp as an interval from `start`. */
  function Intervals(ts: seq<real>, start: real): (iv: seq<real>)
    ensures |iv| == |ts|
    ensures forall i :: 0 <= i < |ts| ==> iv[i] == ts[i] - start
  {
    seq(|ts|, i requires 0 <= i < |ts| => ts[i] - start)
  }

  /**
   * The trigger loop of one collect_data cycle: one timestamp per trigger,
   * the first timestamp of cycle 1 becomes the start time, and each
   * timestamp is stored again as its interval from the start time. Later
   * cycles find the start time already set.
   */
  method TriggerCycle(clock: (nat, nat) -> real, cycleNum: nat, trigCount: nat, startTime: Option<real>)
    returns (times: seq<real>, timeIntervals: seq<real>, start: Option<real>)
    requires cycleNum == 1 || trigCount == 0 || startTime.Some?
    ensures times == CycleTimestamps(clock, cycleNum, trigCount)
    ensures start == if cycleNum == 1 && trigCount > 0 then Some(clock(1, 0)) else startTime
    ensures trigCount > 0 ==> start.Some? && timeIntervals == Intervals(times, start.value)
    ensures trigCount == 0 ==> timeIntervals == []
  {
    times := [];
    timeIntervals := [];
    start := startTime;
    var i := 0;
    while i < trigCount
      invariant 0 <= i <= trigCount
      invariant times == CycleTimestamps(clock, cycleNum, i)
      invariant start == if cycleNum == 1 && i > 0 then Some(clock(1, 0)) else startTime
      invariant i > 0 ==> start.Some? && timeIntervals == Intervals(times, start.value)
      invariant i == 0 ==> timeIntervals == []
    {
      times := times + [clock(cycleNum, i)];
      if i == 0 && cycleNum == 1 {
        start := Some(times[0]);
      }
      timeIntervals := timeIntervals + [times[i] - start.value];
      i := i + 1;
    }
  }

  /**
   * The settings the window starts with: 10 triggers of 0.1 s high and
   * 0.4 s low make a 5 s cycle, so 120 s of collection takes 24 cycles.
   */
  lemma DefaultSettingsTakeTwentyFourCycles()
    ensures CollectionTimeToNumCycles(120.0, 10, 0.4, 0.1) == 24
    ensures 24.0 * ((0.4 + 0.1) * 10.0) == 120.0
  {
    NumCyclesIsLeastCover(120.0, 10, 0.4, 0.1);
  }

  class App {
    var collectionActive: bool
    /** None until the first cycle starts. */
    var collectionCycleActive: Option<bool>
    var trigCount: int
    var trigCountCmd: string
    var trigSource: string
    var trigSourceCmd: string
    var highV: real
    var lowV: real
    var highTime: real
    var lowTime: real
    var howLongCollect: real
    var howManyCycles: int
    var folder: string
    var startTime: Option<real>

    var cycleNum: int
    var times: seq<real>
    var timeIntervals: seq<real>
    /** The Timestamps column of every cycle appended to the output file, one entry per cycle. */
    var timestampLog: seq<seq<real>>

    /** The trigger commands agree with the trigger settings. */
    predicate Valid()
      reads this
    {
      trigCount >= 0
      && trigCountCmd == GetTrigCountCmd(trigCount)
      && trigSourceCmd == GetTrigSourceCmd(trigSource)
    }

    /** The collection settings of the window. */
    constructor()
      ensures Valid()
      ensures !collectionActive && collectionCycleActive.None? && startTime.None?
      ensures trigCount == 10 && trigSource == "EXT" && highV == 2.0 && lowV == 0.0
      ensures highTime == 0.1 && lowTime == 0.4 && howLongCollect == 120.0
      ensures howManyCycles == 24
      ensures timestampLog == []
    {
      collectionActive := false;
      collectionCycleActive := None;
      trigCount := 10;
      trigCountCmd := GetTrigCountCmd(10);
      trigSource := "EXT";
      trigSourceCmd := GetTrigSourceCmd("EXT");
      highV := 2.0;
      lowV := 0.0;
      highTime := 0.1;
      lowTime := 0.4;
      howLongCollect := 120.0;
      DefaultSettingsTakeTwentyFourCycles();
      howManyCycles := CollectionTimeToNumCycles(120.0, 10, 0.4, 0.1);
      folder := "Data\\kseExperiment\\";
      startTime := None;
      cycleNum := 1;
      times := [];
      timeIntervals := [];
      timestampLog := [];
    }

    /** collection_thread: raise the flag collect_data runs under. */
    method CollectionThread()
      modifies this`collectionActive
      ensures collectionActive
    {
      collectionActive := true;
    }

    /**
     * stop_collection: lower the flag that collect_data's loop tests before
     * each cycle. It then closes the DAQ task, the CSV file and the
     * instrument connections, which are not modelled; a cycle still writing
     * to the task when it is closed does not finish.
     */
    method StopCollection()
      modifies this`collectionActive
      ensures !collectionActive
    {
      collectionActive := false;
    }

    /**
     * One pass of collect_data's loop body: the trigger loop, the cycle's
     * timestamps appended to the file and the cycle count moved on.
     */
    method RunCycle(clock: (nat, nat) -> real)
      requires trigCount >= 0 && cycleNum >= 1
      requires cycleNum == 1 || trigCount == 0 || startTime.Some?
      modifies this`collectionCycleActive, this`startTime, this`cycleNum,
               this`times, this`timeIntervals, this`timestampLog
      ensures cycleNum == old(cycleNum) + 1 && collectionCycleActive == Some(false)
      ensures times == CycleTimestamps(clock, old(cycleNum), trigCount)
      ensures startTime == if old(cycleNum) == 1 && trigCount > 0 then Some(clock(1, 0)) else old(startTime)
      ensures trigCount > 0 ==> startTime.Some? && timeIntervals == Intervals(times, startTime.value)
      ensures timestampLog == old(timestampLog) + [times]
    {
      collectionCycleActive := Some(true);
      times, timeIntervals, startTime := TriggerCycle(clock, cycleNum, trigCount, startTime);
      timestampLog := timestampLog + [times];
      cycleNum := cycleNum + 1;
      collectionCycleActive := Some(false);
    }

    /**
     * collect_data, with the stop button pressed between cycles, after
     * `stopAfter` cycles have completed (at least one; a press before the
     * first cycle is not modelled): the cycle count restarts at
     * 1; each cycle records one timestamp per
     * trigger and appends them to the file; every interval is measured from
     * the first timestamp of cycle 1, so the run's first interval is 0.
     * Nothing runs when the flag is down.
     */
    method CollectData(stopAfter: nat, clock: (nat, nat) -> real)
      requires trigCount >= 0 && stopAfter >= 1
      modifies this`collectionActive, this`collectionCycleActive, this`startTime, this`cycleNum,
               this`times, this`timeIntervals, this`timestampLog
      ensures !collectionActive
      ensures var ran := if old(collectionActive) then stopAfter else 0;
              cycleNum == ran + 1
              && timestampLog == old(timestampLog) + RunTimestamps(clock, ran, trigCount)
              && (ran == 0 ==> collectionCycleActive == old(collectionCycleActive)
                               && times == old(times) && timeIntervals == old(timeIntervals)
                               && startTime == old(startTime))
              && (ran > 0 ==> collectionCycleActive == Some(false)
                              && times == CycleTimestamps(clock, ran, trigCount))
              && (ran > 0 && trigCount > 0 ==>
                    startTime == Some(clock(1, 0)) && timeIntervals == Intervals(times, clock(1, 0)))
    {
      ghost var ran := if collectionActive then stopAfter else 0;
      ghost var log0 := timestampLog;
      var n := trigCount;
      cycleNum := 1;
      while collectionActive
        invariant trigCount == n
        invariant 1 <= cycleNum <= ran + 1
        invariant collectionActive ==> cycleNum <= stopAfter
        invariant !collectionActive ==> cycleNum == ran + 1
        invariant timestampLog == log0 + RunTimestamps(clock, cycleNum - 1, n)
        invariant cycleNum == 1 ==> (collectionCycleActive == old(collectionCycleActive)
                                     && times == old(times) && timeIntervals == old(timeIntervals)
                                     && startTime == old(startTime))
        invariant cycleNum > 1 ==> (collectionCycleActive == Some(false)
                                    && times == CycleTimestamps(clock, cycleNum - 1, n))
        invariant cycleNum > 1 && n > 0 ==>
                    startTime == Some(clock(1, 0)) && timeIntervals == Intervals(times, clock(1, 0))
        decreases if collectionActive then stopAfter + 1 - cycleNum else 0
      {
        RunTimestampsSnoc(clock, cycleNum - 1, n);
        RunCycle(clock);
        if cycleNum > stopAfter {
          // the stop button, pressed on the other thread during this cycle
          collectionActive := false;
        }
      }
    }
  }
}
