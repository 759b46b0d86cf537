/**
 * The runner's unit tests, replayed on the model. The test alarms are alarms
 * whose verdicts are fixed (one class always fails, the other always
 * passes), and each run() without keep-alive is a single tick.
 */
module Scenarios {
  import opened Alarms
  import opened Selection
  import opened Throttle
  import Runner

  /** The size of the latest batch in a list of dispatched batches (0 before any). */
  function LastBatchSize(received: seq<seq<Alarm>>): nat
  {
    if received == [] then 0 else |received[|received| - 1]|
  }

  /**
   * What one run() without keep-alive does on a runner with the default
   * throttle: Runner.Spark.Run leaves the notifier holding what it held
   * before followed by this session's dispatched batches, and returns its list.
   */
  function RunOnce(xs: seq<Alarm>, verdicts: seq<bool>, global: bool, silent: bool, now: int): Runner.Session<Alarm>
    requires |verdicts| == |xs|
  {
    Runner.Replay(xs, Flags(xs), Runner.Config(global, silent, 1500), [Tick(now, verdicts)])
  }

  /** A run that is not silent, at a clock reading past the throttle, sends exactly its list. */
  lemma RunOnceSends(xs: seq<Alarm>, verdicts: seq<bool>, global: bool, now: int)
    requires |verdicts| == |xs| && now >= 1500
    ensures RunOnce(xs, verdicts, global, false, now).gate.log == [Notified(xs, Flags(xs), verdicts, global)]
  {
    var cfg := Runner.Config(global, false, 1500);
    Runner.FirstCycle(xs, Flags(xs), cfg, [Tick(now, verdicts)]);
    Runner.SingleCycleDispatch(xs, Flags(xs), cfg, [Tick(now, verdicts)]);
    var batch := Notified(xs, Flags(xs), verdicts, global);
    assert [] + batch == batch;
  }

  /**
   * The silent test: a silent runner with one failing alarm returns that
   * alarm, hands nothing to the notifier and leaves lastAlertSummary at 0.
   */
  lemma SilentTest(failing: Alarm, now: int)
    ensures RunOnce([failing], [false], false, true, now).acc == [failing]
    ensures RunOnce([failing], [false], false, true, now).gate == Reset()
  {
    var cfg := Runner.Config(false, true, 1500);
    Runner.FirstCycle([failing], Flags([failing]), cfg, [Tick(now, [false])]);
    BareAlarmsAllReported([failing], Flags([failing]), [false], false);
  }

  /** Three alarms, the last passing without its own success flag: it is reported only under the global flag. */
  lemma MixedBatch(xs: seq<Alarm>, global: bool)
    requires |xs| == 3 && !xs[2].sendNotificationOnSuccess
    ensures Notified(xs, Flags(xs), [false, false, true], global) == if global then xs else xs[..2]
  {
    var mask := ReportMask(Flags(xs), [false, false, true], global);
    assert mask == [true, true, global];
    PickAll(xs[..2], mask[..2]);
    PickSnoc(xs, mask, 2);
    assert xs[..3] == xs && mask[..3] == mask;
  }

  /**
   * The notifier test: run() after adding a failing alarm, a second failing
   * alarm, a passing alarm without its own success flag, then with success
   * notifications switched on. Each run is sent its whole list, since run()
   * resets lastAlertSummary, and the batches hold 1, 2, 2 and 3 alarms.
   */
  lemma NotifierTest(first: Alarm, second: Alarm, third: Alarm, t1: int, t2: int, t3: int, t4: int)
    requires !third.sendNotificationOnSuccess
    requires t1 >= 1500 && t2 >= 1500 && t3 >= 1500 && t4 >= 1500
    ensures LastBatchSize(RunOnce([first], [false], false, false, t1).gate.log) == 1
    ensures LastBatchSize(RunOnce([first, second], [false, false], false, false, t2).gate.log) == 2
    ensures LastBatchSize(RunOnce([first, second, third], [false, false, true], false, false, t3).gate.log) == 2
    ensures LastBatchSize(RunOnce([first, second, third], [false, false, true], true, false, t4).gate.log) == 3
  {
    RunOnceSends([first], [false], false, t1);
    BareAlarmsAllReported([first], Flags([first]), [false], false);
    RunOnceSends([first, second], [false, false], false, t2);
    BareAlarmsAllReported([first, second], Flags([first, second]), [false, false], false);
    RunOnceSends([first, second, third], [false, false, true], false, t3);
    MixedBatch([first, second, third], false);
    RunOnceSends([first, second, third], [false, false, true], true, t4);
    MixedBatch([first, second, third], true);
  }

  /** Storing the same status twice leaves the alarm as storing it once does. */
  method StatusTwice(code: int) returns (once: Status, twice: Status)
    ensures once == twice == Set(code)
  {
    var alarm := new Alarm("SparkAlarm");
    alarm.SetStatus(code);
    once := alarm.status;
    alarm.SetStatus(code);
    twice := alarm.status;
  }
}
