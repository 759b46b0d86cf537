/**
 * The alarm side of Spark: the status an alarm carries, the alarm object the
 * runner evaluates, and the order in which the runner drives an alarm's hooks.
 */
module Alarms {

  /** The two status codes the runner stores (SparkAlarmStatus::SUCCESS and ::ERROR). */
  const SUCCESS: int := 1
  const ERROR: int := 2

  /** Default notifier messages of a bare alarm. */
  const SUCCESS_MESSAGE: string := "I succeeded"
  const ERROR_MESSAGE: string := "Oops, it failed"

  /** The alarm's status field: unset until the first evaluation, then an integer code. */
  datatype Status = Unset | Set(code: int)

  /** The status the runner records for an alarm whose test answered `passed`. */
  function StatusFor(passed: bool): (s: Status)
    ensures s == Set(SUCCESS) <==> passed
    ensures s == Set(ERROR) <==> !passed
  {
    Set(if passed then SUCCESS else ERROR)
  }

  /** What the test of a bare alarm answers: it never passes, so the runner always marks it ERROR. */
  function DefaultTest(): (passed: bool)
    ensures StatusFor(passed) == Set(ERROR)
  {
    false
  }

  /**
   * The message the default notifier shows for an alarm with status `s`:
   * the success message exactly when the status is SUCCESS, the error
   * message otherwise (an unset status included).
   */
  function NotifierMessage(s: Status): (m: string)
    ensures m == SUCCESS_MESSAGE <==> s == Set(SUCCESS)
    ensures m == ERROR_MESSAGE <==> s != Set(SUCCESS)
  {
    if s == Set(SUCCESS) then SUCCESS_MESSAGE else ERROR_MESSAGE
  }

  /**
   * A registered health check. `tag` stands for the alarm's concrete class
   * (the runner compares classes, not instances, when removing alarms).
   */
  class Alarm {
    const tag: string
    const sendNotificationOnSuccess: bool
    var status: Status

    /** A freshly created alarm: status unset, success notifications off (the default). */
    constructor (tag: string)
      ensures this.tag == tag
      ensures status == Unset && !sendNotificationOnSuccess
    {
      this.tag := tag;
      sendNotificationOnSuccess := false;
      status := Unset;
    }

    /** An alarm whose class switches its own success notifications on. */
    constructor Notifying(tag: string)
      ensures this.tag == tag
      ensures status == Unset && sendNotificationOnSuccess
    {
      this.tag := tag;
      sendNotificationOnSuccess := true;
      status := Unset;
    }

    /** Store exactly the given code and touch nothing else. */
    method SetStatus(code: int)
      modifies this
      ensures status == Set(code)
    {
      status := Set(code);
    }
  }

  /** The alarms' own success-notification flags, position by position. */
  function Flags(xs: seq<Alarm>): seq<bool>
  {
    seq(|xs|, i requires 0 <= i < |xs| => xs[i].sendNotificationOnSuccess)
  }

  /**
   * The verdict alarm `a` last received in a pass over `xs`: when the same
   * object is registered twice, its later position wins.
   */
  function LastVerdict(xs: seq<Alarm>, verdicts: seq<bool>, a: Alarm): bool
    requires |verdicts| == |xs|
    decreases |xs|
  {
    if xs == [] then false
    else
      var n := |xs| - 1;
      if xs[n] == a then verdicts[n] else LastVerdict(xs[..n], verdicts[..n], a)
  }

  /** Extending the prefix by one position records that position's verdict for its alarm. */
  lemma LastVerdictSnoc(xs: seq<Alarm>, verdicts: seq<bool>, i: int, a: Alarm)
    requires |verdicts| == |xs| && 0 <= i < |xs|
    ensures LastVerdict(xs[..i + 1], verdicts[..i + 1], a)
         == if xs[i] == a then verdicts[i] else LastVerdict(xs[..i], verdicts[..i], a)
  {
    assert xs[..i + 1][..i] == xs[..i] && verdicts[..i + 1][..i] == verdicts[..i];
  }

  /**
   * An alarm's last verdict is the one at its last position; when the list
   * holds no object twice, that is simply the verdict at its own position.
   */
  lemma {:induction false} LastVerdictAt(xs: seq<Alarm>, verdicts: seq<bool>, k: int)
    requires |verdicts| == |xs| && 0 <= k < |xs|
    requires forall j :: k < j < |xs| ==> xs[j] != xs[k]
    ensures LastVerdict(xs, verdicts, xs[k]) == verdicts[k]
  {
    var n := |xs| - 1;
    if k < n {
      LastVerdictAt(xs[..n], verdicts[..n], k);
    }
  }

  /** One entry of the runner's record of what it did to an alarm, in call order. */
  datatype Event =
    | SuccessHook(alarm: Alarm)
    | ErrorHook(alarm: Alarm)
    | Marked(alarm: Alarm, code: int)

  /**
   * What the runner does with one alarm once its test has answered: on success
   * the success() hook runs before the status is stored; on failure the status
   * is stored before the error() hook runs.
   */
  function Steps(a: Alarm, passed: bool): seq<Event>
  {
    if passed then [SuccessHook(a), Marked(a, SUCCESS)]
    else [Marked(a, ERROR), ErrorHook(a)]
  }

  /** The events of one cycle over `xs`, alarm after alarm in registration order. */
  function CycleSteps(xs: seq<Alarm>, verdicts: seq<bool>): seq<Event>
    requires |verdicts| == |xs|
    decreases |xs|
  {
    if xs == [] then []
    else
      var n := |xs| - 1;
      CycleSteps(xs[..n], verdicts[..n]) + Steps(xs[n], verdicts[n])
  }

  /** Extending the prefix by one alarm adds that alarm's events. */
  lemma CycleStepsSnoc(xs: seq<Alarm>, verdicts: seq<bool>, i: int)
    requires |verdicts| == |xs| && 0 <= i < |xs|
    ensures CycleSteps(xs[..i + 1], verdicts[..i + 1]) == CycleSteps(xs[..i], verdicts[..i]) + Steps(xs[i], verdicts[i])
  {
    assert xs[..i + 1][..i] == xs[..i] && verdicts[..i + 1][..i] == verdicts[..i];
  }

  /**
   * A cycle produces exactly two events per alarm, and the events of the
   * alarm at position i sit at positions 2i and 2i+1, in the order of Steps.
   */
  lemma {:induction false} CycleStepsAt(xs: seq<Alarm>, verdicts: seq<bool>)
    requires |verdicts| == |xs|
    ensures |CycleSteps(xs, verdicts)| == 2 * |xs|
    ensures forall i :: 0 <= i < |xs| ==>
      CycleSteps(xs, verdicts)[2 * i] == Steps(xs[i], verdicts[i])[0] &&
      CycleSteps(xs, verdicts)[2 * i + 1] == Steps(xs[i], verdicts[i])[1]
  {
    if xs != [] {
      var n := |xs| - 1;
      var prefix := CycleSteps(xs[..n], verdicts[..n]);
      CycleStepsAt(xs[..n], verdicts[..n]);
      var whole := CycleSteps(xs, verdicts);
      assert whole == prefix + Steps(xs[n], verdicts[n]);
      forall i | 0 <= i < |xs|
        ensures whole[2 * i] == Steps(xs[i], verdicts[i])[0]
        ensures whole[2 * i + 1] == Steps(xs[i], verdicts[i])[1]
      {
        if i < n {
          assert xs[..n][i] == xs[i] && verdicts[..n][i] == verdicts[i];
          assert whole[2 * i] == prefix[2 * i] && whole[2 * i + 1] == prefix[2 * i + 1];
        }
      }
    }
  }

  /** Every alarm of the first i positions carries the status of the last verdict it received there. */
  ghost predicate Settled(xs: seq<Alarm>, verdicts: seq<bool>, i: int)
    requires |verdicts| == |xs| && 0 <= i <= |xs|
    reads xs
  {
    forall k :: 0 <= k < i ==> xs[k].status == StatusFor(LastVerdict(xs[..i], verdicts[..i], xs[k]))
  }

  /**
   * When no alarm object is registered twice, each alarm's status after a
   * cycle is SUCCESS exactly when its own test passed, and ERROR otherwise.
   */
  lemma SettledStatuses(xs: seq<Alarm>, verdicts: seq<bool>)
    requires |verdicts| == |xs| && Settled(xs, verdicts, |xs|)
    requires forall i, j :: 0 <= i < j < |xs| ==> xs[i] != xs[j]
    ensures forall k :: 0 <= k < |xs| ==> xs[k].status == StatusFor(verdicts[k])
    ensures forall k :: 0 <= k < |xs| ==> (xs[k].status == Set(SUCCESS) <==> verdicts[k])
    ensures forall k :: 0 <= k < |xs| ==> (xs[k].status == Set(ERROR) <==> !verdicts[k])
  {
    forall k | 0 <= k < |xs| ensures xs[k].status == StatusFor(verdicts[k]) {
      assert xs[..|xs|] == xs && verdicts[..|xs|] == verdicts;
      LastVerdictAt(xs, verdicts, k);
    }
  }
}
