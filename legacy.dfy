/**
 * The older copy of the runner kept at the top level of the repository. It
 * has no silent flag, keeps failures and qualifying successes in two lists,
 * offers the failures followed by the successes every cycle, and run()
 * returns the runner itself.
 */
module LegacyRunner {
  import opened Alarms
  import opened Selection
  import opened Throttle
  import Runner

  /** The configuration the legacy run() reads: global success flag and throttle in seconds. */
  datatype Config = Config(global: bool, throttle: int)

  /** A legacy run so far: both lists, created once per run, and the dispatch history. */
  datatype Session<T> = Session(failed: seq<T>, passed: seq<T>, gate: Gate<T>)

  /** The first |ticks| cycles of the legacy run() over alarms `xs` with own flags `own`. */
  function Replay<T>(xs: seq<T>, own: seq<bool>, cfg: Config, ticks: seq<Tick>): Session<T>
    requires |own| == |xs| && Fits(xs, ticks)
    decreases |ticks|
  {
    if ticks == [] then Session([], [], Reset())
    else
      var n := |ticks| - 1;
      Step(Replay(xs, own, cfg, ticks[..n]), xs, own, cfg, ticks[n])
  }

  /** One cycle: extend both lists, then offer the failures followed by the successes. */
  function Step<T>(prev: Session<T>, xs: seq<T>, own: seq<bool>, cfg: Config, tick: Tick): Session<T>
    requires |own| == |xs| && |tick.verdicts| == |xs|
  {
    var failed := prev.failed + FailedOf(xs, tick.verdicts);
    var passed := prev.passed + SucceededOf(xs, own, tick.verdicts, cfg.global);
    Session(failed, passed, Offer(prev.gate, failed + passed, tick.now, cfg.throttle))
  }

  /** The first c + 1 cycles are the first c followed by cycle c. */
  lemma ReplaySnoc<T>(xs: seq<T>, own: seq<bool>, cfg: Config, ticks: seq<Tick>, c: int)
    requires |own| == |xs| && Fits(xs, ticks) && 0 <= c < |ticks|
    ensures Replay(xs, own, cfg, ticks[..c + 1]) == Step(Replay(xs, own, cfg, ticks[..c]), xs, own, cfg, ticks[c])
  {
    assert ticks[..c + 1][..c] == ticks[..c];
  }

  /**
   * Both lists persist across keep-alive cycles: what the first c cycles
   * collected is a prefix of what the whole run holds, in each list.
   */
  lemma {:induction false} ListsGrow<T>(xs: seq<T>, own: seq<bool>, cfg: Config, ticks: seq<Tick>, c: int)
    requires |own| == |xs| && Fits(xs, ticks) && 0 <= c <= |ticks|
    ensures Replay(xs, own, cfg, ticks[..c]).failed <= Replay(xs, own, cfg, ticks).failed
    ensures Replay(xs, own, cfg, ticks[..c]).passed <= Replay(xs, own, cfg, ticks).passed
  {
    if c == |ticks| {
      assert ticks[..c] == ticks;
    } else {
      var n := |ticks| - 1;
      assert ticks[..n][..c] == ticks[..c];
      ListsGrow(xs, own, cfg, ticks[..n], c);
    }
  }

  /** The alarm `x` stands at a position whose test failed in one of the cycles. */
  ghost predicate FailedSomewhere<T>(xs: seq<T>, ticks: seq<Tick>, x: T)
    requires Fits(xs, ticks)
  {
    exists c, i :: 0 <= c < |ticks| && 0 <= i < |xs| && xs[i] == x && !ticks[c].verdicts[i]
  }

  /** The alarm `x` stands at a position whose test passed, with a success flag set, in one of the cycles. */
  ghost predicate PassedSomewhere<T>(xs: seq<T>, own: seq<bool>, global: bool, ticks: seq<Tick>, x: T)
    requires |own| == |xs| && Fits(xs, ticks)
  {
    exists c, i :: 0 <= c < |ticks| && 0 <= i < |xs| && xs[i] == x && ticks[c].verdicts[i] && (global || own[i])
  }

  lemma FailedSomewhereSnoc<T>(xs: seq<T>, ticks: seq<Tick>, x: T)
    requires Fits(xs, ticks) && ticks != []
    ensures var n := |ticks| - 1;
      FailedSomewhere(xs, ticks, x) <==>
        FailedSomewhere(xs, ticks[..n], x) || x in FailedOf(xs, ticks[n].verdicts)
  {
    var n := |ticks| - 1;
    var v := ticks[n].verdicts;
    PickMember(xs, FailMask(v), x);
    if FailedSomewhere(xs, ticks, x) {
      var c, i :| 0 <= c < |ticks| && 0 <= i < |xs| && xs[i] == x && !ticks[c].verdicts[i];
      if c < n {
        assert ticks[..n][c] == ticks[c];
      } else {
        assert FailMask(v)[i];
      }
    }
    if FailedSomewhere(xs, ticks[..n], x) {
      var c, i :| 0 <= c < n && 0 <= i < |xs| && xs[i] == x && !ticks[..n][c].verdicts[i];
      assert ticks[c] == ticks[..n][c];
    }
  }

  lemma PassedSomewhereSnoc<T>(xs: seq<T>, own: seq<bool>, global: bool, ticks: seq<Tick>, x: T)
    requires |own| == |xs| && Fits(xs, ticks) && ticks != []
    ensures var n := |ticks| - 1;
      PassedSomewhere(xs, own, global, ticks, x) <==>
        PassedSomewhere(xs, own, global, ticks[..n], x) || x in SucceededOf(xs, own, ticks[n].verdicts, global)
  {
    var n := |ticks| - 1;
    var v := ticks[n].verdicts;
    PickMember(xs, SuccessMask(own, v, global), x);
    if PassedSomewhere(xs, own, global, ticks, x) {
      var c, i :| 0 <= c < |ticks| && 0 <= i < |xs| && xs[i] == x && ticks[c].verdicts[i] && (global || own[i]);
      if c < n {
        assert ticks[..n][c] == ticks[c];
      } else {
        assert SuccessMask(own, v, global)[i];
      }
    }
    if PassedSomewhere(xs, own, global, ticks[..n], x) {
      var c, i :| 0 <= c < n && 0 <= i < |xs| && xs[i] == x && ticks[..n][c].verdicts[i] && (global || own[i]);
      assert ticks[c] == ticks[..n][c];
    }
  }

  /**
   * An alarm is in the failed list exactly when its test failed in some
   * cycle, and in the success list exactly when it passed in some cycle with
   * the global or its own success flag set.
   */
  lemma {:induction false} ListMembers<T>(xs: seq<T>, own: seq<bool>, cfg: Config, ticks: seq<Tick>, x: T)
    requires |own| == |xs| && Fits(xs, ticks)
    ensures x in Replay(xs, own, cfg, ticks).failed <==> FailedSomewhere(xs, ticks, x)
    ensures x in Replay(xs, own, cfg, ticks).passed <==> PassedSomewhere(xs, own, cfg.global, ticks, x)
  {
    if ticks != [] {
      var n := |ticks| - 1;
      ListMembers(xs, own, cfg, ticks[..n], x);
      FailedSomewhereSnoc(xs, ticks, x);
      PassedSomewhereSnoc(xs, own, cfg.global, ticks, x);
    }
  }

  /**
   * Two dispatch histories agree: dispatches at the same moments, the same
   * lastAlertSummary, and batch by batch the same alarms with the same
   * multiplicities.
   */
  ghost predicate GatesAgree<T>(a: Gate<T>, b: Gate<T>)
  {
    && a.stamps == b.stamps
    && a.last == b.last
    && |a.log| == |b.log|
    && forall k :: 0 <= k < |a.log| ==> multiset(a.log[k]) == multiset(b.log[k])
  }

  /** The gate decides on the clock and the timestamp alone, so agreeing gates offered equal multisets still agree. */
  lemma OfferAgrees<T>(a: Gate<T>, b: Gate<T>, x: seq<T>, y: seq<T>, now: int, throttle: int)
    requires GatesAgree(a, b) && multiset(x) == multiset(y)
    ensures GatesAgree(Offer(a, x, now, throttle), Offer(b, y, now, throttle))
  {
    if Due(now, a.last, throttle) {
      var a', b' := Offer(a, x, now, throttle), Offer(b, y, now, throttle);
      assert a'.log == a.log + [x] && b'.log == b.log + [y];
      forall k | 0 <= k < |a'.log| ensures multiset(a'.log[k]) == multiset(b'.log[k]) {
        if k < |a.log| {
          assert a'.log[k] == a.log[k] && b'.log[k] == b.log[k];
        }
      }
    }
  }

  /**
   * A legacy run and a current run agree: their dispatch histories agree, and
   * the legacy lists together hold the same alarms, with the same
   * multiplicities, as the current list.
   */
  ghost predicate Agree<T>(legacy: Session<T>, current: Runner.Session<T>)
  {
    GatesAgree(legacy.gate, current.gate) && multiset(legacy.failed + legacy.passed) == multiset(current.acc)
  }

  /**
   * The legacy runner and the current one, not silent, with the same alarms,
   * flags, throttle and clock readings agree at every point of a run: the
   * legacy batches differ only in having the failures moved to the front.
   */
  lemma {:induction false} AgreesWithCurrent<T>(xs: seq<T>, own: seq<bool>, global: bool, throttle: int, ticks: seq<Tick>)
    requires |own| == |xs| && Fits(xs, ticks)
    ensures Agree(Replay(xs, own, Config(global, throttle), ticks),
                  Runner.Replay(xs, own, Runner.Config(global, false, throttle), ticks))
  {
    if ticks != [] {
      var n := |ticks| - 1;
      var v := ticks[n].verdicts;
      AgreesWithCurrent(xs, own, global, throttle, ticks[..n]);
      var lp := Replay(xs, own, Config(global, throttle), ticks[..n]);
      var cp := Runner.Replay(xs, own, Runner.Config(global, false, throttle), ticks[..n]);
      var f, p, m := FailedOf(xs, v), SucceededOf(xs, own, v, global), Notified(xs, own, v, global);
      var batch, acc := lp.failed + f + (lp.passed + p), cp.acc + m;
      LegacyBatchPermutes(xs, own, v, global);
      calc {
        multiset(batch);
        multiset(lp.failed + lp.passed) + multiset(f + p);
        multiset(acc);
      }
      OfferAgrees(lp.gate, cp.gate, batch, acc, ticks[n].now, throttle);
    }
  }

  /**
   * The legacy runner keeps the throttle's promise too: consecutive dispatches
   * at least `throttle` apart, lastAlertSummary the time of the latest one.
   */
  lemma LegacySpaced<T>(xs: seq<T>, own: seq<bool>, cfg: Config, ticks: seq<Tick>)
    requires |own| == |xs| && Fits(xs, ticks)
    ensures Spaced(Replay(xs, own, cfg, ticks).gate, cfg.throttle)
  {
    AgreesWithCurrent(xs, own, cfg.global, cfg.throttle, ticks);
    Runner.ReplaySpaced(xs, own, Runner.Config(cfg.global, false, cfg.throttle), ticks);
  }

  /**
   * Without keep-alive, the one batch offered is the failing alarms in
   * registration order followed by the qualifying successes, and it goes out
   * exactly when the clock reads at least `throttle`.
   */
  lemma SingleCycle<T>(xs: seq<T>, own: seq<bool>, cfg: Config, ticks: seq<Tick>)
    requires |own| == |xs| && Fits(xs, ticks) && |ticks| == 1
    ensures var s := Replay(xs, own, cfg, ticks);
      && s.failed == FailedOf(xs, ticks[0].verdicts)
      && s.passed == SucceededOf(xs, own, ticks[0].verdicts, cfg.global)
      && s.gate.log == (if ticks[0].now >= cfg.throttle then [s.failed + s.passed] else [])
  {
    assert ticks[..0] == [];
  }

  /**
   * Progress of one legacy foreach over `xs` after its first i alarms: the
   * failures and the qualifying successes among them have been appended, in
   * order, and their hooks and status writes performed.
   */
  ghost predicate Walked(xs: seq<Alarm>, verdicts: seq<bool>, global: bool, i: int,
                         failed0: seq<Alarm>, passed0: seq<Alarm>, failed: seq<Alarm>, passed: seq<Alarm>, steps: seq<Event>)
    requires |verdicts| == |xs| && 0 <= i <= |xs|
  {
    && failed == failed0 + Pick(xs[..i], FailMask(verdicts)[..i])
    && passed == passed0 + Pick(xs[..i], SuccessMask(Flags(xs), verdicts, global)[..i])
    && steps == CycleSteps(xs[..i], verdicts[..i])
  }

  /** Visiting the alarm at position i extends the progress by that alarm. */
  lemma WalkedSnoc(xs: seq<Alarm>, verdicts: seq<bool>, global: bool, i: int,
                   failed0: seq<Alarm>, passed0: seq<Alarm>, failed: seq<Alarm>, passed: seq<Alarm>, steps: seq<Event>)
    requires |verdicts| == |xs| && 0 <= i < |xs|
    requires Walked(xs, verdicts, global, i, failed0, passed0, failed, passed, steps)
    ensures Walked(xs, verdicts, global, i + 1, failed0, passed0,
                   failed + (if FailMask(verdicts)[i] then [xs[i]] else []),
                   passed + (if SuccessMask(Flags(xs), verdicts, global)[i] then [xs[i]] else []),
                   steps + Steps(xs[i], verdicts[i]))
  {
    PickSnoc(xs, FailMask(verdicts), i);
    PickSnoc(xs, SuccessMask(Flags(xs), verdicts, global), i);
    CycleStepsSnoc(xs, verdicts, i);
  }

  /** Progress over the whole list is one cycle's failed list, success list and events. */
  lemma WalkedAll(xs: seq<Alarm>, verdicts: seq<bool>, global: bool,
                  failed0: seq<Alarm>, passed0: seq<Alarm>, failed: seq<Alarm>, passed: seq<Alarm>, steps: seq<Event>)
    requires |verdicts| == |xs|
    requires Walked(xs, verdicts, global, |xs|, failed0, passed0, failed, passed, steps)
    ensures failed == failed0 + FailedOf(xs, verdicts)
    ensures passed == passed0 + SucceededOf(xs, Flags(xs), verdicts, global)
    ensures steps == CycleSteps(xs, verdicts)
  {
    assert xs[..|xs|] == xs && verdicts[..|xs|] == verdicts;
    assert FailMask(verdicts)[..|xs|] == FailMask(verdicts);
    assert SuccessMask(Flags(xs), verdicts, global)[..|xs|] == SuccessMask(Flags(xs), verdicts, global);
  }

  /** Progress of a legacy run() after its first c cycles: the session reached and the events performed. */
  ghost predicate Ran(xs: seq<Alarm>, own: seq<bool>, cfg: Config, ticks: seq<Tick>, c: int,
                      session: Session<Alarm>, events: seq<Event>)
    requires |own| == |xs| && Fits(xs, ticks) && 0 <= c <= |ticks|
  {
    session == Replay(xs, own, cfg, ticks[..c]) && events == Rounds(xs, ticks[..c])
  }

  /** Running cycle c extends the progress by one Step and by that cycle's events. */
  lemma RanSnoc(xs: seq<Alarm>, own: seq<bool>, cfg: Config, ticks: seq<Tick>, c: int,
                session: Session<Alarm>, events: seq<Event>)
    requires |own| == |xs| && Fits(xs, ticks) && 0 <= c < |ticks|
    requires Ran(xs, own, cfg, ticks, c, session, events)
    ensures Ran(xs, own, cfg, ticks, c + 1, Step(session, xs, own, cfg, ticks[c]), events + CycleSteps(xs, ticks[c].verdicts))
  {
    ReplaySnoc(xs, own, cfg, ticks, c);
    RoundsSnoc(xs, ticks, c);
  }

  /** Progress over every tick is the whole run. */
  lemma RanAll(xs: seq<Alarm>, own: seq<bool>, cfg: Config, ticks: seq<Tick>, session: Session<Alarm>, events: seq<Event>)
    requires |own| == |xs| && Fits(xs, ticks)
    requires Ran(xs, own, cfg, ticks, |ticks|, session, events)
    ensures session == Replay(xs, own, cfg, ticks) && events == Rounds(xs, ticks)
  {
    assert ticks[..|ticks|] == ticks;
  }

  class Spark {
    var alarms: seq<Alarm>
    var output: string
    var keepAlive: bool
    var interval: int
    var throttle: int
    var lastAlertSummary: int
    var notifier: Notifier
    var sendNotificationOnSuccess: bool

    /** The defaults: no alarms, one cycle, 5-minute interval, 25-minute throttle, a fresh notifier. */
    constructor ()
      ensures alarms == [] && output == "" && !keepAlive
      ensures interval == 300 && throttle == 1500 && lastAlertSummary == 0
      ensures fresh(notifier) && notifier.received == []
      ensures !sendNotificationOnSuccess
    {
      alarms := [];
      output := "";
      keepAlive := false;
      interval := 60 * 5;
      throttle := 25 * 60;
      lastAlertSummary := 0;
      notifier := new Notifier();
      sendNotificationOnSuccess := false;
    }

    method SetInterval(seconds: int)
      modifies this`interval
      ensures interval == seconds
    {
      interval := seconds;
    }

    method SetSendNotificationsOnSuccess(flag: bool)
      modifies this`sendNotificationOnSuccess
      ensures sendNotificationOnSuccess == flag
    {
      sendNotificationOnSuccess := flag;
    }

    method UseNotifier(n: Notifier)
      modifies this`notifier
      ensures notifier == n
    {
      notifier := n;
    }

    method SetThrottle(seconds: int)
      modifies this`throttle
      ensures throttle == seconds
    {
      throttle := seconds;
    }

    method SetKeepAlive(flag: bool)
      modifies this`keepAlive
      ensures keepAlive == flag
    {
      keepAlive := flag;
    }

    method SetOutput(destination: string)
      modifies this`output
      ensures output == destination
    {
      output := destination;
    }

    /** Register an alarm after all earlier ones. */
    method AddAlarm(a: Alarm)
      modifies this`alarms
      ensures alarms == old(alarms) + [a]
    {
      alarms := alarms + [a];
    }

    /** sendSummary: hand the batch to the notifier and advance the timestamp only when due. */
    method SendSummary(batch: seq<Alarm>, now: int)
      modifies this`lastAlertSummary, notifier
      ensures Due(now, old(lastAlertSummary), throttle) ==>
        notifier.received == old(notifier.received) + [batch] && lastAlertSummary == now
      ensures !Due(now, old(lastAlertSummary), throttle) ==>
        notifier.received == old(notifier.received) && lastAlertSummary == old(lastAlertSummary)
    {
      if now - lastAlertSummary >= throttle {
        notifier.Send(batch);
        lastAlertSummary := now;
      }
    }

    /**
     * The body of the foreach in the legacy run() for the alarm at position
     * i: on success the success() hook, the status, and the success list when
     * the alarm qualifies; on failure the failed list, the status, then the
     * error() hook. The alarms before position i keep their statuses.
     */
    method Visit(xs: seq<Alarm>, verdicts: seq<bool>, i: int, failed: seq<Alarm>, passed: seq<Alarm>)
      returns (failed': seq<Alarm>, passed': seq<Alarm>, ghost steps: seq<Event>)
      requires |verdicts| == |xs| && 0 <= i < |xs|
      requires Settled(xs, verdicts, i)
      modifies xs[i]
      ensures Settled(xs, verdicts, i + 1)
      ensures steps == Steps(xs[i], verdicts[i])
      ensures failed' == failed + (if FailMask(verdicts)[i] then [xs[i]] else [])
      ensures passed' == passed + (if SuccessMask(Flags(xs), verdicts, sendNotificationOnSuccess)[i] then [xs[i]] else [])
    {
      var alarm := xs[i];
      failed', passed' := failed, passed;
      if verdicts[i] {
        steps := [SuccessHook(alarm)];
        alarm.SetStatus(SUCCESS);
        steps := steps + [Marked(alarm, SUCCESS)];
        if sendNotificationOnSuccess || alarm.sendNotificationOnSuccess {
          passed' := passed' + [alarm];
        }
      } else {
        failed' := failed' + [alarm];
        alarm.SetStatus(ERROR);
        steps := [Marked(alarm, ERROR)];
        steps := steps + [ErrorHook(alarm)];
      }
      forall k | 0 <= k < i + 1
        ensures xs[k].status == StatusFor(LastVerdict(xs[..i + 1], verdicts[..i + 1], xs[k]))
      {
        LastVerdictSnoc(xs, verdicts, i, xs[k]);
      }
    }

    /**
     * One pass of the foreach in the legacy run(): every failing alarm is
     * appended to `failed` and every qualifying passing one to `passed`, both
     * in registration order, with statuses and hooks as in the current runner.
     */
    method Evaluate(xs: seq<Alarm>, verdicts: seq<bool>, failed: seq<Alarm>, passed: seq<Alarm>)
      returns (failed': seq<Alarm>, passed': seq<Alarm>, ghost steps: seq<Event>)
      requires xs == alarms && |verdicts| == |xs|
      modifies xs
      ensures failed' == failed + FailedOf(xs, verdicts)
      ensures passed' == passed + SucceededOf(xs, Flags(xs), verdicts, sendNotificationOnSuccess)
      ensures steps == CycleSteps(xs, verdicts)
      ensures Settled(xs, verdicts, |xs|)
    {
      failed', passed', steps := failed, passed, [];
      var i := 0;
      while i < |xs|
        invariant 0 <= i <= |xs|
        invariant Walked(xs, verdicts, sendNotificationOnSuccess, i, failed, passed, failed', passed', steps)
        invariant Settled(xs, verdicts, i)
      {
        WalkedSnoc(xs, verdicts, sendNotificationOnSuccess, i, failed, passed, failed', passed', steps);
        ghost var more;
        failed', passed', more := Visit(xs, verdicts, i, failed', passed');
        steps := steps + more;
        i := i + 1;
      }
      WalkedAll(xs, verdicts, sendNotificationOnSuccess, failed, passed, failed', passed', steps);
    }

    /** The notifier and lastAlertSummary show the dispatch history `g` after what the notifier held before. */
    ghost predicate Shows(g: Gate<Alarm>, received0: seq<seq<Alarm>>)
      reads this, notifier
    {
      notifier.received == received0 + g.log && lastAlertSummary == g.last
    }

    /** The alarm list, notifier and configuration are the ones a run started with. */
    ghost predicate Configured(xs: seq<Alarm>, sink: Notifier, cfg: Config)
      reads this
    {
      alarms == xs && notifier == sink && cfg == Config(sendNotificationOnSuccess, throttle)
    }

    /**
     * One iteration of the legacy run()'s do-while: the foreach, then
     * sendSummary with the failures followed by the successes.
     */
    method Cycle(xs: seq<Alarm>, sink: Notifier, tick: Tick, failed: seq<Alarm>, passed: seq<Alarm>,
                 ghost own: seq<bool>, ghost cfg: Config, ghost prev: Session<Alarm>, ghost received0: seq<seq<Alarm>>)
      returns (failed': seq<Alarm>, passed': seq<Alarm>, ghost steps: seq<Event>)
      requires Configured(xs, sink, cfg)
      requires |tick.verdicts| == |xs| && own == Flags(xs)
      requires failed == prev.failed && passed == prev.passed && Shows(prev.gate, received0)
      modifies this`lastAlertSummary, sink, xs
      ensures failed' == Step(prev, xs, own, cfg, tick).failed
      ensures passed' == Step(prev, xs, own, cfg, tick).passed
      ensures Shows(Step(prev, xs, own, cfg, tick).gate, received0)
      ensures steps == CycleSteps(xs, tick.verdicts)
      ensures Settled(xs, tick.verdicts, |xs|)
      ensures Configured(xs, sink, cfg)
    {
      failed', passed', steps := Evaluate(xs, tick.verdicts, failed, passed);
      var notifications := failed' + passed';
      SendSummary(notifications, tick.now);
    }

    /**
     * run(): reset the throttle timestamp, then one cycle per tick (exactly one
     * unless keep-alive is on). Returns the runner itself; `events` records the
     * hooks and status writes performed, in order.
     */
    method Run(ticks: seq<Tick>) returns (self: Spark, ghost events: seq<Event>)
      requires |ticks| >= 1 && (!keepAlive ==> |ticks| == 1)
      requires Fits(alarms, ticks)
      modifies this`lastAlertSummary, notifier, alarms
      ensures self == this
      ensures Shows(Replay(alarms, Flags(alarms), Config(sendNotificationOnSuccess, throttle), ticks).gate, old(notifier.received))
      ensures events == Rounds(alarms, ticks)
      ensures Settled(alarms, ticks[|ticks| - 1].verdicts, |alarms|)
    {
      var xs, sink := alarms, notifier;
      ghost var own := Flags(xs);
      ghost var cfg := Config(sendNotificationOnSuccess, throttle);
      ghost var received0 := notifier.received;
      ghost var session := Session([], [], Reset());
      ghost var latest := ticks[0].verdicts;
      var failed, passed := [], [];
      events := [];
      lastAlertSummary := 0;
      var c := 0;
      while c < |ticks|
        invariant 0 <= c <= |ticks|
        invariant Configured(xs, sink, cfg)
        invariant Ran(xs, own, cfg, ticks, c, session, events)
        invariant failed == session.failed && passed == session.passed && Shows(session.gate, received0)
        invariant |latest| == |xs| && (c > 0 ==> latest == ticks[c - 1].verdicts)
        invariant c > 0 ==> Settled(xs, latest, |xs|)
      {
        RanSnoc(xs, own, cfg, ticks, c, session, events);
        ghost var steps;
        failed, passed, steps := Cycle(xs, sink, ticks[c], failed, passed, own, cfg, session, received0);
        session := Step(session, xs, own, cfg, ticks[c]);
        events := events + steps;
        latest := ticks[c].verdicts;
        c := c + 1;
      }
      RanAll(xs, own, cfg, ticks, session, events);
      self := this;
    }

    /** removeAlarm: keep, in order, every alarm whose class differs from the removed one's. */
    method RemoveAlarm(removed: Alarm)
      modifies this`alarms
      ensures alarms == Survivors(old(alarms), removed.tag)
    {
      var mask := KeepMask(alarms, removed.tag);
      var kept := [];
      var i := 0;
      while i < |alarms|
        invariant 0 <= i <= |alarms|
        invariant kept == Pick(alarms[..i], mask[..i])
      {
        assert alarms[..i + 1][..i] == alarms[..i] && mask[..i + 1][..i] == mask[..i];
        if alarms[i].tag != removed.tag {
          kept := kept + [alarms[i]];
        }
        i := i + 1;
      }
      assert alarms[..i] == alarms && mask[..i] == mask;
      alarms := kept;
    }
  }
}
