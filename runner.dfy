/**
 * The current Spark runner: configuration, the alarm list, and run(), which
 * evaluates every alarm in registration order, accumulates the notification
 * list and offers it to the throttle gate once per cycle.
 */
module Runner {
  import opened Alarms
  import opened Selection
  import opened Throttle

  /** The configuration run() reads: global success flag, silent flag, throttle in seconds. */
  datatype Config = Config(global: bool, silent: bool, throttle: int)

  /** A run so far: the notification list it will return and the dispatch history. */
  datatype Session<T> = Session(acc: seq<T>, gate: Gate<T>)

  /**
   * The first |ticks| cycles of run() over alarms `xs` with own flags `own`.
   * The notification list is created once per run and never cleared, so each
   * cycle appends to what earlier cycles collected, and the whole list is what
   * sendSummary is offered (unless silent).
   */
  function Replay<T>(xs: seq<T>, own: seq<bool>, cfg: Config, ticks: seq<Tick>): Session<T>
    requires |own| == |xs| && Fits(xs, ticks)
    decreases |ticks|
  {
    if ticks == [] then Session([], Reset())
    else
      var n := |ticks| - 1;
      Step(Replay(xs, own, cfg, ticks[..n]), xs, own, cfg, ticks[n])
  }

  /** One cycle: append this cycle's reported alarms, then offer the whole list unless silent. */
  function Step<T>(prev: Session<T>, xs: seq<T>, own: seq<bool>, cfg: Config, tick: Tick): Session<T>
    requires |own| == |xs| && |tick.verdicts| == |xs|
  {
    var acc := prev.acc + Notified(xs, own, tick.verdicts, cfg.global);
    Session(acc, if cfg.silent then prev.gate else Offer(prev.gate, acc, tick.now, cfg.throttle))
  }

  /** The first c + 1 cycles are the first c followed by cycle c. */
  lemma ReplaySnoc<T>(xs: seq<T>, own: seq<bool>, cfg: Config, ticks: seq<Tick>, c: int)
    requires |own| == |xs| && Fits(xs, ticks) && 0 <= c < |ticks|
    ensures Replay(xs, own, cfg, ticks[..c + 1]) == Step(Replay(xs, own, cfg, ticks[..c]), xs, own, cfg, ticks[c])
  {
    assert ticks[..c + 1][..c] == ticks[..c];
  }

  /**
   * The notification list is never cleared: what the first c cycles collected
   * is a prefix of what the whole run returns.
   */
  lemma {:induction false} AccumulatorGrows<T>(xs: seq<T>, own: seq<bool>, cfg: Config, ticks: seq<Tick>, c: int)
    requires |own| == |xs| && Fits(xs, ticks) && 0 <= c <= |ticks|
    ensures Replay(xs, own, cfg, ticks[..c]).acc <= Replay(xs, own, cfg, ticks).acc
  {
    if c == |ticks| {
      assert ticks[..c] == ticks;
    } else {
      var n := |ticks| - 1;
      assert ticks[..n][..c] == ticks[..c];
      AccumulatorGrows(xs, own, cfg, ticks[..n], c);
    }
  }

  /**
   * Every batch handed to the notifier is a prefix of the final list, and
   * each dispatched batch extends the one dispatched before it.
   */
  lemma {:induction false} DispatchedBatchesGrow<T>(xs: seq<T>, own: seq<bool>, cfg: Config, ticks: seq<Tick>)
    requires |own| == |xs| && Fits(xs, ticks)
    ensures forall i :: 0 <= i < |Replay(xs, own, cfg, ticks).gate.log| ==>
      Replay(xs, own, cfg, ticks).gate.log[i] <= Replay(xs, own, cfg, ticks).acc
    ensures forall i, j :: 0 <= i < j < |Replay(xs, own, cfg, ticks).gate.log| ==>
      Replay(xs, own, cfg, ticks).gate.log[i] <= Replay(xs, own, cfg, ticks).gate.log[j]
  {
    if ticks != [] {
      var n := |ticks| - 1;
      var prev := Replay(xs, own, cfg, ticks[..n]);
      DispatchedBatchesGrow(xs, own, cfg, ticks[..n]);
      var s := Replay(xs, own, cfg, ticks);
      var before := prev.gate.log;
      assert forall i :: 0 <= i < |before| ==> before[i] <= prev.acc;
      assert prev.acc <= s.acc;
      assert s.gate.log == before || s.gate.log == before + [s.acc];
      forall i | 0 <= i < |s.gate.log| ensures s.gate.log[i] <= s.acc {
        if i < |before| {
          assert s.gate.log[i] == before[i] && before[i] <= prev.acc;
          PrefixTransitive(before[i], prev.acc, s.acc);
        }
      }
      forall i, j | 0 <= i < j < |s.gate.log| ensures s.gate.log[i] <= s.gate.log[j] {
        assert s.gate.log[i] == before[i] && before[i] <= prev.acc;
        if j == |before| {
          PrefixTransitive(before[i], prev.acc, s.acc);
        } else {
          assert s.gate.log[j] == before[j];
        }
      }
    }
  }

  lemma PrefixTransitive<T>(a: seq<T>, b: seq<T>, c: seq<T>)
    requires a <= b && b <= c
    ensures a <= c
  {
    assert c[..|a|] == b[..|a|];
  }

  /** A silent run never dispatches: the gate stays as run() reset it. */
  lemma {:induction false} SilentNeverSends<T>(xs: seq<T>, own: seq<bool>, cfg: Config, ticks: seq<Tick>)
    requires |own| == |xs| && Fits(xs, ticks) && cfg.silent
    ensures Replay(xs, own, cfg, ticks).gate == Reset()
  {
    if ticks != [] {
      SilentNeverSends(xs, own, cfg, ticks[..|ticks| - 1]);
    }
  }

  /**
   * The throttle holds over a whole run: consecutive dispatches are at least
   * `throttle` apart, the first at least `throttle` after the reset, and
   * lastAlertSummary is the time of the latest dispatch (0 before any).
   */
  lemma {:induction false} ReplaySpaced<T>(xs: seq<T>, own: seq<bool>, cfg: Config, ticks: seq<Tick>)
    requires |own| == |xs| && Fits(xs, ticks)
    ensures Spaced(Replay(xs, own, cfg, ticks).gate, cfg.throttle)
  {
    if ticks == [] {
      ResetSpaced<T>(cfg.throttle);
    } else {
      var n := |ticks| - 1;
      var prev := Replay(xs, own, cfg, ticks[..n]);
      ReplaySpaced(xs, own, cfg, ticks[..n]);
      OfferKeepsSpacing(prev.gate, Step(prev, xs, own, cfg, ticks[n]).acc, ticks[n].now, cfg.throttle);
    }
  }

  /** The first cycle starts from an empty list and the reset gate. */
  lemma FirstCycle<T>(xs: seq<T>, own: seq<bool>, cfg: Config, ticks: seq<Tick>)
    requires |own| == |xs| && Fits(xs, ticks) && |ticks| == 1
    ensures Replay(xs, own, cfg, ticks) == Step(Session([], Reset()), xs, own, cfg, ticks[0])
  {
    assert ticks[..0] == [];
  }

  /**
   * A run without keep-alive returns exactly the alarms that failed or passed
   * with the global or their own success flag set, and every failing alarm is
   * among them.
   */
  lemma SingleCycleReports<T>(xs: seq<T>, own: seq<bool>, cfg: Config, ticks: seq<Tick>, x: T)
    requires |own| == |xs| && Fits(xs, ticks) && |ticks| == 1
    ensures x in Replay(xs, own, cfg, ticks).acc <==>
      exists i :: 0 <= i < |xs| && xs[i] == x && (!ticks[0].verdicts[i] || cfg.global || own[i])
    ensures forall i :: 0 <= i < |xs| && !ticks[0].verdicts[i] ==> xs[i] in Replay(xs, own, cfg, ticks).acc
  {
    FirstCycle(xs, own, cfg, ticks);
    var v := ticks[0].verdicts;
    assert Replay(xs, own, cfg, ticks).acc == Notified(xs, own, v, cfg.global);
    NotifiedMembers(xs, own, v, cfg.global, x);
    forall i | 0 <= i < |xs| && !v[i] ensures xs[i] in Notified(xs, own, v, cfg.global) {
      NotifiedMembers(xs, own, v, cfg.global, xs[i]);
    }
  }

  /**
   * Because run() resets lastAlertSummary to 0, a run without keep-alive hands
   * its list to the notifier exactly when it is not silent and the clock reads
   * at least `throttle`; lastAlertSummary is then that clock reading.
   */
  lemma SingleCycleDispatch<T>(xs: seq<T>, own: seq<bool>, cfg: Config, ticks: seq<Tick>)
    requires |own| == |xs| && Fits(xs, ticks) && |ticks| == 1
    ensures var s := Replay(xs, own, cfg, ticks);
      && s.gate.log == (if !cfg.silent && ticks[0].now >= cfg.throttle then [s.acc] else [])
      && s.gate.last == (if !cfg.silent && ticks[0].now >= cfg.throttle then ticks[0].now else 0)
  {
    FirstCycle(xs, own, cfg, ticks);
  }

  /**
   * Progress of one foreach over `xs` after its first i alarms: the failing
   * and qualifying passing ones among them have been appended, in order, and
   * their hooks and status writes performed.
   */
  ghost predicate Walked(xs: seq<Alarm>, verdicts: seq<bool>, global: bool, i: int,
                         notifications: seq<Alarm>, extended: seq<Alarm>, steps: seq<Event>)
    requires |verdicts| == |xs| && 0 <= i <= |xs|
  {
    && extended == notifications + Pick(xs[..i], ReportMask(Flags(xs), verdicts, global)[..i])
    && steps == CycleSteps(xs[..i], verdicts[..i])
  }

  /** Visiting the alarm at position i extends the progress by that alarm. */
  lemma WalkedSnoc(xs: seq<Alarm>, verdicts: seq<bool>, global: bool, i: int,
                   notifications: seq<Alarm>, extended: seq<Alarm>, steps: seq<Event>)
    requires |verdicts| == |xs| && 0 <= i < |xs|
    requires Walked(xs, verdicts, global, i, notifications, extended, steps)
    ensures Walked(xs, verdicts, global, i + 1, notifications,
                   extended + (if !verdicts[i] || global || xs[i].sendNotificationOnSuccess then [xs[i]] else []),
                   steps + Steps(xs[i], verdicts[i]))
  {
    PickSnoc(xs, ReportMask(Flags(xs), verdicts, global), i);
    CycleStepsSnoc(xs, verdicts, i);
  }

  /** Progress over the whole list is one cycle's batch and events. */
  lemma WalkedAll(xs: seq<Alarm>, verdicts: seq<bool>, global: bool,
                  notifications: seq<Alarm>, extended: seq<Alarm>, steps: seq<Event>)
    requires |verdicts| == |xs|
    requires Walked(xs, verdicts, global, |xs|, notifications, extended, steps)
    ensures extended == notifications + Notified(xs, Flags(xs), verdicts, global)
    ensures steps == CycleSteps(xs, verdicts)
  {
    assert xs[..|xs|] == xs && verdicts[..|xs|] == verdicts;
    assert ReportMask(Flags(xs), verdicts, global)[..|xs|] == ReportMask(Flags(xs), verdicts, global);
  }

  /** Progress of run() after its first c cycles: the session reached and the events performed. */
  ghost predicate Ran(xs: seq<Alarm>, own: seq<bool>, cfg: Config, ticks: seq<Tick>, c: int,
                      session: Session<Alarm>, events: seq<Event>)
    requires |own| == |xs| && Fits(xs, ticks) && 0 <= c <= |ticks|
  {
    session == Replay(xs, own, cfg, ticks[..c]) && events == Rounds(xs, ticks[..c])
  }

  /** Running cycle c extends the progress by one Step and by that cycle's events. */
  lemma RanSnoc(xs: seq<Alarm>, own: seq<bool>, cfg: Config, ticks: seq<Tick>, c: int,
                session: Session<Alarm>, events: seq<Event>)
    requires |own| == |xs| && Fits(xs, ticks) && 0 <= c < |ticks|
    requires Ran(xs, own, cfg, ticks, c, session, events)
    ensures Ran(xs, own, cfg, ticks, c + 1, Step(session, xs, own, cfg, ticks[c]), events + CycleSteps(xs, ticks[c].verdicts))
  {
    ReplaySnoc(xs, own, cfg, ticks, c);
    RoundsSnoc(xs, ticks, c);
  }

  /** Progress over every tick is the whole run. */
  lemma RanAll(xs: seq<Alarm>, own: seq<bool>, cfg: Config, ticks: seq<Tick>, session: Session<Alarm>, events: seq<Event>)
    requires |own| == |xs| && Fits(xs, ticks)
    requires Ran(xs, own, cfg, ticks, |ticks|, session, events)
    ensures session == Replay(xs, own, cfg, ticks) && events == Rounds(xs, ticks)
  {
    assert ticks[..|ticks|] == ticks;
  }

  class Spark {
    var alarms: seq<Alarm>
    var output: string
    var keepAlive: bool
    var interval: int
    var throttle: int
    var lastAlertSummary: int
    var notifier: Notifier
    var silent: bool
    var sendNotificationOnSuccess: bool

    /** The defaults: no alarms, one cycle, 5-minute interval, 25-minute throttle, a fresh notifier. */
    constructor ()
      ensures alarms == [] && output == "" && !keepAlive
      ensures interval == 300 && throttle == 1500 && lastAlertSummary == 0
      ensures fresh(notifier) && notifier.received == []
      ensures !silent && !sendNotificationOnSuccess
    {
      alarms := [];
      output := "";
      keepAlive := false;
      interval := 60 * 5;
      throttle := 25 * 60;
      lastAlertSummary := 0;
      notifier := new Notifier();
      silent := false;
      sendNotificationOnSuccess := false;
    }

    method SetInterval(seconds: int)
      modifies this`interval
      ensures interval == seconds
    {
      interval := seconds;
    }

    method SetSilent(flag: bool)
      modifies this`silent
      ensures silent == flag
    {
      silent := flag;
    }

    method SetSendNotificationsOnSuccess(flag: bool)
      modifies this`sendNotificationOnSuccess
      ensures sendNotificationOnSuccess == flag
    {
      sendNotificationOnSuccess := flag;
    }

    method UseNotifier(n: Notifier)
      modifies this`notifier
      ensures notifier == n
    {
      notifier := n;
    }

    method SetThrottle(seconds: int)
      modifies this`throttle
      ensures throttle == seconds
    {
      throttle := seconds;
    }

    method SetKeepAlive(flag: bool)
      modifies this`keepAlive
      ensures keepAlive == flag
    {
      keepAlive := flag;
    }

    method SetOutput(destination: string)
      modifies this`output
      ensures output == destination
    {
      output := destination;
    }

    /** Register an alarm after all earlier ones. */
    method AddAlarm(a: Alarm)
      modifies this`alarms
      ensures alarms == old(alarms) + [a]
    {
      alarms := alarms + [a];
    }

    method GetAlarms() returns (r: seq<Alarm>)
      ensures r == alarms
    {
      r := alarms;
    }

    /** sendSummary: hand the batch to the notifier and advance the timestamp only when due. */
    method SendSummary(batch: seq<Alarm>, now: int)
      modifies this`lastAlertSummary, notifier
      ensures Due(now, old(lastAlertSummary), throttle) ==>
        notifier.received == old(notifier.received) + [batch] && lastAlertSummary == now
      ensures !Due(now, old(lastAlertSummary), throttle) ==>
        notifier.received == old(notifier.received) && lastAlertSummary == old(lastAlertSummary)
    {
      if now - lastAlertSummary >= throttle {
        notifier.Send(batch);
        lastAlertSummary := now;
      }
    }

    /**
     * The body of the foreach in run() for the alarm at position i, whose test
     * answered verdicts[i]: hooks and status in source order (returned as
     * `steps`), and the alarm appended when it failed or qualifies for success
     * notification. The alarms before position i keep their statuses.
     */
    method Visit(xs: seq<Alarm>, verdicts: seq<bool>, i: int, notifications: seq<Alarm>)
      returns (extended: seq<Alarm>, ghost steps: seq<Event>)
      requires |verdicts| == |xs| && 0 <= i < |xs|
      requires Settled(xs, verdicts, i)
      modifies xs[i]
      ensures Settled(xs, verdicts, i + 1)
      ensures steps == Steps(xs[i], verdicts[i])
      ensures extended == notifications +
        (if !verdicts[i] || sendNotificationOnSuccess || xs[i].sendNotificationOnSuccess then [xs[i]] else [])
    {
      var alarm := xs[i];
      extended := notifications;
      if verdicts[i] {
        steps := [SuccessHook(alarm)];
        alarm.SetStatus(SUCCESS);
        steps := steps + [Marked(alarm, SUCCESS)];
        if sendNotificationOnSuccess || alarm.sendNotificationOnSuccess {
          extended := extended + [alarm];
        }
      } else {
        extended := extended + [alarm];
        alarm.SetStatus(ERROR);
        steps := [Marked(alarm, ERROR)];
        steps := steps + [ErrorHook(alarm)];
      }
      forall k | 0 <= k < i + 1
        ensures xs[k].status == StatusFor(LastVerdict(xs[..i + 1], verdicts[..i + 1], xs[k]))
      {
        LastVerdictSnoc(xs, verdicts, i, xs[k]);
      }
    }

    /**
     * One pass of the foreach in run(): evaluate the alarms in registration
     * order, store each status, run the matching hooks (returned as `steps`)
     * and append to `notifications` every failing alarm and every passing one
     * that qualifies.
     */
    method Evaluate(verdicts: seq<bool>, notifications: seq<Alarm>) returns (extended: seq<Alarm>, ghost steps: seq<Event>)
      requires |verdicts| == |alarms|
      modifies alarms
      ensures extended == notifications + Notified(alarms, Flags(alarms), verdicts, sendNotificationOnSuccess)
      ensures steps == CycleSteps(alarms, verdicts)
      ensures Settled(alarms, verdicts, |alarms|)
    {
      var xs := alarms;
      extended, steps := notifications, [];
      var i := 0;
      while i < |xs|
        invariant 0 <= i <= |xs|
        invariant Walked(xs, verdicts, sendNotificationOnSuccess, i, notifications, extended, steps)
        invariant Settled(xs, verdicts, i)
      {
        WalkedSnoc(xs, verdicts, sendNotificationOnSuccess, i, notifications, extended, steps);
        ghost var more;
        extended, more := Visit(xs, verdicts, i, extended);
        steps := steps + more;
        i := i + 1;
      }
      WalkedAll(xs, verdicts, sendNotificationOnSuccess, notifications, extended, steps);
    }

    /**
     * The notifier and lastAlertSummary show the dispatch history of `g`: the
     * notifier holds what it held before the run (`received0`) followed by
     * every dispatched batch, and lastAlertSummary is the gate's timestamp.
     */
    ghost predicate Shows(g: Gate<Alarm>, received0: seq<seq<Alarm>>)
      reads this, notifier
    {
      notifier.received == received0 + g.log && lastAlertSummary == g.last
    }

    /** The alarm list, notifier and configuration are the ones a run started with. */
    ghost predicate Configured(xs: seq<Alarm>, sink: Notifier, cfg: Config)
      reads this
    {
      alarms == xs && notifier == sink && cfg == Config(sendNotificationOnSuccess, silent, throttle)
    }

    /**
     * One iteration of run()'s do-while: the foreach over the alarms, then
     * sendSummary with the accumulated list unless silent. `prev` is the run
     * so far.
     */
    method Cycle(xs: seq<Alarm>, sink: Notifier, tick: Tick, notifications: seq<Alarm>, ghost own: seq<bool>,
                 ghost cfg: Config, ghost prev: Session<Alarm>, ghost received0: seq<seq<Alarm>>)
      returns (extended: seq<Alarm>, ghost steps: seq<Event>)
      requires Configured(xs, sink, cfg)
      requires |tick.verdicts| == |xs| && own == Flags(xs)
      requires notifications == prev.acc && Shows(prev.gate, received0)
      modifies this`lastAlertSummary, sink, xs
      ensures extended == Step(prev, xs, own, cfg, tick).acc
      ensures Shows(Step(prev, xs, own, cfg, tick).gate, received0)
      ensures steps == CycleSteps(xs, tick.verdicts)
      ensures Settled(xs, tick.verdicts, |xs|)
      ensures Configured(xs, sink, cfg)
    {
      extended, steps := Evaluate(tick.verdicts, notifications);
      if !silent {
        SendSummary(extended, tick.now);
      }
    }

    /**
     * run(): reset the throttle timestamp, then one cycle per tick (exactly one
     * unless keep-alive is on). Returns the accumulated notification list and,
     * as `events`, the hooks and status writes performed, in order.
     */
    method Run(ticks: seq<Tick>) returns (notifications: seq<Alarm>, ghost events: seq<Event>)
      requires |ticks| >= 1 && (!keepAlive ==> |ticks| == 1)
      requires Fits(alarms, ticks)
      modifies this`lastAlertSummary, notifier, alarms
      ensures var s := Replay(alarms, Flags(alarms), Config(sendNotificationOnSuccess, silent, throttle), ticks);
        notifications == s.acc && Shows(s.gate, old(notifier.received))
      ensures events == Rounds(alarms, ticks)
      ensures Settled(alarms, ticks[|ticks| - 1].verdicts, |alarms|)
    {
      var xs, sink := alarms, notifier;
      ghost var own := Flags(xs);
      ghost var cfg := Config(sendNotificationOnSuccess, silent, throttle);
      ghost var received0 := notifier.received;
      ghost var session := Session([], Reset());
      ghost var latest := ticks[0].verdicts;
      notifications, events := [], [];
      lastAlertSummary := 0;
      var c := 0;
      while c < |ticks|
        invariant 0 <= c <= |ticks|
        invariant Configured(xs, sink, cfg)
        invariant Ran(xs, own, cfg, ticks, c, session, events)
        invariant notifications == session.acc && Shows(session.gate, received0)
        invariant |latest| == |xs| && (c > 0 ==> latest == ticks[c - 1].verdicts)
        invariant c > 0 ==> Settled(xs, latest, |xs|)
      {
        RanSnoc(xs, own, cfg, ticks, c, session, events);
        ghost var steps;
        notifications, steps := Cycle(xs, sink, ticks[c], notifications, own, cfg, session, received0);
        session := Step(session, xs, own, cfg, ticks[c]);
        events := events + steps;
        latest := ticks[c].verdicts;
        c := c + 1;
      }
      RanAll(xs, own, cfg, ticks, session, events);
    }

    /** removeAlarm: keep, in order, every alarm whose class differs from the removed one's. */
    method RemoveAlarm(removed: Alarm)
      modifies this`alarms
      ensures alarms == Survivors(old(alarms), removed.tag)
    {
      var mask := KeepMask(alarms, removed.tag);
      var kept := [];
      var i := 0;
      while i < |alarms|
        invariant 0 <= i <= |alarms|
        invariant kept == Pick(alarms[..i], mask[..i])
      {
        assert alarms[..i + 1][..i] == alarms[..i] && mask[..i + 1][..i] == mask[..i];
        if alarms[i].tag != removed.tag {
          kept := kept + [alarms[i]];
        }
        i := i + 1;
      }
      assert alarms[..i] == alarms && mask[..i] == mask;
      alarms := kept;
    }
  }
}
