/**
 * The throttle gate shared by both runners, the per-cycle inputs a run
 * consumes, and the notifier that receives dispatched batches.
 */
module Throttle {
  import opened Alarms

  /**
   * What one cycle sees from the outside: the clock reading used by the
   * throttle gate and, position by position, what each alarm's test answers.
   */
  datatype Tick = Tick(now: int, verdicts: seq<bool>)

  /** Every cycle carries one verdict per registered alarm. */
  predicate Fits<T>(xs: seq<T>, ticks: seq<Tick>)
  {
    forall c :: 0 <= c < |ticks| ==> |ticks[c].verdicts| == |xs|
  }

  /** The hook and status events of the first |ticks| cycles, in call order. */
  function Rounds(xs: seq<Alarm>, ticks: seq<Tick>): seq<Event>
    requires Fits(xs, ticks)
    decreases |ticks|
  {
    if ticks == [] then []
    else
      var n := |ticks| - 1;
      Rounds(xs, ticks[..n]) + CycleSteps(xs, ticks[n].verdicts)
  }

  /** The first c + 1 cycles' events are the first c cycles' followed by cycle c's. */
  lemma RoundsSnoc(xs: seq<Alarm>, ticks: seq<Tick>, c: int)
    requires Fits(xs, ticks) && 0 <= c < |ticks|
    ensures Rounds(xs, ticks[..c + 1]) == Rounds(xs, ticks[..c]) + CycleSteps(xs, ticks[c].verdicts)
  {
    assert ticks[..c + 1][..c] == ticks[..c];
  }

  /** The gate of sendSummary: a batch goes out when `throttle` seconds have passed since the last one. */
  predicate Due(now: int, last: int, throttle: int)
  {
    now - last >= throttle
  }

  /**
   * The dispatch history of one run: the batches handed to the notifier, the
   * clock reading of each dispatch, and lastAlertSummary.
   */
  datatype Gate<T> = Gate(log: seq<seq<T>>, stamps: seq<int>, last: int)

  /** The gate as run() leaves it before the first cycle: nothing sent, lastAlertSummary reset to 0. */
  function Reset<T>(): Gate<T>
  {
    Gate([], [], 0)
  }

  /** One sendSummary call: dispatch and advance lastAlertSummary when due, otherwise drop the batch. */
  function Offer<T>(g: Gate<T>, batch: seq<T>, now: int, throttle: int): Gate<T>
  {
    if Due(now, g.last, throttle) then Gate(g.log + [batch], g.stamps + [now], now) else g
  }

  /**
   * The throttle's promise: one stamp per dispatched batch, lastAlertSummary
   * is the latest stamp (0 before any), the first dispatch came at least
   * `throttle` after the reset, and consecutive dispatches are at least
   * `throttle` apart.
   */
  ghost predicate Spaced<T>(g: Gate<T>, throttle: int)
  {
    && |g.log| == |g.stamps|
    && g.last == (if g.stamps == [] then 0 else g.stamps[|g.stamps| - 1])
    && (g.stamps != [] ==> g.stamps[0] >= throttle)
    && forall k :: 0 < k < |g.stamps| ==> g.stamps[k] - g.stamps[k - 1] >= throttle
  }

  /** A freshly reset gate keeps the promise: nothing sent, lastAlertSummary 0. */
  lemma ResetSpaced<T>(throttle: int)
    ensures Spaced(Reset<T>(), throttle)
  {
  }

  /** Every sendSummary call keeps the promise. */
  lemma OfferKeepsSpacing<T>(g: Gate<T>, batch: seq<T>, now: int, throttle: int)
    requires Spaced(g, throttle)
    ensures Spaced(Offer(g, batch, now, throttle), throttle)
  {
  }

  /** The notification sink: it records every batch it is sent, in order. */
  class Notifier {
    var received: seq<seq<Alarm>>

    constructor ()
      ensures received == []
    {
      received := [];
    }

    method Send(batch: seq<Alarm>)
      modifies this
      ensures received == old(received) + [batch]
    {
      received := received + [batch];
    }
  }
}
