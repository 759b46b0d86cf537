/**
 * Order-preserving selection out of the alarm list: the notification batch of
 * one cycle (current and legacy orderings) and the list that removeAlarm
 * leaves behind are all the alarm list filtered by a mask.
 */
module Selection {
  import opened Alarms

  /** The elements of `xs` at the positions where `keep` is true, in their original order. */
  function Pick<T>(xs: seq<T>, keep: seq<bool>): (r: seq<T>)
    requires |keep| == |xs|
    ensures |r| <= |xs|
    decreases |xs|
  {
    if xs == [] then []
    else
      var n := |xs| - 1;
      Pick(xs[..n], keep[..n]) + (if keep[n] then [xs[n]] else [])
  }

  /** The positions where `keep` is true, ascending. */
  function Chosen(keep: seq<bool>): seq<nat>
    decreases |keep|
  {
    if keep == [] then []
    else
      var n := |keep| - 1;
      Chosen(keep[..n]) + (if keep[n] then [n] else [])
  }

  /** Extending the prefix by one position adds that element when it is kept. */
  lemma PickSnoc<T>(xs: seq<T>, keep: seq<bool>, i: int)
    requires |keep| == |xs| && 0 <= i < |xs|
    ensures Pick(xs[..i + 1], keep[..i + 1]) == Pick(xs[..i], keep[..i]) + (if keep[i] then [xs[i]] else [])
  {
    assert xs[..i + 1][..i] == xs[..i] && keep[..i + 1][..i] == keep[..i];
  }

  /** `Chosen` lists exactly the kept positions, each once, in increasing order. */
  lemma {:induction false} ChosenExact(keep: seq<bool>)
    ensures forall k :: 0 <= k < |Chosen(keep)| ==>
      Chosen(keep)[k] < |keep| && keep[Chosen(keep)[k]]
    ensures forall a, b :: 0 <= a < b < |Chosen(keep)| ==> Chosen(keep)[a] < Chosen(keep)[b]
    ensures forall i :: 0 <= i < |keep| && keep[i] ==> i in Chosen(keep)
  {
    if keep != [] {
      var n := |keep| - 1;
      ChosenExact(keep[..n]);
      forall i | 0 <= i < n && keep[i] ensures i in Chosen(keep[..n]) {
        assert keep[..n][i];
      }
    }
  }

  /** The k-th picked element is the element at the k-th kept position. */
  lemma {:induction false} PickByIndex<T>(xs: seq<T>, keep: seq<bool>)
    requires |keep| == |xs|
    ensures |Pick(xs, keep)| == |Chosen(keep)|
    ensures forall k :: 0 <= k < |Chosen(keep)| ==>
      Chosen(keep)[k] < |xs| && Pick(xs, keep)[k] == xs[Chosen(keep)[k]]
  {
    if xs != [] {
      var n := |xs| - 1;
      PickByIndex(xs[..n], keep[..n]);
      ChosenExact(keep[..n]);
    }
  }

  /** An element is picked exactly when it stands at some kept position. */
  lemma PickMember<T>(xs: seq<T>, keep: seq<bool>, x: T)
    requires |keep| == |xs|
    ensures x in Pick(xs, keep) <==> exists i :: 0 <= i < |xs| && keep[i] && xs[i] == x
  {
    PickByIndex(xs, keep);
    ChosenExact(keep);
    var p, c := Pick(xs, keep), Chosen(keep);
    if x in p {
      var k :| 0 <= k < |p| && p[k] == x;
      assert keep[c[k]] && xs[c[k]] == x;
    }
    if i :| 0 <= i < |xs| && keep[i] && xs[i] == x {
      var k :| 0 <= k < |c| && c[k] == i;
      assert p[k] == x;
    }
  }

  /** Keeping every position keeps the whole list. */
  lemma {:induction false} PickAll<T>(xs: seq<T>, keep: seq<bool>)
    requires |keep| == |xs|
    requires forall i :: 0 <= i < |keep| ==> keep[i]
    ensures Pick(xs, keep) == xs
  {
    if xs != [] {
      var n := |xs| - 1;
      PickAll(xs[..n], keep[..n]);
      assert xs[..n] + [xs[n]] == xs;
    }
  }

  /** Keeping no position gives the empty list. */
  lemma {:induction false} PickNone<T>(xs: seq<T>, keep: seq<bool>)
    requires |keep| == |xs|
    requires forall i :: 0 <= i < |keep| ==> !keep[i]
    ensures Pick(xs, keep) == []
  {
    if xs != [] {
      var n := |xs| - 1;
      PickNone(xs[..n], keep[..n]);
    }
  }

  /**
   * Splitting the kept positions into two disjoint groups splits the picked
   * elements accordingly: same elements, same multiplicities.
   */
  lemma {:induction false} PickPartition<T>(xs: seq<T>, keep: seq<bool>, a: seq<bool>, b: seq<bool>)
    requires |keep| == |xs| && |a| == |xs| && |b| == |xs|
    requires forall i :: 0 <= i < |xs| ==> (keep[i] <==> a[i] || b[i]) && !(a[i] && b[i])
    ensures multiset(Pick(xs, keep)) == multiset(Pick(xs, a)) + multiset(Pick(xs, b))
  {
    if xs != [] {
      var n := |xs| - 1;
      PickPartition(xs[..n], keep[..n], a[..n], b[..n]);
    }
  }

  /** Whether an alarm that answered `passed` joins the current runner's batch. */
  function ReportMask(own: seq<bool>, verdicts: seq<bool>, global: bool): seq<bool>
    requires |own| == |verdicts|
  {
    seq(|own|, i requires 0 <= i < |own| => !verdicts[i] || global || own[i])
  }

  /** Positions whose test failed. */
  function FailMask(verdicts: seq<bool>): seq<bool>
  {
    seq(|verdicts|, i requires 0 <= i < |verdicts| => !verdicts[i])
  }

  /** Positions whose test passed and that qualify for success notification. */
  function SuccessMask(own: seq<bool>, verdicts: seq<bool>, global: bool): seq<bool>
    requires |own| == |verdicts|
  {
    seq(|own|, i requires 0 <= i < |own| => verdicts[i] && (global || own[i]))
  }

  /** The alarms one cycle of the current runner appends to its notifications. */
  function Notified<T>(xs: seq<T>, own: seq<bool>, verdicts: seq<bool>, global: bool): seq<T>
    requires |own| == |xs| && |verdicts| == |xs|
  {
    Pick(xs, ReportMask(own, verdicts, global))
  }

  /** The alarms one cycle of the legacy runner appends to its failed list. */
  function FailedOf<T>(xs: seq<T>, verdicts: seq<bool>): seq<T>
    requires |verdicts| == |xs|
  {
    Pick(xs, FailMask(verdicts))
  }

  /** The alarms one cycle of the legacy runner appends to its success list. */
  function SucceededOf<T>(xs: seq<T>, own: seq<bool>, verdicts: seq<bool>, global: bool): seq<T>
    requires |own| == |xs| && |verdicts| == |xs|
  {
    Pick(xs, SuccessMask(own, verdicts, global))
  }

  /**
   * An alarm is in a cycle's batch exactly when it stands at a position whose
   * test failed, or passed with the global or its own success flag set.
   */
  lemma NotifiedMembers<T>(xs: seq<T>, own: seq<bool>, verdicts: seq<bool>, global: bool, x: T)
    requires |own| == |xs| && |verdicts| == |xs|
    ensures x in Notified(xs, own, verdicts, global) <==>
      exists i :: 0 <= i < |xs| && xs[i] == x && (!verdicts[i] || global || own[i])
  {
    PickMember(xs, ReportMask(own, verdicts, global), x);
  }

  /**
   * The legacy batch of a cycle (failures, then qualifying successes) holds the
   * same alarms, with the same multiplicities, as the current runner's batch.
   */
  lemma LegacyBatchPermutes<T>(xs: seq<T>, own: seq<bool>, verdicts: seq<bool>, global: bool)
    requires |own| == |xs| && |verdicts| == |xs|
    ensures multiset(FailedOf(xs, verdicts) + SucceededOf(xs, own, verdicts, global))
         == multiset(Notified(xs, own, verdicts, global))
  {
    PickPartition(xs, ReportMask(own, verdicts, global), FailMask(verdicts), SuccessMask(own, verdicts, global));
  }

  /**
   * A cycle over bare alarms, whose test never passes, reports every alarm:
   * the batch is the whole list, and the legacy success list stays empty.
   */
  lemma BareAlarmsAllReported<T>(xs: seq<T>, own: seq<bool>, verdicts: seq<bool>, global: bool)
    requires |own| == |xs| && |verdicts| == |xs|
    requires forall i :: 0 <= i < |verdicts| ==> verdicts[i] == DefaultTest()
    ensures Notified(xs, own, verdicts, global) == xs
    ensures FailedOf(xs, verdicts) == xs
    ensures SucceededOf(xs, own, verdicts, global) == []
  {
    PickAll(xs, ReportMask(own, verdicts, global));
    PickAll(xs, FailMask(verdicts));
    PickNone(xs, SuccessMask(own, verdicts, global));
  }

  /** Positions whose alarm is of a class other than `tag`. */
  function KeepMask(xs: seq<Alarm>, tag: string): seq<bool>
  {
    seq(|xs|, i requires 0 <= i < |xs| => xs[i].tag != tag)
  }

  /** The list removeAlarm leaves: every alarm not of class `tag`, in order. */
  function Survivors(xs: seq<Alarm>, tag: string): seq<Alarm>
  {
    Pick(xs, KeepMask(xs, tag))
  }

  /**
   * Removal keeps exactly the alarms of another class: nothing of class `tag`
   * survives and every alarm of another class does.
   */
  lemma SurvivorsExact(xs: seq<Alarm>, tag: string)
    ensures forall a :: a in Survivors(xs, tag) <==> a in xs && a.tag != tag
  {
    forall a ensures a in Survivors(xs, tag) <==> a in xs && a.tag != tag {
      PickMember(xs, KeepMask(xs, tag), a);
    }
  }

  /** Removing the same class twice removes nothing more the second time. */
  lemma SurvivorsIdempotent(xs: seq<Alarm>, tag: string)
    ensures Survivors(Survivors(xs, tag), tag) == Survivors(xs, tag)
  {
    var s := Survivors(xs, tag);
    SurvivorsExact(xs, tag);
    assert forall i :: 0 <= i < |s| ==> s[i] in s;
    PickAll(s, KeepMask(s, tag));
  }

  /** Removing a class no registered alarm belongs to leaves the list as it was. */
  lemma SurvivorsOfAbsentClass(xs: seq<Alarm>, tag: string)
    requires forall i :: 0 <= i < |xs| ==> xs[i].tag != tag
    ensures Survivors(xs, tag) == xs
  {
    PickAll(xs, KeepMask(xs, tag));
  }
}
