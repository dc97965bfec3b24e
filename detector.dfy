/** The change detector: how a stream of board snapshots becomes a stream of
    "differs" flags, and at which ticks the edge rule fires a notification.
    Tick i (counting from 0) compares snapshot i with the one before it, the
    snapshot taken when the worker started for tick 0. */
module Detector {
  import opened Bytes

  /** One tick's observation: `bytes.Compare(old, new) != 0`. */
  function Differs(prev: Snapshot, next: Snapshot): (r: bool)
    ensures r <==> prev != next
  {
    Compare(prev, next) != 0
  }

  /** The snapshot a tick compares against: the latest one before it. */
  function Last(initial: Snapshot, snaps: seq<Snapshot>): Snapshot
  {
    if snaps == [] then initial else snaps[|snaps| - 1]
  }

  /** The `differs` flag of every tick of a run that started from `initial`
      and then polled `snaps`, one snapshot per tick. */
  function Changes(initial: Snapshot, snaps: seq<Snapshot>): (d: seq<bool>)
    ensures |d| == |snaps|
  {
    if snaps == [] then []
    else
      var n := |snaps| - 1;
      Changes(initial, snaps[..n]) + [Differs(Last(initial, snaps[..n]), snaps[n])]
  }

  /** A tick's flag is set exactly when its snapshot is not byte-equal to the
      one stored before it. */
  lemma {:induction false} ChangesExact(initial: Snapshot, snaps: seq<Snapshot>, i: nat)
    requires i < |snaps|
    ensures Changes(initial, snaps)[i] <==> Last(initial, snaps[..i]) != snaps[i]
    decreases |snaps|
  {
    var n := |snaps| - 1;
    if i < n {
      ChangesExact(initial, snaps[..n], i);
      assert snaps[..n][..i] == snaps[..i];
    }
  }

  /** Polling one more snapshot adds one flag and leaves the earlier ones. */
  lemma ChangesSnoc(initial: Snapshot, snaps: seq<Snapshot>, s: Snapshot)
    ensures Changes(initial, snaps + [s]) == Changes(initial, snaps) + [Differs(Last(initial, snaps), s)]
  {
    assert (snaps + [s])[..|snaps|] == snaps;
  }

  /** The edge rule: a notification fires at tick i when the previous tick saw
      a change and tick i does not. Before the first tick the flag is false. */
  predicate FiresAt(d: seq<bool>, i: nat)
    requires i < |d|
  {
    i > 0 && d[i - 1] && !d[i]
  }

  /** The ticks at which a notification fires, in increasing order. */
  function FallingEdges(d: seq<bool>): (r: seq<nat>)
    ensures |r| <= |d|
    ensures forall j :: 0 <= j < |r| ==> r[j] < |d|
    ensures forall j, k :: 0 <= j < k < |r| ==> r[j] < r[k]
  {
    if |d| == 0 then []
    else
      var n := |d| - 1;
      FallingEdges(d[..n]) + (if FiresAt(d, n) then [n] else [])
  }

  /** The falling edges are exactly the ticks at which the edge rule fires,
      each listed once, in increasing order. */
  lemma {:induction false} FallingEdgesExact(d: seq<bool>)
    ensures forall j :: 0 <= j < |FallingEdges(d)| ==>
      FallingEdges(d)[j] < |d| && FiresAt(d, FallingEdges(d)[j])
    ensures forall i: nat :: i < |d| && FiresAt(d, i) ==> i in FallingEdges(d)
    ensures forall j, k :: 0 <= j < k < |FallingEdges(d)| ==> FallingEdges(d)[j] < FallingEdges(d)[k]
    decreases |d|
  {
    if |d| > 0 {
      var n := |d| - 1;
      FallingEdgesExact(d[..n]);
    }
  }

  /** An independent count of true-to-false transitions, read front to back. */
  function TrueToFalse(d: seq<bool>): nat
  {
    if |d| < 2 then 0
    else (if d[0] && !d[1] then 1 else 0) + TrueToFalse(d[1..])
  }

  lemma {:induction false} TrueToFalseSnoc(d: seq<bool>, b: bool)
    ensures TrueToFalse(d + [b]) == TrueToFalse(d) + (if |d| > 0 && d[|d| - 1] && !b then 1 else 0)
    decreases |d|
  {
    if |d| >= 2 {
      assert (d + [b])[1..] == d[1..] + [b];
      TrueToFalseSnoc(d[1..], b);
    }
  }

  /** Over a run, the number of notifications is the number of true-to-false
      transitions of the `differs` sequence. */
  lemma {:induction false} FallingEdgeCount(d: seq<bool>)
    ensures |FallingEdges(d)| == TrueToFalse(d)
    decreases |d|
  {
    if |d| > 0 {
      var n := |d| - 1;
      FallingEdgeCount(d[..n]);
      assert d == d[..n] + [d[n]];
      TrueToFalseSnoc(d[..n], d[n]);
    }
  }

  /** The first tick never notifies, whatever it observes. */
  lemma FirstTickNeverFires(initial: Snapshot, snaps: seq<Snapshot>)
    ensures 0 !in FallingEdges(Changes(initial, snaps))
  {
    FallingEdgesExact(Changes(initial, snaps));
  }

  /** A flag sequence that never changes value, all true (edits that never
      settle) or all false (no edits), never notifies. */
  lemma UniformNeverFires(d: seq<bool>, b: bool)
    requires forall i :: 0 <= i < |d| ==> d[i] == b
    ensures FallingEdges(d) == []
  {
    FallingEdgesExact(d);
  }

  /** A board whose content never changes never sets a flag. */
  lemma ConstantNeverDiffers(initial: Snapshot, snaps: seq<Snapshot>)
    requires forall i :: 0 <= i < |snaps| ==> snaps[i] == initial
    ensures forall i :: 0 <= i < |snaps| ==> !Changes(initial, snaps)[i]
  {
    forall i | 0 <= i < |snaps|
      ensures !Changes(initial, snaps)[i]
    {
      ChangesExact(initial, snaps, i);
      assert Last(initial, snaps[..i]) == initial;
    }
  }

  /** A board whose content never changes never notifies, however long the run. */
  lemma ConstantNeverFires(initial: Snapshot, snaps: seq<Snapshot>)
    requires forall i :: 0 <= i < |snaps| ==> snaps[i] == initial
    ensures FallingEdges(Changes(initial, snaps)) == []
  {
    ConstantNeverDiffers(initial, snaps);
    UniformNeverFires(Changes(initial, snaps), false);
  }

  /** After an initial A, snapshots A, B, B, A, A: the edits A to B and back
      to A each end once, so exactly two notifications, at ticks 2 and 4. */
  lemma TwoEditBursts(a: Snapshot, b: Snapshot)
    requires a != b
    ensures Changes(a, [a, b, b, a, a]) == [false, true, false, true, false]
    ensures FallingEdges(Changes(a, [a, b, b, a, a])) == [2, 4]
  {
    var s1, s2, s3, s4, s5 := [a], [a, b], [a, b, b], [a, b, b, a], [a, b, b, a, a];
    assert s2[..1] == s1 && s3[..2] == s2 && s4[..3] == s3 && s5[..4] == s4;
    assert Changes(a, s1) == [false];
    assert Changes(a, s2) == [false, true];
    assert Changes(a, s3) == [false, true, false];
    assert Changes(a, s4) == [false, true, false, true];
    FallingEdgesOfTwoBursts();
  }

  lemma FallingEdgesOfTwoBursts()
    ensures FallingEdges([false, true, false, true, false]) == [2, 4]
  {
    var d1, d2, d3, d4, d5 := [false], [false, true], [false, true, false],
      [false, true, false, true], [false, true, false, true, false];
    assert d2[..1] == d1 && d3[..2] == d2 && d4[..3] == d3 && d5[..4] == d4;
    assert FallingEdges(d1) == [];
    assert FallingEdges(d2) == [];
    assert FallingEdges(d3) == [2];
    assert FallingEdges(d4) == [2];
  }
}
