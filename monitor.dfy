/** The monitor worker (notifyOnChangesWorker): the loop that polls one board,
    compares each snapshot with the previous one and notifies the chat when a
    burst of edits has ended. What the outside world does during a run is an
    input: at each turn of the loop either the stop signal is waiting, or it
    is not and the worker sleeps, fetches a snapshot and, if it notifies,
    learns whether the message was delivered. */
module Monitor {
  import opened Config
  import opened Bytes
  import opened Detector
  import opened Boards

  /** One turn of the worker's loop. */
  datatype Event =
    | Quit                                        // the stop signal is waiting
    | Poll(snapshot: Snapshot, delivery: Status)  // the fetched widgets, and what sending a notification returns

  /** How the worker ended: it observed the stop signal and returned nil, a
      notification failed and it returned that error, or the events ran out
      while it was still running. */
  datatype Exit = Stopped | Failed(err: string) | Running

  /** The worker's local state: the snapshot it compares against, the flag of
      the previous tick, the ticks at which it sent a notification and the
      messages it sent. */
  datatype State = State(
    widgetsOld: Snapshot,
    haveChangesBefore: bool,
    notified: seq<nat>,
    outbox: seq<Message>)

  /** What a run did: how it ended, how many ticks it began (polls taken),
      and the state it ended in. */
  datatype Report = Report(exit: Exit, ticks: nat, state: State)

  /** A tick whose notification, if it sent one, was delivered. */
  predicate Delivered(e: Event)
  {
    e.Poll? && e.delivery == Nil
  }

  /** The first n turns of the loop were all polls. */
  predicate PolledFor(events: seq<Event>, n: nat)
  {
    n <= |events| && forall j :: 0 <= j < n ==> events[j].Poll?
  }

  /** The snapshots of the first n ticks. */
  function Polled(events: seq<Event>, n: nat): (snaps: seq<Snapshot>)
    requires PolledFor(events, n)
    ensures |snaps| == n
  {
    if n == 0 then [] else Polled(events, n - 1) + [events[n - 1].snapshot]
  }

  /** The `differs` flags of the first n ticks. */
  function Observed(initial: Snapshot, events: seq<Event>, n: nat): (d: seq<bool>)
    requires PolledFor(events, n)
    ensures |d| == n
  {
    Changes(initial, Polled(events, n))
  }

  /** n copies of the same message. */
  function Sent(message: Message, n: nat): (r: seq<Message>)
    ensures |r| == n
    ensures forall i :: 0 <= i < n ==> r[i] == message
  {
    if n == 0 then [] else Sent(message, n - 1) + [message]
  }

  /** The state after k completed ticks, read off the detector: the last
      snapshot polled, the last tick's flag, the falling edges of the flags so
      far, and one `message` per edge. */
  ghost function Expected(initial: Snapshot, events: seq<Event>, message: Message, k: nat): State
    requires PolledFor(events, k)
  {
    var d := Observed(initial, events, k);
    var notified := FallingEdges(d);
    State(Last(initial, Polled(events, k)), k > 0 && d[k - 1], notified, Sent(message, |notified|))
  }

  /** The tick after the last completed one: a tick whose notification failed
      did not complete, so its snapshot and flag were never stored. */
  function Completed(report: Report): nat
  {
    if report.exit.Failed? && report.ticks > 0 then report.ticks - 1 else report.ticks
  }

  /** Appending a flag keeps the earlier edges and adds the last tick's. */
  lemma FallingEdgesSnoc(d: seq<bool>, b: bool)
    ensures FallingEdges(d + [b]) == FallingEdges(d) + (if |d| > 0 && d[|d| - 1] && !b then [|d|] else [])
  {
    var e := d + [b];
    assert e[..|d|] == d;
    assert FiresAt(e, |d|) == (|d| > 0 && d[|d| - 1] && !b);
  }

  /** One more poll compares the new snapshot with the stored one, appends
      that flag, stores the new snapshot, and notifies exactly when the
      previous flag was set and the new one is not. */
  lemma ExpectedStep(initial: Snapshot, events: seq<Event>, message: Message, k: nat)
    requires PolledFor(events, k) && k < |events| && events[k].Poll?
    ensures PolledFor(events, k + 1)
    ensures
      var before := Expected(initial, events, message, k);
      var now := Differs(before.widgetsOld, events[k].snapshot);
      var fires := before.haveChangesBefore && !now;
      && Observed(initial, events, k + 1) == Observed(initial, events, k) + [now]
      && Expected(initial, events, message, k + 1) ==
           State(events[k].snapshot, now,
                 before.notified + (if fires then [k] else []),
                 before.outbox + (if fires then [message] else []))
  {
    var d := Observed(initial, events, k);
    var now := Differs(Last(initial, Polled(events, k)), events[k].snapshot);
    ChangesSnoc(initial, Polled(events, k), events[k].snapshot);
    FallingEdgesSnoc(d, now);
  }

  /** What a run of the worker did, stated against the detector's definitions:
      the ticks it ran were all polls; it stopped on the stop signal or ran
      out of events in the state `Expected` gives for the ticks it completed,
      or it failed on a notification the edge rule fired, with that tick's
      notification recorded but its snapshot and flag not stored; and every
      notification of a completed tick was delivered. */
  ghost predicate Explains(initial: Snapshot, events: seq<Event>, message: Message, report: Report)
  {
    && PolledFor(events, report.ticks)
    && (match report.exit
        case Stopped =>
          && report.ticks < |events| && events[report.ticks] == Quit
          && report.state == Expected(initial, events, message, report.ticks)
        case Running =>
          && report.ticks == |events|
          && report.state == Expected(initial, events, message, report.ticks)
        case Failed(err) =>
          && 0 < report.ticks
          && events[report.ticks - 1].delivery == Error(err)
          && FiresAt(Observed(initial, events, report.ticks), report.ticks - 1)
          && var before, after := Expected(initial, events, message, report.ticks - 1),
                                  Expected(initial, events, message, report.ticks);
             report.state == State(before.widgetsOld, before.haveChangesBefore, after.notified, after.outbox))
    && (forall i :: 0 <= i < |report.state.notified| && report.state.notified[i] < Completed(report) ==>
          Delivered(events[report.state.notified[i]]))
  }

  /** One poll turn of the loop, from the state after k completed ticks:
      compare the fetched snapshot with the stored one and, on a falling edge,
      send the notification. A delivered (or unsent) notification completes
      the tick; a failed one ends the run with the tick's snapshot and flag
      not stored. */
  method Tick(initial: Snapshot, events: seq<Event>, message: Message, k: nat, s: State)
    returns (s': State, failure: Status)
    requires PolledFor(events, k) && k < |events| && events[k].Poll?
    requires s == Expected(initial, events, message, k)
    requires forall i :: 0 <= i < |s.notified| ==> s.notified[i] < k && Delivered(events[s.notified[i]])
    ensures PolledFor(events, k + 1)
    ensures failure == Nil ==> s' == Expected(initial, events, message, k + 1)
    ensures failure == Nil ==>
      forall i :: 0 <= i < |s'.notified| ==> s'.notified[i] < k + 1 && Delivered(events[s'.notified[i]])
    ensures failure.Error? ==>
      && failure == events[k].delivery
      && FiresAt(Observed(initial, events, k + 1), k)
      && s'.notified == s.notified + [k]
      && s' == State(s.widgetsOld, s.haveChangesBefore,
                     Expected(initial, events, message, k + 1).notified,
                     Expected(initial, events, message, k + 1).outbox)
  {
    ExpectedStep(initial, events, message, k);
    var widgetsNew := events[k].snapshot;
    var haveChangesNow := Differs(s.widgetsOld, widgetsNew);
    var notified, outbox := s.notified, s.outbox;
    if s.haveChangesBefore && !haveChangesNow {
      // sendNotification
      notified := notified + [k];
      outbox := outbox + [message];
      if events[k].delivery.Error? {
        return State(s.widgetsOld, s.haveChangesBefore, notified, outbox), events[k].delivery;
      }
    }
    return State(widgetsNew, haveChangesNow, notified, outbox), Nil;
  }

  /** notifyOnChangesWorker, from the initial fetch on: `initial` is the
      snapshot fetched before the loop, `events` what each turn of the loop
      found. */
  method NotifyOnChangesWorker(boards: map<string, Board>, boardId: string, chatId: int,
                               initial: Snapshot, events: seq<Event>)
    returns (report: Report)
    ensures Explains(initial, events, Notification(boards, boardId, chatId), report)
  {
    var message := Notification(boards, boardId, chatId);
    var s := State(initial, false, [], []);
    var exit := Running;
    var k := 0;
    while k < |events|
      invariant PolledFor(events, k)
      invariant s == Expected(initial, events, message, k)
      invariant forall i :: 0 <= i < |s.notified| ==> s.notified[i] < k && Delivered(events[s.notified[i]])
    {
      if events[k].Quit? {
        exit := Stopped;
        break;
      }
      var next, failure := Tick(initial, events, message, k, s);
      k := k + 1;
      s := next;
      if failure.Error? {
        exit := Failed(failure.msg);
        break;
      }
    }
    report := Report(exit, k, s);
  }

  /** Whatever way a run ended, the notifications it sent are the falling
      edges of the flags of the ticks it ran, one `message` each. */
  lemma ExplainsNotified(initial: Snapshot, events: seq<Event>, message: Message, report: Report)
    requires Explains(initial, events, message, report)
    ensures report.state.notified == FallingEdges(Observed(initial, events, report.ticks))
    ensures report.state.outbox == Sent(message, |report.state.notified|)
  {
  }

  /** The i-th polled snapshot is the one the i-th turn of the loop fetched. */
  lemma {:induction false} PolledAt(events: seq<Event>, n: nat, i: nat)
    requires PolledFor(events, n) && i < n
    ensures Polled(events, n)[i] == events[i].snapshot
    decreases n
  {
    if i < n - 1 {
      PolledAt(events, n - 1, i);
    }
  }

  /** No run notifies on its first tick. */
  lemma FirstTickNeverNotifies(initial: Snapshot, events: seq<Event>, message: Message, report: Report)
    requires Explains(initial, events, message, report)
    ensures 0 !in report.state.notified
  {
    ExplainsNotified(initial, events, message, report);
    FirstTickNeverFires(initial, Polled(events, report.ticks));
  }

  /** A board whose widgets never change is never reported, and so the run
      cannot fail, however many ticks it runs. */
  lemma QuietBoardNeverNotifies(initial: Snapshot, events: seq<Event>, message: Message, report: Report)
    requires Explains(initial, events, message, report)
    requires forall j :: 0 <= j < |events| && events[j].Poll? ==> events[j].snapshot == initial
    ensures report.state.notified == [] && report.state.outbox == []
    ensures !report.exit.Failed?
  {
    ExplainsNotified(initial, events, message, report);
    var snaps := Polled(events, report.ticks);
    forall i | 0 <= i < |snaps|
      ensures snaps[i] == initial
    {
      PolledAt(events, report.ticks, i);
    }
    ConstantNeverFires(initial, snaps);
  }

  /** A run sends one notification per true-to-false transition of its
      `differs` flags. */
  lemma NotificationCount(initial: Snapshot, events: seq<Event>, message: Message, report: Report)
    requires Explains(initial, events, message, report)
    ensures |report.state.notified| == |report.state.outbox| == TrueToFalse(Observed(initial, events, report.ticks))
  {
    ExplainsNotified(initial, events, message, report);
    FallingEdgeCount(Observed(initial, events, report.ticks));
  }
}
