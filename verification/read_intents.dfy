/** Wayland read intents: what it means that they are bracketed. */
module ReadIntents {

  /** The calls on display i that announce a read, perform it, or give it up. */
  datatype Event =
    | Prepare(i: nat)
    | Read(i: nat)
    | CancelRead(i: nat)

  datatype Intents = Broken | Open(displays: set<nat>)

  function Next(s: Intents, e: Event): Intents {
    match s
    case Broken => Broken
    case Open(displays) =>
      match e
      case Prepare(i) => if i in displays then Broken else Open(displays + {i})
      case Read(i) => if i in displays then Open(displays - {i}) else Broken
      case CancelRead(i) => if i in displays then Open(displays - {i}) else Broken
  }

  /** The displays with an open read intent after the calls, unless a display was
      prepared twice at once or read or cancelled without being prepared. */
  function Replay(log: seq<Event>): Intents {
    if log == [] then Open({}) else Next(Replay(log[..|log| - 1]), log[|log| - 1])
  }

  lemma ReplayNext(log: seq<Event>, e: Event)
    ensures Replay(log + [e]) == Next(Replay(log), e)
  {
    assert (log + [e])[..|log|] == log;
  }

  predicate Closes(e: Event, i: nat) { e == Read(i) || e == CancelRead(i) }

  /** Every prepare is followed by exactly one read or cancel of that display before its
      next prepare, and every read or cancel closes such a prepare. */
  ghost predicate Bracketed(log: seq<Event>) {
    && (forall k :: 0 <= k < |log| && log[k].Prepare? ==> ClosedLater(log, k))
    && (forall k :: 0 <= k < |log| && !log[k].Prepare? ==> OpenedBefore(log, k))
  }

  ghost predicate ClosedLater(log: seq<Event>, k: nat)
    requires k < |log|
  {
    exists m :: k < m < |log| && Closes(log[m], log[k].i) && forall j :: k < j < m ==> log[j].i != log[k].i
  }

  ghost predicate OpenedBefore(log: seq<Event>, k: nat)
    requires k < |log|
  {
    exists m :: 0 <= m < k && log[m] == Prepare(log[k].i) && forall j :: m < j < k ==> log[j].i != log[k].i
  }

  /** The prepare at position m is the last call on its display. */
  ghost predicate LastCall(log: seq<Event>, m: nat)
    requires m < |log|
  {
    forall j :: m < j < |log| ==> log[j].i != log[m].i
  }

  /** A display is open because of a prepare that is its last call. */
  lemma {:induction false} OpenHasPrepare(log: seq<Event>, i: nat)
    requires Replay(log).Open? && i in Replay(log).displays
    ensures exists m :: 0 <= m < |log| && log[m] == Prepare(i) && LastCall(log, m)
    decreases |log|
  {
    var front, e := log[..|log| - 1], log[|log| - 1];
    if e == Prepare(i) {
      assert log[|log| - 1] == Prepare(i) && LastCall(log, |log| - 1);
    } else {
      OpenHasPrepare(front, i);
      var m :| 0 <= m < |front| && front[m] == Prepare(i) && LastCall(front, m);
      assert log[m] == Prepare(i) && LastCall(log, m);
    }
  }

  /** A prepare is closed later, or its display is still open because of it. */
  lemma {:induction false} PrepareClosesOrStaysOpen(log: seq<Event>, m: nat)
    requires Replay(log).Open? && m < |log| && log[m].Prepare?
    ensures ClosedLater(log, m) || (log[m].i in Replay(log).displays && LastCall(log, m))
    decreases |log|
  {
    var i, front, e := log[m].i, log[..|log| - 1], log[|log| - 1];
    if m < |front| {
      PrepareClosesOrStaysOpen(front, m);
      if ClosedLater(front, m) {
        var k :| m < k < |front| && Closes(front[k], front[m].i) && forall j :: m < j < k ==> front[j].i != front[m].i;
        assert Closes(log[k], i) && forall j :: m < j < k ==> log[j].i != i;
      } else if e.i == i {
        assert Closes(log[|front|], i) && forall j :: m < j < |front| ==> front[j] == log[j];
      }
    }
  }

  /** A read or cancel closes a prepare. */
  lemma {:induction false} CloseHasPrepare(log: seq<Event>, k: nat)
    requires Replay(log).Open? && k < |log| && !log[k].Prepare?
    ensures OpenedBefore(log, k)
    decreases |log|
  {
    var i, front := log[k].i, log[..|log| - 1];
    if k < |front| {
      CloseHasPrepare(front, k);
      var m :| 0 <= m < k && front[m] == Prepare(front[k].i) && forall j :: m < j < k ==> front[j].i != front[k].i;
      assert log[m] == Prepare(i) && forall j :: m < j < k ==> log[j].i != i;
    } else {
      OpenHasPrepare(front, i);
      var m :| 0 <= m < |front| && front[m] == Prepare(i) && LastCall(front, m);
      assert log[m] == Prepare(i) && forall j :: m < j < k ==> log[j].i != i;
    }
  }

  /** A log that replays to no open intent is bracketed. */
  lemma ReplayMeansBracketed(log: seq<Event>)
    requires Replay(log) == Open({})
    ensures Bracketed(log)
  {
    forall k | 0 <= k < |log| ensures log[k].Prepare? ==> ClosedLater(log, k) {
      if log[k].Prepare? {
        PrepareClosesOrStaysOpen(log, k);
      }
    }
    forall k | 0 <= k < |log| ensures !log[k].Prepare? ==> OpenedBefore(log, k) {
      if !log[k].Prepare? {
        CloseHasPrepare(log, k);
      }
    }
  }
}
