/** The timer manager as the program has it: entries, in-flight ids and cancelled
    ids. Its abstraction is the set of live timers of TimerModel, in the middle of
    a tick as well as between ticks. */
module TimerManagement {
  import opened TimerModel

  const INT_MAX := 0x7FFF_FFFF

  function Ids(entries: seq<Entry>): (ids: seq<Id>)
    ensures |ids| == |entries| && forall k :: 0 <= k < |ids| ==> ids[k] == entries[k].id
  {
    seq(|entries|, k requires 0 <= k < |entries| => entries[k].id)
  }

  /** The entries by id. */
  ghost function ById(entries: seq<Entry>): (m: map<Id, Entry>)
    ensures forall id :: id in m <==> id in Ids(entries)
  {
    if entries == [] then map[]
    else
      assert Ids(entries) == [entries[0].id] + Ids(entries[1..]);
      ById(entries[1..])[entries[0].id := entries[0]]
  }

  lemma {:induction false} ByIdAppend(entries: seq<Entry>, e: Entry)
    requires e.id !in Ids(entries)
    ensures ById(entries + [e]) == ById(entries)[e.id := e]
  {
    if entries != [] {
      assert (entries + [e])[1..] == entries[1..] + [e];
      assert Ids(entries) == [entries[0].id] + Ids(entries[1..]);
      ByIdAppend(entries[1..], e);
    } else {
      assert (entries + [e])[1..] == [];
    }
  }

  /** Taking an id out of flight leaves it waiting with a new entry, or gone. */
  lemma Landed(waiting: map<Id, Entry>, flying: map<Id, Entry>, canceled: set<Id>, id: Id, next: Entry)
    requires waiting.Keys !! flying.Keys && id in flying
    ensures waiting[id := next] + ((flying - {id}) - (canceled - {id})) == (waiting + (flying - canceled))[id := next]
    ensures waiting + ((flying - {id}) - (canceled - {id})) == (waiting + (flying - canceled)) - {id}
  {
  }

  lemma ByIdRest(entries: seq<Entry>, k: nat)
    requires k < |entries| && Distinct(Ids(entries))
    ensures ById(entries[k..]) == ById(entries[k + 1..])[entries[k].id := entries[k]]
    ensures ById(entries[k..]) - {entries[k].id} == ById(entries[k + 1..])
  {
    assert entries[k..][1..] == entries[k + 1..];
    assert entries[k].id !in Ids(entries[k + 1..]);
  }

  class TimerManager {
    var timerEntries: map<Id, Entry>
    var nextTimerId: Id
    var canceledTimerIds: set<Id>
    var inFlightTimerIds: set<Id>
    ghost var inFlight: map<Id, Entry>  // the entries taken out by a tick in progress
    ghost var fired: seq<Id>            // the callbacks started so far

    constructor ()
      ensures Valid() && Abs() == Timers(map[], 1, []) && inFlightTimerIds == {}
    {
      timerEntries, nextTimerId := map[], 1;
      canceledTimerIds, inFlightTimerIds := {}, {};
      inFlight, fired := map[], [];
    }

    ghost predicate Valid()
      reads this
    {
      && nextTimerId >= 1
      && canceledTimerIds <= inFlightTimerIds == inFlight.Keys
      && timerEntries.Keys !! inFlight.Keys
      && (forall id :: id in timerEntries ==> 1 <= id < nextTimerId && timerEntries[id].id == id)
      && (forall id :: id in inFlight ==> 1 <= id < nextTimerId && inFlight[id].id == id)
      && (forall id :: id in timerEntries ==> timerEntries[id].callback.Function?)
      && (forall id :: id in inFlight ==> inFlight[id].callback.Function?)
    }

    /** Live: waiting, or taken out by the current tick and not cancelled since. */
    ghost function Abs(): Timers
      reads this
    {
      Timers(timerEntries + (inFlight - canceledTimerIds), nextTimerId, fired)
    }

    /** What a tick in progress has taken out does not change under other calls. */
    twostate predicate TickKept()
      reads this
    {
      inFlight == old(inFlight) && inFlightTimerIds == old(inFlightTimerIds) && fired == old(fired)
    }

    method Start(existingId: Id, now: int, delay: int, callback: Callback, repeating: bool) returns (id: Id)
      requires Valid()
      modifies this
      ensures Valid() && TickKept()
      ensures (Abs(), id) == StartTimer(old(Abs()), existingId, now, delay, callback, repeating)
    {
      if existingId != 0 {
        var _ := Cancel(existingId);
      }
      if callback.Empty? {
        return 0;
      }
      var wait := if delay < 0 then 0 else delay;
      id := Issue(now + wait * NANOS_PER_MILLI, wait * NANOS_PER_MILLI, callback, repeating);
    }

    /** Files a new entry under the next id. */
    method Issue(dueAt: int, interval: int, callback: Callback, repeating: bool) returns (id: Id)
      requires Valid() && callback.Function?
      modifies this
      ensures Valid() && TickKept() && id == old(nextTimerId)
      ensures Abs() == old(Abs()).(
        live := old(Abs()).live[id := Entry(id, dueAt, interval, callback, repeating)], nextId := id + 1)
    {
      id := nextTimerId;
      nextTimerId := nextTimerId + 1;
      timerEntries := timerEntries[id := Entry(id, dueAt, interval, callback, repeating)];
      assert Abs().live == old(Abs().live)[id := timerEntries[id]];
    }

    /** The result says whether the timer was waiting or belongs to the tick in progress;
        a live timer always gives true, and between ticks only a live timer does. */
    method Cancel(id: Id) returns (known: bool)
      requires Valid()
      modifies this
      ensures Valid() && TickKept() && nextTimerId == old(nextTimerId)
      ensures Abs() == Act(old(Abs()), TimerModel.Cancel(id))
      ensures Abs() == CancelTimer(old(Abs()), id)
      ensures known == (id in old(timerEntries) || id in old(inFlightTimerIds))
      ensures id in old(Abs()).live ==> known
    {
      if id == 0 {
        assert Abs() == CancelTimer(Abs(), id);
        return false;
      }
      if id in timerEntries {
        timerEntries := timerEntries - {id};
        assert Abs().live == old(Abs().live) - {id};
        return true;
      }
      if id in inFlightTimerIds {
        canceledTimerIds := canceledTimerIds + {id};
        assert Abs().live == old(Abs().live) - {id};
        return true;
      }
      assert Abs() == CancelTimer(Abs(), id);
      return false;
    }

    /** True exactly for live timers, also from inside a callback. */
    method Active(id: Id) returns (active: bool)
      requires Valid()
      ensures active <==> id in Abs().live
    {
      if id == 0 || id in canceledTimerIds {
        return false;
      }
      return id in timerEntries || id in inFlightTimerIds;
    }

    /** -1 waits for ever; otherwise waiting this long neither ends before the next
        timer is due nor, up to the limit of an int, a whole millisecond after. */
    method PollTimeoutMs(now: int) returns (timeout: int)
      requires Valid()
      ensures timeout == -1 <==> timerEntries == map[]
      ensures timeout == 0 <==> exists id :: id in timerEntries && timerEntries[id].dueAt <= now
      ensures timeout > 0 ==>
        forall id :: id in timerEntries ==> timerEntries[id].dueAt > now + (timeout - 1) * NANOS_PER_MILLI
      ensures 0 < timeout < INT_MAX ==>
        exists id :: id in timerEntries && timerEntries[id].dueAt <= now + timeout * NANOS_PER_MILLI
      ensures -1 <= timeout <= INT_MAX
    {
      if timerEntries == map[] {
        return -1;
      }
      var rest := timerEntries.Keys;
      var first :| first in rest;
      var nextDue, earliest := timerEntries[first].dueAt, first;
      while rest != {}
        invariant rest <= timerEntries.Keys
        invariant earliest in timerEntries && timerEntries[earliest].dueAt == nextDue
        invariant forall id :: id in timerEntries && id !in rest ==> nextDue <= timerEntries[id].dueAt
        decreases rest
      {
        var id :| id in rest;
        if timerEntries[id].dueAt < nextDue {
          nextDue, earliest := timerEntries[id].dueAt, id;
        }
        rest := rest - {id};
      }
      if nextDue <= now {
        return 0;
      }
      var remaining := (nextDue - now + NANOS_PER_MILLI - 1) / NANOS_PER_MILLI;
      assert (remaining - 1) * NANOS_PER_MILLI < nextDue - now <= remaining * NANOS_PER_MILLI;
      return if remaining < INT_MAX then remaining else INT_MAX;
    }

    /** Performs the calls a callback makes. */
    method RunCallback(actions: seq<Action>)
      requires Valid()
      modifies this
      ensures Valid() && TickKept()
      ensures Abs() == ActAll(old(Abs()), actions)
    {
      var k := 0;
      while k < |actions|
        invariant k <= |actions|
        invariant Valid() && TickKept()
        invariant ActAll(Abs(), actions[k..]) == ActAll(old(Abs()), actions)
      {
        assert actions[k..][1..] == actions[k + 1..];
        match actions[k] {
          case Start(existing, now, delay, callback, repeating) =>
            var _ := Start(existing, now, delay, callback, repeating);
          case Cancel(id) =>
            var _ := Cancel(id);
        }
        k := k + 1;
      }
    }

    /** Takes one waiting entry out of the map; it stays live. */
    method TakeOut(id: Id) returns (entry: Entry)
      requires Valid() && canceledTimerIds == {} && id in timerEntries
      modifies this
      ensures Valid() && Abs() == old(Abs()) && canceledTimerIds == {}
      ensures entry == old(timerEntries)[id] && entry.id == id
      ensures timerEntries == old(timerEntries) - {id} && inFlight == old(inFlight)[id := entry]
    {
      entry := timerEntries[id];
      inFlightTimerIds := inFlightTimerIds + {id};
      inFlight := inFlight[id := entry];
      timerEntries := timerEntries - {id};
      assert Abs().live == old(Abs().live);
    }

    /** Takes the entry out if it is due, adding it to those taken before. */
    method TakeIfDue(id: Id, now: int, due: seq<Entry>) returns (more: seq<Entry>)
      requires Valid() && canceledTimerIds == {} && id in timerEntries && inFlight == ById(due)
      modifies this
      ensures Valid() && Abs() == old(Abs()) && canceledTimerIds == {} && inFlight == ById(more)
      ensures timerEntries.Keys == old(timerEntries.Keys) || timerEntries.Keys == old(timerEntries.Keys) - {id}
      ensures Ids(more) == Ids(due) + (if Due(Abs(), id, now) then [id] else [])
    {
      more := due;
      if timerEntries[id].dueAt <= now {
        var entry := TakeOut(id);
        ByIdAppend(due, entry);
        more := due + [entry];
      }
    }

    /** Moves the due entries out of the map, in its iteration order. */
    method TakeDue(now: int, order: seq<Id>) returns (due: seq<Entry>)
      requires Valid() && inFlight == map[] && canceledTimerIds == {}
      requires IsOrder(order, timerEntries.Keys)
      modifies this
      ensures Valid() && Abs() == old(Abs())
      ensures Ids(due) == DueOf(old(Abs()), now, order) && inFlight == ById(due)
    {
      due := [];
      ghost var before := Abs();
      var k := 0;
      while k < |order|
        invariant k <= |order|
        invariant Valid() && Abs() == before && canceledTimerIds == {}
        invariant forall j :: k <= j < |order| ==> order[j] in timerEntries.Keys
        invariant Ids(due) == DueOf(before, now, order[..k]) && inFlight == ById(due)
      {
        DueOfNext(before, now, order, k);
        due := TakeIfDue(order[k], now, due);
        k := k + 1;
      }
      assert order[..k] == order;
    }

    ghost predicate Taken(entry: Entry)
      reads this
    {
      entry.id in inFlight && inFlight[entry.id] == entry
    }

    /** A repeating entry waits again, unless it was cancelled. */
    method Rearm(entry: Entry, finishedAt: int)
      requires Valid() && Taken(entry)
      modifies this`timerEntries
      ensures Landing(entry.id)
      ensures timerEntries == if entry.repeating && entry.id !in canceledTimerIds
        then old(timerEntries)[entry.id := entry.(dueAt := finishedAt + entry.interval)] else old(timerEntries)
    {
      if entry.repeating && entry.id != 0 && entry.id !in canceledTimerIds {
        timerEntries := timerEntries[entry.id := entry.(dueAt := finishedAt + entry.interval)];
      }
    }

    /** Valid but for one id, which may be waiting again while it is still in flight. */
    ghost predicate Landing(id: Id)
      reads this
    {
      && nextTimerId >= 1 && id in inFlight
      && canceledTimerIds <= inFlightTimerIds == inFlight.Keys
      && timerEntries.Keys !! inFlight.Keys - {id}
      && (forall x :: x in timerEntries ==> Sane(timerEntries, x))
      && (forall x :: x in inFlight ==> Sane(inFlight, x))
    }

    ghost predicate Sane(entries: map<Id, Entry>, id: Id)
      requires id in entries
      reads this
    {
      1 <= id < nextTimerId && entries[id].id == id && entries[id].callback.Function?
    }

    /** The tick lets go of an id. */
    method Land(id: Id)
      requires Landing(id)
      modifies this`canceledTimerIds, this`inFlightTimerIds, this`inFlight
      ensures Valid() && inFlight == old(inFlight) - {id} && canceledTimerIds == old(canceledTimerIds) - {id}
    {
      canceledTimerIds := canceledTimerIds - {id};
      inFlightTimerIds := inFlightTimerIds - {id};
      inFlight := inFlight - {id};
      assert forall x :: x in timerEntries ==> Sane(timerEntries, x);
      assert forall x :: x in inFlight ==> Sane(inFlight, x);
    }

    /** The tick is done with an entry: it is waiting again, or it is not live any more. */
    method Retire(entry: Entry, finishedAt: int)
      requires Valid() && Taken(entry)
      modifies this
      ensures Valid() && inFlight == old(inFlight) - {entry.id}
      ensures Abs() == Settle(old(Abs()), entry, finishedAt)
    {
      Landed(timerEntries, inFlight, canceledTimerIds, entry.id, entry.(dueAt := finishedAt + entry.interval));
      Rearm(entry, finishedAt);
      Land(entry.id);
    }

    /** The tick lets go of an entry it has taken out. */
    method Release(id: Id)
      requires Valid() && id in inFlight
      modifies this
      ensures Valid() && inFlight == old(inFlight) - {id}
      ensures Abs() == CancelTimer(old(Abs()), id)
      ensures timerEntries == old(timerEntries) && nextTimerId == old(nextTimerId)
    {
      canceledTimerIds := canceledTimerIds - {id};
      inFlightTimerIds := inFlightTimerIds - {id};
      inFlight := inFlight - {id};
      assert Abs().live == old(Abs().live) - {id};
    }

    /** Runs one taken entry, unless it has been cancelled since. */
    method FireEntry(entry: Entry, run: CallbackRun)
      requires Valid() && Taken(entry)
      modifies this
      ensures Valid() && inFlight == old(inFlight) - {entry.id}
      ensures Abs() == if entry.id in old(Abs()).live then Fire(old(Abs()), entry.id, run) else old(Abs())
    {
      if entry.id in canceledTimerIds {
        Release(entry.id);
        assert Abs() == old(Abs());
        return;
      }
      assert old(Abs()).live[entry.id] == entry;
      fired := fired + [entry.id];
      assert Abs() == old(Abs()).(fired := old(fired) + [entry.id]);
      RunCallback(run.actions);
      Retire(entry, run.finishedAt);
    }

    method FireAll(dueEntries: seq<Entry>, runs: seq<CallbackRun>)
      requires Valid() && Distinct(Ids(dueEntries)) && inFlight == ById(dueEntries)
      modifies this
      ensures Valid() && inFlight == map[]
      ensures Abs() == FireFrom(old(Abs()), Ids(dueEntries), 0, runs)
    {
      ghost var due := Ids(dueEntries);
      ghost var goal := FireFrom(Abs(), due, 0, runs);
      assert dueEntries[0..] == dueEntries;
      var k := 0;
      while k < |dueEntries|
        invariant k <= |dueEntries|
        invariant Valid() && inFlight == ById(dueEntries[k..])
        invariant FireFrom(Abs(), due, k, runs) == goal
      {
        ByIdRest(dueEntries, k);
        FireEntry(dueEntries[k], RunAt(runs, k));
        k := k + 1;
      }
    }

    /** One tick is one tick of the model, and leaves nothing in flight or cancelled. */
    method Tick(now: int, order: seq<Id>, runs: seq<CallbackRun>)
      requires Valid() && inFlightTimerIds == {}
      requires IsOrder(order, timerEntries.Keys)
      modifies this
      ensures Valid() && inFlightTimerIds == {} && canceledTimerIds == {}
      ensures Abs() == ExecStep(old(Abs()), TimerModel.Tick(now, order, runs))
    {
      assert Abs().live == timerEntries;
      if timerEntries == map[] {
        assert forall id :: id !in DueOf(Abs(), now, order);
        return;
      }
      var dueEntries := TakeDue(now, order);
      FireAll(dueEntries, runs);
    }
  }

  /** The owner of at most one timer. */
  class Timer {
    var id: Id

    constructor ()
      ensures id == 0
    {
      id := 0;
    }

    /** Starting again retires the timer owned before. */
    method Start(manager: TimerManager, now: int, delay: int, callback: Callback, repeating: bool)
      requires manager.Valid()
      modifies this, manager
      ensures manager.Valid() && manager.TickKept()
      ensures (manager.Abs(), id) == StartTimer(old(manager.Abs()), old(id), now, delay, callback, repeating)
    {
      id := manager.Start(id, now, delay, callback, repeating);
    }

    method Stop(manager: TimerManager)
      requires manager.Valid()
      modifies this, manager
      ensures manager.Valid() && manager.TickKept() && id == 0
      ensures manager.Abs() == Act(old(manager.Abs()), Cancel(old(id)))
    {
      if id == 0 {
        return;
      }
      var _ := manager.Cancel(id);
      id := 0;
    }

    /** Move assignment: the timer owned before is stopped, the other owner lets go of its own. */
    method MoveFrom(manager: TimerManager, other: Timer)
      requires manager.Valid()
      modifies this, other, manager
      ensures manager.Valid() && manager.TickKept()
      ensures other == this ==> id == old(id) && manager.Abs() == old(manager.Abs())
      ensures other != this ==> id == old(other.id) && other.id == 0
      ensures other != this ==> manager.Abs() == Act(old(manager.Abs()), Cancel(old(id)))
    {
      if this == other {
        return;
      }
      Stop(manager);
      id := other.id;
      other.id := 0;
    }
  }
}
