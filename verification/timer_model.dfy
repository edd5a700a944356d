/** Timers as a set of live timers, with none of the bookkeeping the manager
    needs to survive callbacks that start and cancel timers, and what follows
    for every run. */
module TimerModel {

  type Id = nat

  /** A std::function: empty, or something that can be called. */
  datatype Callback = Empty | Function(token: nat)

  /** Times are in nanoseconds, delays in milliseconds. */
  datatype Entry = Entry(id: Id, dueAt: int, interval: int, callback: Callback, repeating: bool)

  /** A call made by the program or by a timer callback. */
  datatype Action =
    | Start(existing: Id, now: int, delay: int, callback: Callback, repeating: bool)
    | Cancel(id: Id)

  /** What one callback does, and the clock when it returns. */
  datatype CallbackRun = CallbackRun(actions: seq<Action>, finishedAt: int)

  datatype Timers = Timers(live: map<Id, Entry>, nextId: Id, fired: seq<Id>)

  /** A call from the main loop; `order` is the iteration order of the hash map. */
  datatype Step =
    | Do(action: Action)
    | Tick(now: int, order: seq<Id>, runs: seq<CallbackRun>)

  const NANOS_PER_MILLI := 1_000_000

  function Nanos(delay: int): int { (if delay < 0 then 0 else delay) * NANOS_PER_MILLI }

  function CancelTimer(t: Timers, id: Id): Timers { t.(live := t.live - {id}) }

  function StartTimer(t: Timers, existing: Id, now: int, delay: int, callback: Callback, repeating: bool)
    : (Timers, Id)
  {
    var t1 := if existing != 0 then CancelTimer(t, existing) else t;
    if callback.Empty? then (t1, 0)
    else
      var entry := Entry(t1.nextId, now + Nanos(delay), Nanos(delay), callback, repeating);
      (t1.(live := t1.live[t1.nextId := entry], nextId := t1.nextId + 1), t1.nextId)
  }

  function Act(t: Timers, action: Action): Timers {
    match action
    case Start(existing, now, delay, callback, repeating) =>
      StartTimer(t, existing, now, delay, callback, repeating).0
    case Cancel(id) => if id == 0 then t else CancelTimer(t, id)
  }

  function ActAll(t: Timers, actions: seq<Action>): Timers
    decreases |actions|
  {
    if actions == [] then t else ActAll(Act(t, actions[0]), actions[1..])
  }

  /** Runs the callback of a live timer, then re-arms or retires it unless it was cancelled meanwhile. */
  function Fire(t: Timers, id: Id, run: CallbackRun): Timers
    requires id in t.live
  {
    var entry := t.live[id];
    Settle(ActAll(t.(fired := t.fired + [id]), run.actions), entry, run.finishedAt)
  }

  function Settle(t: Timers, entry: Entry, finishedAt: int): Timers {
    if entry.id !in t.live then t
    else if entry.repeating then
      t.(live := t.live[entry.id := entry.(dueAt := finishedAt + entry.interval)])
    else t.(live := t.live - {entry.id})
  }

  function RunAt(runs: seq<CallbackRun>, k: nat): CallbackRun {
    if k < |runs| then runs[k] else CallbackRun([], 0)
  }

  /** Fires those of due[k..] that are still live when their turn comes. */
  function FireFrom(t: Timers, due: seq<Id>, k: nat, runs: seq<CallbackRun>): Timers
    decreases |due| - k
  {
    if k >= |due| then t
    else FireFrom(if due[k] in t.live then Fire(t, due[k], RunAt(runs, k)) else t, due, k + 1, runs)
  }

  predicate Due(t: Timers, id: Id, now: int) { id in t.live && t.live[id].dueAt <= now }

  /** The timers of the order that are due, in that order. */
  function DueOf(t: Timers, now: int, order: seq<Id>): (due: seq<Id>)
    ensures forall id :: id in due <==> id in order && Due(t, id, now)
    ensures Distinct(order) ==> Distinct(due)
    decreases |order|
  {
    if order == [] then []
    else
      var last := order[|order| - 1];
      var due := DueOf(t, now, order[..|order| - 1]);
      assert order == order[..|order| - 1] + [last];
      if Due(t, last, now) then due + [last] else due
  }

  lemma DueOfNext(t: Timers, now: int, order: seq<Id>, k: nat)
    requires k < |order|
    ensures DueOf(t, now, order[..k + 1]) ==
      DueOf(t, now, order[..k]) + (if Due(t, order[k], now) then [order[k]] else [])
  {
    assert order[..k + 1][..k] == order[..k];
  }

  ghost predicate Distinct(s: seq<Id>) {
    forall i, j :: 0 <= i < j < |s| ==> s[i] != s[j]
  }

  ghost predicate IsOrder(order: seq<Id>, ids: set<Id>) {
    Distinct(order) && forall id :: id in order <==> id in ids
  }

  /** A tick whose order does not enumerate the map does not occur. */
  ghost function ExecStep(t: Timers, step: Step): Timers {
    match step
    case Do(action) => Act(t, action)
    case Tick(now, order, runs) =>
      if IsOrder(order, t.live.Keys) then FireFrom(t, DueOf(t, now, order), 0, runs) else t
  }

  ghost function Run(t: Timers, steps: seq<Step>): Timers
    decreases |steps|
  {
    if steps == [] then t else Run(ExecStep(t, steps[0]), steps[1..])
  }

  ghost predicate WellFormed(t: Timers) {
    && t.nextId >= 1
    && forall id :: id in t.live ==> 1 <= id < t.nextId && t.live[id].id == id
  }

  /** Issued before, and no longer live. */
  predicate Gone(t: Timers, id: Id) { id < t.nextId && id !in t.live }

  /** No callback of the timer is started between the two states. */
  ghost predicate Quiet(t: Timers, r: Timers, id: Id) {
    t.fired <= r.fired && id !in r.fired[|t.fired|..]
  }

  lemma QuietOn(t: Timers, m: Timers, r: Timers, id: Id)
    requires Quiet(t, m, id) && Quiet(m, r, id)
    ensures Quiet(t, r, id)
  {
    assert r.fired[|t.fired|..] == m.fired[|t.fired|..] + r.fired[|m.fired|..];
  }

  // ----- a timer that is gone stays gone -----

  lemma ActKeeps(t: Timers, action: Action)
    requires WellFormed(t)
    ensures WellFormed(Act(t, action)) && Act(t, action).nextId >= t.nextId
    ensures Act(t, action).fired == t.fired
    ensures forall id :: Gone(t, id) ==> Gone(Act(t, action), id)
    ensures forall id :: id in t.live && id in Act(t, action).live ==> Act(t, action).live[id] == t.live[id]
  {
  }

  lemma {:induction false} ActAllKeeps(t: Timers, actions: seq<Action>)
    requires WellFormed(t)
    ensures WellFormed(ActAll(t, actions)) && ActAll(t, actions).nextId >= t.nextId
    ensures ActAll(t, actions).fired == t.fired
    ensures forall id :: Gone(t, id) ==> Gone(ActAll(t, actions), id)
    ensures forall id :: id in t.live && id in ActAll(t, actions).live ==> ActAll(t, actions).live[id] == t.live[id]
    decreases |actions|
  {
    if actions != [] {
      var t1 := Act(t, actions[0]);
      ActKeeps(t, actions[0]);
      assert forall id :: id in t.live && id !in t1.live ==> Gone(t1, id);
      ActAllKeeps(t1, actions[1..]);
    }
  }

  lemma FireKeeps(t: Timers, id: Id, run: CallbackRun)
    requires WellFormed(t) && id in t.live
    ensures WellFormed(Fire(t, id, run)) && Fire(t, id, run).nextId >= t.nextId
    ensures Fire(t, id, run).fired == t.fired + [id]
    ensures forall x :: Gone(t, x) ==> Gone(Fire(t, id, run), x)
    ensures !t.live[id].repeating ==> Gone(Fire(t, id, run), id)
  {
    var t0 := t.(fired := t.fired + [id]);
    ActAllKeeps(t0, run.actions);
    assert forall x :: Gone(t, x) ==> Gone(t0, x);
  }

  lemma {:induction false} FireFromKeeps(t: Timers, due: seq<Id>, k: nat, runs: seq<CallbackRun>, id: Id)
    requires WellFormed(t)
    ensures var r := FireFrom(t, due, k, runs);
      WellFormed(r) && r.nextId >= t.nextId && t.fired <= r.fired
    ensures Gone(t, id) ==>
      Gone(FireFrom(t, due, k, runs), id) && Quiet(t, FireFrom(t, due, k, runs), id)
    decreases |due| - k
  {
    if k < |due| {
      var t1 := if due[k] in t.live then Fire(t, due[k], RunAt(runs, k)) else t;
      if due[k] in t.live {
        FireKeeps(t, due[k], RunAt(runs, k));
      }
      FireFromKeeps(t1, due, k + 1, runs, id);
      if Gone(t, id) {
        QuietOn(t, t1, FireFrom(t1, due, k + 1, runs), id);
      }
    }
  }

  lemma StepKeeps(t: Timers, step: Step, id: Id)
    requires WellFormed(t)
    ensures var r := ExecStep(t, step);
      WellFormed(r) && r.nextId >= t.nextId && t.fired <= r.fired
    ensures Gone(t, id) ==> Gone(ExecStep(t, step), id) && Quiet(t, ExecStep(t, step), id)
  {
    match step
    case Do(action) => ActKeeps(t, action);
    case Tick(now, order, runs) =>
      if IsOrder(order, t.live.Keys) {
        FireFromKeeps(t, DueOf(t, now, order), 0, runs, id);
      }
  }

  lemma {:induction false} GoneForGood(t: Timers, steps: seq<Step>, id: Id)
    requires WellFormed(t) && Gone(t, id)
    ensures Gone(Run(t, steps), id) && Quiet(t, Run(t, steps), id)
    decreases |steps|
  {
    if steps != [] {
      var t1 := ExecStep(t, steps[0]);
      StepKeeps(t, steps[0], id);
      GoneForGood(t1, steps[1..], id);
      QuietOn(t, t1, Run(t1, steps[1..]), id);
    }
  }

  // ----- main results -----

  /** The action takes an issued timer out of the live set. */
  predicate Cancels(t: Timers, action: Action, id: Id) {
    && 0 < id < t.nextId
    && match action
       case Start(existing, _, _, _, _) => existing == id
       case Cancel(other) => other == id
  }

  /** Cancellation is final: after cancel(id) or start(id, ...) from the main loop, no
      later step of any run starts the callback of id. */
  lemma CancellationIsFinal(t: Timers, action: Action, id: Id, steps: seq<Step>)
    requires WellFormed(t) && Cancels(t, action, id)
    ensures Quiet(t, Run(t, [Do(action)] + steps), id)
  {
    var all := [Do(action)] + steps;
    assert all[1..] == steps;
    ActKeeps(t, action);
    GoneForGood(Act(t, action), steps, id);
    QuietOn(t, Act(t, action), Run(t, all), id);
  }

  /** Also when the call is made inside a callback, the timer's own or another one in the
      same tick: neither the rest of that tick nor any later step starts the callback of
      id again. The tick is at position k of its batch, running the callback of due[k],
      and `action` is the call it makes after `before`. */
  lemma CancellationInCallbackIsFinal(
    t: Timers, due: seq<Id>, k: nat, runs: seq<CallbackRun>, before: seq<Action>, action: Action, after: seq<Action>,
    id: Id, steps: seq<Step>)
    requires WellFormed(t) && k < |due| && due[k] in t.live
    requires RunAt(runs, k).actions == before + [action] + after
    requires Cancels(ActAll(t.(fired := t.fired + [due[k]]), before), action, id)
    ensures Gone(Run(FireFrom(t, due, k, runs), steps), id)
    ensures Quiet(t.(fired := t.fired + [due[k]]), Run(FireFrom(t, due, k, runs), steps), id)
  {
    var t0 := t.(fired := t.fired + [due[k]]);
    var run := RunAt(runs, k);
    var t1 := Act(ActAll(t0, before), action);
    ActAllKeeps(t0, before);
    ActKeeps(ActAll(t0, before), action);
    ActAllSplit(t0, before, [action] + after);
    assert ([action] + after)[1..] == after;
    ActAllKeeps(t1, after);
    var t2 := Settle(ActAll(t1, after), t.live[due[k]], run.finishedAt);
    assert t2 == Fire(t, due[k], run) by { assert run.actions == before + ([action] + after); }
    assert Gone(ActAll(t1, after), id) && Gone(t2, id);
    FireKeeps(t, due[k], run);
    FireFromKeeps(t2, due, k + 1, runs, id);
    var t3 := FireFrom(t2, due, k + 1, runs);
    GoneForGood(t3, steps, id);
    QuietOn(t0, t2, t3, id);
    QuietOn(t0, t3, Run(t3, steps), id);
  }

  lemma {:induction false} ActAllSplit(t: Timers, xs: seq<Action>, ys: seq<Action>)
    ensures ActAll(t, xs + ys) == ActAll(ActAll(t, xs), ys)
    decreases |xs|
  {
    if xs == [] {
      assert xs + ys == ys;
    } else {
      assert (xs + ys)[1..] == xs[1..] + ys;
      ActAllSplit(Act(t, xs[0]), xs[1..], ys);
    }
  }

  /** The part of the log written by a tick from position k of its batch. */
  lemma {:induction false} FireFromFires(t: Timers, due: seq<Id>, k: nat, runs: seq<CallbackRun>)
    requires WellFormed(t) && k <= |due| && Distinct(due)
    requires forall i :: 0 <= i < |due| ==> due[i] < t.nextId
    ensures var r := FireFrom(t, due, k, runs);
      && t.fired <= r.fired
      && (forall x :: x in r.fired[|t.fired|..] ==> x in due[k..])
      && Distinct(r.fired[|t.fired|..])
      && (forall x :: x in due[k..] && x !in r.fired[|t.fired|..] ==> Gone(r, x))
    decreases |due| - k
  {
    if k < |due| {
      var id := due[k];
      var fires := id in t.live;
      var t1 := if fires then Fire(t, id, RunAt(runs, k)) else t;
      if fires {
        FireKeeps(t, id, RunAt(runs, k));
      }
      FireFromFires(t1, due, k + 1, runs);
      var r := FireFrom(t1, due, k + 1, runs);
      assert due[k..] == [id] + due[k + 1..];
      assert r.fired[|t.fired|..] == (if fires then [id] else []) + r.fired[|t1.fired|..];
      assert id !in due[k + 1..];
      if !fires {
        FireFromKeeps(t, due, k, runs, id);
      } else {
        assert forall x :: x in r.fired[|t1.fired|..] ==> x != id;
      }
    }
  }

  /** One tick starts each timer at most once and only if it was due when the tick began;
      so a timer started or re-armed during the tick does not fire in it, even with no
      delay. Every timer due when the tick began fires in it or is cancelled in it. */
  lemma TickFiresDueTimersOnce(t: Timers, now: int, order: seq<Id>, runs: seq<CallbackRun>)
    requires WellFormed(t) && IsOrder(order, t.live.Keys)
    ensures var r := ExecStep(t, Tick(now, order, runs));
      && t.fired <= r.fired
      && Distinct(r.fired[|t.fired|..])
      && (forall id :: id in r.fired[|t.fired|..] ==> Due(t, id, now))
      && (forall id :: Due(t, id, now) && id !in r.fired[|t.fired|..] ==> Gone(r, id))
  {
    var due := DueOf(t, now, order);
    assert forall i :: 0 <= i < |due| ==> due[i] in due;
    FireFromFires(t, due, 0, runs);
    assert due[0..] == due;
  }

  function Count(s: seq<Id>, id: Id): nat {
    if s == [] then 0 else (if s[0] == id then 1 else 0) + Count(s[1..], id)
  }

  lemma {:induction false} CountConcat(a: seq<Id>, b: seq<Id>, id: Id)
    ensures Count(a + b, id) == Count(a, id) + Count(b, id)
  {
    if a == [] {
      assert a + b == b;
    } else {
      assert (a + b)[1..] == a[1..] + b;
      CountConcat(a[1..], b, id);
    }
  }

  lemma {:induction false} CountAbsent(s: seq<Id>, id: Id)
    requires id !in s
    ensures Count(s, id) == 0
  {
    if s != [] {
      CountAbsent(s[1..], id);
    }
  }

  lemma {:induction false} CountDistinct(s: seq<Id>, id: Id)
    requires Distinct(s)
    ensures Count(s, id) <= 1
  {
    if s != [] {
      if s[0] == id {
        CountAbsent(s[1..], id);
      } else {
        CountDistinct(s[1..], id);
      }
    }
  }

  /** Through one tick a one-shot timer stays live without firing, or is gone afterwards. */
  lemma {:induction false} OneShotInBatch(t: Timers, due: seq<Id>, k: nat, runs: seq<CallbackRun>, id: Id)
    requires WellFormed(t) && id in t.live && !t.live[id].repeating
    ensures var r := FireFrom(t, due, k, runs);
      Gone(r, id) || (id in r.live && r.live[id] == t.live[id] && Quiet(t, r, id))
    decreases |due| - k
  {
    if k < |due| {
      var t1 := if due[k] in t.live then Fire(t, due[k], RunAt(runs, k)) else t;
      if due[k] in t.live {
        FireKeeps(t, due[k], RunAt(runs, k));
        ActAllKeeps(t.(fired := t.fired + [due[k]]), RunAt(runs, k).actions);
      }
      if id in t1.live && due[k] != id {
        OneShotInBatch(t1, due, k + 1, runs, id);
        FireFromKeeps(t1, due, k + 1, runs, id);
        var r := FireFrom(t1, due, k + 1, runs);
        if Quiet(t1, r, id) {
          QuietOn(t, t1, r, id);
        }
      } else if due[k] == id {
        FireFromKeeps(t1, due, k + 1, runs, id);
      } else {
        FireFromKeeps(t1, due, k + 1, runs, id);
      }
    }
  }

  /** A one-shot timer fires at most once in a whole run. */
  lemma {:induction false} OneShotFiresAtMostOnce(t: Timers, steps: seq<Step>, id: Id)
    requires WellFormed(t) && id in t.live && !t.live[id].repeating
    ensures t.fired <= Run(t, steps).fired && Count(Run(t, steps).fired[|t.fired|..], id) <= 1
    decreases |steps|
  {
    if steps != [] {
      var t1 := ExecStep(t, steps[0]);
      var r := Run(t1, steps[1..]);
      StepKeeps(t, steps[0], id);
      match steps[0] {
        case Do(action) => ActKeeps(t, action);
        case Tick(now, order, runs) =>
          if IsOrder(order, t.live.Keys) {
            TickFiresDueTimersOnce(t, now, order, runs);
            OneShotInBatch(t, DueOf(t, now, order), 0, runs, id);
          }
      }
      CountDistinct(t1.fired[|t.fired|..], id);
      if Gone(t1, id) {
        GoneForGood(t1, steps[1..], id);
        CountAbsent(r.fired[|t1.fired|..], id);
      } else {
        OneShotFiresAtMostOnce(t1, steps[1..], id);
        CountAbsent(t1.fired[|t.fired|..], id);
      }
      assert r.fired[|t.fired|..] == t1.fired[|t.fired|..] + r.fired[|t1.fired|..];
      CountConcat(t1.fired[|t.fired|..], r.fired[|t1.fired|..], id);
    }
  }
}
