/** When timers fire: a timer that nobody cancels or restarts fires in each tick that has
    reached its due time, and in no other, with the due times told by the clock alone. */
module TimerFiring {
  import opened TimerModel

  // ----- calls that leave a timer alone -----

  predicate Spares(action: Action, id: Id) {
    match action
    case Start(existing, _, _, _, _) => existing != id
    case Cancel(other) => other != id
  }

  predicate AllSpare(actions: seq<Action>, id: Id) { forall k :: 0 <= k < |actions| ==> Spares(actions[k], id) }

  /** No action of the step, in the main loop or in a callback, cancels or restarts the timer. */
  predicate SparesStep(step: Step, id: Id) {
    match step
    case Do(action) => Spares(action, id)
    case Tick(_, _, runs) => forall k :: 0 <= k < |runs| ==> AllSpare(runs[k].actions, id)
  }

  lemma {:induction false} ActAllSpares(t: Timers, actions: seq<Action>, id: Id)
    requires WellFormed(t) && id in t.live && AllSpare(actions, id)
    ensures var r := ActAll(t, actions); WellFormed(r) && id in r.live && r.live[id] == t.live[id] && r.fired == t.fired
    decreases |actions|
  {
    if actions != [] {
      ActKeeps(t, actions[0]);
      assert Spares(actions[0], id) && AllSpare(actions[1..], id);
      ActAllSpares(Act(t, actions[0]), actions[1..], id);
    }
  }

  /** What firing makes of the timer that fires. */
  function Settled(entry: Entry, finishedAt: int): Entry { entry.(dueAt := finishedAt + entry.interval) }

  lemma FireSpares(t: Timers, x: Id, run: CallbackRun, id: Id)
    requires WellFormed(t) && x in t.live && id in t.live && AllSpare(run.actions, id)
    ensures var r := Fire(t, x, run);
      && WellFormed(r) && r.fired == t.fired + [x]
      && (if x != id then id in r.live && r.live[id] == t.live[id]
          else if t.live[id].repeating then id in r.live && r.live[id] == Settled(t.live[id], run.finishedAt)
          else Gone(r, id))
  {
    FireKeeps(t, x, run);
    ActAllSpares(t.(fired := t.fired + [x]), run.actions, id);
    ActAllKeeps(t.(fired := t.fired + [x]), run.actions);
  }

  lemma RunAtSpares(runs: seq<CallbackRun>, k: nat, id: Id)
    requires forall j :: 0 <= j < |runs| ==> AllSpare(runs[j].actions, id)
    ensures AllSpare(RunAt(runs, k).actions, id)
  {
  }

  /** A timer that is not in the rest of the batch is not touched by it. */
  lemma {:induction false} FireFromSkips(t: Timers, due: seq<Id>, k: nat, runs: seq<CallbackRun>, id: Id)
    requires WellFormed(t) && id in t.live && id !in due[if k <= |due| then k else |due|..]
    requires forall j :: 0 <= j < |runs| ==> AllSpare(runs[j].actions, id)
    ensures var r := FireFrom(t, due, k, runs); id in r.live && r.live[id] == t.live[id] && Quiet(t, r, id)
    decreases |due| - k
  {
    if k < |due| {
      assert due[k..] == [due[k]] + due[k + 1..];
      var t1 := t;
      if due[k] in t.live {
        RunAtSpares(runs, k, id);
        FireSpares(t, due[k], RunAt(runs, k), id);
        t1 := Fire(t, due[k], RunAt(runs, k));
      }
      FireFromSkips(t1, due, k + 1, runs, id);
      QuietOn(t, t1, FireFrom(t1, due, k + 1, runs), id);
    }
  }

  /** The calls of id's callback between the two states. */
  function Calls(t: Timers, r: Timers, id: Id): nat
    requires t.fired <= r.fired
  {
    Count(r.fired[|t.fired|..], id)
  }

  lemma CallsOn(t: Timers, m: Timers, r: Timers, id: Id)
    requires t.fired <= m.fired && m.fired <= r.fired
    ensures Calls(t, r, id) == Calls(t, m, id) + Calls(m, r, id)
  {
    assert r.fired[|t.fired|..] == m.fired[|t.fired|..] + r.fired[|m.fired|..];
    CountConcat(m.fired[|t.fired|..], r.fired[|m.fired|..], id);
  }

  lemma QuietCalls(t: Timers, r: Timers, id: Id)
    requires Quiet(t, r, id)
    ensures Calls(t, r, id) == 0
  {
    CountAbsent(r.fired[|t.fired|..], id);
  }

  /** What a tick makes of the timer at position n of its batch. */
  ghost predicate FiredOnce(t: Timers, r: Timers, id: Id, finishedAt: int)
    requires id in t.live
  {
    && t.fired <= r.fired && Calls(t, r, id) == 1
    && (if t.live[id].repeating then id in r.live && r.live[id] == Settled(t.live[id], finishedAt) else Gone(r, id))
  }

  lemma FireOne(t: Timers, due: seq<Id>, n: nat, runs: seq<CallbackRun>, id: Id)
    requires WellFormed(t) && id in t.live && n < |due| && due[n] == id && Distinct(due)
    requires forall j :: 0 <= j < |runs| ==> AllSpare(runs[j].actions, id)
    ensures FiredOnce(t, FireFrom(t, due, n, runs), id, RunAt(runs, n).finishedAt)
  {
    var t1 := Fire(t, id, RunAt(runs, n));
    var r := FireFrom(t1, due, n + 1, runs);
    RunAtSpares(runs, n, id);
    FireSpares(t, id, RunAt(runs, n), id);
    assert t1.fired[|t.fired|..] == [id] && [id][1..] == [];
    if t.live[id].repeating {
      FireFromSkips(t1, due, n + 1, runs, id);
    } else {
      FireFromKeeps(t1, due, n + 1, runs, id);
    }
    QuietCalls(t1, r, id);
    CallsOn(t, t1, r, id);
  }

  lemma {:induction false} FireFromReaches(t: Timers, due: seq<Id>, k: nat, n: nat, runs: seq<CallbackRun>, id: Id)
    requires WellFormed(t) && id in t.live && k <= n < |due| && due[n] == id && Distinct(due)
    requires forall j :: 0 <= j < |runs| ==> AllSpare(runs[j].actions, id)
    ensures FiredOnce(t, FireFrom(t, due, k, runs), id, RunAt(runs, n).finishedAt)
    decreases n - k
  {
    if k == n {
      FireOne(t, due, n, runs, id);
    } else {
      var t1 := t;
      if due[k] in t.live {
        RunAtSpares(runs, k, id);
        FireSpares(t, due[k], RunAt(runs, k), id);
        t1 := Fire(t, due[k], RunAt(runs, k));
        assert t1.fired[|t.fired|..] == [due[k]] && [due[k]][1..] == [];
      }
      FireFromReaches(t1, due, k + 1, n, runs, id);
      CallsOn(t, t1, FireFrom(t, due, k, runs), id);
    }
  }

  // ----- one step -----

  /** The first position of id, |due| if it does not occur. */
  function Place(due: seq<Id>, id: Id): (n: nat)
    ensures n <= |due| && (id in due <==> n < |due|) && (n < |due| ==> due[n] == id)
  {
    if due == [] then 0 else if due[0] == id then 0 else 1 + Place(due[1..], id)
  }

  /** The step is a tick that has reached this due time. */
  ghost predicate Reaches(t: Timers, step: Step, dueAt: int) {
    step.Tick? && IsOrder(step.order, t.live.Keys) && dueAt <= step.now
  }

  /** The clock when the callback of id returns in this tick. */
  function FinishedAt(t: Timers, tick: Step, id: Id): int
    requires tick.Tick?
  {
    RunAt(tick.runs, Place(DueOf(t, tick.now, tick.order), id)).finishedAt
  }

  lemma StepFires(t: Timers, step: Step, id: Id)
    requires WellFormed(t) && id in t.live && SparesStep(step, id)
    ensures var r, entry := ExecStep(t, step), t.live[id];
      if Reaches(t, step, entry.dueAt) then FiredOnce(t, r, id, FinishedAt(t, step, id))
      else id in r.live && r.live[id] == entry && Quiet(t, r, id)
  {
    match step
    case Do(action) => ActKeeps(t, action);
    case Tick(now, order, runs) =>
      if IsOrder(order, t.live.Keys) {
        var due := DueOf(t, now, order);
        if t.live[id].dueAt <= now {
          FireFromReaches(t, due, 0, Place(due, id), runs, id);
        } else {
          assert due[0..] == due;
          FireFromSkips(t, due, 0, runs, id);
        }
      }
  }

  // ----- runs -----

  lemma {:induction false} RunMore(t: Timers, steps: seq<Step>, k: nat)
    requires k < |steps|
    ensures Run(t, steps[..k + 1]) == ExecStep(Run(t, steps[..k]), steps[k])
    decreases k
  {
    var t1 := ExecStep(t, steps[0]);
    assert steps[..k + 1][1..] == steps[1..][..k];
    if k > 0 {
      assert steps[..k][1..] == steps[1..][..k - 1];
      RunMore(t1, steps[1..], k - 1);
    } else {
      assert steps[1..][..0] == [];
    }
  }

  lemma {:induction false} RunWellFormed(t: Timers, steps: seq<Step>, k: nat)
    requires WellFormed(t) && k <= |steps|
    ensures WellFormed(Run(t, steps[..k])) && t.fired <= Run(t, steps[..k]).fired
    ensures Run(t, steps[..k]).nextId >= t.nextId
    decreases k
  {
    if k > 0 {
      RunMore(t, steps, k - 1);
      RunWellFormed(t, steps, k - 1);
      StepKeeps(Run(t, steps[..k - 1]), steps[k - 1], 0);
    }
  }

  /** When the timer is due after the first k steps: first, and then always an interval after
      the end of its last callback. */
  ghost function DueTime(t: Timers, steps: seq<Step>, id: Id, first: int, interval: int, k: nat): int
    requires k <= |steps|
  {
    if k == 0 then first
    else
      var before, step := Run(t, steps[..k - 1]), steps[k - 1];
      var dueAt := DueTime(t, steps, id, first, interval, k - 1);
      if Reaches(before, step, dueAt) then FinishedAt(before, step, id) + interval else dueAt
  }

  lemma {:induction false} RepeatingStays(t: Timers, steps: seq<Step>, id: Id, k: nat)
    requires WellFormed(t) && id in t.live && t.live[id].repeating && k <= |steps|
    requires forall j :: 0 <= j < k ==> SparesStep(steps[j], id)
    ensures var r, entry := Run(t, steps[..k]), t.live[id];
      id in r.live && r.live[id] == entry.(dueAt := DueTime(t, steps, id, entry.dueAt, entry.interval, k))
    decreases k
  {
    if k > 0 {
      RunMore(t, steps, k - 1);
      RunWellFormed(t, steps, k - 1);
      RepeatingStays(t, steps, id, k - 1);
      StepFires(Run(t, steps[..k - 1]), steps[k - 1], id);
    }
  }

  /** What start files: due after the delay, a negative one counting as none. */
  lemma StartFiles(t: Timers, existing: Id, now: int, delay: int, token: nat, repeating: bool)
    requires WellFormed(t)
    ensures var (r, id) := StartTimer(t, existing, now, delay, Function(token), repeating);
      var wait := if delay < 0 then 0 else delay * 1_000_000;
      && WellFormed(r) && id != 0 && id !in t.live && r.fired == t.fired
      && id in r.live && r.live[id] == Entry(id, now + wait, wait, Function(token), repeating)
  {
  }

  /** A repeating timer that is not cancelled or restarted stays live as it was started,
      through every run. In each tick it fires exactly once if the tick has reached its due
      time, and not otherwise. It is first due its delay after its start, and then always
      its delay after the end of its last callback. */
  lemma RepeatingTimerFiresOnTime(
      t: Timers, existing: Id, now: int, delay: int, token: nat, steps: seq<Step>, k: nat)
    requires WellFormed(t) && k < |steps|
    requires var id := StartTimer(t, existing, now, delay, Function(token), true).1;
      forall j :: 0 <= j <= k ==> SparesStep(steps[j], id)
    ensures var (started, id) := StartTimer(t, existing, now, delay, Function(token), true);
      var wait := if delay < 0 then 0 else delay * 1_000_000;
      var dueAt := DueTime(started, steps, id, now + wait, wait, k);
      var before, after := Run(started, steps[..k]), Run(started, steps[..k + 1]);
      && id in before.live && before.live[id] == Entry(id, dueAt, wait, Function(token), true)
      && before.fired <= after.fired && id in after.live
      && Calls(before, after, id) == if Reaches(before, steps[k], dueAt) then 1 else 0
  {
    var (started, id) := StartTimer(t, existing, now, delay, Function(token), true);
    var before := Run(started, steps[..k]);
    StartFiles(t, existing, now, delay, token, true);
    RepeatingStays(started, steps, id, k);
    RunWellFormed(started, steps, k);
    RunMore(started, steps, k);
    StepFires(before, steps[k], id);
    if !Reaches(before, steps[k], before.live[id].dueAt) {
      QuietCalls(before, ExecStep(before, steps[k]), id);
    }
  }

  /** Some tick among the first k steps has reached this due time. */
  ghost predicate ReachedBefore(t: Timers, steps: seq<Step>, dueAt: int, k: nat)
    requires k <= |steps|
  {
    exists j :: 0 <= j < k && Reaches(Run(t, steps[..j]), steps[j], dueAt)
  }

  lemma {:induction false} OneShotStays(t: Timers, steps: seq<Step>, id: Id, k: nat)
    requires WellFormed(t) && id in t.live && !t.live[id].repeating && k <= |steps|
    requires forall j :: 0 <= j < k ==> SparesStep(steps[j], id)
    ensures var r := Run(t, steps[..k]);
      && t.fired <= r.fired
      && (if ReachedBefore(t, steps, t.live[id].dueAt, k) then Gone(r, id) && Calls(t, r, id) == 1
          else id in r.live && r.live[id] == t.live[id] && Calls(t, r, id) == 0)
    decreases k
  {
    if k > 0 {
      var dueAt, before, step := t.live[id].dueAt, Run(t, steps[..k - 1]), steps[k - 1];
      RunMore(t, steps, k - 1);
      RunWellFormed(t, steps, k - 1);
      OneShotStays(t, steps, id, k - 1);
      assert ReachedBefore(t, steps, dueAt, k)
        <==> ReachedBefore(t, steps, dueAt, k - 1) || Reaches(before, step, dueAt);
      if ReachedBefore(t, steps, dueAt, k - 1) {
        StepKeeps(before, step, id);
        QuietCalls(before, ExecStep(before, step), id);
      } else {
        StepFires(before, step, id);
        if !Reaches(before, step, dueAt) {
          QuietCalls(before, ExecStep(before, step), id);
        }
      }
      CallsOn(t, before, ExecStep(before, step), id);
    }
  }

  /** A one-shot timer that is not cancelled fires in the first tick that has reached its start
      plus its delay, once, and is gone then; until that tick it stays live. */
  lemma OneShotFiresOnTime(t: Timers, existing: Id, now: int, delay: int, token: nat, steps: seq<Step>, k: nat)
    requires WellFormed(t) && k <= |steps|
    requires var id := StartTimer(t, existing, now, delay, Function(token), false).1;
      forall j :: 0 <= j < k ==> SparesStep(steps[j], id)
    ensures var (started, id) := StartTimer(t, existing, now, delay, Function(token), false);
      var wait := if delay < 0 then 0 else delay * 1_000_000;
      var r := Run(started, steps[..k]);
      && started.fired <= r.fired
      && (if ReachedBefore(started, steps, now + wait, k) then Gone(r, id) && Calls(started, r, id) == 1
          else && id in r.live && Calls(started, r, id) == 0
               && r.live[id] == Entry(id, now + wait, wait, Function(token), false))
  {
    StartFiles(t, existing, now, delay, token, false);
    var (started, id) := StartTimer(t, existing, now, delay, Function(token), false);
    OneShotStays(started, steps, id, k);
  }

  /** Starting without a callback only stops the timer named, and gives no id. */
  lemma StartWithoutCallback(t: Timers, existing: Id, now: int, delay: int, repeating: bool)
    requires WellFormed(t)
    ensures var (r, id) := StartTimer(t, existing, now, delay, Empty, repeating);
      id == 0 && r == t.(live := t.live - {existing})
  {
    assert t.live - {0} == t.live;
  }
}
