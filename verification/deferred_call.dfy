/** callLater, the wake pipe and the dispatch of the poll source as code over shared
    state. Between any two accesses of one thread the others may take any steps; the
    effect of each method, theirs included, is a legal run of WakeModel. */
module DeferredCalls {
  import W = WakeModel

  /** What other threads try to do before an access, and whether a signal interrupts it or it
      fails in another way. */
  datatype Turn = Turn(others: seq<W.Step>, interrupted: bool, failed: bool)

  function TurnAt(turns: seq<Turn>, k: nat): Turn {
    if k < |turns| then turns[k] else Turn([], false, false)
  }

  class DeferredCall {
    var queue: seq<W.Job>
    var pipe: nat
    const capacity: nat
    // bookkeeping that the code does not have
    var owing: set<W.Producer>
    var consumer: W.Consumer
    var log: W.Log

    constructor (capacity: nat)
      ensures State() == W.Initial(capacity)
    {
      queue, pipe, this.capacity := [], 0, capacity;
      owing, consumer, log := {}, W.Sleeping, W.Log([], []);
    }

    function State(): W.State
      reads this
    {
      W.State(queue, pipe, capacity, owing, consumer, log)
    }

    ghost predicate Ran(before: W.State, trace: seq<W.Step>)
      reads this
    {
      W.Legal(before, trace) && State() == W.Run(before, trace)
    }

    /** Every push is accounted for and a non-empty queue will be seen. */
    ghost predicate Valid()
      reads this
    {
      W.Invariant(State())
    }

    /** Nothing more has run than before, and nothing has left the queue. */
    twostate predicate OnlyPushed()
      reads this
    {
      old(queue) <= queue && log.run == old(log.run)
    }

    /** A read found the pipe empty. */
    ghost predicate FoundEmpty(before: W.State, trace: seq<W.Step>) {
      exists k :: 0 <= k < |trace| && trace[k] == W.ReadEmpty && W.Legal(before, trace[..k])
        && W.Run(before, trace[..k]).pipe == 0
    }

    lemma FoundEmptyBefore(before: W.State, trace: seq<W.Step>, more: seq<W.Step>)
      requires FoundEmpty(before, trace) && trace <= more
      ensures FoundEmpty(before, more)
    {
      var k :| 0 <= k < |trace| && trace[k] == W.ReadEmpty && W.Legal(before, trace[..k])
        && W.Run(before, trace[..k]).pipe == 0;
      assert more[..k] == trace[..k] && more[k] == trace[k];
    }

    /** Extends a trace by one step of this thread. */
    lemma Stepped(before: W.State, trace: seq<W.Step>, middle: W.State, step: W.Step)
      requires W.Legal(before, trace) && middle == W.Run(before, trace) && W.Enabled(middle, step)
      requires W.Invariant(middle) && State() == W.Apply(middle, step)
      ensures Ran(before, trace + [step]) && Valid()
    {
      W.RunOn(before, trace, [step]);
    }

    /** The other threads' turn: of the steps they try, those that are possible happen.
        `self` are the producers running on this thread. */
    method Others(steps: seq<W.Step>, self: set<W.Producer>, ghost before: W.State, ghost trace: seq<W.Step>)
      returns (ghost trace': seq<W.Step>)
      requires Valid() && Ran(before, trace)
      modifies this
      ensures Valid() && Ran(before, trace') && trace <= trace' && consumer == old(consumer)
      ensures forall p :: p in self ==> (p in owing <==> p in old(owing))
      ensures OnlyPushed()
    {
      trace' := trace;
      var k := 0;
      while k < |steps|
        invariant 0 <= k <= |steps|
        invariant Valid() && Ran(before, trace') && trace <= trace' && consumer == old(consumer)
        invariant forall p :: p in self ==> (p in owing <==> p in old(owing))
        invariant OnlyPushed()
      {
        var step := steps[k];
        if !W.ConsumerStep(step) && W.Enabled(State(), step) && step.p !in self {
          ghost var middle := State();
          var s := W.Apply(State(), step);
          queue, pipe, owing, log := s.queue, s.pipe, s.owing, s.log;
          Stepped(before, trace', middle, step);
          trace' := trace' + [step];
        }
        k := k + 1;
      }
    }

    /** callLater on producer p: push under the lock, then wake the main loop. */
    method CallLater(p: W.Producer, fn: W.Job, turns: seq<Turn>) returns (ghost trace: seq<W.Step>)
      requires Valid() && p !in owing
      modifies this
      ensures Valid() && Ran(old(State()), trace) && consumer == old(consumer)
      ensures p !in owing && old(queue) + [fn] <= queue && log.run == old(log.run)
      ensures trace != [] && trace[0] == W.Push(p, fn)
    {
      ghost var before := State();
      queue := queue + [fn];
      owing := owing + {p};
      log := log.(pushed := log.pushed + [fn]);
      Stepped(before, [], before, W.Push(p, fn));
      trace := [] + [W.Push(p, fn)];
      trace := WakeMainLoop(p, turns, before, trace);
    }

    /** Tries to write one byte until the write succeeds or the pipe is full. */
    method WakeMainLoop(p: W.Producer, turns: seq<Turn>, ghost before: W.State, ghost trace: seq<W.Step>)
      returns (ghost trace': seq<W.Step>)
      requires Valid() && p in owing && Ran(before, trace)
      modifies this
      ensures Valid() && Ran(before, trace') && consumer == old(consumer)
      ensures p !in owing && trace <= trace' && OnlyPushed()
    {
      trace' := trace;
      var k := 0;
      while true
        invariant Valid() && p in owing
        invariant Ran(before, trace') && consumer == old(consumer) && trace <= trace' && OnlyPushed()
        decreases |turns| - k
      {
        trace' := Others(TurnAt(turns, k).others, {p}, before, trace');
        ghost var middle := State();
        if k < |turns| && turns[k].interrupted {
          Stepped(before, trace', middle, W.WriteAgain(p));
          trace' := trace' + [W.WriteAgain(p)];
          k := k + 1;
          continue;
        }
        if pipe < capacity {
          pipe := pipe + 1;
          owing := owing - {p};
          Stepped(before, trace', middle, W.WriteByte(p));
          trace' := trace' + [W.WriteByte(p)];
        } else {
          owing := owing - {p};
          Stepped(before, trace', middle, W.WriteFull(p));
          trace' := trace' + [W.WriteFull(p)];
        }
        return;
      }
    }

    /** Reads until the pipe is empty or a read fails; producers may write between two reads. */
    method DrainWakeFd(turns: seq<Turn>, ghost before: W.State, ghost trace: seq<W.Step>)
      returns (ghost trace': seq<W.Step>)
      requires Valid() && consumer == W.Draining && Ran(before, trace)
      modifies this
      ensures Valid() && consumer == W.Taking && Ran(before, trace')
      ensures trace <= trace' && OnlyPushed()
      ensures FoundEmpty(before, trace') || exists k :: 0 <= k < |turns| && turns[k].failed
    {
      trace' := trace;
      var k := 0;
      while true
        invariant Valid() && consumer == W.Draining && Ran(before, trace')
        invariant trace <= trace' && OnlyPushed()
        decreases |turns| - k, pipe
      {
        var interrupted, failed := false, false;
        if k < |turns| {
          trace' := Others(turns[k].others, {}, before, trace');
          interrupted, failed := turns[k].interrupted, turns[k].failed;
          k := k + 1;
        }
        ghost var middle := State();
        if interrupted {
          Stepped(before, trace', middle, W.ReadAgain);
          trace' := trace' + [W.ReadAgain];
        } else if pipe > 0 && !failed {
          var n := if pipe <= W.READ_SIZE then pipe else W.READ_SIZE;
          pipe := pipe - n;
          Stepped(before, trace', middle, W.ReadBytes(n));
          trace' := trace' + [W.ReadBytes(n)];
        } else {
          consumer := W.Taking;
          Stepped(before, trace', middle, W.ReadEmpty);
          assert (trace' + [W.ReadEmpty])[..|trace'|] == trace';
          trace' := trace' + [W.ReadEmpty];
          return;
        }
      }
    }

    method TakePending(ghost before: W.State, ghost trace: seq<W.Step>)
      returns (pending: seq<W.Job>, ghost trace': seq<W.Step>)
      requires Valid() && consumer == W.Taking && Ran(before, trace)
      modifies this
      ensures Valid() && consumer == W.Running(pending) && Ran(before, trace')
      ensures pending == old(queue) && queue == [] && log == old(log) && trace' == trace + [W.Take]
    {
      ghost var middle := State();
      pending := queue;
      queue := [];
      consumer := W.Running(pending);
      Stepped(before, trace, middle, W.Take);
      trace' := trace + [W.Take];
    }

    /** Poll has returned: drains the pipe if it was reported readable. */
    method DrainIf(readable: bool, turns: seq<Turn>) returns (ghost trace: seq<W.Step>)
      requires Valid() && consumer == W.Sleeping && (readable ==> pipe > 0)
      modifies this
      ensures Valid() && consumer == W.Taking && Ran(old(State()), trace) && OnlyPushed()
      ensures readable ==> FoundEmpty(old(State()), trace) || exists k :: 0 <= k < |turns| && turns[k].failed
    {
      ghost var before := State();
      if readable {
        consumer := W.Draining;
        Stepped(before, [], before, W.PollReady);
        trace := [] + [W.PollReady];
        trace := DrainWakeFd(turns, before, trace);
      } else {
        consumer := W.Taking;
        Stepped(before, [], before, W.PollNotReady);
        trace := [] + [W.PollNotReady];
      }
    }

    /** Runs what was taken. */
    method RunAll(pending: seq<W.Job>, turns: seq<Turn>, ghost before: W.State, ghost trace: seq<W.Step>)
      returns (ghost trace': seq<W.Step>)
      requires Valid() && Ran(before, trace) && consumer == W.Running(pending)
      modifies this
      ensures Valid() && Ran(before, trace') && consumer == W.Sleeping && trace <= trace'
      ensures log.run == old(log.run) + pending
    {
      trace' := trace;
      var k := 0;
      assert pending[0..] == pending;
      while k < |pending|
        invariant 0 <= k <= |pending| && trace <= trace'
        invariant Valid() && Ran(before, trace') && consumer == W.Running(pending[k..])
        invariant log.run == old(log.run) + pending[..k]
      {
        trace' := RunOne(pending[k], pending[k + 1..], TurnAt(turns, k + 1).others, before, trace');
        assert pending[k..][1..] == pending[k + 1..] && pending[..k + 1] == pending[..k] + [pending[k]];
        k := k + 1;
      }
      ghost var middle := State();
      consumer := W.Sleeping;
      Stepped(before, trace', middle, W.BatchDone);
      trace' := trace' + [W.BatchDone];
      assert pending[..k] == pending;
    }

    /** Runs one call; what it does to the queue is part of the others' turn after it. */
    method RunOne(job: W.Job, rest: seq<W.Job>, others: seq<W.Step>, ghost before: W.State, ghost trace: seq<W.Step>)
      returns (ghost trace': seq<W.Step>)
      requires Valid() && Ran(before, trace) && consumer == W.Running([job] + rest)
      modifies this
      ensures Valid() && Ran(before, trace') && consumer == W.Running(rest) && trace <= trace'
      ensures log.run == old(log.run) + [job]
    {
      ghost var middle := State();
      assert ([job] + rest)[1..] == rest;
      log := log.(run := log.run + [job]);
      consumer := W.Running(rest);
      Stepped(before, trace, middle, W.RunOne);
      trace' := trace + [W.RunOne];
      trace' := Others(others, {}, before, trace');
    }

    /** The dispatch of the poll source: drains the pipe if it was reported readable, takes
        the queue and runs all of it; what is queued on return others have pushed since. */
    method Dispatch(readable: bool, drainTurns: seq<Turn>, runTurns: seq<Turn>) returns (ghost trace: seq<W.Step>)
      requires Valid() && consumer == W.Sleeping && (readable ==> pipe > 0)
      modifies this
      ensures Valid() && consumer == W.Sleeping && Ran(old(State()), trace)
      ensures old(log.run) + old(queue) <= log.run
      ensures log.pushed == log.run + queue && old(log.pushed) <= log.run
      ensures readable ==>
        FoundEmpty(old(State()), trace) || exists k :: 0 <= k < |drainTurns| && drainTurns[k].failed
    {
      ghost var before := State();
      trace := DrainIf(readable, drainTurns);
      ghost var drained := trace;
      trace := Others(TurnAt(runTurns, 0).others, {}, before, trace);
      var pending;
      pending, trace := TakePending(before, trace);
      assert drained <= trace;
      trace := RunAll(pending, runTurns, before, trace);
      AllRun(State());
      AllRun(before);
      if FoundEmpty(before, drained) {
        FoundEmptyBefore(before, drained, trace);
      }
    }

    /** While the main loop sleeps, every call pushed has run or is queued. */
    lemma AllRun(s: W.State)
      requires W.Invariant(s) && s.consumer == W.Sleeping
      ensures s.log.pushed == s.log.run + s.queue
    {
      assert s.log.run + [] == s.log.run;
    }
  }
}
