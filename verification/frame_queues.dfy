/** The queued flags, the global queues and the drains agree in every run,
    however callbacks re-enter the scheduler. */
module FrameQueues {
  import opened FrameModel

  predicate Sound(s: Surface) {
    && s.work.Balanced() && s.render.Balanced() && s.callback.Balanced()
    && (s.requests.owed ==> s.requests.update || s.requests.layout)
    && (s.phase.inPrepareFrame ==> !s.requests.owed)
  }

  ghost predicate AllSound(g: Shell) {
    forall i :: 0 <= i < |g.surfaces| ==> Sound(g.surfaces[i])
  }

  /** Every raised flag has its surface in the global queue, or in the part of
      the batch that the drain in progress has not visited. */
  ghost predicate Queued(g: Shell, restWork: seq<Id>, restRenders: seq<Id>) {
    forall i :: 0 <= i < |g.surfaces| ==>
      && (g.surfaces[i].work.up ==> i in g.work || i in restWork)
      && (g.surfaces[i].render.up ==> i in g.renders || i in restRenders)
  }

  ghost predicate Agree(g: Shell, restWork: seq<Id>, restRenders: seq<Id>) {
    AllSound(g) && Queued(g, restWork, restRenders)
  }

  /** A later state: tallies only grow, and handlers entered since are left again. */
  predicate Later(s: Surface, r: Surface) {
    && s.work.Onward(r.work) && s.render.Onward(r.render) && s.callback.Onward(r.callback)
    && s.ticks.handled <= r.ticks.handled
    && r.phase.inFrameHandler == s.phase.inFrameHandler
    && (r.phase.inPrepareFrame ==> s.phase.inPrepareFrame)
  }

  ghost predicate Advances(g: Shell, r: Shell) {
    |r.surfaces| == |g.surfaces|
    && forall i :: 0 <= i < |g.surfaces| ==> Later(g.surfaces[i], r.surfaces[i])
  }

  // ----- steps of one surface -----

  predicate Keeps(s: Surface, r: Surface) {
    Sound(s) ==> Sound(r) && Later(s, r)
  }

  lemma RequestFrameKeeps(s: Surface)
    ensures Keeps(s, RequestFrame(s))
  {
    if s.callback.up {
    } else if s.wiring.frameGranted {
    } else {
    }
  }

  lemma QueueRenderIfNeededKeeps(s: Surface)
    ensures Keeps(s, QueueRenderIfNeeded(s))
  {
    RequestFrameKeeps(s);
  }

  lemma RequestKeeps(s: Surface, kind: RequestKind)
    ensures Keeps(s, RequestOn(s, kind))
  {
    var f := Flagged(s, kind);
    QueueRenderIfNeededKeeps(f);
  }

  lemma RequestFrameTickKeeps(s: Surface)
    ensures Keeps(s, RequestFrameTickOn(s))
  {
  }

  lemma DiscardKeeps(s: Surface)
    ensures Keeps(s, DiscardOn(s))
  {
  }

  lemma FrameDoneKeeps(s: Surface)
    requires s.callback.up
    ensures Keeps(s, FrameDoneOn(s))
  {
    if s.work.up {
    } else {
    }
  }

  lemma RenderKeeps(s: Surface)
    ensures Keeps(s, RenderOn(s))
  {
    RequestFrameKeeps(s);
  }

  lemma DestroyOnKeeps(s: Surface)
    ensures Keeps(s, DestroyOn(s))
  {
  }

  lemma ConfigureOnKeeps(s: Surface, sized: bool)
    ensures Keeps(s, ConfigureStart(s, sized)) && Keeps(s, ConfigureEnd(s))
  {
  }

  lemma TakeKeeps(s: Surface)
    ensures s.work.up ==> Keeps(s, TakeWork(s))
    ensures s.render.up ==> Keeps(s, TakeRender(s))
  {
  }

  // ----- steps of the shell -----

  lemma PutAgrees(g: Shell, i: Id, s: Surface, restWork: seq<Id>, restRenders: seq<Id>)
    requires i < |g.surfaces| && Agree(g, restWork, restRenders)
    requires Sound(s)
    ensures Agree(Put(g, i, s), restWork, restRenders)
    ensures Later(g.surfaces[i], s) ==> Advances(g, Put(g, i, s))
  {
  }

  lemma CancelWorkAgrees(g: Shell, i: Id, restWork: seq<Id>, restRenders: seq<Id>)
    requires i < |g.surfaces| && Agree(g, restWork, restRenders)
    ensures Agree(CancelWork(g, i), restWork, restRenders) && Advances(g, CancelWork(g, i))
  {
  }

  lemma CancelRenderAgrees(g: Shell, i: Id, restWork: seq<Id>, restRenders: seq<Id>)
    requires i < |g.surfaces| && Agree(g, restWork, restRenders)
    ensures Agree(CancelRender(g, i), restWork, restRenders) && Advances(g, CancelRender(g, i))
  {
  }

  lemma CancelAgrees(g: Shell, i: Id, restWork: seq<Id>, restRenders: seq<Id>)
    requires i < |g.surfaces| && Agree(g, restWork, restRenders)
    ensures Agree(Cancel(g, i), restWork, restRenders) && Advances(g, Cancel(g, i))
  {
    CancelWorkAgrees(g, i, restWork, restRenders);
    CancelRenderAgrees(CancelWork(g, i), i, restWork, restRenders);
    AdvancesOn(g, CancelWork(g, i), Cancel(g, i));
  }

  lemma AdvancesOn(g: Shell, m: Shell, r: Shell)
    requires Advances(g, m) && Advances(m, r)
    ensures Advances(g, r)
  {
  }

  lemma PrepareKeeps(g: Shell, i: Id, prepare: Script, restWork: seq<Id>, restRenders: seq<Id>)
    requires i < |g.surfaces| && Agree(g, restWork, restRenders)
    ensures Agree(Prepare(g, i, prepare), restWork, restRenders)
    ensures Advances(g, Prepare(g, i, prepare))
    decreases prepare, 1
  {
    var s := g.surfaces[i];
    if PrepareRuns(s) {
      var g0 := Put(g, i, PrepareStart(s));
      PutAgrees(g, i, PrepareStart(s), restWork, restRenders);
      ExecKeeps(g0, prepare, restWork, restRenders);
      var g1 := Exec(g0, prepare);
      PutAgrees(g1, i, PrepareEnd(g1.surfaces[i]), restWork, restRenders);
    }
  }

  lemma RenderNowKeeps(g: Shell, i: Id, prepare: Script, restWork: seq<Id>, restRenders: seq<Id>)
    requires i < |g.surfaces| && Agree(g, restWork, restRenders)
    ensures Agree(ExecOp(g, RenderNow(i, prepare)), restWork, restRenders)
    ensures Advances(g, ExecOp(g, RenderNow(i, prepare)))
    decreases prepare, 2
  {
    var g0 := Cancel(g, i);
    CancelAgrees(g, i, restWork, restRenders);
    PrepareKeeps(g0, i, prepare, restWork, restRenders);
    var g1 := Prepare(g0, i, prepare);
    RenderKeeps(g1.surfaces[i]);
    PutAgrees(g1, i, RenderOn(g1.surfaces[i]), restWork, restRenders);
    AdvancesOn(g, g0, g1);
    AdvancesOn(g, g1, Put(g1, i, RenderOn(g1.surfaces[i])));
  }

  lemma ConfigureKeeps(g: Shell, i: Id, sized: bool, script: Script, restWork: seq<Id>, restRenders: seq<Id>)
    requires i < |g.surfaces| && Agree(g, restWork, restRenders)
    ensures Agree(ExecOp(g, Configure(i, sized, script)), restWork, restRenders)
    ensures Advances(g, ExecOp(g, Configure(i, sized, script)))
    decreases script, 2
  {
    var s := ConfigureStart(g.surfaces[i], sized);
    var g0 := Put(g, i, s);
    ConfigureOnKeeps(g.surfaces[i], sized);
    PutAgrees(g, i, s, restWork, restRenders);
    ExecKeeps(g0, script, restWork, restRenders);
    var g1 := Exec(g0, script);
    ConfigureOnKeeps(g1.surfaces[i], sized);
    PutAgrees(g1, i, ConfigureEnd(g1.surfaces[i]), restWork, restRenders);
    AdvancesOn(g, g0, g1);
    AdvancesOn(g, g1, Put(g1, i, ConfigureEnd(g1.surfaces[i])));
  }

  lemma DestroyKeeps(g: Shell, i: Id, restWork: seq<Id>, restRenders: seq<Id>)
    requires i < |g.surfaces| && Agree(g, restWork, restRenders)
    ensures Agree(ExecOp(g, Destroy(i)), restWork, restRenders)
    ensures Advances(g, ExecOp(g, Destroy(i)))
  {
    var g1 := Cancel(g, i);
    CancelAgrees(g, i, restWork, restRenders);
    DestroyOnKeeps(g1.surfaces[i]);
    PutAgrees(g1, i, DestroyOn(g1.surfaces[i]), restWork, restRenders);
    AdvancesOn(g, g1, Put(g1, i, DestroyOn(g1.surfaces[i])));
  }

  /** Every operation, with everything its callbacks do, keeps flags and queues in agreement. */
  lemma OpKeeps(g: Shell, op: Op, restWork: seq<Id>, restRenders: seq<Id>)
    requires Agree(g, restWork, restRenders)
    ensures Agree(ExecOp(g, op), restWork, restRenders)
    ensures Advances(g, ExecOp(g, op))
    decreases op
  {
    if op.id < |g.surfaces| {
      var i, s := op.id, g.surfaces[op.id];
      match op
      case Request(_, kind) =>
        RequestKeeps(s, kind);
        PutAgrees(g, i, RequestOn(s, kind), restWork, restRenders);
      case RequestFrameTick(_) =>
        RequestFrameTickKeeps(s);
        PutAgrees(g, i, RequestFrameTickOn(s), restWork, restRenders);
      case RenderNow(_, prepare) => RenderNowKeeps(g, i, prepare, restWork, restRenders);
      case DiscardCallback(_) =>
        DiscardKeeps(s);
        PutAgrees(g, i, DiscardOn(s), restWork, restRenders);
      case FrameDone(_) =>
        if s.callback.up {
          FrameDoneKeeps(s);
          PutAgrees(g, i, FrameDoneOn(s), restWork, restRenders);
        }
      case Configure(_, sized, onConfigure) => ConfigureKeeps(g, i, sized, onConfigure, restWork, restRenders);
      case Destroy(_) => DestroyKeeps(g, i, restWork, restRenders);
      case Rewire(_, running, wiring) =>
        PutAgrees(g, i, Rewired(s, running, wiring), restWork, restRenders);
    }
  }

  lemma ExecKeeps(g: Shell, script: Script, restWork: seq<Id>, restRenders: seq<Id>)
    requires Agree(g, restWork, restRenders)
    ensures Agree(Exec(g, script), restWork, restRenders)
    ensures Advances(g, Exec(g, script))
    decreases script, 0
  {
    if script.Then? {
      var g1 := ExecOp(g, script.op);
      OpKeeps(g, script.op, restWork, restRenders);
      ExecKeeps(g1, script.rest, restWork, restRenders);
      AdvancesOn(g, g1, Exec(g1, script.rest));
    }
  }

  // ----- drains -----

  lemma FrameHandlerKeeps(g: Shell, i: Id, scripts: WorkScripts, restWork: seq<Id>, restRenders: seq<Id>)
    requires i < |g.surfaces| && Agree(g, restWork, restRenders)
    requires !g.surfaces[i].phase.inFrameHandler
    ensures Agree(FrameHandler(g, i, scripts), restWork, restRenders)
    ensures Advances(g, FrameHandler(g, i, scripts))
  {
    var entered := InHandler(g.surfaces[i], true);
    var g0 := Put(g, i, entered);
    PutAgrees(g, i, entered, restWork, restRenders);
    ExecKeeps(g0, scripts.animation, restWork, restRenders);
    var g1 := Exec(g0, scripts.animation);
    var ticks := g1.surfaces[i].wiring.hasFrameTick && EnsureRenderTargetReady(g1.surfaces[i]);
    var g2 := if ticks then Exec(g1, scripts.frameTick) else g1;
    if ticks {
      ExecKeeps(g1, scripts.frameTick, restWork, restRenders);
    }
    AdvancesOn(g0, g1, g2);
    ExecKeeps(g2, scripts.update, restWork, restRenders);
    var g3 := Exec(g2, scripts.update);
    AdvancesOn(g0, g2, g3);
    PutAgrees(g3, i, InHandler(g3.surfaces[i], false), restWork, restRenders);
    LeavesHandler(g, i, g3);
  }

  /** Entering the frame handler, running callbacks and leaving it again is an advance. */
  lemma LeavesHandler(g: Shell, i: Id, g3: Shell)
    requires i < |g.surfaces| && !g.surfaces[i].phase.inFrameHandler
    requires Advances(Put(g, i, InHandler(g.surfaces[i], true)), g3)
    ensures Advances(g, Put(g3, i, InHandler(g3.surfaces[i], false)))
  {
    var g0 := Put(g, i, InHandler(g.surfaces[i], true));
    var r := Put(g3, i, InHandler(g3.surfaces[i], false));
    forall j | 0 <= j < |g.surfaces| ensures Later(g.surfaces[j], r.surfaces[j]) {
      assert Later(g0.surfaces[j], g3.surfaces[j]);
    }
  }

  lemma TakeWorkKeeps(g: Shell, i: Id, restWork: seq<Id>, restRenders: seq<Id>)
    requires i < |g.surfaces| && Agree(g, [i] + restWork, restRenders) && g.surfaces[i].work.up
    ensures var g0 := Put(g, i, TakeWork(g.surfaces[i]));
      Agree(g0, restWork, restRenders) && Advances(g, g0)
  {
    TakeKeeps(g.surfaces[i]);
  }

  /** The rest of the processing, once the flag is taken. */
  lemma TakenWorkKeeps(g: Shell, i: Id, runs: bool, scripts: WorkScripts, restWork: seq<Id>, restRenders: seq<Id>)
    requires i < |g.surfaces| && Agree(g, restWork, restRenders) && !g.surfaces[i].phase.inFrameHandler
    ensures var g2 := Prepare(if runs then FrameHandler(g, i, scripts) else g, i, scripts.prepare);
      var r := Put(g2, i, QueueRenderIfNeeded(g2.surfaces[i]));
      Agree(r, restWork, restRenders) && Advances(g, r)
  {
    var g1 := if runs then FrameHandler(g, i, scripts) else g;
    FrameHandlerKeeps(g, i, scripts, restWork, restRenders);
    PrepareKeeps(g1, i, scripts.prepare, restWork, restRenders);
    var g2 := Prepare(g1, i, scripts.prepare);
    var r := Put(g2, i, QueueRenderIfNeeded(g2.surfaces[i]));
    QueueRenderIfNeededKeeps(g2.surfaces[i]);
    PutAgrees(g2, i, QueueRenderIfNeeded(g2.surfaces[i]), restWork, restRenders);
    AdvancesOn(g, g1, g2);
    AdvancesOn(g, g2, r);
  }

  /** Processing surface i answers its flag; its place in the batch is used up. */
  lemma ProcessKeeps(g: Shell, i: Id, scripts: WorkScripts, restWork: seq<Id>, restRenders: seq<Id>)
    requires i < |g.surfaces| && Agree(g, [i] + restWork, restRenders)
    requires g.surfaces[i].work.up && !g.surfaces[i].phase.inFrameHandler
    ensures Agree(ProcessQueuedFrameWork(g, i, scripts), restWork, restRenders)
    ensures Advances(g, ProcessQueuedFrameWork(g, i, scripts))
    ensures ProcessQueuedFrameWork(g, i, scripts).surfaces[i].work.processed > g.surfaces[i].work.processed
  {
    var s := g.surfaces[i];
    var g0 := Put(g, i, TakeWork(s));
    var r := ProcessQueuedFrameWork(g, i, scripts);
    TakeWorkKeeps(g, i, restWork, restRenders);
    if s.wiring.hasSurface && s.phase.configured {
      TakenWorkKeeps(g0, i, s.ticks.pending, scripts, restWork, restRenders);
      AdvancesOn(g, g0, r);
      assert Later(g0.surfaces[i], r.surfaces[i]);
    }
  }

  lemma RenderQueuedKeeps(g: Shell, i: Id, prepare: Script, restWork: seq<Id>, restRenders: seq<Id>)
    requires i < |g.surfaces| && Agree(g, restWork, [i] + restRenders)
    requires g.surfaces[i].render.up
    ensures Agree(RenderQueuedFrame(g, i, prepare), restWork, restRenders)
    ensures Advances(g, RenderQueuedFrame(g, i, prepare))
    ensures RenderQueuedFrame(g, i, prepare).surfaces[i].render.processed > g.surfaces[i].render.processed
  {
    var s := g.surfaces[i];
    var g0 := Put(g, i, TakeRender(s));
    TakeKeeps(s);
    if s.wiring.hasSurface && s.phase.configured {
      PrepareKeeps(g0, i, prepare, restWork, restRenders);
      var g1 := Prepare(g0, i, prepare);
      RenderKeeps(g1.surfaces[i]);
      PutAgrees(g1, i, RenderOn(g1.surfaces[i]), restWork, restRenders);
      var r := RenderQueuedFrame(g, i, prepare);
      AdvancesOn(g0, g1, r);
      AdvancesOn(g, g0, r);
      assert Later(g0.surfaces[i], r.surfaces[i]);
    }
  }

  /** No handler of any surface is on the stack. */
  ghost predicate Resting(g: Shell) {
    forall i :: 0 <= i < |g.surfaces| ==>
      !g.surfaces[i].phase.inFrameHandler && !g.surfaces[i].phase.inPrepareFrame
  }

  predicate Answered(before: Flag, after: Flag) {
    before.processed + before.cancelled < after.processed + after.cancelled
  }

  lemma VisitWorkKeeps(g: Shell, batch: seq<Id>, k: nat, scripts: seq<WorkScripts>)
    requires k <= |batch| && Agree(g, batch[k..], []) && Resting(g)
    ensures Agree(VisitWork(g, batch, k, scripts), [], [])
    ensures Advances(g, VisitWork(g, batch, k, scripts))
    ensures forall i :: 0 <= i < |g.surfaces| && g.surfaces[i].work.up && i in batch[k..] ==>
      Answered(g.surfaces[i].work, VisitWork(g, batch, k, scripts).surfaces[i].work)
    decreases |batch| - k
  {
    if k < |batch| {
      var i := batch[k];
      assert batch[k..] == [i] + batch[k + 1..];
      var visits := i < |g.surfaces| && g.surfaces[i].work.up;
      var g1 := if visits then ProcessQueuedFrameWork(g, i, WorkScriptsAt(scripts, k)) else g;
      if visits {
        ProcessKeeps(g, i, WorkScriptsAt(scripts, k), batch[k + 1..], []);
      }
      VisitWorkKeeps(g1, batch, k + 1, scripts);
      var r := VisitWork(g1, batch, k + 1, scripts);
      AdvancesOn(g, g1, r);
      forall j | 0 <= j < |g.surfaces| && g.surfaces[j].work.up && j in batch[k..]
        ensures Answered(g.surfaces[j].work, r.surfaces[j].work)
      {
        assert Later(g.surfaces[j], g1.surfaces[j]) && Later(g1.surfaces[j], r.surfaces[j]);
        assert Sound(g.surfaces[j]) && Sound(g1.surfaces[j]);
      }
    }
  }

  lemma VisitRendersKeeps(g: Shell, batch: seq<Id>, k: nat, scripts: seq<Script>)
    requires k <= |batch| && Agree(g, [], batch[k..]) && Resting(g)
    ensures Agree(VisitRenders(g, batch, k, scripts), [], [])
    ensures Advances(g, VisitRenders(g, batch, k, scripts))
    ensures forall i :: 0 <= i < |g.surfaces| && g.surfaces[i].render.up && i in batch[k..] ==>
      Answered(g.surfaces[i].render, VisitRenders(g, batch, k, scripts).surfaces[i].render)
    decreases |batch| - k
  {
    if k < |batch| {
      var i := batch[k];
      assert batch[k..] == [i] + batch[k + 1..];
      var visits := i < |g.surfaces| && g.surfaces[i].render.up;
      var g1 := if visits then RenderQueuedFrame(g, i, ScriptAt(scripts, k)) else g;
      if visits {
        RenderQueuedKeeps(g, i, ScriptAt(scripts, k), [], batch[k + 1..]);
      }
      VisitRendersKeeps(g1, batch, k + 1, scripts);
      var r := VisitRenders(g1, batch, k + 1, scripts);
      AdvancesOn(g, g1, r);
      forall j | 0 <= j < |g.surfaces| && g.surfaces[j].render.up && j in batch[k..]
        ensures Answered(g.surfaces[j].render, r.surfaces[j].render)
      {
        assert Later(g.surfaces[j], g1.surfaces[j]) && Later(g1.surfaces[j], r.surfaces[j]);
        assert Sound(g.surfaces[j]) && Sound(g1.surfaces[j]);
      }
    }
  }

  // ----- main results -----

  /** One turn of the main loop keeps queues and flags in agreement, and leaves no handler on the stack. */
  lemma StepKeeps(g: Shell, step: Step)
    requires Agree(g, [], []) && Resting(g)
    ensures Agree(ExecStep(g, step), [], []) && Resting(ExecStep(g, step))
    ensures Advances(g, ExecStep(g, step))
  {
    match step
    case Direct(script) => ExecKeeps(g, script, [], []);
    case DrainWork(scripts) => VisitWorkKeeps(g.(work := []), g.work, 0, scripts);
    case DrainRenders(scripts) => VisitRendersKeeps(g.(renders := []), g.renders, 0, scripts);
  }

  /** A drain answers every flag that was up when it began, by processing or by
      cancellation, whatever the callbacks it runs do to any surface. */
  lemma DrainAnswersEveryFlag(g: Shell, work: seq<WorkScripts>, prepares: seq<Script>, i: Id)
    requires Agree(g, [], []) && Resting(g) && i < |g.surfaces|
    ensures g.surfaces[i].work.up ==>
      Answered(g.surfaces[i].work, ExecStep(g, DrainWork(work)).surfaces[i].work)
    ensures g.surfaces[i].render.up ==>
      Answered(g.surfaces[i].render, ExecStep(g, DrainRenders(prepares)).surfaces[i].render)
  {
    VisitWorkKeeps(g.(work := []), g.work, 0, work);
    VisitRendersKeeps(g.(renders := []), g.renders, 0, prepares);
  }

  /** Surfaces as constructed: nothing requested, queued or in flight. */
  ghost predicate Initial(g: Shell) {
    && g.work == [] && g.renders == []
    && forall i :: 0 <= i < |g.surfaces| ==>
      var s := g.surfaces[i];
      && s.requests == Requests(false, false, false, false)
      && s.phase == Phase(false, false, false, false)
      && s.work == s.render == s.callback == Flag(false, 0, 0, 0)
  }

  /** In every run from the initial shell: a raised flag has its surface in the
      queue, and each raise of a flag has had exactly one answer, except the
      last raise of a flag that is still up. */
  lemma {:induction false} RunKeepsQueues(g: Shell, steps: seq<Step>)
    requires Initial(g)
    ensures Agree(Run(g, steps), [], []) && Resting(Run(g, steps))
    decreases |steps|
  {
    if steps != [] {
      RunKeepsQueues(g, steps[..|steps| - 1]);
      StepKeeps(Run(g, steps[..|steps| - 1]), steps[|steps| - 1]);
    }
  }
}
