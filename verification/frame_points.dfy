/** What holds inside callbacks: at every point that a turn of the main loop passes through,
    queues and flags agree and no frame work is lost. */
module FramePoints {
  import opened Options
  import opened FrameModel
  import opened FrameQueues
  import opened FrameProgress

  /** A point inside a callback: the state, and the operation just done, if any. */
  datatype Point = Point(shell: Shell, last: Option<Op>)

  /** The script passes the point: before its first operation, after one, or inside one. */
  ghost predicate Passes(g: Shell, script: Script, last: Option<Op>, at: Point)
    decreases script, 0
  {
    || at == Point(g, last)
    || (script.Then? && PassesOp(g, script.op, at))
    || (script.Then? && Passes(ExecOp(g, script.op), script.rest, Some(script.op), at))
  }

  ghost predicate PassesOp(g: Shell, op: Op, at: Point)
    decreases op
  {
    && op.id < |g.surfaces|
    && var s := g.surfaces[op.id];
    match op
    case RenderNow(i, prepare) => s.phase.running && s.phase.configured && PassesPrepare(Cancel(g, i), i, prepare, at)
    case Configure(i, sized, onConfigure) => Passes(Put(g, i, ConfigureStart(s, sized)), onConfigure, None, at)
    case _ => false
  }

  ghost predicate PassesPrepare(g: Shell, i: Id, prepare: Script, at: Point)
    requires i < |g.surfaces|
    decreases prepare, 1
  {
    PrepareRuns(g.surfaces[i]) && Passes(Put(g, i, PrepareStart(g.surfaces[i])), prepare, None, at)
  }

  ghost predicate PassesHandler(g: Shell, i: Id, scripts: WorkScripts, at: Point)
    requires i < |g.surfaces|
  {
    var g0 := Put(g, i, InHandler(g.surfaces[i], true));
    var g1 := Exec(g0, scripts.animation);
    var ticks := g1.surfaces[i].wiring.hasFrameTick && EnsureRenderTargetReady(g1.surfaces[i]);
    var g2 := if ticks then Exec(g1, scripts.frameTick) else g1;
    || Passes(g0, scripts.animation, None, at)
    || (ticks && Passes(g1, scripts.frameTick, None, at))
    || Passes(g2, scripts.update, None, at)
  }

  ghost predicate PassesProcess(g: Shell, i: Id, scripts: WorkScripts, at: Point)
    requires i < |g.surfaces|
  {
    var s := g.surfaces[i];
    var g0 := Put(g, i, TakeWork(s));
    && s.wiring.hasSurface && s.phase.configured
    && ((s.ticks.pending && PassesHandler(g0, i, scripts, at))
        || PassesPrepare(if s.ticks.pending then FrameHandler(g0, i, scripts) else g0, i, scripts.prepare, at))
  }

  ghost predicate PassesRender(g: Shell, i: Id, prepare: Script, at: Point)
    requires i < |g.surfaces|
  {
    var s := g.surfaces[i];
    s.wiring.hasSurface && s.phase.configured && PassesPrepare(Put(g, i, TakeRender(s)), i, prepare, at)
  }

  /** Passed while the batch is visited from k on, with `rest` of it still to visit. */
  ghost predicate PassesWork(g: Shell, batch: seq<Id>, k: nat, scripts: seq<WorkScripts>, rest: seq<Id>, at: Point)
    decreases |batch| - k
  {
    && k < |batch|
    && var i := batch[k];
    var visits := i < |g.surfaces| && g.surfaces[i].work.up;
    || (visits && rest == batch[k + 1..] && PassesProcess(g, i, WorkScriptsAt(scripts, k), at))
    || PassesWork(if visits then ProcessQueuedFrameWork(g, i, WorkScriptsAt(scripts, k)) else g,
                  batch, k + 1, scripts, rest, at)
  }

  ghost predicate PassesRenders(g: Shell, batch: seq<Id>, k: nat, scripts: seq<Script>, rest: seq<Id>, at: Point)
    decreases |batch| - k
  {
    && k < |batch|
    && var i := batch[k];
    var visits := i < |g.surfaces| && g.surfaces[i].render.up;
    || (visits && rest == batch[k + 1..] && PassesRender(g, i, ScriptAt(scripts, k), at))
    || PassesRenders(if visits then RenderQueuedFrame(g, i, ScriptAt(scripts, k)) else g,
                     batch, k + 1, scripts, rest, at)
  }

  /** Passed by a turn of the main loop, with parts of the batches still to visit. */
  ghost predicate PassesStep(g: Shell, step: Step, restWork: seq<Id>, restRenders: seq<Id>, at: Point) {
    match step
    case Direct(script) => restWork == [] && restRenders == [] && Passes(g, script, None, at)
    case DrainWork(scripts) => restRenders == [] && PassesWork(g.(work := []), g.work, 0, scripts, restWork, at)
    case DrainRenders(scripts) =>
      restWork == [] && PassesRenders(g.(renders := []), g.renders, 0, scripts, restRenders, at)
  }

  // ----- queues and flags agree at every point -----

  lemma {:induction false} PassingAgrees(
      g: Shell, script: Script, last: Option<Op>, at: Point, restWork: seq<Id>, restRenders: seq<Id>)
    requires Agree(g, restWork, restRenders) && Passes(g, script, last, at)
    ensures Agree(at.shell, restWork, restRenders)
    decreases script, 0
  {
    if at != Point(g, last) {
      if PassesOp(g, script.op, at) {
        PassingOpAgrees(g, script.op, at, restWork, restRenders);
      } else {
        OpKeeps(g, script.op, restWork, restRenders);
        PassingAgrees(ExecOp(g, script.op), script.rest, Some(script.op), at, restWork, restRenders);
      }
    }
  }

  lemma {:induction false} PassingOpAgrees(g: Shell, op: Op, at: Point, restWork: seq<Id>, restRenders: seq<Id>)
    requires Agree(g, restWork, restRenders) && PassesOp(g, op, at)
    ensures Agree(at.shell, restWork, restRenders)
    decreases op
  {
    var i, s := op.id, g.surfaces[op.id];
    if op.RenderNow? {
      CancelAgrees(g, i, restWork, restRenders);
      PassingPrepareAgrees(Cancel(g, i), i, op.prepare, at, restWork, restRenders);
    } else {
      PutAgrees(g, i, ConfigureStart(s, op.sized), restWork, restRenders);
      PassingAgrees(Put(g, i, ConfigureStart(s, op.sized)), op.onConfigure, None, at, restWork, restRenders);
    }
  }

  lemma {:induction false} PassingPrepareAgrees(
      g: Shell, i: Id, prepare: Script, at: Point, restWork: seq<Id>, restRenders: seq<Id>)
    requires i < |g.surfaces| && Agree(g, restWork, restRenders) && PassesPrepare(g, i, prepare, at)
    ensures Agree(at.shell, restWork, restRenders)
    decreases prepare, 1
  {
    PutAgrees(g, i, PrepareStart(g.surfaces[i]), restWork, restRenders);
    PassingAgrees(Put(g, i, PrepareStart(g.surfaces[i])), prepare, None, at, restWork, restRenders);
  }

  lemma PassingHandlerAgrees(
      g: Shell, i: Id, scripts: WorkScripts, at: Point, restWork: seq<Id>, restRenders: seq<Id>)
    requires i < |g.surfaces| && Agree(g, restWork, restRenders) && PassesHandler(g, i, scripts, at)
    ensures Agree(at.shell, restWork, restRenders)
  {
    var g0 := Put(g, i, InHandler(g.surfaces[i], true));
    PutAgrees(g, i, InHandler(g.surfaces[i], true), restWork, restRenders);
    ExecKeeps(g0, scripts.animation, restWork, restRenders);
    var g1 := Exec(g0, scripts.animation);
    ExecKeeps(g1, scripts.frameTick, restWork, restRenders);
    var ticks := g1.surfaces[i].wiring.hasFrameTick && EnsureRenderTargetReady(g1.surfaces[i]);
    var g2 := if ticks then Exec(g1, scripts.frameTick) else g1;
    if Passes(g0, scripts.animation, None, at) {
      PassingAgrees(g0, scripts.animation, None, at, restWork, restRenders);
    } else if Passes(g2, scripts.update, None, at) {
      PassingAgrees(g2, scripts.update, None, at, restWork, restRenders);
    } else {
      PassingAgrees(g1, scripts.frameTick, None, at, restWork, restRenders);
    }
  }

  lemma PassingProcessAgrees(
      g: Shell, i: Id, scripts: WorkScripts, at: Point, restWork: seq<Id>, restRenders: seq<Id>)
    requires i < |g.surfaces| && Agree(g, [i] + restWork, restRenders) && PassesProcess(g, i, scripts, at)
    requires g.surfaces[i].work.up && !g.surfaces[i].phase.inFrameHandler
    ensures Agree(at.shell, restWork, restRenders)
  {
    var s := g.surfaces[i];
    var g0 := Put(g, i, TakeWork(s));
    TakeKeeps(s);
    if s.ticks.pending && PassesHandler(g0, i, scripts, at) {
      PassingHandlerAgrees(g0, i, scripts, at, restWork, restRenders);
    } else {
      FrameHandlerKeeps(g0, i, scripts, restWork, restRenders);
      var g1 := if s.ticks.pending then FrameHandler(g0, i, scripts) else g0;
      PassingPrepareAgrees(g1, i, scripts.prepare, at, restWork, restRenders);
    }
  }

  lemma PassingRenderAgrees(g: Shell, i: Id, prepare: Script, at: Point, restWork: seq<Id>, restRenders: seq<Id>)
    requires i < |g.surfaces| && Agree(g, restWork, [i] + restRenders) && PassesRender(g, i, prepare, at)
    requires g.surfaces[i].render.up
    ensures Agree(at.shell, restWork, restRenders)
  {
    TakeKeeps(g.surfaces[i]);
    PassingPrepareAgrees(Put(g, i, TakeRender(g.surfaces[i])), i, prepare, at, restWork, restRenders);
  }

  lemma {:induction false} PassingWorkAgrees(
      g: Shell, batch: seq<Id>, k: nat, scripts: seq<WorkScripts>, rest: seq<Id>, at: Point)
    requires k <= |batch| && Agree(g, batch[k..], []) && Resting(g) && PassesWork(g, batch, k, scripts, rest, at)
    ensures Agree(at.shell, rest, [])
    decreases |batch| - k
  {
    var i := batch[k];
    assert batch[k..] == [i] + batch[k + 1..];
    var visits := i < |g.surfaces| && g.surfaces[i].work.up;
    if visits && rest == batch[k + 1..] && PassesProcess(g, i, WorkScriptsAt(scripts, k), at) {
      PassingProcessAgrees(g, i, WorkScriptsAt(scripts, k), at, rest, []);
    } else {
      if visits {
        ProcessKeeps(g, i, WorkScriptsAt(scripts, k), batch[k + 1..], []);
      }
      var g1 := if visits then ProcessQueuedFrameWork(g, i, WorkScriptsAt(scripts, k)) else g;
      PassingWorkAgrees(g1, batch, k + 1, scripts, rest, at);
    }
  }

  lemma {:induction false} PassingRendersAgrees(
      g: Shell, batch: seq<Id>, k: nat, scripts: seq<Script>, rest: seq<Id>, at: Point)
    requires k <= |batch| && Agree(g, [], batch[k..]) && Resting(g) && PassesRenders(g, batch, k, scripts, rest, at)
    ensures Agree(at.shell, [], rest)
    decreases |batch| - k
  {
    var i := batch[k];
    assert batch[k..] == [i] + batch[k + 1..];
    var visits := i < |g.surfaces| && g.surfaces[i].render.up;
    if visits && rest == batch[k + 1..] && PassesRender(g, i, ScriptAt(scripts, k), at) {
      PassingRenderAgrees(g, i, ScriptAt(scripts, k), at, [], rest);
    } else {
      if visits {
        RenderQueuedKeeps(g, i, ScriptAt(scripts, k), [], batch[k + 1..]);
      }
      var g1 := if visits then RenderQueuedFrame(g, i, ScriptAt(scripts, k)) else g;
      PassingRendersAgrees(g1, batch, k + 1, scripts, rest, at);
    }
  }

  /** At every point inside every callback of every run, a surface whose queued flag is set is
      in the global queue or in the part of the batch that is still to be visited, and each
      raise of a flag has had one answer, except the last one of a flag that is up. */
  lemma QueuesAgreeInCallbacks(
      g: Shell, steps: seq<Step>, step: Step, restWork: seq<Id>, restRenders: seq<Id>, at: Point)
    requires Initial(g) && PassesStep(Run(g, steps), step, restWork, restRenders, at)
    ensures Agree(at.shell, restWork, restRenders)
  {
    RunKeepsQueues(g, steps);
    var r := Run(g, steps);
    match step
    case Direct(script) => PassingAgrees(r, script, None, at, [], []);
    case DrainWork(scripts) => PassingWorkAgrees(r.(work := []), r.work, 0, scripts, restWork, at);
    case DrainRenders(scripts) => PassingRendersAgrees(r.(renders := []), r.renders, 0, scripts, restRenders, at);
  }

  // ----- no frame work is lost at any point -----

  /** Directly after a discard of its frame callback a surface may be stalled. */
  predicate Discarded(i: Id, last: Option<Op>) { last == Some(DiscardCallback(i)) }

  ghost predicate FineAt(at: Point, i: Id) { Able(at.shell, i) && (!Discarded(i, at.last) ==> Fine(at.shell, i)) }

  lemma {:induction false} PassingStaysFine(g: Shell, script: Script, last: Option<Op>, at: Point, i: Id)
    requires AllSound(g) && Able(g, i) && Tame(i, script) && Passes(g, script, last, at)
    requires if Discarded(i, last) then script.Then? && Resumes(i, script.op) else Fine(g, i)
    ensures FineAt(at, i)
    decreases script, 0
  {
    if at != Point(g, last) {
      var op := script.op;
      if PassesOp(g, op, at) {
        PassingOpStaysFine(g, op, at, i);
      } else {
        SoundAfterOp(g, op);
        if Discarded(i, last) {
          ResumeRevives(g, op, i);
        } else if op != DiscardCallback(i) {
          OpStaysFine(g, op, i);
        }
        PassingStaysFine(ExecOp(g, op), script.rest, Some(op), at, i);
      }
    }
  }

  lemma {:induction false} PassingOpStaysFine(g: Shell, op: Op, at: Point, i: Id)
    requires AllSound(g) && Able(g, i) && TameOp(i, op) && PassesOp(g, op, at)
    requires Fine(g, i) || Resumes(i, op)
    ensures FineAt(at, i)
    decreases op
  {
    var j, s := op.id, g.surfaces[op.id];
    if op.RenderNow? {
      var g0 := Cancel(g, j);
      assert AllSound(g0) && (j != i ==> g0.surfaces[i] == g.surfaces[i]);
      PassingPrepareStaysFine(g0, j, op.prepare, at, i);
    } else {
      var g0 := Put(g, j, ConfigureStart(s, op.sized));
      assert AllSound(g0);
      PassingStaysFine(g0, op.onConfigure, None, at, i);
    }
  }

  lemma {:induction false} PassingPrepareStaysFine(g: Shell, j: Id, prepare: Script, at: Point, i: Id)
    requires AllSound(g) && Able(g, i) && j < |g.surfaces| && Tame(i, prepare) && PassesPrepare(g, j, prepare, at)
    requires j != i ==> Fine(g, i)
    ensures FineAt(at, i)
    decreases prepare, 1
  {
    var g0 := Put(g, j, PrepareStart(g.surfaces[j]));
    assert AllSound(g0);
    PassingStaysFine(g0, prepare, None, at, i);
  }

  lemma PassingHandlerStaysFine(g: Shell, j: Id, scripts: WorkScripts, at: Point, i: Id)
    requires AllSound(g) && Able(g, i) && j < |g.surfaces| && TameWork(i, scripts) && PassesHandler(g, j, scripts, at)
    requires j != i ==> Fine(g, i)
    ensures FineAt(at, i)
  {
    var g0 := Put(g, j, InHandler(g.surfaces[j], true));
    assert AllSound(g0);
    StaysFine(g0, scripts.animation, i);
    SoundAfter(g0, scripts.animation);
    var g1 := Exec(g0, scripts.animation);
    StaysFine(g1, scripts.frameTick, i);
    SoundAfter(g1, scripts.frameTick);
    var ticks := g1.surfaces[j].wiring.hasFrameTick && EnsureRenderTargetReady(g1.surfaces[j]);
    var g2 := if ticks then Exec(g1, scripts.frameTick) else g1;
    if Passes(g0, scripts.animation, None, at) {
      PassingStaysFine(g0, scripts.animation, None, at, i);
    } else if Passes(g2, scripts.update, None, at) {
      PassingStaysFine(g2, scripts.update, None, at, i);
    } else {
      PassingStaysFine(g1, scripts.frameTick, None, at, i);
    }
  }

  lemma PassingProcessStaysFine(g: Shell, j: Id, scripts: WorkScripts, at: Point, i: Id)
    requires AllSound(g) && Able(g, i) && j < |g.surfaces| && g.surfaces[j].work.up && TameWork(i, scripts)
    requires PassesProcess(g, j, scripts, at) && (j != i ==> Fine(g, i))
    ensures FineAt(at, i)
  {
    var s := g.surfaces[j];
    var g0 := Put(g, j, TakeWork(s));
    assert AllSound(g0);
    if s.ticks.pending && PassesHandler(g0, j, scripts, at) {
      PassingHandlerStaysFine(g0, j, scripts, at, i);
    } else {
      FrameHandlerStaysFine(g0, j, scripts, i);
      var g1 := if s.ticks.pending then FrameHandler(g0, j, scripts) else g0;
      PassingPrepareStaysFine(g1, j, scripts.prepare, at, i);
    }
  }

  lemma PassingRenderStaysFine(g: Shell, j: Id, prepare: Script, at: Point, i: Id)
    requires AllSound(g) && Able(g, i) && j < |g.surfaces| && g.surfaces[j].render.up && Tame(i, prepare)
    requires PassesRender(g, j, prepare, at) && (j != i ==> Fine(g, i))
    ensures FineAt(at, i)
  {
    var g0 := Put(g, j, TakeRender(g.surfaces[j]));
    assert AllSound(g0);
    PassingPrepareStaysFine(g0, j, prepare, at, i);
  }

  lemma {:induction false} PassingWorkStaysFine(
      g: Shell, batch: seq<Id>, k: nat, scripts: seq<WorkScripts>, rest: seq<Id>, at: Point, i: Id)
    requires k <= |batch| && Agree(g, batch[k..], []) && Resting(g) && PassesWork(g, batch, k, scripts, rest, at)
    requires Fine(g, i) && TameStep(i, DrainWork(scripts))
    ensures FineAt(at, i)
    decreases |batch| - k
  {
    var j := batch[k];
    assert batch[k..] == [j] + batch[k + 1..];
    var w := WorkScriptsAt(scripts, k);
    var visits := j < |g.surfaces| && g.surfaces[j].work.up;
    if visits && rest == batch[k + 1..] && PassesProcess(g, j, w, at) {
      PassingProcessStaysFine(g, j, w, at, i);
    } else {
      if visits {
        ProcessKeeps(g, j, w, batch[k + 1..], []);
        ProcessStaysFine(g, j, w, i);
      }
      var g1 := if visits then ProcessQueuedFrameWork(g, j, w) else g;
      PassingWorkStaysFine(g1, batch, k + 1, scripts, rest, at, i);
    }
  }

  lemma {:induction false} PassingRendersStaysFine(
      g: Shell, batch: seq<Id>, k: nat, scripts: seq<Script>, rest: seq<Id>, at: Point, i: Id)
    requires k <= |batch| && Agree(g, [], batch[k..]) && Resting(g) && PassesRenders(g, batch, k, scripts, rest, at)
    requires Fine(g, i) && TameStep(i, DrainRenders(scripts))
    ensures FineAt(at, i)
    decreases |batch| - k
  {
    var j := batch[k];
    assert batch[k..] == [j] + batch[k + 1..];
    var prepare := ScriptAt(scripts, k);
    var visits := j < |g.surfaces| && g.surfaces[j].render.up;
    if visits && rest == batch[k + 1..] && PassesRender(g, j, prepare, at) {
      PassingRenderStaysFine(g, j, prepare, at, i);
    } else {
      if visits {
        RenderQueuedKeeps(g, j, prepare, [], batch[k + 1..]);
        RenderQueuedStaysFine(g, j, prepare, i);
      }
      var g1 := if visits then RenderQueuedFrame(g, j, prepare) else g;
      PassingRendersStaysFine(g1, batch, k + 1, scripts, rest, at, i);
    }
  }

  lemma PassingStepStaysFine(g: Shell, step: Step, restWork: seq<Id>, restRenders: seq<Id>, at: Point, i: Id)
    requires Agree(g, [], []) && Resting(g) && Fine(g, i) && TameStep(i, step)
    requires PassesStep(g, step, restWork, restRenders, at)
    ensures FineAt(at, i)
  {
    match step
    case Direct(script) => PassingStaysFine(g, script, None, at, i);
    case DrainWork(scripts) => PassingWorkStaysFine(g.(work := []), g.work, 0, scripts, restWork, at, i);
    case DrainRenders(scripts) => PassingRendersStaysFine(g.(renders := []), g.renders, 0, scripts, restRenders, at, i);
  }

  /** No lost frame work, at every point that a turn of the main loop passes through inside
      callbacks, in the runs of FrameProgress.NoLostFrameWork: unless handlers of surface i
      are on the stack or its frame callback has just been discarded, it is not stalled. */
  lemma NoLostFrameWorkInCallbacks(
      g: Shell, before: seq<Step>, start: Op, after: seq<Step>, i: Id,
      step: Step, restWork: seq<Id>, restRenders: seq<Id>, at: Point)
    requires Initial(g) && Starts(Run(g, before), start, i)
    requires TameStep(i, step) && forall k :: 0 <= k < |after| ==> TameStep(i, after[k])
    requires PassesStep(Run(ExecOp(Run(g, before), start), after), step, restWork, restRenders, at)
    ensures Able(at.shell, i)
    ensures var s := at.shell.surfaces[i];
      !s.phase.inFrameHandler && !s.phase.inPrepareFrame && !Discarded(i, at.last) ==> !Stalled(s)
  {
    StartedRunStaysFine(g, before, start, after, i);
    PassingStepStaysFine(Run(ExecOp(Run(g, before), start), after), step, restWork, restRenders, at, i);
  }
}
