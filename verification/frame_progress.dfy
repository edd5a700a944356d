/** No frame work is lost: a surface with pending work always has something
    queued or in flight that will look at it again, and the exact cases in
    which the scheduler does stall. */
module FrameProgress {
  import opened FrameModel
  import opened FrameQueues

  /** Able to draw: running, configured, with a ready render target and a prepare callback. */
  predicate WiredToDraw(w: Wiring) {
    w.hasSurface && w.hasContext && w.sized && w.targetReady && w.hasPrepare
  }

  predicate Ready(s: Surface) { s.phase.running && s.phase.configured && WiredToDraw(s.wiring) }

  /** Something will come back to the surface: a frame callback, frame work or a render. */
  predicate Live(s: Surface) { s.callback.up || s.work.up || s.render.up }

  /** Outside the frame handler, pending update and layout requests have something
      to come back to them; a pending redraw has too, outside the prepare callback.
      Inside those, the code after the callback picks them up. */
  predicate Safe(s: Surface) {
    Expectant(s) ==> Live(s)
  }

  predicate Expectant(s: Surface) {
    !s.phase.inFrameHandler && (s.requests.owed || (s.requests.redraw && !s.phase.inPrepareFrame))
  }

  predicate Stalled(s: Surface) { (s.requests.owed || s.requests.redraw) && !Live(s) }

  ghost predicate Able(g: Shell, i: Id) { i < |g.surfaces| && Ready(g.surfaces[i]) }

  ghost predicate Fine(g: Shell, i: Id) { i < |g.surfaces| && Ready(g.surfaces[i]) && Safe(g.surfaces[i]) }

  /** The operation leaves surface i able to draw, also inside the callbacks it runs. */
  predicate TameOp(i: Id, op: Op)
    decreases op
  {
    match op
    case Destroy(j) => j != i
    case Rewire(j, running, wiring) => j == i ==> running && WiredToDraw(wiring)
    case Configure(j, sized, onConfigure) => (j == i ==> sized) && Tame(i, onConfigure)
    case RenderNow(_, prepare) => Tame(i, prepare)
    case _ => true
  }

  predicate Resumes(i: Id, op: Op) { op.id == i && (op.Request? || op.RenderNow?) }

  /** The script keeps surface i able to draw and follows each discard of its frame
      callback with a request or renderNow on it. */
  predicate Tame(i: Id, script: Script)
    decreases script
  {
    script.Then? ==>
      && TameOp(i, script.op)
      && Tame(i, script.rest)
      && (script.op == DiscardCallback(i) ==> script.rest.Then? && Resumes(i, script.rest.op))
  }

  predicate TameStep(i: Id, step: Step) {
    match step
    case Direct(script) => Tame(i, script)
    case DrainWork(work) =>
      forall k :: 0 <= k < |work| ==>
        Tame(i, work[k].animation) && Tame(i, work[k].frameTick) && Tame(i, work[k].update) && Tame(i, work[k].prepare)
    case DrainRenders(prepares) => forall k :: 0 <= k < |prepares| ==> Tame(i, prepares[k])
  }

  // ----- steps of one surface -----

  /** A request brings a surface that can draw back to life, whatever happened before. */
  lemma RequestRevives(s: Surface, kind: RequestKind)
    requires Ready(s) && Sound(s)
    ensures Ready(RequestOn(s, kind)) && Safe(RequestOn(s, kind))
  {
    var f := Flagged(s, kind);
    if KickBlocked(f) {
    } else if f.requests.update || f.requests.layout {
    } else {
    }
  }

  lemma FrameTickKeepsSafe(s: Surface)
    requires Ready(s) && Sound(s)
    ensures Ready(RequestFrameTickOn(s)) && (Safe(s) ==> Safe(RequestFrameTickOn(s)))
  {
  }

  lemma FrameDoneKeepsSafe(s: Surface)
    requires Ready(s) && Sound(s) && s.callback.up
    ensures Ready(FrameDoneOn(s)) && (Safe(s) ==> Safe(FrameDoneOn(s)))
  {
  }

  lemma QueueRenderSettles(s: Surface)
    requires Ready(s)
    ensures Ready(QueueRenderIfNeeded(s))
    ensures (!s.phase.inFrameHandler && s.requests.owed ==> Live(s)) ==> Safe(QueueRenderIfNeeded(s))
  {
  }

  // ----- steps of the shell -----

  function AllIds(n: nat): (all: seq<Id>)
    ensures forall j: Id :: j < n ==> j in all
  {
    if n == 0 then [] else AllIds(n - 1) + [n - 1]
  }

  lemma SoundAfter(g: Shell, script: Script)
    requires AllSound(g)
    ensures AllSound(Exec(g, script)) && Advances(g, Exec(g, script))
  {
    var all := AllIds(|g.surfaces|);
    ExecKeeps(g, script, all, all);
  }

  lemma SoundAfterOp(g: Shell, op: Op)
    requires AllSound(g)
    ensures AllSound(ExecOp(g, op)) && Advances(g, ExecOp(g, op))
  {
    var all := AllIds(|g.surfaces|);
    OpKeeps(g, op, all, all);
  }

  /** preparePendingFrame settles all update and layout requests owed to the surface,
      also from a state that is not safe. */
  lemma PrepareSettles(g: Shell, i: Id, prepare: Script)
    requires AllSound(g) && Able(g, i) && Tame(i, prepare)
    ensures var r := Prepare(g, i, prepare).surfaces[i];
      Ready(r) && (!r.phase.inFrameHandler && r.requests.owed ==> Live(r))
    decreases prepare, 1
  {
    var s := g.surfaces[i];
    if PrepareRuns(s) {
      var g0 := Put(g, i, PrepareStart(s));
      assert AllSound(g0);
      StaysFine(g0, prepare, i);
    }
  }

  lemma PrepareOtherStaysFine(g: Shell, j: Id, prepare: Script, i: Id)
    requires AllSound(g) && Able(g, i) && j < |g.surfaces| && j != i && Tame(i, prepare)
    ensures Able(Prepare(g, j, prepare), i)
    ensures Fine(g, i) ==> Fine(Prepare(g, j, prepare), i)
    decreases prepare, 1
  {
    var s := g.surfaces[j];
    if PrepareRuns(s) {
      var g0 := Put(g, j, PrepareStart(s));
      assert AllSound(g0);
      StaysFine(g0, prepare, i);
    }
  }

  /** renderNow leaves nothing pending behind, from any state of a surface that can draw. */
  lemma RenderSettles(s: Surface)
    requires Ready(s) && (!s.phase.inFrameHandler && s.requests.owed ==> Live(s))
    ensures Ready(RenderOn(s)) && Safe(RenderOn(s))
  {
  }

  lemma RenderNowRevives(g: Shell, i: Id, prepare: Script)
    requires AllSound(g) && Able(g, i) && Tame(i, prepare)
    ensures Fine(ExecOp(g, RenderNow(i, prepare)), i)
    decreases prepare, 2
  {
    var g0 := Cancel(g, i);
    assert AllSound(g0);
    PrepareSettles(g0, i, prepare);
    RenderSettles(Prepare(g0, i, prepare).surfaces[i]);
  }

  /** A configure event that finds the surface running and wired brings it to life. */
  lemma ConfigureRevives(g: Shell, i: Id, onConfigure: Script)
    requires AllSound(g) && i < |g.surfaces| && Tame(i, onConfigure)
    requires Ready(ConfigureStart(g.surfaces[i], true))
    ensures Fine(ExecOp(g, Configure(i, true, onConfigure)), i)
    decreases onConfigure, 2
  {
    var g0 := Put(g, i, ConfigureStart(g.surfaces[i], true));
    assert AllSound(g0);
    StaysFine(g0, onConfigure, i);
  }

  lemma RenderNowOtherStaysFine(g: Shell, j: Id, prepare: Script, i: Id)
    requires AllSound(g) && Able(g, i) && j < |g.surfaces| && j != i && Tame(i, prepare)
    ensures Able(ExecOp(g, RenderNow(j, prepare)), i)
    ensures Fine(g, i) ==> Fine(ExecOp(g, RenderNow(j, prepare)), i)
    decreases prepare, 2
  {
    var g0 := Cancel(g, j);
    assert AllSound(g0);
    PrepareOtherStaysFine(g0, j, prepare, i);
  }

  lemma ConfigureOtherStaysFine(g: Shell, j: Id, sized: bool, onConfigure: Script, i: Id)
    requires AllSound(g) && Able(g, i) && j < |g.surfaces| && j != i && Tame(i, onConfigure)
    ensures Able(ExecOp(g, Configure(j, sized, onConfigure)), i)
    ensures Fine(g, i) ==> Fine(ExecOp(g, Configure(j, sized, onConfigure)), i)
    decreases onConfigure, 2
  {
    var g0 := Put(g, j, ConfigureStart(g.surfaces[j], sized));
    assert AllSound(g0);
    StaysFine(g0, onConfigure, i);
  }

  /** Every operation but a discard of its own frame callback keeps surface i able
      to draw, and fine if it was. */
  lemma OpStaysFine(g: Shell, op: Op, i: Id)
    requires AllSound(g) && Able(g, i) && TameOp(i, op) && op != DiscardCallback(i)
    ensures Able(ExecOp(g, op), i)
    ensures Fine(g, i) ==> Fine(ExecOp(g, op), i)
    decreases op
  {
    if op.id < |g.surfaces| {
      var j := op.id;
      match op
      case Request(_, kind) => if j == i { RequestRevives(g.surfaces[i], kind); }
      case RequestFrameTick(_) => FrameTickKeepsSafe(g.surfaces[i]);
      case FrameDone(_) => if g.surfaces[i].callback.up { FrameDoneKeepsSafe(g.surfaces[i]); }
      case RenderNow(_, prepare) =>
        if j == i {
          RenderNowRevives(g, i, prepare);
        } else {
          RenderNowOtherStaysFine(g, j, prepare, i);
        }
      case Configure(_, sized, onConfigure) =>
        if j == i {
          ConfigureRevives(g, i, onConfigure);
        } else {
          ConfigureOtherStaysFine(g, j, sized, onConfigure, i);
        }
      case _ =>
    }
  }

  lemma {:induction false} StaysFine(g: Shell, script: Script, i: Id)
    requires AllSound(g) && Able(g, i) && Tame(i, script)
    ensures Able(Exec(g, script), i)
    ensures Fine(g, i) ==> Fine(Exec(g, script), i)
    decreases script, 0
  {
    if script.Then? {
      var op, rest := script.op, script.rest;
      var g1 := ExecOp(g, op);
      SoundAfterOp(g, op);
      if op != DiscardCallback(i) {
        OpStaysFine(g, op, i);
        StaysFine(g1, rest, i);
      } else {
        assert TameOp(i, rest.op) && Tame(i, rest.rest);
        ResumeRevives(g1, rest.op, i);
        SoundAfterOp(g1, rest.op);
        StaysFine(ExecOp(g1, rest.op), rest.rest, i);
      }
    }
  }

  lemma ResumeRevives(g: Shell, op: Op, i: Id)
    requires AllSound(g) && Able(g, i) && TameOp(i, op) && Resumes(i, op)
    ensures Fine(ExecOp(g, op), i)
    decreases op
  {
    if op.Request? {
      RequestRevives(g.surfaces[i], op.kind);
    } else {
      RenderNowRevives(g, i, op.prepare);
    }
  }

  // ----- drains -----

  predicate TameWork(i: Id, w: WorkScripts) {
    Tame(i, w.animation) && Tame(i, w.frameTick) && Tame(i, w.update) && Tame(i, w.prepare)
  }

  lemma FrameHandlerStaysFine(g: Shell, j: Id, scripts: WorkScripts, i: Id)
    requires AllSound(g) && Able(g, i) && j < |g.surfaces| && TameWork(i, scripts)
    ensures AllSound(FrameHandler(g, j, scripts)) && Able(FrameHandler(g, j, scripts), i)
    ensures j != i && Fine(g, i) ==> Fine(FrameHandler(g, j, scripts), i)
  {
    var g0 := Put(g, j, InHandler(g.surfaces[j], true));
    assert AllSound(g0);
    StaysFine(g0, scripts.animation, i);
    SoundAfter(g0, scripts.animation);
    var g1 := Exec(g0, scripts.animation);
    StaysFine(g1, scripts.frameTick, i);
    SoundAfter(g1, scripts.frameTick);
    var ticks := g1.surfaces[j].wiring.hasFrameTick && EnsureRenderTargetReady(g1.surfaces[j]);
    var g2 := if ticks then Exec(g1, scripts.frameTick) else g1;
    StaysFine(g2, scripts.update, i);
    SoundAfter(g2, scripts.update);
  }

  /** Processing the frame work of surface i itself revives it; processing that of another keeps it fine. */
  lemma ProcessStaysFine(g: Shell, j: Id, scripts: WorkScripts, i: Id)
    requires AllSound(g) && Able(g, i) && j < |g.surfaces| && g.surfaces[j].work.up && TameWork(i, scripts)
    requires j != i ==> Fine(g, i)
    ensures Fine(ProcessQueuedFrameWork(g, j, scripts), i)
  {
    var s := g.surfaces[j];
    var g0 := Put(g, j, TakeWork(s));
    assert AllSound(g0);
    if s.wiring.hasSurface && s.phase.configured {
      FrameHandlerStaysFine(g0, j, scripts, i);
      var g1 := if s.ticks.pending then FrameHandler(g0, j, scripts) else g0;
      if j == i {
        PrepareSettles(g1, i, scripts.prepare);
        QueueRenderSettles(Prepare(g1, i, scripts.prepare).surfaces[i]);
      } else {
        PrepareOtherStaysFine(g1, j, scripts.prepare, i);
      }
    }
  }

  lemma RenderQueuedStaysFine(g: Shell, j: Id, prepare: Script, i: Id)
    requires AllSound(g) && Able(g, i) && j < |g.surfaces| && g.surfaces[j].render.up && Tame(i, prepare)
    requires j != i ==> Fine(g, i)
    ensures Fine(RenderQueuedFrame(g, j, prepare), i)
  {
    var s := g.surfaces[j];
    var g0 := Put(g, j, TakeRender(s));
    assert AllSound(g0);
    if s.wiring.hasSurface && s.phase.configured {
      if j == i {
        PrepareSettles(g0, i, prepare);
        RenderSettles(Prepare(g0, i, prepare).surfaces[i]);
      } else {
        PrepareOtherStaysFine(g0, j, prepare, i);
      }
    }
  }

  lemma VisitWorkStaysFine(g: Shell, batch: seq<Id>, k: nat, scripts: seq<WorkScripts>, i: Id)
    requires k <= |batch| && Agree(g, batch[k..], []) && Resting(g)
    requires Fine(g, i) && TameStep(i, DrainWork(scripts))
    ensures Fine(VisitWork(g, batch, k, scripts), i)
    decreases |batch| - k
  {
    if k < |batch| {
      var j := batch[k];
      assert batch[k..] == [j] + batch[k + 1..];
      var g1 := g;
      if j < |g.surfaces| && g.surfaces[j].work.up {
        g1 := ProcessQueuedFrameWork(g, j, WorkScriptsAt(scripts, k));
        ProcessKeeps(g, j, WorkScriptsAt(scripts, k), batch[k + 1..], []);
        ProcessStaysFine(g, j, WorkScriptsAt(scripts, k), i);
      }
      VisitWorkStaysFine(g1, batch, k + 1, scripts, i);
    }
  }

  lemma VisitRendersStaysFine(g: Shell, batch: seq<Id>, k: nat, scripts: seq<Script>, i: Id)
    requires k <= |batch| && Agree(g, [], batch[k..]) && Resting(g)
    requires Fine(g, i) && TameStep(i, DrainRenders(scripts))
    ensures Fine(VisitRenders(g, batch, k, scripts), i)
    decreases |batch| - k
  {
    if k < |batch| {
      var j := batch[k];
      assert batch[k..] == [j] + batch[k + 1..];
      var g1 := g;
      if j < |g.surfaces| && g.surfaces[j].render.up {
        g1 := RenderQueuedFrame(g, j, ScriptAt(scripts, k));
        RenderQueuedKeeps(g, j, ScriptAt(scripts, k), [], batch[k + 1..]);
        RenderQueuedStaysFine(g, j, ScriptAt(scripts, k), i);
      }
      VisitRendersStaysFine(g1, batch, k + 1, scripts, i);
    }
  }

  lemma StepStaysFine(g: Shell, step: Step, i: Id)
    requires Agree(g, [], []) && Resting(g) && Fine(g, i) && TameStep(i, step)
    ensures Fine(ExecStep(g, step), i)
  {
    match step
    case Direct(script) => StaysFine(g, script, i);
    case DrainWork(scripts) => VisitWorkStaysFine(g.(work := []), g.work, 0, scripts, i);
    case DrainRenders(scripts) => VisitRendersStaysFine(g.(renders := []), g.renders, 0, scripts, i);
  }

  lemma {:induction false} RunStaysFine(g: Shell, steps: seq<Step>, i: Id)
    requires Agree(g, [], []) && Resting(g) && Fine(g, i)
    requires forall k :: 0 <= k < |steps| ==> TameStep(i, steps[k])
    ensures Agree(Run(g, steps), [], []) && Resting(Run(g, steps)) && Fine(Run(g, steps), i)
    decreases |steps|
  {
    if steps != [] {
      var before, last := steps[..|steps| - 1], steps[|steps| - 1];
      RunStaysFine(g, before, i);
      StepKeeps(Run(g, before), last);
      StepStaysFine(Run(g, before), last, i);
    }
  }

  // ----- main results -----

  /** The operation, applied to surface i in this shell, is one that a stalled surface recovers with:
      a configure event of a running surface with its target wired up, a request, or renderNow. */
  ghost predicate Starts(g: Shell, op: Op, i: Id) {
    && i < |g.surfaces| && op.id == i && TameOp(i, op)
    && match op
       case Configure(_, sized, _) => sized && Ready(ConfigureStart(g.surfaces[i], true))
       case Request(_, _) => Ready(g.surfaces[i])
       case RenderNow(_, _) => Ready(g.surfaces[i])
       case _ => false
  }

  /** Runs from a start of surface i, after any run at all, keep it fine. */
  lemma StartedRunStaysFine(g: Shell, before: seq<Step>, start: Op, after: seq<Step>, i: Id)
    requires Initial(g) && Starts(Run(g, before), start, i)
    requires forall k :: 0 <= k < |after| ==> TameStep(i, after[k])
    ensures var r := Run(ExecOp(Run(g, before), start), after); Agree(r, [], []) && Resting(r) && Fine(r, i)
  {
    var g1 := Run(g, before);
    RunKeepsQueues(g, before);
    OpKeeps(g1, start, [], []);
    match start {
      case Configure(_, _, onConfigure) => ConfigureRevives(g1, i, onConfigure);
      case Request(_, kind) => RequestRevives(g1.surfaces[i], kind);
      case RenderNow(_, prepare) => RenderNowRevives(g1, i, prepare);
    }
    RunStaysFine(ExecOp(g1, start), after, i);
  }

  /** No lost frame work. After any run at all, and then any number of tame turns of the
      main loop following a start of surface i: if a redraw, or an update or layout
      request made outside its prepare callback, is pending on it, then a frame
      callback is in flight or frame work or a render is queued. */
  lemma NoLostFrameWork(g: Shell, before: seq<Step>, start: Op, after: seq<Step>, i: Id)
    requires Initial(g) && Starts(Run(g, before), start, i)
    requires forall k :: 0 <= k < |after| ==> TameStep(i, after[k])
    ensures Ready(Run(ExecOp(Run(g, before), start), after).surfaces[i])
    ensures !Stalled(Run(ExecOp(Run(g, before), start), after).surfaces[i])
  {
    StartedRunStaysFine(g, before, start, after, i);
  }

  /** Discarding a frame callback, with nothing after it, stalls the surface exactly
      when work is pending that nothing else is queued for. */
  lemma DiscardStallsExactly(s: Surface)
    requires Ready(s) && Sound(s) && Safe(s)
    requires !s.phase.inFrameHandler && !s.phase.inPrepareFrame
    ensures Stalled(DiscardOn(s)) <==>
      s.callback.up && (s.requests.owed || s.requests.redraw) && !s.work.up && !s.render.up
  {
  }

  // ----- targets that are not ready -----

  /** Something is pending and nothing will come back to the surface. */
  predicate Neglected(s: Surface) {
    (s.requests.update || s.requests.layout || s.requests.redraw) && !Live(s)
  }

  /** The render context has no target to draw on. */
  predicate Unready(s: Surface) { s.wiring.hasContext && !s.wiring.targetReady }

  /** A queued render that finds the target not ready leaves every request pending, and
      nothing comes back for them exactly when nothing else was queued or in flight. */
  lemma UnreadyTargetStallsExactly(g: Shell, i: Id, prepare: Script)
    requires i < |g.surfaces| && Unready(g.surfaces[i])
    ensures var s := g.surfaces[i];
      Neglected(RenderQueuedFrame(g, i, prepare).surfaces[i]) <==>
        (s.requests.update || s.requests.layout || s.requests.redraw) && !s.callback.up && !s.work.up
  {
    assert !PrepareRuns(TakeRender(g.surfaces[i]));
  }

  /** So does renderNow, which cancels what is queued as well. */
  lemma UnreadyRenderNowStallsExactly(g: Shell, i: Id, prepare: Script)
    requires i < |g.surfaces| && Unready(g.surfaces[i])
    requires g.surfaces[i].phase.running && g.surfaces[i].phase.configured
    ensures var s := g.surfaces[i];
      Neglected(ExecOp(g, RenderNow(i, prepare)).surfaces[i]) <==>
        (s.requests.update || s.requests.layout || s.requests.redraw) && !s.callback.up
  {
    assert !PrepareRuns(Cancel(g, i).surfaces[i]);
  }

  /** The state in which processing reaches the prepare callback. */
  function BeforePrepare(g: Shell, i: Id, scripts: WorkScripts): Shell
    requires i < |g.surfaces|
  {
    var g0 := Put(g, i, TakeWork(g.surfaces[i]));
    if g.surfaces[i].ticks.pending then FrameHandler(g0, i, scripts) else g0
  }

  /** Frame work whose handlers leave no target ready to draw on leaves an update or layout request
      pending, and nothing comes back for it exactly when no callback is in flight, nothing is
      queued or invalidated then, and no animation obtains a callback. */
  lemma UnreadyWorkStallsExactly(g: Shell, i: Id, scripts: WorkScripts)
    requires i < |g.surfaces| && g.surfaces[i].wiring.hasSurface && g.surfaces[i].phase.configured
    requires var s := BeforePrepare(g, i, scripts).surfaces[i];
      !EnsureRenderTargetReady(s) && (s.requests.update || s.requests.layout)
    ensures var s := BeforePrepare(g, i, scripts).surfaces[i];
      Neglected(ProcessQueuedFrameWork(g, i, scripts).surfaces[i]) <==>
        && !Live(s) && !Invalidated(s)
        && !(s.wiring.animating && s.wiring.hasSurface && s.wiring.frameGranted)
  {
    assert !PrepareRuns(BeforePrepare(g, i, scripts).surfaces[i]);
  }

  // ----- requests made inside the prepare callback -----

  /** The operation, with all it runs, is about other surfaces. */
  predicate Apart(i: Id, op: Op)
    decreases op
  {
    && op.id != i
    && match op
       case RenderNow(_, prepare) => AllApart(i, prepare)
       case Configure(_, _, onConfigure) => AllApart(i, onConfigure)
       case _ => true
  }

  predicate AllApart(i: Id, script: Script)
    decreases script
  {
    script.Then? ==> Apart(i, script.op) && AllApart(i, script.rest)
  }

  /** A request on the surface itself, or a change around it that leaves it able to draw:
      its scene becomes dirty, an animation starts or ends. */
  predicate OwnAsk(i: Id, op: Op) {
    match op
    case Request(j, _) => j == i
    case RequestFrameTick(j) => j == i
    case Rewire(j, running, wiring) => j == i && running && WiredToDraw(wiring)
    case _ => false
  }

  /** The callback asks on its own surface, changes what is around it, and does anything at all
      to the others. */
  predicate Asking(i: Id, script: Script)
    decreases script
  {
    script.Then? ==> (OwnAsk(i, script.op) || Apart(i, script.op)) && Asking(i, script.rest)
  }

  /** It asks for an update or a layout. */
  predicate AsksUpdate(i: Id, script: Script)
    decreases script
  {
    script.Then?
    && ((script.op.Request? && script.op.id == i && script.op.kind != Redraw) || AsksUpdate(i, script.rest))
  }

  predicate AsksRedraw(i: Id, script: Script)
    decreases script
  {
    script.Then? && (script.op == Request(i, Redraw) || AsksRedraw(i, script.rest))
  }

  /** How it leaves the surroundings of the surface. */
  function WiringLeft(i: Id, wiring: Wiring, script: Script): Wiring
    decreases script
  {
    match script
    case Done => wiring
    case Then(op, rest) => WiringLeft(i, if op.Rewire? && op.id == i then op.wiring else wiring, rest)
  }

  lemma ApartKeeps(g: Shell, i: Id, op: Op)
    requires i < |g.surfaces| && Apart(i, op)
    ensures ExecOp(g, op).surfaces[i] == g.surfaces[i]
    decreases op
  {
    if op.id < |g.surfaces| {
      var j := op.id;
      match op
      case RenderNow(_, prepare) =>
        var g0 := Cancel(g, j);
        AllApartKeeps(Put(g0, j, PrepareStart(g0.surfaces[j])), i, prepare);
      case Configure(_, sized, onConfigure) =>
        AllApartKeeps(Put(g, j, ConfigureStart(g.surfaces[j], sized)), i, onConfigure);
      case _ =>
    }
  }

  lemma AllApartKeeps(g: Shell, i: Id, script: Script)
    requires i < |g.surfaces| && AllApart(i, script)
    ensures Exec(g, script).surfaces[i] == g.surfaces[i]
    decreases script
  {
    if script.Then? {
      ApartKeeps(g, i, script.op);
      AllApartKeeps(ExecOp(g, script.op), i, script.rest);
    }
  }

  /** The surface after the callback, while that is still on the stack. */
  predicate Asked(s: Surface, i: Id, script: Script, r: Surface) {
    && r == s.(requests := r.requests, ticks := r.ticks, wiring := WiringLeft(i, s.wiring, script))
    && (r.requests.update || r.requests.layout <==> s.requests.update || s.requests.layout || AsksUpdate(i, script))
    && (r.requests.redraw <==> s.requests.redraw || AsksRedraw(i, script))
    && (WiredToDraw(s.wiring) ==> WiredToDraw(r.wiring))
  }

  /** The surface after one of these operations. */
  predicate OneAsked(s: Surface, i: Id, op: Op, r: Surface) {
    && r == s.(requests := r.requests, ticks := r.ticks,
               wiring := if op.Rewire? && op.id == i then op.wiring else s.wiring)
    && (r.requests.update || r.requests.layout <==>
         s.requests.update || s.requests.layout || (op.Request? && op.id == i && op.kind != Redraw))
    && (r.requests.redraw <==> s.requests.redraw || op == Request(i, Redraw))
  }

  /** A request made on the stack of the callback only sets its flags. */
  lemma RequestAsks(s: Surface, i: Id, kind: RequestKind)
    requires s.phase.inPrepareFrame
    ensures OneAsked(s, i, Request(i, kind), RequestOn(s, kind))
  {
    assert KickBlocked(Flagged(s, kind));
  }

  lemma OneAsks(g: Shell, i: Id, op: Op)
    requires i < |g.surfaces| && g.surfaces[i].phase.inPrepareFrame && g.surfaces[i].phase.running
    requires OwnAsk(i, op) || Apart(i, op)
    ensures OneAsked(g.surfaces[i], i, op, ExecOp(g, op).surfaces[i])
  {
    if !OwnAsk(i, op) {
      ApartKeeps(g, i, op);
      assert ExecOp(g, op).surfaces[i] == g.surfaces[i];
    } else if op.Request? {
      RequestAsks(g.surfaces[i], i, op.kind);
      assert ExecOp(g, op).surfaces[i] == RequestOn(g.surfaces[i], op.kind);
    } else if op.RequestFrameTick? {
      assert ExecOp(g, op).surfaces[i] == RequestFrameTickOn(g.surfaces[i]);
    } else {
      assert ExecOp(g, op).surfaces[i] == Rewired(g.surfaces[i], true, op.wiring);
    }
  }

  lemma {:induction false} AskingAsks(g: Shell, i: Id, script: Script)
    requires i < |g.surfaces| && g.surfaces[i].phase.inPrepareFrame && g.surfaces[i].phase.running
    requires Asking(i, script)
    ensures Asked(g.surfaces[i], i, script, Exec(g, script).surfaces[i])
    decreases script
  {
    if script.Then? {
      OneAsks(g, i, script.op);
      AskingAsks(ExecOp(g, script.op), i, script.rest);
    }
  }

  /** The callback runs on a surface that can draw and has something requested. */
  predicate PrepareDue(s: Surface) { Ready(s) && (s.requests.update || s.requests.layout) }

  /** What the code after the prepare callback finds. */
  lemma PrepareAsking(g: Shell, i: Id, script: Script)
    requires i < |g.surfaces| && PrepareDue(g.surfaces[i]) && Asking(i, script)
    ensures var s, r := g.surfaces[i], Prepare(g, i, script).surfaces[i];
      && r == s.(requests := r.requests, ticks := r.ticks, phase := r.phase, wiring := WiringLeft(i, s.wiring, script))
      && Ready(r)
      && (r.requests.update || r.requests.layout <==> AsksUpdate(i, script))
      && (r.requests.redraw <==> s.requests.redraw || AsksRedraw(i, script))
  {
    AskingAsks(Put(g, i, PrepareStart(g.surfaces[i])), i, script);
  }

  /** While frame work is processed, requests made inside the prepare callback are neglected
      exactly when one is for an update or a layout, no callback is in flight, no work or
      render is queued, the callback leaves nothing invalidated, and no animation it leaves
      obtains a callback. */
  lemma ProcessNeglectsExactly(g: Shell, i: Id, scripts: WorkScripts)
    requires Able(g, i)
    requires PrepareDue(BeforePrepare(g, i, scripts).surfaces[i]) && Asking(i, scripts.prepare)
    ensures var s := BeforePrepare(g, i, scripts).surfaces[i];
      var left := WiringLeft(i, s.wiring, scripts.prepare);
      Neglected(ProcessQueuedFrameWork(g, i, scripts).surfaces[i]) <==>
        && AsksUpdate(i, scripts.prepare) && !Live(s)
        && !s.requests.redraw && !AsksRedraw(i, scripts.prepare) && !left.sceneDirty
        && !(left.animating && left.frameGranted)
  {
    PrepareAsking(BeforePrepare(g, i, scripts), i, scripts.prepare);
  }

  /** In renderNow, which cancels what is queued and renders, they are neglected exactly when
      one is for an update or a layout, no callback is in flight and none is obtained. */
  lemma RenderNowNeglectsExactly(g: Shell, i: Id, prepare: Script)
    requires i < |g.surfaces| && PrepareDue(g.surfaces[i]) && Asking(i, prepare)
    ensures var s := g.surfaces[i];
      Neglected(ExecOp(g, RenderNow(i, prepare)).surfaces[i]) <==>
        AsksUpdate(i, prepare) && !s.callback.up && !WiringLeft(i, s.wiring, prepare).frameGranted
  {
    PrepareAsking(Cancel(g, i), i, prepare);
  }

  /** In a queued render they are neglected exactly when one is for an update or a layout, no
      callback is in flight, no work is queued, and the render asks for no callback or
      obtains none. */
  lemma RenderQueuedNeglectsExactly(g: Shell, i: Id, prepare: Script)
    requires i < |g.surfaces| && PrepareDue(g.surfaces[i]) && Asking(i, prepare)
    ensures var s := g.surfaces[i];
      var left := WiringLeft(i, s.wiring, prepare);
      Neglected(RenderQueuedFrame(g, i, prepare).surfaces[i]) <==>
        && AsksUpdate(i, prepare) && !s.callback.up && !s.work.up
        && !((s.requests.redraw || AsksRedraw(i, prepare) || left.sceneDirty) && left.frameGranted)
  {
    PrepareAsking(Put(g, i, TakeRender(g.surfaces[i])), i, prepare);
  }

  /** One surface that can draw, with an update to process and nothing else going on. */
  function IdleSurface(): Surface {
    Surface(
      Requests(true, true, false, true), Ticks(false, false, false, false, 0), Phase(true, true, false, false),
      Flag(true, 1, 0, 0), Flag(false, 0, 0, 0), Flag(false, 0, 0, 0),
      Wiring(true, true, true, true, true, false, true, false, false))
  }

  /** The excluded case does happen: the drain runs, the request made inside the
      prepare callback is pending, and nothing will come back to the surface. */
  lemma RequestInsidePrepareCanStall()
    ensures var inside := Then(Request(0, UpdateOnly), Done);
      var work := DrainWork([WorkScripts(Done, Done, Done, inside)]);
      var r := ExecStep(Shell([IdleSurface()], [0], []), work).surfaces[0];
      Ready(r) && Neglected(r)
  {
    var scripts := [WorkScripts(Done, Done, Done, Then(Request(0, UpdateOnly), Done))];
    var g := Shell([IdleSurface()], [], []);
    assert AllSound(g);
    ProcessNeglectsExactly(g, 0, scripts[0]);
    ProcessStaysFine(g, 0, scripts[0], 0);
    var g1 := ProcessQueuedFrameWork(g, 0, scripts[0]);
    assert VisitWork(g, [0], 0, scripts) == VisitWork(g1, [0], 1, scripts) == g1;
  }
}
