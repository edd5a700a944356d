/** Frame ticks and animations: a tick that was asked for is not forgotten before a frame
    handler has run for it, something comes back for it, and a done event that finds one
    due leads to the frame handler. */
module FrameTicks {
  import opened FrameModel
  import opened FrameQueues
  import opened FrameProgress

  // ----- what is kept of a tick -----

  /** A tick is noted: for the next frame callback, in the one in flight, or for the next work. */
  predicate Noted(s: Surface) { s.ticks.next || (s.ticks.inFlight && s.callback.up) || s.ticks.pending }

  /** A frame handler has run since, or queued work was cancelled. */
  predicate Over(s: Surface, r: Surface) {
    r.ticks.handled > s.ticks.handled || r.work.cancelled > s.work.cancelled
  }

  /** Until that, a noted tick stays noted and an owed one owed. */
  predicate Notes(s: Surface, r: Surface) {
    Over(s, r) || ((Noted(s) ==> Noted(r)) && (s.ticks.owed ==> r.ticks.owed))
  }

  /** The next frame work will run the frame handler for the tick owed. */
  predicate Pending(s: Surface) { s.ticks.owed ==> s.ticks.pending }

  /** And that work is queued, or will be: by a frame callback in flight, or by a redraw, which
      asks for one when it is rendered. */
  predicate Coming(s: Surface) {
    s.ticks.owed ==>
      && s.ticks.pending
      && (s.callback.up || s.work.up || (s.requests.redraw && (s.render.up || s.phase.inPrepareFrame)))
  }

  /** Able to draw, and granted a frame callback whenever it asks. */
  predicate Granted(s: Surface) { Ready(s) && s.wiring.frameGranted }

  predicate GrantsOp(i: Id, op: Op)
    decreases op
  {
    match op
    case Rewire(j, _, wiring) => j == i ==> wiring.frameGranted
    case RenderNow(_, prepare) => Grants(i, prepare)
    case Configure(_, _, onConfigure) => Grants(i, onConfigure)
    case _ => true
  }

  /** Surface i goes on being granted frame callbacks. */
  predicate Grants(i: Id, script: Script)
    decreases script
  {
    script.Then? ==> GrantsOp(i, script.op) && Grants(i, script.rest)
  }

  /** After a discard of its frame callback, the surface is asked to draw. */
  predicate Redraws(i: Id, script: Script)
    decreases script
  {
    script.Then? ==>
      && RedrawsOp(i, script.op) && Redraws(i, script.rest)
      && (script.op == DiscardCallback(i) ==>
           && script.rest.Then?
           && (script.rest.op == Request(i, Redraw) || (script.rest.op.RenderNow? && script.rest.op.id == i)))
  }

  predicate RedrawsOp(i: Id, op: Op)
    decreases op
  {
    match op
    case RenderNow(_, prepare) => Redraws(i, prepare)
    case Configure(_, _, onConfigure) => Redraws(i, onConfigure)
    case _ => true
  }

  predicate Fair(i: Id, script: Script) { Tame(i, script) && Grants(i, script) }

  lemma FairRest(i: Id, script: Script)
    requires Fair(i, script) && script.Then?
    ensures TameOp(i, script.op) && GrantsOp(i, script.op) && Fair(i, script.rest)
    ensures script.op == DiscardCallback(i) ==> script.rest.Then? && Resumes(i, script.rest.op)
  {
    assert Tame(i, script) && Grants(i, script);
  }

  /** Inside the frame handler no tick is owed: what is asked for there is for the handler. */
  predicate HandlerOwesNone(s: Surface) { s.phase.inFrameHandler ==> !s.ticks.owed }

  /** What a turn keeps of the ticks of a surface. */
  predicate Carries(s: Surface, r: Surface) {
    && Granted(r) && Notes(s, r) && HandlerOwesNone(r)
    && (Pending(s) ==> Pending(r))
    && (Coming(s) ==> Coming(r))
  }

  // ----- steps of one surface -----

  lemma RequestCarries(s: Surface, kind: RequestKind)
    requires Granted(s) && HandlerOwesNone(s)
    ensures Carries(s, RequestOn(s, kind))
    ensures Pending(s) && (s.phase.inPrepareFrame ==> kind == Redraw) ==> Coming(RequestOn(s, kind))
  {
    var f := Flagged(s, kind);
    if KickBlocked(f) {
    } else if f.requests.update || f.requests.layout {
    } else {
    }
  }

  lemma FrameTickCarries(s: Surface)
    requires Granted(s) && HandlerOwesNone(s)
    ensures Carries(s, RequestFrameTickOn(s))
  {
  }

  lemma FrameDoneCarries(s: Surface)
    requires Granted(s) && HandlerOwesNone(s) && s.callback.up
    ensures Carries(s, FrameDoneOn(s))
  {
  }

  /** A discard carries the tick of the callback over, but nothing comes back by itself. */
  lemma DiscardCarries(s: Surface)
    requires Granted(s) && HandlerOwesNone(s)
    ensures var r := DiscardOn(s);
      Granted(r) && HandlerOwesNone(r) && Notes(s, r) && (Pending(s) ==> Pending(r))
  {
  }

  lemma RenderCarries(s: Surface)
    requires Granted(s) && HandlerOwesNone(s)
    ensures Carries(s, RenderOn(s)) && (Pending(s) ==> Coming(RenderOn(s)))
  {
  }

  // ----- steps of the shell -----

  ghost predicate Steady(g: Shell, i: Id) {
    AllSound(g) && i < |g.surfaces| && Granted(g.surfaces[i]) && HandlerOwesNone(g.surfaces[i])
  }

  /** Carries, where a coming tick needs `firm`. */
  ghost predicate CarriesAt(g: Shell, r: Shell, i: Id, firm: bool) {
    && Steady(g, i) && Steady(r, i)
    && Notes(g.surfaces[i], r.surfaces[i])
    && (Pending(g.surfaces[i]) ==> Pending(r.surfaces[i]))
    && (firm && Coming(g.surfaces[i]) ==> Coming(r.surfaces[i]))
  }

  lemma CarriesTwice(g: Shell, m: Shell, r: Shell, i: Id, firm: bool)
    requires CarriesAt(g, m, i, firm) && CarriesAt(m, r, i, firm)
    requires Later(g.surfaces[i], m.surfaces[i]) && Later(m.surfaces[i], r.surfaces[i])
    ensures CarriesAt(g, r, i, firm)
  {
  }

  /** Inside the surface's own prepare callback discards must be followed by drawing. */
  predicate Firm(s: Surface, i: Id, script: Script) { s.phase.inPrepareFrame ==> Redraws(i, script) }

  predicate FirmOp(s: Surface, i: Id, op: Op) { s.phase.inPrepareFrame ==> RedrawsOp(i, op) }

  lemma FirmRest(s: Surface, r: Surface, i: Id, script: Script)
    requires Firm(s, i, script) && script.Then? && (r.phase.inPrepareFrame ==> s.phase.inPrepareFrame)
    ensures FirmOp(s, i, script.op) && Firm(r, i, script.rest)
    ensures s.phase.inPrepareFrame && script.op == DiscardCallback(i) ==>
      script.rest.Then? && (script.rest.op == Request(i, Redraw) || script.rest.op.RenderNow?)
  {
  }

  /** Up to the code after the callback, which draws if a redraw is wanted. */
  predicate Drawn(s: Surface) {
    s.ticks.owed ==> s.ticks.pending && (s.callback.up || s.work.up || s.requests.redraw)
  }

  lemma PrepareCarries(g: Shell, i: Id, prepare: Script)
    requires Steady(g, i) && Fair(i, prepare)
    ensures var s, r := g.surfaces[i], Prepare(g, i, prepare).surfaces[i];
      && Steady(Prepare(g, i, prepare), i) && Later(s, r) && Notes(s, r)
      && (Pending(s) ==> Pending(r))
      && (Redraws(i, prepare) && Drawn(s) ==> Drawn(r))
    decreases prepare, 1
  {
    var s := g.surfaces[i];
    PrepareSettles(g, i, prepare);
    var all := AllIds(|g.surfaces|);
    PrepareKeeps(g, i, prepare, all, all);
    if PrepareRuns(s) {
      var g0 := Put(g, i, PrepareStart(s));
      assert AllSound(g0);
      ScriptCarries(g0, prepare, i);
    }
  }

  lemma PrepareOtherCarries(g: Shell, j: Id, prepare: Script, i: Id)
    requires Steady(g, i) && j < |g.surfaces| && j != i && Fair(i, prepare)
    ensures CarriesAt(g, Prepare(g, j, prepare), i, Firm(g.surfaces[i], i, prepare))
    ensures Later(g.surfaces[i], Prepare(g, j, prepare).surfaces[i])
    decreases prepare, 1
  {
    var s := g.surfaces[j];
    var all := AllIds(|g.surfaces|);
    PrepareKeeps(g, j, prepare, all, all);
    if PrepareRuns(s) {
      var g0 := Put(g, j, PrepareStart(s));
      assert AllSound(g0);
      ScriptCarries(g0, prepare, i);
    }
  }

  lemma CancelCarries(g: Shell, j: Id, i: Id)
    requires Steady(g, i) && j < |g.surfaces|
    ensures var s, r := g.surfaces[i], Cancel(g, j).surfaces[i];
      && Steady(Cancel(g, j), i) && Later(s, r) && Notes(s, r) && (Pending(s) ==> Pending(r))
      && (j != i ==> r == s)
  {
    assert AllSound(Cancel(g, j));
  }

  lemma RenderNowSelfCarries(g: Shell, i: Id, prepare: Script)
    requires Steady(g, i) && Fair(i, prepare)
    ensures var r := ExecOp(g, RenderNow(i, prepare));
      CarriesAt(g, r, i, true) && (Pending(g.surfaces[i]) ==> Coming(r.surfaces[i]))
    decreases prepare, 2
  {
    SoundAfterOp(g, RenderNow(i, prepare));
    CancelCarries(g, i, i);
    PrepareCarries(Cancel(g, i), i, prepare);
    RenderCarries(Prepare(Cancel(g, i), i, prepare).surfaces[i]);
  }

  lemma RenderNowOtherCarries(g: Shell, j: Id, prepare: Script, i: Id)
    requires Steady(g, i) && j < |g.surfaces| && j != i && Fair(i, prepare)
    ensures CarriesAt(g, ExecOp(g, RenderNow(j, prepare)), i, Firm(g.surfaces[i], i, prepare))
    decreases prepare, 2
  {
    SoundAfterOp(g, RenderNow(j, prepare));
    CancelCarries(g, j, i);
    PrepareOtherCarries(Cancel(g, j), j, prepare, i);
  }

  lemma ConfigureCarries(g: Shell, j: Id, sized: bool, onConfigure: Script, i: Id)
    requires Steady(g, i) && j < |g.surfaces| && (j == i ==> sized) && Fair(i, onConfigure)
    ensures CarriesAt(g, ExecOp(g, Configure(j, sized, onConfigure)), i, Firm(g.surfaces[i], i, onConfigure))
    decreases onConfigure, 2
  {
    SoundAfterOp(g, Configure(j, sized, onConfigure));
    var g0 := Put(g, j, ConfigureStart(g.surfaces[j], sized));
    assert AllSound(g0);
    ScriptCarries(g0, onConfigure, i);
  }

  lemma OpCarries(g: Shell, op: Op, i: Id)
    requires Steady(g, i) && TameOp(i, op) && GrantsOp(i, op) && op != DiscardCallback(i)
    ensures CarriesAt(g, ExecOp(g, op), i, FirmOp(g.surfaces[i], i, op))
    decreases op
  {
    SoundAfterOp(g, op);
    if op.id < |g.surfaces| {
      match op
      case Request(j, kind) => if j == i { RequestCarries(g.surfaces[i], kind); }
      case RequestFrameTick(_) => FrameTickCarries(g.surfaces[i]);
      case FrameDone(_) => if g.surfaces[i].callback.up { FrameDoneCarries(g.surfaces[i]); }
      case RenderNow(j, prepare) =>
        if j == i {
          RenderNowSelfCarries(g, i, prepare);
        } else {
          RenderNowOtherCarries(g, j, prepare, i);
        }
      case Configure(j, sized, onConfigure) => ConfigureCarries(g, j, sized, onConfigure, i);
      case _ =>
    }
  }

  /** A discard and the request or renderNow after it. */
  lemma DiscardAndResumeCarries(g: Shell, op: Op, i: Id)
    requires Steady(g, i) && TameOp(i, op) && GrantsOp(i, op) && Resumes(i, op)
    ensures var m := ExecOp(g, DiscardCallback(i));
      && Steady(m, i) && Later(g.surfaces[i], m.surfaces[i]) && Later(m.surfaces[i], ExecOp(m, op).surfaces[i])
      && CarriesAt(g, ExecOp(m, op), i,
                   g.surfaces[i].phase.inPrepareFrame ==> op == Request(i, Redraw) || op.RenderNow?)
    decreases op
  {
    var m := ExecOp(g, DiscardCallback(i));
    SoundAfterOp(g, DiscardCallback(i));
    SoundAfterOp(m, op);
    DiscardCarries(g.surfaces[i]);
    if op.Request? {
      RequestCarries(m.surfaces[i], op.kind);
    } else {
      RenderNowSelfCarries(m, i, op.prepare);
    }
  }

  lemma {:induction false} ScriptCarries(g: Shell, script: Script, i: Id)
    requires Steady(g, i) && Fair(i, script)
    ensures CarriesAt(g, Exec(g, script), i, Firm(g.surfaces[i], i, script))
    ensures Later(g.surfaces[i], Exec(g, script).surfaces[i])
    decreases script, 0
  {
    if script.Then? {
      var op, rest := script.op, script.rest;
      var firm := Firm(g.surfaces[i], i, script);
      FairRest(i, script);
      SoundAfterOp(g, op);
      SoundAfter(g, script);
      if op != DiscardCallback(i) {
        var g1 := ExecOp(g, op);
        OpCarries(g, op, i);
        if firm {
          FirmRest(g.surfaces[i], g1.surfaces[i], i, script);
        }
        ScriptCarries(g1, rest, i);
        CarriesTwice(g, g1, Exec(g, script), i, firm);
      } else {
        FairRest(i, rest);
        DiscardAndResumeCarries(g, rest.op, i);
        var g1 := ExecOp(g, op);
        var g2 := ExecOp(g1, rest.op);
        if firm {
          FirmRest(g.surfaces[i], g1.surfaces[i], i, script);
          FirmRest(g1.surfaces[i], g2.surfaces[i], i, rest);
        }
        ScriptCarries(g2, rest.rest, i);
        CarriesTwice(g, g2, Exec(g, script), i, firm);
      }
    }
  }

  // ----- drains -----

  predicate FairWork(i: Id, w: WorkScripts) {
    Fair(i, w.animation) && Fair(i, w.frameTick) && Fair(i, w.update) && Fair(i, w.prepare) && Redraws(i, w.prepare)
  }

  /** The state inside the frame handler after its callbacks. */
  function Handled(g: Shell, j: Id, scripts: WorkScripts): (r: Shell)
    requires j < |g.surfaces|
    ensures |r.surfaces| == |g.surfaces|
  {
    var g1 := Exec(Put(g, j, InHandler(g.surfaces[j], true)), scripts.animation);
    var ticks := g1.surfaces[j].wiring.hasFrameTick && EnsureRenderTargetReady(g1.surfaces[j]);
    Exec(if ticks then Exec(g1, scripts.frameTick) else g1, scripts.update)
  }

  /** The callbacks of the frame handler, one after the other. */
  lemma HandledCarries(g: Shell, j: Id, scripts: WorkScripts, i: Id)
    requires j < |g.surfaces| && Steady(Put(g, j, InHandler(g.surfaces[j], true)), i) && FairWork(i, scripts)
    ensures var g0 := Put(g, j, InHandler(g.surfaces[j], true));
      && CarriesAt(g0, Handled(g, j, scripts), i, !g0.surfaces[i].phase.inPrepareFrame)
      && Later(g0.surfaces[i], Handled(g, j, scripts).surfaces[i])
  {
    var g0 := Put(g, j, InHandler(g.surfaces[j], true));
    var firm := !g0.surfaces[i].phase.inPrepareFrame;
    var g1 := Exec(g0, scripts.animation);
    ScriptCarries(g0, scripts.animation, i);
    var ticks := g1.surfaces[j].wiring.hasFrameTick && EnsureRenderTargetReady(g1.surfaces[j]);
    var g2 := if ticks then Exec(g1, scripts.frameTick) else g1;
    if ticks {
      ScriptCarriesOn(g0, g1, scripts.frameTick, i);
    }
    ScriptCarriesOn(g0, g2, scripts.update, i);
  }

  lemma ScriptCarriesOn(g0: Shell, g: Shell, script: Script, i: Id)
    requires Steady(g, i) && Fair(i, script) && i < |g0.surfaces|
    requires CarriesAt(g0, g, i, !g0.surfaces[i].phase.inPrepareFrame) && Later(g0.surfaces[i], g.surfaces[i])
    ensures CarriesAt(g0, Exec(g, script), i, !g0.surfaces[i].phase.inPrepareFrame)
    ensures Later(g0.surfaces[i], Exec(g, script).surfaces[i])
  {
    ScriptCarries(g, script, i);
    CarriesTwice(g0, g, Exec(g, script), i, !g0.surfaces[i].phase.inPrepareFrame);
  }

  lemma HandlerOtherCarries(g: Shell, j: Id, scripts: WorkScripts, i: Id)
    requires Steady(g, i) && j < |g.surfaces| && j != i && FairWork(i, scripts)
    requires !g.surfaces[i].phase.inPrepareFrame
    ensures CarriesAt(g, FrameHandler(g, j, scripts), i, true)
    ensures Later(g.surfaces[i], FrameHandler(g, j, scripts).surfaces[i])
  {
    assert AllSound(Put(g, j, InHandler(g.surfaces[j], true)));
    HandledCarries(g, j, scripts, i);
    var r := Handled(g, j, scripts);
    assert AllSound(Put(r, j, InHandler(r.surfaces[j], false)));
  }

  /** After its own frame handler a surface owes no tick any more. */
  lemma HandlerSelfCarries(g: Shell, i: Id, scripts: WorkScripts)
    requires AllSound(g) && i < |g.surfaces| && Granted(g.surfaces[i]) && FairWork(i, scripts)
    ensures var r := FrameHandler(g, i, scripts);
      && Steady(r, i) && !r.surfaces[i].ticks.owed
      && r.surfaces[i].ticks.handled > g.surfaces[i].ticks.handled
  {
    var g0 := Put(g, i, InHandler(g.surfaces[i], true));
    assert AllSound(g0);
    HandledCarries(g, i, scripts, i);
    var r := Handled(g, i, scripts);
    assert AllSound(Put(r, i, InHandler(r.surfaces[i], false)));
  }

  /** Whether or not the handler runs, frame work of the surface itself. */
  lemma ProcessSelfCarries(g: Shell, i: Id, scripts: WorkScripts)
    requires Steady(g, i) && g.surfaces[i].work.up && FairWork(i, scripts)
    requires !g.surfaces[i].phase.inFrameHandler && Pending(g.surfaces[i])
    ensures var r := ProcessQueuedFrameWork(g, i, scripts);
      CarriesAt(g, r, i, true) && Coming(r.surfaces[i])
    ensures g.surfaces[i].ticks.pending ==>
      ProcessQueuedFrameWork(g, i, scripts).surfaces[i].ticks.handled > g.surfaces[i].ticks.handled
  {
    var s := g.surfaces[i];
    var all := AllIds(|g.surfaces|);
    var g0 := Put(g, i, TakeWork(s));
    assert AllSound(g0);
    var g1 := if s.ticks.pending then FrameHandler(g0, i, scripts) else g0;
    if s.ticks.pending {
      HandlerSelfCarries(g0, i, scripts);
    }
    PrepareCarries(g1, i, scripts.prepare);
    QueueRenderCarries(Prepare(g1, i, scripts.prepare).surfaces[i]);
    ProcessKeeps(g, i, scripts, all, all);
  }

  lemma QueueRenderCarries(s: Surface)
    requires Granted(s) && HandlerOwesNone(s)
    ensures var r := QueueRenderIfNeeded(s);
      Granted(r) && HandlerOwesNone(r) && Notes(s, r) && (Pending(s) ==> Pending(r)) && (Drawn(s) ==> Coming(r))
    ensures QueueRenderIfNeeded(s).ticks.handled == s.ticks.handled
  {
  }

  lemma ProcessOtherCarries(g: Shell, j: Id, scripts: WorkScripts, i: Id)
    requires Steady(g, i) && j < |g.surfaces| && j != i && g.surfaces[j].work.up && FairWork(i, scripts)
    requires !g.surfaces[i].phase.inPrepareFrame && !g.surfaces[j].phase.inFrameHandler
    ensures CarriesAt(g, ProcessQueuedFrameWork(g, j, scripts), i, true)
  {
    var s := g.surfaces[j];
    var all := AllIds(|g.surfaces|);
    var g0 := Put(g, j, TakeWork(s));
    assert AllSound(g0);
    ProcessKeeps(g, j, scripts, all, all);
    if s.wiring.hasSurface && s.phase.configured {
      var g1 := if s.ticks.pending then FrameHandler(g0, j, scripts) else g0;
      HandlerOtherCarries(g0, j, scripts, i);
      PrepareOtherCarries(g1, j, scripts.prepare, i);
      CarriesTwice(g0, g1, Prepare(g1, j, scripts.prepare), i, true);
    }
  }

  lemma RenderQueuedSelfCarries(g: Shell, i: Id, prepare: Script)
    requires Steady(g, i) && g.surfaces[i].render.up && Fair(i, prepare) && Redraws(i, prepare)
    ensures CarriesAt(g, RenderQueuedFrame(g, i, prepare), i, !g.surfaces[i].phase.inPrepareFrame)
  {
    var s := g.surfaces[i];
    var all := AllIds(|g.surfaces|);
    var g0 := Put(g, i, TakeRender(s));
    assert AllSound(g0);
    PrepareCarries(g0, i, prepare);
    RenderIfInvalidatedCarries(Prepare(g0, i, prepare).surfaces[i]);
    RenderQueuedKeeps(g, i, prepare, all, all);
  }

  lemma RenderIfInvalidatedCarries(s: Surface)
    requires Granted(s) && HandlerOwesNone(s)
    ensures var r := if Invalidated(s) then RenderOn(s) else s;
      Granted(r) && HandlerOwesNone(r) && Notes(s, r) && (Pending(s) ==> Pending(r)) && (Drawn(s) ==> Coming(r))
  {
    RenderCarries(s);
  }

  lemma RenderQueuedOtherCarries(g: Shell, j: Id, prepare: Script, i: Id)
    requires Steady(g, i) && j < |g.surfaces| && j != i && g.surfaces[j].render.up && Fair(i, prepare)
    requires !g.surfaces[i].phase.inPrepareFrame
    ensures CarriesAt(g, RenderQueuedFrame(g, j, prepare), i, true)
  {
    var all := AllIds(|g.surfaces|);
    var g0 := Put(g, j, TakeRender(g.surfaces[j]));
    assert AllSound(g0);
    PrepareOtherCarries(g0, j, prepare, i);
    RenderQueuedKeeps(g, j, prepare, all, all);
  }

  predicate FairStep(i: Id, step: Step) {
    match step
    case Direct(script) => Fair(i, script)
    case DrainWork(work) => forall k :: 0 <= k < |work| ==> FairWork(i, work[k])
    case DrainRenders(prepares) => forall k :: 0 <= k < |prepares| ==> Fair(i, prepares[k]) && Redraws(i, prepares[k])
  }

  /** Between turns: no handler on the stack, and what is owed is coming. */
  ghost predicate AtRest(g: Shell, i: Id) { Resting(g) && Steady(g, i) && Coming(g.surfaces[i]) }

  lemma ProcessCarries(g: Shell, j: Id, scripts: WorkScripts, i: Id)
    requires AtRest(g, i) && j < |g.surfaces| && g.surfaces[j].work.up && FairWork(i, scripts)
    ensures CarriesAt(g, ProcessQueuedFrameWork(g, j, scripts), i, true)
  {
    if j == i {
      ProcessSelfCarries(g, i, scripts);
    } else {
      ProcessOtherCarries(g, j, scripts, i);
    }
  }

  lemma VisitWorkCarries(g: Shell, batch: seq<Id>, k: nat, scripts: seq<WorkScripts>, i: Id)
    requires k <= |batch| && Agree(g, batch[k..], []) && AtRest(g, i) && FairStep(i, DrainWork(scripts))
    ensures var r := VisitWork(g, batch, k, scripts);
      CarriesAt(g, r, i, true) && Later(g.surfaces[i], r.surfaces[i]) && AtRest(r, i)
    decreases |batch| - k
  {
    VisitWorkKeeps(g, batch, k, scripts);
    if k < |batch| {
      var j, w := batch[k], WorkScriptsAt(scripts, k);
      assert batch[k..] == [j] + batch[k + 1..];
      var g1 := g;
      if j < |g.surfaces| && g.surfaces[j].work.up {
        g1 := ProcessQueuedFrameWork(g, j, w);
        ProcessKeeps(g, j, w, batch[k + 1..], []);
        ProcessCarries(g, j, w, i);
      }
      VisitWorkCarries(g1, batch, k + 1, scripts, i);
      CarriesTwice(g, g1, VisitWork(g, batch, k, scripts), i, true);
    }
  }

  lemma VisitRendersCarries(g: Shell, batch: seq<Id>, k: nat, scripts: seq<Script>, i: Id)
    requires k <= |batch| && Agree(g, [], batch[k..]) && AtRest(g, i) && FairStep(i, DrainRenders(scripts))
    ensures var r := VisitRenders(g, batch, k, scripts);
      CarriesAt(g, r, i, true) && Later(g.surfaces[i], r.surfaces[i]) && AtRest(r, i)
    decreases |batch| - k
  {
    VisitRendersKeeps(g, batch, k, scripts);
    if k < |batch| {
      var j, prepare := batch[k], ScriptAt(scripts, k);
      assert batch[k..] == [j] + batch[k + 1..];
      var g1 := g;
      if j < |g.surfaces| && g.surfaces[j].render.up {
        g1 := RenderQueuedFrame(g, j, prepare);
        RenderQueuedKeeps(g, j, prepare, [], batch[k + 1..]);
        if j == i {
          RenderQueuedSelfCarries(g, i, prepare);
        } else {
          RenderQueuedOtherCarries(g, j, prepare, i);
        }
      }
      VisitRendersCarries(g1, batch, k + 1, scripts, i);
      CarriesTwice(g, g1, VisitRenders(g, batch, k, scripts), i, true);
    }
  }

  lemma StepCarries(g: Shell, step: Step, i: Id)
    requires Agree(g, [], []) && AtRest(g, i) && FairStep(i, step)
    ensures var r := ExecStep(g, step);
      CarriesAt(g, r, i, true) && Later(g.surfaces[i], r.surfaces[i]) && AtRest(r, i)
  {
    StepKeeps(g, step);
    match step
    case Direct(script) => ScriptCarries(g, script, i);
    case DrainWork(scripts) => VisitWorkCarries(g.(work := []), g.work, 0, scripts, i);
    case DrainRenders(scripts) => VisitRendersCarries(g.(renders := []), g.renders, 0, scripts, i);
  }

  lemma {:induction false} RunCarries(g: Shell, steps: seq<Step>, i: Id)
    requires Agree(g, [], []) && AtRest(g, i)
    requires forall k :: 0 <= k < |steps| ==> FairStep(i, steps[k])
    ensures var r := Run(g, steps);
      Agree(r, [], []) && AtRest(r, i) && CarriesAt(g, r, i, true) && Later(g.surfaces[i], r.surfaces[i])
    decreases |steps|
  {
    if steps != [] {
      var before, last := steps[..|steps| - 1], steps[|steps| - 1];
      RunCarries(g, before, i);
      StepKeeps(Run(g, before), last);
      StepCarries(Run(g, before), last, i);
      CarriesTwice(g, Run(g, before), Run(g, steps), i, true);
    }
  }

  // ----- main results: ticks -----

  /** Asking for a tick outside the handlers makes it owed, and its frame work is coming at once;
      a redraw asked for while a frame-tick callback is set notes one for the next frame. */
  lemma TickIsOwed(s: Surface)
    requires Ready(s)
    ensures !s.phase.inFrameHandler && !s.phase.inPrepareFrame ==>
      var r := RequestFrameTickOn(s); r.ticks.owed && r.ticks.pending && (r.callback.up || r.work.up)
    ensures s.wiring.hasFrameTick ==> Noted(RequestOn(s, Redraw))
  {
  }

  /** The state of a run from start-up after a start of surface i. */
  ghost function Started(g: Shell, before: seq<Step>, start: Op, after: seq<Step>): Shell {
    Run(ExecOp(Run(g, before), start), after)
  }

  lemma StartedRests(g: Shell, before: seq<Step>, start: Op, i: Id)
    requires Initial(g) && Starts(Run(g, before), start, i)
    ensures var r := ExecOp(Run(g, before), start); Agree(r, [], []) && Resting(r)
  {
    StartedRunStaysFine(g, before, start, [], i);
  }

  /** No lost tick. After a start of surface i, at the end of any number of turns that keep it
      able to draw and granted frame callbacks: if a tick asked for outside the handlers is still
      owed, by no frame handler having run and no queued work having been cancelled since, then
      it is noted for the next frame work, and a frame callback is in flight or that work is
      queued, or a redraw is, which asks for a callback. */
  lemma NoLostTick(g: Shell, before: seq<Step>, start: Op, after: seq<Step>, i: Id)
    requires Initial(g) && Starts(Run(g, before), start, i)
    requires var s := ExecOp(Run(g, before), start).surfaces[i]; Granted(s) && Coming(s)
    requires forall k :: 0 <= k < |after| ==> FairStep(i, after[k])
    ensures var s := Started(g, before, start, after).surfaces[i];
      s.ticks.owed ==>
        s.ticks.pending && (s.callback.up || s.work.up || (s.requests.redraw && s.render.up))
  {
    StartedRests(g, before, start, i);
    RunCarries(ExecOp(Run(g, before), start), after, i);
  }

  /** No tick is forgotten: in such runs what is noted, for a redraw or for a tick, stays noted
      until a frame handler has run or queued work was cancelled, and so does what is owed. */
  lemma NoForgottenTick(g: Shell, before: seq<Step>, start: Op, middle: seq<Step>, after: seq<Step>, i: Id)
    requires Initial(g) && Starts(Run(g, before), start, i)
    requires var s := ExecOp(Run(g, before), start).surfaces[i]; Granted(s) && Coming(s)
    requires forall k :: 0 <= k < |middle| ==> FairStep(i, middle[k])
    requires forall k :: 0 <= k < |after| ==> FairStep(i, after[k])
    ensures var m := Started(g, before, start, middle);
      var s, r := m.surfaces[i], Run(m, after).surfaces[i];
      Over(s, r) || ((Noted(s) ==> Noted(r)) && (s.ticks.owed ==> r.ticks.owed))
  {
    StartedRests(g, before, start, i);
    RunCarries(ExecOp(Run(g, before), start), middle, i);
    RunCarries(Started(g, before, start, middle), after, i);
  }

  // ----- from the done event to the frame handler -----

  /** Frame work with a tick is queued on a surface that can draw. */
  predicate Due(s: Surface) { Ready(s) && s.work.up && s.ticks.pending }

  predicate SparesOp(i: Id, op: Op)
    decreases op
  {
    match op
    case RenderNow(j, prepare) => j != i && Spares(i, prepare)
    case Configure(_, _, onConfigure) => Spares(i, onConfigure)
    case Destroy(j) => j != i
    case _ => true
  }

  /** The script does not call renderNow on surface i or destroy it, which cancels its work. */
  predicate Spares(i: Id, script: Script)
    decreases script
  {
    script.Then? ==> SparesOp(i, script.op) && Spares(i, script.rest)
  }

  predicate Harmless(i: Id, script: Script) { Tame(i, script) && Spares(i, script) }

  /** A done event that finds the surface animating, or a tick due, makes the work due. */
  lemma DoneMakesDue(s: Surface)
    requires Ready(s) && s.callback.up && (s.wiring.animating || s.ticks.inFlight || s.ticks.pending)
    ensures Due(FrameDoneOn(s))
  {
  }

  lemma RequestKeepsDue(s: Surface, kind: RequestKind)
    requires Due(s)
    ensures Due(RequestOn(s, kind))
  {
    assert KickBlocked(Flagged(s, kind));
  }

  lemma OpKeepsDue(s: Surface, op: Op)
    requires Due(s) && (op.Rewire? ==> op.running && WiredToDraw(op.wiring)) && (op.FrameDone? ==> s.callback.up)
    ensures match op
      case RequestFrameTick(_) => Due(RequestFrameTickOn(s))
      case DiscardCallback(_) => Due(DiscardOn(s))
      case FrameDone(_) => Due(FrameDoneOn(s))
      case Rewire(_, running, wiring) => Due(Rewired(s, running, wiring))
      case Configure(_, _, _) => Due(ConfigureStart(s, true)) && Due(ConfigureEnd(s))
      case _ => true
  {
  }

  lemma {:induction false} ScriptKeepsDue(g: Shell, script: Script, i: Id)
    requires i < |g.surfaces| && Due(g.surfaces[i]) && Harmless(i, script)
    ensures Due(Exec(g, script).surfaces[i])
    decreases script, 0
  {
    if script.Then? {
      assert Tame(i, script) && Spares(i, script);
      ShellOpKeepsDue(g, script.op, i);
      ScriptKeepsDue(ExecOp(g, script.op), script.rest, i);
    }
  }

  lemma PrepareKeepsDue(g: Shell, j: Id, prepare: Script, i: Id)
    requires i < |g.surfaces| && j < |g.surfaces| && Due(g.surfaces[i]) && Harmless(i, prepare)
    ensures Due(Prepare(g, j, prepare).surfaces[i])
    decreases prepare, 1
  {
    if PrepareRuns(g.surfaces[j]) {
      ScriptKeepsDue(Put(g, j, PrepareStart(g.surfaces[j])), prepare, i);
    }
  }

  lemma ShellOpKeepsDue(g: Shell, op: Op, i: Id)
    requires i < |g.surfaces| && Due(g.surfaces[i]) && TameOp(i, op) && SparesOp(i, op)
    ensures Due(ExecOp(g, op).surfaces[i])
    decreases op
  {
    if op.id < |g.surfaces| {
      var answers := op.FrameDone? ==> g.surfaces[op.id].callback.up;
      match op
      case RenderNow(j, prepare) => PrepareKeepsDue(Cancel(g, j), j, prepare, i);
      case Request(_, kind) => RequestKeepsDue(g.surfaces[i], kind);
      case Configure(j, sized, onConfigure) =>
        var g0 := Put(g, j, ConfigureStart(g.surfaces[j], sized));
        ScriptKeepsDue(g0, onConfigure, i);
        OpKeepsDue(Exec(g0, onConfigure).surfaces[i], op);
      case Destroy(_) =>
      case _ =>
        if answers && op.id == i {
          OpKeepsDue(g.surfaces[i], op);
        }
    }
  }

  predicate HarmlessWork(i: Id, w: WorkScripts) {
    Harmless(i, w.animation) && Harmless(i, w.frameTick) && Harmless(i, w.update) && Harmless(i, w.prepare)
  }

  predicate HarmlessStep(i: Id, step: Step) {
    match step
    case Direct(script) => Harmless(i, script)
    case DrainWork(work) => forall k :: 0 <= k < |work| ==> HarmlessWork(i, work[k])
    case DrainRenders(prepares) => forall k :: 0 <= k < |prepares| ==> Harmless(i, prepares[k])
  }

  lemma ProcessOtherKeepsDue(g: Shell, j: Id, scripts: WorkScripts, i: Id)
    requires i < |g.surfaces| && j < |g.surfaces| && j != i && Due(g.surfaces[i]) && HarmlessWork(i, scripts)
    ensures Due(ProcessQueuedFrameWork(g, j, scripts).surfaces[i])
  {
    var s := g.surfaces[j];
    var g0 := Put(g, j, TakeWork(s));
    var g1 := if s.ticks.pending then FrameHandler(g0, j, scripts) else g0;
    HandledKeepsDue(g0, j, scripts, i);
    PrepareKeepsDue(g1, j, scripts.prepare, i);
  }

  lemma HandledKeepsDue(g: Shell, j: Id, scripts: WorkScripts, i: Id)
    requires i < |g.surfaces| && j < |g.surfaces| && j != i && Due(g.surfaces[i]) && HarmlessWork(i, scripts)
    ensures Due(Handled(g, j, scripts).surfaces[i]) && Due(FrameHandler(g, j, scripts).surfaces[i])
  {
    var g0 := Put(g, j, InHandler(g.surfaces[j], true));
    ScriptKeepsDue(g0, scripts.animation, i);
    var g1 := Exec(g0, scripts.animation);
    ScriptKeepsDue(g1, scripts.frameTick, i);
    var ticks := g1.surfaces[j].wiring.hasFrameTick && EnsureRenderTargetReady(g1.surfaces[j]);
    ScriptKeepsDue(if ticks then Exec(g1, scripts.frameTick) else g1, scripts.update, i);
  }

  lemma RenderQueuedKeepsDue(g: Shell, j: Id, prepare: Script, i: Id)
    requires i < |g.surfaces| && j < |g.surfaces| && Due(g.surfaces[i]) && Harmless(i, prepare)
    ensures Due(RenderQueuedFrame(g, j, prepare).surfaces[i])
  {
    var g0 := Put(g, j, TakeRender(g.surfaces[j]));
    assert Due(g0.surfaces[i]);
    PrepareKeepsDue(g0, j, prepare, i);
    var g1 := Prepare(g0, j, prepare);
    RenderKeepsDue(g1.surfaces[i]);
    assert Due(Put(g1, j, RenderOn(g1.surfaces[j])).surfaces[i]);
  }

  lemma RenderKeepsDue(s: Surface)
    requires Due(s)
    ensures Due(RenderOn(s))
  {
  }

  lemma {:induction false} VisitRendersKeepsDue(g: Shell, batch: seq<Id>, k: nat, scripts: seq<Script>, i: Id)
    requires i < |g.surfaces| && Due(g.surfaces[i]) && HarmlessStep(i, DrainRenders(scripts))
    ensures Due(VisitRenders(g, batch, k, scripts).surfaces[i])
    decreases |batch| - k
  {
    if k < |batch| {
      var j := batch[k];
      var g1 := g;
      if j < |g.surfaces| && g.surfaces[j].render.up {
        g1 := RenderQueuedFrame(g, j, ScriptAt(scripts, k));
        RenderQueuedKeepsDue(g, j, ScriptAt(scripts, k), i);
      }
      VisitRendersKeepsDue(g1, batch, k + 1, scripts, i);
    }
  }

  /** The tallies of queued work, renders and callbacks of every surface have only grown. */
  ghost predicate Tallied(g: Shell, r: Shell) {
    && |g.surfaces| == |r.surfaces|
    && forall j :: 0 <= j < |g.surfaces| ==>
         && g.surfaces[j].work.Onward(r.surfaces[j].work)
         && g.surfaces[j].render.Onward(r.surfaces[j].render)
         && g.surfaces[j].callback.Onward(r.surfaces[j].callback)
  }

  /** The frame handler's callbacks of surface i run while its work is processed: all they do to
      any queue or callback is done in the end. */
  lemma ProcessRunsHandler(g: Shell, i: Id, scripts: WorkScripts, restWork: seq<Id>)
    requires i < |g.surfaces| && Agree(g, [i] + restWork, []) && Due(g.surfaces[i])
    requires !g.surfaces[i].phase.inFrameHandler
    ensures Tallied(Handled(Put(g, i, TakeWork(g.surfaces[i])), i, scripts), ProcessQueuedFrameWork(g, i, scripts))
  {
    var g0 := Put(g, i, TakeWork(g.surfaces[i]));
    TakeWorkKeeps(g, i, restWork, []);
    FrameHandlerKeeps(g0, i, scripts, restWork, []);
    var inside := Handled(g0, i, scripts);
    var g1 := FrameHandler(g0, i, scripts);
    assert g1 == Put(inside, i, InHandler(inside.surfaces[i], false));
    PrepareKeeps(g1, i, scripts.prepare, restWork, []);
    var g2 := Prepare(g1, i, scripts.prepare);
    QueueRenderIfNeededKeeps(g2.surfaces[i]);
    PutAgrees(g2, i, QueueRenderIfNeeded(g2.surfaces[i]), restWork, []);
  }

  /** The state when the visits of a batch from k on have come to position n. */
  function VisitedTo(g: Shell, batch: seq<Id>, k: nat, n: nat, scripts: seq<WorkScripts>): (r: Shell)
    requires n <= |batch|
    ensures |r.surfaces| == |g.surfaces|
    decreases n - k
  {
    if k >= n then g
    else
      var j := batch[k];
      VisitedTo(if j < |g.surfaces| && g.surfaces[j].work.up
                then ProcessQueuedFrameWork(g, j, WorkScriptsAt(scripts, k)) else g, batch, k + 1, n, scripts)
  }

  /** At position n the visits run the frame handler of surface i, with the callbacks that belong
      to that visit, and all these do is done when the visits end. */
  ghost predicate RunsHandler(g: Shell, batch: seq<Id>, k: nat, n: nat, scripts: seq<WorkScripts>, i: Id) {
    && k <= n < |batch| && batch[n] == i && i < |g.surfaces|
    && var m := VisitedTo(g, batch, k, n, scripts);
    && Due(m.surfaces[i])
    && Tallied(Handled(Put(m, i, TakeWork(m.surfaces[i])), i, WorkScriptsAt(scripts, n)),
               VisitWork(g, batch, k, scripts))
  }

  lemma TalliedOn(g: Shell, m: Shell, r: Shell)
    requires Tallied(g, m) && Advances(m, r)
    ensures Tallied(g, r)
  {
  }

  /** The visit is to the surface itself. */
  lemma VisitRunsHandlerNow(g: Shell, batch: seq<Id>, k: nat, scripts: seq<WorkScripts>, i: Id)
    requires k < |batch| && batch[k] == i && Agree(g, batch[k..], []) && Resting(g)
    requires i < |g.surfaces| && Due(g.surfaces[i])
    ensures RunsHandler(g, batch, k, k, scripts, i)
  {
    var w := WorkScriptsAt(scripts, k);
    assert batch[k..] == [i] + batch[k + 1..];
    ProcessRunsHandler(g, i, w, batch[k + 1..]);
    ProcessKeeps(g, i, w, batch[k + 1..], []);
    var g1 := ProcessQueuedFrameWork(g, i, w);
    VisitWorkKeeps(g1, batch, k + 1, scripts);
    TalliedOn(Handled(Put(g, i, TakeWork(g.surfaces[i])), i, w), g1, VisitWork(g1, batch, k + 1, scripts));
  }

  lemma {:induction false} VisitRunsHandler(g: Shell, batch: seq<Id>, k: nat, scripts: seq<WorkScripts>, i: Id)
    returns (n: nat)
    requires k <= |batch| && Agree(g, batch[k..], []) && Resting(g)
    requires i < |g.surfaces| && Due(g.surfaces[i]) && i in batch[k..]
    requires HarmlessStep(i, DrainWork(scripts))
    ensures RunsHandler(g, batch, k, n, scripts, i)
    decreases |batch| - k
  {
    var j, w := batch[k], WorkScriptsAt(scripts, k);
    assert batch[k..] == [j] + batch[k + 1..];
    if j == i {
      n := k;
      VisitRunsHandlerNow(g, batch, k, scripts, i);
    } else {
      var g1 := g;
      if j < |g.surfaces| && g.surfaces[j].work.up {
        g1 := ProcessQueuedFrameWork(g, j, w);
        ProcessKeeps(g, j, w, batch[k + 1..], []);
        ProcessOtherKeepsDue(g, j, w, i);
      }
      n := VisitRunsHandler(g1, batch, k + 1, scripts, i);
    }
  }

  lemma {:induction false} TurnsKeepDue(g: Shell, steps: seq<Step>, i: Id)
    requires Agree(g, [], []) && Resting(g) && i < |g.surfaces| && Due(g.surfaces[i])
    requires forall k :: 0 <= k < |steps| ==> !steps[k].DrainWork? && HarmlessStep(i, steps[k])
    ensures var r := Run(g, steps); Agree(r, [], []) && Resting(r) && Due(r.surfaces[i])
    decreases |steps|
  {
    if steps != [] {
      var before, last := steps[..|steps| - 1], steps[|steps| - 1];
      TurnsKeepDue(g, before, i);
      StepKeeps(Run(g, before), last);
      match last
      case Direct(script) => ScriptKeepsDue(Run(g, before), script, i);
      case DrainRenders(scripts) =>
        VisitRendersKeepsDue(Run(g, before).(renders := []), Run(g, before).renders, 0, scripts, i);
    }
  }

  /** Visit number n of the drain is to surface i, finds its frame work due, and runs its frame
      handler: what the callbacks do there is done when the drain ends. */
  ghost predicate HandlesAt(g: Shell, scripts: seq<WorkScripts>, i: Id, n: nat) {
    && n < |g.work| && g.work[n] == i && i < |g.surfaces|
    && var m := VisitedTo(g.(work := []), g.work, 0, n, scripts);
    && Due(m.surfaces[i])
    && Tallied(Handled(Put(m, i, TakeWork(m.surfaces[i])), i, WorkScriptsAt(scripts, n)),
               ExecStep(g, DrainWork(scripts)))
  }

  ghost predicate DrainRunsHandler(g: Shell, scripts: seq<WorkScripts>, i: Id) {
    exists n :: HandlesAt(g, scripts, i, n)
  }

  lemma DueIsHandled(g: Shell, scripts: seq<WorkScripts>, i: Id)
    requires Agree(g, [], []) && Resting(g) && i < |g.surfaces| && Due(g.surfaces[i])
    requires HarmlessStep(i, DrainWork(scripts))
    ensures DrainRunsHandler(g, scripts, i)
  {
    assert g.work[0..] == g.work;
    var n := VisitRunsHandler(g.(work := []), g.work, 0, scripts, i);
    assert HandlesAt(g, scripts, i, n);
  }

  lemma DoneMakesWorkDue(g: Shell, i: Id)
    requires Agree(g, [], []) && Resting(g) && Able(g, i) && g.surfaces[i].callback.up
    requires var s := g.surfaces[i]; s.wiring.animating || s.ticks.inFlight || s.ticks.pending
    ensures var r := ExecOp(g, FrameDone(i)); Agree(r, [], []) && Resting(r) && Due(r.surfaces[i])
  {
    DoneMakesDue(g.surfaces[i]);
    OpKeeps(g, FrameDone(i), [], []);
  }

  /** A frame done event that finds a surface animating, or a tick due, is followed by its frame
      handler: whatever turns come in between, short of a renderNow on it, the next drain of
      frame work visits the surface and runs its animation, frame-tick and update callbacks,
      whatever these and the callbacks of other surfaces do. */
  lemma DoneRunsFrameHandler(
      g: Shell, before: seq<Step>, i: Id, between: seq<Step>, scripts: seq<WorkScripts>)
    requires Initial(g) && Able(Run(g, before), i)
    requires var s := Run(g, before).surfaces[i];
      s.callback.up && (s.wiring.animating || s.ticks.inFlight || s.ticks.pending)
    requires forall k :: 0 <= k < |between| ==> !between[k].DrainWork? && HarmlessStep(i, between[k])
    requires HarmlessStep(i, DrainWork(scripts))
    ensures DrainRunsHandler(Run(ExecOp(Run(g, before), FrameDone(i)), between), scripts, i)
  {
    var g1 := ExecOp(Run(g, before), FrameDone(i));
    RunKeepsQueues(g, before);
    DoneMakesWorkDue(Run(g, before), i);
    TurnsKeepDue(g1, between, i);
    DueIsHandled(Run(g1, between), scripts, i);
  }

  // ----- no tick that was not asked for -----

  /** A tick is used up on its way: when a callback is asked for, when that is answered, and when
      the work is taken; and a cancelled one is gone. */
  lemma TicksAreUsedUp(s: Surface)
    ensures !RequestFrame(s).ticks.next
    ensures s.callback.up ==> !FrameDoneOn(s).ticks.inFlight && !DiscardOn(s).ticks.inFlight
    ensures !TakeWork(s).ticks.pending
    ensures s.work.up ==> !CancelQueuedFrameWork(s).ticks.pending && !CancelQueuedFrameWork(s).work.up
  {
  }

  /** No tick is noted, and nothing asks for one: no animation, and no frame-tick callback. */
  predicate Tickless(s: Surface) {
    && !s.ticks.next && !s.ticks.inFlight && !s.ticks.pending
    && !s.wiring.animating && !s.wiring.hasFrameTick
  }

  predicate AsksNoTickOp(i: Id, op: Op)
    decreases op
  {
    match op
    case RequestFrameTick(j) => j != i
    case Rewire(j, _, wiring) => j == i ==> !wiring.animating && !wiring.hasFrameTick
    case RenderNow(_, prepare) => AsksNoTick(i, prepare)
    case Configure(_, _, onConfigure) => AsksNoTick(i, onConfigure)
    case _ => true
  }

  predicate AsksNoTick(i: Id, script: Script)
    decreases script
  {
    script.Then? ==> AsksNoTickOp(i, script.op) && AsksNoTick(i, script.rest)
  }

  /** Still none, and no frame handler has run. */
  ghost predicate StaysTickless(g: Shell, r: Shell, i: Id) {
    && i < |g.surfaces| == |r.surfaces|
    && Tickless(r.surfaces[i]) && r.surfaces[i].ticks.handled == g.surfaces[i].ticks.handled
  }

  lemma RenderStaysTickless(s: Surface)
    requires Tickless(s)
    ensures Tickless(RenderOn(s)) && RenderOn(s).ticks.handled == s.ticks.handled
    ensures Tickless(QueueRenderIfNeeded(s)) && QueueRenderIfNeeded(s).ticks.handled == s.ticks.handled
  {
  }

  lemma RequestStaysTickless(s: Surface, kind: RequestKind)
    requires Tickless(s)
    ensures Tickless(RequestOn(s, kind)) && RequestOn(s, kind).ticks.handled == s.ticks.handled
  {
  }

  lemma {:induction false} ScriptStaysTickless(g: Shell, script: Script, i: Id)
    requires i < |g.surfaces| && Tickless(g.surfaces[i]) && AsksNoTick(i, script)
    ensures StaysTickless(g, Exec(g, script), i)
    decreases script, 0
  {
    if script.Then? {
      OpStaysTickless(g, script.op, i);
      ScriptStaysTickless(ExecOp(g, script.op), script.rest, i);
    }
  }

  lemma PrepareStaysTickless(g: Shell, j: Id, prepare: Script, i: Id)
    requires i < |g.surfaces| && j < |g.surfaces| && Tickless(g.surfaces[i]) && AsksNoTick(i, prepare)
    ensures StaysTickless(g, Prepare(g, j, prepare), i)
    decreases prepare, 1
  {
    if PrepareRuns(g.surfaces[j]) {
      ScriptStaysTickless(Put(g, j, PrepareStart(g.surfaces[j])), prepare, i);
    }
  }

  lemma CancelStaysTickless(g: Shell, j: Id, i: Id)
    requires i < |g.surfaces| && j < |g.surfaces| && Tickless(g.surfaces[i])
    ensures StaysTickless(g, Cancel(g, j), i)
  {
  }

  lemma RenderNowStaysTickless(g: Shell, j: Id, prepare: Script, i: Id)
    requires i < |g.surfaces| && j < |g.surfaces| && Tickless(g.surfaces[i]) && AsksNoTick(i, prepare)
    ensures StaysTickless(g, ExecOp(g, RenderNow(j, prepare)), i)
    decreases prepare, 2
  {
    var g0 := Cancel(g, j);
    CancelStaysTickless(g, j, i);
    PrepareStaysTickless(g0, j, prepare, i);
    var g1 := Prepare(g0, j, prepare);
    RenderStaysTickless(g1.surfaces[i]);
    assert StaysTickless(g, Put(g1, j, RenderOn(g1.surfaces[j])), i);
  }

  lemma ConfigureStaysTickless(g: Shell, j: Id, sized: bool, onConfigure: Script, i: Id)
    requires i < |g.surfaces| && j < |g.surfaces| && Tickless(g.surfaces[i]) && AsksNoTick(i, onConfigure)
    ensures StaysTickless(g, ExecOp(g, Configure(j, sized, onConfigure)), i)
    decreases onConfigure, 2
  {
    var g0 := Put(g, j, ConfigureStart(g.surfaces[j], sized));
    ScriptStaysTickless(g0, onConfigure, i);
    ConfigureAsksRedraw(Exec(g0, onConfigure).surfaces[i], sized);
  }

  /** Operations that run no callback. */
  lemma PlainOpStaysTickless(g: Shell, op: Op, i: Id)
    requires i < |g.surfaces| && op.id < |g.surfaces| && Tickless(g.surfaces[i]) && AsksNoTickOp(i, op)
    requires op.FrameDone? || op.DiscardCallback? || op.RequestFrameTick? || op.Rewire?
    ensures StaysTickless(g, ExecOp(g, op), i)
  {
  }

  lemma OpStaysTickless(g: Shell, op: Op, i: Id)
    requires i < |g.surfaces| && Tickless(g.surfaces[i]) && AsksNoTickOp(i, op)
    ensures StaysTickless(g, ExecOp(g, op), i)
    decreases op
  {
    if op.id < |g.surfaces| {
      match op
      case Request(_, kind) => RequestStaysTickless(g.surfaces[i], kind);
      case RenderNow(j, prepare) => RenderNowStaysTickless(g, j, prepare, i);
      case Configure(j, sized, onConfigure) => ConfigureStaysTickless(g, j, sized, onConfigure, i);
      case Destroy(j) => CancelStaysTickless(g, j, i);
      case _ => PlainOpStaysTickless(g, op, i);
    }
  }

  lemma HandledStaysTickless(g: Shell, j: Id, scripts: WorkScripts, i: Id)
    requires i < |g.surfaces| && j < |g.surfaces| && j != i && Tickless(g.surfaces[i])
    requires AsksNoTick(i, scripts.animation) && AsksNoTick(i, scripts.frameTick) && AsksNoTick(i, scripts.update)
    ensures StaysTickless(g, FrameHandler(g, j, scripts), i)
  {
    var g0 := Put(g, j, InHandler(g.surfaces[j], true));
    ScriptStaysTickless(g0, scripts.animation, i);
    var g1 := Exec(g0, scripts.animation);
    ScriptStaysTickless(g1, scripts.frameTick, i);
    var ticks := g1.surfaces[j].wiring.hasFrameTick && EnsureRenderTargetReady(g1.surfaces[j]);
    ScriptStaysTickless(if ticks then Exec(g1, scripts.frameTick) else g1, scripts.update, i);
  }

  predicate AsksNoTickWork(i: Id, w: WorkScripts) {
    && AsksNoTick(i, w.animation) && AsksNoTick(i, w.frameTick) && AsksNoTick(i, w.update)
    && AsksNoTick(i, w.prepare)
  }

  lemma ProcessStaysTickless(g: Shell, j: Id, scripts: WorkScripts, i: Id)
    requires i < |g.surfaces| && j < |g.surfaces| && Tickless(g.surfaces[i]) && AsksNoTickWork(i, scripts)
    ensures StaysTickless(g, ProcessQueuedFrameWork(g, j, scripts), i)
  {
    var s := g.surfaces[j];
    var g0 := Put(g, j, TakeWork(s));
    var g1 := if s.ticks.pending then FrameHandler(g0, j, scripts) else g0;
    if s.ticks.pending {
      HandledStaysTickless(g0, j, scripts, i);
    }
    PrepareStaysTickless(g1, j, scripts.prepare, i);
    RenderStaysTickless(Prepare(g1, j, scripts.prepare).surfaces[i]);
  }

  lemma RenderQueuedStaysTickless(g: Shell, j: Id, prepare: Script, i: Id)
    requires i < |g.surfaces| && j < |g.surfaces| && Tickless(g.surfaces[i]) && AsksNoTick(i, prepare)
    ensures StaysTickless(g, RenderQueuedFrame(g, j, prepare), i)
  {
    var g0 := Put(g, j, TakeRender(g.surfaces[j]));
    PrepareStaysTickless(g0, j, prepare, i);
    RenderStaysTickless(Prepare(g0, j, prepare).surfaces[i]);
  }

  predicate AsksNoTickStep(i: Id, step: Step) {
    match step
    case Direct(script) => AsksNoTick(i, script)
    case DrainWork(work) => forall k :: 0 <= k < |work| ==> AsksNoTickWork(i, work[k])
    case DrainRenders(prepares) => forall k :: 0 <= k < |prepares| ==> AsksNoTick(i, prepares[k])
  }

  lemma {:induction false} VisitWorkStaysTickless(
      g: Shell, batch: seq<Id>, k: nat, scripts: seq<WorkScripts>, i: Id)
    requires i < |g.surfaces| && Tickless(g.surfaces[i]) && AsksNoTickStep(i, DrainWork(scripts))
    ensures StaysTickless(g, VisitWork(g, batch, k, scripts), i)
    decreases |batch| - k
  {
    if k < |batch| {
      var j := batch[k];
      var g1 := g;
      if j < |g.surfaces| && g.surfaces[j].work.up {
        g1 := ProcessQueuedFrameWork(g, j, WorkScriptsAt(scripts, k));
        ProcessStaysTickless(g, j, WorkScriptsAt(scripts, k), i);
      }
      VisitWorkStaysTickless(g1, batch, k + 1, scripts, i);
    }
  }

  lemma {:induction false} VisitRendersStaysTickless(
      g: Shell, batch: seq<Id>, k: nat, scripts: seq<Script>, i: Id)
    requires i < |g.surfaces| && Tickless(g.surfaces[i]) && AsksNoTickStep(i, DrainRenders(scripts))
    ensures StaysTickless(g, VisitRenders(g, batch, k, scripts), i)
    decreases |batch| - k
  {
    if k < |batch| {
      var j := batch[k];
      var g1 := g;
      if j < |g.surfaces| && g.surfaces[j].render.up {
        g1 := RenderQueuedFrame(g, j, ScriptAt(scripts, k));
        RenderQueuedStaysTickless(g, j, ScriptAt(scripts, k), i);
      }
      VisitRendersStaysTickless(g1, batch, k + 1, scripts, i);
    }
  }

  /** No unasked tick: in any turns at all in which nothing asks for a tick of surface i, and no
      animation runs and no frame-tick callback is set on it, its frame handler never runs. */
  lemma {:induction false} NoUnaskedTick(g: Shell, steps: seq<Step>, i: Id)
    requires i < |g.surfaces| && Tickless(g.surfaces[i])
    requires forall k :: 0 <= k < |steps| ==> AsksNoTickStep(i, steps[k])
    ensures StaysTickless(g, Run(g, steps), i)
    decreases |steps|
  {
    if steps != [] {
      var before, last := steps[..|steps| - 1], steps[|steps| - 1];
      NoUnaskedTick(g, before, i);
      var m := Run(g, before);
      match last
      case Direct(script) => ScriptStaysTickless(m, script, i);
      case DrainWork(scripts) => VisitWorkStaysTickless(m.(work := []), m.work, 0, scripts, i);
      case DrainRenders(scripts) => VisitRendersStaysTickless(m.(renders := []), m.renders, 0, scripts, i);
    }
  }

  // ----- what a request and a render leave -----

  /** An update or layout request made outside the prepare callback is owed, and one made by
      a surface that is not running or configured is only noted. */
  lemma RequestIsOwed(s: Surface, kind: RequestKind)
    ensures var r := RequestOn(s, kind);
      && (kind != Redraw ==> r.requests.owed == (s.requests.owed || !s.phase.inPrepareFrame))
      && (kind == Redraw ==> r.requests.redraw && r.requests.owed == s.requests.owed)
      && (kind == Update ==> r.requests.update && r.requests.layout)
      && (kind == UpdateOnly ==> r.requests.update && r.requests.layout == s.requests.layout)
      && (kind == Layout ==> r.requests.layout && r.requests.update == s.requests.update)
      && (!s.phase.running || !s.phase.configured ==> r.work == s.work && r.render == s.render)
    ensures !s.phase.running || !s.phase.configured ==> RequestFrameTickOn(s) == s
  {
  }

  /** A render on a target that is ready leaves nothing invalidated. */
  lemma RenderLeavesClean(s: Surface)
    requires s.wiring.hasSurface && s.wiring.hasContext && s.wiring.targetReady
    ensures !Invalidated(RenderOn(s)) && (s.wiring.frameGranted ==> RenderOn(s).callback.up)
  {
  }

  /** The done event answers the callback in flight, and destroying a surface takes everything it
      has in flight or queued and leaves it attached to nothing. */
  lemma DoneAnswersCallback(s: Surface)
    requires s.callback.up
    ensures !FrameDoneOn(s).callback.up && FrameDoneOn(s).callback.processed == s.callback.processed + 1
    ensures FrameDoneOn(s).requests == s.requests
  {
  }

  lemma DestroyTakesAll(g: Shell, i: Id)
    requires i < |g.surfaces|
    ensures var r := ExecOp(g, Destroy(i)).surfaces[i];
      && !Live(r) && !r.wiring.hasSurface && !r.wiring.targetReady && !r.phase.running && !r.phase.configured
      && r.requests == g.surfaces[i].requests
    ensures forall j :: 0 <= j < |g.surfaces| && j != i ==> ExecOp(g, Destroy(i)).surfaces[j] == g.surfaces[j]
  {
    assert !Cancel(g, i).surfaces[i].work.up && !Cancel(g, i).surfaces[i].render.up;
    assert Cancel(g, i).surfaces[i].requests == g.surfaces[i].requests;
  }

  /** What a callback did is done in r. */
  ghost predicate Done(g: Shell, i: Id, prepare: Script, r: Shell)
    requires i < |g.surfaces|
  {
    Tallied(Exec(Put(g, i, PrepareStart(g.surfaces[i])), prepare), r)
  }

  /** A prepare callback that is due runs: on a surface with its requests taken, and all it does to
      any queue or callback is done afterwards. */
  lemma PrepareRunsCallback(g: Shell, i: Id, prepare: Script)
    requires AllSound(g) && i < |g.surfaces| && PrepareDue(g.surfaces[i])
    ensures Done(g, i, prepare, Prepare(g, i, prepare))
    ensures var s := PrepareStart(g.surfaces[i]);
      && !s.requests.update && !s.requests.layout && s.requests.redraw == g.surfaces[i].requests.redraw
      && s.phase.inPrepareFrame && !Prepare(g, i, prepare).surfaces[i].phase.inPrepareFrame
  {
    var g1 := Exec(Put(g, i, PrepareStart(g.surfaces[i])), prepare);
    assert Prepare(g, i, prepare) == Put(g1, i, PrepareEnd(g1.surfaces[i]));
  }

  /** So it does when frame work is processed, after the frame handler, in renderNow, and in a
      queued render. */
  lemma ProcessRunsPrepare(g: Shell, i: Id, scripts: WorkScripts)
    requires AllSound(g) && i < |g.surfaces| && Ready(g.surfaces[i])
    requires AllSound(BeforePrepare(g, i, scripts)) && PrepareDue(BeforePrepare(g, i, scripts).surfaces[i])
    ensures Done(BeforePrepare(g, i, scripts), i, scripts.prepare, ProcessQueuedFrameWork(g, i, scripts))
  {
    var m := BeforePrepare(g, i, scripts);
    PrepareRunsCallback(m, i, scripts.prepare);
    var all := AllIds(|g.surfaces|);
    PrepareKeeps(m, i, scripts.prepare, all, all);
    QueueRenderIfNeededKeeps(Prepare(m, i, scripts.prepare).surfaces[i]);
  }

  lemma RendersRunPrepare(g: Shell, i: Id, prepare: Script)
    requires AllSound(g) && i < |g.surfaces| && PrepareDue(g.surfaces[i])
    ensures Done(Cancel(g, i), i, prepare, ExecOp(g, RenderNow(i, prepare)))
    ensures g.surfaces[i].render.up ==>
      Done(Put(g, i, TakeRender(g.surfaces[i])), i, prepare, RenderQueuedFrame(g, i, prepare))
  {
    RenderNowRunsPrepare(g, i, prepare);
    if g.surfaces[i].render.up {
      RenderQueuedRunsPrepare(g, i, prepare);
    }
  }

  lemma RenderNowRunsPrepare(g: Shell, i: Id, prepare: Script)
    requires AllSound(g) && i < |g.surfaces| && PrepareDue(g.surfaces[i])
    ensures Done(Cancel(g, i), i, prepare, ExecOp(g, RenderNow(i, prepare)))
  {
    var m := Cancel(g, i);
    assert AllSound(m);
    PrepareRunsCallback(m, i, prepare);
    var all := AllIds(|g.surfaces|);
    PrepareKeeps(m, i, prepare, all, all);
    var g1 := Prepare(m, i, prepare);
    RenderKeeps(g1.surfaces[i]);
    TalliedPut(Exec(Put(m, i, PrepareStart(m.surfaces[i])), prepare), g1, i, RenderOn(g1.surfaces[i]));
  }

  lemma TalliedPut(g: Shell, m: Shell, i: Id, s: Surface)
    requires i < |m.surfaces| && Tallied(g, m) && Later(m.surfaces[i], s)
    ensures Tallied(g, Put(m, i, s))
  {
  }

  lemma RenderQueuedRunsPrepare(g: Shell, i: Id, prepare: Script)
    requires AllSound(g) && i < |g.surfaces| && PrepareDue(g.surfaces[i]) && g.surfaces[i].render.up
    ensures Done(Put(g, i, TakeRender(g.surfaces[i])), i, prepare, RenderQueuedFrame(g, i, prepare))
  {
    var m := Put(g, i, TakeRender(g.surfaces[i]));
    assert AllSound(m);
    PrepareRunsCallback(m, i, prepare);
    var all := AllIds(|g.surfaces|);
    PrepareKeeps(m, i, prepare, all, all);
    RenderKeeps(Prepare(m, i, prepare).surfaces[i]);
  }

  /** A configure event takes the size, configures the surface and asks for a redraw by frame work,
      without a tick of its own. */
  lemma ConfigureAsksRedraw(s: Surface, sized: bool)
    ensures var r := ConfigureStart(s, sized);
      r.phase.configured && r.wiring.sized == sized && r.ticks == s.ticks && r.requests == s.requests
    ensures var r := ConfigureEnd(s); r.requests.redraw && r.work.up && r.ticks == s.ticks
  {
  }

  /** renderNow on a surface that is not running or not configured does nothing; on one that is, it
      takes what was queued out of both queues. */
  lemma RenderNowTakesOver(g: Shell, i: Id, prepare: Script)
    requires i < |g.surfaces|
    ensures !g.surfaces[i].phase.running || !g.surfaces[i].phase.configured ==>
      ExecOp(g, RenderNow(i, prepare)) == g
    ensures !Cancel(g, i).surfaces[i].work.up && !Cancel(g, i).surfaces[i].render.up
    ensures g.surfaces[i].work.up ==> i !in Cancel(g, i).work
    ensures g.surfaces[i].render.up ==> i !in Cancel(g, i).renders
  {
  }
}
