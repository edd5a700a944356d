/** The surfaces and the two global queues as objects that are updated in place.
    Every method is tied to the function of FrameModel with its name, about which
    FrameQueues and FrameProgress prove what the scheduler promises. */
module SurfaceScheduler {
  import M = FrameModel

  /** The two queues shared by all surfaces; a surface is queued by its id. */
  class Queues {
    var work: seq<M.Id>
    var renders: seq<M.Id>

    constructor ()
      ensures work == [] && renders == []
    {
      work, renders := [], [];
    }
  }

  class Surface {
    const id: M.Id
    var updateRequested: bool
    var layoutRequested: bool
    var redrawRequested: bool
    var running: bool
    var configured: bool
    var inFrameHandler: bool
    var inPrepareFrame: bool
    var frameWorkQueued: bool
    var frameTickPending: bool
    var frameCallbackShouldTick: bool
    var nextFrameCallbackShouldTick: bool
    var renderQueued: bool
    var frameCallback: bool
    var wiring: M.Wiring
    ghost var owed: bool
    ghost var tickOwed: bool
    ghost var handlersEntered: nat
    ghost var workCount: M.Flag      // only the counts of these three are used
    ghost var renderCount: M.Flag
    ghost var callbackCount: M.Flag

    constructor (id: M.Id, wiring: M.Wiring)
      ensures this.id == id && State() == M.Surface(
        M.Requests(false, false, false, false), M.Ticks(false, false, false, false, 0),
        M.Phase(false, false, false, false),
        M.Flag(false, 0, 0, 0), M.Flag(false, 0, 0, 0), M.Flag(false, 0, 0, 0), wiring)
    {
      this.id := id;
      updateRequested, layoutRequested, redrawRequested, owed := false, false, false, false;
      running, configured, inFrameHandler, inPrepareFrame := false, false, false, false;
      frameWorkQueued, renderQueued, frameCallback := false, false, false;
      frameTickPending, frameCallbackShouldTick, nextFrameCallbackShouldTick := false, false, false;
      tickOwed, handlersEntered := false, 0;
      this.wiring := wiring;
      workCount, renderCount, callbackCount := M.Flag(false, 0, 0, 0), M.Flag(false, 0, 0, 0), M.Flag(false, 0, 0, 0);
    }

    static ghost function Counted(up: bool, count: M.Flag): M.Flag {
      M.Flag(up, count.raised, count.processed, count.cancelled)
    }

    ghost function State(): M.Surface
      reads this
    {
      M.Surface(
        M.Requests(updateRequested, layoutRequested, redrawRequested, owed),
        M.Ticks(frameTickPending, frameCallbackShouldTick, nextFrameCallbackShouldTick, tickOwed, handlersEntered),
        M.Phase(running, configured, inFrameHandler, inPrepareFrame),
        Counted(frameWorkQueued, workCount), Counted(renderQueued, renderCount), Counted(frameCallback, callbackCount),
        wiring)
    }

    /** The surface has become s, and has entered exactly the queues whose flag was raised. */
    twostate predicate Became(q: Queues, s: M.Surface)
      reads this, q
    {
      && State() == s
      && q.work == (if !old(frameWorkQueued) && s.work.up then old(q.work) + [id] else old(q.work))
      && q.renders == (if !old(renderQueued) && s.render.up then old(q.renders) + [id] else old(q.renders))
    }

    method QueueFrameWork(q: Queues, runFrameTick: bool)
      modifies this, q
      ensures Became(q, M.QueueFrameWork(old(State()), runFrameTick))
    {
      if runFrameTick {
        frameTickPending := true;
      }
      if frameWorkQueued {
        return;
      }
      workCount := Counted(false, workCount).Raise();
      frameWorkQueued := true;
      q.work := q.work + [id];
    }

    method QueueRender(q: Queues)
      modifies this, q
      ensures Became(q, M.QueueRender(old(State())))
    {
      if renderQueued {
        return;
      }
      renderCount := Counted(false, renderCount).Raise();
      renderQueued := true;
      q.renders := q.renders + [id];
    }

    method CancelQueuedFrameWork(q: Queues)
      modifies this, q
      ensures State() == M.CancelQueuedFrameWork(old(State()))
      ensures q.work == if old(frameWorkQueued) then M.Erase(old(q.work), id) else old(q.work)
      ensures q.renders == old(q.renders)
    {
      if !frameWorkQueued {
        return;
      }
      q.work := M.Erase(q.work, id);
      workCount := Counted(true, workCount).Cancel();
      frameWorkQueued := false;
      frameTickPending := false;
      tickOwed := false;
    }

    method CancelQueuedRender(q: Queues)
      modifies this, q
      ensures State() == M.CancelQueuedRender(old(State()))
      ensures q.renders == if old(renderQueued) then M.Erase(old(q.renders), id) else old(q.renders)
      ensures q.work == old(q.work)
    {
      if !renderQueued {
        return;
      }
      q.renders := M.Erase(q.renders, id);
      renderCount := Counted(true, renderCount).Cancel();
      renderQueued := false;
    }

    method RequestFrame()
      modifies this
      ensures State() == M.RequestFrame(old(State()))
    {
      if frameCallback {
        frameCallbackShouldTick := frameCallbackShouldTick || nextFrameCallbackShouldTick;
        nextFrameCallbackShouldTick := false;
        return;
      }
      frameCallbackShouldTick := nextFrameCallbackShouldTick || wiring.animating;
      nextFrameCallbackShouldTick := false;
      if wiring.frameGranted {
        callbackCount := Counted(false, callbackCount).Raise();
        frameCallback := true;
      }
    }

    method ContinueAnimationFrameLoop()
      modifies this
      ensures State() == M.ContinueAnimationFrameLoop(old(State()))
    {
      if !wiring.hasSurface || frameCallback {
        return;
      }
      RequestFrame();
    }

    method QueueRenderIfNeeded(q: Queues)
      modifies this, q
      ensures Became(q, M.QueueRenderIfNeeded(old(State())))
    {
      if redrawRequested || wiring.sceneDirty {
        QueueRender(q);
      } else if wiring.animating {
        ContinueAnimationFrameLoop();
      }
    }

    method KickFrameLoop(q: Queues)
      modifies this, q
      ensures Became(q, M.KickFrameLoop(old(State())))
    {
      if !running || !configured || frameCallback || inFrameHandler || inPrepareFrame || frameWorkQueued {
        return;
      }
      if updateRequested || layoutRequested {
        QueueFrameWork(q, false);
        return;
      }
      QueueRenderIfNeeded(q);
    }

    method RequestUpdate(q: Queues)
      modifies this, q
      ensures Became(q, M.RequestOn(old(State()), M.Update))
    {
      owed := owed || !inPrepareFrame;
      updateRequested := true;
      layoutRequested := true;
      assert State() == M.Flagged(old(State()), M.Update);
      KickFrameLoop(q);
    }

    method RequestUpdateOnly(q: Queues)
      modifies this, q
      ensures Became(q, M.RequestOn(old(State()), M.UpdateOnly))
    {
      owed := owed || !inPrepareFrame;
      updateRequested := true;
      assert State() == M.Flagged(old(State()), M.UpdateOnly);
      KickFrameLoop(q);
    }

    method RequestLayout(q: Queues)
      modifies this, q
      ensures Became(q, M.RequestOn(old(State()), M.Layout))
    {
      owed := owed || !inPrepareFrame;
      layoutRequested := true;
      assert State() == M.Flagged(old(State()), M.Layout);
      KickFrameLoop(q);
    }

    method RequestRedraw(q: Queues)
      modifies this, q
      ensures Became(q, M.RequestOn(old(State()), M.Redraw))
    {
      if wiring.hasFrameTick {
        nextFrameCallbackShouldTick := true;
      }
      redrawRequested := true;
      assert State() == M.Flagged(old(State()), M.Redraw);
      KickFrameLoop(q);
    }

    method Request(q: Queues, kind: M.RequestKind)
      modifies this, q
      ensures Became(q, M.RequestOn(old(State()), kind))
    {
      if kind.Update? {
        RequestUpdate(q);
      } else if kind.UpdateOnly? {
        RequestUpdateOnly(q);
      } else if kind.Layout? {
        RequestLayout(q);
      } else {
        RequestRedraw(q);
      }
    }

    method RequestFrameTick(q: Queues)
      modifies this, q
      ensures Became(q, M.RequestFrameTickOn(old(State())))
    {
      if !running || !configured {
        return;
      }
      tickOwed := tickOwed || (!inFrameHandler && !inPrepareFrame);
      if frameCallback || inFrameHandler || inPrepareFrame {
        frameTickPending := true;
        return;
      }
      QueueFrameWork(q, true);
    }

    method DiscardPendingFrameCallback()
      modifies this
      ensures State() == M.DiscardOn(old(State()))
    {
      if !frameCallback {
        return;
      }
      nextFrameCallbackShouldTick := nextFrameCallbackShouldTick || frameCallbackShouldTick;
      frameCallbackShouldTick := false;
      callbackCount := Counted(true, callbackCount).Cancel();
      frameCallback := false;
    }

    method HandleFrameDone(q: Queues)
      requires frameCallback
      modifies this, q
      ensures Became(q, M.FrameDoneOn(old(State())))
    {
      callbackCount := Counted(true, callbackCount).Process();
      frameCallback := false;
      var runFrameTick := frameCallbackShouldTick || frameTickPending || wiring.animating;
      frameCallbackShouldTick := false;
      if runFrameTick || updateRequested || layoutRequested || redrawRequested || wiring.sceneDirty {
        QueueFrameWork(q, runFrameTick);
      }
    }

    method Render()
      modifies this
      ensures State() == M.RenderOn(old(State()))
    {
      if !wiring.hasSurface || !wiring.hasContext || !wiring.targetReady {
        return;
      }
      RequestFrame();
      wiring := wiring.(sceneDirty := false);
      redrawRequested := false;
    }

    method EnterPrepare()
      modifies this
      ensures State() == M.PrepareStart(old(State()))
    {
      updateRequested := false;
      layoutRequested := false;
      owed := false;
      inPrepareFrame := true;
    }

    method LeavePrepare()
      modifies this
      ensures State() == M.PrepareEnd(old(State()))
    {
      inPrepareFrame := false;
    }

    method SetInFrameHandler(inside: bool)
      modifies this
      ensures State() == M.InHandler(old(State()), inside)
    {
      inFrameHandler := inside;
      tickOwed := tickOwed && !inside;
      handlersEntered := handlersEntered + if inside then 1 else 0;
    }

    method BeginConfigure(sized: bool)
      modifies this
      ensures State() == M.ConfigureStart(old(State()), sized)
    {
      wiring := wiring.(sized := sized);
      configured := true;
    }

    method EndConfigure(q: Queues)
      modifies this, q
      ensures Became(q, M.ConfigureEnd(old(State())))
    {
      redrawRequested := true;
      QueueFrameWork(q, false);
    }

    method TakeWork()
      modifies this
      ensures State() == M.TakeWork(old(State()))
    {
      workCount := Counted(frameWorkQueued, workCount).Process();
      frameWorkQueued := false;
      frameTickPending := false;
    }

    method TakeRender()
      modifies this
      ensures State() == M.TakeRender(old(State()))
    {
      renderCount := Counted(renderQueued, renderCount).Process();
      renderQueued := false;
    }

    method EnsureRenderTargetReady() returns (ready: bool)
      ensures ready == M.EnsureRenderTargetReady(State())
    {
      if !wiring.hasContext {
        return true;
      }
      return wiring.hasSurface && wiring.sized && wiring.targetReady;
    }

    /** destroySurface once both queued flags have been cancelled. */
    method ReleaseSurface()
      modifies this
      ensures State() == M.DestroyOn(old(State()))
    {
      if frameCallback {
        callbackCount := Counted(true, callbackCount).Cancel();
        frameCallback := false;
      }
      wiring := wiring.(hasSurface := false, targetReady := false);
      running := false;
      configured := false;
    }
  }

  /** All surfaces together; the callbacks they run act on any of them. */
  class Shell {
    const surfaces: seq<Surface>
    const queues: Queues

    ghost predicate Valid() {
      forall i :: 0 <= i < |surfaces| ==> surfaces[i].id == i
    }

    constructor (surfaces: seq<Surface>, queues: Queues)
      requires forall i :: 0 <= i < |surfaces| ==> surfaces[i].id == i
      ensures Valid() && this.surfaces == surfaces && this.queues == queues
    {
      this.surfaces, this.queues := surfaces, queues;
    }

    ghost function Model(): (g: M.Shell)
      reads this, queues, surfaces
      ensures |g.surfaces| == |surfaces|
      ensures forall i :: 0 <= i < |surfaces| ==> g.surfaces[i] == surfaces[i].State()
    {
      M.Shell(seq(|surfaces|, i requires 0 <= i < |surfaces| reads surfaces => surfaces[i].State()),
              queues.work, queues.renders)
    }

    /** Only surface i has changed. */
    twostate lemma OthersKept(i: M.Id)
      requires Valid() && i < |surfaces|
      requires forall j :: 0 <= j < |surfaces| && j != i ==> unchanged(surfaces[j])
      ensures Model().surfaces == old(Model()).surfaces[i := surfaces[i].State()]
    {
    }

    method Request(i: M.Id, kind: M.RequestKind)
      requires Valid() && i < |surfaces|
      modifies queues, surfaces
      ensures Model() == M.Put(old(Model()), i, M.RequestOn(old(Model()).surfaces[i], kind))
    {
      surfaces[i].Request(queues, kind);
      OthersKept(i);
    }

    method Cancel(i: M.Id)
      requires Valid() && i < |surfaces|
      modifies queues, surfaces
      ensures Model() == M.Cancel(old(Model()), i)
    {
      surfaces[i].CancelQueuedFrameWork(queues);
      OthersKept(i);
      assert Model() == M.CancelWork(old(Model()), i);
      label cancelled:
      surfaces[i].CancelQueuedRender(queues);
      OthersKept@cancelled(i);
    }

    // The steps of one surface, seen from the whole shell.

    method EnterPrepare(i: M.Id)
      requires Valid() && i < |surfaces|
      modifies queues, surfaces
      ensures Model() == M.Put(old(Model()), i, M.PrepareStart(old(Model()).surfaces[i]))
    {
      surfaces[i].EnterPrepare();
      OthersKept(i);
    }

    method LeavePrepare(i: M.Id)
      requires Valid() && i < |surfaces|
      modifies queues, surfaces
      ensures Model() == M.Put(old(Model()), i, M.PrepareEnd(old(Model()).surfaces[i]))
    {
      surfaces[i].LeavePrepare();
      OthersKept(i);
    }

    method SetInFrameHandler(i: M.Id, inside: bool)
      requires Valid() && i < |surfaces|
      modifies queues, surfaces
      ensures Model() == M.Put(old(Model()), i, M.InHandler(old(Model()).surfaces[i], inside))
    {
      surfaces[i].SetInFrameHandler(inside);
      OthersKept(i);
    }

    method BeginConfigure(i: M.Id, sized: bool)
      requires Valid() && i < |surfaces|
      modifies queues, surfaces
      ensures Model() == M.Put(old(Model()), i, M.ConfigureStart(old(Model()).surfaces[i], sized))
    {
      surfaces[i].BeginConfigure(sized);
      OthersKept(i);
    }

    method EndConfigure(i: M.Id)
      requires Valid() && i < |surfaces|
      modifies queues, surfaces
      ensures Model() == M.Put(old(Model()), i, M.ConfigureEnd(old(Model()).surfaces[i]))
    {
      surfaces[i].EndConfigure(queues);
      OthersKept(i);
    }

    method TakeWork(i: M.Id)
      requires Valid() && i < |surfaces|
      modifies queues, surfaces
      ensures Model() == M.Put(old(Model()), i, M.TakeWork(old(Model()).surfaces[i]))
    {
      surfaces[i].TakeWork();
      OthersKept(i);
    }

    method TakeRender(i: M.Id)
      requires Valid() && i < |surfaces|
      modifies queues, surfaces
      ensures Model() == M.Put(old(Model()), i, M.TakeRender(old(Model()).surfaces[i]))
    {
      surfaces[i].TakeRender();
      OthersKept(i);
    }

    method QueueRenderIfNeeded(i: M.Id)
      requires Valid() && i < |surfaces|
      modifies queues, surfaces
      ensures Model() == M.Put(old(Model()), i, M.QueueRenderIfNeeded(old(Model()).surfaces[i]))
    {
      surfaces[i].QueueRenderIfNeeded(queues);
      OthersKept(i);
    }

    method Render(i: M.Id)
      requires Valid() && i < |surfaces|
      modifies queues, surfaces
      ensures Model() == M.Put(old(Model()), i, M.RenderOn(old(Model()).surfaces[i]))
    {
      surfaces[i].Render();
      OthersKept(i);
    }

    method PreparePendingFrame(i: M.Id, prepare: M.Script)
      requires Valid() && i < |surfaces|
      modifies queues, surfaces
      ensures Model() == M.Prepare(old(Model()), i, prepare)
      decreases prepare, 1
    {
      var s := surfaces[i];
      if !s.wiring.hasPrepare || (!s.updateRequested && !s.layoutRequested) {
        return;
      }
      var ready := s.EnsureRenderTargetReady();
      if !ready {
        return;
      }
      EnterPrepare(i);
      Exec(prepare);
      LeavePrepare(i);
    }

    method RenderNow(i: M.Id, prepare: M.Script)
      requires Valid() && i < |surfaces|
      modifies queues, surfaces
      ensures Model() == M.ExecOp(old(Model()), M.RenderNow(i, prepare))
      decreases prepare, 2
    {
      if surfaces[i].running && surfaces[i].configured {
        Cancel(i);
        PreparePendingFrame(i, prepare);
        Render(i);
      }
    }

    method OnConfigure(i: M.Id, sized: bool, onConfigure: M.Script)
      requires Valid() && i < |surfaces|
      modifies queues, surfaces
      ensures Model() == M.ExecOp(old(Model()), M.Configure(i, sized, onConfigure))
      decreases onConfigure, 2
    {
      BeginConfigure(i, sized);
      Exec(onConfigure);
      EndConfigure(i);
    }

    method DestroySurface(i: M.Id)
      requires Valid() && i < |surfaces|
      modifies queues, surfaces
      ensures Model() == M.ExecOp(old(Model()), M.Destroy(i))
    {
      Cancel(i);
      label cancelled:
      surfaces[i].ReleaseSurface();
      OthersKept@cancelled(i);
    }

    /** The operations on one surface that run no callback. */
    method Event(op: M.Op)
      requires Valid() && op.id < |surfaces|
      requires op.RequestFrameTick? || op.DiscardCallback? || op.FrameDone? || op.Rewire?
      modifies queues, surfaces
      ensures Model() == M.ExecOp(old(Model()), op)
    {
      var i := op.id;
      var s := surfaces[i];
      if op.RequestFrameTick? {
        s.RequestFrameTick(queues);
        OthersKept(i);
      } else if op.DiscardCallback? {
        s.DiscardPendingFrameCallback();
        OthersKept(i);
      } else if op.FrameDone? {
        if s.frameCallback {
          s.HandleFrameDone(queues);
          OthersKept(i);
        }
      } else {
        s.running := op.running;
        s.wiring := op.wiring;
        OthersKept(i);
      }
    }

    /** Whatever a callback does next. */
    method ExecOp(op: M.Op)
      requires Valid()
      modifies queues, surfaces
      ensures Model() == M.ExecOp(old(Model()), op)
      decreases op
    {
      if op.id >= |surfaces| {
        return;
      }
      if op.Request? {
        Request(op.id, op.kind);
      } else if op.RenderNow? {
        RenderNow(op.id, op.prepare);
      } else if op.Configure? {
        OnConfigure(op.id, op.sized, op.onConfigure);
      } else if op.Destroy? {
        DestroySurface(op.id);
      } else {
        Event(op);
      }
    }

    method Exec(script: M.Script)
      requires Valid()
      modifies queues, surfaces
      ensures Model() == M.Exec(old(Model()), script)
      decreases script, 0
    {
      if script.Then? {
        ExecOp(script.op);
        Exec(script.rest);
      }
    }

    method RunFrameHandler(i: M.Id, scripts: M.WorkScripts)
      requires Valid() && i < |surfaces|
      modifies queues, surfaces
      ensures Model() == M.FrameHandler(old(Model()), i, scripts)
    {
      SetInFrameHandler(i, true);
      Exec(scripts.animation);
      if surfaces[i].wiring.hasFrameTick {
        var ready := surfaces[i].EnsureRenderTargetReady();
        if ready {
          Exec(scripts.frameTick);
        }
      }
      Exec(scripts.update);
      SetInFrameHandler(i, false);
    }

    method ProcessQueuedFrameWork(i: M.Id, scripts: M.WorkScripts)
      requires Valid() && i < |surfaces|
      modifies queues, surfaces
      ensures Model() == M.ProcessQueuedFrameWork(old(Model()), i, scripts)
    {
      var s := surfaces[i];
      var runFrameTick := s.frameTickPending;
      TakeWork(i);
      if !s.wiring.hasSurface || !s.configured {
        return;
      }
      if runFrameTick {
        RunFrameHandler(i, scripts);
      }
      PreparePendingFrame(i, scripts.prepare);
      QueueRenderIfNeeded(i);
    }

    method RenderQueuedFrame(i: M.Id, prepare: M.Script)
      requires Valid() && i < |surfaces|
      modifies queues, surfaces
      ensures Model() == M.RenderQueuedFrame(old(Model()), i, prepare)
    {
      var s := surfaces[i];
      TakeRender(i);
      if !s.wiring.hasSurface || !s.configured {
        return;
      }
      PreparePendingFrame(i, prepare);
      if s.redrawRequested || s.wiring.sceneDirty {
        Render(i);
      }
    }

    method DrainPendingFrameWork(scripts: seq<M.WorkScripts>)
      requires Valid()
      modifies queues, surfaces
      ensures Model() == M.ExecStep(old(Model()), M.DrainWork(scripts))
    {
      var pending := queues.work;
      queues.work := [];
      assert Model() == old(Model()).(work := []);
      var k := 0;
      while k < |pending|
        invariant k <= |pending|
        invariant M.VisitWork(Model(), pending, k, scripts) == M.ExecStep(old(Model()), M.DrainWork(scripts))
      {
        var i := pending[k];
        if i < |surfaces| && surfaces[i].frameWorkQueued {
          ProcessQueuedFrameWork(i, M.WorkScriptsAt(scripts, k));
        }
        k := k + 1;
      }
    }

    method DrainPendingRenders(prepares: seq<M.Script>)
      requires Valid()
      modifies queues, surfaces
      ensures Model() == M.ExecStep(old(Model()), M.DrainRenders(prepares))
    {
      var pending := queues.renders;
      queues.renders := [];
      assert Model() == old(Model()).(renders := []);
      var k := 0;
      while k < |pending|
        invariant k <= |pending|
        invariant M.VisitRenders(Model(), pending, k, prepares) == M.ExecStep(old(Model()), M.DrainRenders(prepares))
      {
        var i := pending[k];
        if i < |surfaces| && surfaces[i].renderQueued {
          RenderQueuedFrame(i, M.ScriptAt(prepares, k));
        }
        k := k + 1;
      }
    }
  }
}
