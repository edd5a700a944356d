/** What a surface does to its own frame state, as functions on values.
    Callbacks are scripts: the operations a callback performs while it is on the
    stack, each of which may run further callbacks. Quantifying over scripts
    quantifies over every re-entrant behaviour of the code that owns surfaces. */
module FrameModel {

  type Id = nat

  /** A flag that is raised and later answered, with the count of both:
      a queued flag is answered by processing or by cancelling the queued work,
      a wl_callback in flight by its done event or by destroying it. */
  datatype Flag = Flag(up: bool, raised: nat, processed: nat, cancelled: nat) {

    /** Each raise has had one answer, except the last one while the flag is up. */
    predicate Balanced() {
      raised == processed + cancelled + (if up then 1 else 0)
    }

    predicate Onward(r: Flag) {
      raised <= r.raised && processed <= r.processed && cancelled <= r.cancelled
    }

    function Raise(): (r: Flag)
      ensures r.up && (Balanced() ==> r.Balanced()) && Onward(r)
    {
      if up then this else Flag(true, raised + 1, processed, cancelled)
    }

    function Process(): (r: Flag)
      ensures !r.up && (up && Balanced() ==> r.Balanced()) && Onward(r) && r.processed > processed
    {
      Flag(false, raised, processed + 1, cancelled)
    }

    function Cancel(): (r: Flag)
      ensures !r.up && (Balanced() ==> r.Balanced()) && Onward(r)
    {
      if up then Flag(false, raised, processed, cancelled + 1) else this
    }
  }

  /** What the surface is attached to, and the answers its surroundings give. */
  datatype Wiring = Wiring(
    hasSurface: bool,    // the wl_surface exists
    hasContext: bool,    // a render context is set
    sized: bool,         // width and height are both non-zero
    targetReady: bool,   // the render target is ready after a resize
    hasPrepare: bool,    // a prepare-frame callback is set
    hasFrameTick: bool,  // a frame-tick callback is set
    frameGranted: bool,  // wl_surface_frame returns a callback object
    sceneDirty: bool,    // the scene root is paint- or layout-dirty
    animating: bool)     // the animation manager has an active animation

  datatype Requests = Requests(
    update: bool,
    layout: bool,
    redraw: bool,
    owed: bool)  // an update or layout request made outside the prepare callback is pending

  datatype Ticks = Ticks(
    pending: bool,   // m_frameTickPending
    inFlight: bool,  // m_frameCallbackShouldTick
    next: bool,      // m_nextFrameCallbackShouldTick
    owed: bool,      // a tick asked for outside the handlers that no frame handler has run for
    handled: nat)    // frame handlers entered so far

  datatype Phase = Phase(running: bool, configured: bool, inFrameHandler: bool, inPrepareFrame: bool)

  datatype Surface = Surface(
    requests: Requests,
    ticks: Ticks,
    phase: Phase,
    work: Flag,      // m_frameWorkQueued
    render: Flag,    // m_renderQueued
    callback: Flag,  // m_frameCallback is not null
    wiring: Wiring)

  datatype RequestKind = Update | UpdateOnly | Layout | Redraw

  /** The operations other code performs on surfaces, from the main loop or from
      inside a callback. A script argument is what the callback run by the
      operation does, if the operation does run it. */
  datatype Op =
    | Request(id: Id, kind: RequestKind)
    | RequestFrameTick(id: Id)
    | RenderNow(id: Id, prepare: Script)
    | DiscardCallback(id: Id)
    | FrameDone(id: Id)
    | Configure(id: Id, sized: bool, onConfigure: Script)
    | Destroy(id: Id)
    | Rewire(id: Id, running: bool, wiring: Wiring)

  datatype Script = Done | Then(op: Op, rest: Script)

  /** What the four callbacks of one frame-work step do. */
  datatype WorkScripts = WorkScripts(animation: Script, frameTick: Script, update: Script, prepare: Script)

  /** One turn of the main loop as far as surfaces are concerned. */
  datatype Step =
    | Direct(script: Script)
    | DrainWork(work: seq<WorkScripts>)
    | DrainRenders(prepares: seq<Script>)

  /** All surfaces, with the two global queues. */
  datatype Shell = Shell(surfaces: seq<Surface>, work: seq<Id>, renders: seq<Id>)

  // ----- one surface -----

  predicate EnsureRenderTargetReady(s: Surface) {
    !s.wiring.hasContext || (s.wiring.hasSurface && s.wiring.sized && s.wiring.targetReady)
  }

  predicate Invalidated(s: Surface) { s.requests.redraw || s.wiring.sceneDirty }

  function QueueFrameWork(s: Surface, runFrameTick: bool): Surface {
    var s1 := if runFrameTick then s.(ticks := s.ticks.(pending := true)) else s;
    s1.(work := s1.work.Raise())
  }

  function QueueRender(s: Surface): Surface { s.(render := s.render.Raise()) }

  function CancelQueuedFrameWork(s: Surface): Surface {
    if !s.work.up then s else s.(work := s.work.Cancel(), ticks := s.ticks.(pending := false, owed := false))
  }

  function CancelQueuedRender(s: Surface): Surface { s.(render := s.render.Cancel()) }

  function RequestFrame(s: Surface): Surface {
    if s.callback.up then
      s.(ticks := s.ticks.(inFlight := s.ticks.inFlight || s.ticks.next, next := false))
    else
      var s1 := s.(ticks := s.ticks.(inFlight := s.ticks.next || s.wiring.animating, next := false));
      if s.wiring.frameGranted then s1.(callback := s1.callback.Raise()) else s1
  }

  function ContinueAnimationFrameLoop(s: Surface): Surface {
    if !s.wiring.hasSurface || s.callback.up then s else RequestFrame(s)
  }

  function QueueRenderIfNeeded(s: Surface): Surface {
    if Invalidated(s) then QueueRender(s)
    else if s.wiring.animating then ContinueAnimationFrameLoop(s)
    else s
  }

  /** kickFrameLoop returns at once in these states. */
  predicate KickBlocked(s: Surface) {
    || !s.phase.running || !s.phase.configured || s.callback.up
    || s.phase.inFrameHandler || s.phase.inPrepareFrame || s.work.up
  }

  function KickFrameLoop(s: Surface): Surface {
    if KickBlocked(s) then s
    else if s.requests.update || s.requests.layout then QueueFrameWork(s, false)
    else QueueRenderIfNeeded(s)
  }

  /** The flags a request sets, before the frame loop is kicked. */
  function Flagged(s: Surface, kind: RequestKind): Surface {
    var r := s.requests;
    var owed := r.owed || !s.phase.inPrepareFrame;
    match kind
    case Update => s.(requests := Requests(true, true, r.redraw, owed))
    case UpdateOnly => s.(requests := Requests(true, r.layout, r.redraw, owed))
    case Layout => s.(requests := Requests(r.update, true, r.redraw, owed))
    case Redraw =>
      s.(requests := r.(redraw := true), ticks := s.ticks.(next := s.ticks.next || s.wiring.hasFrameTick))
  }

  function RequestOn(s: Surface, kind: RequestKind): Surface { KickFrameLoop(Flagged(s, kind)) }

  function RequestFrameTickOn(s: Surface): Surface {
    if !s.phase.running || !s.phase.configured then s
    else
      var owed := s.ticks.owed || (!s.phase.inFrameHandler && !s.phase.inPrepareFrame);
      var s1 := s.(ticks := s.ticks.(owed := owed));
      if s.callback.up || s.phase.inFrameHandler || s.phase.inPrepareFrame
      then s1.(ticks := s1.ticks.(pending := true))
      else QueueFrameWork(s1, true)
  }

  function RenderOn(s: Surface): Surface {
    if !s.wiring.hasSurface || !s.wiring.hasContext || !s.wiring.targetReady then s
    else
      var s1 := RequestFrame(s);
      s1.(wiring := s1.wiring.(sceneDirty := false), requests := s1.requests.(redraw := false))
  }

  function DiscardOn(s: Surface): Surface {
    if !s.callback.up then s
    else s.(ticks := s.ticks.(next := s.ticks.next || s.ticks.inFlight, inFlight := false),
            callback := s.callback.Cancel())
  }

  function FrameDoneOn(s: Surface): Surface
    requires s.callback.up
  {
    var runFrameTick := s.ticks.inFlight || s.ticks.pending || s.wiring.animating;
    var s1 := s.(callback := s.callback.Process(), ticks := s.ticks.(inFlight := false));
    if runFrameTick || s.requests.update || s.requests.layout || Invalidated(s)
    then QueueFrameWork(s1, runFrameTick)
    else s1
  }

  function DestroyOn(s: Surface): Surface {
    s.(callback := s.callback.Cancel(),
       wiring := s.wiring.(hasSurface := false, targetReady := false),
       phase := s.phase.(running := false, configured := false))
  }

  function ConfigureStart(s: Surface, sized: bool): Surface {
    s.(wiring := s.wiring.(sized := sized), phase := s.phase.(configured := true))
  }

  function ConfigureEnd(s: Surface): Surface {
    QueueFrameWork(s.(requests := s.requests.(redraw := true)), false)
  }

  /** preparePendingFrame runs its callback exactly in these states. */
  predicate PrepareRuns(s: Surface) {
    s.wiring.hasPrepare && (s.requests.update || s.requests.layout) && EnsureRenderTargetReady(s)
  }

  function PrepareStart(s: Surface): Surface {
    s.(requests := Requests(false, false, s.requests.redraw, false), phase := s.phase.(inPrepareFrame := true))
  }

  function PrepareEnd(s: Surface): Surface { s.(phase := s.phase.(inPrepareFrame := false)) }

  /** Entering or leaving the frame handler. */
  function InHandler(s: Surface, inside: bool): Surface {
    var ticks := if inside then s.ticks.(owed := false, handled := s.ticks.handled + 1) else s.ticks;
    s.(phase := s.phase.(inFrameHandler := inside), ticks := ticks)
  }

  function TakeWork(s: Surface): Surface {
    s.(work := s.work.Process(), ticks := s.ticks.(pending := false))
  }

  function TakeRender(s: Surface): Surface { s.(render := s.render.Process()) }

  function Rewired(s: Surface, running: bool, wiring: Wiring): Surface {
    s.(phase := s.phase.(running := running), wiring := wiring)
  }

  // ----- all surfaces -----

  /** Stores the new state of surface i; a flag that is raised by it enters its queue. */
  function Put(g: Shell, i: Id, s: Surface): Shell
    requires i < |g.surfaces|
  {
    var before := g.surfaces[i];
    Shell(g.surfaces[i := s],
          if !before.work.up && s.work.up then g.work + [i] else g.work,
          if !before.render.up && s.render.up then g.renders + [i] else g.renders)
  }

  function Erase(queue: seq<Id>, i: Id): (r: seq<Id>)
    ensures forall j :: j in r <==> j in queue && j != i
  {
    if queue == [] then []
    else if queue[0] == i then Erase(queue[1..], i)
    else [queue[0]] + Erase(queue[1..], i)
  }

  function CancelWork(g: Shell, i: Id): Shell
    requires i < |g.surfaces|
  {
    var s := g.surfaces[i];
    if !s.work.up then g
    else g.(surfaces := g.surfaces[i := CancelQueuedFrameWork(s)], work := Erase(g.work, i))
  }

  function CancelRender(g: Shell, i: Id): Shell
    requires i < |g.surfaces|
  {
    var s := g.surfaces[i];
    if !s.render.up then g
    else g.(surfaces := g.surfaces[i := CancelQueuedRender(s)], renders := Erase(g.renders, i))
  }

  function Cancel(g: Shell, i: Id): Shell
    requires i < |g.surfaces|
  {
    CancelRender(CancelWork(g, i), i)
  }

  function Prepare(g: Shell, i: Id, prepare: Script): (r: Shell)
    requires i < |g.surfaces|
    ensures |r.surfaces| == |g.surfaces|
    decreases prepare, 1
  {
    var s := g.surfaces[i];
    if !PrepareRuns(s) then g
    else
      var g1 := Exec(Put(g, i, PrepareStart(s)), prepare);
      Put(g1, i, PrepareEnd(g1.surfaces[i]))
  }

  function ExecOp(g: Shell, op: Op): (r: Shell)
    ensures |r.surfaces| == |g.surfaces|
    decreases op
  {
    if op.id >= |g.surfaces| then g
    else
      var s := g.surfaces[op.id];
      match op
      case Request(i, kind) => Put(g, i, RequestOn(s, kind))
      case RequestFrameTick(i) => Put(g, i, RequestFrameTickOn(s))
      case RenderNow(i, prepare) =>
        if !s.phase.running || !s.phase.configured then g
        else
          var g1 := Prepare(Cancel(g, i), i, prepare);
          Put(g1, i, RenderOn(g1.surfaces[i]))
      case DiscardCallback(i) => Put(g, i, DiscardOn(s))
      // the compositor answers only a callback that is in flight
      case FrameDone(i) => if s.callback.up then Put(g, i, FrameDoneOn(s)) else g
      case Configure(i, sized, onConfigure) =>
        var g1 := Exec(Put(g, i, ConfigureStart(s, sized)), onConfigure);
        Put(g1, i, ConfigureEnd(g1.surfaces[i]))
      case Destroy(i) =>
        var g1 := Cancel(g, i);
        Put(g1, i, DestroyOn(g1.surfaces[i]))
      case Rewire(i, running, wiring) => Put(g, i, Rewired(s, running, wiring))
  }

  function Exec(g: Shell, script: Script): (r: Shell)
    ensures |r.surfaces| == |g.surfaces|
    decreases script, 0
  {
    match script
    case Done => g
    case Then(op, rest) => Exec(ExecOp(g, op), rest)
  }

  /** The frame handler of one frame-work step: animations, frame tick, update. */
  function FrameHandler(g: Shell, i: Id, scripts: WorkScripts): (r: Shell)
    requires i < |g.surfaces|
    ensures |r.surfaces| == |g.surfaces|
  {
    var g1 := Exec(Put(g, i, InHandler(g.surfaces[i], true)), scripts.animation);
    var ticks := g1.surfaces[i].wiring.hasFrameTick && EnsureRenderTargetReady(g1.surfaces[i]);
    var g2 := if ticks then Exec(g1, scripts.frameTick) else g1;
    var g3 := Exec(g2, scripts.update);
    Put(g3, i, InHandler(g3.surfaces[i], false))
  }

  function ProcessQueuedFrameWork(g: Shell, i: Id, scripts: WorkScripts): (r: Shell)
    requires i < |g.surfaces|
    ensures |r.surfaces| == |g.surfaces|
  {
    var s := g.surfaces[i];
    var g0 := Put(g, i, TakeWork(s));
    if !s.wiring.hasSurface || !s.phase.configured then g0
    else
      var g1 := if s.ticks.pending then FrameHandler(g0, i, scripts) else g0;
      var g2 := Prepare(g1, i, scripts.prepare);
      Put(g2, i, QueueRenderIfNeeded(g2.surfaces[i]))
  }

  function RenderQueuedFrame(g: Shell, i: Id, prepare: Script): (r: Shell)
    requires i < |g.surfaces|
    ensures |r.surfaces| == |g.surfaces|
  {
    var s := g.surfaces[i];
    var g0 := Put(g, i, TakeRender(s));
    if !s.wiring.hasSurface || !s.phase.configured then g0
    else
      var g1 := Prepare(g0, i, prepare);
      var s1 := g1.surfaces[i];
      if Invalidated(s1) then Put(g1, i, RenderOn(s1)) else g1
  }

  /** The script of the k-th visit of a drain; a visit with none does nothing. */
  function WorkScriptsAt(scripts: seq<WorkScripts>, k: nat): WorkScripts {
    if k < |scripts| then scripts[k] else WorkScripts(Done, Done, Done, Done)
  }

  function ScriptAt(scripts: seq<Script>, k: nat): Script {
    if k < |scripts| then scripts[k] else Done
  }

  /** Visits the batch from position k on. */
  function VisitWork(g: Shell, batch: seq<Id>, k: nat, scripts: seq<WorkScripts>): (r: Shell)
    ensures |r.surfaces| == |g.surfaces|
    decreases |batch| - k
  {
    if k >= |batch| then g
    else
      var i := batch[k];
      var g1 := if i < |g.surfaces| && g.surfaces[i].work.up
                then ProcessQueuedFrameWork(g, i, WorkScriptsAt(scripts, k)) else g;
      VisitWork(g1, batch, k + 1, scripts)
  }

  function VisitRenders(g: Shell, batch: seq<Id>, k: nat, scripts: seq<Script>): (r: Shell)
    ensures |r.surfaces| == |g.surfaces|
    decreases |batch| - k
  {
    if k >= |batch| then g
    else
      var i := batch[k];
      var g1 := if i < |g.surfaces| && g.surfaces[i].render.up
                then RenderQueuedFrame(g, i, ScriptAt(scripts, k)) else g;
      VisitRenders(g1, batch, k + 1, scripts)
  }

  function ExecStep(g: Shell, step: Step): (r: Shell)
    ensures |r.surfaces| == |g.surfaces|
  {
    match step
    case Direct(script) => Exec(g, script)
    case DrainWork(scripts) => VisitWork(g.(work := []), g.work, 0, scripts)
    case DrainRenders(scripts) => VisitRenders(g.(renders := []), g.renders, 0, scripts)
  }

  function Run(g: Shell, steps: seq<Step>): (r: Shell)
    ensures |r.surfaces| == |g.surfaces|
    decreases |steps|
  {
    if steps == [] then g
    else ExecStep(Run(g, steps[..|steps| - 1]), steps[|steps| - 1])
  }
}
