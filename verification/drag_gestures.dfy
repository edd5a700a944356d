/** One gesture from any point of it to its end: what stays, how each node looks until the
    end, what every way of ending makes of it, and exactly which looks given during a
    gesture outlast it. */
module DragGestures {
  import opened Options
  import opened SceneTree
  import opened DropTargets
  import opened DragModel
  import opened DragRuns

  predicate DraggedHere(d: Drag, n: Id) { d.phase == Dragging && d.source == Some(n) }

  /** A step that logs something while a gesture is on ends that gesture. */
  ghost predicate Logs(e: Setting, s: State, op: Op) { Step(e, s, op).log != s.log }

  ghost predicate Ends(e: Setting, s: State, op: Op) { s.drag.phase != Idle && Logs(e, s, op) }

  /** The operation sets the node's own look, by painting it or through its source. */
  predicate SetsLook(op: Op, n: Id) {
    match op
    case DoPaint(m, _) => m == n
    case DoSetSourceOpacity(id, _) => id == n
    case _ => false
  }

  predicate SetsLevels(op: Op, n: Id) { op.DoChangeSource? && op.source == n && op.sourceChange.SetLevels? }

  /** The operation leaves the node's look, its own opacity and its registration alone. */
  predicate Spares(op: Op, n: Id) { !SetsLook(op, n) && op != DoUnregisterSource(n) }

  /** It does not apply the visual state of the node's source again either. */
  predicate Leaves(op: Op, n: Id) { Spares(op, n) && !SetsLevels(op, n) }

  /** The gesture of d still goes on in r. */
  predicate SameGesture(d: Drag, r: Drag) {
    && d.phase != Idle && r.phase != Idle && r.source == d.source && r.overlay == d.overlay
    && r.held == d.held.(preview := r.held.preview)
    && (d.phase == Dragging ==> r.phase == Dragging && r.held.preview == d.held.preview)
  }

  /** The look that the start of the drag makes of a look, read off the dragging state. */
  function StartedLook(s: State, n: Id, look: Look): Look {
    var d := s.drag;
    if d.source.None? || d.source.value !in s.scene.sources then look
    else
      var source := s.scene.sources[d.source.value];
      if d.held.node == Some(n) && d.held.preview then
        if source.props.lift then Look(0.0, false) else look.(opacity := d.held.saved.opacity * 0.28)
      else if d.source == Some(n) then look.(opacity := VisualOpacity(source))
      else look
  }

  /** How the node looks in u if it looked like this in s, earlier in the same gesture. */
  function LookLater(s: State, u: State, n: Id): Look {
    var look := LookIn(s.scene.looks, n);
    if s.drag.phase == Armed && u.drag.phase == Dragging then StartedLook(u, n, look) else look
  }

  // ----- a step that goes on -----

  lemma CancelLogsEnd(s: State)
    ensures s.drag.source.Some? ==> Cancel(s).log == s.log + [Ended(s.drag.source.value)]
    ensures s.log <= Cancel(s).log
  {
  }

  ghost predicate GoesOn(e: Setting, s: State, op: Op) {
    Sound(e, s) && s.drag.phase != Idle && !Logs(e, s, op)
  }

  /** What a step that goes on leaves as it is for node n. */
  ghost predicate Steady(s: State, u: State, n: Id) {
    && SameGesture(s.drag, u.drag)
    && LookIn(u.scene.looks, n) == LookLater(s, u, n)
    && (n in s.scene.sources ==> n in u.scene.sources && u.scene.sources[n].ownOpacity == s.scene.sources[n].ownOpacity)
    && (s.drag.phase == Dragging ==> SameStart(s, u, n))
  }

  ghost predicate SameStart(s: State, u: State, n: Id) {
    forall look: Look :: StartedLook(u, n, look) == StartedLook(s, n, look)
  }

  lemma StartDraggingSteady(e: Setting, s: State, id: Id, n: Id)
    requires Sound(e, s) && s.drag.phase == Armed && s.drag.source == Some(id)
    ensures Steady(s, StartDragging(s, id), n)
  {
  }

  /** The active source stays as it is, and the node is not touched. */
  lemma ElsewhereSteady(e: Setting, s: State, u: State, n: Id)
    requires Sound(e, s) && s.drag.phase != Idle && u.drag == s.drag.(target := u.drag.target, cargo := u.drag.cargo)
    requires LookIn(u.scene.looks, n) == LookIn(s.scene.looks, n)
    requires s.drag.source.value in u.scene.sources
    requires var p, q := s.scene.sources[s.drag.source.value], u.scene.sources[s.drag.source.value];
      q.props == p.props && q.dragging == p.dragging
    requires n in s.scene.sources ==>
      n in u.scene.sources && u.scene.sources[n].ownOpacity == s.scene.sources[n].ownOpacity
    ensures Steady(s, u, n)
  {
  }

  lemma UpdateTargetLeaves(s: State, g: Geometry)
    ensures var u := UpdateTarget(s, g);
      && u.drag == s.drag.(target := u.drag.target, cargo := u.drag.cargo)
      && u.scene.looks == s.scene.looks && u.scene.sources == s.scene.sources && u.log == s.log
  {
  }

  lemma SteadyTwice(s: State, t: State, u: State, n: Id)
    requires Steady(s, t, n) && Steady(t, u, n)
    ensures Steady(s, u, n)
  {
  }

  lemma MotionSteady(e: Setting, s: State, id: Id, far: bool, g: Geometry, n: Id)
    requires Sound(e, s) && s.drag.phase != Idle
    ensures Steady(s, Motion(s, id, far, g), n)
  {
    if s.drag.source == Some(id) && s.drag.phase == Armed && far {
      var t := StartDragging(s, id);
      StartDraggingSteady(e, s, id, n);
      StartDraggingKeeps(e, s, id);
      UpdateTargetLeaves(t, g);
      ElsewhereSteady(e, t, UpdateTarget(t, g), n);
      SteadyTwice(s, t, UpdateTarget(t, g), n);
    } else if s.drag.source == Some(id) && s.drag.phase == Dragging {
      UpdateTargetLeaves(s, g);
      ElsewhereSteady(e, s, UpdateTarget(s, g), n);
    } else {
      ElsewhereSteady(e, s, s, n);
    }
  }

  /** Changing the active source cancels first. */
  lemma ActiveChange(e: Setting, s: State, id: Id, c: SourceChange)
    requires Sound(e, s) && s.drag.source == Some(id)
    ensures var u, v := ChangeSource(s, id, c), Cancel(s);
      u == s || (
        && u.drag == v.drag && u.log == v.log && id in v.scene.sources
        && u.scene.sources == v.scene.sources[id := v.scene.sources[id].(props := u.scene.sources[id].props)]
        && u.scene.looks == if c.SetLevels?
             then v.scene.looks[id := LookIn(v.scene.looks, id).(opacity := s.scene.sources[id].ownOpacity)]
             else v.scene.looks)
  {
  }

  /** Changing another source only stores it, and applies its visual state at a new level. */
  lemma OtherChange(e: Setting, s: State, id: Id, c: SourceChange)
    requires Sound(e, s) && s.drag.source != Some(id)
    ensures var u := ChangeSource(s, id, c);
      u == s || (
        && u.drag == s.drag && u.log == s.log && id in s.scene.sources
        && u.scene.sources == s.scene.sources[id := s.scene.sources[id].(props := u.scene.sources[id].props)]
        && u.scene.looks == if c.SetLevels?
             then s.scene.looks[id := LookIn(s.scene.looks, id).(opacity := s.scene.sources[id].ownOpacity)]
             else s.scene.looks)
  {
  }

  lemma ChangeSourceSteady(e: Setting, s: State, id: Id, c: SourceChange, n: Id)
    requires GoesOn(e, s, DoChangeSource(id, c)) && Leaves(DoChangeSource(id, c), n)
    ensures Steady(s, ChangeSource(s, id, c), n)
  {
    CancelLogsEnd(s);
    if s.drag.source == Some(id) {
      ActiveChange(e, s, id, c);
    } else {
      OtherChange(e, s, id, c);
    }
    ElsewhereSteady(e, s, ChangeSource(s, id, c), n);
  }

  lemma ChangeZoneSteady(e: Setting, s: State, z: Id, c: ZoneChange, n: Id)
    requires GoesOn(e, s, DoChangeZone(z, c))
    ensures Steady(s, ChangeZone(s, z, c), n)
  {
    CancelLogsEnd(s);
    ElsewhereSteady(e, s, ChangeZone(s, z, c), n);
  }

  lemma UnregisterSourceSteady(e: Setting, s: State, id: Id, n: Id)
    requires GoesOn(e, s, DoUnregisterSource(id)) && id != n
    ensures Steady(s, UnregisterSource(s, id), n)
  {
    ElsewhereSteady(e, s, UnregisterSource(s, id), n);
  }

  lemma UnregisterZoneSteady(e: Setting, s: State, z: Id, n: Id)
    requires GoesOn(e, s, DoUnregisterZone(z))
    ensures Steady(s, UnregisterZone(s, z), n)
  {
    var u := s.(scene := s.scene.(zones := s.scene.zones - {z}));
    CancelLogsEnd(u.(drag := u.drag.(target := None, cargo := u.drag.cargo.(targetValue := ""))));
    ElsewhereSteady(e, s, UnregisterZone(s, z), n);
  }

  lemma WritesSteady(e: Setting, s: State, op: Op, n: Id)
    requires GoesOn(e, s, op) && Leaves(op, n) && (op.DoSetSourceOpacity? || op.DoPaint?)
    ensures Steady(s, Step(e, s, op), n)
  {
    ElsewhereSteady(e, s, Step(e, s, op), n);
  }

  /** Arming, releasing and cancelling go on only where they do nothing. */
  lemma OthersSteady(e: Setting, s: State, op: Op, n: Id)
    requires GoesOn(e, s, op)
    requires op.DoArm? || op.DoRelease? || op.DoCancel? || op.DoSetOverlay? || op.DoCancelIfIn?
    ensures Step(e, s, op) == s && Steady(s, s, n)
  {
    CancelLogsEnd(s);
    if op.DoRelease? {
      UpdateTargetLeaves(s, op.g);
      CancelLogsEnd(UpdateTarget(s, op.g));
    }
    ElsewhereSteady(e, s, s, n);
  }

  lemma StepSteady(e: Setting, s: State, op: Op, n: Id)
    requires GoesOn(e, s, op) && Leaves(op, n)
    ensures Steady(s, Step(e, s, op), n)
  {
    match op
    case DoMotion(id, far, g) => MotionSteady(e, s, id, far, g, n);
    case DoChangeSource(id, c) => ChangeSourceSteady(e, s, id, c, n);
    case DoChangeZone(z, c) => ChangeZoneSteady(e, s, z, c, n);
    case DoUnregisterSource(id) => UnregisterSourceSteady(e, s, id, n);
    case DoUnregisterZone(z) => UnregisterZoneSteady(e, s, z, n);
    case DoSetSourceOpacity(_, _) => WritesSteady(e, s, op, n);
    case DoPaint(_, _) => WritesSteady(e, s, op, n);
    case _ => OthersSteady(e, s, op, n);
  }

  lemma StepGoesOn(e: Setting, s: State, op: Op)
    requires GoesOn(e, s, op)
    ensures SameGesture(s.drag, Step(e, s, op).drag)
  {
    var n := match op
      case DoPaint(m, _) => m + 1
      case DoSetSourceOpacity(id, _) => id + 1
      case DoChangeSource(id, _) => id + 1
      case DoUnregisterSource(id) => id + 1
      case _ => 0;
    StepSteady(e, s, op, n);
  }

  /** A source that is its own preview target but is not shown by a preview is dimmed while it is
      dragged; one that shows an ancestor is not. */
  lemma DraggedSourceLooks(e: Setting, s: State, id: Id)
    requires Sound(e, s) && s.drag.phase == Armed && s.drag.source == Some(id) && s.drag.held.node != Some(id)
    ensures var source := s.scene.sources[id];
      LookIn(StartDragging(s, id).scene.looks, id).opacity ==
        if source.props.levels == 0 then source.ownOpacity * 0.55 else source.ownOpacity
  {
  }

  // ----- any number of steps that go on -----

  lemma StepAddsToLog(e: Setting, s: State, op: Op)
    ensures s.log <= Step(e, s, op).log
  {
    CancelLogsEnd(s);
    if op.DoRelease? {
      UpdateTargetLeaves(s, op.g);
      CancelLogsEnd(UpdateTarget(s, op.g));
    } else if op.DoMotion? {
      UpdateTargetLeaves(s, op.g);
      UpdateTargetLeaves(StartDragging(s, op.source), op.g);
    }
  }

  lemma {:induction false} RunAddsToLog(e: Setting, s: State, ops: seq<Op>)
    ensures s.log <= Run(e, s, ops).log
  {
    if ops != [] {
      var n := |ops| - 1;
      RunAddsToLog(e, s, ops[..n]);
      StepAddsToLog(e, Run(e, s, ops[..n]), ops[n]);
    }
  }

  /** The gesture of s goes on through these operations. */
  ghost predicate GoesOnFor(e: Setting, s: State, ops: seq<Op>) {
    Sound(e, s) && s.drag.phase != Idle && Run(e, s, ops).log == s.log
  }

  lemma GoesOnBefore(e: Setting, s: State, ops: seq<Op>)
    requires GoesOnFor(e, s, ops) && ops != []
    ensures GoesOnFor(e, s, ops[..|ops| - 1])
    ensures !Logs(e, Run(e, s, ops[..|ops| - 1]), ops[|ops| - 1])
  {
    RunAddsToLog(e, s, ops[..|ops| - 1]);
    StepAddsToLog(e, Run(e, s, ops[..|ops| - 1]), ops[|ops| - 1]);
  }

  lemma {:induction false} RunSteady(e: Setting, s: State, ops: seq<Op>, n: Id)
    requires GoesOnFor(e, s, ops)
    requires forall k :: 0 <= k < |ops| ==> Leaves(ops[k], n)
    ensures Sound(e, Run(e, s, ops)) && Steady(s, Run(e, s, ops), n)
  {
    if ops == [] {
    } else {
      var before, last := ops[..|ops| - 1], ops[|ops| - 1];
      GoesOnBefore(e, s, ops);
      RunSteady(e, s, before, n);
      StepKeeps(e, Run(e, s, before), last);
      StepSteady(e, Run(e, s, before), last, n);
      SteadyTwice(s, Run(e, s, before), Run(e, s, ops), n);
    }
  }

  /** Unless it is held, the source looks as its own opacity and its drag have it. */
  ghost predicate OwnLook(s: State, id: Id) {
    && id in s.scene.sources
    && (s.drag.held.node != Some(id) ==> LookIn(s.scene.looks, id).opacity == VisualOpacity(s.scene.sources[id]))
  }

  ghost predicate SteadySource(s: State, u: State, id: Id) {
    && SameGesture(s.drag, u.drag) && OwnLook(u, id) && id in s.scene.sources
    && u.scene.sources[id].ownOpacity == s.scene.sources[id].ownOpacity
  }

  lemma SetLevelsSteadySource(e: Setting, s: State, id: Id, c: SourceChange)
    requires GoesOn(e, s, DoChangeSource(id, c)) && OwnLook(s, id)
    ensures SteadySource(s, ChangeSource(s, id, c), id)
  {
    CancelLogsEnd(s);
    if s.drag.source == Some(id) {
      ActiveChange(e, s, id, c);
    } else {
      OtherChange(e, s, id, c);
    }
  }

  lemma SteadyKeepsOwnLook(e: Setting, s: State, u: State, id: Id)
    requires Sound(e, s) && Sound(e, u) && Steady(s, u, id) && OwnLook(s, id)
    ensures SteadySource(s, u, id)
  {
    var look := LookIn(s.scene.looks, id);
    if u.drag.source == Some(id) && s.drag.phase == Dragging {
      assert StartedLook(u, id, look) == StartedLook(s, id, look);
    }
  }

  lemma StepSteadySource(e: Setting, s: State, op: Op, id: Id)
    requires GoesOn(e, s, op) && Spares(op, id) && OwnLook(s, id)
    ensures SteadySource(s, Step(e, s, op), id)
  {
    if SetsLevels(op, id) {
      SetLevelsSteadySource(e, s, id, op.sourceChange);
    } else {
      StepKeeps(e, s, op);
      StepSteady(e, s, op, id);
      SteadyKeepsOwnLook(e, s, Step(e, s, op), id);
    }
  }

  lemma {:induction false} RunSteadySource(e: Setting, s: State, ops: seq<Op>, id: Id)
    requires GoesOnFor(e, s, ops) && OwnLook(s, id)
    requires forall k :: 0 <= k < |ops| ==> Spares(ops[k], id)
    ensures Sound(e, Run(e, s, ops)) && SteadySource(s, Run(e, s, ops), id)
  {
    if ops != [] {
      var before, last := ops[..|ops| - 1], ops[|ops| - 1];
      GoesOnBefore(e, s, ops);
      RunSteadySource(e, s, before, id);
      StepKeeps(e, Run(e, s, before), last);
      StepSteadySource(e, Run(e, s, before), last, id);
    }
  }

  // ----- the end -----

  /** What cancelling makes of every node. */
  lemma CancelLooks(s: State, n: Id)
    requires Phased(s.drag) && Marked(s)
    ensures
      var look := if s.drag.held.node == Some(n) then s.drag.held.saved else LookIn(s.scene.looks, n);
      LookIn(Cancel(s).scene.looks, n) ==
        if DraggedHere(s.drag, n) && n in s.scene.sources then look.(opacity := s.scene.sources[n].ownOpacity) else look
  {
  }

  /** The end applies the visual state of the node's source again. */
  predicate Resets(s: State, op: Op, n: Id) {
    n in s.scene.sources && (DraggedHere(s.drag, n) || SetsLevels(op, n))
  }

  lemma ResetsSource(e: Setting, s: State, op: Op, n: Id)
    requires Sound(e, s) && Ends(e, s, op) && Resets(s, op, n)
    ensures s.drag.source == Some(n)
  {
    if SetsLevels(op, n) && s.drag.source != Some(n) {
      OtherChange(e, s, n, op.sourceChange);
    }
  }

  /** The end puts back the saved look, and the dragged source's own opacity; if the source
      goes, all nodes are left as they are. */
  function EndLook(s: State, op: Op, n: Id): Look {
    if op.DoUnregisterSource? then LookIn(s.scene.looks, n)
    else
      var look := if s.drag.held.node == Some(n) then s.drag.held.saved else LookIn(s.scene.looks, n);
      if Resets(s, op, n) then look.(opacity := s.scene.sources[n].ownOpacity) else look
  }

  ghost predicate EndsAs(e: Setting, s: State, op: Op, n: Id) {
    Step(e, s, op).drag.phase != Dragging && LookIn(Step(e, s, op).scene.looks, n) == EndLook(s, op, n)
  }

  lemma ReleaseEnds(e: Setting, s: State, op: Op, n: Id)
    requires Sound(e, s) && Ends(e, s, op) && op.DoRelease?
    ensures EndsAs(e, s, op, n)
  {
    var u := UpdateTarget(s, op.g);
    UpdateTargetLeaves(s, op.g);
    CancelLooks(s, n);
    if s.drag.phase == Dragging {
      UpdateTargetKeeps(e, s, op.g);
      CancelLooks(u, n);
    }
  }

  lemma ChangeSourceEnds(e: Setting, s: State, op: Op, n: Id)
    requires Sound(e, s) && Ends(e, s, op) && op.DoChangeSource?
    ensures EndsAs(e, s, op, n)
  {
    CancelLooks(s, n);
    if s.drag.source == Some(op.source) {
      ActiveChange(e, s, op.source, op.sourceChange);
    } else {
      OtherChange(e, s, op.source, op.sourceChange);
    }
  }

  lemma UnregisterEnds(e: Setting, s: State, op: Op, n: Id)
    requires Sound(e, s) && Ends(e, s, op) && (op.DoUnregisterSource? || op.DoUnregisterZone?)
    ensures EndsAs(e, s, op, n)
  {
    if op.DoUnregisterZone? {
      var u := s.(scene := s.scene.(zones := s.scene.zones - {op.zone}));
      CancelLooks(u.(drag := u.drag.(target := None, cargo := u.drag.cargo.(targetValue := ""))), n);
    }
  }

  lemma ArmEnds(e: Setting, s: State, op: Op, n: Id)
    requires Sound(e, s) && Ends(e, s, op) && op.DoArm?
    ensures EndsAs(e, s, op, n)
  {
    CancelLooks(s, n);
  }

  lemma ChangeZoneEnds(e: Setting, s: State, op: Op, n: Id)
    requires Sound(e, s) && Ends(e, s, op) && op.DoChangeZone?
    ensures EndsAs(e, s, op, n)
  {
    CancelLooks(s, n);
  }

  lemma CancelEnds(e: Setting, s: State, op: Op, n: Id)
    requires Sound(e, s) && Ends(e, s, op) && (op.DoCancel? || op.DoSetOverlay? || op.DoCancelIfIn?)
    ensures EndsAs(e, s, op, n)
  {
    CancelLooks(s, n);
  }

  lemma EndLooks(e: Setting, s: State, op: Op, n: Id)
    requires Sound(e, s) && Ends(e, s, op)
    ensures EndsAs(e, s, op, n)
  {
    match op
    case DoRelease(_, _, _) => ReleaseEnds(e, s, op, n);
    case DoMotion(id, far, g) =>
      UpdateTargetLeaves(s, g);
      UpdateTargetLeaves(StartDragging(s, id), g);
    case DoChangeSource(_, _) => ChangeSourceEnds(e, s, op, n);
    case DoUnregisterSource(_) => UnregisterEnds(e, s, op, n);
    case DoUnregisterZone(_) => UnregisterEnds(e, s, op, n);
    case DoArm(_) => ArmEnds(e, s, op, n);
    case DoChangeZone(_, _) => ChangeZoneEnds(e, s, op, n);
    case DoSetSourceOpacity(_, _) =>
    case DoPaint(_, _) =>
    case _ => CancelEnds(e, s, op, n);
  }

  // ----- which looks outlast a gesture -----

  /** A new opacity that a source gets at any time during a gesture is there after its end if
      and only if the source is not held, or is itself being dragged when the gesture ends,
      or the opacity is the saved one, or the end is a new preview level of the source. */
  lemma NewOpacityIsKeptExactly(e: Setting, s: State, id: Id, v: real, ops: seq<Op>, last: Op)
    requires Sound(e, s) && s.drag.phase != Idle && id in s.scene.sources
    requires var t := SetSourceOpacity(s, id, v);
      && Run(e, t, ops).log == t.log && (forall k :: 0 <= k < |ops| ==> Spares(ops[k], id))
      && Ends(e, Run(e, t, ops), last) && !last.DoUnregisterSource?
    ensures var u := Run(e, SetSourceOpacity(s, id, v), ops);
      LookIn(Step(e, u, last).scene.looks, id).opacity == Clamped(v) <==>
        || s.drag.held.node != Some(id) || DraggedHere(u.drag, id)
        || s.drag.held.saved.opacity == Clamped(v) || SetsLevels(last, id)
  {
    var t := SetSourceOpacity(s, id, v);
    SetSourceOpacityKeeps(e, s, id, v);
    RunSteadySource(e, t, ops, id);
    EndLooks(e, Run(e, t, ops), last, id);
  }

  /** A scene at rest with one source that is its own preview target. */
  function OneSource(): State {
    var source := Source(SourceProps(true, "tile", "7", 0, false), 1.0, false);
    State(Scene(map[], map[0 := source], map[]),
          Drag(Idle, None, None, Held(None, Look(1.0, true), false), Cargo("", "", ""), None), [])
  }

  /** Its opacity is set while it is pressed. */
  ghost function PressedAndSet(e: Setting): State { SetSourceOpacity(Arm(e, OneSource(), 0), 0, 0.5) }

  lemma PressedSource(e: Setting)
    ensures AtRest(OneSource()) && Sound(e, PressedAndSet(e))
    ensures var t := PressedAndSet(e);
      && t.drag.phase == Armed && t.drag.source == Some(0) && t.drag.held == Held(Some(0), Look(1.0, true), false)
      && t.scene.sources == map[0 := OneSource().scene.sources[0].(ownOpacity := 0.5)]
  {
    var s := Arm(e, OneSource(), 0);
    ArmKeeps(e, OneSource(), 0);
    assert Ancestor(e.tree, 0, 0) == 0;
    SetSourceOpacityKeeps(e, s, 0, 0.5);
  }

  /** It happens: the new opacity of a pressed source is lost on a tap and kept by a drag. */
  lemma TapLosesNewOpacity(e: Setting, inside: bool, g: Geometry)
    ensures LookIn(Release(e, PressedAndSet(e), 0, inside, g).scene.looks, 0).opacity == 1.0
  {
    PressedSource(e);
    EndLooks(e, PressedAndSet(e), DoRelease(0, inside, g), 0);
  }

  lemma DragKeepsNewOpacity(e: Setting, inside: bool, g: Geometry)
    ensures LookIn(Release(e, Motion(PressedAndSet(e), 0, true, g), 0, inside, g).scene.looks, 0).opacity == 0.5
  {
    var t := PressedAndSet(e);
    var u := Motion(t, 0, true, g);
    PressedSource(e);
    MotionKeeps(e, t, 0, true, g);
    MotionSteady(e, t, 0, true, g, 0);
    UpdateTargetLeaves(StartDragging(t, 0), g);
    UpdateTargetLeaves(u, g);
    CancelLogsEnd(UpdateTarget(u, g));
    EndLooks(e, u, DoRelease(0, inside, g), 0);
  }

  lemma PaintAtEnd(e: Setting, s: State, u: State, n: Id, look: Look, last: Op)
    requires Sound(e, s) && Sound(e, u) && Steady(Paint(s, n, look), u, n) && !last.DoUnregisterSource?
    requires Resets(u, last, n) ==> u.drag.source == Some(n)
    ensures EndLook(u, last, n) == look <==>
      && (s.drag.held.node == Some(n) ==>
           && s.drag.held.saved.inLayout == look.inLayout
           && (Resets(u, last, n) || s.drag.held.saved.opacity == look.opacity))
      && (Resets(u, last, n) ==> n in s.scene.sources && s.scene.sources[n].ownOpacity == look.opacity)
  {
    var t := Paint(s, n, look);
    assert t.drag == s.drag && t.scene.sources == s.scene.sources && LookIn(t.scene.looks, n) == look;
  }

  /** A look that anyone gives a node at any time during a gesture is there after its end if
      and only if it agrees with what the end puts back: the saved look of the held node,
      and its own opacity on a source that is being dragged or gets a new preview level. */
  lemma PaintIsKeptExactly(e: Setting, s: State, n: Id, look: Look, ops: seq<Op>, last: Op)
    requires Sound(e, s) && s.drag.phase != Idle
    requires var t := Paint(s, n, look);
      && Run(e, t, ops).log == t.log && (forall k :: 0 <= k < |ops| ==> Leaves(ops[k], n))
      && Ends(e, Run(e, t, ops), last) && !last.DoUnregisterSource?
    ensures var u := Run(e, Paint(s, n, look), ops);
      LookIn(Step(e, u, last).scene.looks, n) == look <==>
        && (s.drag.held.node == Some(n) ==>
             && s.drag.held.saved.inLayout == look.inLayout
             && (Resets(u, last, n) || s.drag.held.saved.opacity == look.opacity))
        && (Resets(u, last, n) ==> n in s.scene.sources && s.scene.sources[n].ownOpacity == look.opacity)
  {
    var u := Run(e, Paint(s, n, look), ops);
    PaintKeeps(e, s, n, look);
    RunSteady(e, Paint(s, n, look), ops, n);
    if Resets(u, last, n) {
      ResetsSource(e, u, last, n);
    }
    EndLooks(e, u, last, n);
    PaintAtEnd(e, s, u, n, look, last);
  }

  lemma LookAtEnd(e: Setting, s: State, u: State, n: Id, id: Id)
    requires Sound(e, s) && Sound(e, u) && Steady(s, u, n) && s.drag.source == Some(id)
    ensures id in u.scene.sources
    ensures LookIn(u.scene.looks, n) ==
      if s.drag.phase == Dragging || u.drag.phase == Armed then LookIn(s.scene.looks, n)
      else StartedLook(u, n, LookIn(s.scene.looks, n))
  {
  }

  lemma SourceGoes(e: Setting, s: State, id: Id)
    requires Sound(e, s) && s.drag.source == Some(id)
    ensures Ends(e, s, DoUnregisterSource(id)) && UnregisterSource(s, id).scene.looks == s.scene.looks
  {
  }

  /** When the gesture ends because its source goes, the look is there if and only if no drag
      has started since, or the start has made the same look of it. */
  lemma PaintIsKeptWhenSourceGoesExactly(e: Setting, s: State, n: Id, look: Look, ops: seq<Op>, id: Id)
    requires Sound(e, s) && s.drag.source == Some(id)
    requires var t := Paint(s, n, look);
      Run(e, t, ops).log == t.log && (forall k :: 0 <= k < |ops| ==> Leaves(ops[k], n))
    ensures var u := Run(e, Paint(s, n, look), ops);
      && id in u.scene.sources && Ends(e, u, DoUnregisterSource(id))
      && (LookIn(UnregisterSource(u, id).scene.looks, n) == look <==>
           || s.drag.phase == Dragging || u.drag.phase == Armed
           || if u.drag.held.node == Some(n) && u.drag.held.preview then
                if u.scene.sources[id].props.lift then look == Look(0.0, false)
                else look.opacity == s.drag.held.saved.opacity * 0.28
              else n == id ==> look.opacity == VisualOpacity(u.scene.sources[id]))
  {
    var t := Paint(s, n, look);
    var u := Run(e, t, ops);
    assert LookIn(t.scene.looks, n) == look;
    PaintKeeps(e, s, n, look);
    RunSteady(e, t, ops, n);
    LookAtEnd(e, t, u, n, id);
    SourceGoes(e, u, id);
  }

  /** So is the new opacity of another source: unless that is held, and has been dimmed or
      lifted since, it is there. */
  lemma NewOpacityIsKeptWhenSourceGoesExactly(e: Setting, s: State, n: Id, v: real, ops: seq<Op>, id: Id)
    requires Sound(e, s) && s.drag.source == Some(id) && n in s.scene.sources && n != id
    requires var t := SetSourceOpacity(s, n, v);
      Run(e, t, ops).log == t.log && (forall k :: 0 <= k < |ops| ==> Leaves(ops[k], n))
    ensures var u := Run(e, SetSourceOpacity(s, n, v), ops);
      && id in u.scene.sources && Ends(e, u, DoUnregisterSource(id))
      && (LookIn(UnregisterSource(u, id).scene.looks, n).opacity == Clamped(v) <==>
           || s.drag.phase == Dragging || u.drag.phase == Armed
           || (u.drag.held.node == Some(n) && u.drag.held.preview ==>
                Clamped(v) == if u.scene.sources[id].props.lift then 0.0 else s.drag.held.saved.opacity * 0.28))
  {
    var t := SetSourceOpacity(s, n, v);
    var u := Run(e, t, ops);
    SetSourceOpacityKeeps(e, s, n, v);
    assert LookIn(t.scene.looks, n).opacity == Clamped(v);
    RunSteady(e, t, ops, n);
    LookAtEnd(e, t, u, n, id);
    SourceGoes(e, u, id);
  }
}
