/** What every run of the drag and drop controller keeps. */
module DragRuns {
  import opened Options
  import opened SceneTree
  import opened DropTargets
  import opened DragModel

  // ----- the state -----

  predicate Phased(d: Drag) {
    && (d.phase == Idle <==> d.source.None?)
    && (d.phase != Dragging ==> d.target.None? && !d.held.preview)
    && (d.phase == Idle ==> d.held.node.None? && d.cargo == Cargo("", "", ""))
    && (d.target.None? ==> d.cargo.targetValue == "")
  }

  /** The active source still is as it was armed. */
  predicate SourceCurrent(s: State) {
    var d := s.drag;
    d.source.Some? ==>
      && d.source.value in s.scene.sources
      && var p := s.scene.sources[d.source.value].props;
      p.enabled && p.dragType == d.cargo.dragType && p.payload == d.cargo.payload && p.dragType != "" && p.payload != ""
  }

  /** The hovered zone is enabled, accepts what is dragged, and has the value kept. */
  predicate TargetCurrent(s: State) {
    var d := s.drag;
    d.target.Some? ==>
      && Usable(s.scene.zones, d.cargo.dragType, d.target.value)
      && s.scene.zones[d.target.value].props.value == d.cargo.targetValue
  }

  /** Exactly the active source is marked as dragging, exactly the hovered zone as hovered. */
  ghost predicate Marked(s: State) {
    && (forall id :: id in s.scene.sources ==>
         (s.scene.sources[id].dragging <==> s.drag.phase == Dragging && s.drag.source == Some(id)))
    && (forall z :: z in s.scene.zones ==> (s.scene.zones[z].over <==> s.drag.target == Some(z)))
  }

  /** What is held is the safe preview target of the active source. */
  ghost predicate Holding(e: Setting, s: State)
  {
    && (s.drag.source.Some? && s.drag.source.value in s.scene.sources ==>
         s.drag.held.node == PreviewTarget(e, s, s.drag.source.value))
    && (s.drag.held.preview ==> s.drag.held.node.Some? && s.drag.overlay.Some?)
  }

  ghost predicate Sound(e: Setting, s: State)
  {
    Phased(s.drag) && SourceCurrent(s) && TargetCurrent(s) && Marked(s) && Holding(e, s)
  }

  /** Cancelling needs less: a source or zone may just have gone. */
  lemma CancelRests(e: Setting, s: State)
    requires Phased(s.drag) && Marked(s)
    ensures Sound(e, Cancel(s)) && Cancel(s).drag.phase == Idle && Cancel(s).drag.overlay == s.drag.overlay
  {
  }

  lemma ArmKeeps(e: Setting, s: State, id: Id)
    requires Sound(e, s)
    ensures Sound(e, Arm(e, s, id))
  {
    CancelRests(e, s);
  }

  lemma ClearTargetKeeps(e: Setting, s: State)
    requires Sound(e, s) && s.drag.phase == Dragging
    ensures Sound(e, ClearTarget(s))
  {
  }

  lemma UpdateTargetKeeps(e: Setting, s: State, g: Geometry)
    requires Sound(e, s) && s.drag.phase == Dragging
    ensures Sound(e, UpdateTarget(s, g))
    ensures UpdateTarget(s, g).drag.target == Target(s.scene.zones, s.drag.cargo.dragType, g)
    ensures UpdateTarget(s, g).drag.phase == Dragging && UpdateTarget(s, g).drag.source == s.drag.source
    ensures UpdateTarget(s, g).drag.cargo == s.drag.cargo.(targetValue := UpdateTarget(s, g).drag.cargo.targetValue)
  {
    TargetIsUsable(s.scene.zones, s.drag.cargo.dragType, g);
    ClearTargetKeeps(e, s);
  }

  lemma StartDraggingKeeps(e: Setting, s: State, id: Id)
    requires Sound(e, s) && s.drag.phase == Armed && s.drag.source == Some(id)
    ensures Sound(e, StartDragging(s, id)) && StartDragging(s, id).drag.phase == Dragging
    ensures StartDragging(s, id).drag.cargo == s.drag.cargo && StartDragging(s, id).drag.source == s.drag.source
  {
  }

  lemma MotionKeeps(e: Setting, s: State, id: Id, far: bool, g: Geometry)
    requires Sound(e, s)
    ensures Sound(e, Motion(s, id, far, g))
  {
    if s.drag.source == Some(id) && s.drag.phase != Idle && (s.drag.phase == Dragging || far) {
      if s.drag.phase == Armed {
        StartDraggingKeeps(e, s, id);
        UpdateTargetKeeps(e, StartDragging(s, id), g);
      } else {
        UpdateTargetKeeps(e, s, g);
      }
    }
  }

  lemma ReleaseKeeps(e: Setting, s: State, id: Id, inside: bool, g: Geometry)
    requires Sound(e, s)
    ensures Sound(e, Release(e, s, id, inside, g))
  {
    if s.drag.source == Some(id) && s.drag.phase == Armed {
      CancelRests(e, s);
    } else if s.drag.source == Some(id) && s.drag.phase == Dragging {
      UpdateTargetKeeps(e, s, g);
      CancelRests(e, UpdateTarget(s, g));
    }
  }

  /** Storing a source that is not active. */
  lemma StoreSourceKeeps(e: Setting, s: State, id: Id, source: Source, c: Scene)
    requires Sound(e, s)
    requires id in s.scene.sources && s.drag.source != Some(id) && source.dragging == s.scene.sources[id].dragging
    requires c.sources == s.scene.sources[id := source] && c.zones == s.scene.zones
    ensures Sound(e, s.(scene := c))
  {
    assert Marked(s.(scene := c));
    assert Holding(e, s.(scene := c));
  }

  lemma SourceChangedRests(e: Setting, s: State, id: Id)
    requires Sound(e, s) && id in s.scene.sources
    ensures var u := SourceChanged(s, id);
      Sound(e, u) && u.drag.source != Some(id) && id in u.scene.sources
  {
    CancelRests(e, s);
  }

  lemma ChangeSourceKeeps(e: Setting, s: State, id: Id, c: SourceChange)
    requires Sound(e, s)
    ensures Sound(e, ChangeSource(s, id, c))
  {
    if id in s.scene.sources && ChangedSource(s.scene.sources[id].props, c) != s.scene.sources[id].props {
      var u := if c == SetSourceEnabled(true) then s else SourceChanged(s, id);
      SourceChangedRests(e, s, id);
      var source := u.scene.sources[id].(props := ChangedSource(u.scene.sources[id].props, c));
      StoreSourceKeeps(e, u, id, source, ChangeSource(s, id, c).scene);
    }
  }

  /** Storing a zone that is not hovered. */
  lemma StoreZoneKeeps(e: Setting, s: State, z: Id, zone: Zone)
    requires Sound(e, s) && s.drag.target != Some(z) && !zone.over
    ensures Sound(e, s.(scene := s.scene.(zones := s.scene.zones[z := zone])))
  {
    assert Holding(e, s.(scene := s.scene.(zones := s.scene.zones[z := zone])));
  }

  lemma ChangeZoneKeeps(e: Setting, s: State, z: Id, c: ZoneChange)
    requires Sound(e, s)
    ensures Sound(e, ChangeZone(s, z, c))
  {
    if z in s.scene.zones && ChangedZone(s.scene.zones[z].props, c) != s.scene.zones[z].props {
      CancelRests(e, s);
      var u := if c == SetZoneEnabled(true) then s else ZoneChanged(s, z);
      assert u.drag.target != Some(z);
      assert !u.scene.zones[z].over;
      StoreZoneKeeps(e, u, z, Zone(ChangedZone(u.scene.zones[z].props, c), false));
    }
  }

  lemma SetSourceOpacityKeeps(e: Setting, s: State, id: Id, v: real)
    requires Sound(e, s)
    ensures Sound(e, SetSourceOpacity(s, id, v))
  {
    assert Holding(e, SetSourceOpacity(s, id, v));
  }

  lemma SetOverlayKeeps(e: Setting, s: State, root: Option<Id>)
    requires Sound(e, s)
    ensures Sound(e, SetOverlay(s, root))
  {
    CancelRests(e, s);
  }

  lemma PaintKeeps(e: Setting, s: State, n: Id, look: Look)
    requires Sound(e, s)
    ensures Sound(e, Paint(s, n, look))
  {
  }

  lemma UnregisterSourceKeeps(e: Setting, s: State, id: Id)
    requires Sound(e, s)
    ensures Sound(e, UnregisterSource(s, id))
  {
  }

  lemma UnregisterZoneKeeps(e: Setting, s: State, z: Id)
    requires Sound(e, s)
    ensures Sound(e, UnregisterZone(s, z))
  {
    if s.drag.target == Some(z) {
      var u := s.(scene := s.scene.(zones := s.scene.zones - {z}));
      CancelRests(e, u.(drag := u.drag.(target := None, cargo := u.drag.cargo.(targetValue := ""))));
    }
  }

  lemma StepKeeps(e: Setting, s: State, op: Op)
    requires Sound(e, s)
    ensures Sound(e, Step(e, s, op))
  {
    match op
    case DoArm(id) => ArmKeeps(e, s, id);
    case DoMotion(id, far, g) => MotionKeeps(e, s, id, far, g);
    case DoRelease(id, inside, g) => ReleaseKeeps(e, s, id, inside, g);
    case DoCancel => CancelRests(e, s);
    case DoSetOverlay(root) => SetOverlayKeeps(e, s, root);
    case DoChangeSource(id, c) => ChangeSourceKeeps(e, s, id, c);
    case DoChangeZone(z, c) => ChangeZoneKeeps(e, s, z, c);
    case DoUnregisterSource(id) => UnregisterSourceKeeps(e, s, id);
    case DoUnregisterZone(z) => UnregisterZoneKeeps(e, s, z);
    case DoCancelIfIn(subtree) => CancelRests(e, s);
    case DoSetSourceOpacity(id, v) => SetSourceOpacityKeeps(e, s, id, v);
    case DoPaint(n, look) => PaintKeeps(e, s, n, look);
  }

  /** An idle controller on a scene where nothing is dragged or hovered. */
  ghost predicate AtRest(s: State) {
    && s.drag == Drag(Idle, None, None, Held(None, s.drag.held.saved, false), Cargo("", "", ""), s.drag.overlay)
    && Marked(s)
  }

  lemma {:induction false} RunKeeps(e: Setting, s: State, ops: seq<Op>)
    requires AtRest(s)
    ensures Sound(e, Run(e, s, ops))
  {
    if ops != [] {
      RunKeeps(e, s, ops[..|ops| - 1]);
      StepKeeps(e, Run(e, s, ops[..|ops| - 1]), ops[|ops| - 1]);
    }
  }

  /** In every run, a hovered zone or a preview means that a drag is on, and what the
      preview shows never holds the overlay the preview itself lies in. */
  lemma PreviewNeverReachesItself(e: Setting, s: State, ops: seq<Op>)
    requires AtRest(s)
    ensures var d := Run(e, s, ops).drag;
      && (d.target.Some? || d.held.preview ==> d.phase == Dragging)
      && (d.held.preview ==> d.held.node.Some? && d.overlay.Some? && !Above(e.tree, d.held.node.value, d.overlay.value))
      && (d.held.preview ==> d.source.Some? && Above(e.tree, d.held.node.value, d.source.value))
  {
    RunKeeps(e, s, ops);
    var u := Run(e, s, ops);
    if u.drag.held.preview {
      HeldIsSafe(e, u);
    }
  }

  lemma HeldIsSafe(e: Setting, s: State)
    requires Sound(e, s) && s.drag.held.node.Some? && s.drag.overlay.Some?
    ensures s.drag.source.Some? && Above(e.tree, s.drag.held.node.value, s.drag.source.value)
    ensures !Above(e.tree, s.drag.held.node.value, s.drag.overlay.value)
  {
    var id := s.drag.source.value;
    var levels := s.scene.sources[id].props.levels;
    AncestorIsAbove(e.tree, id, levels);
    SafeTargetIsHighest(e.tree, id, Ancestor(e.tree, id, levels), s.drag.overlay.value, id);
  }

  // ----- the setters -----

  /** A setter of a source sets its property, whatever it cancels on the way, and no other one. */
  lemma SourceSetterSets(e: Setting, s: State, id: Id, c: SourceChange)
    requires Sound(e, s) && id in s.scene.sources
    ensures var u := ChangeSource(s, id, c);
      && id in u.scene.sources
      && var p, q := s.scene.sources[id].props, u.scene.sources[id].props;
      match c
      case SetDragType(v) => q == SourceProps(p.enabled, v, p.payload, p.levels, p.lift)
      case SetPayload(v) => q == SourceProps(p.enabled, p.dragType, v, p.levels, p.lift)
      case SetSourceEnabled(v) => q == SourceProps(v, p.dragType, p.payload, p.levels, p.lift)
      case SetLevels(v) => q == SourceProps(p.enabled, p.dragType, p.payload, v, p.lift)
      case SetLift(v) => q == SourceProps(p.enabled, p.dragType, p.payload, p.levels, v)
  {
    SourceChangedRests(e, s, id);
    CancelKeepsProps(s, id);
  }

  lemma CancelKeepsProps(s: State, id: Id)
    requires id in s.scene.sources
    ensures id in Cancel(s).scene.sources && Cancel(s).scene.sources[id].props == s.scene.sources[id].props
  {
  }

  /** So does a setter of a zone; disabling it also takes its hover mark. */
  lemma ZoneSetterSets(s: State, z: Id, c: ZoneChange)
    requires z in s.scene.zones
    ensures var u := ChangeZone(s, z, c);
      && z in u.scene.zones
      && var p, q := s.scene.zones[z].props, u.scene.zones[z].props;
      match c
      case SetAccepts(v) => q == ZoneProps(p.enabled, v, p.value, p.onDrop)
      case SetValue(v) => q == ZoneProps(p.enabled, p.accepts, v, p.onDrop)
      case SetOnDrop(v) => q == ZoneProps(p.enabled, p.accepts, p.value, v)
      case SetZoneEnabled(v) => q == ZoneProps(v, p.accepts, p.value, p.onDrop)
  {
    CancelKeepsZone(s, z);
  }

  lemma CancelKeepsZone(s: State, z: Id)
    requires z in s.scene.zones
    ensures z in Cancel(s).scene.zones && Cancel(s).scene.zones[z].props == s.scene.zones[z].props
  {
  }

  lemma OverlayIsSet(s: State, root: Option<Id>)
    ensures SetOverlay(s, root).drag.overlay == root
    ensures s.drag.overlay != root && s.drag.source.Some? ==> SetOverlay(s, root).drag.source == None
  {
  }

  /** Removing a subtree ends a gesture exactly if its source, the zone it hovers or the node it
      holds lies in it, and otherwise changes nothing. */
  lemma SubtreeCancelsExactly(e: Setting, s: State, subtree: Id)
    requires Sound(e, s) && s.drag.phase != Idle
    ensures var u, d := CancelIfIn(e, s, subtree), s.drag;
      if (d.source.Some? && Above(e.tree, subtree, d.source.value))
         || (d.target.Some? && Above(e.tree, subtree, d.target.value))
         || (d.held.node.Some? && Above(e.tree, subtree, d.held.node.value))
      then u.drag.phase == Idle && u.log == s.log + [Ended(d.source.value)]
      else u == s
  {
    CancelRests(e, s);
  }
}
