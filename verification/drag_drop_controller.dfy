/** The drag and drop controller as an object that updates its fields and the scene in
    place. Every method is tied to the function of DragModel with its name; what they keep
    over whole runs is proved in DragRuns, DragCallbacks, DragGestures and DragTraces. */
module DragDrop {
  import opened Options
  import opened SceneTree
  import opened DropTargets
  import M = DragModel

  class SceneGraph {
    const tree: Tree
    var looks: map<Id, M.Look>
    var sources: map<Id, M.Source>
    var zones: map<Id, Zone>

    constructor (tree: Tree, looks: map<Id, M.Look>, sources: map<Id, M.Source>, zones: map<Id, Zone>)
      ensures this.tree == tree && State() == M.Scene(looks, sources, zones)
    {
      this.tree, this.looks, this.sources, this.zones := tree, looks, sources, zones;
    }

    ghost function State(): M.Scene
      reads this
    {
      M.Scene(looks, sources, zones)
    }

    method SetOpacity(n: Id, opacity: real)
      modifies this
      ensures State() == M.WithOpacity(old(State()), n, opacity)
    {
      looks := looks[n := M.LookIn(looks, n).(opacity := opacity)];
    }

    method SetParticipatesInLayout(n: Id, inLayout: bool)
      modifies this
      ensures State() == M.WithLook(old(State()), n, M.LookIn(old(looks), n).(inLayout := inLayout))
    {
      looks := looks[n := M.LookIn(looks, n).(inLayout := inLayout)];
    }

    method ApplyVisualState(id: Id)
      requires id in sources
      modifies this
      ensures State() == M.WithOpacity(old(State()), id, M.VisualOpacity(old(sources[id])))
    {
      var s := sources[id];
      SetOpacity(id, if s.dragging && s.props.levels == 0 then s.ownOpacity * 0.55 else s.ownOpacity);
    }

    method SetDragging(id: Id, on: bool)
      modifies this
      ensures State() == M.SetDragging(old(State()), id, on)
    {
      if id in sources && sources[id].dragging != on {
        sources := sources[id := sources[id].(dragging := on)];
        ApplyVisualState(id);
      }
    }

    method SetSourceOpacity(id: Id, opacity: real)
      modifies this
      ensures State() == if id in old(sources)
        then M.WithSource(old(State()), id, old(sources)[id].(ownOpacity := M.Clamped(opacity)))
        else old(State())
    {
      if id in sources {
        sources := sources[id := sources[id].(ownOpacity := M.Clamped(opacity))];
        ApplyVisualState(id);
      }
    }

    method SetDragOver(z: Id, over: bool)
      modifies this
      ensures State() == M.SetOver(old(State()), z, over)
    {
      if z in zones {
        zones := zones[z := zones[z].(over := over)];
      }
    }
  }

  class DragDropController {
    const scene: SceneGraph
    const hasCallback: bool
    var phase: M.Phase
    var source: Option<Id>
    var target: Option<Id>
    var dragType: string
    var payload: string
    var targetValue: string
    var overlayRoot: Option<Id>
    var preview: bool              // the proxy node exists below the overlay root
    var previewTarget: Option<Id>
    var saved: M.Look              // the preview target's opacity and layout participation
    ghost var log: seq<M.Event>

    constructor (scene: SceneGraph, hasCallback: bool)
      ensures this.scene == scene && this.hasCallback == hasCallback
      ensures Drag() == M.Drag(M.Idle, None, None, M.Held(None, M.Look(1.0, true), false), M.Cargo("", "", ""), None)
      ensures log == []
    {
      this.scene, this.hasCallback := scene, hasCallback;
      phase, source, target, overlayRoot := M.Idle, None, None, None;
      dragType, payload, targetValue := "", "", "";
      preview, previewTarget, saved, log := false, None, M.Look(1.0, true), [];
    }

    ghost function Drag(): M.Drag
      reads this
    {
      M.Drag(phase, source, target, M.Held(previewTarget, saved, preview), M.Cargo(dragType, payload, targetValue),
             overlayRoot)
    }

    ghost function State(): M.State
      reads this, scene
    {
      M.State(scene.State(), Drag(), log)
    }

    ghost function Setting(): M.Setting {
      M.Setting(scene.tree, hasCallback)
    }

    method ClearTarget()
      modifies this, scene
      ensures State() == M.ClearTarget(old(State()))
    {
      if target.Some? {
        scene.SetDragOver(target.value, false);
        target := None;
      }
      targetValue := "";
    }

    method RestorePreviewTarget()
      modifies scene
      ensures scene.State() == if previewTarget.Some? then M.WithLook(old(scene.State()), previewTarget.value, saved)
        else old(scene.State())
    {
      if previewTarget.Some? {
        scene.SetParticipatesInLayout(previewTarget.value, saved.inLayout);
        scene.SetOpacity(previewTarget.value, saved.opacity);
        assert scene.looks == old(scene.looks)[previewTarget.value := saved];
      }
    }

    method ClearPreview()
      modifies this, scene
      ensures State() == M.ClearPreview(old(State()))
    {
      RestorePreviewTarget();
      preview := false;
      previewTarget := None;
    }

    method ClearState()
      modifies this, scene
      ensures State() == M.Cancel(old(State()))
    {
      ClearTarget();
      ClearPreview();
      if source.Some? {
        scene.SetDragging(source.value, false);
        log := log + [M.Ended(source.value)];
      }
      phase, source := M.Idle, None;
      dragType, payload := "", "";
    }

    method Cancel()
      modifies this, scene
      ensures State() == M.Cancel(old(State()))
    {
      ClearState();
    }

    method SetOverlayRoot(root: Option<Id>)
      modifies this, scene
      ensures State() == M.SetOverlay(old(State()), root)
    {
      if overlayRoot == root {
        return;
      }
      Cancel();
      overlayRoot := root;
    }

    method Arm(id: Id)
      requires id in scene.sources
      modifies this, scene
      ensures State() == M.Arm(Setting(), old(State()), id)
    {
      Cancel();
      var props := scene.sources[id].props;
      if !props.enabled || props.dragType == "" || props.payload == "" {
        return;
      }
      Begin(id, props);
    }

    method Begin(id: Id, props: M.SourceProps)
      requires id in scene.sources && props == scene.sources[id].props
      requires target == None && !preview && targetValue == ""
      modifies this
      ensures State() == M.Begin(Setting(), old(State()), id)
    {
      phase, source := M.Armed, Some(id);
      dragType, payload := props.dragType, props.payload;
      var requested := AncestorAt(scene.tree, id, props.levels);
      previewTarget := SafePreviewTarget(scene.tree, id, Some(requested), overlayRoot);
      saved := if previewTarget.Some? then M.LookIn(scene.looks, previewTarget.value) else M.Look(1.0, true);
      log := log + [M.Began(id, dragType, payload)];
    }

    method CreatePreview()
      modifies this, scene
      ensures State() == M.CreatePreview(old(State()))
    {
      if preview || overlayRoot.None? || source.None? || previewTarget.None? {
        return;
      }
      preview := true;
      if source.value in scene.sources && scene.sources[source.value].props.lift {
        scene.SetOpacity(previewTarget.value, 0.0);
        scene.SetParticipatesInLayout(previewTarget.value, false);
        assert scene.looks == old(scene.looks)[previewTarget.value := M.Look(0.0, false)];
      } else {
        scene.SetOpacity(previewTarget.value, saved.opacity * 0.28);
      }
    }

    method UpdateTarget(g: Geometry)
      modifies this, scene
      ensures State() == M.UpdateTarget(old(State()), g)
    {
      var next := TargetAt(scene.zones, dragType, g);
      if next == target {
        return;
      }
      ClearTarget();
      if next.Some? && next.value in scene.zones {
        target := next;
        targetValue := scene.zones[next.value].props.value;
        scene.SetDragOver(next.value, true);
      }
    }

    method StartDragging(id: Id)
      modifies this, scene
      ensures State() == M.StartDragging(old(State()), id)
    {
      phase := M.Dragging;
      scene.SetDragging(id, true);
      CreatePreview();
    }

    /** The distance from the press is far when it reaches the drag threshold. */
    method Motion(id: Id, far: bool, g: Geometry)
      modifies this, scene
      ensures State() == M.Motion(old(State()), id, far, g)
    {
      if source != Some(id) || phase == M.Idle {
        return;
      }
      if phase == M.Armed {
        if !far {
          return;
        }
        StartDragging(id);
      }
      UpdateTarget(g);
    }

    method Tap(id: Id, inside: bool)
      modifies this, scene
      ensures State() == M.Tap(old(State()), id, inside)
    {
      Cancel();
      if inside && id in scene.sources && scene.sources[id].props.enabled {
        log := log + [M.Clicked(id)];
      }
    }

    method Drop()
      modifies this, scene
      ensures State() == M.Drop(Setting(), old(State()))
    {
      var callback, what, value := "", "", "";
      if target.Some? && target.value in scene.zones {
        callback := scene.zones[target.value].props.onDrop;
        what, value := payload, targetValue;
      }
      ClearState();
      if callback != "" && hasCallback {
        log := log + [M.Dropped(callback, what, value)];
      }
    }

    method Release(id: Id, inside: bool, g: Geometry)
      modifies this, scene
      ensures State() == M.Release(Setting(), old(State()), id, inside, g)
    {
      if source != Some(id) || phase == M.Idle {
        return;
      }
      if phase != M.Dragging {
        Tap(id, inside);
        return;
      }
      UpdateTarget(g);
      Drop();
    }

    method SourceChanged(id: Id)
      modifies this, scene
      ensures State() == M.SourceChanged(old(State()), id)
    {
      if source == Some(id) {
        Cancel();
      }
    }

    method ZoneChanged(z: Id)
      modifies this, scene
      ensures State() == M.ZoneChanged(old(State()), z)
    {
      if target == Some(z) {
        Cancel();
      }
    }

    /** A setter of the source. */
    method ChangeSource(id: Id, c: M.SourceChange)
      requires id in scene.sources
      modifies this, scene
      ensures State() == M.ChangeSource(old(State()), id, c)
    {
      if M.ChangedSource(scene.sources[id].props, c) == scene.sources[id].props {
        return;
      }
      if c != M.SetSourceEnabled(true) {
        SourceChanged(id);
      }
      if id in scene.sources {
        scene.sources := scene.sources[id := scene.sources[id].(props := M.ChangedSource(scene.sources[id].props, c))];
        if c.SetLevels? {
          scene.ApplyVisualState(id);
        }
      }
    }

    /** A setter of the zone. */
    method ChangeZone(z: Id, c: M.ZoneChange)
      requires z in scene.zones
      modifies this, scene
      ensures State() == M.ChangeZone(old(State()), z, c)
    {
      if M.ChangedZone(scene.zones[z].props, c) == scene.zones[z].props {
        return;
      }
      if c != M.SetZoneEnabled(true) {
        ZoneChanged(z);
      }
      if z in scene.zones {
        scene.zones := scene.zones[z := scene.zones[z].(props := M.ChangedZone(scene.zones[z].props, c))];
        if c == M.SetZoneEnabled(false) {
          scene.SetDragOver(z, false);
        }
      }
    }

    method UnregisterSource(id: Id)
      modifies this, scene
      ensures State() == M.UnregisterSource(old(State()), id)
    {
      scene.sources := scene.sources - {id};
      if source != Some(id) {
        return;
      }
      previewTarget := None;
      ClearTarget();
      ClearPreview();
      log := log + [M.Ended(id)];
      source, phase := None, M.Idle;
      dragType, payload := "", "";
    }

    method UnregisterDropZone(z: Id)
      modifies this, scene
      ensures State() == M.UnregisterZone(old(State()), z)
    {
      scene.zones := scene.zones - {z};
      if target != Some(z) {
        return;
      }
      target := None;
      targetValue := "";
      ClearState();
    }

    method CancelIfParticipantIn(subtree: Id)
      modifies this, scene
      ensures State() == M.CancelIfIn(Setting(), old(State()), subtree)
    {
      var holdsSource := IsAncestorOrSelf(scene.tree, Some(subtree), source);
      var holdsTarget := IsAncestorOrSelf(scene.tree, Some(subtree), target);
      var holdsPreview := IsAncestorOrSelf(scene.tree, Some(subtree), previewTarget);
      if holdsSource || holdsTarget || holdsPreview {
        Cancel();
      }
    }
  }
}
