/** Drag and drop as functions on the controller's state and the scene it draws on: what a
    call does, and what every run of calls keeps. */
module DragModel {
  import opened Options
  import opened SceneTree
  import opened DropTargets

  datatype Look = Look(opacity: real, inLayout: bool)

  datatype SourceProps = SourceProps(enabled: bool, dragType: string, payload: string, levels: nat, lift: bool)

  datatype Source = Source(props: SourceProps, ownOpacity: real, dragging: bool)

  datatype Scene = Scene(looks: map<Id, Look>, sources: map<Id, Source>, zones: map<Id, Zone>)

  datatype Phase = Idle | Armed | Dragging

  /** The node shown by the preview, its look when armed, and whether the preview exists. */
  datatype Held = Held(node: Option<Id>, saved: Look, preview: bool)

  datatype Cargo = Cargo(dragType: string, payload: string, targetValue: string)

  datatype Drag = Drag(phase: Phase, source: Option<Id>, target: Option<Id>, held: Held, cargo: Cargo,
                       overlay: Option<Id>)

  datatype Event =
    | Began(source: Id, dragType: string, payload: string)
    | Ended(source: Id)
    | Dropped(callback: string, payload: string, targetValue: string)
    | Clicked(source: Id)

  datatype State = State(scene: Scene, drag: Drag, log: seq<Event>)

  /** What never changes in a run: the tree, and whether a drop callback is set. */
  datatype Setting = Setting(tree: Tree, hasCallback: bool)

  // ----- the scene -----

  function LookIn(looks: map<Id, Look>, n: Id): Look {
    if n in looks then looks[n] else Look(1.0, true)
  }

  function WithOpacity(c: Scene, n: Id, opacity: real): Scene {
    c.(looks := c.looks[n := LookIn(c.looks, n).(opacity := opacity)])
  }

  function WithLook(c: Scene, n: Id, look: Look): Scene {
    c.(looks := c.looks[n := look])
  }

  function VisualOpacity(s: Source): real {
    if s.dragging && s.props.levels == 0 then s.ownOpacity * 0.55 else s.ownOpacity
  }

  /** The source is stored and its visual state applied to its node. */
  function WithSource(c: Scene, id: Id, s: Source): Scene {
    WithOpacity(c.(sources := c.sources[id := s]), id, VisualOpacity(s))
  }

  function SetDragging(c: Scene, id: Id, on: bool): Scene {
    if id !in c.sources || c.sources[id].dragging == on then c
    else WithSource(c, id, c.sources[id].(dragging := on))
  }

  function SetOver(c: Scene, z: Id, on: bool): Scene {
    if z !in c.zones then c else c.(zones := c.zones[z := c.zones[z].(over := on)])
  }

  // ----- the controller -----

  function ClearTarget(s: State): State {
    var scene := if s.drag.target.Some? then SetOver(s.scene, s.drag.target.value, false) else s.scene;
    s.(scene := scene, drag := s.drag.(target := None, cargo := s.drag.cargo.(targetValue := "")))
  }

  function ClearPreview(s: State): State {
    var held := s.drag.held;
    var scene := if held.node.Some? then WithLook(s.scene, held.node.value, held.saved) else s.scene;
    s.(scene := scene, drag := s.drag.(held := held.(node := None, preview := false)))
  }

  function Forget(s: State): State {
    var log := if s.drag.source.Some? then s.log + [Ended(s.drag.source.value)] else s.log;
    s.(drag := s.drag.(phase := Idle, source := None, cargo := Cargo("", "", s.drag.cargo.targetValue)), log := log)
  }

  function Cancel(s: State): State {
    var u := ClearPreview(ClearTarget(s));
    var scene := if u.drag.source.Some? then SetDragging(u.scene, u.drag.source.value, false) else u.scene;
    Forget(u.(scene := scene))
  }

  ghost function PreviewTarget(e: Setting, s: State, id: Id): Option<Id>
    requires id in s.scene.sources
  {
    SafeTarget(e.tree, id, Some(Ancestor(e.tree, id, s.scene.sources[id].props.levels)), s.drag.overlay)
  }

  ghost function Begin(e: Setting, s: State, id: Id): State
    requires id in s.scene.sources
  {
    var props := s.scene.sources[id].props;
    var node := PreviewTarget(e, s, id);
    var saved := if node.Some? then LookIn(s.scene.looks, node.value) else Look(1.0, true);
    s.(drag := Drag(Armed, Some(id), None, Held(node, saved, false), Cargo(props.dragType, props.payload, ""),
                    s.drag.overlay),
       log := s.log + [Began(id, props.dragType, props.payload)])
  }

  ghost function Arm(e: Setting, before: State, id: Id): State
  {
    if id !in before.scene.sources then before
    else
      var s := Cancel(before);
      var props := s.scene.sources[id].props;
      if !props.enabled || props.dragType == "" || props.payload == "" then s else Begin(e, s, id)
  }

  function CreatePreview(s: State): State {
    var held := s.drag.held;
    if held.preview || s.drag.overlay.None? || s.drag.source.None? || held.node.None? then s
    else
      var lift := s.drag.source.value in s.scene.sources && s.scene.sources[s.drag.source.value].props.lift;
      var scene :=
        if lift then WithLook(s.scene, held.node.value, Look(0.0, false))
        else WithOpacity(s.scene, held.node.value, held.saved.opacity * 0.28);
      s.(scene := scene, drag := s.drag.(held := held.(preview := true)))
  }

  function UpdateTarget(s: State, g: Geometry): State {
    var next := Target(s.scene.zones, s.drag.cargo.dragType, g);
    if next == s.drag.target then s
    else
      var u := ClearTarget(s);
      if next.None? || next.value !in u.scene.zones then u
      else
        u.(scene := SetOver(u.scene, next.value, true),
           drag := u.drag.(target := next,
                           cargo := u.drag.cargo.(targetValue := u.scene.zones[next.value].props.value)))
  }

  function StartDragging(s: State, id: Id): State {
    CreatePreview(s.(scene := SetDragging(s.scene, id, true), drag := s.drag.(phase := Dragging)))
  }

  function Motion(s: State, id: Id, far: bool, g: Geometry): State {
    if s.drag.source != Some(id) || s.drag.phase == Idle || (s.drag.phase == Armed && !far) then s
    else UpdateTarget(if s.drag.phase == Armed then StartDragging(s, id) else s, g)
  }

  function Tap(s: State, id: Id, inside: bool): State {
    var u := Cancel(s);
    if inside && id in u.scene.sources && u.scene.sources[id].props.enabled then u.(log := u.log + [Clicked(id)])
    else u
  }

  function Drop(e: Setting, s: State): State {
    var target := s.drag.target;
    var callback :=
      if target.Some? && target.value in s.scene.zones then s.scene.zones[target.value].props.onDrop else "";
    var u := Cancel(s);
    if callback != "" && e.hasCallback
    then u.(log := u.log + [Dropped(callback, s.drag.cargo.payload, s.drag.cargo.targetValue)])
    else u
  }

  function Release(e: Setting, s: State, id: Id, inside: bool, g: Geometry): State {
    if s.drag.source != Some(id) || s.drag.phase == Idle then s
    else if s.drag.phase != Dragging then Tap(s, id, inside)
    else Drop(e, UpdateTarget(s, g))
  }

  // ----- what happens around the controller -----

  datatype SourceChange = SetDragType(dragType: string) | SetPayload(payload: string) | SetSourceEnabled(enabled: bool)
    | SetLevels(levels: nat) | SetLift(lift: bool)

  function ChangedSource(p: SourceProps, c: SourceChange): SourceProps {
    match c
    case SetDragType(v) => p.(dragType := v)
    case SetPayload(v) => p.(payload := v)
    case SetSourceEnabled(v) => p.(enabled := v)
    case SetLevels(v) => p.(levels := v)
    case SetLift(v) => p.(lift := v)
  }

  function SourceChanged(s: State, id: Id): State {
    if s.drag.source == Some(id) then Cancel(s) else s
  }

  function ChangeSource(s: State, id: Id, c: SourceChange): State {
    if id !in s.scene.sources || ChangedSource(s.scene.sources[id].props, c) == s.scene.sources[id].props then s
    else
      var u := if c == SetSourceEnabled(true) then s else SourceChanged(s, id);
      if id !in u.scene.sources then u
      else
        var source := u.scene.sources[id].(props := ChangedSource(u.scene.sources[id].props, c));
        u.(scene := if c.SetLevels? then WithSource(u.scene, id, source)
                    else u.scene.(sources := u.scene.sources[id := source]))
  }

  datatype ZoneChange = SetAccepts(accepts: seq<string>) | SetValue(value: string) | SetOnDrop(onDrop: string)
    | SetZoneEnabled(enabled: bool)

  function ChangedZone(p: ZoneProps, c: ZoneChange): ZoneProps {
    match c
    case SetAccepts(v) => p.(accepts := v)
    case SetValue(v) => p.(value := v)
    case SetOnDrop(v) => p.(onDrop := v)
    case SetZoneEnabled(v) => p.(enabled := v)
  }

  function ZoneChanged(s: State, z: Id): State {
    if s.drag.target == Some(z) then Cancel(s) else s
  }

  function ChangeZone(s: State, z: Id, c: ZoneChange): State {
    if z !in s.scene.zones || ChangedZone(s.scene.zones[z].props, c) == s.scene.zones[z].props then s
    else
      var u := if c == SetZoneEnabled(true) then s else ZoneChanged(s, z);
      if z !in u.scene.zones then u
      else
        var zone := Zone(ChangedZone(u.scene.zones[z].props, c),
                         u.scene.zones[z].over && c != SetZoneEnabled(false));
        u.(scene := u.scene.(zones := u.scene.zones[z := zone]))
  }

  function SetOverlay(s: State, root: Option<Id>): State {
    if s.drag.overlay == root then s
    else
      var u := Cancel(s);
      u.(drag := u.drag.(overlay := root))
  }

  /** The source is being destroyed: its preview target is not touched. */
  function UnregisterSource(s: State, id: Id): State {
    var u := s.(scene := s.scene.(sources := s.scene.sources - {id}));
    if s.drag.source != Some(id) then u
    else Forget(ClearPreview(ClearTarget(u.(drag := u.drag.(held := u.drag.held.(node := None))))))
  }

  function UnregisterZone(s: State, z: Id): State {
    var u := s.(scene := s.scene.(zones := s.scene.zones - {z}));
    if s.drag.target != Some(z) then u
    else Cancel(u.(drag := u.drag.(target := None, cargo := u.drag.cargo.(targetValue := ""))))
  }

  ghost predicate In(t: Tree, subtree: Id, participant: Option<Id>)
  {
    participant.Some? && Above(t, subtree, participant.value)
  }

  ghost function CancelIfIn(e: Setting, s: State, subtree: Id): State
  {
    if In(e.tree, subtree, s.drag.source) || In(e.tree, subtree, s.drag.target)
       || In(e.tree, subtree, s.drag.held.node)
    then Cancel(s)
    else s
  }

  function Clamped(v: real): real { if v < 0.0 then 0.0 else if v > 1.0 then 1.0 else v }

  function SetSourceOpacity(s: State, id: Id, v: real): State {
    if id !in s.scene.sources then s
    else s.(scene := WithSource(s.scene, id, s.scene.sources[id].(ownOpacity := Clamped(v))))
  }

  /** Someone else sets a node's opacity or layout participation. */
  function Paint(s: State, n: Id, look: Look): State {
    s.(scene := WithLook(s.scene, n, look))
  }

  // ----- runs -----

  datatype Op =
    | DoArm(source: Id)
    | DoMotion(source: Id, far: bool, g: Geometry)
    | DoRelease(source: Id, inside: bool, g: Geometry)
    | DoCancel
    | DoSetOverlay(root: Option<Id>)
    | DoChangeSource(source: Id, sourceChange: SourceChange)
    | DoChangeZone(zone: Id, zoneChange: ZoneChange)
    | DoUnregisterSource(source: Id)
    | DoUnregisterZone(zone: Id)
    | DoCancelIfIn(subtree: Id)
    | DoSetSourceOpacity(source: Id, opacity: real)
    | DoPaint(node: Id, look: Look)

  ghost function Step(e: Setting, s: State, op: Op): State
  {
    match op
    case DoArm(id) => Arm(e, s, id)
    case DoMotion(id, far, g) => Motion(s, id, far, g)
    case DoRelease(id, inside, g) => Release(e, s, id, inside, g)
    case DoCancel => Cancel(s)
    case DoSetOverlay(root) => SetOverlay(s, root)
    case DoChangeSource(id, c) => ChangeSource(s, id, c)
    case DoChangeZone(z, c) => ChangeZone(s, z, c)
    case DoUnregisterSource(id) => UnregisterSource(s, id)
    case DoUnregisterZone(z) => UnregisterZone(s, z)
    case DoCancelIfIn(subtree) => CancelIfIn(e, s, subtree)
    case DoSetSourceOpacity(id, v) => SetSourceOpacity(s, id, v)
    case DoPaint(n, look) => Paint(s, n, look)
  }

  ghost function Run(e: Setting, s: State, ops: seq<Op>): State
  {
    if ops == [] then s else Step(e, Run(e, s, ops[..|ops| - 1]), ops[|ops| - 1])
  }
}
