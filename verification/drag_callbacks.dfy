/** What the callbacks of the drag and drop controller see, over whole runs. */
module DragCallbacks {
  import opened Options
  import opened DropTargets
  import opened DragModel
  import opened DragRuns

  /** How far the last gesture of a log has come. */
  datatype Progress = Between | Open(source: Id, dragType: string, payload: string) | Over(source: Id, payload: string)

  /** Gestures begin and end in turn. After an end there is at most one callback, a drop
      with the payload of the gesture that ended or a click on its source. */
  function Scan(log: seq<Event>): Option<Progress> {
    if log == [] then Some(Between)
    else
      var before := Scan(log[..|log| - 1]);
      if before.None? then None else Next(before.value, log[|log| - 1])
  }

  function Next(p: Progress, event: Event): Option<Progress> {
    match event
    case Began(source, dragType, payload) => if p.Open? then None else Some(Open(source, dragType, payload))
    case Ended(source) => if p.Open? && p.source == source then Some(Over(source, p.payload)) else None
    case Dropped(_, payload, _) => if p.Over? && p.payload == payload then Some(Between) else None
    case Clicked(source) => if p.Over? && p.source == source then Some(Between) else None
  }

  ghost predicate Logged(s: State) {
    var p := Scan(s.log);
    && p.Some?
    && (p.value.Open? <==> s.drag.phase != Idle)
    && (s.drag.source.Some? ==> p.value == Open(s.drag.source.value, s.drag.cargo.dragType, s.drag.cargo.payload))
  }

  lemma ScanOne(log: seq<Event>, event: Event)
    ensures Scan(log + [event]) == var p := Scan(log); if p.None? then None else Next(p.value, event)
  {
    assert (log + [event])[..|log|] == log;
  }

  lemma CancelLogs(e: Setting, s: State)
    requires Phased(s.drag) && Logged(s)
    ensures Logged(Cancel(s)) && Cancel(s).drag.phase == Idle
    ensures s.drag.source.Some? ==> Cancel(s).log == s.log + [Ended(s.drag.source.value)]
    ensures s.drag.source.Some? ==> Scan(Cancel(s).log) == Some(Over(s.drag.source.value, s.drag.cargo.payload))
  {
    if s.drag.source.Some? {
      ScanOne(s.log, Ended(s.drag.source.value));
    }
  }

  lemma ArmLogs(e: Setting, s: State, id: Id)
    requires Sound(e, s) && Logged(s)
    ensures Logged(Arm(e, s, id))
  {
    CancelLogs(e, s);
    if id in s.scene.sources {
      var u := Cancel(s);
      var p := u.scene.sources[id].props;
      ScanOne(u.log, Began(id, p.dragType, p.payload));
    }
  }

  /** A release before the drag starts clicks the source exactly when it is inside it. */
  lemma ReleaseClicksExactly(e: Setting, s: State, id: Id, inside: bool, g: Geometry)
    requires Sound(e, s) && s.drag.phase == Armed && s.drag.source == Some(id)
    ensures Release(e, s, id, inside, g).drag.phase == Idle
    ensures Release(e, s, id, inside, g).log == s.log + [Ended(id)] + if inside then [Clicked(id)] else []
  {
    CancelRests(e, s);
    assert s.log + [Ended(id)] + [] == s.log + [Ended(id)];
  }

  /** Dropping calls back exactly when the point aims at a zone with a drop name. It passes
      that name, the source's payload, and the zone's value, after the gesture has ended. */
  lemma ReleaseDropsExactly(e: Setting, s: State, id: Id, inside: bool, g: Geometry)
    requires Sound(e, s) && s.drag.phase == Dragging && s.drag.source == Some(id)
    ensures Release(e, s, id, inside, g).drag.phase == Idle
    ensures var aim := Target(s.scene.zones, s.scene.sources[id].props.dragType, g);
      Release(e, s, id, inside, g).log == s.log + [Ended(id)] +
        if aim.Some? && aim.value in s.scene.zones && s.scene.zones[aim.value].props.onDrop != "" && e.hasCallback
        then [Dropped(s.scene.zones[aim.value].props.onDrop, s.scene.sources[id].props.payload,
                      s.scene.zones[aim.value].props.value)]
        else []
  {
    TargetIsUsable(s.scene.zones, s.drag.cargo.dragType, g);
    UpdateTargetKeeps(e, s, g);
    CancelRests(e, UpdateTarget(s, g));
  }

  lemma ReleaseLogs(e: Setting, s: State, id: Id, inside: bool, g: Geometry)
    requires Sound(e, s) && Logged(s)
    ensures Logged(Release(e, s, id, inside, g))
  {
    if s.drag.source == Some(id) && s.drag.phase == Armed {
      CancelLogs(e, s);
      ScanOne(Cancel(s).log, Clicked(id));
    } else if s.drag.source == Some(id) && s.drag.phase == Dragging {
      var u := UpdateTarget(s, g);
      UpdateTargetKeeps(e, s, g);
      CancelLogs(e, u);
      DropLogs(e, u);
    }
  }

  lemma DropLogs(e: Setting, u: State)
    requires Sound(e, u) && Logged(u) && u.drag.phase == Dragging
    ensures Logged(Drop(e, u))
  {
    CancelLogs(e, u);
    var v := Drop(e, u);
    if v.log != Cancel(u).log {
      ScanOne(Cancel(u).log, v.log[|v.log| - 1]);
    }
  }

  lemma UnregisterLogs(e: Setting, s: State, id: Id)
    requires Sound(e, s) && Logged(s)
    ensures Logged(UnregisterSource(s, id))
  {
    if s.drag.source == Some(id) {
      ScanOne(s.log, Ended(id));
    }
  }

  lemma UnregisterZoneLogs(e: Setting, s: State, z: Id)
    requires Sound(e, s) && Logged(s)
    ensures Logged(UnregisterZone(s, z))
  {
    if s.drag.target == Some(z) {
      var u := s.(scene := s.scene.(zones := s.scene.zones - {z}));
      CancelLogs(e, u.(drag := u.drag.(target := None, cargo := u.drag.cargo.(targetValue := ""))));
    }
  }

  lemma MotionLogs(e: Setting, s: State, id: Id, far: bool, g: Geometry)
    requires Sound(e, s) && Logged(s)
    ensures Logged(Motion(s, id, far, g))
  {
    if s.drag.source == Some(id) && (s.drag.phase == Dragging || (s.drag.phase == Armed && far)) {
      var u := if s.drag.phase == Armed then StartDragging(s, id) else s;
      if s.drag.phase == Armed {
        StartDraggingKeeps(e, s, id);
      }
      UpdateTargetKeeps(e, u, g);
    }
  }

  lemma ChangeSourceLogs(e: Setting, s: State, id: Id, c: SourceChange)
    requires Sound(e, s) && Logged(s)
    ensures Logged(ChangeSource(s, id, c))
  {
    CancelLogs(e, s);
  }

  lemma ChangeZoneLogs(e: Setting, s: State, z: Id, c: ZoneChange)
    requires Sound(e, s) && Logged(s)
    ensures Logged(ChangeZone(s, z, c))
  {
    CancelLogs(e, s);
  }

  lemma StepLogs(e: Setting, s: State, op: Op)
    requires Sound(e, s) && Logged(s)
    ensures Logged(Step(e, s, op))
  {
    CancelLogs(e, s);
    match op
    case DoArm(id) => ArmLogs(e, s, id);
    case DoMotion(id, far, g) => MotionLogs(e, s, id, far, g);
    case DoRelease(id, inside, g) => ReleaseLogs(e, s, id, inside, g);
    case DoUnregisterSource(id) => UnregisterLogs(e, s, id);
    case DoUnregisterZone(z) => UnregisterZoneLogs(e, s, z);
    case DoChangeSource(id, c) => ChangeSourceLogs(e, s, id, c);
    case DoChangeZone(z, c) => ChangeZoneLogs(e, s, z, c);
    case _ =>
  }

  /** In every run the callbacks come in turn: a drop or a click only after the gesture has
      ended, at most once for each arming, and a drop with the payload that was armed. */
  lemma {:induction false} CallbacksFollowGestures(e: Setting, s: State, ops: seq<Op>)
    requires AtRest(s) && s.log == []
    ensures Logged(Run(e, s, ops))
  {
    if ops != [] {
      RunKeeps(e, s, ops[..|ops| - 1]);
      CallbacksFollowGestures(e, s, ops[..|ops| - 1]);
      StepLogs(e, Run(e, s, ops[..|ops| - 1]), ops[|ops| - 1]);
    }
  }
}
