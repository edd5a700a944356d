/** Drags leave no trace: after a gesture every node looks as if there had been no drag,
    exactly if every gesture ends in the way stated here. */
module DragTraces {
  import opened Options
  import opened DropTargets
  import opened DragModel
  import opened DragRuns
  import opened DragGestures

  /** The looks the scene would have without any drag. */
  function PlainStep(s: State, plain: map<Id, Look>, op: Op): map<Id, Look> {
    match op
    case DoPaint(n, look) => plain[n := look]
    case DoSetSourceOpacity(id, v) =>
      if id in s.scene.sources then plain[id := LookIn(plain, id).(opacity := Clamped(v))] else plain
    case DoChangeSource(id, c) =>
      if c.SetLevels? && id in s.scene.sources && c.levels != s.scene.sources[id].props.levels
      then plain[id := LookIn(plain, id).(opacity := s.scene.sources[id].ownOpacity)] else plain
    case _ => plain
  }

  /** The state after the first k operations, and the plain looks beside it. */
  ghost function At(e: Setting, s: State, ops: seq<Op>, k: nat): State
    requires k <= |ops|
  {
    Run(e, s, ops[..k])
  }

  ghost function PlainAt(e: Setting, s: State, ops: seq<Op>, k: nat): map<Id, Look>
    requires k <= |ops|
  {
    if k == 0 then s.scene.looks else PlainStep(At(e, s, ops, k - 1), PlainAt(e, s, ops, k - 1), ops[k - 1])
  }

  lemma AtNext(e: Setting, s: State, ops: seq<Op>, k: nat)
    requires k < |ops|
    ensures At(e, s, ops, k + 1) == Step(e, At(e, s, ops, k), ops[k])
  {
    assert ops[..k + 1][..k] == ops[..k];
  }

  predicate LooksAs(s: State, plain: map<Id, Look>, n: Id) { LookIn(s.scene.looks, n) == LookIn(plain, n) }

  /** The node is shown otherwise while the drag is on. */
  predicate Shown(d: Drag, n: Id) { d.phase == Dragging && (d.held.node == Some(n) || d.source == Some(n)) }

  predicate Traced(s: State, plain: map<Id, Look>, n: Id) {
    if Shown(s.drag, n)
    then s.drag.held.node != Some(n) ==> LookIn(s.scene.looks, n).inLayout == LookIn(plain, n).inLayout
    else LooksAs(s, plain, n)
  }

  /** The end of the gesture puts back the plain look of the node: the saved look is that
      look, as far as it stays, and so is the own opacity of a source that is dragged. If
      the source goes, nothing is put back, so a node that is shown otherwise must not
      differ. */
  predicate Restores(s: State, op: Op, plain: map<Id, Look>, n: Id) {
    if op.DoUnregisterSource? then Shown(s.drag, n) ==> LooksAs(s, plain, n)
    else
      && (s.drag.held.node == Some(n) ==>
           && s.drag.held.saved.inLayout == LookIn(plain, n).inLayout
           && (Resets(s, op, n) || s.drag.held.saved.opacity == LookIn(plain, n).opacity))
      && (DraggedHere(s.drag, n) && n in s.scene.sources ==>
           s.scene.sources[n].ownOpacity == LookIn(plain, n).opacity)
  }

  lemma PlainElsewhere(s: State, op: Op, plain: map<Id, Look>, n: Id)
    requires !SetsLook(op, n) && !SetsLevels(op, n)
    ensures LookIn(PlainStep(s, plain, op), n) == LookIn(plain, n)
  {
  }

  /** A step that ends a gesture sets no look but that of a source with a new level. */
  lemma PlainAtEnd(e: Setting, s: State, op: Op, plain: map<Id, Look>, n: Id)
    requires Ends(e, s, op)
    ensures LookIn(PlainStep(s, plain, op), n) ==
      if SetsLevels(op, n) && n in s.scene.sources then LookIn(plain, n).(opacity := s.scene.sources[n].ownOpacity)
      else LookIn(plain, n)
  {
  }

  lemma EndLookRestores(s: State, op: Op, plain: map<Id, Look>, after: map<Id, Look>, n: Id)
    requires Traced(s, plain, n) && Phased(s.drag) && SourceCurrent(s)
    requires LookIn(after, n) ==
      if SetsLevels(op, n) && n in s.scene.sources then LookIn(plain, n).(opacity := s.scene.sources[n].ownOpacity)
      else LookIn(plain, n)
    ensures EndLook(s, op, n) == LookIn(after, n) <==> Restores(s, op, after, n)
  {
  }

  lemma EndRestoresExactly(e: Setting, s: State, op: Op, plain: map<Id, Look>, n: Id)
    requires Sound(e, s) && Ends(e, s, op) && Traced(s, plain, n)
    ensures var after := PlainStep(s, plain, op);
      Step(e, s, op).drag.phase != Dragging && (LooksAs(Step(e, s, op), after, n) <==> Restores(s, op, after, n))
  {
    EndLooks(e, s, op, n);
    PlainAtEnd(e, s, op, plain, n);
    EndLookRestores(s, op, plain, PlainStep(s, plain, op), n);
  }

  lemma IdleTraces(e: Setting, s: State, op: Op, plain: map<Id, Look>, n: Id)
    requires Sound(e, s) && s.drag.phase == Idle && LooksAs(s, plain, n)
    ensures Step(e, s, op).drag.phase != Dragging && LooksAs(Step(e, s, op), PlainStep(s, plain, op), n)
  {
  }

  lemma SteadyTraces(s: State, u: State, plain: map<Id, Look>, n: Id)
    requires Phased(s.drag) && Phased(u.drag) && Steady(s, u, n) && Traced(s, plain, n)
    ensures Traced(u, plain, n)
  {
  }

  lemma WriteTraces(s: State, op: Op, plain: map<Id, Look>, n: Id, e: Setting)
    requires Sound(e, s) && Traced(s, plain, n) && SetsLook(op, n)
    ensures Traced(Step(e, s, op), PlainStep(s, plain, op), n)
  {
  }

  lemma SetLevelsTraces(e: Setting, s: State, n: Id, c: SourceChange, plain: map<Id, Look>)
    requires GoesOn(e, s, DoChangeSource(n, c)) && c.SetLevels? && Traced(s, plain, n)
    ensures Traced(ChangeSource(s, n, c), PlainStep(s, plain, DoChangeSource(n, c)), n)
  {
    CancelLogsEnd(s);
    if s.drag.source == Some(n) {
      ActiveChange(e, s, n, c);
    } else {
      OtherChange(e, s, n, c);
    }
  }

  lemma GoingOnTraces(e: Setting, s: State, op: Op, plain: map<Id, Look>, n: Id)
    requires GoesOn(e, s, op) && Traced(s, plain, n)
    ensures Traced(Step(e, s, op), PlainStep(s, plain, op), n)
  {
    if SetsLook(op, n) {
      WriteTraces(s, op, plain, n, e);
    } else if SetsLevels(op, n) {
      SetLevelsTraces(e, s, n, op.sourceChange, plain);
    } else if op != DoUnregisterSource(n) {
      StepSteady(e, s, op, n);
      StepKeeps(e, s, op);
      SteadyTraces(s, Step(e, s, op), plain, n);
      PlainElsewhere(s, op, plain, n);
    }
  }

  // ----- whole runs -----

  /** Whenever no drag is on, the node looks plain. */
  ghost predicate PlainWhenStill(e: Setting, s: State, ops: seq<Op>, n: Id, k: nat)
    requires k <= |ops|
  {
    At(e, s, ops, k).drag.phase != Dragging ==> LooksAs(At(e, s, ops, k), PlainAt(e, s, ops, k), n)
  }

  ghost predicate RestoredIfEnded(e: Setting, s: State, ops: seq<Op>, n: Id, k: nat)
    requires k < |ops|
  {
    Ends(e, At(e, s, ops, k), ops[k]) ==> Restores(At(e, s, ops, k), ops[k], PlainAt(e, s, ops, k + 1), n)
  }

  lemma StepTraces(e: Setting, s: State, op: Op, plain: map<Id, Look>, n: Id)
    requires Sound(e, s) && Traced(s, plain, n)
    requires Ends(e, s, op) ==> Restores(s, op, PlainStep(s, plain, op), n)
    ensures Traced(Step(e, s, op), PlainStep(s, plain, op), n)
  {
    if s.drag.phase == Idle {
      IdleTraces(e, s, op, plain, n);
    } else if Ends(e, s, op) {
      EndRestoresExactly(e, s, op, plain, n);
    } else {
      GoingOnTraces(e, s, op, plain, n);
    }
  }

  lemma {:induction false} TracedAt(e: Setting, s: State, ops: seq<Op>, n: Id, k: nat)
    requires AtRest(s) && k <= |ops|
    requires forall j :: 0 <= j < k ==> RestoredIfEnded(e, s, ops, n, j)
    ensures Sound(e, At(e, s, ops, k)) && Traced(At(e, s, ops, k), PlainAt(e, s, ops, k), n)
  {
    RunKeeps(e, s, ops[..k]);
    if k > 0 {
      TracedAt(e, s, ops, n, k - 1);
      AtNext(e, s, ops, k - 1);
      assert RestoredIfEnded(e, s, ops, n, k - 1);
      StepTraces(e, At(e, s, ops, k - 1), ops[k - 1], PlainAt(e, s, ops, k - 1), n);
    }
  }

  lemma RestoredByEnd(e: Setting, s: State, ops: seq<Op>, n: Id, k: nat)
    requires k < |ops| && Sound(e, At(e, s, ops, k)) && Traced(At(e, s, ops, k), PlainAt(e, s, ops, k), n)
    requires PlainWhenStill(e, s, ops, n, k + 1)
    ensures RestoredIfEnded(e, s, ops, n, k)
  {
    AtNext(e, s, ops, k);
    if Ends(e, At(e, s, ops, k), ops[k]) {
      EndRestoresExactly(e, At(e, s, ops, k), ops[k], PlainAt(e, s, ops, k), n);
    }
  }

  lemma {:induction false} RestoredAt(e: Setting, s: State, ops: seq<Op>, n: Id, k: nat)
    requires AtRest(s) && k < |ops|
    requires forall j :: 0 <= j <= |ops| ==> PlainWhenStill(e, s, ops, n, j)
    ensures RestoredIfEnded(e, s, ops, n, k)
  {
    forall j: nat | j < k ensures RestoredIfEnded(e, s, ops, n, j) {
      RestoredAt(e, s, ops, n, j);
    }
    TracedAt(e, s, ops, n, k);
    RestoredByEnd(e, s, ops, n, k);
  }

  /** In every run, a node has at every moment without a drag the opacity and the layout
      participation that it would have had without any drag before, if and only if every end
      of a gesture in the run restores it. */
  lemma DragsLeaveNoTraceExactly(e: Setting, s: State, ops: seq<Op>, n: Id)
    requires AtRest(s)
    ensures (forall k :: 0 <= k <= |ops| ==> PlainWhenStill(e, s, ops, n, k))
      <==> (forall k :: 0 <= k < |ops| ==> RestoredIfEnded(e, s, ops, n, k))
  {
    if forall k :: 0 <= k <= |ops| ==> PlainWhenStill(e, s, ops, n, k) {
      forall k: nat | k < |ops| ensures RestoredIfEnded(e, s, ops, n, k) {
        RestoredAt(e, s, ops, n, k);
      }
    }
    if forall k :: 0 <= k < |ops| ==> RestoredIfEnded(e, s, ops, n, k) {
      forall k | 0 <= k <= |ops| ensures PlainWhenStill(e, s, ops, n, k) {
        TracedAt(e, s, ops, n, k);
      }
    }
  }

  // ----- runs that restore -----

  /** No one paints the node while it is held, or a source otherwise than by its own opacity.
      A held source gets a new opacity only in its own gesture; that gesture then does not end
      before it is a drag, unless the saved opacity is the own one again or the end applies
      it. A source does not go while its drag shows the node otherwise. */
  ghost predicate Quiet(e: Setting, s: State, op: Op, n: Id) {
    && (match op
        case DoPaint(m, look) =>
          m == n ==>
            && s.drag.held.node != Some(n)
            && (n in s.scene.sources ==> look.opacity == s.scene.sources[n].ownOpacity)
        case DoSetSourceOpacity(id, _) => id == n && s.drag.held.node == Some(n) ==> s.drag.source == Some(n)
        case _ => true)
    && (Ends(e, s, op) ==>
         if op.DoUnregisterSource? then !Shown(s.drag, n)
         else if s.drag.held.node == Some(n) == s.drag.source && s.drag.phase == Armed && !SetsLevels(op, n) then
           n in s.scene.sources ==> s.drag.held.saved.opacity == s.scene.sources[n].ownOpacity
         else true)
  }

  /** The node of a source has its own opacity in the plain scene. */
  predicate Settled(s: State, plain: map<Id, Look>, n: Id) {
    n in s.scene.sources ==> LookIn(plain, n).opacity == s.scene.sources[n].ownOpacity
  }

  predicate Saved(s: State, plain: map<Id, Look>, n: Id) {
    s.drag.held.node == Some(n) ==>
      && s.drag.held.saved.inLayout == LookIn(plain, n).inLayout
      && (s.drag.held.saved.opacity == LookIn(plain, n).opacity || s.drag.source == Some(n))
  }

  lemma SavedRestores(e: Setting, s: State, op: Op, plain: map<Id, Look>, n: Id)
    requires Sound(e, s) && Ends(e, s, op) && Quiet(e, s, op, n)
    requires Settled(s, plain, n) && Saved(s, plain, n)
    ensures Restores(s, op, PlainStep(s, plain, op), n)
  {
    PlainAtEnd(e, s, op, plain, n);
    if Resets(s, op, n) {
      ResetsSource(e, s, op, n);
    }
  }

  lemma CancelHoldsNothing(s: State)
    ensures Cancel(s).drag.held.node == None && Cancel(s).drag.phase == Idle
  {
  }

  predicate Begins(u: State, n: Id) {
    u.drag.held.node == Some(n) ==> u.drag.phase == Armed && u.drag.held.saved == LookIn(u.scene.looks, n)
  }

  lemma ChangeBegins(e: Setting, s: State, op: Op, n: Id)
    requires Sound(e, s) && (s.drag.phase == Idle || Logs(e, s, op)) && (op.DoChangeSource? || op.DoChangeZone?)
    ensures Begins(Step(e, s, op), n)
  {
    CancelHoldsNothing(s);
    if op.DoChangeSource? {
      if s.drag.source == Some(op.source) {
        ActiveChange(e, s, op.source, op.sourceChange);
      } else {
        OtherChange(e, s, op.source, op.sourceChange);
      }
    }
  }

  lemma UnregisterBegins(e: Setting, s: State, op: Op, n: Id)
    requires Sound(e, s) && (s.drag.phase == Idle || Logs(e, s, op)) && (op.DoUnregisterSource? || op.DoUnregisterZone?)
    ensures Begins(Step(e, s, op), n)
  {
    if op.DoUnregisterZone? {
      var u := s.(scene := s.scene.(zones := s.scene.zones - {op.zone}));
      CancelHoldsNothing(u.(drag := u.drag.(target := None, cargo := u.drag.cargo.(targetValue := ""))));
    }
  }

  lemma MotionBegins(e: Setting, s: State, op: Op, n: Id)
    requires Sound(e, s) && (s.drag.phase == Idle || Logs(e, s, op)) && (op.DoMotion? || op.DoRelease?)
    ensures Begins(Step(e, s, op), n)
  {
    CancelHoldsNothing(s);
    UpdateTargetLeaves(s, op.g);
    CancelHoldsNothing(UpdateTarget(s, op.g));
    if op.DoMotion? {
      UpdateTargetLeaves(StartDragging(s, op.source), op.g);
    }
  }

  /** A gesture that begins saves the look its node has. */
  lemma BeginningSaves(e: Setting, s: State, op: Op, n: Id)
    requires Sound(e, s) && (s.drag.phase == Idle || Logs(e, s, op))
    ensures Begins(Step(e, s, op), n)
  {
    CancelHoldsNothing(s);
    match op
    case DoMotion(_, _, _) => MotionBegins(e, s, op, n);
    case DoRelease(_, _, _) => MotionBegins(e, s, op, n);
    case DoChangeSource(_, _) => ChangeBegins(e, s, op, n);
    case DoChangeZone(_, _) => ChangeBegins(e, s, op, n);
    case DoUnregisterSource(_) => UnregisterBegins(e, s, op, n);
    case DoUnregisterZone(_) => UnregisterBegins(e, s, op, n);
    case _ =>
  }

  predicate OwnKept(s: State, u: State, n: Id) {
    n in u.scene.sources ==> n in s.scene.sources && u.scene.sources[n].ownOpacity == s.scene.sources[n].ownOpacity
  }

  lemma CancelKeepsOwn(s: State, n: Id)
    ensures OwnKept(s, Cancel(s), n)
  {
  }

  lemma StartDraggingKeepsOwn(s: State, id: Id, n: Id)
    ensures OwnKept(s, StartDragging(s, id), n)
  {
  }

  lemma MotionKeepsOwn(s: State, id: Id, far: bool, g: Geometry, n: Id)
    ensures OwnKept(s, Motion(s, id, far, g), n)
  {
    StartDraggingKeepsOwn(s, id, n);
    UpdateTargetLeaves(s, g);
    UpdateTargetLeaves(StartDragging(s, id), g);
  }

  lemma ReleaseKeepsOwn(e: Setting, s: State, id: Id, inside: bool, g: Geometry, n: Id)
    ensures OwnKept(s, Release(e, s, id, inside, g), n)
  {
    UpdateTargetLeaves(s, g);
    CancelKeepsOwn(s, n);
    CancelKeepsOwn(UpdateTarget(s, g), n);
  }

  lemma ChangeSourceKeepsOwn(e: Setting, s: State, id: Id, c: SourceChange, n: Id)
    requires Sound(e, s)
    ensures OwnKept(s, ChangeSource(s, id, c), n)
  {
    if s.drag.source == Some(id) {
      CancelKeepsOwn(s, n);
      ActiveChange(e, s, id, c);
    } else {
      OtherChange(e, s, id, c);
    }
  }

  lemma ChangeZoneKeepsOwn(s: State, z: Id, c: ZoneChange, n: Id)
    ensures OwnKept(s, ChangeZone(s, z, c), n)
  {
    CancelKeepsOwn(s, n);
  }

  lemma UnregisterKeepsOwn(e: Setting, s: State, op: Op, n: Id)
    requires op.DoUnregisterSource? || op.DoUnregisterZone?
    ensures OwnKept(s, Step(e, s, op), n)
  {
    if op.DoUnregisterZone? {
      var u := s.(scene := s.scene.(zones := s.scene.zones - {op.zone}));
      CancelKeepsOwn(u.(drag := u.drag.(target := None, cargo := u.drag.cargo.(targetValue := ""))), n);
    }
  }

  lemma OthersKeepOwn(e: Setting, s: State, op: Op, n: Id)
    requires !SetsLook(op, n)
    requires op.DoArm? || op.DoCancel? || op.DoSetOverlay? || op.DoCancelIfIn? || op.DoSetSourceOpacity? || op.DoPaint?
    ensures OwnKept(s, Step(e, s, op), n)
  {
    CancelKeepsOwn(s, n);
  }

  /** Only its setter changes a source's own opacity. */
  lemma StepKeepsOwn(e: Setting, s: State, op: Op, n: Id)
    requires Sound(e, s) && !SetsLook(op, n)
    ensures OwnKept(s, Step(e, s, op), n)
  {
    match op
    case DoMotion(id, far, g) => MotionKeepsOwn(s, id, far, g, n);
    case DoRelease(id, inside, g) => ReleaseKeepsOwn(e, s, id, inside, g, n);
    case DoChangeSource(id, c) => ChangeSourceKeepsOwn(e, s, id, c, n);
    case DoChangeZone(z, c) => ChangeZoneKeepsOwn(s, z, c, n);
    case DoUnregisterSource(_) => UnregisterKeepsOwn(e, s, op, n);
    case DoUnregisterZone(_) => UnregisterKeepsOwn(e, s, op, n);
    case _ => OthersKeepOwn(e, s, op, n);
  }

  lemma StepSettles(e: Setting, s: State, op: Op, plain: map<Id, Look>, n: Id)
    requires Sound(e, s) && Quiet(e, s, op, n) && Settled(s, plain, n)
    ensures Settled(Step(e, s, op), PlainStep(s, plain, op), n)
  {
    if !SetsLook(op, n) {
      StepKeepsOwn(e, s, op, n);
      if !SetsLevels(op, n) {
        PlainElsewhere(s, op, plain, n);
      }
    }
  }

  lemma GoingOnSaved(e: Setting, s: State, op: Op, plain: map<Id, Look>, n: Id)
    requires GoesOn(e, s, op) && Quiet(e, s, op, n) && Settled(s, plain, n) && Saved(s, plain, n)
    ensures Saved(Step(e, s, op), PlainStep(s, plain, op), n)
  {
    StepGoesOn(e, s, op);
    if !SetsLook(op, n) && !SetsLevels(op, n) {
      PlainElsewhere(s, op, plain, n);
    }
  }

  lemma StepQuiet(e: Setting, s: State, op: Op, plain: map<Id, Look>, n: Id)
    requires Sound(e, s) && Quiet(e, s, op, n)
    requires Traced(s, plain, n) && Settled(s, plain, n) && Saved(s, plain, n)
    ensures var u, after := Step(e, s, op), PlainStep(s, plain, op);
      Traced(u, after, n) && Settled(u, after, n) && Saved(u, after, n)
  {
    StepSettles(e, s, op, plain, n);
    if Ends(e, s, op) {
      SavedRestores(e, s, op, plain, n);
    }
    StepTraces(e, s, op, plain, n);
    if s.drag.phase == Idle || Logs(e, s, op) {
      BeginningSaves(e, s, op, n);
    } else {
      GoingOnSaved(e, s, op, plain, n);
    }
  }

  lemma {:induction false} RunQuiet(e: Setting, s: State, ops: seq<Op>, n: Id, k: nat)
    requires AtRest(s) && k <= |ops| && Settled(s, s.scene.looks, n)
    requires forall j :: 0 <= j < k ==> Quiet(e, At(e, s, ops, j), ops[j], n)
    ensures var u, plain := At(e, s, ops, k), PlainAt(e, s, ops, k);
      Sound(e, u) && Traced(u, plain, n) && Settled(u, plain, n) && Saved(u, plain, n)
  {
    RunKeeps(e, s, ops[..k]);
    if k > 0 {
      RunQuiet(e, s, ops, n, k - 1);
      AtNext(e, s, ops, k - 1);
      StepQuiet(e, At(e, s, ops, k - 1), ops[k - 1], PlainAt(e, s, ops, k - 1), n);
    }
  }

  /** A node that only its source's own setter touches while it is held, and whose source, if
      it gets a new opacity while it is pressed, is then dragged, looks plain whenever no
      drag is on. */
  lemma DragsLeaveNoTrace(e: Setting, s: State, ops: seq<Op>, n: Id)
    requires AtRest(s) && Settled(s, s.scene.looks, n)
    requires forall k :: 0 <= k < |ops| ==> Quiet(e, At(e, s, ops, k), ops[k], n)
    ensures forall k :: 0 <= k <= |ops| ==> PlainWhenStill(e, s, ops, n, k)
  {
    forall k | 0 <= k <= |ops| ensures PlainWhenStill(e, s, ops, n, k) {
      RunQuiet(e, s, ops, n, k);
    }
  }

  // ----- the look of the held node during a gesture -----

  /** The look a gesture gives the node it holds: its own until the drag starts, then what the
      start makes of it. */
  function HeldLook(s: State): Look
    requires s.drag.held.node.Some?
  {
    if s.drag.phase == Dragging then StartedLook(s, s.drag.held.node.value, s.drag.held.saved) else s.drag.held.saved
  }

  ghost predicate Dimmed(s: State) {
    s.drag.held.node.Some? ==> LookIn(s.scene.looks, s.drag.held.node.value) == HeldLook(s)
  }

  /** No one else sets the look of the held node. */
  predicate Undisturbed(s: State, op: Op) {
    s.drag.held.node.Some? ==>
      var n := s.drag.held.node.value;
      !SetsLook(op, n) && (SetsLevels(op, n) ==> s.drag.source == Some(n))
  }

  ghost predicate UndisturbedRun(e: Setting, s: State, ops: seq<Op>) {
    ops == []
    || (UndisturbedRun(e, s, ops[..|ops| - 1]) && Undisturbed(Run(e, s, ops[..|ops| - 1]), ops[|ops| - 1]))
  }

  lemma SteadyDims(s: State, u: State, n: Id)
    requires Phased(s.drag) && Steady(s, u, n) && s.drag.held.node == Some(n) && Dimmed(s)
    ensures Dimmed(u)
  {
  }

  /** Neither does a source that goes, or a new level of the active source, before the gesture ends. */
  lemma HeldSourceDims(e: Setting, s: State, op: Op, n: Id)
    requires GoesOn(e, s, op) && Dimmed(s) && s.drag.held.node == Some(n)
    requires op == DoUnregisterSource(n) || (SetsLevels(op, n) && s.drag.source == Some(n))
    ensures Dimmed(Step(e, s, op))
  {
    CancelLogsEnd(s);
    if SetsLevels(op, n) {
      ActiveChange(e, s, n, op.sourceChange);
    }
  }

  lemma StepDims(e: Setting, s: State, op: Op)
    requires Sound(e, s) && Dimmed(s) && Undisturbed(s, op)
    ensures Dimmed(Step(e, s, op))
  {
    var u := Step(e, s, op);
    if u.drag.held.node.Some? {
      var n := u.drag.held.node.value;
      if s.drag.phase == Idle || Logs(e, s, op) {
        BeginningSaves(e, s, op, n);
      } else {
        StepGoesOn(e, s, op);
        if Leaves(op, n) {
          StepSteady(e, s, op, n);
          SteadyDims(s, u, n);
        } else {
          HeldSourceDims(e, s, op, n);
        }
      }
    }
  }

  lemma {:induction false} RunDims(e: Setting, s: State, ops: seq<Op>)
    requires AtRest(s) && UndisturbedRun(e, s, ops)
    ensures Dimmed(Run(e, s, ops))
  {
    if ops != [] {
      var n := |ops| - 1;
      RunKeeps(e, s, ops[..n]);
      RunDims(e, s, ops[..n]);
      StepDims(e, Run(e, s, ops[..n]), ops[n]);
    }
  }

  /** When the source goes at any time while it is dragged, its preview target looks as it did
      when armed exactly if the drag has not changed it: lifted, dimmed, or, without a
      preview, as the source looks while it is dragged. */
  lemma UnregisteringRestoresExactly(e: Setting, before: State, ops: seq<Op>, id: Id, n: Id)
    requires AtRest(before) && UndisturbedRun(e, before, ops)
    requires DraggedHere(Run(e, before, ops).drag, id) && Run(e, before, ops).drag.held.node == Some(n)
    ensures var s := Run(e, before, ops);
      && id in s.scene.sources
      && var saved, p := s.drag.held.saved, s.scene.sources[id];
      LookIn(UnregisterSource(s, id).scene.looks, n) == saved
      <==> if s.drag.held.preview then (if p.props.lift then saved == Look(0.0, false) else saved.opacity == 0.0)
           else n == id ==> saved.opacity == VisualOpacity(p)
  {
    RunKeeps(e, before, ops);
    RunDims(e, before, ops);
  }
}
