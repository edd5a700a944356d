/** What single calls and events of the text-input service do, stated by their results: what
    a commit holds, which edit events count, who accepts input, and what is forgotten. */
module TextInputEffects {
  import opened Options
  import opened TextInputModel

  // ----- what a commit holds -----

  /** A commit holds the client's state as the protocol allows it: a surrounding text of at most
      4000 bytes, a rectangle of at least one by one, and the preedit hint from version 2 on. */
  lemma SignatureMeans(state: ClientState, version: nat)
    ensures var r := SignatureOf(state, version);
      && (state.sendSurrounding && |state.text.surrounding| <= 4000 ==> r.text == Some(state.text))
      && (!state.sendSurrounding || |state.text.surrounding| > 4000 ==> r.text == None)
      && r.hint.hidden == state.hint.hidden && r.hint.sensitive == state.hint.sensitive
      && (r.hint.preeditShown <==> state.hint.preeditShown && version >= 2)
      && r.password == state.password && r.rect.x == state.rect.x && r.rect.y == state.rect.y
      && (state.rect.width >= 1 ==> r.rect.width == state.rect.width)
      && (state.rect.width < 1 ==> r.rect.width == 1)
      && (state.rect.height >= 1 ==> r.rect.height == state.rect.height)
      && (state.rect.height < 1 ==> r.rect.height == 1)
  {
  }

  /** A state is sent exactly when there is an enabled client on an accepting surface whose state
      is not the one committed last; it is then the one committed last. */
  lemma CommitsExactly(s: Service, cause: Cause, state: ClientState)
    ensures var r, signature := CommitActiveState(s, cause, state), SignatureOf(state, s.input.version);
      if s.input.bound && s.active.client != 0 && s.input.enabled && ActiveSurfaceAccepts(s) then
        && r.last == Some(signature)
        && r.trace.wire == s.trace.wire +
             if s.last == Some(signature) then []
             else StateRequests(signature, cause) + [Commit, SurfaceCommit(s.active.surface)]
      else r == s
  {
    assert s.trace.wire + [] == s.trace.wire;
  }

  /** A change is committed if it is the active client's, and no other client's ever is. */
  lemma OnlyActiveClientCommits(s: Service, client: Id, cause: Cause, state: ClientState)
    ensures var r := ExecOp(s, NotifyClientStateChanged(client, cause, state));
      && (client != s.active.client ==> r == s)
      && (client == s.active.client != 0 && s.input.bound && s.input.enabled && ActiveSurfaceAccepts(s) ==>
           r.last == Some(SignatureOf(state, s.input.version)))
  {
    CommitsExactly(s, cause, state);
  }

  /** At the end of an edit the client's state is committed exactly when the edit went well and
      the serial is that of the last commit, and as an input-method change. */
  lemma DoneCommitsExactly(s: Service, serial: nat, applied: Script, throws: bool, state: ClientState)
    requires s.active.client != 0
    ensures var after := Exec(DoneStart(s), applied);
      var r := ExecOp(s, HandleDone(serial, applied, throws, state));
      && r.applying == s.applying
      && (throws || serial != after.input.serial ==> r.trace == after.trace && r.last == after.last)
      && (!throws && serial == after.input.serial ==>
           r.trace.wire == after.trace.wire +
             if after.input.bound && after.active.client != 0 && after.input.enabled && ActiveSurfaceAccepts(after)
                && after.last != Some(SignatureOf(state, after.input.version))
             then StateRequests(SignatureOf(state, after.input.version), InputMethod)
                  + [Commit, SurfaceCommit(after.active.surface)]
             else [])
  {
    var after := Exec(DoneStart(s), applied).(applying := s.applying);
    CommitsExactly(after, InputMethod, state);
    assert after.trace.wire + [] == after.trace.wire;
  }

  // ----- which edit events count -----

  predicate SameKind(a: ImeEvent, b: ImeEvent) {
    match a
    case PreeditString(_, _, _) => b.PreeditString?
    case CommitString(_) => b.CommitString?
    case DeleteSurroundingText(_, _) => b.DeleteSurroundingText?
    case SubmitAction => b.SubmitAction?
  }

  /** The edit holds what the event says. */
  predicate Holds(edit: Edit, event: ImeEvent) {
    match event
    case PreeditString(text, b, e) => edit.preedit == Some((text, b, e))
    case CommitString(text) => edit.commit == Some(text)
    case DeleteSurroundingText(before, after) => edit.delete == Some((before, after))
    case SubmitAction => edit.submit
  }

  /** Of each kind the last event counts. */
  lemma {:induction false} LastEventCounts(events: seq<ImeEvent>, k: nat)
    requires k < |events| && forall j :: k < j < |events| ==> !SameKind(events[k], events[j])
    ensures Holds(Fold(events), events[k])
  {
    var n := |events| - 1;
    if k < n {
      LastEventCounts(events[..n], k);
    }
  }

  /** And without an event of a kind the edit holds nothing of that kind. */
  lemma {:induction false} OnlyEventsCount(events: seq<ImeEvent>)
    ensures (forall k :: 0 <= k < |events| ==> !events[k].PreeditString?) ==> Fold(events).preedit == None
    ensures (forall k :: 0 <= k < |events| ==> !events[k].CommitString?) ==> Fold(events).commit == None
    ensures (forall k :: 0 <= k < |events| ==> !events[k].DeleteSurroundingText?) ==> Fold(events).delete == None
    ensures (forall k :: 0 <= k < |events| ==> !events[k].SubmitAction?) ==> !Fold(events).submit
  {
    if events != [] {
      var front, last := events[..|events| - 1], events[|events| - 1];
      OnlyEventsCount(front);
      assert forall k :: 0 <= k < |front| ==> front[k] == events[k];
    }
  }

  // ----- who accepts input, and where the focus goes -----

  /** The active surface accepts input where the compositor has entered it; otherwise only if the
      client asked to be activated by keyboard focus, and that is on the surface or its parent. */
  lemma AcceptsExactly(s: Service)
    ensures s.active.surface == 0 ==> !ActiveSurfaceAccepts(s)
    ensures s.active.surface != 0 && s.focus.entered == s.active.surface ==> ActiveSurfaceAccepts(s)
    ensures s.focus.entered != s.active.surface && (!s.focus.accepts || s.focus.keyboard == 0) ==>
      !ActiveSurfaceAccepts(s)
    ensures s.active.surface != 0 && s.focus.accepts && s.focus.keyboard == s.active.surface ==> ActiveSurfaceAccepts(s)
    ensures s.active.surface != 0 && s.focus.accepts && s.focus.keyboard == s.focus.keyboardParent != 0 ==>
      ActiveSurfaceAccepts(s)
    ensures s.active.surface != s.focus.entered && s.focus.keyboard !in {s.active.surface, s.focus.keyboardParent} ==>
      !ActiveSurfaceAccepts(s)
  {
  }

  lemma EnableKeepsFocus(s: Service, cause: Cause, state: ClientState)
    ensures EnableActive(s, cause, state).focus == s.focus
  {
  }

  /** Entering and leaving move the surface entered, and nothing else of the focus. */
  lemma EnteredMoves(s: Service, surface: Id, state: ClientState)
    ensures EnterOn(s, surface, state).focus == s.focus.(entered := surface)
    ensures LeaveOn(s, surface).focus == if s.focus.entered == surface then s.focus.(entered := 0) else s.focus
  {
    EnableKeepsFocus(
      MarkWith(ResetPending(s.(focus := s.focus.(entered := surface), last := None)), Entered), Other, state);
  }

  /** The keyboard moves its own part; losing it counts only for the surface that has it. */
  lemma KeyboardMoves(s: Service, surface: Id, entered: bool, state: ClientState)
    ensures KeyboardFocusOn(s, surface, entered, state).focus ==
      if entered then s.focus.(keyboard := surface)
      else if s.focus.keyboard == surface then s.focus.(keyboard := 0)
      else s.focus
  {
    EnableKeepsFocus(s.(focus := s.focus.(keyboard := surface)), Other, state);
  }

  /** Entering another surface than the active client's, losing the keyboard, or leaving, says
      nothing to the compositor. */
  lemma OtherFocusIsSilent(s: Service, surface: Id, state: ClientState)
    ensures s.active.surface != surface ==> ExecOp(s, Enter(surface, state)).trace.wire == s.trace.wire
    ensures ExecOp(s, Leave(surface)).trace.wire == s.trace.wire
    ensures ExecOp(s, KeyboardFocus(surface, false, state)).trace.wire == s.trace.wire
  {
  }

  // ----- what is forgotten -----

  /** After a cleanup the service is as at the start but for the state committed last. */
  lemma CleanupForgets(s: Service)
    ensures var r := ExecOp(s, Cleanup);
      && r.input == Object(false, 0, 0, false) && r.focus == Focus(0, 0, 0, false) && r.active == Active(0, 0)
      && r.pending == Edit(None, None, None, false) && r.last == s.last && r.applying == s.applying
      && r.trace == s.trace.(wire := [], events := [],
                             activated := if s.active.client == 0 then s.trace.activated
                                          else s.trace.activated - {s.active.client})
    ensures Initial().input == Object(false, 0, 0, false) && Initial().focus == Focus(0, 0, 0, false)
    ensures Initial().active == Active(0, 0) && Initial().pending == Edit(None, None, None, false)
  {
  }

  /** Binding the seat that is bound does nothing; any other starts with a clean new object. */
  lemma BindStartsClean(s: Service, same: bool, created: bool, version: nat)
    ensures var r := ExecOp(s, Bind(same, created, version));
      if same && s.input.bound then r == s
      else
        && r.input == Object(created, if created then version else 0, 0, false)
        && r.focus == Focus(0, 0, 0, false) && r.active == Active(0, 0) && r.trace.wire == []
        && r.pending == Edit(None, None, None, false)
  {
  }

  lemma ClearForgetsClient(s: Service, client: Id)
    ensures var r := ExecOp(s, ClearFocusedClient(client));
      if client != 0 && client == s.active.client then
        && r.active == Active(0, 0) && r.focus == s.focus.(accepts := false, keyboardParent := 0)
        && r.trace.activated == s.trace.activated - {client} && !r.input.enabled
      else r == s
  {
  }

  /** While an edit is applied the active client can hand over to another one on its surface: the
      two are told, and the compositor is not. */
  lemma EditMayHandOver(s: Service, target: Id)
    requires s.active.client != 0 && s.input.enabled
    ensures var inside := DoneStart(s);
      var r := ExecOp(inside, TransferFocusedClient(s.active.surface, s.active.client, target));
      && inside.active == s.active && inside.trace.wire == s.trace.wire
      && (target != 0 && target != s.active.client ==>
           && r.active == Active(s.active.surface, target) && r.input == s.input
           && r.trace.wire == s.trace.wire
           && r.trace.activated == s.trace.activated - {s.active.client} + {target})
      && (target == 0 || target == s.active.client ==> r == inside)
  {
  }

  /** No one else can, and not on another surface. */
  lemma OthersMayNotHandOver(s: Service, surface: Id, source: Id, target: Id)
    requires source != s.active.client || surface != s.active.surface || !s.input.enabled
    ensures ExecOp(s, TransferFocusedClient(surface, source, target)) == s
  {
  }
}
