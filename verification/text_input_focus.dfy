/** Whether the compositor is told: the last enable or disable on the wire against the
    service's own flag, what a change of client says first, and when it enables. */
module TextInputFocus {
  import opened Options
  import opened TextInputModel

  // ----- reading the wire -----

  /** Of the first n requests the last enable or disable is an enable. */
  function EnabledUpTo(wire: seq<Request>, n: nat): bool
    requires n <= |wire|
  {
    n > 0 && (wire[n - 1] == Enable || (wire[n - 1] != Disable && EnabledUpTo(wire, n - 1)))
  }

  function WireEnabled(wire: seq<Request>): bool { EnabledUpTo(wire, |wire|) }

  predicate Switches(request: Request) { request == Enable || request == Disable }

  lemma {:induction false} EnabledBefore(wire: seq<Request>, more: seq<Request>, n: nat)
    requires n <= |wire| && wire <= more
    ensures EnabledUpTo(more, n) == EnabledUpTo(wire, n)
  {
    if n > 0 {
      EnabledBefore(wire, more, n - 1);
    }
  }

  lemma {:induction false} EnabledSilent(wire: seq<Request>, m: nat, n: nat)
    requires m <= n <= |wire| && forall k :: m <= k < n ==> !Switches(wire[k])
    ensures EnabledUpTo(wire, n) == EnabledUpTo(wire, m)
  {
    if m < n {
      EnabledSilent(wire, m, n - 1);
    }
  }

  lemma SilentGroup(wire: seq<Request>, group: seq<Request>)
    requires forall k :: 0 <= k < |group| ==> !Switches(group[k])
    ensures WireEnabled(wire + group) == WireEnabled(wire)
  {
    EnabledBefore(wire, wire + group, |wire|);
    EnabledSilent(wire + group, |wire|, |wire + group|);
  }

  /** A group that begins with an enable or a disable, and holds no other. */
  lemma SwitchingGroup(wire: seq<Request>, request: Request, rest: seq<Request>)
    requires Switches(request) && forall k :: 0 <= k < |rest| ==> !Switches(rest[k])
    ensures WireEnabled(wire + ([request] + rest)) <==> request == Enable
  {
    var more := wire + ([request] + rest);
    assert forall k :: |wire| + 1 <= k < |more| ==> more[k] == rest[k - |wire| - 1];
    EnabledSilent(more, |wire| + 1, |more|);
  }

  // ----- parts -----

  function Said(surface: Id): seq<Request> { [Commit, SurfaceCommit(surface)] }

  /** The flag and the wire, and that nothing is said on no object. */
  predicate InStep(s: Service) {
    && (s.input.enabled ==> WireEnabled(s.trace.wire))
    && (!s.input.bound ==> s.trace.wire == [])
    && (s.active.client != 0 <==> s.active.surface != 0)
    && (s.active.client != 0 ==> s.input.bound)
  }

  /** The compositor holds the input method enabled, and the service does not. */
  predicate Stale(s: Service) { WireEnabled(s.trace.wire) && !s.input.enabled }

  predicate SameSwitch(s: Service, r: Service) {
    && r.input.enabled == s.input.enabled && r.input.bound == s.input.bound && r.active == s.active
    && WireEnabled(r.trace.wire) == WireEnabled(s.trace.wire) && (r.trace.wire == [] <==> s.trace.wire == [])
  }

  lemma CommitSame(s: Service, cause: Cause, state: ClientState)
    requires InStep(s)
    ensures InStep(CommitActiveState(s, cause, state)) && SameSwitch(s, CommitActiveState(s, cause, state))
  {
    var signature := SignatureOf(state, s.input.version);
    SilentGroup(s.trace.wire, StateRequests(signature, cause) + Said(s.active.surface));
  }

  /** The group that enables, from a service that is not. */
  function EnableGroup(s: Service, cause: Cause, state: ClientState): seq<Request> {
    [Enable] + (StateRequests(SignatureOf(state, s.input.version), cause) + Said(s.active.surface))
  }

  lemma EnableSays(s: Service, cause: Cause, state: ClientState)
    requires InStep(s)
    ensures var r := EnableActive(s, cause, state);
      && InStep(r) && r.active == s.active && r.input.bound == s.input.bound && r.focus == s.focus
      && (if s.active.client == 0 || !ActiveSurfaceAccepts(s) then r == s
          else r.input.enabled && r.last == Some(SignatureOf(state, s.input.version)))
      && (s.active.client != 0 && ActiveSurfaceAccepts(s) && !s.input.enabled ==>
           r.trace.wire == s.trace.wire + EnableGroup(s, cause, state))
  {
    if s.active.client != 0 && ActiveSurfaceAccepts(s) {
      if s.input.enabled {
        CommitSame(s, cause, state);
      } else {
        var rest := StateRequests(SignatureOf(state, s.input.version), cause) + Said(s.active.surface);
        EnableIsOneGroup(s, cause, state);
        SwitchingGroup(s.trace.wire, Enable, rest);
        assert EnableGroup(s, cause, state) ==
          [Enable] + StateRequests(SignatureOf(state, s.input.version), cause) + Said(s.active.surface);
      }
    }
  }

  /** Disabling lowers the flag, and tells the compositor wherever the surface still accepts. */
  lemma DisableSays(s: Service)
    requires InStep(s)
    ensures var r := DisableActive(s);
      && InStep(r) && !r.input.enabled && r.active == s.active && r.focus == s.focus
      && r.input.bound == s.input.bound && r.input.version == s.input.version
      && r.trace.wire == s.trace.wire +
           (if s.input.enabled && s.input.bound && ActiveSurfaceAccepts(s)
            then [Disable] + Said(s.active.surface) else [])
      && (s.input.enabled && s.input.bound && ActiveSurfaceAccepts(s) ==> !WireEnabled(r.trace.wire))
  {
    SwitchingGroup(s.trace.wire, Disable, Said(s.active.surface));
    assert s.trace.wire + [] == s.trace.wire;
  }

  // ----- operations -----

  /** The service while it looks at a request for the focus. */
  function Asked(s: Service, accepts: bool, parent: Id): Service {
    s.(focus := s.focus.(accepts := accepts, keyboardParent := parent))
  }

  function With(s: Service, surface: Id, client: Id): Service { s.(active := Active(surface, client)) }

  /** The operation lowers the flag without a word to the compositor: the entered surface is
      left, or the active client is dropped, or replaced by one that cannot be enabled, while
      its surface does not accept. */
  predicate Loses(s: Service, op: Op) {
    && s.input.enabled
    && match op
       case Leave(surface) => s.focus.entered == surface
       case ClearFocusedClient(client) => client != 0 && client == s.active.client && !ActiveSurfaceAccepts(s)
       case SetFocusedClient(surface, client, accepts, parent, _) =>
         if surface == 0 || client == 0 then s.active.client != 0 && !ActiveSurfaceAccepts(s)
         else
           var s1 := Asked(s, accepts, parent);
           && s.input.bound && s.active != Active(surface, client)
           && !ActiveSurfaceAccepts(s1) && !ActiveSurfaceAccepts(With(s1, surface, client))
       case _ => false
  }

  ghost predicate StaleExactly(s: Service, op: Op) {
    InStep(ExecOp(s, op)) && (!Stale(s) ==> (Stale(ExecOp(s, op)) <==> Loses(s, op)))
  }

  lemma ClearStale(s: Service, client: Id)
    requires InStep(s)
    ensures StaleExactly(s, ClearFocusedClient(client))
  {
    DisableSays(s);
    SwitchingGroup(s.trace.wire, Disable, Said(s.active.surface));
    assert s.trace.wire + [] == s.trace.wire;
  }

  /** What replacing the active client says: a disable for the old one where it still accepts,
      then an enable with all the state for the new one where that accepts. */
  lemma SwitchSays(s: Service, surface: Id, client: Id, state: ClientState)
    requires InStep(s) && s.input.bound && surface != 0 && client != 0
    ensures var r, taken := SwitchOn(s, surface, client, state), With(s, surface, client);
      && InStep(r) && r.active == Active(surface, client) && r.focus == s.focus
      && r.input.enabled == ActiveSurfaceAccepts(taken)
      && (r.input.enabled ==> r.last == Some(SignatureOf(state, s.input.version)))
      && r.trace.wire == s.trace.wire
           + (if s.input.enabled && ActiveSurfaceAccepts(s) then [Disable] + Said(s.active.surface) else [])
           + (if ActiveSurfaceAccepts(taken) then EnableGroup(taken, Other, state) else [])
  {
    var s1 := DisableActive(s);
    DisableSays(s);
    var s2 := if s1.active.client != 0 then Deactivated(s1, s1.active.client) else s1;
    var s3 := Activated(s2.(active := Active(surface, client)), client);
    EnableSays(s3, Other, state);
    assert s3.trace.wire + [] == s3.trace.wire;
  }

  lemma SwitchStale(s: Service, surface: Id, client: Id, state: ClientState)
    requires InStep(s) && s.input.bound && surface != 0 && client != 0 && !Stale(s)
    ensures Stale(SwitchOn(s, surface, client, state)) <==>
      s.input.enabled && !ActiveSurfaceAccepts(s) && !ActiveSurfaceAccepts(With(s, surface, client))
  {
    SwitchSays(s, surface, client, state);
    SwitchingGroup(s.trace.wire, Disable, Said(s.active.surface));
    assert s.trace.wire + [] + [] == s.trace.wire;
    var said := [Disable] + Said(s.active.surface);
    assert s.trace.wire + said + [] == s.trace.wire + said;
  }

  lemma SetFocusedStale(s: Service, surface: Id, client: Id, accepts: bool, parent: Id, state: ClientState)
    requires InStep(s)
    ensures StaleExactly(s, SetFocusedClient(surface, client, accepts, parent, state))
  {
    if surface == 0 || client == 0 {
      ClearStale(s, s.active.client);
    } else if s.input.bound {
      var s1 := Asked(s, accepts, parent);
      if s1.active == Active(surface, client) {
        EnableSays(s1, Other, state);
        CommitSame(s1, Other, state);
      } else {
        SwitchSays(s1, surface, client, state);
        if !Stale(s) {
          SwitchStale(s1, surface, client, state);
        }
      }
    }
  }

  lemma KeyboardFocusStale(s: Service, surface: Id, entered: bool, state: ClientState)
    requires InStep(s)
    ensures StaleExactly(s, KeyboardFocus(surface, entered, state))
  {
    EnableSays(s.(focus := s.focus.(keyboard := surface)), Other, state);
  }

  lemma EnterStale(s: Service, surface: Id, state: ClientState)
    requires InStep(s)
    ensures StaleExactly(s, Enter(surface, state))
  {
    var s1 := MarkWith(ResetPending(s.(focus := s.focus.(entered := surface), last := None)), Entered);
    EnableSays(s1, Other, state);
  }

  lemma OthersStale(s: Service, op: Op)
    requires InStep(s) && (op.Bind? || op.Cleanup? || op.Leave? || op.Ime? || op.TransferFocusedClient?)
    ensures StaleExactly(s, op)
  {
  }

  /** From a state where the compositor holds the method enabled only if the service does, an
      operation leads to one where it does not exactly if it loses the flag. */
  lemma OpStaleExactly(s: Service, op: Op)
    requires InStep(s) && !op.HandleDone?
    ensures StaleExactly(s, op)
  {
    match op
    case SetFocusedClient(surface, client, accepts, parent, state) =>
      SetFocusedStale(s, surface, client, accepts, parent, state);
    case ClearFocusedClient(client) => ClearStale(s, client);
    case NotifyClientStateChanged(client, cause, state) => CommitSame(s, cause, state);
    case KeyboardFocus(surface, entered, state) => KeyboardFocusStale(s, surface, entered, state);
    case Enter(surface, state) => EnterStale(s, surface, state);
    case _ => OthersStale(s, op);
  }

  // ----- runs -----

  /** No operation of the run, at any depth, loses the flag. */
  ghost predicate Careful(s: Service, run: Script)
    decreases run, 0
  {
    run.Then? ==> CarefulOp(s, run.op) && Careful(ExecOp(s, run.op), run.rest)
  }

  ghost predicate CarefulOp(s: Service, op: Op)
    decreases op, 1
  {
    if op.HandleDone? then s.active.client != 0 ==> Careful(DoneStart(s), op.applied) else !Loses(s, op)
  }

  lemma {:induction false} RunInStep(s: Service, run: Script)
    requires InStep(s)
    ensures InStep(Exec(s, run)) && (!Stale(s) && Careful(s, run) ==> !Stale(Exec(s, run)))
    decreases run, 0
  {
    if run.Then? {
      OpInStep(s, run.op);
      RunInStep(ExecOp(s, run.op), run.rest);
    }
  }

  lemma {:induction false} OpInStep(s: Service, op: Op)
    requires InStep(s)
    ensures InStep(ExecOp(s, op)) && (!Stale(s) && CarefulOp(s, op) ==> !Stale(ExecOp(s, op)))
    decreases op, 1
  {
    if op.HandleDone? {
      if s.active.client != 0 {
        RunInStep(DoneStart(s), op.applied);
        CommitSame(Exec(DoneStart(s), op.applied).(applying := s.applying), InputMethod, op.state);
      }
    } else {
      OpStaleExactly(s, op);
    }
  }

  // ----- main results -----

  /** In every run, while the service holds the input method enabled, the last enable or
      disable on the wire is an enable; and in a run in which no operation loses the flag
      that is so exactly while the service does. */
  lemma EnabledIsOnTheWire(run: Script)
    ensures var s := Exec(Initial(), run);
      && (s.input.enabled ==> WireEnabled(s.trace.wire))
      && (Careful(Initial(), run) ==> (s.input.enabled <==> WireEnabled(s.trace.wire)))
  {
    RunInStep(Initial(), run);
  }

  /** After any run, each operation that drops or replaces the active client while it is enabled
      and its surface accepts says so first: a disable, a commit, and a commit of that
      surface. What follows is at most an enable for the new client. */
  lemma DroppingSaysDisable(run: Script, client: Id)
    ensures var s := Exec(Initial(), run);
      var r := ExecOp(s, ClearFocusedClient(client));
      client != 0 && client == s.active.client ==>
        && r.active == Active(0, 0) && !r.input.enabled
        && r.trace.wire == s.trace.wire +
             (if s.input.enabled && ActiveSurfaceAccepts(s)
              then [Disable, Commit, SurfaceCommit(s.active.surface)] else [])
  {
    var s := Exec(Initial(), run);
    RunInStep(Initial(), run);
    DisableSays(s);
    assert [Disable] + Said(s.active.surface) == [Disable, Commit, SurfaceCommit(s.active.surface)];
  }

  lemma ReplacingSaysDisable(run: Script, surface: Id, client: Id, accepts: bool, parent: Id, state: ClientState)
    ensures var s := Exec(Initial(), run);
      var asked := Asked(s, accepts, parent);
      var taken := With(asked, surface, client);
      var r := ExecOp(s, SetFocusedClient(surface, client, accepts, parent, state));
      s.input.bound && surface != 0 && client != 0 && s.active != Active(surface, client) ==>
        && r.active == Active(surface, client) && r.input.enabled == ActiveSurfaceAccepts(taken)
        && r.trace.wire == s.trace.wire
             + (if s.input.enabled && ActiveSurfaceAccepts(asked)
                then [Disable, Commit, SurfaceCommit(s.active.surface)] else [])
             + (if ActiveSurfaceAccepts(taken)
                then [Enable] + StateRequests(SignatureOf(state, s.input.version), Other)
                     + [Commit, SurfaceCommit(surface)] else [])
  {
    var s := Exec(Initial(), run);
    RunInStep(Initial(), run);
    if s.input.bound && surface != 0 && client != 0 && s.active != Active(surface, client) {
      var taken := With(Asked(s, accepts, parent), surface, client);
      SwitchSays(Asked(s, accepts, parent), surface, client, state);
      assert [Disable] + Said(s.active.surface) == [Disable, Commit, SurfaceCommit(s.active.surface)];
      assert EnableGroup(taken, Other, state)
        == [Enable] + StateRequests(SignatureOf(state, s.input.version), Other) + [Commit, SurfaceCommit(surface)];
    }
  }

  /** The operation is about the active client's surface gaining the input method. */
  predicate Focuses(s: Service, op: Op) {
    match op
    case SetFocusedClient(surface, client, _, _, _) => s.input.bound && surface != 0 && client != 0
    case KeyboardFocus(_, entered, _) => s.active.client != 0 && entered
    case Enter(surface, _) => s.active.client != 0 && s.active.surface == surface
    case _ => false
  }

  /** The client is enabled if its surface accepts, and its state is then the one committed last. */
  predicate Gained(s: Service, r: Service, state: ClientState) {
    ActiveSurfaceAccepts(r) ==>
      r.input.enabled && WireEnabled(r.trace.wire) && r.last == Some(SignatureOf(state, s.input.version))
  }

  lemma SetFocusedGains(s: Service, surface: Id, client: Id, accepts: bool, parent: Id, state: ClientState)
    requires InStep(s) && s.input.bound && surface != 0 && client != 0
    ensures var r := SetFocusedOn(s, surface, client, accepts, parent, state);
      r.active == Active(surface, client) && Gained(s, r, state)
  {
    if s.active == Active(surface, client) {
      EnableSays(Asked(s, accepts, parent), Other, state);
    } else {
      SwitchSays(Asked(s, accepts, parent), surface, client, state);
    }
  }

  lemma EnterGains(s: Service, surface: Id, state: ClientState)
    requires InStep(s) && s.active.client != 0 && s.active.surface == surface
    ensures var r := EnterOn(s, surface, state); ActiveSurfaceAccepts(r) && Gained(s, r, state)
  {
    EnableSays(MarkWith(ResetPending(s.(focus := s.focus.(entered := surface), last := None)), Entered), Other, state);
  }

  lemma KeyboardGains(s: Service, surface: Id, state: ClientState)
    requires InStep(s) && s.active.client != 0
    ensures Gained(s, KeyboardFocusOn(s, surface, true, state), state)
  {
    EnableSays(s.(focus := s.focus.(keyboard := surface)), Other, state);
  }

  /** After any run, an operation that brings the focus enables the active client wherever its
      surface then accepts, and the state committed last is then the client's. */
  lemma FocusEnables(run: Script, op: Op)
    ensures var s := Exec(Initial(), run);
      var r := ExecOp(s, op);
      Focuses(s, op) ==>
        && (op.SetFocusedClient? ==> r.active == Active(op.surface, op.client))
        && (op.Enter? ==> ActiveSurfaceAccepts(r))
        && Gained(s, r, op.state)
  {
    var s := Exec(Initial(), run);
    RunInStep(Initial(), run);
    if Focuses(s, op) {
      match op {
        case SetFocusedClient(surface, client, accepts, parent, state) =>
          SetFocusedGains(s, surface, client, accepts, parent, state);
        case KeyboardFocus(surface, _, state) => KeyboardGains(s, surface, state);
        case Enter(surface, state) => EnterGains(s, surface, state);
      }
    }
  }

  /** No event of before reaches the client through an edit of after: entering, leaving and
      dropping the client start the edit anew. */
  lemma EditStartsAnew(s: Service, op: Op)
    requires match op
      case Enter(_, _) => true
      case Leave(surface) => s.focus.entered == surface
      case ClearFocusedClient(client) => client != 0 && client == s.active.client
      case Cleanup => true
      case _ => false
    ensures ExecOp(s, op).pending == NO_EDIT && ExecOp(s, op).trace.events == []
  {
  }
}
