/** The text-input service as an object. Requests and callbacks to clients go into a
    ghost trace; each method is tied to the function of TextInputModel. */
module TextInput {
  import opened Options
  import opened TextInputModel

  class TextInputService {
    var textInput: bool        // the zwp_text_input_v3 object exists
    var enteredSurface: Id
    var keyboardFocusSurface: Id
    var keyboardFocusParentSurface: Id
    var activeSurface: Id
    var activeClient: Id
    var activeAcceptsKeyboardFocusActivation: bool
    var pendingEdit: Edit
    var commitSerial: nat
    var lastCommittedState: Option<Signature>
    var textInputVersion: nat
    var enabled: bool
    var applyingEdit: bool
    ghost var trace: Trace

    constructor ()
      ensures State() == Initial()
    {
      textInput, commitSerial, textInputVersion, enabled, applyingEdit := false, 0, 0, false, false;
      enteredSurface, keyboardFocusSurface, keyboardFocusParentSurface := 0, 0, 0;
      activeSurface, activeClient, activeAcceptsKeyboardFocusActivation := 0, 0, false;
      pendingEdit, lastCommittedState := NO_EDIT, None;
      trace := Trace([], [], {}, [], []);
    }

    ghost function State(): Service
      reads this
    {
      Service(
        Object(textInput, textInputVersion, commitSerial, enabled),
        Focus(enteredSurface, keyboardFocusSurface, keyboardFocusParentSurface, activeAcceptsKeyboardFocusActivation),
        Active(activeSurface, activeClient), pendingEdit, lastCommittedState, applyingEdit, trace)
    }

    /** The client is told that it is active, or no longer. */
    ghost method Told(client: Id, active: bool)
      modifies this`trace
      ensures State() == if active then Activated(old(State()), client) else Deactivated(old(State()), client)
    {
      trace := trace.(activated := if active then trace.activated + {client} else trace.activated - {client});
    }

    method ResetPendingEdit()
      modifies this`pendingEdit, this`trace
      ensures State() == ResetPending(old(State()))
    {
      pendingEdit := NO_EDIT;
      trace := trace.(events := []);
    }

    method ActiveSurfaceAcceptsTextInput() returns (accepts: bool)
      ensures accepts == ActiveSurfaceAccepts(State())
    {
      if activeSurface == 0 {
        return false;
      }
      if enteredSurface == activeSurface {
        return true;
      }
      if !activeAcceptsKeyboardFocusActivation || keyboardFocusSurface == 0 {
        return false;
      }
      if keyboardFocusSurface == activeSurface {
        return true;
      }
      return keyboardFocusParentSurface != 0 && keyboardFocusSurface == keyboardFocusParentSurface;
    }

    /** The requests of a group, then commit on the object and on the surface. */
    method CommitProtocol(ghost requests: seq<Request>)
      modifies this`commitSerial, this`trace
      ensures State() == CommitProtocolState(old(State()), requests)
    {
      trace := trace.(wire := trace.wire + (requests + [Commit, SurfaceCommit(activeSurface)]));
      commitSerial := (commitSerial + 1) % TWO_32;
    }

    method CommitActive(cause: Cause, state: ClientState)
      modifies this`commitSerial, this`lastCommittedState, this`trace
      ensures State() == CommitActiveState(old(State()), cause, state)
    {
      if !textInput || activeClient == 0 || activeSurface == 0 || !enabled {
        return;
      }
      var accepts := ActiveSurfaceAcceptsTextInput();
      if !accepts {
        return;
      }
      var signature := SignatureOf(state, textInputVersion);
      if lastCommittedState == Some(signature) {
        return;
      }
      lastCommittedState := Some(signature);
      CommitProtocol(StateRequests(signature, cause));
      trace := trace.(marks := trace.marks + [Sent(signature)]);
    }

    method EnableActiveClient(cause: Cause, state: ClientState)
      modifies this`enabled, this`commitSerial, this`lastCommittedState, this`trace
      ensures State() == EnableActive(old(State()), cause, state)
    {
      if !textInput || activeClient == 0 || activeSurface == 0 {
        return;
      }
      var accepts := ActiveSurfaceAcceptsTextInput();
      if !accepts {
        return;
      }
      if !enabled {
        lastCommittedState := None;
        trace := trace.(wire := trace.wire + [Enable], marks := trace.marks + [Enabled]);
        enabled := true;
      }
      CommitActive(cause, state);
    }

    method DisableActiveClient()
      modifies this`enabled, this`commitSerial, this`trace
      ensures State() == DisableActive(old(State()))
    {
      if !textInput || !enabled {
        enabled := false;
        return;
      }
      var accepts := ActiveSurfaceAcceptsTextInput();
      if accepts {
        CommitProtocol([Disable]);
      }
      enabled := false;
    }

    method Clean()
      modifies this
      ensures State() == CleanupOn(old(State()))
    {
      if activeClient != 0 {
        Told(activeClient, false);
      }
      ForgetObject();
      enteredSurface, keyboardFocusSurface, keyboardFocusParentSurface := 0, 0, 0;
      activeSurface, activeClient, activeAcceptsKeyboardFocusActivation := 0, 0, false;
      ResetPendingEdit();
    }

    /** The object is destroyed, and what was said on it with it. */
    method ForgetObject()
      modifies this`textInput, this`commitSerial, this`textInputVersion, this`enabled, this`trace
      ensures State() == old(State()).(input := Object(false, 0, 0, false), trace := old(trace).(wire := []))
    {
      textInput := false;
      commitSerial, textInputVersion, enabled := 0, 0, false;
      trace := trace.(wire := []);
    }

    method BindTo(same: bool, created: bool, version: nat)
      modifies this
      ensures State() == BindOn(old(State()), same, created, version)
    {
      if same && textInput {
        return;
      }
      Clean();
      if !created {
        Clean();
        return;
      }
      textInput := true;
      textInputVersion := version;
    }

    method ClearFocused(client: Id)
      modifies this
      ensures State() == ClearFocusedOn(old(State()), client)
    {
      if client == 0 || client != activeClient {
        return;
      }
      DisableActiveClient();
      Told(client, false);
      activeClient, activeSurface := 0, 0;
      activeAcceptsKeyboardFocusActivation, keyboardFocusParentSurface := false, 0;
      ResetPendingEdit();
    }

    method SetFocused(surface: Id, client: Id, accepts: bool, parent: Id, state: ClientState)
      modifies this
      ensures State() == SetFocusedOn(old(State()), surface, client, accepts, parent, state)
    {
      if surface == 0 || client == 0 {
        ClearFocused(activeClient);
        return;
      }
      if !textInput {
        return;
      }
      activeAcceptsKeyboardFocusActivation := accepts;
      keyboardFocusParentSurface := parent;
      if activeClient == client && activeSurface == surface {
        if !enabled {
          EnableActiveClient(Other, state);
        } else {
          CommitActive(Other, state);
        }
      } else {
        SwitchTo(surface, client, state);
      }
    }

    method SwitchTo(surface: Id, client: Id, state: ClientState)
      modifies this
      ensures State() == SwitchOn(old(State()), surface, client, state)
    {
      DisableActiveClient();
      if activeClient != 0 {
        Told(activeClient, false);
      }
      activeSurface, activeClient := surface, client;
      Told(client, true);
      EnableActiveClient(Other, state);
    }

    method NotifyChanged(client: Id, cause: Cause, state: ClientState)
      modifies this
      ensures State() == ExecOp(old(State()), NotifyClientStateChanged(client, cause, state))
    {
      if client == 0 || client != activeClient {
        return;
      }
      CommitActive(cause, state);
    }

    method Transfer(surface: Id, source: Id, target: Id) returns (transferred: bool)
      modifies this`activeClient, this`trace
      ensures State() == TransferOn(old(State()), surface, source, target)
      ensures transferred == TransferAllowed(old(State()), surface, source, target)
    {
      if !applyingEdit || !enabled || target == 0 || source == 0 || source == target
        || source != activeClient || surface != activeSurface {
        return false;
      }
      activeClient := target;
      Told(source, false);
      Told(target, true);
      return true;
    }

    method OnKeyboardFocus(surface: Id, entered: bool, state: ClientState)
      modifies this
      ensures State() == KeyboardFocusOn(old(State()), surface, entered, state)
    {
      if entered {
        keyboardFocusSurface := surface;
      } else if keyboardFocusSurface == surface {
        keyboardFocusSurface := 0;
      }
      var accepts := ActiveSurfaceAcceptsTextInput();
      if activeClient != 0 && entered && accepts {
        EnableActiveClient(Other, state);
      }
    }

    method HandleEnter(surface: Id, state: ClientState)
      modifies this
      ensures State() == EnterOn(old(State()), surface, state)
    {
      enteredSurface := surface;
      ResetPendingEdit();
      lastCommittedState := None;
      trace := trace.(marks := trace.marks + [Entered]);
      if activeClient != 0 && activeSurface == surface {
        EnableActiveClient(Other, state);
      }
    }

    method HandleLeave(surface: Id)
      modifies this
      ensures State() == LeaveOn(old(State()), surface)
    {
      if enteredSurface != surface {
        return;
      }
      enteredSurface := 0;
      enabled := false;
      ResetPendingEdit();
    }

    method HandleImeEvent(event: ImeEvent)
      modifies this`pendingEdit, this`trace
      ensures State() == ImeOn(old(State()), event)
    {
      match event
      case PreeditString(text, cursorBegin, cursorEnd) =>
        pendingEdit := pendingEdit.(preedit := Some((text, cursorBegin, cursorEnd)));
        trace := trace.(events := trace.events + [event]);
      case CommitString(text) =>
        pendingEdit := pendingEdit.(commit := Some(text));
        trace := trace.(events := trace.events + [event]);
      case DeleteSurroundingText(before, after) =>
        pendingEdit := pendingEdit.(delete := Some((before, after)));
        trace := trace.(events := trace.events + [event]);
      case SubmitAction =>
        pendingEdit := pendingEdit.(submit := true);
        trace := trace.(events := trace.events + [event]);
    }

    /** What the client does while it applies an edit. */
    method RunScript(script: Script)
      modifies this
      ensures State() == Exec(old(State()), script)
      decreases script, 0
    {
      if script.Then? {
        Perform(script.op);
        RunScript(script.rest);
      }
    }

    method OnDone(serial: nat, applied: Script, throws: bool, state: ClientState)
      modifies this
      ensures State() == ExecOp(old(State()), HandleDone(serial, applied, throws, state))
      decreases applied, 1
    {
      var edit := pendingEdit;
      ResetPendingEdit();
      if activeClient == 0 {
        return;
      }
      var wasApplying := applyingEdit;
      applyingEdit := true;
      trace := trace.(delivered := trace.delivered + [(activeClient, edit)]);
      assert State() == DoneStart(old(State()));
      RunScript(applied);
      applyingEdit := wasApplying;
      if throws {
        return;
      }
      if serial == commitSerial {
        CommitActive(InputMethod, state);
      }
    }

    method Perform(op: Op)
      modifies this
      ensures State() == ExecOp(old(State()), op)
      decreases op
    {
      if op.HandleDone? {
        OnDone(op.serial, op.applied, op.throws, op.state);
      } else if op.SetFocusedClient? {
        SetFocused(op.surface, op.client, op.accepts, op.parent, op.state);
      } else if op.ClearFocusedClient? {
        ClearFocused(op.client);
      } else if op.NotifyClientStateChanged? {
        NotifyChanged(op.client, op.cause, op.state);
      } else if op.TransferFocusedClient? {
        var _ := Transfer(op.surface, op.source, op.target);
      } else {
        PerformEvent(op);
      }
    }

    method PerformEvent(op: Op)
      requires op.Bind? || op.Cleanup? || op.KeyboardFocus? || op.Enter? || op.Leave? || op.Ime?
      modifies this
      ensures State() == ExecOp(old(State()), op)
    {
      if op.Bind? {
        BindTo(op.same, op.created, op.version);
      } else if op.Cleanup? {
        Clean();
      } else if op.KeyboardFocus? {
        OnKeyboardFocus(op.surface, op.entered, op.state);
      } else if op.Enter? {
        HandleEnter(op.surface, op.state);
      } else if op.Leave? {
        HandleLeave(op.surface);
      } else {
        HandleImeEvent(op.event);
      }
    }
  }
}
