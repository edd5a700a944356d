/** The text-input-unstable-v3 client as functions on its state. Ids are pointers, 0 is
    null. What a client does while it applies an edit is a script of further calls. */
module TextInputModel {
  import opened Options

  type Id = nat

  datatype Rect = Rect(x: int, y: int, width: int, height: int)

  datatype ContentHint = ContentHint(hidden: bool, sensitive: bool, preeditShown: bool)

  datatype Text = Text(surrounding: string, cursor: int, anchor: int)

  /** What a client answers when it is asked for its state. */
  datatype ClientState = ClientState(
    text: Text, sendSurrounding: bool, hint: ContentHint, password: bool, rect: Rect)

  /** The protocol state of one commit. */
  datatype Signature = Signature(text: Option<Text>, hint: ContentHint, password: bool, rect: Rect)

  datatype Cause = InputMethod | Other

  datatype Request =
    | Enable
    | Disable
    | SetSurroundingText(text: Text)
    | SetContentType(hint: ContentHint, password: bool)
    | SetTextChangeCause(cause: Cause)
    | SetCursorRectangle(rect: Rect)
    | Commit
    | SurfaceCommit(surface: Id)

  datatype ImeEvent =
    | PreeditString(text: string, cursorBegin: int, cursorEnd: int)
    | CommitString(text: string)
    | DeleteSurroundingText(beforeLength: nat, afterLength: nat)
    | SubmitAction

  datatype Edit = Edit(
    preedit: Option<(string, int, int)>, commit: Option<string>, delete: Option<(nat, nat)>, submit: bool)

  const NO_EDIT := Edit(None, None, None, false)

  datatype Focus = Focus(entered: Id, keyboard: Id, keyboardParent: Id, accepts: bool)

  datatype Active = Active(surface: Id, client: Id)

  datatype Object = Object(bound: bool, version: nat, serial: nat, enabled: bool)

  /** A state commit, or an enable or enter, which make the next one unconditional. */
  datatype Mark = Sent(signature: Signature) | Enabled | Entered

  /** What the outside has seen; not part of the service. */
  datatype Trace = Trace(
    wire: seq<Request>,        // requests on the current text-input object
    marks: seq<Mark>,
    activated: set<Id>,        // clients told that they are active
    events: seq<ImeEvent>,     // since the last reset of the pending edit
    delivered: seq<(Id, Edit)>)

  datatype Service = Service(
    input: Object, focus: Focus, active: Active, pending: Edit,
    last: Option<Signature>, applying: bool, trace: Trace)

  datatype Op =
    | Bind(same: bool, created: bool, version: nat)
    | Cleanup
    | SetFocusedClient(surface: Id, client: Id, accepts: bool, parent: Id, state: ClientState)
    | ClearFocusedClient(client: Id)
    | NotifyClientStateChanged(client: Id, cause: Cause, state: ClientState)
    | TransferFocusedClient(surface: Id, source: Id, target: Id)
    | KeyboardFocus(surface: Id, entered: bool, state: ClientState)
    | Enter(surface: Id, state: ClientState)
    | Leave(surface: Id)
    | Ime(event: ImeEvent)
    | HandleDone(serial: nat, applied: Script, throws: bool, state: ClientState)

  datatype Script = Stop | Then(op: Op, rest: Script)

  const MAX_SURROUNDING_TEXT_BYTES := 4000
  const TWO_32 := 0x1_0000_0000

  // ----- parts -----

  function SignatureOf(state: ClientState, version: nat): Signature {
    Signature(
      if state.sendSurrounding && |state.text.surrounding| <= MAX_SURROUNDING_TEXT_BYTES
      then Some(state.text) else None,
      state.hint.(preeditShown := state.hint.preeditShown && version >= 2),
      state.password,
      state.rect.(width := if state.rect.width < 1 then 1 else state.rect.width,
                  height := if state.rect.height < 1 then 1 else state.rect.height))
  }

  /** All the state of a signature. */
  function StateRequests(signature: Signature, cause: Cause): seq<Request> {
    (if signature.text.Some? then [SetSurroundingText(signature.text.value)] else [])
    + [SetContentType(signature.hint, signature.password), SetTextChangeCause(cause),
       SetCursorRectangle(signature.rect)]
  }

  function AddEvent(edit: Edit, event: ImeEvent): Edit {
    match event
    case PreeditString(text, b, e) => edit.(preedit := Some((text, b, e)))
    case CommitString(text) => edit.(commit := Some(text))
    case DeleteSurroundingText(before, after) => edit.(delete := Some((before, after)))
    case SubmitAction => edit.(submit := true)
  }

  function Fold(events: seq<ImeEvent>): Edit {
    if events == [] then NO_EDIT else AddEvent(Fold(events[..|events| - 1]), events[|events| - 1])
  }

  predicate ActiveSurfaceAccepts(s: Service) {
    && s.active.surface != 0
    && (s.focus.entered == s.active.surface
        || (s.focus.accepts && s.focus.keyboard != 0
            && (s.focus.keyboard == s.active.surface
                || (s.focus.keyboardParent != 0 && s.focus.keyboard == s.focus.keyboardParent))))
  }

  function Send(s: Service, requests: seq<Request>): Service {
    s.(trace := s.trace.(wire := s.trace.wire + requests))
  }

  function MarkWith(s: Service, mark: Mark): Service {
    s.(trace := s.trace.(marks := s.trace.marks + [mark]))
  }

  /** commitProtocolState and the surface commit that follows it everywhere. */
  function CommitProtocolState(s: Service, before: seq<Request>): Service {
    Send(s.(input := s.input.(serial := (s.input.serial + 1) % TWO_32)),
         before + [Commit, SurfaceCommit(s.active.surface)])
  }

  function CommitActiveState(s: Service, cause: Cause, state: ClientState): Service {
    if !s.input.bound || s.active.client == 0 || !s.input.enabled || !ActiveSurfaceAccepts(s) then s
    else
      var signature := SignatureOf(state, s.input.version);
      if s.last == Some(signature) then s
      else MarkWith(CommitProtocolState(s.(last := Some(signature)), StateRequests(signature, cause)), Sent(signature))
  }

  function EnableActive(s: Service, cause: Cause, state: ClientState): Service {
    if !s.input.bound || s.active.client == 0 || !ActiveSurfaceAccepts(s) then s
    else if s.input.enabled then CommitActiveState(s, cause, state)
    else
      var s1 := MarkWith(Send(s.(last := None), [Enable]), Enabled);
      CommitActiveState(s1.(input := s1.input.(enabled := true)), cause, state)
  }

  function Disabled(s: Service): Service { s.(input := s.input.(enabled := false)) }

  function DisableActive(s: Service): Service {
    if !s.input.bound || !s.input.enabled || !ActiveSurfaceAccepts(s) then Disabled(s)
    else Disabled(CommitProtocolState(s, [Disable]))
  }

  function Activated(s: Service, client: Id): Service {
    s.(trace := s.trace.(activated := s.trace.activated + {client}))
  }

  function Deactivated(s: Service, client: Id): Service {
    s.(trace := s.trace.(activated := s.trace.activated - {client}))
  }

  function ResetPending(s: Service): Service {
    s.(pending := NO_EDIT, trace := s.trace.(events := []))
  }

  // ----- operations -----

  /** The current object is gone, and with it everything said on it. */
  function CleanupOn(s: Service): Service {
    var s1 := if s.active.client != 0 then Deactivated(s, s.active.client) else s;
    ResetPending(s1.(input := Object(false, 0, 0, false), focus := Focus(0, 0, 0, false), active := Active(0, 0),
                     trace := s1.trace.(wire := [])))
  }

  function BindOn(s: Service, same: bool, created: bool, version: nat): Service {
    if same && s.input.bound then s
    else
      var s1 := CleanupOn(s);
      if created then s1.(input := Object(true, version, 0, false)) else CleanupOn(s1)
  }

  function ClearFocusedOn(s: Service, client: Id): Service {
    if client == 0 || client != s.active.client then s
    else
      var s1 := Deactivated(DisableActive(s), client);
      ResetPending(s1.(active := Active(0, 0), focus := s1.focus.(accepts := false, keyboardParent := 0)))
  }

  function SwitchOn(s: Service, surface: Id, client: Id, state: ClientState): Service {
    var s1 := DisableActive(s);
    var s2 := if s1.active.client != 0 then Deactivated(s1, s1.active.client) else s1;
    EnableActive(Activated(s2.(active := Active(surface, client)), client), Other, state)
  }

  function SetFocusedOn(s: Service, surface: Id, client: Id, accepts: bool, parent: Id, state: ClientState): Service {
    if surface == 0 || client == 0 then ClearFocusedOn(s, s.active.client)
    else if !s.input.bound then s
    else
      var s1 := s.(focus := s.focus.(accepts := accepts, keyboardParent := parent));
      if s1.active == Active(surface, client) then
        if !s1.input.enabled then EnableActive(s1, Other, state) else CommitActiveState(s1, Other, state)
      else SwitchOn(s1, surface, client, state)
  }

  predicate TransferAllowed(s: Service, surface: Id, source: Id, target: Id) {
    && s.applying && s.input.enabled && target != 0 && source != 0 && source != target
    && source == s.active.client && surface == s.active.surface
  }

  function TransferOn(s: Service, surface: Id, source: Id, target: Id): Service {
    if !TransferAllowed(s, surface, source, target) then s
    else Activated(Deactivated(s.(active := s.active.(client := target)), source), target)
  }

  function KeyboardFocusOn(s: Service, surface: Id, entered: bool, state: ClientState): Service {
    var s1 :=
      if entered then s.(focus := s.focus.(keyboard := surface))
      else if s.focus.keyboard == surface then s.(focus := s.focus.(keyboard := 0))
      else s;
    if s1.active.client != 0 && entered && ActiveSurfaceAccepts(s1) then EnableActive(s1, Other, state) else s1
  }

  function EnterOn(s: Service, surface: Id, state: ClientState): Service {
    var s1 := MarkWith(ResetPending(s.(focus := s.focus.(entered := surface), last := None)), Entered);
    if s1.active.client != 0 && s1.active.surface == surface then EnableActive(s1, Other, state) else s1
  }

  function LeaveOn(s: Service, surface: Id): Service {
    if s.focus.entered != surface then s
    else ResetPending(Disabled(s.(focus := s.focus.(entered := 0))))
  }

  function ImeOn(s: Service, event: ImeEvent): Service {
    s.(pending := AddEvent(s.pending, event), trace := s.trace.(events := s.trace.events + [event]))
  }

  /** handleDone up to the call of textInputApplyEdit. */
  function DoneStart(s: Service): Service {
    var s1 := ResetPending(s);
    if s.active.client == 0 then s1
    else s1.(applying := true, trace := s1.trace.(delivered := s1.trace.delivered + [(s.active.client, s.pending)]))
  }

  function ExecOp(s: Service, op: Op): Service
    decreases op
  {
    match op
    case Bind(same, created, version) => BindOn(s, same, created, version)
    case Cleanup => CleanupOn(s)
    case SetFocusedClient(surface, client, accepts, parent, state) =>
      SetFocusedOn(s, surface, client, accepts, parent, state)
    case ClearFocusedClient(client) => ClearFocusedOn(s, client)
    case NotifyClientStateChanged(client, cause, state) =>
      if client == 0 || client != s.active.client then s else CommitActiveState(s, cause, state)
    case TransferFocusedClient(surface, source, target) => TransferOn(s, surface, source, target)
    case KeyboardFocus(surface, entered, state) => KeyboardFocusOn(s, surface, entered, state)
    case Enter(surface, state) => EnterOn(s, surface, state)
    case Leave(surface) => LeaveOn(s, surface)
    case Ime(event) => ImeOn(s, event)
    case HandleDone(serial, applied, throws, state) =>
      if s.active.client == 0 then DoneStart(s)
      else
        var s1 := Exec(DoneStart(s), applied).(applying := s.applying);
        if throws || serial != s1.input.serial then s1 else CommitActiveState(s1, InputMethod, state)
  }

  function Exec(s: Service, script: Script): Service
    decreases script
  {
    match script
    case Stop => s
    case Then(op, rest) => Exec(ExecOp(s, op), rest)
  }

  function Initial(): Service {
    Service(Object(false, 0, 0, false), Focus(0, 0, 0, false), Active(0, 0), NO_EDIT, None, false,
            Trace([], [], {}, [], []))
  }

  // ----- what every run keeps -----

  function Commits(wire: seq<Request>): nat {
    if wire == [] then 0 else Commits(wire[..|wire| - 1]) + (if wire[|wire| - 1].Commit? then 1 else 0)
  }

  lemma {:induction false} CommitsConcat(a: seq<Request>, b: seq<Request>)
    ensures Commits(a + b) == Commits(a) + Commits(b)
  {
    if b == [] {
      assert a + b == a;
    } else {
      assert (a + b)[..|a + b| - 1] == a + b[..|b| - 1];
      CommitsConcat(a, b[..|b| - 1]);
    }
  }

  /** The enable at position k is followed by all the state of one signature and a commit. */
  ghost predicate EnableComplete(wire: seq<Request>, k: nat)
    requires k < |wire|
  {
    exists signature: Signature, cause: Cause, surface: Id ::
      [Enable] + StateRequests(signature, cause) + [Commit, SurfaceCommit(surface)] <= wire[k..]
  }

  ghost predicate EnablesComplete(wire: seq<Request>) {
    forall k :: 0 <= k < |wire| && wire[k].Enable? ==> EnableComplete(wire, k)
  }

  /** Consecutive state commits differ. */
  predicate NoRepeats(marks: seq<Mark>) {
    forall k :: 0 < k < |marks| && marks[k].Sent? ==> marks[k] != marks[k - 1]
  }

  predicate LastIsMarked(s: Service) {
    match s.last
    case Some(signature) => s.trace.marks != [] && s.trace.marks[|s.trace.marks| - 1] == Sent(signature)
    case None => s.trace.marks == [] || !s.trace.marks[|s.trace.marks| - 1].Sent?
  }

  ghost predicate WireOk(s: Service) {
    && s.input.serial == Commits(s.trace.wire) % TWO_32
    && EnablesComplete(s.trace.wire)
    && (!s.input.bound ==> s.trace.wire == [])
  }

  predicate MarksOk(s: Service) { NoRepeats(s.trace.marks) && LastIsMarked(s) }

  predicate ClientsOk(s: Service) {
    && s.trace.activated == (if s.active.client == 0 then {} else {s.active.client})
    && (s.active.client != 0 <==> s.active.surface != 0)
    && (s.active.client != 0 ==> s.input.bound)
  }

  predicate EditOk(s: Service) { s.pending == Fold(s.trace.events) }

  ghost predicate Invariant(s: Service) { WireOk(s) && MarksOk(s) && ClientsOk(s) && EditOk(s) }

  // ----- each part keeps the invariant -----

  /** A group of requests that says one thing: a disable, or state, or an enable with state, and a commit. */
  lemma GroupOk(signature: Signature, cause: Cause, surface: Id)
    ensures var tail := [Commit, SurfaceCommit(surface)];
      && EnablesComplete([Disable] + tail) && Commits([Disable] + tail) == 1
      && EnablesComplete(StateRequests(signature, cause) + tail) && Commits(StateRequests(signature, cause) + tail) == 1
      && EnablesComplete([Enable] + StateRequests(signature, cause) + tail)
      && Commits([Enable] + StateRequests(signature, cause) + tail) == 1
  {
    var tail, state := [Commit, SurfaceCommit(surface)], StateRequests(signature, cause);
    assert tail[..1] == [Commit] && tail[..1][..0] == [];
    assert Commits([Commit]) == 1 && Commits(tail) == 1;
    NoCommits([Disable]);
    NoCommits(state);
    NoCommits([Enable] + state);
    CommitsConcat([Disable], tail);
    CommitsConcat(state, tail);
    CommitsConcat([Enable] + state, tail);
    var group := [Enable] + state + tail;
    assert group[0..] == group && EnableComplete(group, 0);
  }

  lemma {:induction false} NoCommits(wire: seq<Request>)
    requires forall k :: 0 <= k < |wire| ==> !wire[k].Commit?
    ensures Commits(wire) == 0
  {
    if wire != [] {
      NoCommits(wire[..|wire| - 1]);
    }
  }

  /** Enables that are complete stay so when two wires are joined. */
  lemma EnablesConcat(a: seq<Request>, b: seq<Request>)
    requires EnablesComplete(a) && EnablesComplete(b)
    ensures EnablesComplete(a + b)
  {
    forall k | 0 <= k < |a + b| && (a + b)[k].Enable? ensures EnableComplete(a + b, k) {
      if k < |a| {
        assert (a + b)[k..] == a[k..] + b;
        assert EnableComplete(a, k);
      } else {
        assert (a + b)[k..] == b[k - |a|..];
        assert EnableComplete(b, k - |a|);
      }
    }
  }

  lemma SendOk(s: Service, group: seq<Request>)
    requires WireOk(s) && s.input.bound && EnablesComplete(group) && Commits(group) == 1
    ensures WireOk(Send(s.(input := s.input.(serial := (s.input.serial + 1) % TWO_32)), group))
  {
    SerialNext(s.trace.wire, group, s.input.serial);
    EnablesConcat(s.trace.wire, group);
  }

  lemma SerialNext(wire: seq<Request>, group: seq<Request>, serial: nat)
    requires serial == Commits(wire) % TWO_32 && Commits(group) == 1
    ensures (serial + 1) % TWO_32 == Commits(wire + group) % TWO_32
  {
    CommitsConcat(wire, group);
  }

  lemma DisableKeeps(s: Service)
    requires Invariant(s)
    ensures Invariant(DisableActive(s)) && DisableActive(s).active == s.active
  {
    if s.input.bound && s.input.enabled && ActiveSurfaceAccepts(s) {
      GroupOk(Signature(None, ContentHint(false, false, false), false, Rect(0, 0, 1, 1)), Other, s.active.surface);
      SendOk(s, [Disable] + [Commit, SurfaceCommit(s.active.surface)]);
    }
  }

  lemma CommitKeeps(s: Service, cause: Cause, state: ClientState)
    requires Invariant(s)
    ensures Invariant(CommitActiveState(s, cause, state))
  {
    var signature := SignatureOf(state, s.input.version);
    GroupOk(signature, cause, s.active.surface);
    if s.input.bound {
      SendOk(s.(last := Some(signature)), StateRequests(signature, cause) + [Commit, SurfaceCommit(s.active.surface)]);
    }
  }

  /** Enabling is one group: the enable, all the state and the commit. */
  lemma EnableIsOneGroup(s: Service, cause: Cause, state: ClientState)
    requires s.input.bound && s.active.client != 0 && ActiveSurfaceAccepts(s) && !s.input.enabled
    ensures var r := EnableActive(s, cause, state); var signature := SignatureOf(state, s.input.version);
      && r.trace.wire == s.trace.wire
           + ([Enable] + StateRequests(signature, cause) + [Commit, SurfaceCommit(s.active.surface)])
      && r.input == Object(true, s.input.version, (s.input.serial + 1) % TWO_32, true)
      && r.trace.marks == s.trace.marks + [Enabled] + [Sent(signature)] && r.last == Some(signature)
      && r.active == s.active && r.pending == s.pending
      && r.trace.activated == s.trace.activated && r.trace.events == s.trace.events
  {
    var signature := SignatureOf(state, s.input.version);
    var tail := StateRequests(signature, cause) + [Commit, SurfaceCommit(s.active.surface)];
    assert s.trace.wire + [Enable] + tail
      == s.trace.wire + ([Enable] + StateRequests(signature, cause) + [Commit, SurfaceCommit(s.active.surface)]);
  }

  lemma EnableKeeps(s: Service, cause: Cause, state: ClientState)
    requires Invariant(s)
    ensures Invariant(EnableActive(s, cause, state))
  {
    if s.input.bound && s.active.client != 0 && ActiveSurfaceAccepts(s) {
      if s.input.enabled {
        CommitKeeps(s, cause, state);
      } else {
        var signature := SignatureOf(state, s.input.version);
        EnableIsOneGroup(s, cause, state);
        GroupOk(signature, cause, s.active.surface);
        SendOk(s, [Enable] + StateRequests(signature, cause) + [Commit, SurfaceCommit(s.active.surface)]);
      }
    }
  }

  lemma ClearKeeps(s: Service, client: Id)
    requires Invariant(s)
    ensures Invariant(ClearFocusedOn(s, client))
  {
    DisableKeeps(s);
  }

  lemma CleanupKeeps(s: Service)
    requires Invariant(s)
    ensures Invariant(CleanupOn(s)) && !CleanupOn(s).input.bound
  {
  }

  lemma SetFocusedKeeps(s: Service, surface: Id, client: Id, accepts: bool, parent: Id, state: ClientState)
    requires Invariant(s)
    ensures Invariant(SetFocusedOn(s, surface, client, accepts, parent, state))
  {
    if surface == 0 || client == 0 {
      ClearKeeps(s, s.active.client);
    } else if s.input.bound {
      var s1 := s.(focus := s.focus.(accepts := accepts, keyboardParent := parent));
      if s1.active == Active(surface, client) {
        EnableKeeps(s1, Other, state);
        CommitKeeps(s1, Other, state);
      } else {
        DisableKeeps(s1);
        var s2 := DisableActive(s1);
        var s3 := if s2.active.client != 0 then Deactivated(s2, s2.active.client) else s2;
        var s4 := Activated(s3.(active := Active(surface, client)), client);
        assert s4.trace.activated == {client};
        EnableKeeps(s4, Other, state);
      }
    }
  }

  lemma KeyboardFocusKeeps(s: Service, surface: Id, entered: bool, state: ClientState)
    requires Invariant(s)
    ensures Invariant(KeyboardFocusOn(s, surface, entered, state))
  {
    if entered {
      EnableKeeps(s.(focus := s.focus.(keyboard := surface)), Other, state);
    }
  }

  lemma EnterKeeps(s: Service, surface: Id, state: ClientState)
    requires Invariant(s)
    ensures Invariant(EnterOn(s, surface, state))
  {
    EnableKeeps(MarkWith(ResetPending(s.(focus := s.focus.(entered := surface), last := None)), Entered), Other, state);
  }

  lemma DoneKeeps(s: Service, serial: nat, applied: Script, throws: bool, state: ClientState)
    requires Invariant(s)
    ensures Invariant(ExecOp(s, HandleDone(serial, applied, throws, state)))
    decreases applied, 1
  {
    if s.active.client != 0 {
      ExecKeeps(DoneStart(s), applied);
      CommitKeeps(Exec(DoneStart(s), applied).(applying := s.applying), InputMethod, state);
    }
  }

  lemma BindKeeps(s: Service, same: bool, created: bool, version: nat)
    requires Invariant(s)
    ensures Invariant(BindOn(s, same, created, version))
  {
    CleanupKeeps(s);
    CleanupKeeps(CleanupOn(s));
  }

  lemma TransferKeeps(s: Service, surface: Id, source: Id, target: Id)
    requires Invariant(s)
    ensures Invariant(TransferOn(s, surface, source, target))
  {
  }

  lemma LeaveKeeps(s: Service, surface: Id)
    requires Invariant(s)
    ensures Invariant(LeaveOn(s, surface))
  {
  }

  lemma EventKeeps(s: Service, event: ImeEvent)
    requires Invariant(s)
    ensures Invariant(ImeOn(s, event))
  {
    assert (s.trace.events + [event])[..|s.trace.events|] == s.trace.events;
  }

  /** Every operation, with everything the client does inside it, keeps the invariant. */
  lemma OpKeeps(s: Service, op: Op)
    requires Invariant(s)
    ensures Invariant(ExecOp(s, op))
    decreases op
  {
    match op
    case Bind(same, created, version) => BindKeeps(s, same, created, version);
    case Cleanup => CleanupKeeps(s);
    case SetFocusedClient(surface, client, accepts, parent, state) =>
      SetFocusedKeeps(s, surface, client, accepts, parent, state);
    case ClearFocusedClient(client) => ClearKeeps(s, client);
    case NotifyClientStateChanged(client, cause, state) => CommitKeeps(s, cause, state);
    case TransferFocusedClient(surface, source, target) => TransferKeeps(s, surface, source, target);
    case KeyboardFocus(surface, entered, state) => KeyboardFocusKeeps(s, surface, entered, state);
    case Enter(surface, state) => EnterKeeps(s, surface, state);
    case Leave(surface) => LeaveKeeps(s, surface);
    case Ime(event) => EventKeeps(s, event);
    case HandleDone(serial, applied, throws, state) => DoneKeeps(s, serial, applied, throws, state);
  }

  lemma {:induction false} ExecKeeps(s: Service, script: Script)
    requires Invariant(s)
    ensures Invariant(Exec(s, script))
    decreases script, 0
  {
    if script.Then? {
      OpKeeps(s, script.op);
      ExecKeeps(ExecOp(s, script.op), script.rest);
    }
  }

  // ----- main results -----

  /** In every run: the serial is the number of commits sent on the current object, up to
      32 bits; every enable is followed by all the state and a commit. */
  lemma SerialCountsCommits(run: Script)
    ensures var s := Exec(Initial(), run);
      s.input.serial == Commits(s.trace.wire) % TWO_32 && EnablesComplete(s.trace.wire)
  {
    ExecKeeps(Initial(), run);
  }

  /** Two consecutive state commits with no enable or enter between them differ. */
  lemma StateCommitsDiffer(run: Script)
    ensures NoRepeats(Exec(Initial(), run).trace.marks)
  {
    ExecKeeps(Initial(), run);
  }

  /** Exactly the stored active client is activated, across transfers too. */
  lemma OnlyActiveClientActivated(run: Script)
    ensures var s := Exec(Initial(), run);
      s.trace.activated == if s.active.client == 0 then {} else {s.active.client}
  {
    ExecKeeps(Initial(), run);
  }

  /** The edit handed over at done is the fold of the events since the last reset, and it
      goes to the client that is active when done arrives, and to no other. */
  lemma DoneDeliversFold(before: Script, serial: nat, applied: Script, throws: bool, state: ClientState)
    ensures var s := Exec(Initial(), before);
      var start := DoneStart(s);
      && start.pending == NO_EDIT && start.trace.events == []
      && start.trace.delivered ==
        s.trace.delivered + (if s.active.client == 0 then [] else [(s.active.client, Fold(s.trace.events))])
      && start.trace.delivered <= ExecOp(s, HandleDone(serial, applied, throws, state)).trace.delivered
  {
    var s := Exec(Initial(), before);
    ExecKeeps(Initial(), before);
    DeliveredGrows(DoneStart(s), applied);
  }

  /** Between two calls of the service no edit is being applied, however the calls before
      nested and failed: a transfer is refused there. */
  lemma {:induction false} TransferOnlyInsideEdit(run: Script, surface: Id, source: Id, target: Id)
    ensures var s := Exec(Initial(), run);
      ExecOp(s, TransferFocusedClient(surface, source, target)) == s
  {
    ApplyingRestored(Initial(), run);
  }

  lemma {:induction false} ApplyingRestored(s: Service, script: Script)
    ensures Exec(s, script).applying == s.applying
    decreases script
  {
    if script.Then? {
      OpRestoresApplying(s, script.op);
      ApplyingRestored(ExecOp(s, script.op), script.rest);
    }
  }

  lemma OpRestoresApplying(s: Service, op: Op)
    ensures ExecOp(s, op).applying == s.applying
  {
    if op.HandleDone? {
    } else if op.SetFocusedClient? {
    } else {
    }
  }

  lemma OpDelivers(s: Service, op: Op)
    ensures s.trace.delivered <= ExecOp(s, op).trace.delivered
    decreases op
  {
    match op
    case HandleDone(serial, applied, throws, state) =>
      if s.active.client != 0 {
        DeliveredGrows(DoneStart(s), applied);
      }
    case SetFocusedClient(surface, client, accepts, parent, state) =>
      SetFocusedDelivers(s, surface, client, accepts, parent, state);
    case _ =>
  }

  lemma SetFocusedDelivers(s: Service, surface: Id, client: Id, accepts: bool, parent: Id, state: ClientState)
    ensures SetFocusedOn(s, surface, client, accepts, parent, state).trace.delivered == s.trace.delivered
  {
  }

  lemma {:induction false} DeliveredGrows(s: Service, script: Script)
    ensures s.trace.delivered <= Exec(s, script).trace.delivered
    decreases script
  {
    if script.Then? {
      OpDelivers(s, script.op);
      DeliveredGrows(ExecOp(s, script.op), script.rest);
    }
  }
}
