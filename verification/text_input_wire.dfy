/** The marks of the text-input service against the requests on the wire: the enables and
    state commits that the wire tells of are the last marks, in order, so that what is
    proved of the marks holds of the wire. */
module TextInputWire {
  import opened Options
  import opened TextInputModel

  // ----- reading the wire -----

  /** The state that the commit at position k of the wire sends, if it sends state. */
  function StateSent(wire: seq<Request>, k: nat): Option<Signature>
    requires k < |wire|
  {
    if wire[k] != Commit || k < 3 || !wire[k - 1].SetCursorRectangle? || !wire[k - 3].SetContentType? then None
    else
      var text := if k >= 4 && wire[k - 4].SetSurroundingText? then Some(wire[k - 4].text) else None;
      Some(Signature(text, wire[k - 3].hint, wire[k - 3].password, wire[k - 1].rect))
  }

  /** What the request at position k tells: an enable, a state commit, or nothing. */
  function ToldAt(wire: seq<Request>, k: nat): seq<Mark>
    requires k < |wire|
  {
    if wire[k] == Enable then [Enabled]
    else if StateSent(wire, k).Some? then [Sent(StateSent(wire, k).value)]
    else []
  }

  /** The enables and state commits among the first n requests, in order. */
  function ToldUpTo(wire: seq<Request>, n: nat): seq<Mark>
    requires n <= |wire|
  {
    if n == 0 then [] else ToldUpTo(wire, n - 1) + ToldAt(wire, n - 1)
  }

  function Told(wire: seq<Request>): seq<Mark> { ToldUpTo(wire, |wire|) }

  /** What is told does not change with what follows. */
  lemma {:induction false} ToldBefore(wire: seq<Request>, more: seq<Request>, n: nat)
    requires n <= |wire| && wire <= more
    ensures ToldUpTo(more, n) == ToldUpTo(wire, n)
  {
    if n > 0 {
      ToldBefore(wire, more, n - 1);
      assert forall k :: 0 <= k < n ==> more[k] == wire[k];
    }
  }

  lemma {:induction false} ToldSilent(wire: seq<Request>, m: nat, n: nat)
    requires m <= n <= |wire| && forall k :: m <= k < n ==> ToldAt(wire, k) == []
    ensures ToldUpTo(wire, n) == ToldUpTo(wire, m)
  {
    if m < n {
      ToldSilent(wire, m, n - 1);
    }
  }

  /** The requests of a state group, by position. */
  lemma StateAt(more: seq<Request>, m: nat, signature: Signature, cause: Cause, k: nat)
    requires m + |StateRequests(signature, cause)| <= |more|
    requires more[m..m + |StateRequests(signature, cause)|] == StateRequests(signature, cause)
    requires k < |StateRequests(signature, cause)|
    ensures more[m + k] == StateRequests(signature, cause)[k]
  {
    assert more[m + k] == more[m..m + |StateRequests(signature, cause)|][k];
  }

  /** None of them tells anything. */
  lemma StateIsSilent(more: seq<Request>, m: nat, signature: Signature, cause: Cause, k: nat)
    requires m + |StateRequests(signature, cause)| <= |more|
    requires more[m..m + |StateRequests(signature, cause)|] == StateRequests(signature, cause)
    requires m <= k < m + |StateRequests(signature, cause)|
    ensures ToldAt(more, k) == []
  {
    StateAt(more, m, signature, cause, k - m);
    var state := StateRequests(signature, cause)[k - m];
    assert state != Enable && state != Commit;
  }

  /** The commit after them sends the state, also where no surrounding text is set. */
  lemma CommitSendsState(more: seq<Request>, m: nat, signature: Signature, cause: Cause)
    requires m + |StateRequests(signature, cause)| < |more|
    requires more[m..m + |StateRequests(signature, cause)|] == StateRequests(signature, cause)
    requires m == 0 || !more[m - 1].SetSurroundingText?
    requires more[m + |StateRequests(signature, cause)|] == Commit
    ensures StateSent(more, m + |StateRequests(signature, cause)|) == Some(signature)
  {
    var n := |StateRequests(signature, cause)|;
    StateAt(more, m, signature, cause, n - 1);
    StateAt(more, m, signature, cause, n - 3);
    if signature.text.Some? {
      StateAt(more, m, signature, cause, 0);
    }
  }

  /** The position of the commit after a group of state requests, and what it sends. */
  lemma StateIsSent(more: seq<Request>, m: nat, signature: Signature, cause: Cause)
    requires m + |StateRequests(signature, cause)| < |more|
    requires more[m..m + |StateRequests(signature, cause)|] == StateRequests(signature, cause)
    requires m == 0 || !more[m - 1].SetSurroundingText?
    requires more[m + |StateRequests(signature, cause)|] == Commit
    ensures var c := m + |StateRequests(signature, cause)|;
      ToldAt(more, c) == [Sent(signature)] && forall k :: m <= k < c ==> ToldAt(more, k) == []
  {
    var c := m + |StateRequests(signature, cause)|;
    CommitSendsState(more, m, signature, cause);
    forall k | m <= k < c ensures ToldAt(more, k) == [] {
      StateIsSilent(more, m, signature, cause, k);
    }
  }

  // ----- the marks -----

  /** The first n marks without the enters, of which the wire knows nothing. */
  function WithoutEntersUpTo(marks: seq<Mark>, n: nat): seq<Mark>
    requires n <= |marks|
  {
    if n == 0 then [] else WithoutEntersUpTo(marks, n - 1) + if marks[n - 1] == Entered then [] else [marks[n - 1]]
  }

  function WithoutEnters(marks: seq<Mark>): seq<Mark> { WithoutEntersUpTo(marks, |marks|) }

  lemma {:induction false} WithoutEntersBefore(marks: seq<Mark>, more: seq<Mark>, n: nat)
    requires n <= |marks| && marks <= more
    ensures WithoutEntersUpTo(more, n) == WithoutEntersUpTo(marks, n)
  {
    if n > 0 {
      WithoutEntersBefore(marks, more, n - 1);
    }
  }

  lemma WithoutEntersOne(marks: seq<Mark>, m: Mark)
    ensures WithoutEnters(marks + [m]) == WithoutEnters(marks) + if m == Entered then [] else [m]
  {
    WithoutEntersBefore(marks, marks + [m], |marks|);
  }

  predicate IsSuffix(a: seq<Mark>, b: seq<Mark>) {
    |a| <= |b| && forall k :: 0 <= k < |a| ==> a[k] == b[|b| - |a| + k]
  }

  lemma SuffixMore(a: seq<Mark>, b: seq<Mark>, m: Mark)
    requires IsSuffix(a, b)
    ensures IsSuffix(a + [m], b + [m])
  {
  }

  /** Between calls the wire ends with a surface commit. */
  predicate Tidy(wire: seq<Request>) { wire == [] || wire[|wire| - 1].SurfaceCommit? }

  /** The enables and state commits on the wire are the last marks, in order. */
  predicate Tells(t: Trace) { Tidy(t.wire) && IsSuffix(Told(t.wire), WithoutEnters(t.marks)) }

  // ----- each part keeps them in step -----

  lemma DisableTells(t: Trace, surface: Id)
    requires Tells(t)
    ensures Tells(t.(wire := t.wire + ([Disable] + [Commit, SurfaceCommit(surface)])))
  {
    var more, n := t.wire + ([Disable] + [Commit, SurfaceCommit(surface)]), |t.wire|;
    assert more[n] == Disable && more[n + 1] == Commit && more[n + 2] == SurfaceCommit(surface);
    assert ToldAt(more, n) == [] && ToldAt(more, n + 1) == [] && ToldAt(more, n + 2) == [];
    ToldBefore(t.wire, more, n);
    ToldSilent(more, n, n + 3);
    assert Told(more) == Told(t.wire);
  }

  lemma GroupPositions(wire: seq<Request>, state: seq<Request>, surface: Id)
    ensures var more, n := wire + (state + [Commit, SurfaceCommit(surface)]), |wire|;
      && |more| == n + |state| + 2 && wire <= more && more[n..n + |state|] == state
      && more[n + |state|] == Commit && more[n + |state| + 1] == SurfaceCommit(surface)
      && (n > 0 ==> more[n - 1] == wire[n - 1])
  {
  }

  lemma ToldLastTwo(more: seq<Request>, signature: Signature)
    requires |more| >= 2 && more[|more| - 1].SurfaceCommit? && ToldAt(more, |more| - 2) == [Sent(signature)]
    ensures Told(more) == ToldUpTo(more, |more| - 2) + [Sent(signature)]
  {
    assert ToldUpTo(more, |more| - 1) == ToldUpTo(more, |more| - 2) + [Sent(signature)];
    assert ToldAt(more, |more| - 1) == [];
  }

  /** The wire with a group of state requests and its commits. */
  lemma ToldState(wire: seq<Request>, signature: Signature, cause: Cause, surface: Id)
    requires wire == [] || !wire[|wire| - 1].SetSurroundingText?
    ensures var more := wire + (StateRequests(signature, cause) + [Commit, SurfaceCommit(surface)]);
      Told(more) == Told(wire) + [Sent(signature)] && Tidy(more)
  {
    var state := StateRequests(signature, cause);
    var more, n := wire + (state + [Commit, SurfaceCommit(surface)]), |wire|;
    GroupPositions(wire, state, surface);
    ToldBefore(wire, more, n);
    StateIsSent(more, n, signature, cause);
    ToldSilent(more, n, n + |state|);
    ToldLastTwo(more, signature);
  }

  lemma StateTells(t: Trace, signature: Signature, cause: Cause, surface: Id)
    requires IsSuffix(Told(t.wire), WithoutEnters(t.marks))
    requires t.wire == [] || !t.wire[|t.wire| - 1].SetSurroundingText?
    ensures Tells(t.(wire := t.wire + (StateRequests(signature, cause) + [Commit, SurfaceCommit(surface)]),
                     marks := t.marks + [Sent(signature)]))
  {
    ToldState(t.wire, signature, cause, surface);
    WithoutEntersOne(t.marks, Sent(signature));
    SuffixMore(Told(t.wire), WithoutEnters(t.marks), Sent(signature));
  }

  lemma EnableTells(t: Trace, signature: Signature, cause: Cause, surface: Id)
    requires Tells(t)
    ensures Tells(t.(
      wire := t.wire + ([Enable] + StateRequests(signature, cause) + [Commit, SurfaceCommit(surface)]),
      marks := t.marks + [Enabled] + [Sent(signature)]))
  {
    ToldBefore(t.wire, t.wire + [Enable], |t.wire|);
    WithoutEntersOne(t.marks, Enabled);
    SuffixMore(Told(t.wire), WithoutEnters(t.marks), Enabled);
    var u := t.(wire := t.wire + [Enable], marks := t.marks + [Enabled]);
    StateTells(u, signature, cause, surface);
    EnableFirst(t.wire, StateRequests(signature, cause), [Commit, SurfaceCommit(surface)]);
  }

  lemma EnableFirst(wire: seq<Request>, state: seq<Request>, tail: seq<Request>)
    ensures wire + ([Enable] + state + tail) == wire + [Enable] + (state + tail)
  {
  }

  lemma DisableActiveTells(s: Service)
    requires Tells(s.trace)
    ensures Tells(DisableActive(s).trace)
  {
    DisableTells(s.trace, s.active.surface);
  }

  lemma CommitTells(s: Service, cause: Cause, state: ClientState)
    requires Tells(s.trace)
    ensures Tells(CommitActiveState(s, cause, state).trace)
  {
    StateTells(s.trace, SignatureOf(state, s.input.version), cause, s.active.surface);
  }

  lemma EnableActiveTells(s: Service, cause: Cause, state: ClientState)
    requires Tells(s.trace)
    ensures Tells(EnableActive(s, cause, state).trace)
  {
    if s.input.bound && s.active.client != 0 && ActiveSurfaceAccepts(s) && !s.input.enabled {
      EnableIsOneGroup(s, cause, state);
      EnableTells(s.trace, SignatureOf(state, s.input.version), cause, s.active.surface);
    } else {
      CommitTells(s, cause, state);
    }
  }

  lemma ClearTells(s: Service, client: Id)
    requires Tells(s.trace)
    ensures Tells(ClearFocusedOn(s, client).trace)
  {
    DisableActiveTells(s);
  }

  /** The trace of a service whose active client is replaced, before it is enabled. */
  lemma SwitchTells(s: Service, surface: Id, client: Id, state: ClientState)
    requires Tells(s.trace)
    ensures var s2 := DisableActive(s);
      var s3 := if s2.active.client != 0 then Deactivated(s2, s2.active.client) else s2;
      Tells(EnableActive(Activated(s3.(active := Active(surface, client)), client), Other, state).trace)
  {
    var s2 := DisableActive(s);
    DisableActiveTells(s);
    var s3 := if s2.active.client != 0 then Deactivated(s2, s2.active.client) else s2;
    assert Tells(s3.trace);
    EnableActiveTells(Activated(s3.(active := Active(surface, client)), client), Other, state);
  }

  lemma SetFocusedTells(s: Service, surface: Id, client: Id, accepts: bool, parent: Id, state: ClientState)
    requires Tells(s.trace)
    ensures Tells(SetFocusedOn(s, surface, client, accepts, parent, state).trace)
  {
    var s1 := s.(focus := s.focus.(accepts := accepts, keyboardParent := parent));
    if surface == 0 || client == 0 {
      ClearTells(s, s.active.client);
    } else if s.input.bound && s1.active == Active(surface, client) {
      EnableActiveTells(s1, Other, state);
      CommitTells(s1, Other, state);
    } else {
      SwitchTells(s1, surface, client, state);
    }
  }

  lemma KeyboardFocusTells(s: Service, surface: Id, entered: bool, state: ClientState)
    requires Tells(s.trace)
    ensures Tells(KeyboardFocusOn(s, surface, entered, state).trace)
  {
    EnableActiveTells(s.(focus := s.focus.(keyboard := surface)), Other, state);
  }

  lemma DoneTells(s: Service, serial: nat, applied: Script, throws: bool, state: ClientState)
    requires Tells(s.trace)
    ensures Tells(ExecOp(s, HandleDone(serial, applied, throws, state)).trace)
    decreases applied, 1
  {
    var start := DoneStart(s);
    SameTells(s.trace, start.trace);
    if s.active.client != 0 {
      ExecTells(start, applied);
      var s1 := Exec(start, applied).(applying := s.applying);
      CommitTells(s1, InputMethod, state);
    }
  }

  lemma EnterTells(s: Service, surface: Id, state: ClientState)
    requires Tells(s.trace)
    ensures Tells(EnterOn(s, surface, state).trace)
  {
    WithoutEntersOne(s.trace.marks, Entered);
    EnableActiveTells(
      MarkWith(ResetPending(s.(focus := s.focus.(entered := surface), last := None)), Entered), Other, state);
  }

  /** A new wire tells nothing yet. */
  lemma FreshTells(t: Trace)
    requires t.wire == []
    ensures Tells(t)
  {
  }

  lemma SameTells(t: Trace, r: Trace)
    requires Tells(t) && r.wire == t.wire && r.marks == t.marks
    ensures Tells(r)
  {
  }

  lemma BindTells(s: Service, same: bool, created: bool, version: nat)
    requires Tells(s.trace)
    ensures Tells(BindOn(s, same, created, version).trace)
  {
    if !(same && s.input.bound) {
      FreshTells(BindOn(s, same, created, version).trace);
    }
  }

  /** Calls that send nothing and set no mark. */
  lemma OtherTells(s: Service, op: Op)
    requires Tells(s.trace) && (op.TransferFocusedClient? || op.Leave? || op.Ime?)
    ensures Tells(ExecOp(s, op).trace)
  {
    SameTells(s.trace, ExecOp(s, op).trace);
  }

  lemma {:induction false} OpTells(s: Service, op: Op)
    requires Tells(s.trace)
    ensures Tells(ExecOp(s, op).trace)
    decreases op, 2
  {
    match op
    case Bind(same, created, version) => BindTells(s, same, created, version);
    case Cleanup => FreshTells(CleanupOn(s).trace);
    case SetFocusedClient(surface, client, accepts, parent, state) =>
      SetFocusedTells(s, surface, client, accepts, parent, state);
    case ClearFocusedClient(client) => ClearTells(s, client);
    case NotifyClientStateChanged(_, cause, state) => CommitTells(s, cause, state);
    case KeyboardFocus(surface, entered, state) => KeyboardFocusTells(s, surface, entered, state);
    case Enter(surface, state) => EnterTells(s, surface, state);
    case HandleDone(serial, applied, throws, state) => DoneTells(s, serial, applied, throws, state);
    case _ => OtherTells(s, op);
  }

  lemma {:induction false} ExecTells(s: Service, script: Script)
    requires Tells(s.trace)
    ensures Tells(Exec(s, script).trace)
    decreases script, 0
  {
    if script.Then? {
      OpTells(s, script.op);
      ExecTells(ExecOp(s, script.op), script.rest);
    }
  }

  // ----- main result -----

  /** The enables and state commits on the wire of the current object, in order, are the last
      marks but for the enters; and of two state commits with no enable or enter between
      them, the later differs. */
  lemma WireCommitsDiffer(run: Script)
    ensures var t := Exec(Initial(), run).trace;
      NoRepeats(t.marks) && IsSuffix(Told(t.wire), WithoutEnters(t.marks))
  {
    StateCommitsDiffer(run);
    ExecTells(Initial(), run);
  }
}
