/** dispatchUntil against displays and a poll that may answer anything: whichever way
    it returns, every read intent it announced has been read or cancelled. */
module DispatchLoop {
  import opened ReadIntents

  datatype Errno = EINTR | EAGAIN | EPIPE | OtherError

  /** One answer of the outside world; a negative value is a failure with its errno. */
  datatype Answer = Answer(value: int, errno: Errno, pollIn: bool, pollError: bool)

  datatype Status = Completed | TimedOut | PollFailed | ConnectionFailed(display: nat)

  /** How the last wait ended, or what poll said. */
  datatype Waited = NotYet | PastDeadline | Polled(ready: int, errno: Errno)

  /** A result of a call on a display. */
  datatype Result = Result(display: nat, ok: bool)

  /** What poll reported of a display: whether there is something to read. */
  datatype Report = Report(display: nat, readable: bool)

  /** The displays, poll, the clock and the completion test. They answer from a script;
      when it has run out the answers are those that let the loop end. */
  class World {
    const answers: seq<Answer>
    var pos: nat
    var done: bool        // the last answer of the completion test
    var log: seq<Event>
    ghost var failed: set<nat>         // displays with a failed call or a transport error
    ghost var waited: Waited
    ghost var readings: seq<Result>    // what wl_display_read_events gave
    ghost var transports: seq<Result>  // whether poll reported no error
    ghost var reports: seq<Report>     // whether poll reported data
    ghost var dispatched: seq<nat>     // displays whose pending events were dispatched
    ghost var flushed: seq<nat>        // displays whose requests were sent, or could not be for now
    ghost var tries: nat               // calls of wl_display_dispatch_pending
    ghost var attempts: nat            // calls of wl_display_prepare_read
    ghost var polls: seq<Waited>       // what poll said
    ghost var tests: nat               // calls of the completion test

    constructor (answers: seq<Answer>)
      ensures this.answers == answers && log == [] && pos == 0
    {
      this.answers, pos, done, log := answers, 0, false, [];
      failed, waited, readings, transports := {}, NotYet, [], [];
      reports, dispatched, flushed := [], [], [];
      tries, attempts, polls, tests := 0, 0, [], 0;
    }

    ghost function Left(): nat
      reads this`pos
    {
      if pos < |answers| then |answers| - pos else 0
    }

    method Ask(otherwise: Answer) returns (a: Answer)
      modifies this`pos
      ensures Left() <= old(Left()) && (a != otherwise ==> Left() < old(Left()))
    {
      if pos < |answers| {
        a := answers[pos];
        pos := pos + 1;
      } else {
        a := otherwise;
      }
    }

    method CompletedNow() returns (completed: bool)
      modifies this`pos, this`done, this`tests
      ensures tests == old(tests) + 1
      ensures done == completed && Left() <= old(Left()) && (!completed ==> Left() < old(Left()))
    {
      var a := Ask(Answer(1, OtherError, false, false));
      tests := tests + 1;
      completed := a.value == 1;
      done := completed;
    }

    /** wl_display_dispatch_pending */
    method DispatchPending(display: nat) returns (ok: bool)
      modifies this`pos, this`failed, this`dispatched, this`tries
      ensures Left() <= old(Left()) && failed == if ok then old(failed) else old(failed) + {display}
      ensures dispatched == if ok then old(dispatched) + [display] else old(dispatched)
      ensures tries == old(tries) + 1
    {
      tries := tries + 1;
      var a := Ask(Answer(-1, OtherError, false, false));
      ok := a.value >= 0;
      dispatched := if ok then dispatched + [display] else dispatched;
      failed := if ok then failed else failed + {display};
    }

    /** wl_display_prepare_read */
    method PrepareRead(display: nat) returns (ok: bool)
      modifies this`pos, this`log, this`attempts
      ensures Left() <= old(Left()) && (!ok ==> Left() < old(Left()))
      ensures log == if ok then old(log) + [Prepare(display)] else old(log)
      ensures attempts == old(attempts) + 1
    {
      attempts := attempts + 1;
      var a := Ask(Answer(0, OtherError, false, false));
      ok := a.value == 0;
      if ok {
        log := log + [Prepare(display)];
      }
    }

    /** wl_display_cancel_read */
    method Cancel(display: nat)
      modifies this`log
      ensures log == old(log) + [CancelRead(display)]
    {
      log := log + [CancelRead(display)];
    }

    /** wl_display_read_events */
    method ReadEvents(display: nat) returns (ok: bool)
      modifies this`pos, this`log, this`failed, this`readings
      ensures Left() <= old(Left()) && log == old(log) + [Read(display)]
      ensures readings == old(readings) + [Result(display, ok)]
      ensures failed == if ok then old(failed) else old(failed) + {display}
    {
      var a := Ask(Answer(0, OtherError, false, false));
      ok := a.value >= 0;
      log := log + [Read(display)];
      readings := readings + [Result(display, ok)];
      failed := if ok then failed else failed + {display};
    }

    /** wl_display_flush */
    method Flush(display: nat) returns (ok: bool, errno: Errno)
      modifies this`pos, this`failed, this`flushed
      ensures Left() <= old(Left()) && (!ok ==> Left() < old(Left()))
      ensures failed == if ok || errno != OtherError then old(failed) else old(failed) + {display}
      ensures flushed == if ok || errno == EAGAIN || errno == EPIPE then old(flushed) + [display] else old(flushed)
    {
      var a := Ask(Answer(0, OtherError, false, false));
      ok, errno := a.value >= 0, a.errno;
      flushed := if ok || errno == EAGAIN || errno == EPIPE then flushed + [display] else flushed;
      failed := if ok || errno != OtherError then failed else failed + {display};
    }

    method DeadlinePassed() returns (passed: bool)
      modifies this`pos, this`waited
      ensures Left() <= old(Left()) && (!passed ==> Left() < old(Left()))
      ensures waited == if passed then PastDeadline else old(waited)
    {
      var a := Ask(Answer(1, OtherError, false, false));
      passed := a.value == 1;
      waited := if passed then PastDeadline else waited;
    }

    method Poll() returns (ready: int, errno: Errno)
      modifies this`pos, this`waited, this`polls
      ensures Left() <= old(Left()) && waited == Polled(ready, errno) && polls == old(polls) + [waited]
    {
      var a := Ask(Answer(0, OtherError, false, false));
      ready, errno := a.value, a.errno;
      waited := Polled(ready, errno);
      polls := polls + [waited];
    }

    method Revents(display: nat) returns (pollIn: bool, pollError: bool)
      modifies this`pos, this`failed, this`transports, this`reports
      ensures Left() <= old(Left()) && transports == old(transports) + [Result(display, !pollError)]
      ensures reports == old(reports) + [Report(display, pollIn)]
      ensures failed == if pollError then old(failed) + {display} else old(failed)
    {
      var a := Ask(Answer(0, OtherError, false, false));
      pollIn, pollError := a.pollIn, a.pollError;
      transports := transports + [Result(display, !pollError)];
      reports := reports + [Report(display, pollIn)];
      failed := if pollError then failed + {display} else failed;
    }
  }

  /** A dispatch target; its connection may be missing. */
  datatype Target = NoConnection | Connection(display: nat)

  ghost predicate Distinct(s: seq<nat>) {
    forall i, j :: 0 <= i < j < |s| ==> s[i] != s[j]
  }

  function Active(targets: seq<Target>): seq<nat> {
    if targets == [] then []
    else (if targets[0].Connection? then [targets[0].display] else []) + Active(targets[1..])
  }

  /** The displays marked in the vector of prepared flags. */
  ghost function Marked(displays: seq<nat>, prepared: seq<bool>): set<nat>
    requires |displays| == |prepared|
  {
    set k | 0 <= k < |displays| && prepared[k] :: displays[k]
  }

  function AllClear(n: nat): (r: seq<bool>)
    ensures |r| == n && forall k :: 0 <= k < n ==> !r[k]
  {
    seq(n, _ => false)
  }

  /** The read intents open in the log are exactly those marked as prepared. */
  ghost predicate Tracks(log: seq<Event>, displays: seq<nat>, prepared: seq<bool>) {
    |displays| == |prepared| && Distinct(displays) && Replay(log) == Open(Marked(displays, prepared))
  }

  /** The calls announce a read on each of the displays. */
  predicate Announce(events: seq<Event>, displays: seq<nat>) {
    |events| == |displays| && forall k :: 0 <= k < |events| ==> events[k] == Prepare(displays[k])
  }

  /** Only those of the first n displays. */
  predicate AnnounceFirst(events: seq<Event>, displays: seq<nat>, n: nat) {
    |events| == n <= |displays| && forall k :: 0 <= k < n ==> events[k] == Prepare(displays[k])
  }

  lemma AnnounceMore(log: seq<Event>, events: seq<Event>, displays: seq<nat>, i: nat)
    requires i < |displays| && AnnounceFirst(events, displays, i)
    ensures AnnounceFirst(events + [Prepare(displays[i])], displays, i + 1)
    ensures log + (events + [Prepare(displays[i])]) == log + events + [Prepare(displays[i])]
  {
  }

  /** The calls answer the reports of poll: a read where there is data, and no other. */
  predicate Answering(events: seq<Event>, reports: seq<Report>) {
    |events| == |reports| && forall k :: 0 <= k < |events| ==> events[k] == AnswerTo(reports[k])
  }

  function AnswerTo(report: Report): Event {
    if report.readable then Read(report.display) else CancelRead(report.display)
  }

  predicate About(reports: seq<Report>, displays: seq<nat>) {
    |reports| == |displays| && forall k :: 0 <= k < |reports| ==> reports[k].display == displays[k]
  }

  predicate AllSet(prepared: seq<bool>) { forall k :: 0 <= k < |prepared| ==> prepared[k] }

  /** The prepared ones of the first n displays. */
  function PreparedOf(displays: seq<nat>, prepared: seq<bool>, n: nat): seq<nat>
    requires n <= |displays| == |prepared|
  {
    if n == 0 then []
    else PreparedOf(displays, prepared, n - 1) + if prepared[n - 1] then [displays[n - 1]] else []
  }

  lemma {:induction false} AllPrepared(displays: seq<nat>, prepared: seq<bool>, n: nat)
    requires n <= |displays| == |prepared| && AllSet(prepared)
    ensures PreparedOf(displays, prepared, n) == displays[..n]
  {
    if n > 0 {
      AllPrepared(displays, prepared, n - 1);
    }
  }

  /** A display of the reports is read if and only if poll found data on it, and given up if
      and only if it did not, each once. */
  lemma AnswersExactly(events: seq<Event>, reports: seq<Report>, displays: seq<nat>, k: nat)
    requires Answering(events, reports) && About(reports, displays) && Distinct(displays) && k < |displays|
    ensures (Read(displays[k]) in events <==> reports[k].readable)
    ensures (CancelRead(displays[k]) in events <==> !reports[k].readable)
    ensures forall j :: 0 <= j < |events| && Closes(events[j], displays[k]) ==> j == k
  {
    assert Closes(events[k], displays[k]);
    forall j | 0 <= j < |events| && Closes(events[j], displays[k]) ensures j == k {
      assert displays[j] == displays[k];
    }
  }

  lemma TracksClose(log: seq<Event>, displays: seq<nat>, prepared: seq<bool>, i: nat, e: Event)
    requires Tracks(log, displays, prepared) && i < |displays| && prepared[i]
    requires Closes(e, displays[i])
    ensures Tracks(log + [e], displays, prepared[i := false])
  {
    ReplayNext(log, e);
  }

  lemma TracksNone(log: seq<Event>, displays: seq<nat>)
    requires Replay(log) == Open({}) && Distinct(displays)
    ensures Tracks(log, displays, AllClear(|displays|))
  {
    assert Marked(displays, AllClear(|displays|)) == {};
  }

  lemma TracksClear(log: seq<Event>, displays: seq<nat>, prepared: seq<bool>)
    requires Tracks(log, displays, prepared) && forall k :: 0 <= k < |displays| ==> !prepared[k]
    ensures Replay(log) == Open({})
  {
    assert Marked(displays, prepared) == {};
  }

  lemma TracksOpen(log: seq<Event>, displays: seq<nat>, prepared: seq<bool>, i: nat)
    requires Tracks(log, displays, prepared) && i < |displays| && !prepared[i]
    ensures Tracks(log + [Prepare(displays[i])], displays, prepared[i := true])
  {
    ReplayNext(log, Prepare(displays[i]));
  }

  method CancelPreparedReads(world: World, displays: seq<nat>, prepared: seq<bool>)
    requires Tracks(world.log, displays, prepared)
    modifies world`log
    ensures Replay(world.log) == Open({})
  {
    var left := prepared;
    var i := 0;
    while i < |displays|
      invariant 0 <= i <= |displays| && Tracks(world.log, displays, left)
      invariant forall k :: 0 <= k < i ==> !left[k]
    {
      if left[i] {
        TracksClose(world.log, displays, left, i, CancelRead(displays[i]));
        world.Cancel(displays[i]);
        left := left[i := false];
      }
      i := i + 1;
    }
  }

  /** How a part of the loop ended: the loop goes on, or the whole call returns. */
  datatype Outcome = Proceed | Return(status: Status)

  /** A returned status says what happened: success when the completion test said so, a
      timeout when the deadline was found passed or poll found nothing, a failed poll when
      poll failed for good or there is nothing to poll, and a failed connection for one of
      the displays that failed. */
  ghost predicate Sensible(status: Status, displays: seq<nat>, world: World)
    reads world
  {
    match status
    case Completed => world.done
    case TimedOut => world.waited == PastDeadline || (world.waited.Polled? && world.waited.ready == 0)
    case PollFailed =>
      displays == [] || (world.waited.Polled? && world.waited.ready < 0 && world.waited.errno != EINTR)
    case ConnectionFailed(display) => display in displays && display in world.failed
  }

  ghost predicate Ended(world: World, displays: seq<nat>, outcome: Outcome)
    reads world
  {
    outcome.Return? ==> Replay(world.log) == Open({}) && Sensible(outcome.status, displays, world)
  }

  /** Of the results, display i was the first to fail; -1 if none did. */
  ghost predicate FirstFailure(results: seq<Result>, displays: seq<nat>, i: int) {
    if i < 0 then forall k :: 0 <= k < |results| ==> results[k].ok
    else
      && i < |displays|
      && exists k :: 0 <= k < |results| && results[k] == Result(displays[i], false)
           && forall j :: 0 <= j < k ==> results[j].ok
  }

  twostate predicate NothingRead(world: World)
    reads world
  {
    && world.reports == old(world.reports) && world.readings == old(world.readings)
    && world.transports == old(world.transports) && old(world.tests) <= world.tests
  }

  /** Dispatches until the display lets a read be prepared, trying again after each dispatch. */

  method PrepareOne(world: World, display: nat) returns (outcome: Outcome)
    modifies world
    ensures world.Left() <= old(world.Left())
    ensures world.log == if outcome.Proceed? then old(world.log) + [Prepare(display)] else old(world.log)
    ensures outcome.Return? ==> Sensible(outcome.status, [display], world)
    ensures world.attempts + old(world.tries) ==
      old(world.attempts) + world.tries + if outcome.Proceed? then 1 else 0
    ensures NothingRead(world) && world.flushed == old(world.flushed)
  {
    var prepared := world.PrepareRead(display);
    while !prepared
      invariant world.Left() <= old(world.Left())
      invariant world.log == if prepared then old(world.log) + [Prepare(display)] else old(world.log)
      invariant world.attempts + old(world.tries) == old(world.attempts) + world.tries + 1
      invariant NothingRead(world) && world.flushed == old(world.flushed)
      decreases !prepared, world.Left()
    {
      var dispatched := world.DispatchPending(display);
      if !dispatched {
        return Return(ConnectionFailed(display));
      }
      var completed := world.CompletedNow();
      if completed {
        return Return(Completed);
      }
      prepared := world.PrepareRead(display);
    }
    return Proceed;
  }

  /** Announces a read on every display. */
  method PrepareAll(world: World, displays: seq<nat>)
    returns (outcome: Outcome, prepared: seq<bool>, ghost announced: seq<Event>)
    requires Distinct(displays) && Replay(world.log) == Open({})
    modifies world
    ensures world.Left() <= old(world.Left()) && Ended(world, displays, outcome)
    ensures outcome.Proceed? ==> Tracks(world.log, displays, prepared)
    ensures outcome.Proceed? ==>
      world.log == old(world.log) + announced && Announce(announced, displays) && AllSet(prepared)
    ensures NothingRead(world) && world.flushed == old(world.flushed)
  {
    prepared, announced := AllClear(|displays|), [];
    TracksNone(world.log, displays);
    var i := 0;
    while i < |displays|
      invariant 0 <= i <= |displays| && Tracks(world.log, displays, prepared)
      invariant forall k :: i <= k < |displays| ==> !prepared[k]
      invariant forall k :: 0 <= k < i ==> prepared[k]
      invariant world.log == old(world.log) + announced && AnnounceFirst(announced, displays, i)
      invariant NothingRead(world) && world.flushed == old(world.flushed)
      invariant world.Left() <= old(world.Left())
    {
      outcome := PrepareOne(world, displays[i]);
      if outcome.Return? {
        CancelPreparedReads(world, displays, prepared);
        return;
      }
      TracksOpen(old(world.log) + announced, displays, prepared, i);
      prepared := prepared[i := true];
      AnnounceMore(old(world.log), announced, displays, i);
      announced := announced + [Prepare(displays[i])];
      i := i + 1;
    }
    return Proceed, prepared, announced;
  }

  /** Flushes every display; a full socket or a closed peer is not a failure here. */
  method FlushAll(world: World, displays: seq<nat>, prepared: seq<bool>) returns (outcome: Outcome)
    requires Tracks(world.log, displays, prepared)
    modifies world
    ensures world.Left() <= old(world.Left()) && Ended(world, displays, outcome)
    ensures outcome.Proceed? ==> world.log == old(world.log) && world.flushed == old(world.flushed) + displays
    ensures NothingRead(world)
  {
    var i := 0;
    while i < |displays|
      invariant 0 <= i <= |displays| && world.log == old(world.log)
      invariant world.flushed == old(world.flushed) + displays[..i] && NothingRead(world)
      invariant world.Left() <= old(world.Left())
    {
      var ok, errno := world.Flush(displays[i]);
      while !ok && errno == EINTR
        invariant world.flushed == old(world.flushed) + displays[..i]
          + if ok || errno == EAGAIN || errno == EPIPE then [displays[i]] else []
        invariant NothingRead(world)
        invariant world.log == old(world.log) && (ok || errno != OtherError || displays[i] in world.failed)
        invariant world.Left() <= old(world.Left())
        decreases !ok, world.Left()
      {
        ok, errno := world.Flush(displays[i]);
      }
      if !ok && errno != EAGAIN && errno != EPIPE {
        CancelPreparedReads(world, displays, prepared);
        return Return(ConnectionFailed(displays[i]));
      }
      i := i + 1;
    }
    return Proceed;
  }

  predicate Interrupted(w: Waited) { w.Polled? && w.ready < 0 && w.errno == EINTR }

  /** Polls until something is ready, the deadline has passed or poll fails. */
  method Wait(world: World, displays: seq<nat>, prepared: seq<bool>) returns (outcome: Outcome)
    requires Tracks(world.log, displays, prepared)
    modifies world
    ensures world.Left() <= old(world.Left()) && Ended(world, displays, outcome)
    ensures outcome.Proceed? ==> world.log == old(world.log) && world.waited.Polled? && world.waited.ready > 0
    ensures NothingRead(world) && world.flushed == old(world.flushed)
    ensures old(world.polls) <= world.polls
    ensures forall k :: |old(world.polls)| <= k < |world.polls| - 1 ==> Interrupted(world.polls[k])
  {
    var ready, errno := 0, OtherError;
    while true
      invariant world.log == old(world.log)
      invariant NothingRead(world) && world.flushed == old(world.flushed)
      invariant old(world.polls) <= world.polls
      invariant forall k :: |old(world.polls)| <= k < |world.polls| ==> Interrupted(world.polls[k])
      invariant world.Left() <= old(world.Left())
      decreases world.Left()
    {
      var passed := world.DeadlinePassed();
      if passed {
        ready := 0;
        break;
      }
      ready, errno := world.Poll();
      if ready >= 0 || errno != EINTR {
        break;
      }
    }
    if ready == 0 {
      CancelPreparedReads(world, displays, prepared);
      return Return(TimedOut);
    }
    if ready < 0 {
      CancelPreparedReads(world, displays, prepared);
      return Return(PollFailed);
    }
    return Proceed;
  }

  /** Of the results, display i was the first to fail, and so it did. */
  ghost predicate Failing(results: seq<Result>, displays: seq<nat>, i: int, failed: set<nat>) {
    FirstFailure(results, displays, i) && (i >= 0 ==> displays[i] in failed)
  }

  function Earlier(first: int, i: nat, ok: bool): int { if !ok && first < 0 then i else first }

  lemma FailingOn(
      results: seq<Result>, displays: seq<nat>, first: int, failed: set<nat>, i: nat, more: bool, ok: bool)
    requires i < |displays| && (!ok ==> more && displays[i] in failed) && Failing(results, displays, first, failed)
    ensures Failing(results + if more then [Result(displays[i], ok)] else [], displays, Earlier(first, i, ok), failed)
  {
    FirstFailureOn(results, displays, first, i, ok);
    assert results + [] == results;
  }

  /** What was done and heard. */
  datatype Heard = Heard(log: seq<Event>, reports: seq<Report>, readings: seq<Result>, transports: seq<Result>) {
    function Plus(more: Heard): Heard {
      Heard(log + more.log, reports + more.reports, readings + more.readings, transports + more.transports)
    }
  }

  ghost function HeardBy(world: World): Heard
    reads world
  {
    Heard(world.log, world.reports, world.readings, world.transports)
  }

  /** One report, answered, with what the read gave and whether poll reported no error. */
  function One(display: nat, readable: bool, ok: bool, clean: bool): Heard {
    Heard([AnswerTo(Report(display, readable))], [Report(display, readable)],
          if readable then [Result(display, ok)] else [], [Result(display, clean)])
  }

  lemma PlusTwice(h: Heard, a: Heard, b: Heard)
    ensures h.Plus(a).Plus(b) == h.Plus(a.Plus(b))
  {
  }

  /** All reports about the prepared ones of the first i displays are answered, and these were
      the first failures. */
  ghost predicate Settled(done: Heard, displays: seq<nat>, prepared: seq<bool>, i: nat,
                          readFailure: int, transportFailure: int, failed: set<nat>)
    requires i <= |displays| == |prepared|
  {
    && Answering(done.log, done.reports) && About(done.reports, PreparedOf(displays, prepared, i))
    && Failing(done.readings, displays, readFailure, failed)
    && Failing(done.transports, displays, transportFailure, failed)
  }

  lemma SettledMore(done: Heard, displays: seq<nat>, prepared: seq<bool>, i: nat,
                    readFailure: int, transportFailure: int, failed: set<nat>, readable: bool, ok: bool, clean: bool)
    requires i < |displays| == |prepared| && prepared[i]
    requires Settled(done, displays, prepared, i, readFailure, transportFailure, failed)
    requires (!readable ==> ok) && (!ok || !clean ==> displays[i] in failed)
    ensures Settled(done.Plus(One(displays[i], readable, ok, clean)), displays, prepared, i + 1,
                    Earlier(readFailure, i, ok), Earlier(transportFailure, i, clean), failed)
  {
    FailingOn(done.readings, displays, readFailure, failed, i, readable, ok);
    FailingOn(done.transports, displays, transportFailure, failed, i, true, clean);
  }

  lemma SettledGrows(done: Heard, displays: seq<nat>, prepared: seq<bool>, i: nat,
                     readFailure: int, transportFailure: int, failed: set<nat>, more: set<nat>)
    requires i <= |displays| == |prepared| && failed <= more
    requires Settled(done, displays, prepared, i, readFailure, transportFailure, failed)
    ensures Settled(done, displays, prepared, i, readFailure, transportFailure, more)
  {
  }

  lemma SettledSkip(done: Heard, displays: seq<nat>, prepared: seq<bool>, i: nat,
                    readFailure: int, transportFailure: int, failed: set<nat>)
    requires i < |displays| == |prepared| && !prepared[i]
    requires Settled(done, displays, prepared, i, readFailure, transportFailure, failed)
    ensures Settled(done, displays, prepared, i + 1, readFailure, transportFailure, failed)
  {
  }

  /** Reads from one display if poll reported data, and gives its intent up otherwise. */
  method AnswerOne(world: World, displays: seq<nat>, prepared: seq<bool>, i: nat)
    returns (readable: bool, ok: bool, clean: bool)
    requires Tracks(world.log, displays, prepared) && i < |displays| && prepared[i]
    modifies world
    ensures world.Left() <= old(world.Left()) && Tracks(world.log, displays, prepared[i := false])
    ensures HeardBy(world) == old(HeardBy(world)).Plus(One(displays[i], readable, ok, clean))
    ensures old(world.failed) <= world.failed && (!ok || !clean ==> displays[i] in world.failed)
    ensures world.waited == old(world.waited) && world.flushed == old(world.flushed)
    ensures world.tests == old(world.tests) && (!readable ==> ok)
  {
    var pollIn, pollError := world.Revents(displays[i]);
    readable, ok, clean := pollIn, true, !pollError;
    if pollIn {
      TracksClose(world.log, displays, prepared, i, Read(displays[i]));
      ok := world.ReadEvents(displays[i]);
    } else {
      TracksClose(world.log, displays, prepared, i, CancelRead(displays[i]));
      world.Cancel(displays[i]);
    }
  }

  /** Answers for display i if it is prepared, and keeps the first failures. */
  method AnswerNext(
    world: World, displays: seq<nat>, prepared: seq<bool>, left: seq<bool>, i: nat, readFailure: int,
    transportFailure: int, ghost before: Heard, ghost done: Heard)
    returns (left': seq<bool>, readFailure': int, transportFailure': int, ghost done': Heard)
    requires Tracks(world.log, displays, left) && i < |displays| == |prepared|
    requires left[i] == prepared[i] && HeardBy(world) == before.Plus(done)
    requires Settled(done, displays, prepared, i, readFailure, transportFailure, world.failed)
    modifies world
    ensures world.Left() <= old(world.Left())
    ensures left' == left[i := false] && Tracks(world.log, displays, left')
    ensures HeardBy(world) == before.Plus(done')
    ensures Settled(done', displays, prepared, i + 1, readFailure', transportFailure', world.failed)
    ensures world.waited == old(world.waited) && world.flushed == old(world.flushed)
    ensures world.tests == old(world.tests)
  {
    left', readFailure', transportFailure', done' := left, readFailure, transportFailure, done;
    if !left[i] {
      SettledSkip(done, displays, prepared, i, readFailure, transportFailure, world.failed);
      return;
    }
    ghost var failed := world.failed;
    var readable, ok, clean := AnswerOne(world, displays, left, i);
    ghost var one := One(displays[i], readable, ok, clean);
    PlusTwice(before, done, one);
    SettledGrows(done, displays, prepared, i, readFailure, transportFailure, failed, world.failed);
    SettledMore(done, displays, prepared, i, readFailure, transportFailure, world.failed, readable, ok, clean);
    left', done' := left[i := false], done.Plus(one);
    readFailure', transportFailure' := Earlier(readFailure, i, ok), Earlier(transportFailure, i, clean);
  }

  /** Reads from the displays poll reported and gives up the other intents. The results
      are the first display whose read failed and the first with a transport error, and what
      was done and heard. */
  method ReadAll(world: World, displays: seq<nat>, prepared: seq<bool>)
    returns (readFailure: int, transportFailure: int, ghost done: Heard)
    requires Tracks(world.log, displays, prepared)
    modifies world
    ensures world.Left() <= old(world.Left()) && Replay(world.log) == Open({})
    ensures HeardBy(world) == old(HeardBy(world)).Plus(done)
    ensures Settled(done, displays, prepared, |displays|, readFailure, transportFailure, world.failed)
    ensures world.waited == old(world.waited) && world.flushed == old(world.flushed) && world.tests == old(world.tests)
  {
    readFailure, transportFailure := -1, -1;
    var left := prepared;
    done := Heard([], [], [], []);
    var i := 0;
    while i < |displays|
      invariant 0 <= i <= |displays| && Tracks(world.log, displays, left)
      invariant forall k :: 0 <= k < i ==> !left[k]
      invariant forall k :: i <= k < |displays| ==> left[k] == prepared[k]
      invariant HeardBy(world) == old(HeardBy(world)).Plus(done)
      invariant Settled(done, displays, prepared, i, readFailure, transportFailure, world.failed)
      invariant world.waited == old(world.waited) && world.flushed == old(world.flushed)
      invariant world.tests == old(world.tests)
      invariant world.Left() <= old(world.Left())
    {
      left, readFailure, transportFailure, done := AnswerNext(
        world, displays, prepared, left, i, readFailure, transportFailure, old(HeardBy(world)), done);
      i := i + 1;
    }
    TracksClear(world.log, displays, left);
  }

  lemma FirstFailureOn(results: seq<Result>, displays: seq<nat>, first: int, i: nat, ok: bool)
    requires i < |displays| && FirstFailure(results, displays, first)
    ensures FirstFailure(results + [Result(displays[i], ok)], displays, if !ok && first < 0 then i else first)
  {
    var more := results + [Result(displays[i], ok)];
    if first >= 0 {
      var k :| 0 <= k < |results| && results[k] == Result(displays[first], false)
        && forall j :: 0 <= j < k ==> results[j].ok;
      assert more[k] == results[k] && forall j :: 0 <= j < k ==> more[j].ok;
    } else if !ok {
      assert more[|results|] == Result(displays[i], false) && forall j :: 0 <= j < |results| ==> more[j].ok;
    }
  }

  /** Dispatches what is pending on every display, testing for completion in between if asked to. */
  method DispatchAll(world: World, displays: seq<nat>, testCompletion: bool) returns (outcome: Outcome)
    requires Replay(world.log) == Open({})
    modifies world
    ensures world.Left() <= old(world.Left()) && Ended(world, displays, outcome)
    ensures world.log == old(world.log) && old(world.failed) <= world.failed
    ensures NothingRead(world) && world.flushed == old(world.flushed)
    ensures world.waited == old(world.waited)
    ensures outcome.Proceed? ==> world.dispatched == old(world.dispatched) + displays
    ensures outcome == Return(Completed) ==> testCompletion
    ensures outcome.Proceed? && testCompletion ==> world.tests == old(world.tests) + |displays|
  {
    var i := 0;
    while i < |displays|
      invariant 0 <= i <= |displays| && world.log == old(world.log) && old(world.failed) <= world.failed
      invariant NothingRead(world) && world.flushed == old(world.flushed)
      invariant world.waited == old(world.waited) && world.dispatched == old(world.dispatched) + displays[..i]
      invariant testCompletion ==> world.tests == old(world.tests) + i
      invariant world.Left() <= old(world.Left())
    {
      var ok := world.DispatchPending(displays[i]);
      if !ok {
        return Return(ConnectionFailed(displays[i]));
      }
      if testCompletion {
        var completed := world.CompletedNow();
        if completed {
          return Return(Completed);
        }
      }
      i := i + 1;
    }
    return Proceed;
  }

  /** What a whole round does: every display is announced once, flushed, and after poll has found
      something, read if it has data and given up otherwise, and at the end dispatched. The
      loop goes on only if no read failed and no display has a transport error. */
  twostate predicate Served(world: World, displays: seq<nat>, announced: seq<Event>, done: Heard)
    reads world
  {
    && Announce(announced, displays) && About(done.reports, displays) && Answering(done.log, done.reports)
    && world.log == old(world.log) + announced + done.log && world.reports == old(world.reports) + done.reports
    && world.flushed == old(world.flushed) + displays
    && world.waited.Polled? && world.waited.ready > 0 && old(world.tests) + |displays| <= world.tests
    && (forall k :: 0 <= k < |done.readings| ==> done.readings[k].ok)
    && (forall k :: 0 <= k < |done.transports| ==> done.transports[k].ok)
    && world.readings == old(world.readings) + done.readings
    && world.transports == old(world.transports) + done.transports
    && |displays| <= |world.dispatched| && world.dispatched[|world.dispatched| - |displays|..] == displays
  }

  /** One round of the loop: prepare, flush, wait, read, dispatch. */
  method Round(world: World, displays: seq<nat>)
    returns (outcome: Outcome, ghost announced: seq<Event>, ghost done: Heard)
    requires Distinct(displays) && Replay(world.log) == Open({})
    modifies world
    ensures world.Left() <= old(world.Left()) && Ended(world, displays, outcome)
    ensures outcome.Proceed? ==> Replay(world.log) == Open({}) && Served(world, displays, announced, done)
    ensures outcome == Return(Completed) ==> world.reports == old(world.reports)
  {
    announced, done := [], Heard([], [], [], []);
    outcome := DispatchAll(world, displays, true);
    if outcome.Return? {
      return;
    }
    var prepared;
    outcome, prepared, announced := PrepareAll(world, displays);
    if outcome.Return? {
      return;
    }
    outcome := FlushAll(world, displays, prepared);
    if outcome.Return? {
      return;
    }
    outcome := Wait(world, displays, prepared);
    if outcome.Return? {
      return;
    }
    AllPrepared(displays, prepared, |displays|);
    var readFailure, transportFailure;
    readFailure, transportFailure, done := ReadAll(world, displays, prepared);
    if readFailure >= 0 {
      outcome := Return(ConnectionFailed(displays[readFailure]));
      return;
    }
    outcome := DispatchAll(world, displays, false);
    if outcome.Return? {
      return;
    }
    if transportFailure >= 0 {
      outcome := Return(ConnectionFailed(displays[transportFailure]));
    }
  }

  /** Whatever the displays, poll and the completion test do, the call returns with every
      read intent read or cancelled exactly once, none announced twice at once and no read
      without one. */
  method DispatchUntil(targets: seq<Target>, world: World) returns (status: Status)
    requires Distinct(Active(targets)) && world.log == []
    modifies world
    ensures Replay(world.log) == Open({}) && Bracketed(world.log)
    ensures Sensible(status, Active(targets), world)
  {
    var displays := Active(targets);
    var completed := world.CompletedNow();
    if completed {
      ReplayMeansBracketed(world.log);
      return Completed;
    }
    if displays == [] {
      ReplayMeansBracketed(world.log);
      return PollFailed;
    }
    completed := world.CompletedNow();
    while !completed
      invariant Replay(world.log) == Open({}) && world.done == completed
      decreases !completed, world.Left()
    {
      var outcome, _, _ := Round(world, displays);
      if outcome.Return? {
        ReplayMeansBracketed(world.log);
        return outcome.status;
      }
      completed := world.CompletedNow();
    }
    ReplayMeansBracketed(world.log);
    return Completed;
  }
}
