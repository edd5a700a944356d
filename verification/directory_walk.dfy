/** The recursive directory walk that follows links. A directory is named by its canonical
    path, a number here, so links make any finite graph of directories. */
module DirectoryWalk {

  type Dir = nat

  /** An entry that leads to a directory, whose canonical path may fail to resolve, or any
      other entry. */
  datatype Entry = Folder(target: Dir, resolves: bool) | Other

  /** What opening a directory gives. */
  datatype Listing = Entries(entries: seq<Entry>) | Denied | Failed

  datatype Outcome = Reported | Skipped | OtherSeen

  /** An entry the walk came to, by directory and position, and what it did with it. */
  datatype Visit = Visit(dir: Dir, index: nat, outcome: Outcome)

  /** The directories, the walk's root, and the answers of the directory callback. */
  datatype Tree = Tree(listings: map<Dir, Listing>, root: Dir, accepts: (Dir, nat) -> bool)

  ghost predicate Closed(t: Tree) {
    && t.root in t.listings
    && forall d, i :: HasEntry(t, d, i) && EntryAt(t, d, i).Folder? ==> EntryAt(t, d, i).target in t.listings
  }

  predicate Readable(t: Tree, d: Dir) { d in t.listings && t.listings[d].Entries? }

  predicate HasEntry(t: Tree, d: Dir, i: nat) { Readable(t, d) && i < |t.listings[d].entries| }

  function EntryAt(t: Tree, d: Dir, i: nat): Entry
    requires HasEntry(t, d, i)
  {
    t.listings[d].entries[i]
  }

  // ----- what a walk promises -----

  /** The k-th visit reported directory d. */
  predicate ReportsAt(t: Tree, log: seq<Visit>, k: nat, d: Dir) {
    && k < |log| && log[k].outcome == Reported
    && HasEntry(t, log[k].dir, log[k].index) && EntryAt(t, log[k].dir, log[k].index) == Folder(d, true)
  }

  ghost predicate Reports(t: Tree, log: seq<Visit>, d: Dir) {
    exists k: nat :: ReportsAt(t, log, k, d)
  }

  /** The walk descended into d: it is the root, or it was reported and accepted. */
  ghost predicate Entered(t: Tree, log: seq<Visit>, d: Dir) {
    d == t.root || exists k: nat :: ReportsAt(t, log, k, d) && t.accepts(log[k].dir, log[k].index)
  }

  ghost predicate Visited(log: seq<Visit>, d: Dir, i: nat) {
    exists k :: 0 <= k < |log| && log[k].dir == d && log[k].index == i
  }

  /** Each visit is to an entry of a directory entered before. A directory is reported when
      it is new and resolves, and skipped otherwise. */
  ghost predicate VisitOk(t: Tree, log: seq<Visit>, k: nat)
    requires k < |log|
  {
    var v := log[k];
    && HasEntry(t, v.dir, v.index) && Entered(t, log[..k], v.dir)
    && match EntryAt(t, v.dir, v.index)
       case Other => v.outcome == OtherSeen
       case Folder(d, resolves) =>
         && v.outcome != OtherSeen
         && (v.outcome == Reported <==> resolves && d != t.root && !Reports(t, log[..k], d))
  }

  ghost predicate VisitsOk(t: Tree, log: seq<Visit>) {
    forall k :: 0 <= k < |log| ==> VisitOk(t, log, k)
  }

  ghost predicate NoneTwice(log: seq<Visit>) {
    forall j, k :: 0 <= j < k < |log| ==> (log[j].dir, log[j].index) != (log[k].dir, log[k].index)
  }

  /** Every entry of every directory entered was visited. */
  ghost predicate AllVisited(t: Tree, log: seq<Visit>) {
    forall d, i :: Entered(t, log, d) && HasEntry(t, d, i) ==> Visited(log, d, i)
  }

  // ----- the walk -----

  /** The open directories, innermost last; how far each entered directory has been read;
      and the directories claimed. */
  datatype State = State(stack: seq<Dir>, read: map<Dir, nat>, claimed: set<Dir>, log: seq<Visit>)

  ghost predicate Reading(t: Tree, stack: seq<Dir>, read: map<Dir, nat>) {
    && (forall d :: d in read ==> Readable(t, d) && read[d] <= |t.listings[d].entries|)
    && (forall d :: d in read && d !in stack ==> read[d] == |t.listings[d].entries|)
    && (forall i :: 0 <= i < |stack| ==> stack[i] in read)
    && (forall i, j :: 0 <= i < j < |stack| ==> stack[i] != stack[j])
  }

  /** The directories entered are those being read or read to the end. */
  ghost predicate Entering(t: Tree, s: State) {
    forall d :: d in s.read <==> Entered(t, s.log, d) && Readable(t, d)
  }

  ghost predicate Claiming(t: Tree, s: State) {
    forall d :: d in s.claimed <==> d == t.root || Reports(t, s.log, d)
  }

  ghost predicate Logging(t: Tree, s: State) {
    && VisitsOk(t, s.log) && NoneTwice(s.log)
    && (forall d, i :: Visited(s.log, d, i) <==> d in s.read && i < s.read[d])
  }

  ghost predicate Walking(t: Tree, s: State) {
    Reading(t, s.stack, s.read) && Entering(t, s) && Claiming(t, s) && Logging(t, s)
  }

  /** The entries and ends of directories still to come on the stack. */
  ghost function Remaining(t: Tree, stack: seq<Dir>, read: map<Dir, nat>): nat {
    if stack == [] then 0
    else
      var d := stack[|stack| - 1];
      Remaining(t, stack[..|stack| - 1], read) + 1
      + if Readable(t, d) && d in read && read[d] <= |t.listings[d].entries|
        then |t.listings[d].entries| - read[d] else 0
  }

  lemma {:induction false} RemainingBelow(t: Tree, stack: seq<Dir>, read: map<Dir, nat>, d: Dir, n: nat)
    requires d !in stack
    ensures Remaining(t, stack, read[d := n]) == Remaining(t, stack, read)
  {
    if stack != [] {
      assert stack[|stack| - 1] in stack;
      RemainingBelow(t, stack[..|stack| - 1], read, d, n);
    }
  }

  // One entry more.

  lemma ReportsOneMore(t: Tree, log: seq<Visit>, v: Visit, d: Dir)
    ensures Reports(t, log + [v], d) <==> Reports(t, log, d) || ReportsAt(t, log + [v], |log|, d)
  {
    var more := log + [v];
    if Reports(t, log, d) {
      var k: nat :| ReportsAt(t, log, k, d);
      assert ReportsAt(t, more, k, d);
    }
    if Reports(t, more, d) {
      var k: nat :| ReportsAt(t, more, k, d);
      assert k < |log| ==> ReportsAt(t, log, k, d);
    }
  }

  lemma EnteredOneMore(t: Tree, log: seq<Visit>, v: Visit, d: Dir)
    ensures Entered(t, log + [v], d)
      <==> Entered(t, log, d) || (ReportsAt(t, log + [v], |log|, d) && t.accepts(v.dir, v.index))
  {
    var more := log + [v];
    if d != t.root && Entered(t, log, d) {
      var k: nat :| ReportsAt(t, log, k, d) && t.accepts(log[k].dir, log[k].index);
      assert ReportsAt(t, more, k, d) && more[k] == log[k];
    }
    if d != t.root && Entered(t, more, d) {
      var k: nat :| ReportsAt(t, more, k, d) && t.accepts(more[k].dir, more[k].index);
      assert k < |log| ==> ReportsAt(t, log, k, d) && more[k] == log[k];
    }
  }

  lemma VisitedOneMore(log: seq<Visit>, v: Visit, d: Dir, i: nat)
    ensures Visited(log + [v], d, i) <==> Visited(log, d, i) || (d == v.dir && i == v.index)
  {
    var more := log + [v];
    if Visited(log, d, i) {
      var k :| 0 <= k < |log| && log[k].dir == d && log[k].index == i;
      assert more[k] == log[k];
    }
    assert more[|log|] == v;
  }

  lemma VisitsOneMore(t: Tree, log: seq<Visit>, v: Visit)
    requires VisitsOk(t, log) && NoneTwice(log) && !Visited(log, v.dir, v.index) && VisitOk(t, log + [v], |log|)
    ensures VisitsOk(t, log + [v]) && NoneTwice(log + [v])
  {
    var more := log + [v];
    forall k | 0 <= k < |more| ensures VisitOk(t, more, k) {
      if k < |log| {
        assert VisitOk(t, log, k) && more[..k] == log[..k] && more[k] == log[k];
      }
    }
    forall j, k | 0 <= j < k < |more| ensures (more[j].dir, more[j].index) != (more[k].dir, more[k].index) {
      assert k == |log| ==> more[j] == log[j];
    }
  }

  /** The outcome of the visit to the next entry of the innermost directory. */
  function OutcomeOf(e: Entry, claimed: set<Dir>): Outcome {
    match e
    case Other => OtherSeen
    case Folder(d, resolves) => if resolves && d !in claimed then Reported else Skipped
  }

  function After(t: Tree, s: State, v: Visit, e: Entry): State {
    var read := s.read[v.dir := v.index + 1];
    if v.outcome != Reported || e.Other? then State(s.stack, read, s.claimed, s.log + [v])
    else if t.accepts(v.dir, v.index) && Readable(t, e.target)
    then State(s.stack + [e.target], read[e.target := 0], s.claimed + {e.target}, s.log + [v])
    else State(s.stack, read, s.claimed + {e.target}, s.log + [v])
  }

  ghost predicate AtEntry(t: Tree, s: State, v: Visit, e: Entry) {
    && s.stack != [] && v.dir == s.stack[|s.stack| - 1]
    && v.dir in s.read && s.read[v.dir] == v.index && HasEntry(t, v.dir, v.index)
    && e == EntryAt(t, v.dir, v.index) && v.outcome == OutcomeOf(e, s.claimed)
  }

  lemma AfterLogs(t: Tree, s: State, v: Visit, e: Entry)
    requires Closed(t) && Walking(t, s) && AtEntry(t, s, v, e)
    ensures VisitsOk(t, s.log + [v]) && NoneTwice(s.log + [v])
  {
    assert (s.log + [v])[..|s.log|] == s.log;
    assert Entered(t, s.log, v.dir);
    assert !Visited(s.log, v.dir, v.index);
    assert VisitOk(t, s.log + [v], |s.log|);
    VisitsOneMore(t, s.log, v);
  }

  lemma ReportsNow(t: Tree, s: State, v: Visit, e: Entry, d: Dir)
    requires Closed(t) && Walking(t, s) && AtEntry(t, s, v, e)
    ensures ReportsAt(t, s.log + [v], |s.log|, d) <==> v.outcome == Reported && e == Folder(d, true)
  {
    assert (s.log + [v])[|s.log|] == v;
  }

  lemma AfterClaims(t: Tree, s: State, v: Visit, e: Entry)
    requires Closed(t) && Walking(t, s) && AtEntry(t, s, v, e)
    ensures Claiming(t, After(t, s, v, e))
  {
    var u := After(t, s, v, e);
    forall d: Dir ensures d in u.claimed <==> d == t.root || Reports(t, u.log, d) {
      ReportsOneMore(t, s.log, v, d);
      ReportsNow(t, s, v, e, d);
    }
  }

  lemma AfterEnters(t: Tree, s: State, v: Visit, e: Entry)
    requires Closed(t) && Walking(t, s) && AtEntry(t, s, v, e)
    ensures Entering(t, After(t, s, v, e))
  {
    var u := After(t, s, v, e);
    forall d: Dir ensures d in u.read <==> Entered(t, u.log, d) && Readable(t, d) {
      EnteredOneMore(t, s.log, v, d);
      ReportsNow(t, s, v, e, d);
    }
  }

  lemma AfterReads(t: Tree, s: State, v: Visit, e: Entry)
    requires Reading(t, s.stack, s.read) && AtEntry(t, s, v, e) && forall d :: d in s.read ==> d in s.claimed
    ensures Reading(t, After(t, s, v, e).stack, After(t, s, v, e).read)
  {
  }

  lemma AfterVisits(t: Tree, s: State, v: Visit, e: Entry)
    requires Closed(t) && Walking(t, s) && AtEntry(t, s, v, e)
    ensures Logging(t, After(t, s, v, e))
  {
    AfterLogs(t, s, v, e);
    var u := After(t, s, v, e);
    forall d: Dir, i: nat ensures Visited(u.log, d, i) <==> d in u.read && i < u.read[d] {
      VisitedOneMore(s.log, v, d, i);
    }
  }

  lemma AfterKeeps(t: Tree, s: State, v: Visit, e: Entry)
    requires Closed(t) && Walking(t, s) && AtEntry(t, s, v, e)
    ensures Walking(t, After(t, s, v, e))
  {
    AfterVisits(t, s, v, e);
    AfterClaims(t, s, v, e);
    AfterReads(t, s, v, e);
    AfterEnters(t, s, v, e);
  }

  /** The source's error ends the walk: an entered directory could not be opened at all. */
  ghost predicate Broken(t: Tree, log: seq<Visit>) {
    exists d :: Entered(t, log, d) && d in t.listings && t.listings[d].Failed?
  }

  lemma ReadOneLess(t: Tree, stack: seq<Dir>, read: map<Dir, nat>)
    requires Reading(t, stack, read) && stack != []
    requires var d := stack[|stack| - 1]; read[d] < |t.listings[d].entries|
    ensures var d := stack[|stack| - 1];
      Remaining(t, stack, read[d := read[d] + 1]) < Remaining(t, stack, read)
  {
    var n := |stack| - 1;
    var d := stack[n];
    assert d !in stack[..n];
    RemainingBelow(t, stack[..n], read, d, read[d] + 1);
  }

  lemma BrokenOneMore(t: Tree, s: State, v: Visit, e: Entry)
    requires Closed(t) && Walking(t, s) && AtEntry(t, s, v, e) && !Broken(t, s.log)
    ensures Broken(t, s.log + [v]) <==>
      v.outcome == Reported && t.accepts(v.dir, v.index) && t.listings[e.target].Failed?
  {
    forall d: Dir ensures Entered(t, s.log + [v], d) <==>
      Entered(t, s.log, d) || (v.outcome == Reported && e == Folder(d, true) && t.accepts(v.dir, v.index))
    {
      EnteredOneMore(t, s.log, v, d);
      ReportsNow(t, s, v, e, d);
    }
    if v.outcome == Reported && t.accepts(v.dir, v.index) && t.listings[e.target].Failed? {
      assert Entered(t, s.log + [v], e.target);
    }
  }

  ghost predicate Lower(t: Tree, after: State, before: State) {
    after.claimed > before.claimed
    || (after.claimed == before.claimed
        && Remaining(t, after.stack, after.read) < Remaining(t, before.stack, before.read))
  }

  lemma StepKeeps(t: Tree, s: State, v: Visit, e: Entry)
    requires Closed(t) && Walking(t, s) && AtEntry(t, s, v, e) && !Broken(t, s.log)
    ensures Walking(t, After(t, s, v, e)) && Lower(t, After(t, s, v, e), s)
    ensures Broken(t, After(t, s, v, e).log) <==>
      v.outcome == Reported && t.accepts(v.dir, v.index) && t.listings[e.target].Failed?
  {
    AfterKeeps(t, s, v, e);
    BrokenOneMore(t, s, v, e);
    AfterIsLower(t, s, v, e);
  }

  lemma AfterIsLower(t: Tree, s: State, v: Visit, e: Entry)
    requires Reading(t, s.stack, s.read) && AtEntry(t, s, v, e)
    ensures Lower(t, After(t, s, v, e), s)
  {
    if v.outcome == Reported {
      assert e.target !in s.claimed && e.target in After(t, s, v, e).claimed;
    } else {
      ReadOneLess(t, s.stack, s.read);
    }
  }

  lemma ClaimedExist(t: Tree, s: State)
    requires Closed(t) && Walking(t, s)
    ensures s.claimed <= t.listings.Keys
  {
    forall d | d in s.claimed ensures d in t.listings {
      if d != t.root {
        var k: nat :| ReportsAt(t, s.log, k, d);
      }
    }
  }

  /** Visits the next entry of the innermost directory. An error ends the walk. */
  method VisitNext(t: Tree, s: State, d: Dir) returns (u: State, ok: bool)
    requires s.stack != [] && d == s.stack[|s.stack| - 1] && d in s.read && HasEntry(t, d, s.read[d])
    requires Closed(t)
    ensures var e := EntryAt(t, d, s.read[d]);
      && var v := Visit(d, s.read[d], OutcomeOf(e, s.claimed));
      u == After(t, s, v, e)
      && (ok <==> !(v.outcome == Reported && t.accepts(d, s.read[d]) && t.listings[e.target].Failed?))
  {
    var stack, read, claimed, log := s.stack, s.read, s.claimed, s.log;
    var i := read[d];
    var e := t.listings[d].entries[i];
    assert EntryAt(t, d, i) == e;
    ok := true;
    read := read[d := i + 1];
    if e.Other? {
      log := log + [Visit(d, i, OtherSeen)];
    } else if !e.resolves || e.target in claimed {
      log := log + [Visit(d, i, Skipped)];
    } else {
      claimed := claimed + {e.target};
      log := log + [Visit(d, i, Reported)];
      if t.accepts(d, i) {
        if t.listings[e.target].Entries? {
          stack, read := stack + [e.target], read[e.target := 0];
        } else if t.listings[e.target].Failed? {
          ok := false;
        }
      }
    }
    u := State(stack, read, claimed, log);
  }

  method Advance(t: Tree, s: State) returns (u: State, ok: bool)
    requires Closed(t) && Walking(t, s) && s.stack != [] && !Broken(t, s.log)
    ensures Walking(t, u) && (ok <==> !Broken(t, u.log)) && Lower(t, u, s)
  {
    var d := s.stack[|s.stack| - 1];
    if s.read[d] == |t.listings[d].entries| {
      return s.(stack := s.stack[..|s.stack| - 1]), true;
    }
    u, ok := VisitNext(t, s, d);
    ghost var e := EntryAt(t, d, s.read[d]);
    StepKeeps(t, s, Visit(d, s.read[d], OutcomeOf(e, s.claimed)), e);
  }

  method Walk(t: Tree, rootResolves: bool) returns (log: seq<Visit>, complete: bool)
    requires Closed(t)
    ensures !rootResolves ==> log == []
    ensures VisitsOk(t, log) && NoneTwice(log)
    ensures rootResolves ==> (complete <==> !Broken(t, log))
    ensures rootResolves && complete ==> AllVisited(t, log)
  {
    if !rootResolves {
      return [], true;
    }
    var s := State([], map[], {t.root}, []);
    if t.listings[t.root].Entries? {
      s := State([t.root], map[t.root := 0], {t.root}, []);
    }
    complete := !t.listings[t.root].Failed?;
    while s.stack != [] && complete
      invariant Walking(t, s) && (complete <==> !Broken(t, s.log))
      decreases t.listings.Keys - s.claimed, Remaining(t, s.stack, s.read)
    {
      ghost var before := s;
      s, complete := Advance(t, s);
      ClaimedExist(t, s);
      assert Lower(t, s, before);
    }
    log := s.log;
  }

  // ----- what follows for the caller -----

  /** No directory is reported twice, and the root never, whatever links there are. */
  lemma EachDirectoryOnce(t: Tree, log: seq<Visit>, j: nat, k: nat, d: Dir)
    requires VisitsOk(t, log) && ReportsAt(t, log, k, d)
    ensures d != t.root && (j < k ==> !ReportsAt(t, log, j, d))
  {
    assert VisitOk(t, log, k);
    EarlierReport(t, log, j, k, d);
  }

  lemma EarlierReport(t: Tree, log: seq<Visit>, j: nat, k: nat, d: Dir)
    requires k <= |log|
    ensures j < k && ReportsAt(t, log, j, d) ==> Reports(t, log[..k], d)
  {
    assert j < k && ReportsAt(t, log, j, d) ==> ReportsAt(t, log[..k], j, d);
  }

  ghost predicate Linked(t: Tree, d: Dir, f: Dir) {
    exists i :: HasEntry(t, d, i) && EntryAt(t, d, i) == Folder(f, true)
  }

  /** The callback's answer for an entry depends on the directory it leads to. */
  ghost predicate AcceptsBy(t: Tree, ok: Dir -> bool) {
    forall d, i :: HasEntry(t, d, i) && EntryAt(t, d, i).Folder? ==> t.accepts(d, i) == ok(EntryAt(t, d, i).target)
  }

  /** A way from the root over entries, through accepted directories. */
  ghost predicate Trail(t: Tree, ok: Dir -> bool, trail: seq<Dir>) {
    && trail != [] && trail[0] == t.root
    && (forall i :: 0 < i < |trail| ==> Linked(t, trail[i - 1], trail[i]))
    && (forall i :: 0 < i < |trail| - 1 ==> trail[i] == t.root || ok(trail[i]))
  }

  ghost predicate Reachable(t: Tree, ok: Dir -> bool, d: Dir) {
    exists trail :: Trail(t, ok, trail) && trail[|trail| - 1] == d
  }

  lemma LinkIsReported(t: Tree, ok: Dir -> bool, log: seq<Visit>, d: Dir, f: Dir)
    requires VisitsOk(t, log) && AllVisited(t, log) && Entered(t, log, d) && Linked(t, d, f)
    ensures f == t.root || Reports(t, log, f)
  {
    var i :| HasEntry(t, d, i) && EntryAt(t, d, i) == Folder(f, true);
    assert Visited(log, d, i);
    var k :| 0 <= k < |log| && log[k].dir == d && log[k].index == i;
    assert VisitOk(t, log, k);
    if f != t.root && Reports(t, log[..k], f) {
      var j: nat :| ReportsAt(t, log[..k], j, f);
      assert ReportsAt(t, log, j, f);
    } else if f != t.root {
      assert ReportsAt(t, log, k, f);
    }
  }

  lemma {:induction false} TrailIsReported(t: Tree, ok: Dir -> bool, log: seq<Visit>, trail: seq<Dir>)
    requires VisitsOk(t, log) && AllVisited(t, log) && AcceptsBy(t, ok) && Trail(t, ok, trail)
    ensures var d := trail[|trail| - 1]; d == t.root || Reports(t, log, d)
  {
    var n := |trail| - 1;
    if n > 0 {
      TrailIsReported(t, ok, log, trail[..n]);
      assert Linked(t, trail[n - 1], trail[n]);
      LinkIsReported(t, ok, log, trail[n - 1], trail[n]);
    }
  }

  lemma {:induction false} ReportIsReachable(t: Tree, ok: Dir -> bool, log: seq<Visit>, k: nat, d: Dir)
    requires VisitsOk(t, log) && AcceptsBy(t, ok) && ReportsAt(t, log, k, d)
    ensures Reachable(t, ok, d)
    decreases k
  {
    assert VisitOk(t, log, k);
    var from := log[k].dir;
    if from == t.root {
      assert Trail(t, ok, [t.root]);
      TrailOneMore(t, ok, [t.root], d);
    } else {
      var j: nat :| ReportsAt(t, log[..k], j, from) && t.accepts(log[..k][j].dir, log[..k][j].index);
      assert ReportsAt(t, log, j, from);
      ReportIsReachable(t, ok, log, j, from);
      var trail :| Trail(t, ok, trail) && trail[|trail| - 1] == from;
      TrailOneMore(t, ok, trail, d);
    }
  }

  lemma TrailOneMore(t: Tree, ok: Dir -> bool, trail: seq<Dir>, d: Dir)
    requires Trail(t, ok, trail) && Linked(t, trail[|trail| - 1], d)
    requires trail[|trail| - 1] == t.root || ok(trail[|trail| - 1])
    ensures Reachable(t, ok, d)
  {
    var more := trail + [d];
    assert Trail(t, ok, more) && more[|more| - 1] == d;
  }

  /** A walk that meets no error reports exactly the directories that can be reached from
      the root through accepted ones, however links run back or meet. */
  lemma WalkReportsExactlyTheReachable(t: Tree, ok: Dir -> bool, log: seq<Visit>, d: Dir)
    requires VisitsOk(t, log) && AllVisited(t, log) && AcceptsBy(t, ok)
    ensures Reports(t, log, d) <==> d != t.root && Reachable(t, ok, d)
  {
    if Reports(t, log, d) {
      var k: nat :| ReportsAt(t, log, k, d);
      EachDirectoryOnce(t, log, k, k, d);
      ReportIsReachable(t, ok, log, k, d);
    }
    if d != t.root && Reachable(t, ok, d) {
      var trail :| Trail(t, ok, trail) && trail[|trail| - 1] == d;
      TrailIsReported(t, ok, log, trail);
    }
  }
}
