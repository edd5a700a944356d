/** Deferred calls as interleaved steps of any number of producers and the main
    loop: a queue under a mutex, and a non-blocking wake pipe. */
module WakeModel {

  type Producer = nat
  type Job = int

  const READ_SIZE := 64

  /** Where the main loop is: waiting in poll, draining the pipe, about to take the
      queue, or running what it took. */
  datatype Consumer = Sleeping | Draining | Taking | Running(batch: seq<Job>)

  datatype State = State(
    queue: seq<Job>,
    pipe: nat,                // bytes in the pipe
    capacity: nat,
    owing: set<Producer>,     // have pushed and not yet written their wake byte
    consumer: Consumer,
    log: Log)

  datatype Log = Log(pushed: seq<Job>, run: seq<Job>)

  datatype Step =
    | Push(p: Producer, job: Job)  // the first critical section of callLater
    | WriteByte(p: Producer)       // the write succeeds
    | WriteFull(p: Producer)       // EAGAIN: the pipe is full
    | WriteAgain(p: Producer)      // EINTR: the write is tried again
    | PollReady                    // poll reports the pipe readable, dispatch starts
    | PollNotReady                 // dispatch starts without draining
    | ReadBytes(n: nat)
    | ReadAgain                    // EINTR
    | ReadEmpty                    // EAGAIN, or any other error
    | Take                         // the critical section of takePending
    | RunOne
    | BatchDone

  predicate Enabled(s: State, step: Step) {
    match step
    case Push(p, _) => p !in s.owing
    case WriteByte(p) => p in s.owing && s.pipe < s.capacity
    case WriteFull(p) => p in s.owing && s.pipe == s.capacity
    case WriteAgain(p) => p in s.owing
    case PollReady => s.consumer.Sleeping? && s.pipe > 0
    case PollNotReady => s.consumer.Sleeping?
    case ReadBytes(n) => s.consumer.Draining? && 0 < n <= s.pipe && n <= READ_SIZE
    case ReadAgain => s.consumer.Draining?
    case ReadEmpty => s.consumer.Draining?
    case Take => s.consumer.Taking?
    case RunOne => s.consumer.Running? && s.consumer.batch != []
    case BatchDone => s.consumer == Running([])
  }

  function Apply(s: State, step: Step): State
    requires Enabled(s, step)
  {
    match step
    case Push(p, job) =>
      s.(queue := s.queue + [job], owing := s.owing + {p}, log := s.log.(pushed := s.log.pushed + [job]))
    case WriteByte(p) => s.(pipe := s.pipe + 1, owing := s.owing - {p})
    case WriteFull(p) => s.(owing := s.owing - {p})
    case WriteAgain(p) => s
    case PollReady => s.(consumer := Draining)
    case PollNotReady => s.(consumer := Taking)
    case ReadBytes(n) => s.(pipe := s.pipe - n)
    case ReadAgain => s
    case ReadEmpty => s.(consumer := Taking)
    case Take => s.(queue := [], consumer := Running(s.queue))
    case RunOne =>
      s.(consumer := Running(s.consumer.batch[1..]), log := s.log.(run := s.log.run + [s.consumer.batch[0]]))
    case BatchDone => s.(consumer := Sleeping)
  }

  predicate Legal(s: State, steps: seq<Step>)
    decreases |steps|
  {
    steps == [] || (Enabled(s, steps[0]) && Legal(Apply(s, steps[0]), steps[1..]))
  }

  function Run(s: State, steps: seq<Step>): State
    requires Legal(s, steps)
    decreases |steps|
  {
    if steps == [] then s else Run(Apply(s, steps[0]), steps[1..])
  }

  function Initial(capacity: nat): State {
    State([], 0, capacity, {}, Sleeping, Log([], []))
  }

  function Batch(s: State): seq<Job> { if s.consumer.Running? then s.consumer.batch else [] }

  /** Every push is accounted for, once and in order. */
  predicate Accounted(s: State) { s.log.pushed == s.log.run + Batch(s) + s.queue }

  /** A non-empty queue will be seen: by a byte in the pipe, by a byte still owed,
      or by a consumer that takes the queue before it sleeps. */
  predicate Awake(s: State) {
    s.queue != [] ==> s.pipe > 0 || s.owing != {} || s.consumer.Draining? || s.consumer.Taking?
  }

  predicate Invariant(s: State) { 0 < s.capacity && s.pipe <= s.capacity && Accounted(s) && Awake(s) }

  lemma {:induction false} RunKeeps(s: State, steps: seq<Step>)
    requires Invariant(s) && Legal(s, steps)
    ensures Invariant(Run(s, steps))
    decreases |steps|
  {
    if steps != [] {
      RunKeeps(Apply(s, steps[0]), steps[1..]);
    }
  }

  lemma {:induction false} RunOn(s: State, xs: seq<Step>, ys: seq<Step>)
    requires Legal(s, xs) && Legal(Run(s, xs), ys)
    ensures Legal(s, xs + ys) && Run(s, xs + ys) == Run(Run(s, xs), ys)
    decreases |xs|
  {
    if xs == [] {
      assert xs + ys == ys;
    } else {
      assert (xs + ys)[1..] == xs[1..] + ys;
      RunOn(Apply(s, xs[0]), xs[1..], ys);
    }
  }

  // ----- main results -----

  /** No lost wakeup: in every interleaving, the main loop waits on a non-empty queue
      only while poll would return at once or some producer still owes its byte. */
  lemma NoLostWakeup(capacity: nat, steps: seq<Step>)
    requires capacity > 0 && Legal(Initial(capacity), steps)
    ensures var s := Run(Initial(capacity), steps);
      s.consumer.Sleeping? && s.queue != [] ==> Enabled(s, PollReady) || s.owing != {}
  {
    RunKeeps(Initial(capacity), steps);
  }

  /** Exactly once and in order: the calls run, the batch in hand and the queue are
      together the pushes, in the order the mutex admitted them. */
  lemma ExactlyOnceInOrder(capacity: nat, steps: seq<Step>)
    requires capacity > 0 && Legal(Initial(capacity), steps)
    ensures var s := Run(Initial(capacity), steps);
      s.log.pushed == s.log.run + Batch(s) + s.queue
  {
    RunKeeps(Initial(capacity), steps);
  }

  predicate ConsumerStep(step: Step) {
    !step.Push? && !step.WriteByte? && !step.WriteFull? && !step.WriteAgain?
  }

  predicate ConsumerOnly(steps: seq<Step>) { forall k :: 0 <= k < |steps| ==> ConsumerStep(steps[k]) }

  /** A way for the main loop to go on by itself from state s, ending asleep. */
  function Onward(s: State): seq<Step>
    requires Invariant(s) && s.owing == {}
    decreases if s.consumer.Sleeping? then (if s.queue == [] then 0 else 4) else
              if s.consumer.Draining? then 3 else if s.consumer.Taking? then 2 else if s.queue == [] then 1 else 5,
              s.pipe + |Batch(s)|
  {
    var step :=
      match s.consumer
      case Sleeping => PollReady
      case Draining => if s.pipe > 0 then ReadBytes(if s.pipe <= READ_SIZE then s.pipe else READ_SIZE) else ReadEmpty
      case Taking => Take
      case Running(batch) => if batch == [] then BatchDone else RunOne;
    if s.consumer.Sleeping? && s.queue == [] then []
    else
      [step] + Onward(Apply(s, step))
  }

  /** Once the producers have finished, the main loop by itself runs every call pushed. */
  lemma {:induction false} EverythingRuns(s: State)
    requires Invariant(s) && s.owing == {}
    ensures Legal(s, Onward(s)) && ConsumerOnly(Onward(s))
    ensures Run(s, Onward(s)).consumer.Sleeping? && Run(s, Onward(s)).log.run == s.log.pushed
    decreases if s.consumer.Sleeping? then (if s.queue == [] then 0 else 4) else
              if s.consumer.Draining? then 3 else if s.consumer.Taking? then 2 else if s.queue == [] then 1 else 5,
              s.pipe + |Batch(s)|
  {
    if s.consumer.Sleeping? && s.queue == [] {
      assert s.log.run + [] + [] == s.log.run;
    } else {
      var step := Onward(s)[0];
      EverythingRuns(Apply(s, step));
      assert Onward(s)[1..] == Onward(Apply(s, step));
    }
  }

  /** A producer that has pushed is never stuck: it can write its byte, or finds the pipe full,
      and either way owes nothing afterwards; a byte written is in the pipe. */
  lemma WriterFinishes(s: State, p: Producer)
    requires s.pipe <= s.capacity && p in s.owing
    ensures Enabled(s, WriteByte(p)) || Enabled(s, WriteFull(p))
    ensures Enabled(s, WriteByte(p)) ==>
      p !in Apply(s, WriteByte(p)).owing && Apply(s, WriteByte(p)).pipe == s.pipe + 1
    ensures Enabled(s, WriteFull(p)) ==> p !in Apply(s, WriteFull(p)).owing && s.pipe == s.capacity
  {
  }

  /** Nor is a main loop that sleeps: it can go on to take the queue with or without a wake-up. */
  lemma SleeperTakes(s: State)
    requires s.consumer.Sleeping?
    ensures Enabled(s, PollNotReady) && Apply(s, PollNotReady) == s.(consumer := Taking)
    ensures s.pipe > 0 ==> Enabled(s, PollReady) && Apply(s, PollReady) == s.(consumer := Draining)
    ensures Apply(s.(consumer := Taking), Take) == s.(queue := [], consumer := Running(s.queue))
  {
  }
}
