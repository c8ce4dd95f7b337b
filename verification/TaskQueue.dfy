/**
 * The in-memory task queue: a bounded FIFO list scheduler. The specification is a state with its whole
 * history and two kinds of events; the class is the program, event by event.
 */
module TaskQueue {
  import opened Prelude

  /** `executeNext` starts something unless the load is at the cap or nothing waits. */
  predicate CanStart(running: int, maxConcurrency: int, waiting: nat) {
    !(running >= maxConcurrency || waiting == 0)
  }

  /** How the execution of an async function ends. */
  datatype Completion = Returned | Threw

  /** An event carries how the executor itself ends, before any decoration. */
  datatype Event<T> = Enqueue(job: T) | Finish(slot: nat, executor: Completion)

  /**
   * `waiting` and `inFlight` are the live queue; the others record what has happened so far. rejections: calls
   * of `executeNext` that ended with an error, which nobody awaits.
   */
  datatype QueueState<T> = QueueState(waiting: seq<T>, inFlight: seq<T>,
                                      enqueued: seq<T>, started: seq<T>, completed: seq<T>, rejections: nat)

  function Empty<T>(): QueueState<T> {
    QueueState([], [], [], [], [], 0)
  }

  // The two statements that deal with errors

  /** `try { body } catch { handler }`: the handler runs only if the body throws, and then decides. */
  function TryCatch(body: Completion, handler: Completion): Completion {
    if body.Threw? then handler else body
  }

  /** `try { body } finally { block }`: the block runs in any case; if it does not throw, the body decides. */
  function TryFinally<S>(body: Completion, block: (S, Completion)): (S, Completion) {
    (block.0, if block.1.Threw? then Threw else body)
  }

  /** The executor as it is queued: an error is logged and goes no further. */
  function Decorated(executor: Completion): Completion {
    TryCatch(executor, Returned)
  }

  function ExecuteNext<T>(q: QueueState<T>, m: int): QueueState<T> {
    if CanStart(|q.inFlight|, m, |q.waiting|)
    then q.(waiting := q.waiting[1..], inFlight := q.inFlight + [q.waiting[0]], started := q.started + [q.waiting[0]])
    else q
  }

  function Without<T>(s: seq<T>, i: nat): seq<T>
    requires i < |s|
  {
    s[..i] + s[i + 1..]
  }

  /** The `finally` block of `executeNext`: the slot is given back, and a job is started that nobody awaits. */
  function GiveBack<T>(q: QueueState<T>, m: int, slot: nat): (QueueState<T>, Completion)
    requires slot < |q.inFlight|
  {
    (ExecuteNext(q.(inFlight := Without(q.inFlight, slot), completed := q.completed + [q.inFlight[slot]]), m), Returned)
  }

  /** The rest of a call of `executeNext` once the function it awaits has ended. */
  function AfterAwait<T>(q: QueueState<T>, m: int, slot: nat, awaited: Completion): QueueState<T>
    requires slot < |q.inFlight|
  {
    var (q', completion) := TryFinally(awaited, GiveBack(q, m, slot));
    q'.(rejections := q'.rejections + (if completion.Threw? then 1 else 0))
  }

  function Arrive<T>(q: QueueState<T>, m: int, job: T): QueueState<T> {
    ExecuteNext(q.(waiting := q.waiting + [job], enqueued := q.enqueued + [job]), m)
  }

  /** A `Finish` of a slot that does not exist is not an event of the system and changes nothing. */
  function Step<T>(q: QueueState<T>, m: int, e: Event<T>): QueueState<T> {
    match e
    case Enqueue(job) => Arrive(q, m, job)
    case Finish(slot, executor) =>
      if slot < |q.inFlight| then AfterAwait(q, m, slot, Decorated(executor)) else q
  }

  function After<T>(m: int, events: seq<Event<T>>): QueueState<T> {
    if events == [] then Empty()
    else Step(After(m, events[..|events| - 1]), m, events[|events| - 1])
  }

  /** What every event keeps. */
  ghost predicate Inv<T>(q: QueueState<T>, m: int) {
    && q.enqueued == q.started + q.waiting
    && multiset(q.started) == multiset(q.inFlight) + multiset(q.completed)
    && |q.inFlight| <= Max(0, m)
    && (q.waiting != [] ==> |q.inFlight| >= m)
    && q.rejections == 0
  }

  /** What holds between the bookkeeping of an event and its call of `executeNext`: at most one slot is idle. */
  ghost predicate AlmostInv<T>(q: QueueState<T>, m: int) {
    && q.enqueued == q.started + q.waiting
    && multiset(q.started) == multiset(q.inFlight) + multiset(q.completed)
    && |q.inFlight| <= Max(0, m)
    && (|q.waiting| > 1 ==> |q.inFlight| + 1 >= m)
    && q.rejections == 0
  }

  lemma ExecuteNextRestores<T>(q: QueueState<T>, m: int)
    requires AlmostInv(q, m)
    requires q.waiting == [] || |q.inFlight| + 1 >= m || |q.waiting| == 1
    ensures Inv(ExecuteNext(q, m), m)
  {
    if CanStart(|q.inFlight|, m, |q.waiting|) {
      assert q.started + q.waiting == (q.started + [q.waiting[0]]) + q.waiting[1..];
    }
  }

  lemma RemoveCounts<T>(s: seq<T>, i: nat)
    requires i < |s|
    ensures multiset(s) == multiset(Without(s, i)) + multiset{s[i]}
    ensures |Without(s, i)| == |s| - 1
  {
    assert s == s[..i] + [s[i]] + s[i + 1..];
  }

  lemma ArriveKeepsInv<T>(q: QueueState<T>, m: int, job: T)
    requires Inv(q, m)
    ensures Inv(Arrive(q, m, job), m)
  {
    assert (q.started + q.waiting) + [job] == q.started + (q.waiting + [job]);
    ExecuteNextRestores(q.(waiting := q.waiting + [job], enqueued := q.enqueued + [job]), m);
  }

  lemma GiveBackKeepsInv<T>(q: QueueState<T>, m: int, slot: nat)
    requires Inv(q, m) && slot < |q.inFlight|
    ensures Inv(GiveBack(q, m, slot).0, m)
  {
    hide Without;
    RemoveCounts(q.inFlight, slot);
    ExecuteNextRestores(q.(inFlight := Without(q.inFlight, slot), completed := q.completed + [q.inFlight[slot]]), m);
  }

  lemma StepKeepsInv<T>(q: QueueState<T>, m: int, e: Event<T>)
    requires Inv(q, m)
    ensures Inv(Step(q, m, e), m)
  {
    hide Arrive, ExecuteNext;
    match e
    case Enqueue(job) => ArriveKeepsInv(q, m, job);
    case Finish(slot, _) =>
      if slot < |q.inFlight| {
        GiveBackKeepsInv(q, m, slot);
      }
  }

  lemma {:induction false} InvAlways<T>(m: int, events: seq<Event<T>>)
    ensures Inv(After(m, events), m)
  {
    if events != [] {
      InvAlways(m, events[..|events| - 1]);
      StepKeepsInv(After(m, events[..|events| - 1]), m, events[|events| - 1]);
    }
  }

  /** The closed form of the number of started jobs, for every integer cap and every sequence of events. */
  lemma {:induction false} CountLaw<T>(m: int, events: seq<Event<T>>)
    ensures var q := After(m, events);
            |q.started| == Min(|q.enqueued|, |q.completed| + Max(0, m))
  {
    InvAlways(m, events);
    var q := After(m, events);
    assert |multiset(q.started)| == |q.started|;
    assert |multiset(q.inFlight)| == |q.inFlight| && |multiset(q.completed)| == |q.completed|;
  }

  /** The cap is never exceeded, and no slot idles while something waits. */
  lemma {:induction false} BoundedAndWorkConserving<T>(m: int, events: seq<Event<T>>)
    ensures var q := After(m, events);
            && |q.inFlight| <= Max(0, m)
            && (m >= 0 && |q.inFlight| < m ==> q.waiting == [])
  {
    InvAlways(m, events);
  }

  /** FIFO: jobs start in the order in which they came, the rest still waits, and nothing is lost or started twice. */
  lemma {:induction false} FifoAndConservation<T>(m: int, events: seq<Event<T>>)
    ensures var q := After(m, events);
            && q.started <= q.enqueued
            && q.waiting == q.enqueued[|q.started|..]
            && multiset(q.enqueued) == multiset(q.completed) + multiset(q.inFlight) + multiset(q.waiting)
  {
    InvAlways(m, events);
  }

  function Forgiven<T>(e: Event<T>): Event<T> {
    if e.Finish? then Finish(e.slot, Returned) else e
  }

  lemma ForgivenStep<T>(q: QueueState<T>, m: int, e: Event<T>)
    ensures Step(q, m, Forgiven(e)) == Step(q, m, e)
  {
  }

  lemma CalmPrefix<T>(events: seq<Event<T>>)
    requires events != []
    ensures var n := |events| - 1;
            var calm := seq(|events|, i requires 0 <= i < |events| => Forgiven(events[i]));
            calm[..n] == seq(n, i requires 0 <= i < n => Forgiven(events[..n][i])) && calm[n] == Forgiven(events[n])
  {
  }

  /**
   * Whatever the executors do, no call of `executeNext` ends with an error, and the whole run is the one in
   * which they all return.
   */
  lemma {:induction false} FailureTolerant<T>(m: int, events: seq<Event<T>>)
    ensures After(m, events).rejections == 0
    ensures After(m, events) == After(m, seq(|events|, i requires 0 <= i < |events| => Forgiven(events[i])))
  {
    InvAlways(m, events);
    var calm := seq(|events|, i requires 0 <= i < |events| => Forgiven(events[i]));
    if events != [] {
      var n := |events| - 1;
      hide Inv, Step, Forgiven;
      FailureTolerant(m, events[..n]);
      CalmPrefix(events);
      ForgivenStep(After(m, events[..n]), m, events[n]);
    }
  }

  // What the decoration is for

  /** The queue with executors that are queued as they are. */
  function BareStep<T>(q: QueueState<T>, m: int, e: Event<T>): QueueState<T> {
    match e
    case Enqueue(job) => Arrive(q, m, job)
    case Finish(slot, executor) => if slot < |q.inFlight| then AfterAwait(q, m, slot, executor) else q
  }

  function BareAfter<T>(m: int, events: seq<Event<T>>): QueueState<T> {
    if events == [] then Empty()
    else BareStep(BareAfter(m, events[..|events| - 1]), m, events[|events| - 1])
  }

  /** How many executors have thrown. */
  function Errors<T>(m: int, events: seq<Event<T>>): nat {
    if events == [] then 0
    else
      var n := |events| - 1;
      var e := events[n];
      var slots := |After(m, events[..n]).inFlight|;
      Errors(m, events[..n]) + (if e.Finish? && e.slot < slots && e.executor.Threw? then 1 else 0)
  }

  lemma BareStepRejects<T>(q: QueueState<T>, k: nat, m: int, e: Event<T>)
    ensures var more := if e.Finish? && e.slot < |q.inFlight| && e.executor.Threw? then 1 else 0;
            BareStep(q.(rejections := q.rejections + k), m, e) ==
            Step(q, m, e).(rejections := Step(q, m, e).rejections + k + more)
  {
  }

  /**
   * Without it the slots would still be given back, by the `finally` block alone, but every error of an
   * executor would become an unhandled rejection.
   */
  lemma {:induction false} BareQueueRejects<T>(m: int, events: seq<Event<T>>)
    ensures BareAfter(m, events) == After(m, events).(rejections := Errors(m, events))
  {
    FailureTolerant(m, events);
    if events != [] {
      hide Step, BareStep;
      var n := |events| - 1;
      FailureTolerant(m, events[..n]);
      BareQueueRejects(m, events[..n]);
      BareStepRejects(After(m, events[..n]), Errors(m, events[..n]), m, events[n]);
    }
  }

  /**
   * The module-level `queue` array and `running` counter. A job stands for its decorated executor
   * function; the executors awaited at the moment are `awaited`.
   */
  class InMemoryTaskQueue<T> {
    var queue: seq<T>
    var running: int
    const maxConcurrency: int
    ghost var history: QueueState<T>

    ghost predicate Valid()
      reads this
    {
      && history.waiting == queue
      && running == |history.inFlight|
      && Inv(history, maxConcurrency)
    }

    constructor (maxConcurrency: int)
      ensures Valid() && this.maxConcurrency == maxConcurrency && history == Empty()
    {
      this.maxConcurrency := maxConcurrency;
      queue, running := [], 0;
      history := Empty();
    }

    /** `executeNext` up to its first await: the job that is started, if any. */
    method StartNext() returns (next: Option<T>)
      requires history.waiting == queue && running == |history.inFlight|
      modifies this
      ensures history == ExecuteNext(old(history), maxConcurrency)
      ensures history.waiting == queue && running == |history.inFlight|
      ensures next.Some? <==> CanStart(old(running), maxConcurrency, |old(queue)|)
      ensures running == old(running) + (if next.Some? then 1 else 0)
      ensures (if next.Some? then [next.value] else []) + queue == old(queue)
    {
      if running >= maxConcurrency || |queue| == 0 {
        return None;
      }
      next := Some(queue[0]);
      queue := queue[1..];
      running := running + 1;
      history := ExecuteNext(history, maxConcurrency);
    }

    method Add(job: T) returns (next: Option<T>)
      requires Valid()
      modifies this
      ensures Valid() && history == Step(old(history), maxConcurrency, Enqueue(job))
      ensures (if next.Some? then [next.value] else []) + queue == old(queue) + [job]
    {
      hide Inv, CanStart, ExecuteNext;
      StepKeepsInv(history, maxConcurrency, Enqueue(job));
      queue := queue + [job];
      history := history.(waiting := history.waiting + [job], enqueued := history.enqueued + [job]);
      next := StartNext();
    }

    /** The decorated executor: the `catch` clause logs the error, which is left out here. */
    method CallDecorated(executor: Completion) returns (completion: Completion)
      ensures completion == Returned
    {
      completion := executor;
      if completion.Threw? {
        completion := Returned;
      }
    }

    /**
     * The rest of `executeNext` once the function it awaits has returned or thrown: the `finally` block is
     * executed on both ways, and the call then ends as the function did.
     */
    method Settle(ghost slot: nat, awaited: Completion) returns (next: Option<T>, completion: Completion)
      requires slot < |history.inFlight| && history.waiting == queue && running == |history.inFlight|
      modifies this
      ensures history == AfterAwait(old(history), maxConcurrency, slot, awaited)
      ensures history.waiting == queue && running == |history.inFlight|
      ensures completion == awaited
      ensures running == old(running) - (if next.Some? then 0 else 1)
      ensures (if next.Some? then [next.value] else []) + queue == old(queue)
    {
      hide CanStart, ExecuteNext, Without;
      RemoveCounts(history.inFlight, slot);
      running := running - 1;
      history := history.(inFlight := Without(history.inFlight, slot),
                          completed := history.completed + [history.inFlight[slot]]);
      next := StartNext();
      completion := awaited;
      history := history.(rejections := history.rejections + (if completion.Threw? then 1 else 0));
    }

    /** A whole execution: whichever way the executor ends, the slot is given back and no error gets out. */
    method Finished(ghost slot: nat, executor: Completion) returns (next: Option<T>, completion: Completion)
      requires Valid() && slot < |history.inFlight|
      modifies this
      ensures Valid() && history == Step(old(history), maxConcurrency, Finish(slot, executor))
      ensures completion == Returned
      ensures running == old(running) - (if next.Some? then 0 else 1)
      ensures (if next.Some? then [next.value] else []) + queue == old(queue)
    {
      StepKeepsInv(history, maxConcurrency, Finish(slot, executor));
      hide Inv, AfterAwait;
      var awaited := CallDecorated(executor);
      assert awaited == Decorated(executor);
      next, completion := Settle(slot, awaited);
    }
  }
}
