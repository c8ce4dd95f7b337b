/**
 * The queue with a clock. Jobs 0..n-1 are enqueued together at time 0; an executor of job j settles
 * d[j] after it started. Time passes freely between events, but never past the end of a job in flight.
 */
module ListSchedule {
  import opened Prelude
  import opened TaskQueue

  /** `start[j]` is when job j started; jobs start in order, so `start` only grows. */
  datatype Timed = Timed(now: real, q: QueueState<nat>, start: seq<real>)

  datatype Move = Advance(delta: real) | Settle(slot: nat)

  function End(d: seq<real>, t: Timed, j: nat): real
    requires j < |t.start| && j < |d|
  {
    t.start[j] + d[j]
  }

  /** The state of the queue after an event at the present time: newly started jobs start now. */
  function Happen(t: Timed, m: int, e: Event<nat>): Timed {
    var q := Step(t.q, m, e);
    Timed(t.now, q, t.start + seq(Max(0, |q.started| - |t.start|), _ => t.now))
  }

  function Batch(m: int, n: nat): Timed {
    if n == 0 then Timed(0.0, Empty(), []) else Happen(Batch(m, n - 1), m, Enqueue(n - 1))
  }

  predicate Clocked(d: seq<real>, t: Timed, flying: seq<nat>) {
    forall i :: 0 <= i < |flying| ==> flying[i] < |t.start| && flying[i] < |d|
  }

  /** All started jobs have a start time and a duration. */
  predicate Consistent(d: seq<real>, t: Timed) {
    |t.start| == |t.q.started| <= |d| && Clocked(d, t, t.q.inFlight)
  }

  /** No job of `flying` should have ended before `now`. */
  predicate Unfinished(d: seq<real>, t: Timed, flying: seq<nat>, now: real)
    requires Clocked(d, t, flying)
  {
    forall i :: 0 <= i < |flying| ==> now <= End(d, t, flying[i])
  }

  predicate Possible(d: seq<real>, t: Timed, move: Move)
    requires Consistent(d, t)
  {
    match move
    case Advance(delta) => delta >= 0.0 && Unfinished(d, t, t.q.inFlight, t.now + delta)
    case Settle(slot) => slot < |t.q.inFlight| && End(d, t, t.q.inFlight[slot]) <= t.now
  }

  function Perform(m: int, t: Timed, move: Move): Timed {
    match move
    case Advance(delta) => t.(now := t.now + delta)
    case Settle(slot) => Happen(t, m, Finish(slot, Returned))
  }

  /** The run of a batch under a sequence of moves; impossible moves do not happen. */
  function Timeline(d: seq<real>, m: int, moves: seq<Move>): Timed {
    if moves == [] then Batch(m, |d|)
    else
      var t := Timeline(d, m, moves[..|moves| - 1]);
      var move := moves[|moves| - 1];
      if Consistent(d, t) && Possible(d, t, move) then Perform(m, t, move) else t
  }

  function Work(d: seq<real>, k: nat): real
    requires k <= |d|
  {
    if k == 0 then 0.0 else Work(d, k - 1) + d[k - 1]
  }

  /** The work that the jobs in flight still have to do. */
  function Remaining(d: seq<real>, t: Timed, flying: seq<nat>): real
    requires Clocked(d, t, flying)
  {
    if flying == [] then 0.0
    else Remaining(d, t, flying[..|flying| - 1]) + (End(d, t, flying[|flying| - 1]) - t.now)
  }

  ghost predicate InOrder(t: Timed, n: nat) {
    |t.q.enqueued| == n && forall i :: 0 <= i < n ==> t.q.enqueued[i] == i
  }

  /**
   * While something waits, all m slots are busy and have been busy since time 0, so the work started so
   * far is what m slots have done plus what is left in flight.
   */
  ghost predicate TimedInv(d: seq<real>, m: int, n: nat, t: Timed) {
    && n <= |d|
    && Inv(t.q, m) && InOrder(t, n) && Consistent(d, t) && t.now >= 0.0
    && Unfinished(d, t, t.q.inFlight, t.now)
    && (t.q.waiting != [] || t.now == 0.0 ==>
          Work(d, |t.start|) == (m as real) * t.now + Remaining(d, t, t.q.inFlight))
    && (forall k :: 0 <= k < |t.start| ==> (m as real) * t.start[k] <= Work(d, k))
  }

  lemma StartedAreFirst(d: seq<real>, t: Timed, m: int, n: nat)
    requires Inv(t.q, m) && InOrder(t, n)
    ensures forall k :: 0 <= k < |t.q.started| ==> t.q.started[k] == k
    ensures forall k :: 0 <= k < |t.q.waiting| ==> t.q.waiting[k] == |t.q.started| + k
    ensures |t.q.started| + |t.q.waiting| == n
  {
    assert t.q.enqueued == t.q.started + t.q.waiting;
    forall k | 0 <= k < |t.q.waiting| ensures t.q.waiting[k] == |t.q.started| + k {
      assert t.q.enqueued[|t.q.started| + k] == t.q.waiting[k];
    }
    forall k | 0 <= k < |t.q.started| ensures t.q.started[k] == k {
      assert t.q.enqueued[k] == t.q.started[k];
    }
  }

  lemma {:induction false} RemainingStays(d: seq<real>, t: Timed, t': Timed, flying: seq<nat>)
    requires Clocked(d, t, flying)
    requires t.start <= t'.start && t.now == t'.now
    ensures Remaining(d, t', flying) == Remaining(d, t, flying)
  {
    if flying != [] {
      RemainingStays(d, t, t', flying[..|flying| - 1]);
    }
  }

  lemma {:induction false} RemainingAfter(d: seq<real>, t: Timed, delta: real, flying: seq<nat>)
    requires Clocked(d, t, flying)
    ensures Remaining(d, t.(now := t.now + delta), flying) == Remaining(d, t, flying) - (|flying| as real) * delta
  {
    if flying != [] {
      var n := |flying| - 1;
      RemainingAfter(d, t, delta, flying[..n]);
      assert (|flying| as real) * delta == (n as real) * delta + delta;
    }
  }

  lemma {:induction false} RemainingWithout(d: seq<real>, t: Timed, flying: seq<nat>, i: nat)
    requires i < |flying| && Clocked(d, t, flying)
    ensures Clocked(d, t, Without(flying, i))
    ensures Remaining(d, t, flying) == Remaining(d, t, Without(flying, i)) + (End(d, t, flying[i]) - t.now)
    decreases |flying|
  {
    var n := |flying| - 1;
    var rest := Without(flying, i);
    if i < n {
      RemainingWithout(d, t, flying[..n], i);
      assert rest[..n - 1] == Without(flying[..n], i);
      assert rest[n - 1] == flying[n];
    } else {
      assert rest == flying[..n];
    }
  }

  lemma {:induction false} RemainingNonNegative(d: seq<real>, t: Timed, flying: seq<nat>)
    requires Clocked(d, t, flying) && Unfinished(d, t, flying, t.now)
    ensures Remaining(d, t, flying) >= 0.0
  {
    if flying != [] {
      RemainingNonNegative(d, t, flying[..|flying| - 1]);
    }
  }

  // The batch: everything that starts, starts at 0

  /** Job k = |start| is started at the present time, next to `flying`. */
  lemma StartOne(d: seq<real>, t: Timed, t': Timed, flying: seq<nat>)
    requires Clocked(d, t, flying) && Unfinished(d, t, flying, t.now)
    requires |t.start| < |d| && d[|t.start|] >= 0.0
    requires t'.now == t.now && t'.start == t.start + [t.now]
    ensures Clocked(d, t', flying + [|t.start|]) && Unfinished(d, t', flying + [|t.start|], t.now)
    ensures Remaining(d, t', flying + [|t.start|]) == Remaining(d, t, flying) + d[|t.start|]
    ensures Remaining(d, t, flying) >= 0.0
  {
    var more := flying + [|t.start|];
    RemainingStays(d, t, t', flying);
    RemainingNonNegative(d, t, flying);
    assert more[..|flying|] == flying;
    forall i | 0 <= i < |more| ensures t.now <= End(d, t', more[i]) {
      if i < |flying| {
        assert t.now <= End(d, t, flying[i]);
      }
    }
  }

  /** Starting the next job keeps the balance, and fixes its start time within the bound. */
  lemma StartBalance(d: seq<real>, m: int, t: Timed, flying: seq<nat>)
    requires |t.start| < |d| && Clocked(d, t, flying) && Remaining(d, t, flying) >= 0.0
    requires Work(d, |t.start|) == (m as real) * t.now + Remaining(d, t, flying)
    ensures (m as real) * t.now <= Work(d, |t.start|)
    ensures Work(d, |t.start| + 1) == (m as real) * t.now + (Remaining(d, t, flying) + d[|t.start|])
  {
  }

  lemma StartTimes(d: seq<real>, m: int, start: seq<real>, now: real)
    requires |start| < |d| && (forall k :: 0 <= k < |start| ==> (m as real) * start[k] <= Work(d, k))
    requires (m as real) * now <= Work(d, |start|)
    ensures forall k :: 0 <= k < |start| + 1 ==> (m as real) * (start + [now])[k] <= Work(d, k)
  {
  }

  lemma AddOne(d: seq<real>, m: int, n: nat, t: Timed)
    requires TimedInv(d, m, n, t) && t.now == 0.0 && n < |d| && (forall j :: 0 <= j < |d| ==> d[j] >= 0.0)
    ensures TimedInv(d, m, n + 1, Happen(t, m, Enqueue(n))) && Happen(t, m, Enqueue(n)).now == 0.0
  {
    hide Work, Remaining, Inv;
    var t', e, k := Happen(t, m, Enqueue(n)), Enqueue(n), |t.start|;
    StepKeepsInv(t.q, m, e);
    StartedAreFirst(d, t, m, n);
    assert InOrder(t', n + 1);
    if t'.q.started == t.q.started {
      assert t'.start == t.start && t'.q.inFlight == t.q.inFlight;
      RemainingStays(d, t, t', t.q.inFlight);
    } else {
      assert (t.q.waiting + [n])[0] == k;
      assert t'.q.inFlight == t.q.inFlight + [k] && t'.start == t.start + [t.now];
      StartOne(d, t, t', t.q.inFlight);
      StartBalance(d, m, t, t.q.inFlight);
      StartTimes(d, m, t.start, t.now);
    }
  }

  lemma EmptyTimed(d: seq<real>, m: int)
    ensures TimedInv(d, m, 0, Timed(0.0, Empty(), []))
  {
  }

  lemma {:induction false} BatchOk(d: seq<real>, m: int, n: nat)
    requires n <= |d| && (forall j :: 0 <= j < |d| ==> d[j] >= 0.0)
    ensures TimedInv(d, m, n, Batch(m, n)) && Batch(m, n).now == 0.0
  {
    hide TimedInv, Happen;
    if n == 0 {
      EmptyTimed(d, m);
    } else {
      BatchOk(d, m, n - 1);
      AddOne(d, m, n - 1, Batch(m, n - 1));
    }
  }

  // Time and events

  lemma AdvanceKeeps(d: seq<real>, m: int, n: nat, t: Timed, delta: real)
    requires m >= 1 && TimedInv(d, m, n, t) && Possible(d, t, Advance(delta))
    ensures TimedInv(d, m, n, t.(now := t.now + delta))
  {
    RemainingAfter(d, t, delta, t.q.inFlight);
    if t.q.waiting != [] {
      assert |t.q.inFlight| == m;
      assert (m as real) * (t.now + delta) == (m as real) * t.now + (m as real) * delta;
    }
  }

  lemma SettleKeeps(d: seq<real>, m: int, n: nat, t: Timed, slot: nat)
    requires m >= 1 && TimedInv(d, m, n, t) && Possible(d, t, Settle(slot))
    requires forall j :: 0 <= j < |d| ==> d[j] >= 0.0
    ensures TimedInv(d, m, n, Happen(t, m, Finish(slot, Returned)))
  {
    hide Work, Remaining, Inv;
    var t', e, k := Happen(t, m, Finish(slot, Returned)), Finish(slot, Returned), |t.start|;
    var rest := Without(t.q.inFlight, slot);
    StepKeepsInv(t.q, m, e);
    StartedAreFirst(d, t, m, n);
    RemainingWithout(d, t, t.q.inFlight, slot);
    FullWhileWaiting(t.q, m);
    assert InOrder(t', n);
    if t.q.waiting == [] {
      assert t'.start == t.start && t'.q.inFlight == rest;
      RemainingStays(d, t, t', rest);
    } else {
      assert t'.q.inFlight == rest + [k] && t'.start == t.start + [t.now];
      StartOne(d, t, t', rest);
      StartBalance(d, m, t, rest);
      StartTimes(d, m, t.start, t.now);
    }
  }

  lemma FullWhileWaiting(q: QueueState<nat>, m: int)
    requires m >= 1 && Inv(q, m)
    ensures |q.inFlight| <= m && (q.waiting != [] ==> |q.inFlight| == m)
  {
  }

  lemma {:induction false} TimelineOk(d: seq<real>, m: int, moves: seq<Move>)
    requires m >= 1 && (forall j :: 0 <= j < |d| ==> d[j] >= 0.0)
    ensures TimedInv(d, m, |d|, Timeline(d, m, moves))
  {
    if moves == [] {
      BatchOk(d, m, |d|);
    } else {
      var t, move := Timeline(d, m, moves[..|moves| - 1]), moves[|moves| - 1];
      TimelineOk(d, m, moves[..|moves| - 1]);
      if Possible(d, t, move) {
        match move
        case Advance(delta) => AdvanceKeeps(d, m, |d|, t, delta);
        case Settle(slot) => SettleKeeps(d, m, |d|, t, slot);
      }
    }
  }

  lemma DivideBound(m: int, x: real, y: real)
    requires m >= 1 && (m as real) * x <= y
    ensures x <= y / (m as real)
  {
    var r := m as real;
    assert y / r * r == y;
    if x > y / r {
      assert r * x > r * (y / r);
    }
  }

  lemma TimelineFacts(d: seq<real>, m: int, moves: seq<Move>, k: nat)
    requires m >= 1 && (forall j :: 0 <= j < |d| ==> d[j] >= 0.0)
    requires k < |Timeline(d, m, moves).start|
    ensures k < |d| && Consistent(d, Timeline(d, m, moves))
    ensures (m as real) * Timeline(d, m, moves).start[k] <= Work(d, k)
  {
    hide Timeline, Inv, Remaining, Work;
    TimelineOk(d, m, moves);
  }

  lemma {:induction false} WorkGrows(d: seq<real>, i: nat, k: nat)
    requires i <= k <= |d| && (forall j :: 0 <= j < |d| ==> d[j] >= 0.0)
    ensures Work(d, i) <= Work(d, k)
  {
    if i < k {
      WorkGrows(d, i, k - 1);
    }
  }

  /** As long as job k waits, m slots have not done more than the work before it. */
  lemma WaitingMeansBusy(d: seq<real>, m: int, n: nat, t: Timed, k: nat)
    requires TimedInv(d, m, n, t) && |t.start| <= k < n && (forall j :: 0 <= j < |d| ==> d[j] >= 0.0)
    ensures (m as real) * t.now <= Work(d, k)
  {
    hide Work, Remaining, Inv;
    StartedAreFirst(d, t, m, n);
    RemainingNonNegative(d, t, t.q.inFlight);
    WorkGrows(d, |t.start|, k);
  }

  /**
   * Job k starts no later than the work before it divided among the m slots: when that time has passed it has
   * started, and not after that time.
   */
  lemma {:induction false} StartBound(d: seq<real>, m: int, moves: seq<Move>, k: nat)
    requires m >= 1 && k < |d| && (forall j :: 0 <= j < |d| ==> d[j] >= 0.0)
    ensures var t, bound := Timeline(d, m, moves), Work(d, k) / (m as real);
            && (k < |t.start| ==> t.start[k] <= bound)
            && (t.now > bound ==> k < |t.start|)
  {
    hide Timeline, Work;
    var t := Timeline(d, m, moves);
    if k < |t.start| {
      TimelineFacts(d, m, moves, k);
      DivideBound(m, t.start[k], Work(d, k));
    } else {
      TimelineOk(d, m, moves);
      WaitingMeansBusy(d, m, |d|, t, k);
      DivideBound(m, t.now, Work(d, k));
    }
  }

  lemma {:induction false} WorkSplits(d: seq<real>, k: nat)
    requires k < |d| && (forall j :: 0 <= j < |d| ==> d[j] >= 0.0)
    ensures Work(d, k) + d[k] <= Work(d, |d|)
    decreases |d| - k
  {
    if k + 1 < |d| {
      WorkSplits(d, k + 1);
    }
  }

  /** m * end of job k, from the bound on its start and the work before it. */
  lemma EndBound(r: real, start: real, before: real, own: real, total: real, longest: real)
    requires r >= 1.0 && r * start <= before && before + own <= total && own <= longest
    ensures r * (start + own) <= total + (r - 1.0) * longest
  {
    assert (r - 1.0) * own <= (r - 1.0) * longest;
    assert r * (start + own) == r * start + own + (r - 1.0) * own;
  }

  lemma JobEnds(d: seq<real>, m: int, moves: seq<Move>, k: nat, longest: real)
    requires m >= 1 && (forall j :: 0 <= j < |d| ==> 0.0 <= d[j] <= longest)
    requires k < |Timeline(d, m, moves).start|
    ensures k < |d|
    ensures var t := Timeline(d, m, moves);
            End(d, t, k) <= Work(d, |d|) / (m as real) + (1.0 - 1.0 / (m as real)) * longest
  {
    hide Timeline, Work;
    var t, r := Timeline(d, m, moves), m as real;
    TimelineFacts(d, m, moves, k);
    WorkSplits(d, k);
    EndBound(r, t.start[k], Work(d, k), d[k], Work(d, |d|), longest);
    DivideBound(m, End(d, t, k), Work(d, |d|) + (r - 1.0) * longest);
    Spread(r, Work(d, |d|), longest);
  }

  /** All jobs of the batch have been started and have ended. */
  predicate IsDone(d: seq<real>, t: Timed) {
    t.q.waiting == [] && t.q.inFlight == [] && |t.q.completed| == |t.start| == |d|
  }

  lemma InFlightInTime(d: seq<real>, m: int, t: Timed, limit: real)
    requires TimedInv(d, m, |d|, t) && t.q.inFlight != []
    requires forall k :: 0 <= k < |t.start| ==> End(d, t, k) <= limit
    ensures t.now <= limit
  {
    hide Work, Remaining, Inv;
    assert t.now <= End(d, t, t.q.inFlight[0]);
  }

  /** A batch is done once the clock has passed all ends, and the time in which m slots do all its work. */
  lemma DoneAfter(d: seq<real>, m: int, t: Timed, limit: real)
    requires m >= 1 && TimedInv(d, m, |d|, t) && (forall j :: 0 <= j < |d| ==> d[j] >= 0.0)
    requires forall k :: 0 <= k < |t.start| ==> End(d, t, k) <= limit
    requires Work(d, |d|) <= (m as real) * limit && t.now > limit
    ensures IsDone(d, t)
  {
    hide Work, Remaining, Inv;
    StartedAreFirst(d, t, m, |d|);
    if |t.start| < |d| {
      var k := |t.start|;
      WaitingMeansBusy(d, m, |d|, t, k);
      WorkGrows(d, k, |d|);
      LaterIsMore(m as real, t.now, limit);
    }
    if t.q.inFlight != [] {
      InFlightInTime(d, m, t, limit);
    }
    AllCompleted(t.q, m);
    assert Consistent(d, t);
  }

  lemma LaterIsMore(r: real, now: real, limit: real)
    requires r >= 1.0 && now > limit
    ensures r * now > r * limit
  {
  }

  lemma AllCompleted(q: QueueState<nat>, m: int)
    requires Inv(q, m)
    ensures q.inFlight == [] ==> |q.completed| == |q.started|
  {
    assert |multiset(q.started)| == |q.started| && |multiset(q.completed)| == |q.completed|;
    if q.inFlight == [] {
      assert multiset(q.inFlight) == multiset{};
    }
  }

  /** The whole batch is done when (sum d)/m + (1 - 1/m) * max d has passed, and no job ends later than that. */
  lemma {:induction false} MakespanBound(d: seq<real>, m: int, moves: seq<Move>, longest: real)
    requires m >= 1 && longest >= 0.0 && (forall j :: 0 <= j < |d| ==> 0.0 <= d[j] <= longest)
    ensures var t := Timeline(d, m, moves);
            var bound := Work(d, |d|) / (m as real) + (1.0 - 1.0 / (m as real)) * longest;
            && |t.start| <= |d|
            && (forall k :: 0 <= k < |t.start| ==> End(d, t, k) <= bound)
            && (t.now > bound ==> IsDone(d, t))
  {
    hide Timeline, Work, TimedInv;
    var t, r := Timeline(d, m, moves), m as real;
    var bound := Work(d, |d|) / r + (1.0 - 1.0 / r) * longest;
    TimelineOk(d, m, moves);
    StartedFit(d, m, t);
    forall k | 0 <= k < |t.start| ensures End(d, t, k) <= bound {
      JobEnds(d, m, moves, k, longest);
    }
    WorkWithin(r, Work(d, |d|), longest);
    if t.now > bound {
      DoneAfter(d, m, t, bound);
    }
  }

  lemma StartedFit(d: seq<real>, m: int, t: Timed)
    requires TimedInv(d, m, |d|, t)
    ensures |t.start| <= |d|
  {
    hide Work, Remaining, Inv;
  }

  lemma WorkWithin(r: real, work: real, longest: real)
    requires r >= 1.0 && longest >= 0.0
    ensures work <= r * (work / r + (1.0 - 1.0 / r) * longest)
  {
    Spread(r, work, longest);
    var total := work + (r - 1.0) * longest;
    assert (r - 1.0) * longest >= 0.0;
    assert r * (total / r) == total;
  }

  lemma Spread(r: real, work: real, longest: real)
    requires r >= 1.0
    ensures (work + (r - 1.0) * longest) / r == work / r + (1.0 - 1.0 / r) * longest
  {
    var inv := 1.0 / r;
    assert inv * r == 1.0;
    assert work / r == work * inv;
    assert (work + (r - 1.0) * longest) / r == (work + (r - 1.0) * longest) * inv;
    assert (work + (r - 1.0) * longest) * inv == work * inv + (r * inv - inv) * longest;
  }

  // The clock is never stuck

  lemma {:induction false} Earliest(d: seq<real>, t: Timed, flying: seq<nat>) returns (i: nat)
    requires flying != [] && Clocked(d, t, flying)
    ensures i < |flying| && forall j :: 0 <= j < |flying| ==> End(d, t, flying[i]) <= End(d, t, flying[j])
  {
    var n := |flying| - 1;
    i := n;
    if n > 0 {
      var k := Earliest(d, t, flying[..n]);
      if End(d, t, flying[k]) <= End(d, t, flying[n]) {
        i := k;
      }
    }
  }

  lemma OneMoreMove(d: seq<real>, m: int, moves: seq<Move>, move: Move)
    requires var t := Timeline(d, m, moves); Consistent(d, t) && Possible(d, t, move)
    ensures Timeline(d, m, moves + [move]) == Perform(m, Timeline(d, m, moves), move)
  {
    assert (moves + [move])[..|moves|] == moves;
  }

  lemma CompletedWithin(d: seq<real>, m: int, t: Timed)
    requires TimedInv(d, m, |d|, t)
    ensures Consistent(d, t) && Unfinished(d, t, t.q.inFlight, t.now) && |t.q.completed| <= |d|
  {
    hide Work, Remaining;
    assert |multiset(t.q.started)| == |t.q.started| && |multiset(t.q.completed)| == |t.q.completed|;
    assert multiset(t.q.completed) <= multiset(t.q.started);
  }

  lemma SettlingCompletes(m: int, t: Timed, slot: nat)
    requires slot < |t.q.inFlight|
    ensures |Happen(t, m, Finish(slot, Returned)).q.completed| == |t.q.completed| + 1
    ensures Happen(t, m, Finish(slot, Returned)).now == t.now
  {
  }

  lemma EarliestIsPossible(d: seq<real>, t: Timed, slot: nat)
    requires Consistent(d, t) && slot < |t.q.inFlight| && Unfinished(d, t, t.q.inFlight, t.now)
    requires forall j :: 0 <= j < |t.q.inFlight| ==> End(d, t, t.q.inFlight[slot]) <= End(d, t, t.q.inFlight[j])
    ensures var end := End(d, t, t.q.inFlight[slot]); var t1 := t.(now := end);
            Possible(d, t, Advance(end - t.now)) && Consistent(d, t1) && Possible(d, t1, Settle(slot))
  {
  }

  /** The clock goes to the end of a job in flight, and the job ends. */
  lemma NextEnd(d: seq<real>, m: int, moves: seq<Move>, t: Timed, slot: nat, end: real)
    requires t == Timeline(d, m, moves) && Consistent(d, t) && Possible(d, t, Advance(end - t.now))
    requires Consistent(d, t.(now := end)) && Possible(d, t.(now := end), Settle(slot))
    ensures |Timeline(d, m, moves + [Advance(end - t.now)] + [Settle(slot)]).q.completed| == |t.q.completed| + 1
  {
    hide Timeline, Happen, Consistent, Unfinished;
    OneMoreMove(d, m, moves, Advance(end - t.now));
    assert Timeline(d, m, moves + [Advance(end - t.now)]) == t.(now := end);
    OneMoreMove(d, m, moves + [Advance(end - t.now)], Settle(slot));
    SettlingCompletes(m, t.(now := end), slot);
  }

  /** Every run of the batch can be continued past every moment. */
  lemma {:induction false} TimeCanPass(d: seq<real>, m: int, moves: seq<Move>, until: real) returns (more: seq<Move>)
    requires m >= 1 && (forall j :: 0 <= j < |d| ==> d[j] >= 0.0)
    ensures Timeline(d, m, moves + more).now >= until
    decreases |d| - |Timeline(d, m, moves).q.completed|
  {
    hide Timeline, TimedInv;
    var t := Timeline(d, m, moves);
    TimelineOk(d, m, moves);
    CompletedWithin(d, m, t);
    if t.now >= until {
      more := [];
      assert moves + [] == moves;
      return;
    }
    if t.q.inFlight != [] {
      var slot := Earliest(d, t, t.q.inFlight);
      var end := End(d, t, t.q.inFlight[slot]);
      if end < until {
        var next := moves + [Advance(end - t.now)] + [Settle(slot)];
        EarliestIsPossible(d, t, slot);
        NextEnd(d, m, moves, t, slot, end);
        TimelineOk(d, m, next);
        CompletedWithin(d, m, Timeline(d, m, next));
        var rest := TimeCanPass(d, m, next, until);
        more := [Advance(end - t.now)] + [Settle(slot)] + rest;
        assert moves + more == next + rest;
        return;
      }
    }
    more := [Advance(until - t.now)];
    OneMoreMove(d, m, moves, more[0]);
  }

  /** So every run of the batch can be continued to its end. */
  lemma {:induction false} BatchCanEnd(d: seq<real>, m: int, moves: seq<Move>, longest: real) returns (more: seq<Move>)
    requires m >= 1 && longest >= 0.0 && (forall j :: 0 <= j < |d| ==> 0.0 <= d[j] <= longest)
    ensures IsDone(d, Timeline(d, m, moves + more))
  {
    hide Timeline, Work, IsDone;
    var bound := Work(d, |d|) / (m as real) + (1.0 - 1.0 / (m as real)) * longest;
    more := TimeCanPass(d, m, moves, bound + 1.0);
    MakespanBound(d, m, moves + more, longest);
  }

  // Against every other way to place the jobs on m machines

  function Load(d: seq<real>, place: seq<nat>, machine: nat, k: nat): real
    requires k <= |d| == |place|
  {
    if k == 0 then 0.0 else Load(d, place, machine, k - 1) + (if place[k - 1] == machine then d[k - 1] else 0.0)
  }

  function TotalLoad(d: seq<real>, place: seq<nat>, machines: nat, k: nat): real
    requires k <= |d| == |place|
  {
    if machines == 0 then 0.0 else TotalLoad(d, place, machines - 1, k) + Load(d, place, machines - 1, k)
  }

  lemma {:induction false} TotalOfNothing(d: seq<real>, place: seq<nat>, machines: nat)
    requires |d| == |place|
    ensures TotalLoad(d, place, machines, 0) == 0.0
  {
    if machines > 0 {
      TotalOfNothing(d, place, machines - 1);
    }
  }

  lemma {:induction false} TotalGrows(d: seq<real>, place: seq<nat>, machines: nat, k: nat)
    requires k < |d| == |place|
    ensures TotalLoad(d, place, machines, k + 1) ==
            TotalLoad(d, place, machines, k) + (if place[k] < machines then d[k] else 0.0)
  {
    if machines > 0 {
      TotalGrows(d, place, machines - 1, k);
    }
  }

  lemma {:induction false} LoadsAddUp(d: seq<real>, place: seq<nat>, machines: nat, k: nat)
    requires k <= |d| == |place| && (forall j :: 0 <= j < |place| ==> place[j] < machines)
    ensures TotalLoad(d, place, machines, k) == Work(d, k)
  {
    if k == 0 {
      TotalOfNothing(d, place, machines);
    } else {
      LoadsAddUp(d, place, machines, k - 1);
      TotalGrows(d, place, machines, k - 1);
    }
  }

  lemma {:induction false} TotalWithin(d: seq<real>, place: seq<nat>, machines: nat, limit: real)
    requires |d| == |place| && (forall i :: 0 <= i < machines ==> Load(d, place, i, |d|) <= limit)
    ensures TotalLoad(d, place, machines, |d|) <= (machines as real) * limit
  {
    if machines > 0 {
      TotalWithin(d, place, machines - 1, limit);
    }
  }

  lemma {:induction false} OneWithinLoad(d: seq<real>, place: seq<nat>, j: nat, k: nat)
    requires j < k <= |d| == |place| && (forall i :: 0 <= i < |d| ==> d[i] >= 0.0)
    ensures d[j] <= Load(d, place, place[j], k)
  {
    if j < k - 1 {
      OneWithinLoad(d, place, j, k - 1);
    } else {
      LoadNonNegative(d, place, place[j], j);
    }
  }

  lemma {:induction false} LoadNonNegative(d: seq<real>, place: seq<nat>, machine: nat, k: nat)
    requires k <= |d| == |place| && (forall i :: 0 <= i < |d| ==> d[i] >= 0.0)
    ensures Load(d, place, machine, k) >= 0.0
  {
    if k > 0 {
      LoadNonNegative(d, place, machine, k - 1);
    }
  }

  lemma JobEndsWithin(d: seq<real>, m: nat, moves: seq<Move>, k: nat, place: seq<nat>, makespan: real)
    requires m >= 1 && (forall j :: 0 <= j < |d| ==> d[j] >= 0.0)
    requires |place| == |d| && (forall j :: 0 <= j < |d| ==> place[j] < m)
    requires forall i :: 0 <= i < m ==> Load(d, place, i, |d|) <= makespan
    requires k < |Timeline(d, m, moves).start|
    ensures k < |d| && Work(d, |d|) <= (m as real) * makespan
    ensures (m as real) * End(d, Timeline(d, m, moves), k) <= (2.0 * (m as real) - 1.0) * makespan
  {
    hide Timeline, Work, Load, TotalLoad;
    var t, r := Timeline(d, m, moves), m as real;
    forall j | 0 <= j < |d| ensures d[j] <= makespan {
      OneWithinLoad(d, place, j, |d|);
    }
    LoadsAddUp(d, place, m, |d|);
    TotalWithin(d, place, m, makespan);
    TimelineFacts(d, m, moves, k);
    WorkSplits(d, k);
    EndBound(r, t.start[k], Work(d, k), d[k], r * makespan, makespan);
  }

  /** The queue is done with a batch within 2 - 1/m times the makespan of any placement of its jobs on m machines. */
  lemma {:induction false} WithinTwiceAnyPlacement(d: seq<real>, m: nat, moves: seq<Move>, place: seq<nat>,
                                                   makespan: real)
    requires m >= 1 && (forall j :: 0 <= j < |d| ==> d[j] >= 0.0)
    requires |place| == |d| && (forall j :: 0 <= j < |d| ==> place[j] < m)
    requires forall i :: 0 <= i < m ==> Load(d, place, i, |d|) <= makespan
    ensures var t := Timeline(d, m, moves);
            && |t.start| <= |d|
            && (forall k :: 0 <= k < |t.start| ==> (m as real) * End(d, t, k) <= (2.0 * (m as real) - 1.0) * makespan)
            && ((m as real) * t.now > (2.0 * (m as real) - 1.0) * makespan ==> IsDone(d, t))
  {
    hide Timeline, Work, Load, TotalLoad, TimedInv;
    var t, r := Timeline(d, m, moves), m as real;
    TimelineOk(d, m, moves);
    StartedFit(d, m, t);
    forall k | 0 <= k < |t.start| ensures r * End(d, t, k) <= (2.0 * r - 1.0) * makespan {
      JobEndsWithin(d, m, moves, k, place, makespan);
    }
    if r * t.now > (2.0 * r - 1.0) * makespan {
      LoadNonNegative(d, place, 0, |d|);
      LoadsAddUp(d, place, m, |d|);
      TotalWithin(d, place, m, makespan);
      DoneByThen(d, m, t, r, makespan);
    }
  }

  lemma DoneByThen(d: seq<real>, m: int, t: Timed, r: real, makespan: real)
    requires m >= 1 && r == m as real && makespan >= 0.0 && TimedInv(d, m, |d|, t)
    requires (forall j :: 0 <= j < |d| ==> d[j] >= 0.0) && |t.start| <= |d|
    requires forall k :: 0 <= k < |t.start| ==> r * End(d, t, k) <= (2.0 * r - 1.0) * makespan
    requires Work(d, |d|) <= r * makespan && r * t.now > (2.0 * r - 1.0) * makespan
    ensures IsDone(d, t)
  {
    hide TimedInv, Work;
    var limit := (2.0 * r - 1.0) * makespan / r;
    TwiceIsEnough(r, makespan, limit);
    forall k | 0 <= k < |t.start| ensures End(d, t, k) <= limit {
      DivideBound(m, End(d, t, k), (2.0 * r - 1.0) * makespan);
    }
    if t.now <= limit {
      SoonerIsLess(r, t.now, limit);
    }
    DoneAfter(d, m, t, limit);
  }

  lemma TwiceIsEnough(r: real, makespan: real, limit: real)
    requires r >= 1.0 && makespan >= 0.0 && limit == (2.0 * r - 1.0) * makespan / r
    ensures r * limit == (2.0 * r - 1.0) * makespan && r * makespan <= r * limit
  {
    assert (r - 1.0) * makespan >= 0.0;
    assert (2.0 * r - 1.0) * makespan == r * makespan + (r - 1.0) * makespan;
  }

  lemma SoonerIsLess(r: real, now: real, limit: real)
    requires r >= 1.0 && now <= limit
    ensures r * now <= r * limit
  {
    assert r * (limit - now) >= 0.0;
  }
}
