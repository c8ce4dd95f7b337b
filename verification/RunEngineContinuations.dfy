/**
 * Which runs can still be started. From every reachable state and for every run row: some continuation
 * starts the run if and only if there is a slot at all and the row is pending, or stopped and claimed.
 */
module RunEngineContinuations {
  import opened Prelude
  import opened RunTable
  import opened RunEngine
  import opened RunEngineControl
  import opened RunEngineInvariant
  import opened RunEngineContainers
  import opened RunEngineTheorems
  import opened RunEngineClaims
  import Steps = RunEngineSteps

  ghost function Play(s: State, actions: seq<Action>): State
    decreases |actions|
  {
    if actions == [] then s else Play(Apply(s, actions[0]), actions[1..])
  }

  ghost predicate Starts(s: State, actions: seq<Action>, a: Action, r: RunId) {
    LaunchOf(Play(s, actions), a).Some? && LaunchOf(Play(s, actions), a).value.runId == r
  }

  /** Some continuation from here executes the `running` update of run r. */
  ghost predicate CanStart(s: State, r: RunId) {
    exists actions, a :: Starts(s, actions, a, r)
  }

  lemma OneStepBefore(s: State, a: Action, r: RunId)
    requires CanStart(Apply(s, a), r)
    ensures CanStart(s, r)
  {
    var actions, last :| Starts(Apply(s, a), actions, last, r);
    assert ([a] + actions)[1..] == actions;
    assert Starts(s, [a] + actions, last, r);
  }

  lemma {:induction false} PlayIsReached(m: int, before: seq<Action>, after: seq<Action>)
    ensures Reached(m, before + after) == Play(Reached(m, before), after)
    decreases |after|
  {
    if after == [] {
      assert before + after == before;
    } else {
      hide Reached, Apply;
      OneMore(m, before, after[0]);
      assert (before + [after[0]]) + after[1..] == before + after;
      PlayIsReached(m, before + [after[0]], after[1..]);
    }
  }

  function Outcome(ok: bool): Oracle {
    Oracle(ok, 0, "container", 0, [], [])
  }

  // An executor that goes ahead

  lemma FromStart(s: State, pid: Pid, r: RunId)
    requires pid in s.procs && s.procs[pid].ExecStart? && s.procs[pid].h.runId == r
    ensures CanStart(s, r)
  {
    assert Starts(s, [], Resume(pid, Outcome(true)), r);
  }

  lemma FromLaunchEnv(s: State, pid: Pid, r: RunId)
    requires pid in s.procs && s.procs[pid].ExecLaunchEnv? && s.procs[pid].h.runId == r
    ensures CanStart(s, r)
  {
    hide CanStart, CallbackStep, RequestStep, StopStep, ExecuteNext;
    var a := Resume(pid, Outcome(true));
    assert Apply(s, a).procs[pid].ExecStart?;
    FromStart(Apply(s, a), pid, r);
    OneStepBefore(s, a, r);
  }

  lemma FromActiveRead(s: State, pid: Pid, r: RunId)
    requires pid in s.procs && s.procs[pid].ExecRead? && s.procs[pid].h.runId == r
    requires IsActive(s.db, s.procs[pid].h.taskId)
    ensures CanStart(s, r)
  {
    hide CanStart, CallbackStep, RequestStep, StopStep, ExecuteNext;
    var a := Resume(pid, Outcome(true));
    assert Apply(s, a).procs[pid].ExecLaunchEnv?;
    FromLaunchEnv(Apply(s, a), pid, r);
    OneStepBefore(s, a, r);
  }

  // A task that is started again

  /** Task t may have become active, and new activities may have appeared: everything else is as before. */
  ghost predicate OnlyStartedTask(s: State, s': State) {
    && s'.db.runs == s.db.runs && s'.server == s.server && s'.queue == s.queue
    && s'.maxConcurrency == s.maxConcurrency
    && s'.db.tasks.Keys == s.db.tasks.Keys
    && (forall p :: p in s.procs ==> p in s'.procs && s'.procs[p] == s.procs[p])
  }

  lemma StartIsReceived(s: State, t: TaskId) returns (s': State)
    requires s.server.Serving? && s.nextPid !in s.procs
    ensures s' == Apply(s, Receive(StartTask(t))) && OnlyStartedTask(s, s') && s'.db == s.db
    ensures s.nextPid in s'.procs && s'.procs[s.nextPid] == StartRead(t)
  {
    s' := Apply(s, Receive(StartTask(t)));
  }

  /** The next step of a start of task t. */
  lemma StartMovesOn(s: State, n: Pid, t: TaskId) returns (s': State)
    requires n in s.procs && t in s.db.tasks && s.nextPid !in s.procs
    requires (s.procs[n] == StartRead(t) && !IsActive(s.db, t)) || s.procs[n] == RegisterExists(t, Activate) ||
             s.procs[n] == RegisterSchedule(t, Activate) || s.procs[n] == StartActivate(t)
    ensures s' == Apply(s, Resume(n, Outcome(true)))
    ensures OnlyStartedTask(s.(procs := s.procs - {n}), s')
    ensures s.procs[n] == StartActivate(t) ==> IsActive(s'.db, t)
    ensures s.procs[n] != StartActivate(t) ==> s'.db == s.db && n in s'.procs
    ensures s.procs[n].StartRead? ==> s'.procs[n] == RegisterExists(t, Activate)
    ensures s.procs[n].RegisterExists? ==> s'.procs[n] in {RegisterSchedule(t, Activate), StartActivate(t)}
    ensures s.procs[n].RegisterSchedule? ==> s'.procs[n] == StartActivate(t)
  {
    hide CallbackStep, ExecStep, StopStep;
    s' := Apply(s, Resume(n, Outcome(true)));
  }

  function StartStage(p: Proc): nat {
    if p.StartRead? then 3 else if p.RegisterExists? then 2 else if p.RegisterSchedule? then 1 else 0
  }

  lemma {:induction false} StartFinishes(s: State, n: Pid, t: TaskId, r: RunId) returns (s': State)
    requires Inv(s) && n in s.procs && t in s.db.tasks
    requires (s.procs[n] == StartRead(t) && !IsActive(s.db, t)) || s.procs[n] == RegisterExists(t, Activate) ||
             s.procs[n] == RegisterSchedule(t, Activate) || s.procs[n] == StartActivate(t)
    ensures Inv(s') && IsActive(s'.db, t) && OnlyStartedTask(s.(procs := s.procs - {n}), s')
    ensures CanStart(s', r) ==> CanStart(s, r)
    decreases StartStage(s.procs[n])
  {
    hide CanStart, Inv, Apply;
    PidsBounded(s);
    var a := Resume(n, Outcome(true));
    var s1 := StartMovesOn(s, n, t);
    Steps.ApplyKeeps(s, a);
    if s.procs[n] == StartActivate(t) {
      s' := s1;
    } else {
      s' := StartFinishes(s1, n, t, r);
      StartsInTurn(s, s1, s', n);
    }
    if CanStart(s', r) {
      OneStepBefore(s, a, r);
    }
  }

  lemma StartsInTurn(s: State, s1: State, s': State, n: Pid)
    requires OnlyStartedTask(s.(procs := s.procs - {n}), s1)
    requires OnlyStartedTask(s1.(procs := s1.procs - {n}), s')
    ensures OnlyStartedTask(s.(procs := s.procs - {n}), s')
  {
    forall p | p in s.procs && p != n ensures p in s'.procs && s'.procs[p] == s.procs[p] {
      assert p in s.procs - {n};
      assert p in s1.procs && p in s1.procs - {n};
    }
  }

  /** From a server that listens, an inactive task can be made active while nothing else changes. */
  lemma TaskCanBecomeActive(s: State, t: TaskId, r: RunId) returns (s': State)
    requires Inv(s) && s.server.Serving? && t in s.db.tasks && !IsActive(s.db, t)
    ensures Inv(s') && IsActive(s'.db, t) && OnlyStartedTask(s, s')
    ensures CanStart(s', r) ==> CanStart(s, r)
  {
    hide CanStart, Inv, Apply;
    PidsBounded(s);
    var n := s.nextPid;
    var s1 := StartIsReceived(s, t);
    Steps.ApplyKeeps(s, Receive(StartTask(t)));
    s' := StartFinishes(s1, n, t, r);
    forall p | p in s.procs ensures p in s'.procs && s'.procs[p] == s.procs[p] {
      assert p in s1.procs && p in s1.procs - {n};
    }
    if CanStart(s', r) {
      OneStepBefore(s, Receive(StartTask(t)), r);
    }
  }

  /** An executor that has just begun, for a task that exists. */
  lemma FromRead(s: State, pid: Pid, r: RunId)
    requires Inv(s) && s.server.Serving? && pid in s.procs
    requires s.procs[pid].ExecRead? && s.procs[pid].h.runId == r && s.procs[pid].h.taskId in s.db.tasks
    ensures CanStart(s, r)
  {
    hide CanStart, Inv;
    var t := s.procs[pid].h.taskId;
    if IsActive(s.db, t) {
      FromActiveRead(s, pid, r);
    } else {
      var s' := TaskCanBecomeActive(s, t, r);
      FromActiveRead(s', pid, r);
    }
  }

  // A closure in the queue

  /** How many failures away an executor is from its end. */
  function Left(p: Proc): nat {
    if p.ExecDone? then 0 else if IsStop(p) then 1 else 2
  }

  /** When everything fails, an executor comes to its end without touching the database. */
  lemma ExecutorFails(s: State, e: Pid) returns (s': State)
    requires e in s.procs && IsExecutor(s.procs[e]) && !s.procs[e].ExecDone?
    ensures s' == Apply(s, Resume(e, Outcome(false)))
    ensures e in s'.procs && IsExecutor(s'.procs[e]) && Left(s'.procs[e]) < Left(s.procs[e])
    ensures s'.db == s.db && s'.server == s.server && s'.queue == s.queue && s'.maxConcurrency == s.maxConcurrency
  {
    hide CallbackStep, RequestStep;
    s' := Apply(s, Resume(e, Outcome(false)));
  }

  /** An executor that is done makes room for the first closure. */
  lemma ExecutorEnds(s: State, e: Pid) returns (s': State)
    requires e in s.procs && s.procs[e].ExecDone? && s.queue != [] && s.running <= s.maxConcurrency
    ensures s' == Apply(s, Resume(e, Outcome(true)))
    ensures s'.db == s.db && s'.server == s.server && s'.queue == s.queue[1..] && s'.maxConcurrency == s.maxConcurrency
    ensures s.nextPid in s'.procs && s'.procs[s.nextPid] == ExecRead(s.queue[0])
  {
    hide CallbackStep, RequestStep, StopStep;
    s' := Apply(s, Resume(e, Outcome(true)));
  }

  lemma {:induction false} FromQueueWith(s: State, k: nat, e: Pid, r: RunId)
    requires Inv(s) && s.server.Serving? && s.maxConcurrency >= 1
    requires k < |s.queue| && s.queue[k].runId == r && s.queue[k].taskId in s.db.tasks
    requires e in s.procs && IsExecutor(s.procs[e])
    ensures CanStart(s, r)
    decreases k, 1, Left(s.procs[e])
  {
    hide CanStart, Inv, Apply;
    if s.procs[e].ExecDone? {
      ControlFacts(s);
      var s' := ExecutorEnds(s, e);
      Steps.ApplyKeeps(s, Resume(e, Outcome(true)));
      if k == 0 {
        FromRead(s', s.nextPid, r);
      } else {
        FromQueue(s', k - 1, r);
      }
      OneStepBefore(s, Resume(e, Outcome(true)), r);
    } else {
      var s' := ExecutorFails(s, e);
      Steps.ApplyKeeps(s, Resume(e, Outcome(false)));
      FromQueueWith(s', k, e, r);
      OneStepBefore(s, Resume(e, Outcome(false)), r);
    }
  }

  /** While something waits there is an executor. */
  lemma SomeExecutor(s: State) returns (e: Pid)
    requires Inv(s) && s.maxConcurrency >= 1 && s.queue != []
    ensures e in s.procs && IsExecutor(s.procs[e])
  {
    hide Inv;
    ControlFacts(s);
    ExecutorsAreViews(s.procs);
    assert Executors(ViewsOf(s.procs)) != {};
    e :| e in Executors(ViewsOf(s.procs));
  }

  lemma {:induction false} FromQueue(s: State, k: nat, r: RunId)
    requires Inv(s) && s.server.Serving? && s.maxConcurrency >= 1
    requires k < |s.queue| && s.queue[k].runId == r && s.queue[k].taskId in s.db.tasks
    ensures CanStart(s, r)
    decreases k, 2, 0
  {
    hide CanStart, Inv, IsExecutor;
    var e := SomeExecutor(s);
    FromQueueWith(s, k, e, r);
  }

  // A callback that has not handed over its run yet

  lemma RunIsHandedOver(s: State, pid: Pid) returns (s': State)
    requires pid in s.procs && s.procs[pid].CallbackEnqueue?
    ensures s' == Apply(s, Resume(pid, Outcome(true)))
    ensures s'.db == s.db && s'.server == s.server && s'.maxConcurrency == s.maxConcurrency
    ensures var h := s.procs[pid].h;
            || (s.nextPid in s'.procs && s'.procs[s.nextPid] == ExecRead(h))
            || (s'.queue != [] && s'.queue[|s'.queue| - 1] == h)
  {
    hide ExecStep, RequestStep, StopStep;
    s' := Apply(s, Resume(pid, Outcome(true)));
  }

  lemma FromEnqueue(s: State, pid: Pid, r: RunId)
    requires Inv(s) && s.server.Serving? && s.maxConcurrency >= 1 && pid in s.procs && s.procs[pid].CallbackEnqueue?
    requires s.procs[pid].h.runId == r && s.procs[pid].h.taskId in s.db.tasks
    ensures CanStart(s, r)
  {
    hide CanStart, Inv, Apply;
    var a := Resume(pid, Outcome(true));
    var s' := RunIsHandedOver(s, pid);
    Steps.ApplyKeeps(s, a);
    if s.nextPid in s'.procs && s'.procs[s.nextPid] == ExecRead(s.procs[pid].h) {
      FromRead(s', s.nextPid, r);
    } else {
      FromQueue(s', |s'.queue| - 1, r);
    }
    OneStepBefore(s, a, r);
  }

  lemma LockIsLeft(s: State, pid: Pid) returns (s': State)
    requires pid in s.procs && s.procs[pid].CallbackLeave? && s.procs[pid].outcome.Registered?
    ensures s' == Apply(s, Resume(pid, Outcome(true)))
    ensures s'.db == s.db && s'.server == s.server && s'.maxConcurrency == s.maxConcurrency
    ensures pid in s'.procs && s'.procs[pid] == CallbackEnqueue(s.procs[pid].outcome.h)
  {
    hide ExecStep, RequestStep, StopStep, Label;
    s' := Apply(s, Resume(pid, Outcome(true)));
  }

  lemma FromLeave(s: State, pid: Pid, r: RunId)
    requires Inv(s) && s.server.Serving? && s.maxConcurrency >= 1 && pid in s.procs && s.procs[pid].CallbackLeave?
    requires s.procs[pid].outcome.Registered?
    requires s.procs[pid].outcome.h.runId == r && s.procs[pid].outcome.h.taskId in s.db.tasks
    ensures CanStart(s, r)
  {
    hide CanStart, Inv, Apply;
    var a := Resume(pid, Outcome(true));
    var s' := LockIsLeft(s, pid);
    Steps.ApplyKeeps(s, a);
    FromEnqueue(s', pid, r);
    OneStepBefore(s, a, r);
  }

  // Any claim

  /** The row can still go to `running`. */
  predicate Startable(db: Db, r: RunId) {
    r in db.runs && db.runs[r].status in {Pending, Stopped}
  }

  lemma ClaimedTaskExists(db: Db, h: RunHandle, launched: bool, r: RunId)
    requires RowsOk(db) && ClaimOk(db, h, launched) && h.runId == r && Startable(db, r)
    ensures h.taskId in db.tasks && !launched
  {
  }

  lemma FromActivity(s: State, pid: Pid, r: RunId)
    requires Inv(s) && s.server.Serving? && s.maxConcurrency >= 1 && Startable(s.db, r)
    requires pid in s.procs && StandsFor(s.procs[pid], r)
    ensures CanStart(s, r)
  {
    hide CanStart, Inv, Startable, RowsOk, HistoryOk, LimitsOk, ClaimOk, Unclaimed;
    var p := s.procs[pid];
    DbFacts(s);
    Steps.ClaimOf(s, pid);
    ClaimedTaskExists(s.db, ViewOf(p).claim.value, ViewOf(p).launched, r);
    if p.CallbackLeave? {
      FromLeave(s, pid, r);
    } else if p.CallbackEnqueue? {
      FromEnqueue(s, pid, r);
    } else if p.ExecRead? {
      FromRead(s, pid, r);
    } else if p.ExecLaunchEnv? {
      FromLaunchEnv(s, pid, r);
    } else if p.ExecStart? {
      FromStart(s, pid, r);
    }
  }

  lemma WaitingIsClaim(s: State, i: nat)
    requires Inv(s) && i < |s.queue|
    ensures ClaimOk(s.db, s.queue[i], false)
  {
    assert Waiting(ControlOf(s))[i] == s.queue[i];
  }

  lemma FromWaiting(s: State, i: nat, r: RunId)
    requires Inv(s) && s.server.Serving? && s.maxConcurrency >= 1 && Startable(s.db, r)
    requires i < |s.queue| && s.queue[i].runId == r
    ensures CanStart(s, r)
  {
    hide CanStart, Inv, Startable, RowsOk, HistoryOk, LimitsOk, ClaimOk;
    DbFacts(s);
    WaitingIsClaim(s, i);
    ClaimedTaskExists(s.db, s.queue[i], false, r);
    FromQueue(s, i, r);
  }

  // A server that is starting

  lemma LastTask(ids: set<TaskId>) returns (t: TaskId)
    requires ids != {}
    ensures t in ids && forall u :: u in ids ==> u <= t
  {
    t :| t in ids;
    var rest := ids - {t};
    while rest != {}
      invariant t in ids && rest <= ids && forall u :: u in ids && u !in rest ==> u <= t
    {
      var u :| u in rest;
      rest := rest - {u};
      if u > t {
        t := u;
      }
    }
  }

  lemma {:induction false} Ascending(ids: set<TaskId>) returns (list: seq<TaskId>)
    ensures forall t :: t in list <==> t in ids
    ensures forall i, j :: 0 <= i < j < |list| ==> list[i] < list[j]
  {
    list := [];
    if ids != {} {
      var t := LastTask(ids);
      var front := Ascending(ids - {t});
      list := front + [t];
      assert forall i :: 0 <= i < |front| ==> front[i] in ids - {t};
    }
  }

  lemma ActiveListExists(db: Db) returns (list: seq<TaskId>)
    ensures IsActiveList(db, list)
  {
    var ids := set t | t in db.tasks && db.tasks[t].active;
    list := Ascending(ids);
    assert forall t :: IsActive(db, t) <==> t in ids;
    forall i | 0 <= i < |list| ensures IsActive(db, list[i]) {
      assert list[i] in list;
    }
  }

  lemma LastRun(runs: Runs, ids: set<RunId>) returns (r: RunId)
    requires ids != {} && ids <= runs.Keys
    ensures r in ids && forall q :: q in ids ==> RankLeq(runs[q].rank, runs[r].rank)
  {
    r :| r in ids;
    var rest := ids - {r};
    while rest != {}
      invariant r in ids && rest <= ids
      invariant forall q :: q in ids && q !in rest ==> RankLeq(runs[q].rank, runs[r].rank)
    {
      var q :| q in rest;
      rest := rest - {q};
      if !RankLeq(runs[q].rank, runs[r].rank) {
        r := q;
      }
    }
  }

  lemma {:induction false} ByRank(runs: Runs, t: TaskId, ids: set<RunId>) returns (list: seq<RunHandle>)
    requires forall r :: r in ids ==> r in runs && runs[r].taskId == t
    ensures forall i :: 0 <= i < |list| ==>
      list[i].runId in ids && list[i] == RunHandle(t, list[i].runId, runs[list[i].runId].rank)
    ensures forall r :: r in ids ==> exists i :: 0 <= i < |list| && list[i].runId == r
    ensures forall i, j :: 0 <= i < j < |list| ==>
      list[i].runId != list[j].runId && RankLeq(list[i].rank, list[j].rank)
  {
    list := [];
    if ids != {} {
      var r := LastRun(runs, ids);
      var front := ByRank(runs, t, ids - {r});
      list := front + [RunHandle(t, r, runs[r].rank)];
      forall q | q in ids ensures exists i :: 0 <= i < |list| && list[i].runId == q {
        if q == r {
          assert list[|front|].runId == r;
        } else {
          assert q in ids - {r};
          var i :| 0 <= i < |front| && front[i].runId == q;
          assert list[i].runId == q;
        }
      }
    }
  }

  lemma PendingListExists(runs: Runs, t: TaskId) returns (list: seq<RunHandle>)
    ensures IsPendingList(runs, t, list)
  {
    var ids := set r | r in runs && runs[r].taskId == t && runs[r].status == Pending;
    list := ByRank(runs, t, ids);
    assert forall r :: r in ids <==> r in runs && runs[r].taskId == t && runs[r].status == Pending;
  }

  predicate IsBooting(server: Server) {
    server.ReadRuns? || server.Requeue? || server.BootExists? || server.BootSchedule?
  }

  /** The steps a server still has to make, ordered lexicographically. */
  function TurnsLeft(server: Server): nat {
    if IsBooting(server) then 1 + |server.rest| else 0
  }

  function TurnStage(server: Server): nat {
    match server
    case ReadRuns(_, _) => 3
    case Requeue(_, _, _) => 2
    case BootExists(_, _) => 1
    case _ => 0
  }

  predicate ComesBefore(a: Server, b: Server) {
    || TurnsLeft(a) < TurnsLeft(b)
    || (TurnsLeft(a) == TurnsLeft(b) && TurnStage(a) < TurnStage(b))
    || (TurnsLeft(a) == TurnsLeft(b) && TurnStage(a) == TurnStage(b) && |BootPending(a)| < |BootPending(b)|)
  }

  /** A starting server can always go on, and loses no claim. */
  lemma BootGoesOn(s: State, r: RunId) returns (a: Action, s': State)
    requires PidsBelow(s) && IsBooting(s.server)
    ensures a.BootStep? && s' == Apply(s, a) && s'.db == s.db && s'.maxConcurrency == s.maxConcurrency
    ensures (IsBooting(s'.server) || s'.server.Serving?) && ComesBefore(s'.server, s.server)
    ensures !Free(s, r) ==> !Free(s', r)
    ensures s.server.ReadRuns? && IsPending(s.db, r) && s.db.runs[r].taskId == s.server.t ==> !Free(s', r)
    ensures !s.server.ReadRuns? ==> forall u :: u in Outstanding(s.server) ==> u in Outstanding(s'.server)
    ensures s.server.ReadRuns? ==> Outstanding(s'.server) == s.server.rest
  {
    hide Free, IsPendingList, PidsBelow;
    var o := Outcome(true);
    if s.server.ReadRuns? {
      var list := PendingListExists(s.db.runs, s.server.t);
      o := o.(pendingFound := list);
      ListedIff(s.db.runs, s.server.t, list, r);
    }
    a := BootStep(o);
    s' := Apply(s, a);
    if Free(s', r) {
      BootStepWasFree(s, o, r);
    }
    if s.server.ReadRuns? && !NotWaiting(o.pendingFound, r) {
      ReadIsClaimed(s, o.pendingFound, r);
    }
  }

  lemma ReadIsClaimed(s: State, pending: seq<RunHandle>, r: RunId)
    requires s.server.ReadRuns? && !NotWaiting(pending, r)
    ensures !Free(s.(server := Requeue(s.server.t, pending, s.server.rest)), r)
  {
  }

  /** Claimed already, or pending with the turn of its task still to come. */
  ghost predicate WillBeClaimed(s: State, r: RunId) {
    !Free(s, r) || (IsPending(s.db, r) && s.db.runs[r].taskId in Outstanding(s.server))
  }

  lemma StaysClaimed(s: State, s': State, r: RunId)
    requires WillBeClaimed(s, r) && s'.db == s.db
    requires !Free(s, r) ==> !Free(s', r)
    requires s.server.ReadRuns? && IsPending(s.db, r) && s.db.runs[r].taskId == s.server.t ==> !Free(s', r)
    requires !s.server.ReadRuns? ==> forall u :: u in Outstanding(s.server) ==> u in Outstanding(s'.server)
    requires s.server.ReadRuns? ==> Outstanding(s'.server) == s.server.rest
    ensures WillBeClaimed(s', r)
  {
    hide Free;
    if Free(s, r) && s.server.ReadRuns? {
      assert Outstanding(s.server) == [s.server.t] + s.server.rest;
    }
  }

  lemma {:induction false} FromBootClaim(s: State, r: RunId)
    requires Inv(s) && s.maxConcurrency >= 1 && Startable(s.db, r) && WillBeClaimed(s, r)
    requires IsBooting(s.server) || s.server.Serving?
    ensures CanStart(s, r)
    decreases TurnsLeft(s.server), TurnStage(s.server), |BootPending(s.server)|
  {
    if s.server.Serving? {
      hide Inv, CanStart, Startable, StandsFor;
      if pid :| pid in s.procs && StandsFor(s.procs[pid], r) {
        FromActivity(s, pid, r);
      } else {
        var i :| 0 <= i < |s.queue| && s.queue[i].runId == r;
        FromWaiting(s, i, r);
      }
    } else {
      hide Inv, CanStart, Apply, Free, Startable, WillBeClaimed;
      PidsBounded(s);
      var a, s' := BootGoesOn(s, r);
      StaysClaimed(s, s', r);
      Steps.ApplyKeeps(s, a);
      FromBootClaim(s', r);
      OneStepBefore(s, a, r);
    }
  }

  // A restart

  lemma ServerCanRestart(s: State, r: RunId) returns (s': State)
    requires Inv(s)
    ensures Inv(s') && s'.db == s.db && s'.maxConcurrency == s.maxConcurrency
    ensures IsBooting(s'.server) || s'.server.Serving?
    ensures forall t :: IsActive(s.db, t) ==> t in Outstanding(s'.server)
    ensures CanStart(s', r) ==> CanStart(s, r)
  {
    hide Inv, CanStart;
    var list := ActiveListExists(s.db);
    var o := Outcome(true).(tasksFound := list);
    var down := Apply(s, Crash);
    var up := Apply(down, Boot);
    s' := Apply(up, BootStep(o));
    assert s' == NextTask(up, list);
    assert list != [] ==> Outstanding(s'.server) == list;
    Steps.ApplyKeeps(s, Crash);
    Steps.ApplyKeeps(down, Boot);
    Steps.ApplyKeeps(up, BootStep(o));
    if CanStart(s', r) {
      OneStepBefore(up, BootStep(o), r);
      OneStepBefore(down, Boot, r);
      OneStepBefore(s, Crash, r);
    }
  }

  lemma FromActivePending(s: State, r: RunId)
    requires Inv(s) && s.maxConcurrency >= 1 && IsPending(s.db, r) && IsActive(s.db, s.db.runs[r].taskId)
    ensures CanStart(s, r)
  {
    hide Inv, CanStart, IsActive;
    var s' := ServerCanRestart(s, r);
    FromBootClaim(s', r);
  }

  lemma {:induction false} FromBootPending(s: State, r: RunId)
    requires Inv(s) && s.maxConcurrency >= 1 && IsPending(s.db, r)
    requires IsBooting(s.server) || s.server.Serving?
    ensures CanStart(s, r)
    decreases TurnsLeft(s.server), TurnStage(s.server), |BootPending(s.server)|
  {
    hide Inv, CanStart, Apply;
    if s.server.Serving? {
      var t := s.db.runs[r].taskId;
      if IsActive(s.db, t) {
        FromActivePending(s, r);
      } else {
        DbFacts(s);
        var s' := TaskCanBecomeActive(s, t, r);
        FromActivePending(s', r);
      }
    } else {
      PidsBounded(s);
      var a, s' := BootGoesOn(s, r);
      Steps.ApplyKeeps(s, a);
      FromBootPending(s', r);
      OneStepBefore(s, a, r);
    }
  }

  lemma FromPending(s: State, r: RunId)
    requires Inv(s) && s.maxConcurrency >= 1 && IsPending(s.db, r)
    ensures CanStart(s, r)
  {
    hide Inv, CanStart;
    var s' := ServerCanRestart(s, r);
    FromBootPending(s', r);
  }

  lemma FromStoppedClaim(s: State, r: RunId)
    requires Inv(s) && s.maxConcurrency >= 1 && Startable(s.db, r) && !Free(s, r)
    ensures CanStart(s, r)
  {
    hide CanStart, Startable, Free;
    if s.server.Down? || s.server.Finding? {
      DownIsFree(s, r);
    }
    FromBootClaim(s, r);
  }

  lemma DownIsFree(s: State, r: RunId)
    requires Inv(s) && (s.server.Down? || s.server.Finding?)
    ensures Free(s, r)
  {
    assert Waiting(ControlOf(s)) == s.queue + [] && ViewsOf(s.procs) == map[];
    assert forall p :: p in s.procs ==> p in ViewsOf(s.procs);
  }

  // When no continuation starts the run

  lemma {:induction false} NoSlotNoStart(m: int, actions: seq<Action>, a: Action)
    requires m <= 0
    ensures LaunchOf(Reached(m, actions), a) == None
  {
    hide Reached;
    SlotsAreExact(m, actions);
    var s := Reached(m, actions);
    assert ExecutorPids(s) == {};
    forall p | p in s.procs ensures !s.procs[p].ExecStart? {
      assert p !in ExecutorPids(s);
    }
  }

  /** What has been started once is not started again, in any continuation. */
  lemma {:induction false} StartedIsNotStartedAgain(m: int, before: seq<Action>, after: seq<Action>, a: Action,
                                                    r: RunId)
    requires r in Reached(m, before).db.history.launched
    ensures LaunchOf(Reached(m, before + after), a).Some? ==> LaunchOf(Reached(m, before + after), a).value.runId != r
  {
    hide Reached, Inv, LaunchOf;
    LaunchedStays(m, before, after);
    Steps.InvAlways(m, before + after);
    if LaunchOf(Reached(m, before + after), a).Some? {
      LaunchIsNew(Reached(m, before + after), a);
    }
  }

  /** Action a, taken after the continuation, executes the `running` update of run r. */
  ghost predicate ContinuationStarts(m: int, before: seq<Action>, after: seq<Action>, a: Action, r: RunId) {
    LaunchOf(Reached(m, before + after), a).Some? && LaunchOf(Reached(m, before + after), a).value.runId == r
  }

  lemma CanStartHere(m: int, before: seq<Action>, r: RunId) returns (after: seq<Action>, a: Action)
    requires CanStart(Reached(m, before), r)
    ensures ContinuationStarts(m, before, after, a, r)
  {
    after, a :| Starts(Reached(m, before), after, a, r);
    PlayIsReached(m, before, after);
  }

  lemma NobodyStarts(m: int, before: seq<Action>, after: seq<Action>, a: Action, r: RunId)
    requires r in Reached(m, before).db.runs && ContinuationStarts(m, before, after, a, r)
    ensures var s := Reached(m, before);
            m >= 1 && Startable(s.db, r) && (IsPending(s.db, r) || !Free(s, r))
  {
    var s := Reached(m, before);
    hide Reached, Inv, Free, LaunchOf;
    Steps.InvAlways(m, before);
    DbFacts(s);
    if m <= 0 {
      NoSlotNoStart(m, before + after, a);
    }
    if !Startable(s.db, r) {
      StartedIsNotStartedAgain(m, before, after, a, r);
    }
    if Free(s, r) && !IsPending(s.db, r) {
      RowIsKnown(m, before, r);
      RetiredIsNeverLaunched(m, before, after, a, r);
    }
  }

  /**
   * From every reachable state, for every run row: some continuation starts the run if and only if there is a
   * slot, and the row is pending, or stopped with a closure or an activity that stands for it.
   */
  lemma {:induction false} CanStartIff(m: int, before: seq<Action>, r: RunId)
    requires r in Reached(m, before).db.runs
    ensures var s := Reached(m, before);
            (exists after, a :: ContinuationStarts(m, before, after, a, r)) <==>
            m >= 1 && (s.db.runs[r].status == Pending || (s.db.runs[r].status == Stopped && !Free(s, r)))
  {
    var s := Reached(m, before);
    hide Reached, Inv, Free, ContinuationStarts, CanStart;
    Steps.InvAlways(m, before);
    CapIsConstant(m, before);
    if after, a :| ContinuationStarts(m, before, after, a, r) {
      NobodyStarts(m, before, after, a, r);
    }
    if m >= 1 && (s.db.runs[r].status == Pending || (s.db.runs[r].status == Stopped && !Free(s, r))) {
      if s.db.runs[r].status == Pending {
        FromPending(s, r);
      } else {
        FromStoppedClaim(s, r);
      }
      var after, a := CanStartHere(m, before, r);
    }
  }
}
