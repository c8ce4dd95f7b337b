/** What the invariant means for every run of the engine, crashes and restarts included. */
module RunEngineTheorems {
  import opened Prelude
  import opened RunTable
  import opened RunEngine
  import opened RunEngineControl
  import opened RunEngineInvariant
  import Steps = RunEngineSteps
  import Mutex = ResourceMutex

  // Runs and their parts

  lemma Snoc(before: seq<Action>, after: seq<Action>)
    requires after != []
    ensures before + after == (before + after[..|after| - 1]) + [after[|after| - 1]]
  {
  }

  lemma OneMore(m: int, actions: seq<Action>, a: Action)
    ensures Reached(m, actions + [a]) == Apply(Reached(m, actions), a)
  {
    assert (actions + [a])[..|actions|] == actions;
  }

  lemma Between(actions: seq<Action>, i: nat, j: nat)
    requires i < j <= |actions|
    ensures (actions[..i] + [actions[i]]) + actions[i + 1..j] == actions[..j]
  {
  }

  // Limits and ranks

  /** A task with `times = n` never has more than n rows, and its rows carry exactly the ranks 1..count. */
  lemma {:induction false} LimitAndRanks(m: int, actions: seq<Action>, t: TaskId)
    requires var db := Reached(m, actions).db; t in db.tasks && db.tasks[t].times.Some?
    ensures var db := Reached(m, actions).db;
            && Count(db.runs, t) <= Max(0, db.tasks[t].times.value)
            && (forall k: nat :: (exists r :: r in OfTask(db.runs, t) && db.runs[r].rank == Ranked(k)) <==>
                            1 <= k <= Count(db.runs, t))
            && (forall r, r' :: r in OfTask(db.runs, t) && r' in OfTask(db.runs, t) && r != r' ==>
                  db.runs[r].rank != db.runs[r'].rank)
  {
    var db := Reached(m, actions).db;
    Steps.InvAlways(m, actions);
    DbFacts(Reached(m, actions));
    EverOfLiving(db, t);
    forall k: nat
      ensures (exists r :: r in OfTask(db.runs, t) && db.runs[r].rank == Ranked(k)) <==> 1 <= k <= Count(db.runs, t)
    {
      RanksAreExactlyOneToCount(db.runs, t, k);
    }
  }

  lemma DbFacts(s: State)
    requires Inv(s)
    ensures HistoryOk(s.db) && RowsOk(s.db) && LimitsOk(s.db)
  {
  }

  /** Even deleted rows counted, no more than `times` runs are ever registered for a task. */
  lemma {:induction false} EverRegistered(m: int, actions: seq<Action>, t: TaskId)
    requires var db := Reached(m, actions).db; t in db.history.limits && db.history.limits[t].Some?
    ensures var db := Reached(m, actions).db; |EverOf(db, t)| <= Max(0, db.history.limits[t].value)
  {
    Steps.InvAlways(m, actions);
    DbFacts(Reached(m, actions));
  }

  /** A count read under the lock is still the number of rows when the insert is executed. */
  lemma {:induction false} CountStaysCurrent(m: int, actions: seq<Action>, pid: Pid)
    requires var s := Reached(m, actions);
             pid in s.procs && s.procs[pid].CallbackInsert? && s.procs[pid].limit.Some? && s.procs[pid].t in s.db.tasks
    ensures var s := Reached(m, actions); var p := s.procs[pid];
            p.rank == Ranked(Count(s.db.runs, p.t) + 1) && Count(s.db.runs, p.t) < p.limit.value
            && s.db.tasks[p.t].times == p.limit
  {
    var s := Reached(m, actions);
    Steps.InvAlways(m, actions);
    Steps.LocalsOf(s, pid);
    Steps.Parts(s);
  }

  // The lock

  function SectionTask(p: Proc): Option<TaskId> {
    if p.CallbackCount? || p.CallbackInsert? || p.CallbackLeave? then Some(p.t) else None
  }

  lemma ControlFacts(s: State)
    requires Inv(s)
    ensures LocksOk(s.locks, ViewsOf(s.procs)) && SlotsOk(s.running, s.maxConcurrency, ViewsOf(s.procs))
    ensures NoIdleSlot(s.running, s.maxConcurrency, s.queue)
    ensures ClaimsUnique(Waiting(ControlOf(s)), ViewsOf(s.procs))
  {
  }

  lemma SectionsAreViewed(procs: map<Pid, Proc>)
    ensures forall p :: p in procs ==> ViewsOf(procs)[p].section == SectionTask(procs[p])
  {
  }

  /** A label is locked exactly while some activity is between the count and the release for it, and only one is. */
  lemma {:induction false} LockSetIsExact(m: int, actions: seq<Action>, key: string)
    ensures var s := Reached(m, actions);
            key in s.locks <==>
              exists p :: p in s.procs && SectionTask(s.procs[p]).Some? && Label(SectionTask(s.procs[p]).value) == key
  {
    var s := Reached(m, actions);
    var views := ViewsOf(s.procs);
    Steps.InvAlways(m, actions);
    hide Inv, Reached, Label, SlotsOk, NoIdleSlot, ClaimsUnique;
    ControlFacts(s);
    SectionsAreViewed(s.procs);
    if key in s.locks {
      var p :| p in views && Holds(views[p], key);
      assert p in s.procs && SectionTask(s.procs[p]).Some?;
    }
  }

  lemma {:induction false} MutualExclusion(m: int, actions: seq<Action>, p: Pid, q: Pid)
    requires var s := Reached(m, actions);
             && p in s.procs && q in s.procs && SectionTask(s.procs[p]).Some?
             && SectionTask(s.procs[p]) == SectionTask(s.procs[q])
    ensures p == q
  {
    var s := Reached(m, actions);
    var views := ViewsOf(s.procs);
    Steps.InvAlways(m, actions);
    ControlFacts(s);
    assert views[p].section == SectionTask(s.procs[p]) && views[q].section == SectionTask(s.procs[q]);
  }

  /** Whether resuming `pid` tests the lock set: the retry check comes first. */
  predicate IsLockTest(s: State, a: Action, pid: Pid) {
    a.Resume? && a.pid == pid && pid in s.procs && s.procs[pid].CallbackLock? && s.procs[pid].retry < Mutex.RETRY_NUMBER
  }

  ghost function LockTests(m: int, actions: seq<Action>, pid: Pid): nat {
    if actions == [] then 0
    else
      var n := |actions| - 1;
      LockTests(m, actions[..n], pid) + (if IsLockTest(Reached(m, actions[..n]), actions[n], pid) then 1 else 0)
  }

  /** How many tests an activity may have behind it. */
  predicate TestsMatch(s: State, pid: Pid, tests: nat) {
    && tests <= Mutex.RETRY_NUMBER
    && (pid >= s.nextPid ==> tests == 0)
    && (pid in s.procs && s.procs[pid].CallbackRead? ==> tests == 0)
    && (pid in s.procs && s.procs[pid].CallbackLock? ==> tests <= s.procs[pid].retry)
  }

  /** What a step does to the activity `pid`: nothing, unless it is the one resumed or a new one. */
  predicate Follows(s: State, s': State, pid: Pid) {
    && s'.nextPid >= s.nextPid
    && (pid in s'.procs ==>
          || (pid in s.procs && s'.procs[pid] == s.procs[pid])
          || (pid >= s.nextPid && (s'.procs[pid].ExecRead? || s'.procs[pid].BuildEnv?)))
  }

  lemma CallbackFollows(s: State, pid: Pid, p: Proc, o: Oracle, q: Pid)
    requires q != pid && IsCallback(p)
    requires forall r :: r in s.procs ==> r < s.nextPid
    ensures Follows(s, CallbackStep(s, pid, p, o), q)
  {
  }

  lemma ExecFollows(s: State, pid: Pid, p: Proc, o: Oracle, q: Pid)
    requires q != pid && IsExec(p)
    requires forall r :: r in s.procs ==> r < s.nextPid
    ensures Follows(s, ExecStep(s, pid, p, o), q)
  {
  }

  lemma RequestFollows(s: State, pid: Pid, p: Proc, o: Oracle, q: Pid)
    requires q != pid && IsRequestOnly(p) && (forall r :: r in s.procs ==> r < s.nextPid)
    ensures Follows(s, RequestStep(s, pid, p, o), q)
  {
  }

  lemma OthersUntouched(s: State, pid: Pid, o: Oracle, q: Pid)
    requires pid in s.procs && q != pid && (forall p :: p in s.procs ==> p < s.nextPid)
    ensures Follows(s, ResumeStep(s, pid, o), q)
  {
    hide CallbackStep, ExecStep, RequestStep;
    var p := s.procs[pid];
    if IsRequestOnly(p) {
      RequestFollows(s, pid, p, o, q);
    } else if IsStop(p) || p.BuildEnv? {
    } else if IsCallback(p) {
      CallbackFollows(s, pid, p, o, q);
    } else {
      ExecFollows(s, pid, p, o, q);
    }
  }

  lemma ResumedTests(s: State, pid: Pid, o: Oracle, tests: nat)
    requires pid in s.procs && (forall p :: p in s.procs ==> p < s.nextPid) && TestsMatch(s, pid, tests)
    ensures TestsMatch(ResumeStep(s, pid, o), pid,
                       tests + (if IsLockTest(s, Resume(pid, o), pid) then 1 else 0))
  {
    hide CallbackStep, ExecStep, RequestStep, StopStep;
    var p := s.procs[pid];
    if IsRequestOnly(p) {
      RequestStepTests(s, pid, o);
    } else if IsStop(p) {
      StopStepTests(s, pid, o);
    } else if p.BuildEnv? {
    } else if IsCallback(p) {
      CallbackStepTests(s, pid, o);
    } else {
      ExecStepTests(s, pid, o);
    }
  }

  /** The activity that was resumed is no longer before, or at, a test of the lock. */
  predicate PastTests(s: State, s': State, pid: Pid) {
    s'.nextPid >= s.nextPid && (pid in s'.procs ==> !s'.procs[pid].CallbackRead? && !s'.procs[pid].CallbackLock?)
  }

  lemma RequestStepTests(s: State, pid: Pid, o: Oracle)
    requires pid in s.procs && pid < s.nextPid && IsRequestOnly(s.procs[pid])
    ensures PastTests(s, RequestStep(s, pid, s.procs[pid], o), pid)
  {
  }

  lemma StopStepTests(s: State, pid: Pid, o: Oracle)
    requires pid in s.procs && pid < s.nextPid
    requires IsStop(s.procs[pid])
    ensures PastTests(s, StopStep(s, pid, s.procs[pid], o), pid)
  {
  }

  lemma ExecStepTests(s: State, pid: Pid, o: Oracle)
    requires pid in s.procs && pid < s.nextPid
    requires IsExec(s.procs[pid])
    ensures PastTests(s, ExecStep(s, pid, s.procs[pid], o), pid)
  {
  }

  /** A test that finds the label locked counts one more retry; the first test comes with retry 0. */
  lemma CallbackStepTests(s: State, pid: Pid, o: Oracle)
    requires pid in s.procs && pid < s.nextPid
    requires IsCallback(s.procs[pid])
    ensures var p, s' := s.procs[pid], CallbackStep(s, pid, s.procs[pid], o);
            && s'.nextPid >= s.nextPid
            && (pid in s'.procs ==> !s'.procs[pid].CallbackRead?)
            && (pid in s'.procs && s'.procs[pid].CallbackLock? ==>
                  || p.CallbackRead?
                  || (p.CallbackLock? && p.retry < Mutex.RETRY_NUMBER && s'.procs[pid].retry == p.retry + 1))
  {
    hide InsertRun;
  }

  lemma PidsBounded(s: State)
    requires Inv(s)
    ensures forall p :: p in s.procs ==> p < s.nextPid
  {
    forall p | p in s.procs ensures p < s.nextPid {
      Steps.LocalsOf(s, p);
    }
  }

  lemma BootStepFollows(s: State, o: Oracle, q: Pid)
    requires forall p :: p in s.procs ==> p < s.nextPid
    ensures Follows(s, BootStepState(s, o), q)
  {
  }

  lemma StepTests(s: State, a: Action, pid: Pid, tests: nat)
    requires Inv(s) && TestsMatch(s, pid, tests)
    ensures TestsMatch(Apply(s, a), pid, tests + (if IsLockTest(s, a, pid) then 1 else 0))
  {
    hide Inv;
    PidsBounded(s);
    match a
    case Resume(p, o) =>
      if p in s.procs {
        if p == pid {
          ResumedTests(s, pid, o, tests);
        } else {
          OthersUntouched(s, p, o, pid);
        }
      }
    case BootStep(o) => BootStepFollows(s, o, pid);
    case _ =>
  }

  /** Every caller tests the lock at most `retryNumber` times, in every interleaving. */
  lemma {:induction false} LockTestsBounded(m: int, actions: seq<Action>, pid: Pid)
    ensures LockTests(m, actions, pid) <= 5
    ensures TestsMatch(Reached(m, actions), pid, LockTests(m, actions, pid))
  {
    if actions != [] {
      var n := |actions| - 1;
      LockTestsBounded(m, actions[..n], pid);
      Steps.InvAlways(m, actions[..n]);
      StepTests(Reached(m, actions[..n]), actions[n], pid, LockTests(m, actions[..n], pid));
    }
  }

  // The queue inside the engine

  function ExecutorPids(s: State): set<Pid> {
    set p | p in s.procs && IsExecutor(s.procs[p])
  }

  predicate IsExecutor(p: Proc) {
    IsExec(p) || (IsStop(p) && p.caller.ByExecutor?)
  }

  lemma ExecutorsAreViews(procs: map<Pid, Proc>)
    ensures Executors(ViewsOf(procs)) == (set p | p in procs && IsExecutor(procs[p]))
  {
    forall p | p in procs ensures ViewOf(procs[p]).executor == IsExecutor(procs[p]) {
    }
  }

  /**
   * The `running` counter is the number of executors in flight, within the cap, and no slot idles while a
   * closure waits.
   */
  lemma {:induction false} SlotsAreExact(m: int, actions: seq<Action>)
    ensures var s := Reached(m, actions);
            && s.running == |ExecutorPids(s)| <= Max(0, m)
            && (s.queue != [] ==> s.running == Max(0, m))
  {
    var s := Reached(m, actions);
    Steps.InvAlways(m, actions);
    hide Inv;
    ControlFacts(s);
    CapIsConstant(m, actions);
    ExecutorsAreViews(s.procs);
    assert ExecutorPids(s) == Executors(ViewsOf(s.procs));
  }

  lemma ResumeCap(s: State, pid: Pid, o: Oracle)
    requires pid in s.procs
    ensures ResumeStep(s, pid, o).maxConcurrency == s.maxConcurrency
  {
  }

  lemma {:induction false} CapIsConstant(m: int, actions: seq<Action>)
    ensures Reached(m, actions).maxConcurrency == m
  {
    if actions != [] {
      var n := |actions| - 1;
      CapIsConstant(m, actions[..n]);
      var s, a := Reached(m, actions[..n]), actions[n];
      if a.Resume? && a.pid in s.procs {
        ResumeCap(s, a.pid, a.o);
      }
    }
  }

  // The life of a run row

  /** The moves of one row's status within one step. */
  predicate Allowed(from: Status, to: Status) {
    || from == to
    || (from == Pending && to in {Running, Stopped})
    || (from == Stopped && to == Running)
    || (from == Running && to in {Succeed, Failed})
  }

  /** Rows only move along the allowed edges, keep owner, rank and creation time, and are born pending. */
  ghost predicate RowsMove(db: Db, db': Db) {
    && (forall r :: r in db.runs && r in db'.runs ==>
          && Allowed(db.runs[r].status, db'.runs[r].status)
          && db'.runs[r].taskId == db.runs[r].taskId && db'.runs[r].rank == db.runs[r].rank
          && db'.runs[r].createdAt == db.runs[r].createdAt)
    && (forall r :: r in db'.runs && r !in db.runs ==> r == db.nextRun < db'.nextRun && db'.runs[r].status == Pending)
    && db.nextRun <= db'.nextRun
  }

  lemma LaunchMoves(db: Db, h: RunHandle, handleId: string, now: Time)
    requires ClaimOk(db, h, false)
    ensures RowsMove(db, LaunchRun(db, h, handleId, now))
  {
  }

  lemma FinishMoves(db: Db, h: RunHandle, success: bool, now: Time)
    requires ClaimOk(db, h, true)
    ensures RowsMove(db, FinishRun(db, h, success, now))
  {
  }

  lemma ClaimMeans(s: State, pid: Pid)
    requires Inv(s) && pid in s.procs && (s.procs[pid].ExecStart? || s.procs[pid].ExecFinish?)
    ensures ClaimOk(s.db, s.procs[pid].h, s.procs[pid].ExecFinish?)
  {
    hide Inv;
    Steps.ClaimOf(s, pid);
  }

  lemma ExecMoves(s: State, pid: Pid, o: Oracle)
    requires pid in s.procs
    requires IsExec(s.procs[pid])
    requires s.procs[pid].ExecStart? ==> ClaimOk(s.db, s.procs[pid].h, false)
    requires s.procs[pid].ExecFinish? ==> ClaimOk(s.db, s.procs[pid].h, true)
    ensures RowsMove(s.db, ExecStep(s, pid, s.procs[pid], o).db)
  {
    hide LaunchRun, FinishRun;
    match s.procs[pid]
    case ExecStart(h, _, handleId) => LaunchMoves(s.db, h, handleId, o.now);
    case ExecFinish(h, _, success) => FinishMoves(s.db, h, success, o.now);
    case _ =>
  }

  lemma CallbackMoves(s: State, pid: Pid, p: Proc, o: Oracle)
    requires IsCallback(p)
    requires forall r :: r in s.db.runs ==> r < s.db.nextRun
    ensures RowsMove(s.db, CallbackStep(s, pid, p, o).db)
  {
  }

  lemma RequestMoves(s: State, pid: Pid, p: Proc, o: Oracle)
    requires IsRequestOnly(p)
    ensures RowsMove(s.db, RequestStep(s, pid, p, o).db)
  {
  }

  lemma StopMoves(s: State, pid: Pid, p: Proc, o: Oracle)
    requires IsStop(p)
    ensures RowsMove(s.db, StopStep(s, pid, p, o).db)
  {
  }

  lemma StandStill(db: Db)
    ensures RowsMove(db, db)
  {
  }

  lemma ResumeMoves(s: State, pid: Pid, o: Oracle)
    requires Inv(s) && pid in s.procs
    ensures RowsMove(s.db, ResumeStep(s, pid, o).db)
  {
    hide Inv, RowsMove, CallbackStep, ExecStep, RequestStep, StopStep;
    var p := s.procs[pid];
    DbFacts(s);
    StandStill(s.db);
    if IsRequestOnly(p) {
      RequestMoves(s, pid, p, o);
    } else if IsStop(p) {
      StopMoves(s, pid, p, o);
    } else if p.BuildEnv? {
    } else if IsCallback(p) {
      CallbackMoves(s, pid, p, o);
    } else {
      if p.ExecStart? || p.ExecFinish? {
        ClaimMeans(s, pid);
      }
      ExecMoves(s, pid, o);
    }
  }

  lemma StepMoves(s: State, a: Action)
    requires Inv(s)
    ensures RowsMove(s.db, Apply(s, a).db)
  {
    hide Inv, RowsMove, ResumeStep;
    StandStill(s.db);
    if a.Resume? && a.pid in s.procs {
      ResumeMoves(s, a.pid, a.o);
    }
  }

  /** Every step of every run: the status of a row moves along an allowed edge, and a new row is pending. */
  lemma {:induction false} RowLifecycle(m: int, actions: seq<Action>, a: Action)
    ensures RowsMove(Reached(m, actions).db, Reached(m, actions + [a]).db)
  {
    Steps.InvAlways(m, actions);
    StepMoves(Reached(m, actions), a);
    assert (actions + [a])[..|actions|] == actions;
  }

  /** In every reachable state the columns a status calls for are filled. */
  lemma {:induction false} RowsAreFilled(m: int, actions: seq<Action>, r: RunId)
    requires r in Reached(m, actions).db.runs
    ensures var row := Reached(m, actions).db.runs[r];
            match row.status
            case Pending => row.handleId.None? && row.startedAt.None? && row.finishedAt.None?
            case Running => row.handleId.Some? && row.startedAt.Some?
            case Stopped => row.finishedAt.Some?
            case _ => row.handleId.Some? && row.startedAt.Some? && row.finishedAt.Some?
  {
    Steps.InvAlways(m, actions);
    DbFacts(Reached(m, actions));
  }

  function Progress(status: Status): nat {
    match status
    case Pending => 0
    case Stopped => 1
    case Running => 2
    case Succeed => 3
    case Failed => 3
  }

  /** Over any stretch of a run: no way back, `pending` is not entered again, `succeed` and `failed` are final. */
  lemma {:induction false} NoWayBack(m: int, before: seq<Action>, after: seq<Action>, r: RunId)
    requires r < Reached(m, before).db.nextRun && r in Reached(m, before + after).db.runs
    ensures r in Reached(m, before).db.runs
    ensures Reached(m, before).db.nextRun <= Reached(m, before + after).db.nextRun
    ensures var x, y := Reached(m, before).db.runs[r].status, Reached(m, before + after).db.runs[r].status;
            x == y || Progress(x) < Progress(y)
    decreases |after|
  {
    if after == [] {
      assert before + after == before;
    } else {
      var n := |after| - 1;
      var mid := before + after[..n];
      assert before + after == mid + [after[n]];
      RowLifecycle(m, mid, after[n]);
      NextRunGrows(m, before, after[..n]);
      NoWayBack(m, before, after[..n], r);
    }
  }

  lemma {:induction false} NextRunGrows(m: int, before: seq<Action>, after: seq<Action>)
    ensures Reached(m, before).db.nextRun <= Reached(m, before + after).db.nextRun
    decreases |after|
  {
    if after == [] {
      assert before + after == before;
    } else {
      var n := |after| - 1;
      assert before + after == (before + after[..n]) + [after[n]];
      NextRunGrows(m, before, after[..n]);
      RowLifecycle(m, before + after[..n], after[n]);
    }
  }

  // Starting runs

  /** The step executes the `running` update of this run. */
  function LaunchOf(s: State, a: Action): Option<RunHandle> {
    if a.Resume? && a.pid in s.procs && s.procs[a.pid].ExecStart? && a.o.ok then Some(s.procs[a.pid].h) else None
  }

  /** How a step changes the auxiliary record. */
  ghost predicate HistoryMoves(db: Db, db': Db, launch: Option<RunHandle>) {
    && db'.history.launched == db.history.launched + (if launch.Some? then {launch.value.runId} else {})
    && (forall r :: r in db.history.created ==>
          r in db'.history.created && db'.history.created[r] == db.history.created[r])
    && (forall r :: r in db'.history.created && r !in db.history.created ==> r == db.nextRun)
    && (forall t :: t in db.history.limits ==> t in db'.history.limits && db'.history.limits[t] == db.history.limits[t])
  }

  lemma ExecHistory(s: State, pid: Pid, o: Oracle)
    requires pid in s.procs
    requires IsExec(s.procs[pid])
    ensures HistoryMoves(s.db, ExecStep(s, pid, s.procs[pid], o).db, LaunchOf(s, Resume(pid, o)))
  {
  }

  lemma CallbackHistory(s: State, pid: Pid, p: Proc, o: Oracle)
    requires IsCallback(p)
    requires forall r :: r in s.db.history.created ==> r < s.db.nextRun
    ensures HistoryMoves(s.db, CallbackStep(s, pid, p, o).db, None)
  {
  }

  lemma RequestHistory(s: State, pid: Pid, p: Proc, o: Oracle)
    requires IsRequestOnly(p) && (forall t :: t in s.db.history.limits ==> t < s.db.nextTask)
    ensures HistoryMoves(s.db, RequestStep(s, pid, p, o).db, None)
  {
  }

  lemma StopHistory(s: State, pid: Pid, p: Proc, o: Oracle)
    requires IsStop(p)
    ensures HistoryMoves(s.db, StopStep(s, pid, p, o).db, None)
  {
  }

  lemma SameHistory(db: Db)
    ensures HistoryMoves(db, db, None)
  {
  }

  lemma StepHistory(s: State, a: Action)
    requires Inv(s)
    ensures HistoryMoves(s.db, Apply(s, a).db, LaunchOf(s, a))
  {
    hide Inv, HistoryMoves, CallbackStep, ExecStep, RequestStep, StopStep;
    DbFacts(s);
    SameHistory(s.db);
    if a.Resume? && a.pid in s.procs {
      var pid, p := a.pid, s.procs[a.pid];
      if IsRequestOnly(p) {
        RequestHistory(s, pid, p, a.o);
      } else if IsStop(p) {
        StopHistory(s, pid, p, a.o);
      } else if p.BuildEnv? {
      } else if IsCallback(p) {
        CallbackHistory(s, pid, p, a.o);
      } else {
        ExecHistory(s, pid, a.o);
      }
    }
  }

  lemma LaunchIsNew(s: State, a: Action)
    requires Inv(s) && LaunchOf(s, a).Some?
    ensures var h := LaunchOf(s, a).value;
            && h.runId !in s.db.history.launched
            && h.runId in s.db.history.created && s.db.history.created[h.runId] == h.taskId
  {
    ClaimMeans(s, a.pid);
  }

  lemma {:induction false} LaunchedStays(m: int, before: seq<Action>, after: seq<Action>)
    ensures Reached(m, before).db.history.launched <= Reached(m, before + after).db.history.launched
    decreases |after|
  {
    hide Inv, Apply;
    if after == [] {
      assert before + after == before;
    } else {
      var n := |after| - 1;
      var mid := before + after[..n];
      assert (before + after)[..|mid|] == mid;
      LaunchedStays(m, before, after[..n]);
      Steps.InvAlways(m, mid);
      StepHistory(Reached(m, mid), after[n]);
    }
  }

  /** The `running` update of one run is executed at most once, over any run with any number of crashes. */
  lemma {:induction false} LaunchedAtMostOnce(m: int, actions: seq<Action>, i: nat, j: nat)
    requires i < j < |actions|
    requires LaunchOf(Reached(m, actions[..i]), actions[i]).Some?
    requires LaunchOf(Reached(m, actions[..j]), actions[j]).Some?
    ensures LaunchOf(Reached(m, actions[..i]), actions[i]).value.runId !=
            LaunchOf(Reached(m, actions[..j]), actions[j]).value.runId
  {
    hide Reached, Apply, Inv, LaunchOf;
    Steps.InvAlways(m, actions[..i]);
    StepHistory(Reached(m, actions[..i]), actions[i]);
    OneMore(m, actions[..i], actions[i]);
    LaunchedStays(m, actions[..i] + [actions[i]], actions[i + 1..j]);
    Between(actions, i, j);
    Steps.InvAlways(m, actions[..j]);
    LaunchIsNew(Reached(m, actions[..j]), actions[j]);
  }

  /** How many times runs of task `t` have been started, in the whole past. */
  ghost function Launches(m: int, actions: seq<Action>, t: TaskId): nat {
    if actions == [] then 0
    else
      var n := |actions| - 1;
      var launch := LaunchOf(Reached(m, actions[..n]), actions[n]);
      Launches(m, actions[..n], t) + (if launch.Some? && launch.value.taskId == t then 1 else 0)
  }

  function LaunchedOf(db: Db, t: TaskId): set<RunId> {
    EverOf(db, t) * db.history.launched
  }

  lemma LaunchedOfMoves(db: Db, db': Db, launch: Option<RunHandle>, t: TaskId)
    requires HistoryOk(db) && HistoryMoves(db, db', launch)
    requires launch.Some? ==>
               launch.value.runId !in db.history.launched && launch.value.runId in db.history.created &&
               db.history.created[launch.value.runId] == launch.value.taskId
    ensures |LaunchedOf(db', t)| == |LaunchedOf(db, t)| + (if launch.Some? && launch.value.taskId == t then 1 else 0)
  {
    var added := if launch.Some? && launch.value.taskId == t then {launch.value.runId} else {};
    assert LaunchedOf(db', t) == LaunchedOf(db, t) + added;
  }

  /** Conservation: starts of a task counted over the whole past are the started runs on record. */
  lemma {:induction false} LaunchesAreCounted(m: int, actions: seq<Action>, t: TaskId)
    ensures Launches(m, actions, t) == |LaunchedOf(Reached(m, actions).db, t)|
  {
    if actions == [] {
      assert LaunchedOf(Reached(m, actions).db, t) == {};
    } else {
      var n := |actions| - 1;
      var s, a := Reached(m, actions[..n]), actions[n];
      LaunchesAreCounted(m, actions[..n], t);
      Steps.InvAlways(m, actions[..n]);
      DbFacts(s);
      StepHistory(s, a);
      if LaunchOf(s, a).Some? {
        LaunchIsNew(s, a);
      }
      hide Inv;
      LaunchedOfMoves(s.db, Apply(s, a).db, LaunchOf(s, a), t);
    }
  }

  /** A task with `times = n` has at most n runs ever started, whatever crashes, stops, restarts and deletions. */
  lemma {:induction false} AtMostTimesLaunches(m: int, actions: seq<Action>, t: TaskId)
    requires var db := Reached(m, actions).db; t in db.history.limits && db.history.limits[t].Some?
    ensures Launches(m, actions, t) <= Max(0, Reached(m, actions).db.history.limits[t].value)
  {
    var db := Reached(m, actions).db;
    LaunchesAreCounted(m, actions, t);
    EverRegistered(m, actions, t);
    SubsetSize(LaunchedOf(db, t), EverOf(db, t));
  }

  /**
   * The record of a limit is the limit of the task for as long as the task exists, whatever updates it went
   * through.
   */
  lemma {:induction false} LimitOnRecord(m: int, actions: seq<Action>, t: TaskId)
    requires t in Reached(m, actions).db.tasks
    ensures var db := Reached(m, actions).db; t in db.history.limits && db.history.limits[t] == db.tasks[t].times
  {
    Steps.InvAlways(m, actions);
    DbFacts(Reached(m, actions));
  }

  lemma {:induction false} LimitStays(m: int, before: seq<Action>, after: seq<Action>, t: TaskId)
    requires t in Reached(m, before).db.history.limits
    ensures var limits := Reached(m, before + after).db.history.limits;
            t in limits && limits[t] == Reached(m, before).db.history.limits[t]
    decreases |after|
  {
    if after == [] {
      assert before + after == before;
    } else {
      hide Reached, Apply, Inv, LaunchOf;
      var n := |after| - 1;
      LimitStays(m, before, after[..n], t);
      Snoc(before, after);
      OneMore(m, before + after[..n], after[n]);
      Steps.InvAlways(m, before + after[..n]);
      StepHistory(Reached(m, before + after[..n]), after[n]);
    }
  }

  /** The `times` of a task is the same before and after any stretch of a run, with any updates in it. */
  lemma {:induction false} TimesNeverChange(m: int, before: seq<Action>, after: seq<Action>, t: TaskId)
    requires t in Reached(m, before).db.tasks && t in Reached(m, before + after).db.tasks
    ensures Reached(m, before + after).db.tasks[t].times == Reached(m, before).db.tasks[t].times
  {
    hide Reached;
    LimitOnRecord(m, before, t);
    LimitOnRecord(m, before + after, t);
    LimitStays(m, before, after, t);
  }

  /**
   * At most one closure or activity stands for a run, wherever it is: two activities stand for two runs, and
   * no waiting closure, queued or about to be queued by a starting server, is for the run of another one or
   * of an activity.
   */
  lemma {:induction false} OneClaimPerRun(m: int, actions: seq<Action>)
    ensures var s := Reached(m, actions);
            forall p, q :: p in s.procs && q in s.procs && p != q && ViewOf(s.procs[p]).claim.Some? ==>
              !Claims(ViewOf(s.procs[q]), ViewOf(s.procs[p]).claim.value.runId)
    ensures var waiting := Waiting(ControlOf(Reached(m, actions)));
            forall i, j :: 0 <= i < j < |waiting| ==> waiting[i].runId != waiting[j].runId
    ensures var s := Reached(m, actions); var waiting := Waiting(ControlOf(s));
            forall i, p :: 0 <= i < |waiting| && p in s.procs ==> !Claims(ViewOf(s.procs[p]), waiting[i].runId)
  {
    var s := Reached(m, actions);
    Steps.InvAlways(m, actions);
    hide Reached, Inv, Claims, ViewOf;
    ControlFacts(s);
    var views := ViewsOf(s.procs);
    assert forall p :: p in s.procs ==> p in views && views[p] == ViewOf(s.procs[p]);
  }
}
