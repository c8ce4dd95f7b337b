/**
 * Why a task stops: which run is its last, who may deactivate it, when its cron job is stopped, and when a
 * callback is refused.
 */
module RunEngineEndings {
  import opened Prelude
  import opened RunTable
  import opened RunEngine
  import opened RunEngineControl
  import opened RunEngineInvariant
  import opened RunEngineTheorems
  import opened RunEngineEffects
  import opened RunEngineRecords
  import Steps = RunEngineSteps

  // What an executor knows of its run

  /** The handle is that of a run on record, and its rank is that of the row. */
  ghost predicate HandleOk(db: Db, h: RunHandle) {
    && h.runId in db.history.created && db.history.created[h.runId] == h.taskId
    && (h.runId in db.runs ==> db.runs[h.runId].taskId == h.taskId && db.runs[h.runId].rank == h.rank)
  }

  /** Its limit is that of the task, and only the last run of a limited task goes on to stop it. */
  ghost predicate ExecKnows(db: Db, p: Proc) {
    match p
    case ExecLaunchEnv(h, limit) => HandleOk(db, h) && Known(db, h.taskId, limit)
    case ExecStart(h, limit, _) => HandleOk(db, h) && Known(db, h.taskId, limit)
    case ExecWait(h, limit) => HandleOk(db, h) && Known(db, h.taskId, limit)
    case ExecFinish(h, limit, _) => HandleOk(db, h) && Known(db, h.taskId, limit)
    case ExecDeleteEnv(h, limit) => HandleOk(db, h) && Known(db, h.taskId, limit)
    case ExecSystemStop(h) =>
      HandleOk(db, h) && h.taskId in db.history.limits && IsLast(h, db.history.limits[h.taskId])
    case ExecDeactivate(h) =>
      HandleOk(db, h) && h.taskId in db.history.limits && IsLast(h, db.history.limits[h.taskId])
    case _ => true
  }

  lemma HandleStays(db: Db, db': Db, launch: Option<RunHandle>, h: RunHandle)
    requires HandleOk(db, h) && RowsMove(db, db') && HistoryMoves(db, db', launch) && HistoryOk(db)
    ensures HandleOk(db', h)
  {
  }

  lemma KnowledgeStays(db: Db, db': Db, launch: Option<RunHandle>, p: Proc)
    requires ExecKnows(db, p) && RowsMove(db, db') && HistoryMoves(db, db', launch) && HistoryOk(db)
    ensures ExecKnows(db', p)
  {
    hide HandleOk, RowsMove, HistoryOk;
    if IsExec(p) && !p.ExecRead? && !p.ExecDone? {
      KnownHandle(db, p);
      HandleStays(db, db', launch, p.h);
    }
  }

  lemma KnownHandle(db: Db, p: Proc)
    requires ExecKnows(db, p) && IsExec(p) && !p.ExecRead? && !p.ExecDone?
    ensures HandleOk(db, p.h)
  {
  }

  lemma ReadKnowsHandle(s: State, pid: Pid)
    requires Inv(s) && pid in s.procs && s.procs[pid].ExecRead?
    ensures HandleOk(s.db, s.procs[pid].h)
  {
    Steps.ClaimOf(s, pid);
    DbFacts(s);
  }

  /** The next part of an executor knows what the one before did. */
  lemma KnowledgePasses(s: State, pid: Pid, o: Oracle, q: Proc)
    requires Inv(s) && pid in s.procs && ExecKnows(s.db, s.procs[pid]) && CameFrom(s, s.procs[pid], o, q)
    ensures ExecKnows(s.db, q)
  {
    DbFacts(s);
    if IsExec(q) {
      CameFromParts(s, s.procs[pid], o, q);
      hide Inv, HandleOk, CameFrom, RowsOk, LimitsOk;
      if q.ExecLaunchEnv? {
        ReadKnowsHandle(s, pid);
      }
    }
  }

  lemma {:induction false} ExecKnowsAlways(m: int, actions: seq<Action>, pid: Pid)
    requires pid in Reached(m, actions).procs
    ensures ExecKnows(Reached(m, actions).db, Reached(m, actions).procs[pid])
  {
    var n, q := |actions| - 1, Reached(m, actions).procs[pid];
    var s, a := Reached(m, actions[..n]), actions[n];
    ChangedByLastStep(m, actions);
    StepMoves(s, a);
    StepHistory(s, a);
    DbFacts(s);
    hide Inv, Apply, RunChanges, TaskChanges, CameFrom, ExecKnows, RowsMove, HistoryMoves, RowsOk, LimitsOk, Asks;
    if IsExec(q) && !q.ExecRead? {
      ExecKnowsAlways(m, actions[..n], pid);
      if s.procs[pid] != q {
        KnowledgePasses(s, pid, a.o, q);
      }
      KnowledgeStays(s.db, Apply(s, a).db, LaunchOf(s, a), q);
    } else {
      NothingToKnow(Reached(m, actions).db, q);
    }
  }

  lemma NothingToKnow(db: Db, p: Proc)
    requires !IsExec(p) || p.ExecRead?
    ensures ExecKnows(db, p)
  {
  }

  // The last run

  /** The rank of the run is the limit. */
  predicate RankIs(h: RunHandle, limit: Option<int>) {
    limit.Some? && h.rank.Ranked? && h.rank.n == limit.value
  }

  /** Among the runs of a living task, the last is the one whose rank is the limit. */
  lemma LastHasRankOfLimit(m: int, actions: seq<Action>, h: RunHandle)
    requires var db := Reached(m, actions).db; HandleOk(db, h) && h.taskId in db.tasks
    ensures var limit := Reached(m, actions).db.tasks[h.taskId].times;
            IsLast(h, limit) <==> RankIs(h, limit)
  {
    var db := Reached(m, actions).db;
    Steps.InvAlways(m, actions);
    DbFacts(Reached(m, actions));
    assert h.runId in db.runs;
    if db.tasks[h.taskId].times.Some? {
      LimitAndRanks(m, actions, h.taskId);
      assert h.runId in OfTask(db.runs, h.taskId);
      RanksOfLimited(db, h.taskId, h.runId);
    }
  }

  lemma RanksOfLimited(db: Db, t: TaskId, r: RunId)
    requires LimitsOk(db) && t in db.tasks && db.tasks[t].times.Some? && r in OfTask(db.runs, t)
    ensures db.runs[r].rank.Ranked? && db.runs[r].rank.n <= Count(db.runs, t)
  {
    assert RanksOk(db.runs, t);
  }

  /**
   * When the container of an ended run has been deleted, its executor goes on to stop the task exactly if the
   * rank of the run is the limit of the task; every other run leaves the task alone.
   */
  lemma {:induction false} LastRunStopsTask(m: int, actions: seq<Action>, pid: Pid, o: Oracle)
    requires var s := Reached(m, actions);
             pid in s.procs && s.procs[pid].ExecDeleteEnv? && s.procs[pid].h.taskId in s.db.tasks && o.ok
    ensures var s, s' := Reached(m, actions), Reached(m, actions + [Resume(pid, o)]);
            var h := s.procs[pid].h; var limit := s.db.tasks[h.taskId].times;
            pid in s'.procs && s'.procs[pid] ==
              if limit.Some? && h.rank.Ranked? && h.rank.n == limit.value then ExecSystemStop(h) else ExecDone(h)
  {
    var s := Reached(m, actions);
    ExecKnowsAlways(m, actions, pid);
    LastHasRankOfLimit(m, actions, s.procs[pid].h);
    LimitOnRecord(m, actions, s.procs[pid].h.taskId);
    OneMore(m, actions, Resume(pid, o));
    hide Reached, HandleOk, CallbackStep, StopStep, RequestStep, StopEntry, ExecuteNext;
  }

  lemma NotTheBeginning(m: int, actions: seq<Action>, pid: Pid)
    requires pid in Reached(m, actions).procs
    ensures actions != []
  {
  }

  /** `stopTask` on behalf of an executor: a call or a statement of that run has failed before, at i. */
  lemma {:induction false} FailedRunStopsTask(m: int, actions: seq<Action>, pid: Pid) returns (i: nat)
    requires var s := Reached(m, actions); pid in s.procs && IsStop(s.procs[pid]) && s.procs[pid].caller.ByExecutor?
    ensures i < |actions| && actions[i].Resume? && actions[i].pid == pid && !actions[i].o.ok
    ensures var s, q := Reached(m, actions[..i]), Reached(m, actions).procs[pid];
            pid in s.procs && IsExec(s.procs[pid]) && s.procs[pid].h == q.caller.h && q.t == q.caller.h.taskId
  {
    NotTheBeginning(m, actions, pid);
    hide Inv, Apply, Arrived, RunChanges, TaskChanges, Reached;
    var n, q := |actions| - 1, Reached(m, actions).procs[pid];
    var s := Reached(m, actions[..n]);
    ChangedByLastStep(m, actions);
    StopArrives(s, actions[n], pid, q);
    if IsStop(s.procs[pid]) {
      i := FailedRunStopsTask(m, actions[..n], pid);
      PrefixOfPrefix(actions, n, i);
    } else {
      i := n;
    }
  }

  lemma StopArrives(s: State, a: Action, pid: Pid, q: Proc)
    requires Arrived(s, a, pid, q) && IsStop(q) && q.caller.ByExecutor?
    ensures pid in s.procs
    ensures || (IsStop(s.procs[pid]) && s.procs[pid].t == q.t && s.procs[pid].caller == q.caller)
            || (a.Resume? && a.pid == pid && !a.o.ok && IsExec(s.procs[pid]) && s.procs[pid].h == q.caller.h
                && q.t == q.caller.h.taskId)
  {
    hide CallbackFrom, ExecFrom, RequestFrom;
  }

  /** The activity is at a step of the executor of this run. */
  ghost predicate RunsIn(s: State, pid: Pid, h: RunHandle) {
    pid in s.procs && IsExec(s.procs[pid]) && s.procs[pid].h == h
  }

  lemma InactiveStep(s: State, s': State, a: Action, t: TaskId)
    requires TaskChanges(s.db, s'.db, Done(s, a), t) && IsActive(s.db, t) && t in s'.db.tasks && !IsActive(s'.db, t)
    ensures Done(s, a).Some? && a.Resume? && a.pid in s.procs && s.procs[a.pid] == Done(s, a).value
    ensures var p := Done(s, a).value;
            (p.StopDeactivate? && p.t == t) || (p.ExecDeactivate? && p.h.taskId == t)
  {
  }

  /**
   * A task that is active before a step and inactive after it has been deactivated by a request to stop it, by
   * one of its runs of which something has failed, or by its last run, the one whose rank is its limit.
   */
  lemma {:induction false} DeactivatedOnlyBy(m: int, actions: seq<Action>, a: Action, t: TaskId)
    requires IsActive(Reached(m, actions).db, t)
    requires var db' := Reached(m, actions + [a]).db; t in db'.tasks && !IsActive(db', t)
    ensures var s := Reached(m, actions);
            || (exists i :: 0 <= i < |actions| && actions[i] == Receive(StopTask(t)))
            || (exists i, h: RunHandle :: && 0 <= i < |actions| && actions[i].Resume? && !actions[i].o.ok
                  && h.taskId == t && RunsIn(Reached(m, actions[..i]), actions[i].pid, h))
            || (a.Resume? && exists h :: RunsIn(s, a.pid, h) && h.taskId == t && RankIs(h, s.db.tasks[t].times))
  {
    var s := Reached(m, actions);
    assert (actions + [a])[..|actions|] == actions;
    ChangedByLastStep(m, actions + [a]);
    InactiveStep(s, Reached(m, actions + [a]), a, t);
    hide Inv, Apply, Arrived, RunChanges, TaskChanges, Reached;
    var p := s.procs[a.pid];
    if p.StopDeactivate? && p.caller == ByRequest {
      var i := ActivityIsRequested(m, actions, a.pid);
      assert actions[i] == Receive(StopTask(t));
    } else if p.StopDeactivate? {
      var i := FailedRunStopsTask(m, actions, a.pid);
      assert RunsIn(Reached(m, actions[..i]), actions[i].pid, p.caller.h);
    } else {
      ExecKnowsAlways(m, actions, a.pid);
      LimitOnRecord(m, actions, t);
      LastHasRankOfLimit(m, actions, p.h);
      assert RunsIn(s, a.pid, p.h);
    }
  }

  // Refused callbacks

  /** The task is at its limit: it has no room for a further run. */
  ghost predicate AtLimit(db: Db, t: TaskId) {
    && t in db.history.limits
    && (t in db.tasks ==> db.tasks[t].times.Some? && db.tasks[t].times.value <= Count(db.runs, t))
  }

  predicate IsRefused(p: Proc) {
    p.CallbackUnschedule? || (p.CallbackLeave? && p.outcome == Rejected)
  }

  /** While a task exists its rows only become more. */
  lemma RowsRemain(db: Db, db': Db, done: Option<Proc>, now: Time, t: TaskId)
    requires forall r :: RunChanges(db, db', done, now, r)
    requires TaskChanges(db, db', done, t) && t in db.tasks && t in db'.tasks
    ensures Count(db.runs, t) <= Count(db'.runs, t)
  {
    forall r | r in OfTask(db.runs, t) ensures r in OfTask(db'.runs, t) {
      assert RunChanges(db, db', done, now, r);
    }
    SubsetSize(OfTask(db.runs, t), OfTask(db'.runs, t));
  }

  lemma LimitStaysReached(s: State, s': State, a: Action, t: TaskId)
    requires Inv(s) && AtLimit(s.db, t) && HistoryMoves(s.db, s'.db, LaunchOf(s, a)) && HistoryOk(s'.db)
    requires forall r :: RunChanges(s.db, s'.db, Done(s, a), TimeOf(a), r)
    requires TaskChanges(s.db, s'.db, Done(s, a), t)
    ensures AtLimit(s'.db, t)
  {
    DbFacts(s);
    hide Inv, RunChanges, Count, RowsOk, LimitsOk;
    if t in s'.db.tasks {
      assert t in s.db.tasks;
      RowsRemain(s.db, s'.db, Done(s, a), TimeOf(a), t);
    }
  }

  lemma RefusedArrives(s: State, a: Action, pid: Pid, q: Proc)
    requires Inv(s) && Arrived(s, a, pid, q) && IsRefused(q)
    ensures pid in s.procs
    ensures (IsRefused(s.procs[pid]) && s.procs[pid].t == q.t) || AtLimit(s.db, q.t)
  {
    hide Inv, ExecFrom, StopFrom, RequestFrom, RowsOk, LimitsOk, Count;
    if !(IsRefused(s.procs[pid]) && s.procs[pid].t == q.t) {
      Steps.LocalsOf(s, pid);
      DbFacts(s);
    }
  }

  /**
   * A callback stops the cron job of its task only when the task has as many rows as its limit allows, or is
   * gone: from the count that refuses the run to the end of the callback nothing makes room again.
   */
  lemma {:induction false} RefusedOnlyAtLimit(m: int, actions: seq<Action>, pid: Pid)
    requires pid in Reached(m, actions).procs && IsRefused(Reached(m, actions).procs[pid])
    ensures AtLimit(Reached(m, actions).db, Reached(m, actions).procs[pid].t)
  {
    var n, q := |actions| - 1, Reached(m, actions).procs[pid];
    var s, a := Reached(m, actions[..n]), actions[n];
    ChangedByLastStep(m, actions);
    StepHistory(s, a);
    Steps.InvAlways(m, actions);
    DbFacts(Reached(m, actions));
    RefusedArrives(s, a, pid, q);
    hide Inv, Apply, Arrived, RunChanges, TaskChanges, Reached, HistoryMoves, HistoryOk, AtLimit, RowsOk, LimitsOk;
    if IsRefused(s.procs[pid]) && s.procs[pid].t == q.t {
      RefusedOnlyAtLimit(m, actions[..n], pid);
    }
    LimitStaysReached(s, Apply(s, a), a, q.t);
  }

  // Schedule entries

  function EntryOf(s: State, t: TaskId): Option<bool> {
    if t in s.schedule then Some(s.schedule[t]) else None
  }

  /** What resuming p with this answer does to an entry: start, stop, drop or replace it. */
  function EntryAfter(entry: Option<bool>, t: TaskId, p: Proc, ok: bool): Option<bool> {
    match p
    case BuildEnv(u) => if u == t && ok && entry.Some? then Some(true) else entry
    case CallbackUnschedule(u) => if u == t && entry.Some? then Some(false) else entry
    case StopExecutable(u, _) => if u == t && entry.Some? then Some(false) else entry
    case ExecSystemStop(h) => if h.taskId == t && entry.Some? then Some(false) else entry
    case DeleteExecutable(u) => if u == t then None else entry
    case UpdateDrop(u, _, _) => if u == t then None else entry
    case RegisterSchedule(u, _) => if u == t then Some(false) else entry
    case _ => entry
  }

  /** The step makes a cron job for the task. */
  predicate MakesJob(s: State, a: Action, t: TaskId) {
    || (a.BootStep? && s.server.BootSchedule? && s.server.t == t)
    || (a.Resume? && a.pid in s.procs && s.procs[a.pid].RegisterSchedule? && s.procs[a.pid].t == t)
  }

  ghost predicate EntryChanges(s: State, s': State, a: Action, t: TaskId) {
    && EntryOf(s', t) ==
       (if a.Crash? then None
        else if a.BootStep? && s.server.BootSchedule? && s.server.t == t then Some(false)
        else if a.Resume? && a.pid in s.procs then EntryAfter(EntryOf(s, t), t, s.procs[a.pid], a.o.ok)
        else EntryOf(s, t))
    && (t in s'.jobs <==> !a.Crash? && (t in s.jobs || MakesJob(s, a, t)))
  }

  lemma CallbackChangesEntry(s: State, pid: Pid, o: Oracle, t: TaskId)
    requires pid in s.procs && IsCallback(s.procs[pid])
    ensures EntryChanges(s, CallbackStep(s, pid, s.procs[pid], o), Resume(pid, o), t)
  {
    hide Count, Label, InsertRun;
  }

  lemma ExecChangesEntry(s: State, pid: Pid, o: Oracle, t: TaskId)
    requires pid in s.procs && IsExec(s.procs[pid])
    ensures EntryChanges(s, ExecStep(s, pid, s.procs[pid], o), Resume(pid, o), t)
  {
    hide LaunchRun, FinishRun, SetActive;
  }

  lemma StopChangesEntry(s: State, pid: Pid, o: Oracle, t: TaskId)
    requires pid in s.procs && IsStop(s.procs[pid])
    ensures EntryChanges(s, StopStep(s, pid, s.procs[pid], o), Resume(pid, o), t)
  {
    hide StopAllRuns, SetActive;
  }

  lemma RequestChangesEntry(s: State, pid: Pid, o: Oracle, t: TaskId)
    requires pid in s.procs && IsRequestOnly(s.procs[pid])
    ensures EntryChanges(s, RequestStep(s, pid, s.procs[pid], o), Resume(pid, o), t)
  {
    hide SetActive, InsertTask, RemoveTask, WriteConfig;
  }

  lemma BuildChangesEntry(s: State, pid: Pid, o: Oracle, t: TaskId)
    requires pid in s.procs && s.procs[pid].BuildEnv?
    ensures EntryChanges(s, ResumeStep(s, pid, o), Resume(pid, o), t)
  {
    hide CallbackStep, ExecStep, StopStep, RequestStep;
  }

  lemma ResumeChangesEntry(s: State, pid: Pid, o: Oracle, t: TaskId)
    requires pid in s.procs
    ensures EntryChanges(s, ResumeStep(s, pid, o), Resume(pid, o), t)
  {
    hide EntryChanges, CallbackStep, ExecStep, StopStep, RequestStep;
    var p := s.procs[pid];
    if IsRequestOnly(p) {
      RequestChangesEntry(s, pid, o, t);
    } else if IsStop(p) {
      StopChangesEntry(s, pid, o, t);
    } else if p.BuildEnv? {
      BuildChangesEntry(s, pid, o, t);
    } else if IsCallback(p) {
      CallbackChangesEntry(s, pid, o, t);
    } else {
      ExecChangesEntry(s, pid, o, t);
    }
  }

  /** Every step: what becomes of the cron job of a task. */
  lemma {:induction false} StepChangesEntries(s: State, a: Action, t: TaskId)
    ensures EntryChanges(s, Apply(s, a), a, t)
  {
    hide ResumeStep;
    if a.Resume? && a.pid in s.procs {
      ResumeChangesEntry(s, a.pid, a.o, t);
    }
  }

  /** A cron job that goes has been started by the end of a build of its task, at i. */
  lemma {:induction false} GoingJobWasBuilt(m: int, actions: seq<Action>, t: TaskId) returns (i: nat)
    requires EntryOf(Reached(m, actions), t) == Some(true)
    ensures i < |actions| && Done(Reached(m, actions[..i]), actions[i]) == Some(BuildEnv(t))
  {
    var n := |actions| - 1;
    var s, a := Reached(m, actions[..n]), actions[n];
    StepChangesEntries(s, a, t);
    hide Apply;
    if EntryOf(s, t) == Some(true) {
      i := GoingJobWasBuilt(m, actions[..n], t);
      PrefixOfPrefix(actions, n, i);
    } else {
      i := n;
    }
  }

  // The entries after a restart

  /** The tasks that a starting server has found and not yet registered. */
  function Turns(server: Server): seq<TaskId> {
    match server
    case ReadRuns(t, rest) => [t] + rest
    case Requeue(t, _, rest) => [t] + rest
    case BootExists(t, rest) => [t] + rest
    case BootSchedule(t, rest) => [t] + rest
    case _ => []
  }

  ghost predicate IsBuilt(procs: map<Pid, Proc>, t: TaskId) {
    exists pid :: pid in procs && procs[pid] == BuildEnv(t)
  }

  /** Every entry has a job that does not go yet, and a build that will make it go. */
  ghost predicate AreNewJobs(s: State) {
    forall t :: t in s.schedule ==> !s.schedule[t] && t in s.jobs && IsBuilt(s.procs, t)
  }

  /** The active tasks are those with an entry and those whose turn comes, and no task is both. */
  ghost predicate Covers(db: Db, schedule: map<TaskId, bool>, turns: seq<TaskId>) {
    forall t :: (IsActive(db, t) <==> t in schedule || t in turns) && !(t in schedule && t in turns)
  }

  /** What a server that does nothing but start has done so far. */
  ghost predicate Registers(s: State) {
    if s.server.Down? || s.server.Finding? then s.schedule == map[]
    else Covers(s.db, s.schedule, Turns(s.server)) && AreNewJobs(s)
  }

  lemma JobsRemain(s: State, s': State)
    requires AreNewJobs(s) && s'.schedule == s.schedule && s'.jobs == s.jobs
    requires forall pid :: pid in s.procs ==> pid in s'.procs && s'.procs[pid] == s.procs[pid]
    ensures AreNewJobs(s')
  {
    forall t | t in s'.schedule ensures IsBuilt(s'.procs, t) {
      var pid :| pid in s.procs && s.procs[pid] == BuildEnv(t);
      assert pid in s'.procs && s'.procs[pid] == BuildEnv(t);
    }
  }

  lemma EnqueueAdds(s: State, h: RunHandle)
    requires s.nextPid !in s.procs
    ensures var s' := Enqueue(s, h);
            && s'.schedule == s.schedule && s'.jobs == s.jobs && s'.db == s.db && s'.server == s.server
            && forall pid :: pid in s.procs ==> pid in s'.procs && s'.procs[pid] == s.procs[pid]
  {
  }

  lemma RequeueKeepsRegistering(s: State)
    requires Registers(s) && s.server.Requeue? && s.server.pending != [] && s.nextPid !in s.procs
    ensures var b := s.server; Registers(Enqueue(s.(server := Requeue(b.t, b.pending[1..], b.rest)), b.pending[0]))
  {
    var b := s.server;
    var s1 := s.(server := Requeue(b.t, b.pending[1..], b.rest));
    hide Enqueue, Covers, AreNewJobs;
    EnqueueAdds(s1, b.pending[0]);
    JobsRemain(s, Enqueue(s1, b.pending[0]));
  }

  lemma TurnsFollow(s: State, rest: seq<TaskId>)
    ensures Turns(NextTask(s, rest).server) == rest
  {
  }

  lemma TurnPasses(db: Db, schedule: map<TaskId, bool>, t: TaskId, rest: seq<TaskId>)
    requires Covers(db, schedule, [t] + rest) && Ascending([t] + rest)
    ensures Covers(db, schedule[t := false], rest)
  {
    hide IsActive;
    assert ([t] + rest)[0] == t;
    assert forall i :: 0 <= i < |rest| ==> ([t] + rest)[i + 1] == rest[i];
    assert forall u :: u in [t] + rest <==> u == t || u in rest;
  }

  lemma BuildIsAdded(procs: map<Pid, Proc>, p: Pid, t: TaskId, u: TaskId)
    requires p !in procs && (u == t || IsBuilt(procs, u))
    ensures IsBuilt(procs[p := BuildEnv(t)], u)
  {
    var procs' := procs[p := BuildEnv(t)];
    if u == t {
      assert p in procs' && procs'[p] == BuildEnv(u);
    } else {
      var pid :| pid in procs && procs[pid] == BuildEnv(u);
      assert pid in procs' && procs'[pid] == BuildEnv(u);
    }
  }

  lemma JobIsAdded(s: State, t: TaskId)
    requires AreNewJobs(s) && s.nextPid !in s.procs
    ensures AreNewJobs(ScheduleEntry(s, t))
  {
    hide IsBuilt;
    var s' := ScheduleEntry(s, t);
    forall u | u in s'.schedule ensures IsBuilt(s'.procs, u) {
      BuildIsAdded(s.procs, s.nextPid, t, u);
    }
  }

  lemma ScheduleRegisters(s: State)
    requires Registers(s) && s.server.BootSchedule? && s.nextPid !in s.procs && InOrder(s.server)
    ensures Registers(NextTask(ScheduleEntry(s, s.server.t), s.server.rest))
  {
    var s1 := ScheduleEntry(s, s.server.t);
    TurnPasses(s.db, s.schedule, s.server.t, s.server.rest);
    JobIsAdded(s, s.server.t);
    hide Covers, AreNewJobs;
    TurnsFollow(s1, s.server.rest);
    NextTaskKeepsJobs(s1, s.server.rest);
  }

  lemma NextTaskKeepsJobs(s: State, rest: seq<TaskId>)
    ensures AreNewJobs(NextTask(s, rest)) <==> AreNewJobs(s)
  {
  }

  lemma FoundAreTurns(s: State, list: seq<TaskId>)
    requires Registers(s) && s.server.Finding? && IsActiveList(s.db, list)
    ensures Registers(NextTask(s, list))
  {
    TurnsFollow(s, list);
  }

  /** A step of a server that has only been starting. */
  lemma StartRegisters(s: State, a: Action)
    requires Inv(s) && Registers(s) && InOrder(s.server) && (a.Boot? || a.BootStep?)
    ensures Registers(Apply(s, a))
  {
    PidsBounded(s);
    hide Inv, Registers, InOrder, BootStepState;
    if a.Boot? {
      BootRegisters(s);
    } else {
      BootStepRegisters(s, a.o);
    }
  }

  lemma BootStepRegisters(s: State, o: Oracle)
    requires Registers(s) && InOrder(s.server) && s.nextPid !in s.procs
    ensures Registers(BootStepState(s, o))
  {
    hide Registers, InOrder, IsPendingList, IsActiveList, Enqueue, ScheduleEntry, NextTask;
    if s.server.Finding? {
      if IsActiveList(s.db, o.tasksFound) {
        FoundAreTurns(s, o.tasksFound);
      }
    } else if s.server.Requeue? && s.server.pending != [] {
      RequeueKeepsRegistering(s);
    } else if s.server.BootSchedule? {
      ScheduleRegisters(s);
    } else {
      OtherKeepsRegistering(s, o);
    }
  }

  lemma BootRegisters(s: State)
    requires Registers(s)
    ensures Registers(Apply(s, Boot))
  {
    hide ResumeStep, BootStepState;
  }

  /** A task whose turn it is has no entry, so nothing is skipped. */
  lemma SameTurns(s: State, o: Oracle)
    requires !s.server.Finding? && !s.server.BootSchedule? && (s.server.Requeue? ==> s.server.pending == [])
    requires s.server.BootExists? ==> s.server.t !in s.schedule
    ensures var server := BootStepState(s, o).server;
            && BootStepState(s, o) == s.(server := server)
            && Turns(server) == Turns(s.server) && server.Down? == s.server.Down? && !server.Finding?
  {
    hide IsPendingList;
  }

  lemma OtherKeepsRegistering(s: State, o: Oracle)
    requires Registers(s) && !s.server.Finding? && !s.server.BootSchedule?
    requires s.server.Requeue? ==> s.server.pending == []
    ensures Registers(BootStepState(s, o))
  {
    if s.server.BootExists? {
      assert Turns(s.server)[0] == s.server.t;
    }
    hide BootStepState, IsActive, Turns;
    SameTurns(s, o);
    hide Covers;
    JobsRemainWith(s, BootStepState(s, o).server);
  }

  lemma JobsRemainWith(s: State, server: Server)
    ensures AreNewJobs(s.(server := server)) <==> AreNewJobs(s)
  {
  }

  lemma {:induction false} StartsRegister(m: int, before: seq<Action>, starts: seq<Action>)
    requires forall k :: 0 <= k < |starts| ==> starts[k].Boot? || starts[k].BootStep?
    ensures Registers(Reached(m, before + [Crash] + starts))
    decreases |starts|
  {
    hide Reached, Registers, Apply;
    if starts == [] {
      assert before + [Crash] + starts == before + [Crash];
      OneMore(m, before, Crash);
      CrashRegisters(Reached(m, before));
    } else {
      var n := |starts| - 1;
      var sofar := before + [Crash] + starts[..n];
      StartsRegister(m, before, starts[..n]);
      Snoc(before + [Crash], starts);
      OneMore(m, sofar, starts[n]);
      Steps.InvAlways(m, sofar);
      RestartInOrder(m, sofar);
      StartRegisters(Reached(m, sofar), starts[n]);
    }
  }

  lemma CrashRegisters(s: State)
    ensures Registers(Apply(s, Crash))
  {
  }

  /**
   * When a server has started again after a crash, with no other steps in between, exactly the active tasks have
   * entries, each idle, with a cron job and a build under way.
   */
  lemma {:induction false} RestartRegistersExactly(m: int, before: seq<Action>, starts: seq<Action>, t: TaskId)
    requires forall k :: 0 <= k < |starts| ==> starts[k].Boot? || starts[k].BootStep?
    requires Reached(m, before + [Crash] + starts).server.Serving?
    ensures var s := Reached(m, before + [Crash] + starts);
            && (t in s.schedule <==> IsActive(s.db, t))
            && (t in s.schedule ==>
                  !s.schedule[t] && t in s.jobs && exists pid :: pid in s.procs && s.procs[pid] == BuildEnv(t))
  {
    hide Reached;
    StartsRegister(m, before, starts);
  }
}
