/**
 * The inductive invariant of RunEngine: the database against its history, what activities remember of
 * the database, and the control part. Here: what each statement keeps.
 */
module RunEngineInvariant {
  import opened Prelude
  import opened RunTable
  import opened RunEngine
  import opened RunEngineControl
  import Mutex = ResourceMutex

  // The database

  ghost predicate HistoryOk(db: Db) {
    && (forall t :: t in db.tasks ==> t in db.history.limits && db.history.limits[t] == db.tasks[t].times)
    && (forall t :: t in db.history.limits ==> t < db.nextTask)
    && (forall r :: r in db.history.created ==> r < db.nextRun && db.history.created[r] in db.history.limits)
    && (forall r :: r in db.history.launched ==> r in db.history.created)
    && (forall r :: r in db.history.created && db.history.created[r] in db.tasks ==> r in db.runs)
  }

  ghost predicate RowsOk(db: Db) {
    forall r :: r in db.runs ==>
      && r in db.history.created && db.history.created[r] == db.runs[r].taskId
      && db.runs[r].taskId in db.tasks
      && RowOk(db.runs[r])
      && (r in db.history.launched <==> Launched(db.runs[r].status))
  }

  function EverOf(db: Db, t: TaskId): set<RunId> {
    set r | r in db.history.created && db.history.created[r] == t
  }

  /** The limit of every limited task that ever was, and the ranks of those that are. */
  ghost predicate LimitsOk(db: Db) {
    && (forall t :: t in db.history.limits && db.history.limits[t].Some? ==>
          |EverOf(db, t)| <= Max(0, db.history.limits[t].value))
    && (forall t :: t in db.tasks && db.tasks[t].times.Some? ==> RanksOk(db.runs, t))
  }

  ghost predicate DbOk(db: Db) {
    HistoryOk(db) && RowsOk(db) && LimitsOk(db)
  }

  // What activities remember of the database

  predicate Known(db: Db, t: TaskId, limit: Option<int>) {
    t in db.history.limits && db.history.limits[t] == limit
  }

  predicate ClaimOk(db: Db, h: RunHandle, launched: bool) {
    && h.runId in db.history.created && db.history.created[h.runId] == h.taskId
    && (h.runId in db.history.launched <==> launched)
    && (h.runId in db.runs ==>
          && db.runs[h.runId].rank == h.rank
          && (if launched then db.runs[h.runId].status == Running else db.runs[h.runId].status in {Pending, Stopped}))
  }

  /** The rank an insert is about to write is still the number of rows plus one, and still allowed. */
  predicate InsertOk(db: Db, t: TaskId, limit: Option<int>, rank: Rank) {
    && (limit.None? ==> rank == Unbounded)
    && (limit.Some? && t in db.tasks ==>
          rank == Ranked(Count(db.runs, t) + 1) && Count(db.runs, t) < limit.value)
  }

  predicate LocalsOk(db: Db, p: Proc) {
    match p
    case CallbackLock(t, limit, retry) => Known(db, t, limit) && retry <= Mutex.RETRY_NUMBER
    case CallbackCount(t, bound) => Known(db, t, Some(bound))
    case CallbackInsert(t, limit, rank) => Known(db, t, limit) && InsertOk(db, t, limit, rank)
    case CallbackLeave(t, outcome) => outcome.Registered? ==> outcome.h.taskId == t
    case UpdateDrop(t, limit, _) => Known(db, t, limit)
    case UpdateWrite(t, limit, _) => Known(db, t, limit)
    case RegisterExists(t, andThen) => andThen.Write? ==> Known(db, t, andThen.limit)
    case RegisterSchedule(t, andThen) => andThen.Write? ==> Known(db, t, andThen.limit)
    case _ => true
  }

  ghost predicate ProcsOk(db: Db, procs: map<Pid, Proc>) {
    forall pid :: pid in procs ==> LocalsOk(db, procs[pid])
  }

  ghost predicate ClaimsOk(db: Db, waiting: seq<RunHandle>, views: Views) {
    && (forall i :: 0 <= i < |waiting| ==> ClaimOk(db, waiting[i], false))
    && (forall pid :: pid in views && views[pid].claim.Some? ==>
          ClaimOk(db, views[pid].claim.value, views[pid].launched))
  }

  ghost predicate Inv(s: State) {
    && DbOk(s.db)
    && ProcsOk(s.db, s.procs)
    && ClaimsOk(s.db, Waiting(ControlOf(s)), ViewsOf(s.procs))
    && ControlOk(ControlOf(s))
  }

  // Statements that leave runs and history alone

  ghost predicate SameLimits(db: Db, db': Db) {
    && db'.runs == db.runs && db'.history == db.history && db'.nextTask == db.nextTask && db'.nextRun == db.nextRun
    && db'.tasks.Keys == db.tasks.Keys
    && forall t :: t in db.tasks ==> db'.tasks[t].times == db.tasks[t].times
  }

  lemma SetActiveSame(db: Db, t: TaskId, value: bool)
    ensures SameLimits(db, SetActive(db, t, value))
  {
    if t in db.tasks {
      assert SetActive(db, t, value).tasks.Keys == db.tasks.Keys;
    }
  }

  /** `updateTask` writes back the limit it has read before several awaits: it is still the same. */
  lemma WriteConfigSame(db: Db, t: TaskId, limit: Option<int>, body: nat)
    requires HistoryOk(db) && Known(db, t, limit)
    ensures SameLimits(db, WriteConfig(db, t, limit, body))
  {
    if t in db.tasks {
      assert WriteConfig(db, t, limit, body).tasks.Keys == db.tasks.Keys;
    }
  }

  lemma SameLimitsDb(db: Db, db': Db)
    requires DbOk(db) && SameLimits(db, db')
    ensures DbOk(db')
  {
    assert forall t :: t in db.tasks <==> t in db'.tasks;
    assert forall t :: EverOf(db', t) == EverOf(db, t);
  }

  lemma SameLimitsLocals(db: Db, db': Db, p: Proc)
    requires LocalsOk(db, p) && SameLimits(db, db')
    ensures LocalsOk(db', p)
  {
    assert forall t :: t in db.tasks <==> t in db'.tasks;
  }

  // insert into tasks

  lemma InsertTaskDb(db: Db, limit: Option<int>, body: nat)
    requires DbOk(db)
    ensures DbOk(InsertTask(db, limit, body))
  {
    var db', k := InsertTask(db, limit, body), db.nextTask;
    assert HistoryOk(db');
    assert RowsOk(db');
    assert forall t :: EverOf(db', t) == EverOf(db, t);
    assert EverOf(db, k) == {};
    assert OfTask(db.runs, k) == {};
  }

  lemma InsertTaskLocals(db: Db, limit: Option<int>, body: nat, p: Proc)
    requires HistoryOk(db) && LocalsOk(db, p)
    ensures LocalsOk(InsertTask(db, limit, body), p)
  {
  }

  // delete from tasks, with the cascade

  lemma RemoveTaskLimits(db: Db, t: TaskId)
    requires LimitsOk(db)
    ensures LimitsOk(RemoveTask(db, t))
  {
    var db' := RemoveTask(db, t);
    assert forall u :: EverOf(db', u) == EverOf(db, u);
    forall u | u in db'.tasks && db'.tasks[u].times.Some? ensures RanksOk(db'.runs, u) {
      DropCount(db.runs, t, u);
      assert RanksOk(db.runs, u);
    }
  }

  lemma RemoveTaskDb(db: Db, t: TaskId)
    requires DbOk(db)
    ensures DbOk(RemoveTask(db, t))
  {
    RemoveTaskLimits(db, t);
  }

  lemma RemoveTaskLocals(db: Db, t: TaskId, p: Proc)
    requires LocalsOk(db, p)
    ensures LocalsOk(RemoveTask(db, t), p)
  {
    if p.CallbackInsert? {
      DropCount(db.runs, t, p.t);
    }
  }

  lemma RemoveTaskClaim(db: Db, t: TaskId, h: RunHandle, launched: bool)
    requires ClaimOk(db, h, launched)
    ensures ClaimOk(RemoveTask(db, t), h, launched)
  {
  }

  // insert into task_runs

  lemma EverOfLiving(db: Db, t: TaskId)
    requires HistoryOk(db) && RowsOk(db) && t in db.tasks
    ensures EverOf(db, t) == OfTask(db.runs, t) && |EverOf(db, t)| == Count(db.runs, t)
  {
  }

  lemma InsertRunRanks(runs: Runs, k: RunId, run: Run, t: TaskId)
    requires k !in runs && RanksOk(runs, t)
    requires run.taskId == t ==> run.rank == Ranked(Count(runs, t) + 1)
    ensures RanksOk(runs[k := run], t)
  {
    InsertCount(runs, k, run, t);
  }

  lemma InsertRunLimits(db: Db, t: TaskId, limit: Option<int>, rank: Rank, now: Time)
    requires DbOk(db) && t in db.tasks && Known(db, t, limit) && InsertOk(db, t, limit, rank)
    ensures LimitsOk(InsertRun(db, t, rank, now))
  {
    hide OfTask, Count, RanksOk;
    var db', k := InsertRun(db, t, rank, now), db.nextRun;
    EverOfLiving(db, t);
    assert EverOf(db', t) == EverOf(db, t) + {k};
    assert forall u :: u != t ==> EverOf(db', u) == EverOf(db, u);
    forall u | u in db'.tasks && db'.tasks[u].times.Some? ensures RanksOk(db'.runs, u) {
      InsertRunRanks(db.runs, k, NewRun(t, rank, now), u);
    }
  }

  lemma InsertRunDb(db: Db, t: TaskId, limit: Option<int>, rank: Rank, now: Time)
    requires DbOk(db) && t in db.tasks && Known(db, t, limit) && InsertOk(db, t, limit, rank)
    ensures DbOk(InsertRun(db, t, rank, now))
  {
    hide LimitsOk;
    InsertRunLimits(db, t, limit, rank, now);
  }

  lemma InsertRunLocals(db: Db, t: TaskId, rank: Rank, now: Time, p: Proc)
    requires HistoryOk(db) && RowsOk(db) && LocalsOk(db, p) && (p.CallbackInsert? ==> p.t != t)
    ensures LocalsOk(InsertRun(db, t, rank, now), p)
  {
    if p.CallbackInsert? {
      InsertCount(db.runs, db.nextRun, NewRun(t, rank, now), p.t);
    }
  }

  lemma InsertRunClaim(db: Db, t: TaskId, rank: Rank, now: Time, h: RunHandle, launched: bool)
    requires HistoryOk(db) && ClaimOk(db, h, launched)
    ensures ClaimOk(InsertRun(db, t, rank, now), h, launched)
  {
  }

  // updates of task_runs

  ghost predicate SameRows(db: Db, db': Db) {
    && db'.tasks == db.tasks && db'.nextTask == db.nextTask && db'.nextRun == db.nextRun
    && db'.history.created == db.history.created && db'.history.limits == db.history.limits
    && SameOwners(db.runs, db'.runs)
  }

  lemma SameRowsLimits(db: Db, db': Db)
    requires LimitsOk(db) && SameRows(db, db')
    ensures LimitsOk(db')
  {
    assert forall t :: EverOf(db', t) == EverOf(db, t);
    forall t | t in db'.tasks && db'.tasks[t].times.Some? ensures RanksOk(db'.runs, t) {
      SameOwnersSameCount(db.runs, db'.runs, t);
      assert RanksOk(db.runs, t);
    }
  }

  lemma SameRowsLocals(db: Db, db': Db, p: Proc)
    requires LocalsOk(db, p) && SameRows(db, db')
    ensures LocalsOk(db', p)
  {
    if p.CallbackInsert? {
      SameOwnersSameCount(db.runs, db'.runs, p.t);
    }
  }

  lemma LaunchRunDb(db: Db, h: RunHandle, handleId: string, now: Time)
    requires DbOk(db) && ClaimOk(db, h, false)
    ensures DbOk(LaunchRun(db, h, handleId, now)) && SameRows(db, LaunchRun(db, h, handleId, now))
  {
    hide LimitsOk;
    SameRowsLimits(db, LaunchRun(db, h, handleId, now));
  }

  lemma LaunchRunClaim(db: Db, h: RunHandle, handleId: string, now: Time, g: RunHandle, launched: bool)
    requires ClaimOk(db, g, launched) && g.runId != h.runId
    ensures ClaimOk(LaunchRun(db, h, handleId, now), g, launched)
  {
  }

  lemma FinishRunDb(db: Db, h: RunHandle, success: bool, now: Time)
    requires DbOk(db) && ClaimOk(db, h, true)
    ensures DbOk(FinishRun(db, h, success, now)) && SameRows(db, FinishRun(db, h, success, now))
  {
    hide LimitsOk;
    SameRowsLimits(db, FinishRun(db, h, success, now));
  }

  lemma FinishRunClaim(db: Db, h: RunHandle, success: bool, now: Time, g: RunHandle, launched: bool)
    requires ClaimOk(db, g, launched) && g.runId != h.runId
    ensures ClaimOk(FinishRun(db, h, success, now), g, launched)
  {
  }

  lemma StopAllRunsRows(db: Db, t: TaskId, now: Time)
    requires RowsOk(db)
    ensures RowsOk(StopAllRuns(db, t, now)) && SameRows(db, StopAllRuns(db, t, now))
  {
  }

  lemma StopAllRunsDb(db: Db, t: TaskId, now: Time)
    requires DbOk(db)
    ensures DbOk(StopAllRuns(db, t, now)) && SameRows(db, StopAllRuns(db, t, now))
  {
    hide RowsOk, LimitsOk;
    StopAllRunsRows(db, t, now);
    SameRowsLimits(db, StopAllRuns(db, t, now));
  }

  lemma StopAllRunsClaim(db: Db, t: TaskId, now: Time, g: RunHandle, launched: bool)
    requires ClaimOk(db, g, launched)
    ensures ClaimOk(StopAllRuns(db, t, now), g, launched)
  {
  }
}
