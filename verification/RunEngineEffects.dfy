/**
 * What every step of the engine does to the tables, to the schedule and to the queue, where an activity can
 * come from, and what a reachable state therefore tells about its past.
 */
module RunEngineEffects {
  import opened Prelude
  import opened RunTable
  import opened RunEngine
  import opened RunEngineControl
  import opened RunEngineInvariant
  import opened RunEngineTheorems
  import Steps = RunEngineSteps
  import Queue = TaskQueue

  // Where an activity comes from

  /** No run of the task is left after this one. */
  predicate IsLast(h: RunHandle, limit: Option<int>) {
    limit.Some? && (h.rank.Unbounded? || limit.value <= h.rank.n)
  }

  /** The registration of t ends with this step: its entry was there, or is made now. */
  predicate Registers(s: State, p: Proc, t: TaskId, andThen: Then) {
    (p == RegisterExists(t, andThen) && t in s.schedule) || p == RegisterSchedule(t, andThen)
  }

  /** `stopTask` ends with this step: by itself, by refusing, or by a statement that fails. */
  predicate StopEnds(s: State, p: Proc, o: Oracle) {
    p.StopRuns? || !o.ok || (p.StopRead? && !(p.t in s.db.tasks && s.db.tasks[p.t].active))
  }

  /** With the answer o, p has become this part of the cron callback. */
  ghost predicate CallbackFrom(s: State, p: Proc, o: Oracle, q: Proc) {
    match q
    case CallbackLock(t, limit, retry) =>
      || (p == CallbackRead(t) && o.ok && t in s.db.tasks && s.db.tasks[t].active
          && limit == s.db.tasks[t].times && retry == 0)
      || (p.CallbackLock? && p.t == t && p.limit == limit && retry == p.retry + 1 <= 5 && Label(t) in s.locks)
    case CallbackCount(t, bound) => p.CallbackLock? && p.t == t && p.limit == Some(bound) && Label(t) !in s.locks
    case CallbackInsert(t, limit, rank) =>
      || (p.CallbackLock? && p.t == t && p.limit == limit == None && rank == Unbounded && Label(t) !in s.locks)
      || (p.CallbackCount? && p.t == t && limit == Some(p.bound) && o.ok
          && Count(s.db.runs, t) < p.bound && rank == Ranked(Count(s.db.runs, t) + 1))
    case CallbackLeave(t, Registered(h)) =>
      p.CallbackInsert? && p.t == t && o.ok && t in s.db.tasks && h == RunHandle(t, s.db.nextRun, p.rank)
    case CallbackLeave(t, Rejected) => p.CallbackCount? && p.t == t && o.ok && p.bound <= Count(s.db.runs, t)
    case CallbackLeave(t, Errored) =>
      (p.CallbackCount? || p.CallbackInsert?) && p.t == t && !(o.ok && (p.CallbackInsert? ==> t in s.db.tasks))
    case CallbackEnqueue(h) => p.CallbackLeave? && p.outcome == Registered(h)
    case CallbackUnschedule(t) => p == CallbackLeave(t, Rejected)
    case _ => false
  }

  /** With the answer o, p has become this part of `runTask`. */
  ghost predicate ExecFrom(s: State, p: Proc, o: Oracle, q: Proc) {
    match q
    case ExecLaunchEnv(h, limit) =>
      p == ExecRead(h) && o.ok && h.taskId in s.db.tasks && s.db.tasks[h.taskId].active
      && limit == s.db.tasks[h.taskId].times
    case ExecStart(h, limit, handleId) => p == ExecLaunchEnv(h, limit) && o.ok && handleId == o.handleId
    case ExecWait(h, limit) => p.ExecStart? && p.h == h && p.limit == limit && o.ok
    case ExecFinish(h, limit, success) => p == ExecWait(h, limit) && o.ok && (success <==> o.exitCode == 0)
    case ExecDeleteEnv(h, limit) => p.ExecFinish? && p.h == h && p.limit == limit && o.ok
    case ExecSystemStop(h) => p.ExecDeleteEnv? && p.h == h && o.ok && IsLast(h, p.limit)
    case ExecDeactivate(h) => p == ExecSystemStop(h) && o.ok
    case ExecDone(h) =>
      || (p == ExecRead(h) && o.ok && !(h.taskId in s.db.tasks && s.db.tasks[h.taskId].active))
      || (p.ExecDeleteEnv? && p.h == h && o.ok && !IsLast(h, p.limit))
      || (p == ExecDeactivate(h) && o.ok)
      || (IsStop(p) && p.caller == ByExecutor(h) && StopEnds(s, p, o))
    case _ => false
  }

  /** With the answer o, p has become this part of `stopTask`; a failing run calls it too. */
  ghost predicate StopFrom(s: State, p: Proc, o: Oracle, q: Proc) {
    match q
    case StopRead(t, caller) => caller.ByExecutor? && IsExec(p) && p.h == caller.h && caller.h.taskId == t && !o.ok
    case StopDeactivate(t, caller) =>
      p == StopRead(t, caller) && o.ok && t in s.db.tasks && s.db.tasks[t].active
    case StopExecutable(t, caller) => p == StopDeactivate(t, caller) && o.ok
    case StopRuns(t, caller) => p == StopExecutable(t, caller) && o.ok
    case _ => false
  }

  /** With the answer o, p has become this part of another request. */
  ghost predicate RequestFrom(s: State, p: Proc, o: Oracle, q: Proc) {
    match q
    case StartActivate(t) => Registers(s, p, t, Activate)
    case DeleteExecutable(t) => p == DeleteRead(t) && o.ok && t in s.db.tasks && !s.db.tasks[t].active
    case DeleteRow(t) => p == DeleteExecutable(t) && o.ok
    case UpdateDrop(t, limit, body) =>
      p == UpdateRead(t, body) && o.ok && t in s.db.tasks && limit == s.db.tasks[t].times
    case UpdateWrite(t, limit, body) => Registers(s, p, t, Write(limit, body))
    case RegisterExists(t, Nothing) => p.CreateInsert? && o.ok && t == s.db.nextTask
    case RegisterExists(t, Activate) => p == StartRead(t) && o.ok && t in s.db.tasks && !s.db.tasks[t].active
    case RegisterExists(t, Write(limit, body)) => p == UpdateDrop(t, limit, body) && o.ok
    case RegisterSchedule(t, andThen) => p == RegisterExists(t, andThen) && t !in s.schedule
    case _ => false
  }

  ghost predicate CameFrom(s: State, p: Proc, o: Oracle, q: Proc) {
    if IsCallback(q) then CallbackFrom(s, p, o, q)
    else if IsExec(q) then ExecFrom(s, p, o, q)
    else if IsStop(q) then StopFrom(s, p, o, q)
    else RequestFrom(s, p, o, q)
  }

  /** The steps that end an activity. */
  predicate Ends(s: State, p: Proc, o: Oracle) {
    match p
    case CallbackRead(t) => !(o.ok && t in s.db.tasks && s.db.tasks[t].active)
    case CallbackLock(_, _, retry) => retry >= 5
    case CallbackLeave(_, outcome) => outcome == Errored
    case CallbackEnqueue(_) => true
    case CallbackUnschedule(_) => true
    case ExecDone(_) => true
    case StartRead(t) => !(o.ok && t in s.db.tasks && !s.db.tasks[t].active)
    case StartActivate(_) => true
    case CreateInsert(_, _) => !o.ok
    case DeleteRead(t) => !(o.ok && t in s.db.tasks && !s.db.tasks[t].active)
    case DeleteExecutable(_) => !o.ok
    case DeleteRow(_) => true
    case UpdateRead(t, _) => !(o.ok && t in s.db.tasks)
    case UpdateDrop(_, _, _) => !o.ok
    case UpdateWrite(_, _, _) => true
    case RegisterExists(t, andThen) => andThen == Nothing && t in s.schedule
    case RegisterSchedule(_, andThen) => andThen == Nothing
    case BuildEnv(_) => true
    case _ => IsStop(p) && p.caller == ByRequest && StopEnds(s, p, o)
  }

  /** The step ends the activity, or makes it what it is to be next. */
  ghost predicate MovesOn(s: State, pid: Pid, o: Oracle, s': State)
    requires pid in s.procs
  {
    var p := s.procs[pid];
    if Ends(s, p, o) then pid !in s'.procs else pid in s'.procs && CameFrom(s, p, o, s'.procs[pid])
  }

  lemma CallbackMovesOn(s: State, pid: Pid, o: Oracle)
    requires pid in s.procs && pid < s.nextPid && IsCallback(s.procs[pid])
    ensures MovesOn(s, pid, o, CallbackStep(s, pid, s.procs[pid], o))
  {
    hide ExecFrom, StopFrom, RequestFrom, Count, Label, InsertRun;
  }

  lemma ExecMovesOn(s: State, pid: Pid, o: Oracle)
    requires pid in s.procs && pid < s.nextPid && IsExec(s.procs[pid])
    ensures MovesOn(s, pid, o, ExecStep(s, pid, s.procs[pid], o))
  {
    hide LaunchRun, FinishRun, SetActive, StopEntry, MovesOn;
    if o.ok {
      ExecMovesOnOk(s, pid, o);
    } else {
      ExecMovesOnError(s, pid, o);
    }
  }

  lemma ExecMovesOnOk(s: State, pid: Pid, o: Oracle)
    requires pid in s.procs && pid < s.nextPid && IsExec(s.procs[pid]) && o.ok
    ensures MovesOn(s, pid, o, ExecStep(s, pid, s.procs[pid], o))
  {
    hide CallbackFrom, RequestFrom, LaunchRun, FinishRun, SetActive, StopEntry;
  }

  lemma ExecMovesOnError(s: State, pid: Pid, o: Oracle)
    requires pid in s.procs && pid < s.nextPid && IsExec(s.procs[pid]) && !o.ok
    ensures MovesOn(s, pid, o, ExecStep(s, pid, s.procs[pid], o))
  {
    hide CallbackFrom, RequestFrom, LaunchRun, FinishRun, SetActive, StopEntry;
  }

  lemma StopMovesOn(s: State, pid: Pid, o: Oracle)
    requires pid in s.procs && IsStop(s.procs[pid])
    ensures MovesOn(s, pid, o, StopStep(s, pid, s.procs[pid], o))
  {
    hide CallbackFrom, RequestFrom, StopAllRuns, SetActive, StopEntry;
  }

  lemma RequestMovesOn(s: State, pid: Pid, o: Oracle)
    requires pid in s.procs && pid < s.nextPid && IsRequestOnly(s.procs[pid])
    ensures MovesOn(s, pid, o, RequestStep(s, pid, s.procs[pid], o))
  {
    hide MovesOn;
    var p := s.procs[pid];
    if p.RegisterExists? {
      RegisterExistsMovesOn(s, pid, o);
    } else if p.RegisterSchedule? {
      RegisterScheduleMovesOn(s, pid, o);
    } else if p.CreateInsert? || p.StartRead? || p.StartActivate? {
      CreateStartMovesOn(s, pid, o);
    } else if p.DeleteRead? || p.DeleteExecutable? || p.DeleteRow? {
      DeleteMovesOn(s, pid, o);
    } else {
      UpdateMovesOn(s, pid, o);
    }
  }

  lemma RegisterExistsMovesOn(s: State, pid: Pid, o: Oracle)
    requires pid in s.procs && pid < s.nextPid
    requires var p := s.procs[pid]; p.RegisterExists?
    ensures MovesOn(s, pid, o, RequestStep(s, pid, s.procs[pid], o))
  {
    hide CallbackFrom, ExecFrom, StopFrom, SetActive, InsertTask, RemoveTask, WriteConfig, ScheduleEntry;
  }

  lemma RegisterScheduleMovesOn(s: State, pid: Pid, o: Oracle)
    requires pid in s.procs && pid < s.nextPid
    requires var p := s.procs[pid]; p.RegisterSchedule?
    ensures MovesOn(s, pid, o, RequestStep(s, pid, s.procs[pid], o))
  {
    hide CallbackFrom, ExecFrom, StopFrom, SetActive, InsertTask, RemoveTask, WriteConfig;
  }

  lemma CreateStartMovesOn(s: State, pid: Pid, o: Oracle)
    requires pid in s.procs && pid < s.nextPid
    requires var p := s.procs[pid]; p.CreateInsert? || p.StartRead? || p.StartActivate?
    ensures MovesOn(s, pid, o, RequestStep(s, pid, s.procs[pid], o))
  {
    hide CallbackFrom, ExecFrom, StopFrom, SetActive, InsertTask, RemoveTask, WriteConfig, Continue, ScheduleEntry;
  }

  lemma DeleteMovesOn(s: State, pid: Pid, o: Oracle)
    requires pid in s.procs && pid < s.nextPid
    requires var p := s.procs[pid]; p.DeleteRead? || p.DeleteExecutable? || p.DeleteRow?
    ensures MovesOn(s, pid, o, RequestStep(s, pid, s.procs[pid], o))
  {
    hide CallbackFrom, ExecFrom, StopFrom, SetActive, InsertTask, RemoveTask, WriteConfig, Continue, ScheduleEntry;
  }

  lemma UpdateMovesOn(s: State, pid: Pid, o: Oracle)
    requires pid in s.procs && pid < s.nextPid
    requires var p := s.procs[pid]; p.UpdateRead? || p.UpdateDrop? || p.UpdateWrite?
    ensures MovesOn(s, pid, o, RequestStep(s, pid, s.procs[pid], o))
  {
    hide CallbackFrom, ExecFrom, StopFrom, SetActive, InsertTask, RemoveTask, WriteConfig, Continue, ScheduleEntry;
  }

  /** Every resumption, whatever the answer: where it leads, and when it is the last. */
  lemma ResumeMovesOn(s: State, pid: Pid, o: Oracle)
    requires pid in s.procs && pid < s.nextPid
    ensures MovesOn(s, pid, o, ResumeStep(s, pid, o))
  {
    hide MovesOn, CallbackStep, ExecStep, StopStep, RequestStep;
    var p := s.procs[pid];
    if IsRequestOnly(p) {
      RequestMovesOn(s, pid, o);
    } else if IsStop(p) {
      StopMovesOn(s, pid, o);
    } else if p.BuildEnv? {
      BuildMovesOn(s, pid, o);
    } else if IsCallback(p) {
      CallbackMovesOn(s, pid, o);
    } else {
      ExecMovesOn(s, pid, o);
    }
  }

  lemma BuildMovesOn(s: State, pid: Pid, o: Oracle)
    requires pid in s.procs && s.procs[pid].BuildEnv?
    ensures MovesOn(s, pid, o, ResumeStep(s, pid, o))
  {
    hide CallbackStep, ExecStep, StopStep, RequestStep;
  }

  /** How an activity has got where it is after the step. */
  ghost predicate Arrived(s: State, a: Action, pid: Pid, q: Proc) {
    || (pid in s.procs && s.procs[pid] == q)
    || (a.Resume? && a.pid == pid && pid in s.procs && CameFrom(s, s.procs[pid], a.o, q))
    || (a.Tick? && a.t in s.jobs && pid == s.nextPid && q == CallbackRead(a.t))
    || (a.Receive? && s.server.Serving? && pid == s.nextPid && Asks(a.request, q))
    || q.ExecRead? || q.BuildEnv?
  }

  /** The activity does what the request asks for, with its arguments. */
  predicate Asks(r: Request, p: Proc) {
    match p
    case CreateInsert(limit, body) => r == CreateTask(limit, body)
    case StopRead(t, caller) => caller == ByRequest && r == StopTask(t)
    case StopDeactivate(t, caller) => caller == ByRequest && r == StopTask(t)
    case StopExecutable(t, caller) => caller == ByRequest && r == StopTask(t)
    case StopRuns(t, caller) => caller == ByRequest && r == StopTask(t)
    case StartRead(t) => r == StartTask(t)
    case StartActivate(t) => r == StartTask(t)
    case DeleteRead(t) => r == DeleteTask(t)
    case DeleteExecutable(t) => r == DeleteTask(t)
    case DeleteRow(t) => r == DeleteTask(t)
    case UpdateRead(t, body) => r == UpdateTask(t, body)
    case UpdateDrop(t, _, body) => r == UpdateTask(t, body)
    case UpdateWrite(t, _, body) => r == UpdateTask(t, body)
    case RegisterExists(_, Nothing) => r.CreateTask?
    case RegisterSchedule(_, Nothing) => r.CreateTask?
    case RegisterExists(t, Activate) => r == StartTask(t)
    case RegisterSchedule(t, Activate) => r == StartTask(t)
    case RegisterExists(t, Write(_, body)) => r == UpdateTask(t, body)
    case RegisterSchedule(t, Write(_, body)) => r == UpdateTask(t, body)
    case _ => false
  }

  lemma StepArrives(s: State, a: Action, pid: Pid)
    requires Inv(s) && pid in Apply(s, a).procs
    ensures Arrived(s, a, pid, Apply(s, a).procs[pid])
  {
    hide Inv, CameFrom, ResumeStep, BootStepState;
    PidsBounded(s);
    match a
    case Resume(p, o) =>
      if p in s.procs {
        if p == pid {
          ResumeMovesOn(s, pid, o);
        } else {
          OthersUntouched(s, p, o, pid);
        }
      }
    case BootStep(o) => BootStepFollows(s, o, pid);
    case _ =>
  }

  lemma CameFromParts(s: State, p: Proc, o: Oracle, q: Proc)
    requires CameFrom(s, p, o, q)
    ensures IsCallback(q) ==> CallbackFrom(s, p, o, q)
    ensures IsExec(q) ==> ExecFrom(s, p, o, q)
    ensures IsStop(q) ==> StopFrom(s, p, o, q)
    ensures IsRequestOnly(q) ==> RequestFrom(s, p, o, q)
  {
    hide CallbackFrom, ExecFrom, StopFrom, RequestFrom;
  }

  /** The next activity of a request is still for that request. */
  lemma AskedFor(s: State, p: Proc, o: Oracle, q: Proc, r: Request)
    requires CameFrom(s, p, o, q) && Asks(r, p) && IsRequested(q)
    ensures Asks(r, q)
  {
    CameFromParts(s, p, o, q);
    hide CameFrom, StopFrom, RequestFrom, Asks;
    if IsStop(q) {
      StopAskedFor(s, p, o, q, r);
    } else {
      OtherAskedFor(s, p, o, q, r);
    }
  }

  lemma StopAskedFor(s: State, p: Proc, o: Oracle, q: Proc, r: Request)
    requires StopFrom(s, p, o, q) && Asks(r, p) && IsStop(q) && q.caller == ByRequest
    ensures Asks(r, q)
  {
  }

  lemma OtherAskedFor(s: State, p: Proc, o: Oracle, q: Proc, r: Request)
    requires RequestFrom(s, p, o, q) && Asks(r, p) && IsRequestOnly(q)
    ensures Asks(r, q)
  {
  }

  predicate IsRequested(p: Proc) {
    IsRequestOnly(p) || (IsStop(p) && p.caller == ByRequest)
  }

  lemma RequestedBefore(s: State, p: Proc, o: Oracle, q: Proc)
    requires (IsStop(q) ==> StopFrom(s, p, o, q)) && (IsRequestOnly(q) ==> RequestFrom(s, p, o, q)) && IsRequested(q)
    ensures IsRequested(p)
  {
    hide StopFrom, RequestFrom;
    if IsStop(q) {
      StopRequestedBefore(s, p, o, q);
    } else {
      OtherRequestedBefore(s, p, o, q);
    }
  }

  lemma StopRequestedBefore(s: State, p: Proc, o: Oracle, q: Proc)
    requires StopFrom(s, p, o, q) && IsStop(q) && q.caller == ByRequest
    ensures IsRequested(p)
  {
  }

  lemma OtherRequestedBefore(s: State, p: Proc, o: Oracle, q: Proc)
    requires RequestFrom(s, p, o, q) && IsRequestOnly(q)
    ensures IsRequested(p)
  {
  }

  /**
   * Whatever a request does, at any point between its statements, is what was received: the request came in
   * before, while the server was serving, began this very activity, and named the task and the values.
   */
  lemma {:induction false} ActivityIsRequested(m: int, actions: seq<Action>, pid: Pid) returns (i: nat)
    requires pid in Reached(m, actions).procs && IsRequested(Reached(m, actions).procs[pid])
    ensures i < |actions| && actions[i].Receive? && Asks(actions[i].request, Reached(m, actions).procs[pid])
    ensures Reached(m, actions[..i]).server.Serving? && pid == Reached(m, actions[..i]).nextPid
  {
    var n := |actions| - 1;
    var s, a := Reached(m, actions[..n]), actions[n];
    Steps.InvAlways(m, actions[..n]);
    StepArrives(s, a, pid);
    hide Inv, CameFrom, Asks, IsRequested, Apply;
    var q := Reached(m, actions).procs[pid];
    if a.Receive? && s.server.Serving? && pid == s.nextPid && Asks(a.request, q) {
      i := n;
    } else {
      OnlyRequested(s, a, pid, q);
      i := ActivityIsRequested(m, actions[..n], pid);
      assert actions[..n][..i] == actions[..i];
      if s.procs[pid] != q {
        AskedFor(s, s.procs[pid], a.o, q, actions[i].request);
      }
    }
  }

  lemma OnlyRequested(s: State, a: Action, pid: Pid, q: Proc)
    requires Arrived(s, a, pid, q) && IsRequested(q)
    requires !(a.Receive? && s.server.Serving? && pid == s.nextPid && Asks(a.request, q))
    ensures pid in s.procs && IsRequested(s.procs[pid])
    ensures s.procs[pid] != q ==> a.Resume? && CameFrom(s, s.procs[pid], a.o, q)
  {
    hide CameFrom, Asks, StopFrom, RequestFrom;
    if s.procs[pid] != q {
      CameFromParts(s, s.procs[pid], a.o, q);
      RequestedBefore(s, s.procs[pid], a.o, q);
    }
  }

  // What a step does to the tables

  /** The activity whose statement, or call, the step executes with success. */
  function Done(s: State, a: Action): Option<Proc> {
    if a.Resume? && a.pid in s.procs && a.o.ok then Some(s.procs[a.pid]) else None
  }

  /** What a statement leaves of a row that stays. */
  function RowAfter(row: Run, r: RunId, done: Option<Proc>, now: Time): Run {
    match done
    case Some(ExecStart(h, _, handleId)) =>
      if h.runId == r then row.(status := Running, handleId := Some(handleId), startedAt := Some(now)) else row
    case Some(ExecFinish(h, _, success)) =>
      if h.runId == r then row.(status := if success then Succeed else Failed, finishedAt := Some(now)) else row
    case Some(StopRuns(t, _)) =>
      if row.taskId == t && row.status == Pending then row.(status := Stopped, finishedAt := Some(now)) else row
    case _ => row
  }

  /** Run r after a step: deleted with its task, changed by a statement about it, inserted, or as before. */
  ghost predicate RunChanges(db: Db, db': Db, done: Option<Proc>, now: Time, r: RunId) {
    if r in db.runs then
      && (r in db'.runs <==> done != Some(DeleteRow(db.runs[r].taskId)))
      && (r in db'.runs ==> db'.runs[r] == RowAfter(db.runs[r], r, done, now))
    else
      && (r in db'.runs <==>
            r == db.nextRun && done.Some? && done.value.CallbackInsert? && done.value.t in db.tasks)
      && (r in db'.runs ==> db'.runs[r] == Run(done.value.t, done.value.rank, Pending, None, now, None, None))
  }

  lemma CallbackChangesRuns(s: State, pid: Pid, o: Oracle, r: RunId)
    requires pid in s.procs && IsCallback(s.procs[pid]) && s.db.nextRun !in s.db.runs
    ensures RunChanges(s.db, CallbackStep(s, pid, s.procs[pid], o).db, Done(s, Resume(pid, o)), o.now, r)
  {
    hide Count, Label;
  }

  lemma ExecChangesRuns(s: State, pid: Pid, o: Oracle, r: RunId)
    requires pid in s.procs && IsExec(s.procs[pid])
    ensures RunChanges(s.db, ExecStep(s, pid, s.procs[pid], o).db, Done(s, Resume(pid, o)), o.now, r)
  {
  }

  lemma StopChangesRuns(s: State, pid: Pid, o: Oracle, r: RunId)
    requires pid in s.procs && IsStop(s.procs[pid])
    ensures RunChanges(s.db, StopStep(s, pid, s.procs[pid], o).db, Done(s, Resume(pid, o)), o.now, r)
  {
  }

  lemma RequestChangesRuns(s: State, pid: Pid, o: Oracle, r: RunId)
    requires pid in s.procs && IsRequestOnly(s.procs[pid])
    ensures RunChanges(s.db, RequestStep(s, pid, s.procs[pid], o).db, Done(s, Resume(pid, o)), o.now, r)
  {
  }

  lemma NothingChangesRuns(db: Db, r: RunId)
    ensures RunChanges(db, db, None, 0, r)
  {
  }

  lemma NextRunIsNew(s: State)
    requires Inv(s)
    ensures s.db.nextRun !in s.db.runs
  {
    DbFacts(s);
  }

  lemma BootKeepsDb(s: State, o: Oracle)
    ensures BootStepState(s, o).db == s.db
  {
    hide IsActiveList, IsPendingList;
  }

  function TimeOf(a: Action): Time {
    if a.Resume? then a.o.now else 0
  }

  /** Every step: run rows change by the four statements on them alone, in the columns these write. */
  lemma {:induction false} StepChangesRuns(s: State, a: Action, r: RunId)
    requires Inv(s)
    ensures RunChanges(s.db, Apply(s, a).db, Done(s, a), TimeOf(a), r)
  {
    NextRunIsNew(s);
    hide Inv, RunChanges, ResumeStep, BootStepState;
    NothingChangesRuns(s.db, r);
    if a.Resume? && a.pid in s.procs {
      ResumeChangesRuns(s, a.pid, a.o, r);
    } else if a.BootStep? {
      BootKeepsDb(s, a.o);
    }
  }

  lemma ResumeChangesRuns(s: State, pid: Pid, o: Oracle, r: RunId)
    requires pid in s.procs && s.db.nextRun !in s.db.runs
    ensures RunChanges(s.db, ResumeStep(s, pid, o).db, Done(s, Resume(pid, o)), o.now, r)
  {
    hide RunChanges, Done, CallbackStep, ExecStep, StopStep, RequestStep;
    var p := s.procs[pid];
    if IsRequestOnly(p) {
      RequestChangesRuns(s, pid, o, r);
    } else if IsStop(p) {
      StopChangesRuns(s, pid, o, r);
    } else if p.BuildEnv? {
      BuildChangesRuns(s, pid, o, r);
    } else if IsCallback(p) {
      CallbackChangesRuns(s, pid, o, r);
    } else {
      ExecChangesRuns(s, pid, o, r);
    }
  }

  lemma BuildChangesRuns(s: State, pid: Pid, o: Oracle, r: RunId)
    requires pid in s.procs && s.procs[pid].BuildEnv?
    ensures RunChanges(s.db, ResumeStep(s, pid, o).db, Done(s, Resume(pid, o)), o.now, r)
  {
    hide CallbackStep, ExecStep, StopStep, RequestStep;
  }

  /** What a statement leaves of a task row that stays. */
  function TaskAfter(task: Task, t: TaskId, done: Option<Proc>): Task {
    match done
    case Some(StartActivate(u)) => if u == t then task.(active := true) else task
    case Some(StopDeactivate(u, _)) => if u == t then task.(active := false) else task
    case Some(ExecDeactivate(h)) => if h.taskId == t then task.(active := false) else task
    case Some(UpdateWrite(u, limit, body)) => if u == t then task.(times := limit, body := body) else task
    case _ => task
  }

  /** Task t after a step: deleted, changed by a statement about it, created, or as before. */
  ghost predicate TaskChanges(db: Db, db': Db, done: Option<Proc>, t: TaskId) {
    if t in db.tasks then
      && (t in db'.tasks <==> done != Some(DeleteRow(t)))
      && (t in db'.tasks ==> db'.tasks[t] == TaskAfter(db.tasks[t], t, done))
    else
      && (t in db'.tasks <==> t == db.nextTask && done.Some? && done.value.CreateInsert?)
      && (t in db'.tasks ==> db'.tasks[t] == Task(done.value.limit, true, done.value.body))
  }

  lemma CallbackChangesTasks(s: State, pid: Pid, o: Oracle, t: TaskId)
    requires pid in s.procs && IsCallback(s.procs[pid])
    ensures TaskChanges(s.db, CallbackStep(s, pid, s.procs[pid], o).db, Done(s, Resume(pid, o)), t)
  {
    hide Count, Label;
  }

  lemma ExecChangesTasks(s: State, pid: Pid, o: Oracle, t: TaskId)
    requires pid in s.procs && IsExec(s.procs[pid])
    ensures TaskChanges(s.db, ExecStep(s, pid, s.procs[pid], o).db, Done(s, Resume(pid, o)), t)
  {
    hide MarkRunning, MarkFinished;
  }

  lemma StopChangesTasks(s: State, pid: Pid, o: Oracle, t: TaskId)
    requires pid in s.procs && IsStop(s.procs[pid])
    ensures TaskChanges(s.db, StopStep(s, pid, s.procs[pid], o).db, Done(s, Resume(pid, o)), t)
  {
    hide StopPending;
  }

  lemma RequestChangesTasks(s: State, pid: Pid, o: Oracle, t: TaskId)
    requires pid in s.procs && IsRequestOnly(s.procs[pid]) && s.db.nextTask !in s.db.tasks
    ensures TaskChanges(s.db, RequestStep(s, pid, s.procs[pid], o).db, Done(s, Resume(pid, o)), t)
  {
    hide DropTask;
  }

  lemma BuildChangesTasks(s: State, pid: Pid, o: Oracle, t: TaskId)
    requires pid in s.procs && s.procs[pid].BuildEnv?
    ensures TaskChanges(s.db, ResumeStep(s, pid, o).db, Done(s, Resume(pid, o)), t)
  {
    hide CallbackStep, ExecStep, StopStep, RequestStep;
  }

  lemma NothingChangesTasks(db: Db, t: TaskId)
    ensures TaskChanges(db, db, None, t)
  {
  }

  lemma NextTaskIsNew(s: State)
    requires Inv(s)
    ensures s.db.nextTask !in s.db.tasks
  {
    DbFacts(s);
  }

  /** Every step: task rows come, go and change by the six statements on them alone. */
  lemma {:induction false} StepChangesTasks(s: State, a: Action, t: TaskId)
    requires Inv(s)
    ensures TaskChanges(s.db, Apply(s, a).db, Done(s, a), t)
  {
    NextTaskIsNew(s);
    hide Inv, TaskChanges, ResumeStep, BootStepState;
    NothingChangesTasks(s.db, t);
    if a.Resume? && a.pid in s.procs {
      ResumeChangesTasks(s, a.pid, a.o, t);
    } else if a.BootStep? {
      BootKeepsDb(s, a.o);
    }
  }

  lemma ResumeChangesTasks(s: State, pid: Pid, o: Oracle, t: TaskId)
    requires pid in s.procs && s.db.nextTask !in s.db.tasks
    ensures TaskChanges(s.db, ResumeStep(s, pid, o).db, Done(s, Resume(pid, o)), t)
  {
    hide TaskChanges, Done, CallbackStep, ExecStep, StopStep, RequestStep;
    var p := s.procs[pid];
    if IsRequestOnly(p) {
      RequestChangesTasks(s, pid, o, t);
    } else if IsStop(p) {
      StopChangesTasks(s, pid, o, t);
    } else if p.BuildEnv? {
      BuildChangesTasks(s, pid, o, t);
    } else if IsCallback(p) {
      CallbackChangesTasks(s, pid, o, t);
    } else {
      ExecChangesTasks(s, pid, o, t);
    }
  }

  // What a step does to the queue

  /** The closure that the step hands to the queue. */
  function Handed(s: State, a: Action): seq<RunHandle> {
    if a.Resume? && a.pid in s.procs && s.procs[a.pid].CallbackEnqueue? then [s.procs[a.pid].h]
    else if a.BootStep? && s.server.Requeue? && s.server.pending != [] then [s.server.pending[0]]
    else []
  }

  /** The run of the executor that has begun between two states. */
  function Begun(s: State, s': State): seq<RunHandle> {
    if s.nextPid in s'.procs && s'.procs[s.nextPid].ExecRead? then [s'.procs[s.nextPid].h] else []
  }

  ghost predicate QueueMoves(s: State, s': State, handed: seq<RunHandle>) {
    s.queue + handed == Begun(s, s') + s'.queue
  }

  lemma ExecuteNextMoves(s: State, s1: State)
    requires s1.nextPid == s.nextPid && s.nextPid !in s1.procs
    ensures var s' := ExecuteNext(s1); s1.queue == Begun(s, s') + s'.queue
  {
    if Queue.CanStart(s1.running, s1.maxConcurrency, |s1.queue|) {
      assert s1.queue == [s1.queue[0]] + s1.queue[1..];
    }
  }

  lemma CallbackMovesQueue(s: State, pid: Pid, o: Oracle)
    requires pid in s.procs && IsCallback(s.procs[pid]) && s.nextPid !in s.procs
    ensures QueueMoves(s, CallbackStep(s, pid, s.procs[pid], o), Handed(s, Resume(pid, o)))
  {
    hide ExecuteNext, Count, Label, InsertRun;
    if s.procs[pid].CallbackEnqueue? {
      var s1 := Exit(s, pid);
      ExecuteNextMoves(s, s1.(queue := s1.queue + [s.procs[pid].h]));
    }
  }

  lemma ExecMovesQueue(s: State, pid: Pid, o: Oracle)
    requires pid in s.procs && IsExec(s.procs[pid]) && s.nextPid !in s.procs
    ensures QueueMoves(s, ExecStep(s, pid, s.procs[pid], o), Handed(s, Resume(pid, o)))
  {
    hide ExecuteNext, LaunchRun, FinishRun, SetActive;
    if s.procs[pid].ExecDone? {
      var s1 := Exit(s, pid);
      ExecuteNextMoves(s, s1.(running := s1.running - 1));
    }
  }

  lemma StopMovesQueue(s: State, pid: Pid, o: Oracle)
    requires pid in s.procs && IsStop(s.procs[pid]) && s.nextPid !in s.procs
    ensures QueueMoves(s, StopStep(s, pid, s.procs[pid], o), Handed(s, Resume(pid, o)))
  {
    hide StopAllRuns, SetActive;
  }

  lemma RequestMovesQueue(s: State, pid: Pid, o: Oracle)
    requires pid in s.procs && IsRequestOnly(s.procs[pid]) && s.nextPid !in s.procs
    ensures QueueMoves(s, RequestStep(s, pid, s.procs[pid], o), Handed(s, Resume(pid, o)))
  {
    hide SetActive, InsertTask, RemoveTask, WriteConfig;
  }

  lemma BuildMovesQueue(s: State, pid: Pid, o: Oracle)
    requires pid in s.procs && s.procs[pid].BuildEnv? && s.nextPid !in s.procs
    ensures QueueMoves(s, ResumeStep(s, pid, o), Handed(s, Resume(pid, o)))
  {
    hide CallbackStep, ExecStep, StopStep, RequestStep;
  }

  lemma ResumeMovesQueue(s: State, pid: Pid, o: Oracle)
    requires pid in s.procs && s.nextPid !in s.procs
    ensures QueueMoves(s, ResumeStep(s, pid, o), Handed(s, Resume(pid, o)))
  {
    hide QueueMoves, Handed, CallbackStep, ExecStep, StopStep, RequestStep;
    var p := s.procs[pid];
    if IsRequestOnly(p) {
      RequestMovesQueue(s, pid, o);
    } else if IsStop(p) {
      StopMovesQueue(s, pid, o);
    } else if p.BuildEnv? {
      BuildMovesQueue(s, pid, o);
    } else if IsCallback(p) {
      CallbackMovesQueue(s, pid, o);
    } else {
      ExecMovesQueue(s, pid, o);
    }
  }

  lemma BootMovesQueue(s: State, o: Oracle)
    requires s.nextPid !in s.procs
    ensures QueueMoves(s, BootStepState(s, o), Handed(s, BootStep(o)))
  {
    hide ExecuteNext;
    if s.server.Requeue? && s.server.pending != [] {
      var b := s.server;
      ExecuteNextMoves(s, s.(server := Requeue(b.t, b.pending[1..], b.rest), queue := s.queue + [b.pending[0]]));
    }
  }

  /** Every step but a crash: what is handed over goes to the end of the queue, and executors come from its head. */
  lemma StepMovesQueue(s: State, a: Action)
    requires Inv(s) && !a.Crash?
    ensures QueueMoves(s, Apply(s, a), Handed(s, a))
  {
    PidsBounded(s);
    hide Inv, ResumeStep, BootStepState, QueueMoves;
    StandsStill(s);
    match a
    case Resume(pid, o) =>
      if pid in s.procs {
        ResumeMovesQueue(s, pid, o);
      }
    case BootStep(o) => BootMovesQueue(s, o);
    case Tick(t) => SpawnMovesQueue(s, CallbackRead(t));
    case Receive(r) => SpawnMovesQueue(s, Entry(r));
    case Boot =>
  }

  lemma StandsStill(s: State)
    requires s.nextPid !in s.procs
    ensures QueueMoves(s, s, []) && QueueMoves(s, s.(server := Finding), [])
  {
  }

  lemma SpawnMovesQueue(s: State, p: Proc)
    requires s.nextPid !in s.procs && !p.ExecRead?
    ensures QueueMoves(s, Spawn(s, p), [])
  {
  }

  /** All closures handed to the queue of the present server process, in order. */
  ghost function AllHanded(m: int, actions: seq<Action>): seq<RunHandle> {
    if actions == [] then []
    else
      var n := |actions| - 1;
      if actions[n].Crash? then [] else AllHanded(m, actions[..n]) + Handed(Reached(m, actions[..n]), actions[n])
  }

  /** The runs of all executors begun in the present server process, in order. */
  ghost function AllBegun(m: int, actions: seq<Action>): seq<RunHandle> {
    if actions == [] then []
    else
      var n := |actions| - 1;
      if actions[n].Crash? then []
      else AllBegun(m, actions[..n]) + Begun(Reached(m, actions[..n]), Reached(m, actions))
  }

  /**
   * First in, first out, within the engine: what was handed to the queue is what has begun followed by what
   * waits. Only a crash loses closures.
   */
  lemma {:induction false} FirstInFirstOut(m: int, actions: seq<Action>)
    ensures AllHanded(m, actions) == AllBegun(m, actions) + Reached(m, actions).queue
  {
    if actions != [] {
      var n := |actions| - 1;
      var s, a := Reached(m, actions[..n]), actions[n];
      if !a.Crash? {
        FirstInFirstOut(m, actions[..n]);
        Steps.InvAlways(m, actions[..n]);
        StepMovesQueue(s, a);
        hide Inv, Apply, Handed, Begun;
        Regroup(AllHanded(m, actions[..n]), AllBegun(m, actions[..n]), s.queue, Handed(s, a), Begun(s, Apply(s, a)),
                Apply(s, a).queue);
      }
    }
  }

  lemma Regroup<T>(all: seq<T>, begun: seq<T>, queue: seq<T>, handed: seq<T>, next: seq<T>, queue': seq<T>)
    requires all == begun + queue && queue + handed == next + queue'
    ensures all + handed == (begun + next) + queue'
  {
    assert all + handed == begun + (queue + handed);
  }

  // The order of a restart

  ghost predicate Ascending(tasks: seq<TaskId>) {
    forall i, j :: 0 <= i < j < |tasks| ==> tasks[i] < tasks[j]
  }

  ghost predicate ByRank(t: TaskId, pending: seq<RunHandle>) {
    && (forall i :: 0 <= i < |pending| ==> pending[i].taskId == t)
    && forall i, j :: 0 <= i < j < |pending| ==>
         pending[j].rank.Unbounded? || (pending[i].rank.Ranked? && pending[i].rank.n <= pending[j].rank.n)
  }

  /** The tasks still to be registered are in the order of their ids, and the runs to be queued in that of ranks. */
  ghost predicate InOrder(server: Server) {
    match server
    case ReadRuns(t, rest) => Ascending([t] + rest)
    case Requeue(t, pending, rest) => Ascending([t] + rest) && ByRank(t, pending)
    case BootExists(t, rest) => Ascending([t] + rest)
    case BootSchedule(t, rest) => Ascending([t] + rest)
    case _ => true
  }

  lemma ResumeKeepsServer(s: State, pid: Pid, o: Oracle)
    requires pid in s.procs
    ensures ResumeStep(s, pid, o).server == s.server
  {
    hide Count, Label;
  }

  lemma AscendingRest(t: TaskId, rest: seq<TaskId>)
    requires Ascending([t] + rest)
    ensures rest != [] ==> Ascending([rest[0]] + rest[1..])
  {
    if rest != [] {
      assert [rest[0]] + rest[1..] == rest == ([t] + rest)[1..];
    }
  }

  lemma BootKeepsOrder(s: State, o: Oracle)
    requires InOrder(s.server)
    ensures InOrder(BootStepState(s, o).server)
  {
    hide Enqueue;
    match s.server
    case Finding =>
      if o.tasksFound != [] {
        assert [o.tasksFound[0]] + o.tasksFound[1..] == o.tasksFound;
      }
    case BootExists(t, rest) => AscendingRest(t, rest);
    case BootSchedule(t, rest) => AscendingRest(t, rest);
    case Requeue(t, pending, rest) =>
      if pending != [] {
        EnqueueKeepsServer(s.(server := Requeue(t, pending[1..], rest)), pending[0]);
      }
    case _ =>
  }

  lemma EnqueueKeepsServer(s: State, h: RunHandle)
    ensures Enqueue(s, h).server == s.server
  {
  }

  /** A restarting server takes the tasks by id, and queues the pending runs of each by rank. */
  lemma {:induction false} RestartInOrder(m: int, actions: seq<Action>)
    ensures InOrder(Reached(m, actions).server)
  {
    if actions != [] {
      var n := |actions| - 1;
      var s, a := Reached(m, actions[..n]), actions[n];
      RestartInOrder(m, actions[..n]);
      hide InOrder, ResumeStep, BootStepState;
      NotStarting();
      match a
      case Resume(pid, o) =>
        if pid in s.procs {
          ResumeKeepsServer(s, pid, o);
        }
      case BootStep(o) => BootKeepsOrder(s, o);
      case _ =>
    }
  }

  lemma NotStarting()
    ensures InOrder(Down) && InOrder(Finding)
  {
  }
}
