/**
 * What requests, callbacks and runs do from beginning to end when nothing comes between their steps and no
 * call fails, from any state that the invariant allows.
 */
module RunEngineRequests {
  import opened Prelude
  import opened RunTable
  import opened RunEngine
  import opened RunEngineControl
  import opened RunEngineInvariant
  import opened RunEngineTheorems
  import Steps = RunEngineSteps

  /** The activity is resumed again and again, with these answers. */
  ghost function Resumed(s: State, pid: Pid, answers: seq<Oracle>): State
    decreases |answers|
  {
    if answers == [] then s else Resumed(Apply(s, Resume(pid, answers[0])), pid, answers[1..])
  }

  predicate AllOk(answers: seq<Oracle>) {
    forall i :: 0 <= i < |answers| ==> answers[i].ok
  }

  /** As a part of a run of the engine. */
  lemma {:induction false} ResumedIsReached(m: int, actions: seq<Action>, pid: Pid, answers: seq<Oracle>)
    ensures Resumed(Reached(m, actions), pid, answers) ==
            Reached(m, actions + Resumptions(pid, answers))
    decreases |answers|
  {
    if answers == [] {
      assert actions + [] == actions;
    } else {
      hide Apply, Reached;
      OneMore(m, actions, Resume(pid, answers[0]));
      ResumedIsReached(m, actions + [Resume(pid, answers[0])], pid, answers[1..]);
      FirstAnswer(actions, pid, answers);
    }
  }

  function Resumptions(pid: Pid, answers: seq<Oracle>): seq<Action> {
    seq(|answers|, i requires 0 <= i < |answers| => Resume(pid, answers[i]))
  }

  lemma FirstAnswer(actions: seq<Action>, pid: Pid, answers: seq<Oracle>)
    requires answers != []
    ensures actions + Resumptions(pid, answers) ==
            (actions + [Resume(pid, answers[0])]) + Resumptions(pid, answers[1..])
  {
  }

  // One step of each kind of activity, and what an activity leaves behind

  lemma CallsBack(s: State, p: Pid, o: Oracle)
    requires p in s.procs && IsCallback(s.procs[p])
    ensures Apply(s, Resume(p, o)) == CallbackStep(s, p, s.procs[p], o)
  {
    hide CallbackStep, ExecStep, StopStep, RequestStep;
  }

  lemma Executes(s: State, p: Pid, o: Oracle)
    requires p in s.procs && IsExec(s.procs[p])
    ensures Apply(s, Resume(p, o)) == ExecStep(s, p, s.procs[p], o)
  {
    hide CallbackStep, ExecStep, StopStep, RequestStep;
  }

  lemma Stops(s: State, p: Pid, o: Oracle)
    requires p in s.procs && IsStop(s.procs[p])
    ensures Apply(s, Resume(p, o)) == StopStep(s, p, s.procs[p], o)
  {
    hide CallbackStep, ExecStep, StopStep, RequestStep;
  }

  lemma Requests(s: State, p: Pid, o: Oracle)
    requires p in s.procs && IsRequestOnly(s.procs[p])
    ensures Apply(s, Resume(p, o)) == RequestStep(s, p, s.procs[p], o)
  {
    hide CallbackStep, ExecStep, StopStep, RequestStep;
  }

  lemma Received(s: State, r: Request)
    requires s.server.Serving?
    ensures Apply(s, Receive(r)) == Spawn(s, Entry(r))
  {
    hide ResumeStep, BootStepState;
  }

  /** An activity that has come and gone. */
  lemma LeavesNoTrace(s: State, q: Proc, schedule: map<TaskId, bool>, db: Db)
    requires s.nextPid !in s.procs
    ensures Exit(Spawn(s, q).(schedule := schedule, db := db), s.nextPid) ==
            s.(schedule := schedule, db := db, nextPid := s.nextPid + 1)
  {
    assert s.procs[s.nextPid := q] - {s.nextPid} == s.procs;
  }

  /** An activity that has come and gone, and has left a new job and its build behind. */
  lemma LeavesBuild(s: State, q: Proc, schedule: map<TaskId, bool>, db: Db, t: TaskId)
    requires s.nextPid !in s.procs
    ensures Exit(ScheduleEntry(Spawn(s, q).(schedule := schedule), t).(db := db), s.nextPid) ==
            s.(schedule := schedule[t := false], db := db, nextPid := s.nextPid + 2, jobs := s.jobs + {t},
               procs := s.procs[s.nextPid + 1 := BuildEnv(t)])
  {
    var p := s.nextPid;
    assert s.procs[p := q][p + 1 := BuildEnv(t)] - {p} == s.procs[p + 1 := BuildEnv(t)];
  }

  lemma ScheduledUnder(s: State, p: Pid, t: TaskId, q: Proc)
    requires p < s.nextPid
    ensures ScheduleEntry(Goto(s, p, q), t) == Goto(ScheduleEntry(s, t), p, q)
    ensures Exit(Goto(s, p, q), p) == Exit(s, p)
  {
    assert s.procs[p := q][s.nextPid := BuildEnv(t)] == s.procs[s.nextPid := BuildEnv(t)][p := q];
    assert s.procs[p := q] - {p} == s.procs - {p};
  }

  lemma Forgets(s: State, p: Pid, q: Proc)
    ensures Goto(s, p, q).procs - {p} == s.procs - {p}
  {
  }

  predicate IsAt(s: State, pid: Pid, p: Proc) {
    pid in s.procs && s.procs[pid] == p
  }

  // stopTask

  lemma FromStopRuns(s: State, p: Pid, t: TaskId, o: seq<Oracle>)
    requires IsAt(s, p, StopRuns(t, ByRequest)) && |o| == 1 && AllOk(o)
    ensures Resumed(s, p, o) == Exit(s.(db := StopAllRuns(s.db, t, o[0].now)), p)
  {
    hide Apply, StopAllRuns;
    Stops(s, p, o[0]);
    assert o[1..] == [];
  }

  lemma FromStopExecutable(s: State, p: Pid, t: TaskId, o: seq<Oracle>)
    requires IsAt(s, p, StopExecutable(t, ByRequest)) && |o| == 2 && AllOk(o)
    ensures Resumed(s, p, o) == Exit(StopEntry(s, t).(db := StopAllRuns(s.db, t, o[1].now)), p)
  {
    hide Apply, StopAllRuns;
    Stops(s, p, o[0]);
    FromStopRuns(Goto(StopEntry(s, t), p, StopRuns(t, ByRequest)), p, t, o[1..]);
  }

  lemma FromStopDeactivate(s: State, p: Pid, t: TaskId, o: seq<Oracle>)
    requires IsAt(s, p, StopDeactivate(t, ByRequest)) && |o| == 3 && AllOk(o)
    ensures Resumed(s, p, o) == Exit(StopEntry(s, t).(db := StopAllRuns(SetActive(s.db, t, false), t, o[2].now)), p)
  {
    hide Apply, StopAllRuns, SetActive;
    Stops(s, p, o[0]);
    FromStopExecutable(Goto(s.(db := SetActive(s.db, t, false)), p, StopExecutable(t, ByRequest)), p, t, o[1..]);
  }

  lemma FromStopRead(s: State, p: Pid, t: TaskId, o: seq<Oracle>)
    requires IsAt(s, p, StopRead(t, ByRequest)) && |o| == 4 && AllOk(o)
    requires IsActive(s.db, t)
    ensures Resumed(s, p, o) == Exit(StopEntry(s, t).(db := StopAllRuns(SetActive(s.db, t, false), t, o[3].now)), p)
  {
    hide Apply, StopAllRuns, SetActive;
    Stops(s, p, o[0]);
    FromStopDeactivate(Goto(s, p, StopDeactivate(t, ByRequest)), p, t, o[1..]);
  }

  lemma NextPidIsFree(s: State)
    requires Inv(s)
    ensures s.nextPid !in s.procs
  {
    PidsBounded(s);
  }

  lemma StopResult(s: State, t: TaskId, o: seq<Oracle>)
    requires s.nextPid !in s.procs && s.server.Serving? && IsActive(s.db, t) && |o| == 4 && AllOk(o)
    ensures Resumed(Apply(s, Receive(StopTask(t))), s.nextPid, o) ==
            s.(schedule := if t in s.schedule then s.schedule[t := false] else s.schedule,
               db := StopAllRuns(SetActive(s.db, t, false), t, o[3].now), nextPid := s.nextPid + 1)
  {
    var schedule := if t in s.schedule then s.schedule[t := false] else s.schedule;
    Received(s, StopTask(t));
    hide Apply, Resumed, StopAllRuns, SetActive;
    FromStopRead(Spawn(s, StopRead(t, ByRequest)), s.nextPid, t, o);
    LeavesNoTrace(s, StopRead(t, ByRequest), schedule, StopAllRuns(SetActive(s.db, t, false), t, o[3].now));
  }

  lemma StoppedRows(db: Db, t: TaskId, now: Time)
    requires t in db.tasks
    ensures var db' := StopAllRuns(SetActive(db, t, false), t, now);
            && db' == db.(tasks := db.tasks[t := db.tasks[t].(active := false)], runs := db'.runs)
            && db'.runs.Keys == db.runs.Keys
            && forall r :: r in db.runs ==>
                 db'.runs[r] == if db.runs[r].taskId == t && db.runs[r].status == Pending
                                then db.runs[r].(status := Stopped, finishedAt := Some(now)) else db.runs[r]
  {
  }

  /** A request to stop an active task: it is inactive, its job and its pending runs are stopped, and that is all. */
  lemma {:induction false} StopUndisturbed(s: State, t: TaskId, o: seq<Oracle>)
    requires Inv(s) && s.server.Serving? && t in s.db.tasks && s.db.tasks[t].active && |o| == 4 && AllOk(o)
    ensures var s' := Resumed(Apply(s, Receive(StopTask(t))), s.nextPid, o);
            && s'.db.tasks == s.db.tasks[t := s.db.tasks[t].(active := false)]
            && s'.db.runs.Keys == s.db.runs.Keys
            && (forall r :: r in s.db.runs ==>
                  s'.db.runs[r] ==
                  if s.db.runs[r].taskId == t && s.db.runs[r].status == Pending
                  then s.db.runs[r].(status := Stopped, finishedAt := Some(o[3].now)) else s.db.runs[r])
            && s'.schedule == (if t in s.schedule then s.schedule[t := false] else s.schedule)
            && s' == s.(db := s.db.(tasks := s'.db.tasks, runs := s'.db.runs), schedule := s'.schedule,
                        nextPid := s.nextPid + 1)
  {
    NextPidIsFree(s);
    hide Inv, Apply, Resumed, StopAllRuns, SetActive;
    StopResult(s, t, o);
    StoppedRows(s.db, t, o[3].now);
  }

  // startTask

  lemma FromStartActivate(s: State, p: Pid, t: TaskId, o: seq<Oracle>)
    requires IsAt(s, p, StartActivate(t)) && |o| == 1 && AllOk(o)
    ensures Resumed(s, p, o) == Exit(s.(db := SetActive(s.db, t, true)), p)
  {
    hide Apply, SetActive;
    Requests(s, p, o[0]);
    assert o[1..] == [];
  }

  lemma FromRegisterStart(s: State, p: Pid, t: TaskId, o: seq<Oracle>)
    requires IsAt(s, p, RegisterExists(t, Activate)) && |o| == 2 && AllOk(o)
    requires t in s.schedule
    ensures Resumed(s, p, o) == Exit(s.(db := SetActive(s.db, t, true)), p)
  {
    hide Apply, SetActive;
    Requests(s, p, o[0]);
    FromStartActivate(Goto(s, p, StartActivate(t)), p, t, o[1..]);
  }

  lemma FromScheduleStart(s: State, p: Pid, t: TaskId, o: seq<Oracle>)
    requires IsAt(s, p, RegisterSchedule(t, Activate)) && |o| == 2 && AllOk(o)
    requires p < s.nextPid
    ensures Resumed(s, p, o) == Exit(ScheduleEntry(s, t).(db := SetActive(s.db, t, true)), p)
  {
    hide Apply, SetActive;
    Requests(s, p, o[0]);
    FromStartActivate(Goto(ScheduleEntry(s, t), p, StartActivate(t)), p, t, o[1..]);
  }

  lemma FromNewStart(s: State, p: Pid, t: TaskId, o: seq<Oracle>)
    requires IsAt(s, p, RegisterExists(t, Activate)) && |o| == 3 && AllOk(o)
    requires t !in s.schedule && p < s.nextPid
    ensures Resumed(s, p, o) == Exit(ScheduleEntry(s, t).(db := SetActive(s.db, t, true)), p)
  {
    hide Apply, SetActive;
    Requests(s, p, o[0]);
    FromScheduleStart(Goto(s, p, RegisterSchedule(t, Activate)), p, t, o[1..]);
  }

  lemma FromStartRead(s: State, p: Pid, t: TaskId, o: seq<Oracle>)
    requires IsAt(s, p, StartRead(t)) && |o| == 3 && AllOk(o)
    requires t in s.schedule && t in s.db.tasks && !s.db.tasks[t].active
    ensures Resumed(s, p, o) == Exit(s.(db := SetActive(s.db, t, true)), p)
  {
    hide Apply, SetActive;
    Requests(s, p, o[0]);
    FromRegisterStart(Goto(s, p, RegisterExists(t, Activate)), p, t, o[1..]);
  }

  lemma FromStartReadNew(s: State, p: Pid, t: TaskId, o: seq<Oracle>)
    requires IsAt(s, p, StartRead(t)) && |o| == 4 && AllOk(o)
    requires t !in s.schedule && t in s.db.tasks && !s.db.tasks[t].active && p < s.nextPid
    ensures Resumed(s, p, o) == Exit(ScheduleEntry(s, t).(db := SetActive(s.db, t, true)), p)
  {
    hide Apply, SetActive, ScheduleEntry;
    Requests(s, p, o[0]);
    FromNewStart(Goto(s, p, RegisterExists(t, Activate)), p, t, o[1..]);
    ScheduledUnder(s, p, t, RegisterExists(t, Activate));
  }

  lemma StartResult(s: State, t: TaskId, o: seq<Oracle>)
    requires s.nextPid !in s.procs && s.server.Serving? && t in s.db.tasks && !s.db.tasks[t].active
    requires |o| == (if t in s.schedule then 3 else 4) && AllOk(o)
    ensures var db, p := SetActive(s.db, t, true), s.nextPid;
            Resumed(Apply(s, Receive(StartTask(t))), s.nextPid, o) ==
            if t in s.schedule then s.(db := db, nextPid := p + 1)
            else s.(db := db, nextPid := p + 2, schedule := s.schedule[t := false], jobs := s.jobs + {t},
                    procs := s.procs[p + 1 := BuildEnv(t)])
  {
    var s1, db := Spawn(s, StartRead(t)), SetActive(s.db, t, true);
    Received(s, StartTask(t));
    hide Apply, Resumed, SetActive;
    if t in s.schedule {
      FromStartRead(s1, s.nextPid, t, o);
      LeavesNoTrace(s, StartRead(t), s.schedule, db);
    } else {
      FromStartReadNew(s1, s.nextPid, t, o);
      LeavesBuild(s, StartRead(t), s.schedule, db, t);
    }
  }

  /**
   * A request to start a stopped task: active. A job that was there is left as it was, stopped or not; a task
   * without one gets a job that is not going, and a build.
   */
  lemma {:induction false} StartUndisturbed(s: State, t: TaskId, o: seq<Oracle>)
    requires Inv(s) && s.server.Serving? && t in s.db.tasks && !s.db.tasks[t].active
    requires |o| == (if t in s.schedule then 3 else 4) && AllOk(o)
    ensures var s', p := Resumed(Apply(s, Receive(StartTask(t))), s.nextPid, o), s.nextPid;
            && s'.db == s.db.(tasks := s.db.tasks[t := s.db.tasks[t].(active := true)])
            && s' == if t in s.schedule then s.(db := s'.db, nextPid := p + 1)
                     else s.(db := s'.db, nextPid := p + 2, schedule := s.schedule[t := false], jobs := s.jobs + {t},
                             procs := s.procs[p + 1 := BuildEnv(t)])
  {
    NextPidIsFree(s);
    hide Inv, Apply, Resumed;
    StartResult(s, t, o);
  }

  // createTask

  /** Entries, and all who are about to make one, are for tasks that have been created. */
  ghost predicate OldIds(s: State) {
    && (forall t :: t in s.schedule ==> t < s.db.nextTask)
    && (forall pid :: pid in s.procs ==> IsOld(s.procs[pid], s.db.nextTask))
    && TurnsOld(s.server, s.db.nextTask)
  }

  predicate IsOld(p: Proc, next: TaskId) {
    p.UpdateDrop? || p.RegisterExists? || p.RegisterSchedule? ==> p.t < next
  }

  ghost predicate Below(tasks: seq<TaskId>, next: TaskId) {
    forall i :: 0 <= i < |tasks| ==> tasks[i] < next
  }

  /** The tasks that a starting server is still about to register. */
  ghost predicate TurnsOld(server: Server, next: TaskId) {
    match server
    case ReadRuns(t, rest) => t < next && Below(rest, next)
    case Requeue(t, _, rest) => t < next && Below(rest, next)
    case BootExists(t, rest) => t < next && Below(rest, next)
    case BootSchedule(t, rest) => t < next && Below(rest, next)
    case _ => true
  }

  lemma RequestKeepsOldIds(s: State, p: Pid, o: Oracle)
    requires p in s.procs && IsRequestOnly(s.procs[p]) && OldIds(s)
    requires forall t :: t in s.db.tasks ==> t < s.db.nextTask
    ensures OldIds(RequestStep(s, p, s.procs[p], o))
  {
  }

  lemma CallbackKeepsOldIds(s: State, p: Pid, o: Oracle)
    requires p in s.procs && IsCallback(s.procs[p]) && OldIds(s)
    ensures OldIds(CallbackStep(s, p, s.procs[p], o))
  {
    hide Below, Count, Label;
  }

  lemma ExecKeepsOldIds(s: State, p: Pid, o: Oracle)
    requires p in s.procs && IsExec(s.procs[p]) && OldIds(s)
    ensures OldIds(ExecStep(s, p, s.procs[p], o))
  {
    hide Below;
  }

  lemma StopKeepsOldIds(s: State, p: Pid, o: Oracle)
    requires p in s.procs && IsStop(s.procs[p]) && OldIds(s)
    ensures OldIds(StopStep(s, p, s.procs[p], o))
  {
    hide Below;
  }

  lemma BuildKeepsOldIds(s: State, p: Pid, o: Oracle)
    requires p in s.procs && s.procs[p].BuildEnv? && OldIds(s)
    ensures OldIds(ResumeStep(s, p, o))
  {
    hide Below, CallbackStep, ExecStep, StopStep, RequestStep;
  }

  lemma BootKeepsOldIds(s: State, o: Oracle)
    requires OldIds(s) && forall t :: t in s.db.tasks ==> t < s.db.nextTask
    ensures OldIds(BootStepState(s, o))
  {
    hide IsPendingList;
    if s.server.Finding? && IsActiveList(s.db, o.tasksFound) {
      assert forall i :: 0 <= i < |o.tasksFound| ==> o.tasksFound[i] in s.db.tasks;
    }
  }

  lemma ResumeKeepsOldIds(s: State, p: Pid, o: Oracle)
    requires p in s.procs && OldIds(s) && forall t :: t in s.db.tasks ==> t < s.db.nextTask
    ensures OldIds(ResumeStep(s, p, o))
  {
    hide OldIds, CallbackStep, ExecStep, StopStep, RequestStep;
    var q := s.procs[p];
    if IsRequestOnly(q) {
      RequestKeepsOldIds(s, p, o);
    } else if IsStop(q) {
      StopKeepsOldIds(s, p, o);
    } else if q.BuildEnv? {
      BuildKeepsOldIds(s, p, o);
    } else if IsCallback(q) {
      CallbackKeepsOldIds(s, p, o);
    } else {
      ExecKeepsOldIds(s, p, o);
    }
  }

  lemma StepKeepsOldIds(s: State, a: Action)
    requires OldIds(s) && forall t :: t in s.db.tasks ==> t < s.db.nextTask
    ensures OldIds(Apply(s, a))
  {
    hide ResumeStep, BootStepState;
    match a
    case Resume(p, o) =>
      if p in s.procs {
        ResumeKeepsOldIds(s, p, o);
      }
    case BootStep(o) => BootKeepsOldIds(s, o);
    case _ =>
  }

  lemma TaskIdsOld(s: State)
    requires Inv(s)
    ensures forall t :: t in s.db.tasks ==> t < s.db.nextTask
  {
    DbFacts(s);
  }

  /** The next task to be created never has an entry before. */
  lemma {:induction false} EntriesAreOld(m: int, actions: seq<Action>)
    ensures OldIds(Reached(m, actions)) && Reached(m, actions).db.nextTask !in Reached(m, actions).schedule
  {
    if actions != [] {
      var n := |actions| - 1;
      EntriesAreOld(m, actions[..n]);
      Steps.InvAlways(m, actions[..n]);
      TaskIdsOld(Reached(m, actions[..n]));
      hide Inv, Apply;
      StepKeepsOldIds(Reached(m, actions[..n]), actions[n]);
    }
  }

  lemma FromScheduleNew(s: State, p: Pid, t: TaskId, o: seq<Oracle>)
    requires IsAt(s, p, RegisterSchedule(t, Nothing)) && |o| == 1 && AllOk(o)
    requires p < s.nextPid
    ensures Resumed(s, p, o) == Exit(ScheduleEntry(s, t), p)
  {
    hide Apply;
    Requests(s, p, o[0]);
    assert o[1..] == [];
  }

  lemma FromRegisterNew(s: State, p: Pid, t: TaskId, o: seq<Oracle>)
    requires IsAt(s, p, RegisterExists(t, Nothing)) && |o| == 2 && AllOk(o)
    requires t !in s.schedule && p < s.nextPid
    ensures Resumed(s, p, o) == Exit(ScheduleEntry(s, t), p)
  {
    hide Apply;
    Requests(s, p, o[0]);
    FromScheduleNew(Goto(s, p, RegisterSchedule(t, Nothing)), p, t, o[1..]);
  }

  lemma FromCreateInsert(s: State, p: Pid, limit: Option<int>, body: nat, o: seq<Oracle>)
    requires IsAt(s, p, CreateInsert(limit, body)) && |o| == 3 && AllOk(o)
    requires s.db.nextTask !in s.schedule && p < s.nextPid
    ensures Resumed(s, p, o) == Exit(ScheduleEntry(s, s.db.nextTask).(db := InsertTask(s.db, limit, body)), p)
  {
    hide Apply, InsertTask;
    Requests(s, p, o[0]);
    var s1 := Goto(s.(db := InsertTask(s.db, limit, body)), p, RegisterExists(s.db.nextTask, Nothing));
    FromRegisterNew(s1, p, s.db.nextTask, o[1..]);
  }

  lemma CreateResult(s: State, limit: Option<int>, body: nat, o: seq<Oracle>)
    requires s.nextPid !in s.procs && s.server.Serving? && s.db.nextTask !in s.schedule && |o| == 3 && AllOk(o)
    ensures var t, p := s.db.nextTask, s.nextPid;
            Resumed(Apply(s, Receive(CreateTask(limit, body))), p, o) ==
            s.(db := InsertTask(s.db, limit, body), nextPid := p + 2, schedule := s.schedule[t := false],
               jobs := s.jobs + {t}, procs := s.procs[p + 1 := BuildEnv(t)])
  {
    Received(s, CreateTask(limit, body));
    hide Apply, Resumed, InsertTask;
    FromCreateInsert(Spawn(s, CreateInsert(limit, body)), s.nextPid, limit, body, o);
    LeavesBuild(s, CreateInsert(limit, body), s.schedule, InsertTask(s.db, limit, body), s.db.nextTask);
  }

  /** A task has been created: it is active, as requested, and has a job that is not going and a build. */
  ghost predicate IsCreated(s: State, s': State, limit: Option<int>, body: nat) {
    var t, p := s.db.nextTask, s.nextPid;
    && t !in s.db.tasks && s'.db.tasks == s.db.tasks[t := Task(limit, true, body)] && s'.db.nextTask == t + 1
    && s'.db.runs == s.db.runs && s'.db.nextRun == s.db.nextRun
    && s' == s.(db := s'.db, nextPid := p + 2, schedule := s.schedule[t := false], jobs := s.jobs + {t},
                procs := s.procs[p + 1 := BuildEnv(t)])
  }

  lemma ResultIsCreated(s: State, limit: Option<int>, body: nat)
    requires s.db.nextTask !in s.db.tasks
    ensures var t, p := s.db.nextTask, s.nextPid;
            IsCreated(s, s.(db := InsertTask(s.db, limit, body), nextPid := p + 2, schedule := s.schedule[t := false],
                            jobs := s.jobs + {t}, procs := s.procs[p + 1 := BuildEnv(t)]), limit, body)
  {
  }

  /** A request to create a task, in any run. The end of the build will make the job go. */
  lemma {:induction false} CreateUndisturbed(m: int, actions: seq<Action>, limit: Option<int>, body: nat,
                                             o: seq<Oracle>)
    requires Reached(m, actions).server.Serving? && |o| == 3 && AllOk(o)
    ensures var s := Reached(m, actions);
            IsCreated(s, Resumed(Apply(s, Receive(CreateTask(limit, body))), s.nextPid, o), limit, body)
  {
    var s := Reached(m, actions);
    EntriesAreOld(m, actions);
    Steps.InvAlways(m, actions);
    NextPidIsFree(s);
    TaskIdsOld(s);
    hide *;
    ResultIsCreated(s, limit, body);
    CreateResult(s, limit, body, o);
  }

  /** A build that ends makes the job of its task go, if that has one; a build that fails changes nothing. */
  lemma {:induction false} BuildUndisturbed(s: State, p: Pid, t: TaskId, o: Oracle)
    requires IsAt(s, p, BuildEnv(t))
    ensures Apply(s, Resume(p, o)) ==
            s.(procs := s.procs - {p},
               schedule := if o.ok && t in s.schedule then s.schedule[t := true] else s.schedule)
  {
    hide CallbackStep, ExecStep, StopStep, RequestStep;
  }

  // deleteTask

  lemma FromDeleteRow(s: State, p: Pid, t: TaskId, o: seq<Oracle>)
    requires IsAt(s, p, DeleteRow(t)) && |o| == 1 && AllOk(o)
    ensures Resumed(s, p, o) == Exit(s.(db := RemoveTask(s.db, t)), p)
  {
    hide Apply, RemoveTask;
    Requests(s, p, o[0]);
    assert o[1..] == [];
  }

  lemma FromDeleteExecutable(s: State, p: Pid, t: TaskId, o: seq<Oracle>)
    requires IsAt(s, p, DeleteExecutable(t)) && |o| == 2 && AllOk(o)
    ensures Resumed(s, p, o) == Exit(s.(schedule := s.schedule - {t}, db := RemoveTask(s.db, t)), p)
  {
    hide Apply, RemoveTask;
    Requests(s, p, o[0]);
    FromDeleteRow(Goto(s.(schedule := s.schedule - {t}), p, DeleteRow(t)), p, t, o[1..]);
  }

  lemma FromDeleteRead(s: State, p: Pid, t: TaskId, o: seq<Oracle>)
    requires IsAt(s, p, DeleteRead(t)) && |o| == 3 && AllOk(o)
    requires t in s.db.tasks && !s.db.tasks[t].active
    ensures Resumed(s, p, o) == Exit(s.(schedule := s.schedule - {t}, db := RemoveTask(s.db, t)), p)
  {
    hide Apply, RemoveTask;
    Requests(s, p, o[0]);
    FromDeleteExecutable(Goto(s, p, DeleteExecutable(t)), p, t, o[1..]);
  }

  lemma Removed(db: Db, t: TaskId)
    ensures var db' := RemoveTask(db, t);
            && (forall r :: r in db'.runs <==> r in db.runs && db.runs[r].taskId != t)
            && (forall r :: r in db'.runs ==> db'.runs[r] == db.runs[r])
            && db' == db.(tasks := db.tasks - {t}, runs := db'.runs)
  {
  }

  lemma DeleteResult(s: State, t: TaskId, o: seq<Oracle>)
    requires s.nextPid !in s.procs && s.server.Serving? && t in s.db.tasks && !s.db.tasks[t].active
    requires |o| == 3 && AllOk(o)
    ensures Resumed(Apply(s, Receive(DeleteTask(t))), s.nextPid, o) ==
            s.(schedule := s.schedule - {t}, db := RemoveTask(s.db, t), nextPid := s.nextPid + 1)
  {
    Received(s, DeleteTask(t));
    hide Apply, Resumed, RemoveTask;
    FromDeleteRead(Spawn(s, DeleteRead(t)), s.nextPid, t, o);
    LeavesNoTrace(s, DeleteRead(t), s.schedule - {t}, RemoveTask(s.db, t));
  }

  /** A request to delete a stopped task: no row, no run and no entry of it is left, and all else is as before. */
  lemma {:induction false} DeleteUndisturbed(s: State, t: TaskId, o: seq<Oracle>)
    requires Inv(s) && s.server.Serving? && t in s.db.tasks && !s.db.tasks[t].active && |o| == 3 && AllOk(o)
    ensures var s' := Resumed(Apply(s, Receive(DeleteTask(t))), s.nextPid, o);
            && s'.db.tasks == s.db.tasks - {t} && s'.schedule == s.schedule - {t}
            && (forall r :: r in s'.db.runs <==> r in s.db.runs && s.db.runs[r].taskId != t)
            && (forall r :: r in s'.db.runs ==> s'.db.runs[r] == s.db.runs[r])
            && s' == s.(db := s.db.(tasks := s'.db.tasks, runs := s'.db.runs), schedule := s'.schedule,
                        nextPid := s.nextPid + 1)
  {
    NextPidIsFree(s);
    hide Inv, Apply, Resumed, RemoveTask;
    DeleteResult(s, t, o);
    Removed(s.db, t);
  }

  // updateTask

  lemma FromUpdateWrite(s: State, p: Pid, t: TaskId, limit: Option<int>, body: nat, o: seq<Oracle>)
    requires IsAt(s, p, UpdateWrite(t, limit, body)) && |o| == 1 && AllOk(o)
    ensures Resumed(s, p, o) == Exit(s.(db := WriteConfig(s.db, t, limit, body)), p)
  {
    hide Apply, WriteConfig;
    Requests(s, p, o[0]);
    assert o[1..] == [];
  }

  lemma FromScheduleUpdate(s: State, p: Pid, t: TaskId, limit: Option<int>, body: nat, o: seq<Oracle>)
    requires IsAt(s, p, RegisterSchedule(t, Write(limit, body))) && |o| == 2 && AllOk(o)
    requires p < s.nextPid
    ensures Resumed(s, p, o) == Exit(ScheduleEntry(s, t).(db := WriteConfig(s.db, t, limit, body)), p)
  {
    hide Apply, WriteConfig;
    Requests(s, p, o[0]);
    FromUpdateWrite(Goto(ScheduleEntry(s, t), p, UpdateWrite(t, limit, body)), p, t, limit, body, o[1..]);
  }

  lemma FromRegisterUpdate(s: State, p: Pid, t: TaskId, limit: Option<int>, body: nat, o: seq<Oracle>)
    requires IsAt(s, p, RegisterExists(t, Write(limit, body))) && |o| == 3 && AllOk(o)
    requires t !in s.schedule && p < s.nextPid
    ensures Resumed(s, p, o) == Exit(ScheduleEntry(s, t).(db := WriteConfig(s.db, t, limit, body)), p)
  {
    hide Apply, WriteConfig;
    Requests(s, p, o[0]);
    FromScheduleUpdate(Goto(s, p, RegisterSchedule(t, Write(limit, body))), p, t, limit, body, o[1..]);
  }

  lemma FromUpdateDrop(s: State, p: Pid, t: TaskId, limit: Option<int>, body: nat, o: seq<Oracle>)
    requires IsAt(s, p, UpdateDrop(t, limit, body)) && |o| == 4 && AllOk(o)
    requires p < s.nextPid
    ensures Resumed(s, p, o) ==
            Exit(ScheduleEntry(s.(schedule := s.schedule - {t}), t).(db := WriteConfig(s.db, t, limit, body)), p)
  {
    hide Apply, WriteConfig, ScheduleEntry;
    Requests(s, p, o[0]);
    var s1 := s.(schedule := s.schedule - {t});
    FromRegisterUpdate(Goto(s1, p, RegisterExists(t, Write(limit, body))), p, t, limit, body, o[1..]);
    ScheduledUnder(s1, p, t, RegisterExists(t, Write(limit, body)));
  }

  lemma FromUpdateRead(s: State, p: Pid, t: TaskId, body: nat, o: seq<Oracle>)
    requires IsAt(s, p, UpdateRead(t, body)) && |o| == 5 && AllOk(o)
    requires t in s.db.tasks && p < s.nextPid
    ensures Resumed(s, p, o) ==
            Exit(ScheduleEntry(s.(schedule := s.schedule - {t}), t).(
                             db := WriteConfig(s.db, t, s.db.tasks[t].times, body)), p)
  {
    hide Apply, WriteConfig, ScheduleEntry;
    Requests(s, p, o[0]);
    var q := UpdateDrop(t, s.db.tasks[t].times, body);
    FromUpdateDrop(Goto(s, p, q), p, t, s.db.tasks[t].times, body, o[1..]);
    ScheduledUnder(s.(schedule := s.schedule - {t}), p, t, q);
  }

  lemma BodyReplaced(db: Db, t: TaskId, body: nat)
    requires t in db.tasks
    ensures WriteConfig(db, t, db.tasks[t].times, body) ==
            db.(tasks := db.tasks[t := db.tasks[t].(body := body)])
  {
  }

  lemma UpdateResult(s: State, t: TaskId, body: nat, o: seq<Oracle>)
    requires s.nextPid !in s.procs && s.server.Serving? && t in s.db.tasks && |o| == 5 && AllOk(o)
    ensures var p := s.nextPid;
            Resumed(Apply(s, Receive(UpdateTask(t, body))), p, o) ==
            s.(db := WriteConfig(s.db, t, s.db.tasks[t].times, body), nextPid := p + 2,
               schedule := s.schedule[t := false], jobs := s.jobs + {t}, procs := s.procs[p + 1 := BuildEnv(t)])
  {
    Received(s, UpdateTask(t, body));
    hide Apply, Resumed, WriteConfig;
    FromUpdateRead(Spawn(s, UpdateRead(t, body)), s.nextPid, t, body, o);
    LeavesBuild(s, UpdateRead(t, body), s.schedule - {t}, WriteConfig(s.db, t, s.db.tasks[t].times, body), t);
    assert (s.schedule - {t})[t := false] == s.schedule[t := false];
  }

  /** A request to update a task: the body is replaced, its limit is not, and it gets a new job and a build. */
  lemma {:induction false} UpdateUndisturbed(s: State, t: TaskId, body: nat, o: seq<Oracle>)
    requires Inv(s) && s.server.Serving? && t in s.db.tasks && |o| == 5 && AllOk(o)
    ensures var s', p := Resumed(Apply(s, Receive(UpdateTask(t, body))), s.nextPid, o), s.nextPid;
            && s'.db == s.db.(tasks := s.db.tasks[t := s.db.tasks[t].(body := body)])
            && s' == s.(db := s'.db, nextPid := p + 2, schedule := s.schedule[t := false], jobs := s.jobs + {t},
                        procs := s.procs[p + 1 := BuildEnv(t)])
  {
    NextPidIsFree(s);
    hide Inv, Apply, Resumed, WriteConfig;
    UpdateResult(s, t, body, o);
    BodyReplaced(s.db, t, body);
  }

  // The cron callback

  lemma FromCallbackLeave(s: State, p: Pid, t: TaskId, h: RunHandle, o: seq<Oracle>)
    requires IsAt(s, p, CallbackLeave(t, Registered(h))) && |o| == 1 && AllOk(o)
    ensures Resumed(s, p, o) == Goto(s.(locks := s.locks - {Label(t)}), p, CallbackEnqueue(h))
  {
    hide Apply, Label;
    CallsBack(s, p, o[0]);
    assert o[1..] == [];
  }

  lemma FromCallbackInsert(s: State, p: Pid, t: TaskId, limit: Option<int>, rank: Rank, o: seq<Oracle>)
    requires IsAt(s, p, CallbackInsert(t, limit, rank)) && |o| == 2 && AllOk(o)
    requires t in s.db.tasks
    ensures Resumed(s, p, o) ==
            Goto(s.(locks := s.locks - {Label(t)}, db := InsertRun(s.db, t, rank, o[0].now)), p,
                 CallbackEnqueue(RunHandle(t, s.db.nextRun, rank)))
  {
    hide Apply, Label, InsertRun;
    CallsBack(s, p, o[0]);
    var h := RunHandle(t, s.db.nextRun, rank);
    FromCallbackLeave(Goto(s.(db := InsertRun(s.db, t, rank, o[0].now)), p, CallbackLeave(t, Registered(h))), p, t, h,
                      o[1..]);
  }

  lemma Counts(s: State, p: Pid, t: TaskId, bound: int, o: Oracle)
    requires IsAt(s, p, CallbackCount(t, bound)) && o.ok
    ensures Apply(s, Resume(p, o)) ==
            Goto(s, p, if Count(s.db.runs, t) < bound
                       then CallbackInsert(t, Some(bound), Ranked(Count(s.db.runs, t) + 1))
                       else CallbackLeave(t, Rejected))
  {
    CallsBack(s, p, o);
    hide Apply, Count, Label;
  }

  lemma FromCallbackCount(s: State, p: Pid, t: TaskId, bound: int, rank: Rank, o: seq<Oracle>)
    requires IsAt(s, p, CallbackCount(t, bound)) && |o| == 3 && AllOk(o)
    requires t in s.db.tasks && Count(s.db.runs, t) < bound && rank == Ranked(Count(s.db.runs, t) + 1)
    ensures Resumed(s, p, o) ==
            Goto(s.(locks := s.locks - {Label(t)}, db := InsertRun(s.db, t, rank, o[1].now)), p,
                 CallbackEnqueue(RunHandle(t, s.db.nextRun, rank)))
  {
    hide Apply, Label, InsertRun, Count;
    CallsBack(s, p, o[0]);
    Counts(s, p, t, bound, o[0]);
    FromCallbackInsert(Goto(s, p, CallbackInsert(t, Some(bound), rank)), p, t, Some(bound), rank, o[1..]);
  }

  lemma Unlocked(locks: set<string>, key: string)
    requires key !in locks
    ensures (locks + {key}) - {key} == locks
  {
  }

  lemma FromLockUnlimited(s: State, p: Pid, t: TaskId, o: seq<Oracle>)
    requires IsAt(s, p, CallbackLock(t, None, 0)) && |o| == 3 && AllOk(o)
    requires t in s.db.tasks && Label(t) !in s.locks
    ensures Resumed(s, p, o) ==
            Goto(s.(db := InsertRun(s.db, t, Unbounded, o[1].now)), p,
                 CallbackEnqueue(RunHandle(t, s.db.nextRun, Unbounded)))
  {
    hide Apply, Label, InsertRun;
    CallsBack(s, p, o[0]);
    Unlocked(s.locks, Label(t));
    FromCallbackInsert(Goto(s.(locks := s.locks + {Label(t)}), p, CallbackInsert(t, None, Unbounded)), p, t, None,
                       Unbounded, o[1..]);
  }

  lemma FromLockLimited(s: State, p: Pid, t: TaskId, bound: int, rank: Rank, o: seq<Oracle>)
    requires IsAt(s, p, CallbackLock(t, Some(bound), 0)) && |o| == 4 && AllOk(o)
    requires t in s.db.tasks && Label(t) !in s.locks
             && Count(s.db.runs, t) < bound && rank == Ranked(Count(s.db.runs, t) + 1)
    ensures Resumed(s, p, o) ==
            Goto(s.(db := InsertRun(s.db, t, rank, o[2].now)), p, CallbackEnqueue(RunHandle(t, s.db.nextRun, rank)))
  {
    hide Apply, Label, InsertRun, Count;
    CallsBack(s, p, o[0]);
    Unlocked(s.locks, Label(t));
    FromCallbackCount(Goto(s.(locks := s.locks + {Label(t)}), p, CallbackCount(t, bound)), p, t, bound, rank, o[1..]);
  }

  lemma FromUnschedule(s: State, p: Pid, t: TaskId, o: seq<Oracle>)
    requires IsAt(s, p, CallbackUnschedule(t)) && |o| == 1 && AllOk(o)
    ensures Resumed(s, p, o) == Exit(StopEntry(s, t), p)
  {
    hide Apply;
    CallsBack(s, p, o[0]);
    assert o[1..] == [];
  }

  lemma FromRejected(s: State, p: Pid, t: TaskId, o: seq<Oracle>)
    requires IsAt(s, p, CallbackLeave(t, Rejected)) && |o| == 2 && AllOk(o)
    ensures Resumed(s, p, o) == Exit(StopEntry(s.(locks := s.locks - {Label(t)}), t), p)
  {
    hide Apply, Label;
    CallsBack(s, p, o[0]);
    FromUnschedule(Goto(s.(locks := s.locks - {Label(t)}), p, CallbackUnschedule(t)), p, t, o[1..]);
    Forgets(s.(locks := s.locks - {Label(t)}), p, CallbackUnschedule(t));
  }

  lemma FromFullCount(s: State, p: Pid, t: TaskId, bound: int, o: seq<Oracle>)
    requires IsAt(s, p, CallbackCount(t, bound)) && |o| == 3 && AllOk(o)
    requires bound <= Count(s.db.runs, t)
    ensures Resumed(s, p, o) == Exit(StopEntry(s.(locks := s.locks - {Label(t)}), t), p)
  {
    hide Apply, Label, Count;
    CallsBack(s, p, o[0]);
    Counts(s, p, t, bound, o[0]);
    FromRejected(Goto(s, p, CallbackLeave(t, Rejected)), p, t, o[1..]);
    Forgets(s, p, CallbackLeave(t, Rejected));
  }

  lemma FromLockFull(s: State, p: Pid, t: TaskId, bound: int, o: seq<Oracle>)
    requires IsAt(s, p, CallbackLock(t, Some(bound), 0)) && |o| == 4 && AllOk(o)
    requires Label(t) !in s.locks && bound <= Count(s.db.runs, t)
    ensures Resumed(s, p, o) == Exit(StopEntry(s, t), p)
  {
    hide Apply, Label, Count;
    CallsBack(s, p, o[0]);
    Unlocked(s.locks, Label(t));
    FromFullCount(Goto(s.(locks := s.locks + {Label(t)}), p, CallbackCount(t, bound)), p, t, bound, o[1..]);
    Forgets(s.(locks := s.locks + {Label(t)}), p, CallbackCount(t, bound));
  }

  /** The beginning of a callback of an active task. */
  lemma TickBegins(s: State, t: TaskId, o: seq<Oracle>)
    requires t in s.jobs && IsActive(s.db, t) && s.nextPid !in s.procs && o != [] && AllOk(o)
    ensures Resumed(Apply(s, Tick(t)), s.nextPid, o) ==
            Resumed(Spawn(s, CallbackLock(t, s.db.tasks[t].times, 0)), s.nextPid, o[1..])
  {
    var s1 := Spawn(s, CallbackRead(t));
    assert Apply(s, Tick(t)) == s1 by {
      hide ResumeStep, BootStepState;
    }
    CallsBack(s1, s.nextPid, o[0]);
    hide Apply;
    assert Apply(s1, Resume(s.nextPid, o[0])) == Spawn(s, CallbackLock(t, s.db.tasks[t].times, 0));
  }

  lemma Respawned(s: State, p: Proc, q: Proc, db: Db)
    ensures Goto(Spawn(s, p).(db := db), s.nextPid, q) == Spawn(s.(db := db), q)
  {
  }

  lemma TickResult(s: State, t: TaskId, rank: Rank, o: seq<Oracle>)
    requires s.nextPid !in s.procs && t in s.jobs && IsActive(s.db, t) && Label(t) !in s.locks && AllOk(o)
    requires var limit := s.db.tasks[t].times;
             if limit.None? then |o| == 4 && rank == Unbounded
             else |o| == 5 && Count(s.db.runs, t) < limit.value && rank == Ranked(Count(s.db.runs, t) + 1)
    ensures Resumed(Apply(s, Tick(t)), s.nextPid, o) ==
            Spawn(s.(db := InsertRun(s.db, t, rank, o[|o| - 2].now)), CallbackEnqueue(RunHandle(t, s.db.nextRun, rank)))
  {
    var limit, s1 := s.db.tasks[t].times, Spawn(s, CallbackLock(t, s.db.tasks[t].times, 0));
    TickBegins(s, t, o);
    hide Apply, Resumed, Label, Count, InsertRun;
    if limit.None? {
      FromLockUnlimited(s1, s.nextPid, t, o[1..]);
    } else {
      FromLockLimited(s1, s.nextPid, t, limit.value, rank, o[1..]);
    }
    Respawned(s, CallbackLock(t, limit, 0), CallbackEnqueue(RunHandle(t, s.db.nextRun, rank)),
              InsertRun(s.db, t, rank, o[|o| - 2].now));
  }

  /**
   * A tick of an active task whose limit has room and whose lock is free: one new pending row, whose rank is one
   * more than the number of rows; the lock is free again, and the closure of the run is about to be queued.
   */
  lemma {:induction false} TickUndisturbed(s: State, t: TaskId, o: seq<Oracle>)
    requires Inv(s) && t in s.jobs && t in s.db.tasks && s.db.tasks[t].active && Label(t) !in s.locks && AllOk(o)
    requires var limit := s.db.tasks[t].times;
             if limit.None? then |o| == 4 else |o| == 5 && Count(s.db.runs, t) < limit.value
    ensures var rank := if s.db.tasks[t].times.None? then Unbounded else Ranked(Count(s.db.runs, t) + 1);
            var s', r := Resumed(Apply(s, Tick(t)), s.nextPid, o), s.db.nextRun;
            && s'.db.runs == s.db.runs[r := Run(t, rank, Pending, None, o[|o| - 2].now, None, None)]
            && s'.db.nextRun == r + 1 && s'.db.tasks == s.db.tasks && s'.db.nextTask == s.db.nextTask
            && s' == Spawn(s.(db := s'.db), CallbackEnqueue(RunHandle(t, r, rank)))
  {
    NextPidIsFree(s);
    hide Inv, Apply, Resumed, Label, Count;
    TickResult(s, t, if s.db.tasks[t].times.None? then Unbounded else Ranked(Count(s.db.runs, t) + 1), o);
  }

  /** A closure that is handed to the queue is started at once in a free slot, or waits at the end. */
  lemma {:induction false} HandOverUndisturbed(s: State, p: Pid, h: RunHandle, o: Oracle)
    requires Inv(s) && IsAt(s, p, CallbackEnqueue(h))
    ensures Apply(s, Resume(p, o)) ==
            if s.running < s.maxConcurrency
            then s.(procs := (s.procs - {p})[s.nextPid := ExecRead(h)], running := s.running + 1,
                    nextPid := s.nextPid + 1)
            else s.(procs := s.procs - {p}, queue := s.queue + [h])
  {
    ControlFacts(s);
    CallsBack(s, p, o);
    hide Inv, Apply;
    assert s.running < s.maxConcurrency ==> s.queue == [];
  }

  /** A tick of an active task that is at its limit: its job is stopped, and nothing else changes. */
  lemma {:induction false} RefusedUndisturbed(s: State, t: TaskId, o: seq<Oracle>)
    requires Inv(s) && t in s.jobs && t in s.db.tasks && s.db.tasks[t].active && Label(t) !in s.locks
    requires s.db.tasks[t].times.Some? && s.db.tasks[t].times.value <= Count(s.db.runs, t) && |o| == 5 && AllOk(o)
    ensures Resumed(Apply(s, Tick(t)), s.nextPid, o) ==
            s.(schedule := if t in s.schedule then s.schedule[t := false] else s.schedule, nextPid := s.nextPid + 1)
  {
    var limit := s.db.tasks[t].times;
    NextPidIsFree(s);
    TickBegins(s, t, o);
    hide Inv, Apply, Resumed, Label, Count;
    FromLockFull(Spawn(s, CallbackLock(t, limit, 0)), s.nextPid, t, limit.value, o[1..]);
    LeavesNoTrace(s, CallbackLock(t, limit, 0), if t in s.schedule then s.schedule[t := false] else s.schedule, s.db);
  }

  // runTask

  lemma FromExecFinish(s: State, p: Pid, h: RunHandle, limit: Option<int>, success: bool, o: seq<Oracle>)
    requires IsAt(s, p, ExecFinish(h, limit, success)) && |o| == 1 && AllOk(o)
    ensures Resumed(s, p, o) == Goto(s.(db := FinishRun(s.db, h, success, o[0].now)), p, ExecDeleteEnv(h, limit))
  {
    hide Apply, LaunchRun, FinishRun;
    Executes(s, p, o[0]);
    assert o[1..] == [];
  }

  lemma FromExecWait(s: State, p: Pid, h: RunHandle, limit: Option<int>, o: seq<Oracle>)
    requires IsAt(s, p, ExecWait(h, limit)) && |o| == 2 && AllOk(o)
    ensures Resumed(s, p, o) ==
            Goto(s.(db := FinishRun(s.db, h, o[0].exitCode == 0, o[1].now)), p, ExecDeleteEnv(h, limit))
  {
    hide Apply, LaunchRun, FinishRun;
    Executes(s, p, o[0]);
    FromExecFinish(Goto(s, p, ExecFinish(h, limit, o[0].exitCode == 0)), p, h, limit, o[0].exitCode == 0, o[1..]);
  }

  lemma FromExecStart(s: State, p: Pid, h: RunHandle, limit: Option<int>, handleId: string, o: seq<Oracle>)
    requires IsAt(s, p, ExecStart(h, limit, handleId)) && |o| == 3 && AllOk(o)
    ensures Resumed(s, p, o) ==
            Goto(s.(db := FinishRun(LaunchRun(s.db, h, handleId, o[0].now), h, o[1].exitCode == 0, o[2].now)), p,
                 ExecDeleteEnv(h, limit))
  {
    hide Apply, LaunchRun, FinishRun;
    Executes(s, p, o[0]);
    FromExecWait(Goto(s.(db := LaunchRun(s.db, h, handleId, o[0].now)), p, ExecWait(h, limit)), p, h, limit, o[1..]);
  }

  lemma FromExecLaunchEnv(s: State, p: Pid, h: RunHandle, limit: Option<int>, o: seq<Oracle>)
    requires IsAt(s, p, ExecLaunchEnv(h, limit)) && |o| == 4 && AllOk(o)
    ensures Resumed(s, p, o) ==
            Goto(s.(db := FinishRun(LaunchRun(s.db, h, o[0].handleId, o[1].now), h, o[2].exitCode == 0, o[3].now)), p,
                 ExecDeleteEnv(h, limit))
  {
    hide Apply, LaunchRun, FinishRun;
    Executes(s, p, o[0]);
    FromExecStart(Goto(s, p, ExecStart(h, limit, o[0].handleId)), p, h, limit, o[0].handleId, o[1..]);
  }

  lemma FromExecRead(s: State, p: Pid, h: RunHandle, o: seq<Oracle>)
    requires IsAt(s, p, ExecRead(h)) && |o| == 5 && AllOk(o)
    requires IsActive(s.db, h.taskId)
    ensures Resumed(s, p, o) ==
            Goto(s.(db := FinishRun(LaunchRun(s.db, h, o[1].handleId, o[2].now), h, o[3].exitCode == 0, o[4].now)), p,
                 ExecDeleteEnv(h, s.db.tasks[h.taskId].times))
  {
    hide Apply, LaunchRun, FinishRun;
    Executes(s, p, o[0]);
    var limit := s.db.tasks[h.taskId].times;
    FromExecLaunchEnv(Goto(s, p, ExecLaunchEnv(h, limit)), p, h, limit, o[1..]);
  }

  /** Both updates of a run. */
  lemma RanRow(db: Db, h: RunHandle, handleId: string, start: Time, success: bool, end: Time)
    requires h.runId in db.runs
    ensures var db' := FinishRun(LaunchRun(db, h, handleId, start), h, success, end);
            && db'.runs == db.runs[h.runId := db.runs[h.runId].(status := if success then Succeed else Failed,
                                                                handleId := Some(handleId), startedAt := Some(start),
                                                                finishedAt := Some(end))]
            && db'.tasks == db.tasks
  {
  }

  /**
   * A run of an active task: its row tells the container, its start and its end, and by the exit code whether
   * it succeeded. Nothing else is changed before the container is deleted.
   */
  lemma {:induction false} RunUndisturbed(s: State, p: Pid, h: RunHandle, o: seq<Oracle>)
    requires IsAt(s, p, ExecRead(h)) && h.taskId in s.db.tasks && s.db.tasks[h.taskId].active && h.runId in s.db.runs
    requires |o| == 5 && AllOk(o)
    ensures var s', row := Resumed(s, p, o), s.db.runs[h.runId];
            && s'.db.runs == s.db.runs[h.runId := row.(
                                         status := if o[3].exitCode == 0 then Succeed else Failed,
                                         handleId := Some(o[1].handleId), startedAt := Some(o[2].now),
                                         finishedAt := Some(o[4].now))]
            && s'.db.tasks == s.db.tasks
            && s' == Goto(s.(db := s'.db), p, ExecDeleteEnv(h, s.db.tasks[h.taskId].times))
  {
    FromExecRead(s, p, h, o);
    RanRow(s.db, h, o[1].handleId, o[2].now, o[3].exitCode == 0, o[4].now);
    hide Resumed, LaunchRun, FinishRun;
  }


  lemma FromExecDeactivate(s: State, p: Pid, h: RunHandle, o: seq<Oracle>)
    requires IsAt(s, p, ExecDeactivate(h)) && |o| == 1 && AllOk(o)
    ensures Resumed(s, p, o) == Goto(s.(db := SetActive(s.db, h.taskId, false)), p, ExecDone(h))
  {
    hide Apply, SetActive;
    Executes(s, p, o[0]);
    assert o[1..] == [];
  }

  lemma FromExecSystemStop(s: State, p: Pid, h: RunHandle, o: seq<Oracle>)
    requires IsAt(s, p, ExecSystemStop(h)) && |o| == 2 && AllOk(o)
    ensures Resumed(s, p, o) == Goto(StopEntry(s, h.taskId).(db := SetActive(s.db, h.taskId, false)), p, ExecDone(h))
  {
    hide Apply, SetActive;
    Executes(s, p, o[0]);
    FromExecDeactivate(Goto(StopEntry(s, h.taskId), p, ExecDeactivate(h)), p, h, o[1..]);
  }

  /** After a run that is not the last of its task nothing is left to do but to give the slot back. */
  lemma {:induction false} NotLastUndisturbed(s: State, p: Pid, h: RunHandle, limit: Option<int>, o: Oracle)
    requires IsAt(s, p, ExecDeleteEnv(h, limit)) && o.ok
    requires limit.None? || (h.rank.Ranked? && h.rank.n < limit.value)
    ensures Apply(s, Resume(p, o)) == Goto(s, p, ExecDone(h))
  {
    Executes(s, p, o);
    hide Apply;
  }

  /** After the last run the job of the task is stopped and the task is inactive. Its pending runs are not touched. */
  lemma {:induction false} LastUndisturbed(s: State, p: Pid, h: RunHandle, limit: Option<int>, o: seq<Oracle>)
    requires IsAt(s, p, ExecDeleteEnv(h, limit)) && h.taskId in s.db.tasks && |o| == 3 && AllOk(o)
    requires limit.Some? && (h.rank.Unbounded? || limit.value <= h.rank.n)
    ensures var s', t := Resumed(s, p, o), h.taskId;
            && s'.db == s.db.(tasks := s.db.tasks[t := s.db.tasks[t].(active := false)])
            && s'.schedule == (if t in s.schedule then s.schedule[t := false] else s.schedule)
            && s' == Goto(s.(db := s'.db, schedule := s'.schedule), p, ExecDone(h))
  {
    var s1 := Goto(s, p, ExecSystemStop(h));
    Executes(s, p, o[0]);
    hide Apply;
    assert Apply(s, Resume(p, o[0])) == s1;
    FromExecSystemStop(s1, p, h, o[1..]);
    hide ExecStep;
  }

  /** Whatever fails in a run, the catch clause goes on to stop its task; the database is as before. */
  lemma {:induction false} FailureGoesToStop(s: State, p: Pid, o: Oracle)
    requires p in s.procs && IsExec(s.procs[p]) && !s.procs[p].ExecDone? && !o.ok
    ensures var s', h := Apply(s, Resume(p, o)), s.procs[p].h;
            s'.db == s.db && s'.procs == s.procs[p := StopRead(h.taskId, ByExecutor(h))]
  {
    Executes(s, p, o);
    hide Apply;
  }

  /** The slot of an executor that is done goes to the run at the head of the queue, if one waits. */
  lemma {:induction false} DoneUndisturbed(s: State, p: Pid, h: RunHandle, o: Oracle)
    requires Inv(s) && IsAt(s, p, ExecDone(h))
    ensures Apply(s, Resume(p, o)) ==
            if s.queue == [] then s.(procs := s.procs - {p}, running := s.running - 1)
            else s.(procs := (s.procs - {p})[s.nextPid := ExecRead(s.queue[0])], queue := s.queue[1..],
                    nextPid := s.nextPid + 1)
  {
    SlotIsFreed(s, p);
    PassesSlotOn(s, p, h, o);
    hide Inv, Apply;
  }

  lemma PassesSlotOn(s: State, p: Pid, h: RunHandle, o: Oracle)
    requires IsAt(s, p, ExecDone(h))
    ensures Apply(s, Resume(p, o)) == ExecuteNext(Exit(s, p).(running := s.running - 1))
  {
    Executes(s, p, o);
    hide ExecuteNext, Apply;
  }

  lemma SlotIsFreed(s: State, p: Pid)
    requires Inv(s) && p in s.procs && s.procs[p].ExecDone?
    ensures s.running - 1 < s.maxConcurrency && (s.queue != [] ==> s.running == s.maxConcurrency)
  {
    ControlFacts(s);
    ExecutorsAreViews(s.procs);
    assert p in Executors(ViewsOf(s.procs));
  }
}
