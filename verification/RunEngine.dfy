/**
 * The task-run engine as a step system. Code between two awaits is one step, every database statement
 * is one step, and any number of cron callbacks, requests and queued executors interleave freely; the
 * server may crash at any moment and is then started again over the same database.
 */
module RunEngine {
  import opened Prelude
  import opened RunTable
  import Mutex = ResourceMutex
  import Queue = TaskQueue

  type Pid = nat

  /** The columns of a task that steps read. `body` stands for the part of the config that `updateTask` replaces. */
  datatype Task = Task(times: Option<int>, active: bool, body: nat)

  /** Who called `stopTask`: a request, or an executor whose run failed. */
  datatype Caller = ByRequest | ByExecutor(h: RunHandle)

  /** What follows `register`. */
  datatype Then = Nothing | Activate | Write(limit: Option<int>, body: nat)

  /** Where an activity is suspended. The name says which step is the next one. */
  datatype Proc =
    // the cron callback, up to handing its executor to the queue
    | CallbackRead(t: TaskId)
    | CallbackLock(t: TaskId, limit: Option<int>, retry: nat)
    | CallbackCount(t: TaskId, bound: int)
    | CallbackInsert(t: TaskId, limit: Option<int>, rank: Rank)
    | CallbackLeave(t: TaskId, outcome: Registration)
    | CallbackEnqueue(h: RunHandle)
    | CallbackUnschedule(t: TaskId)
    // runTask, in a slot of the queue
    | ExecRead(h: RunHandle)
    | ExecLaunchEnv(h: RunHandle, limit: Option<int>)
    | ExecStart(h: RunHandle, limit: Option<int>, handleId: string)
    | ExecWait(h: RunHandle, limit: Option<int>)
    | ExecFinish(h: RunHandle, limit: Option<int>, success: bool)
    | ExecDeleteEnv(h: RunHandle, limit: Option<int>)
    | ExecSystemStop(h: RunHandle)
    | ExecDeactivate(h: RunHandle)
    | ExecDone(h: RunHandle)
    // stopTask
    | StopRead(t: TaskId, caller: Caller)
    | StopDeactivate(t: TaskId, caller: Caller)
    | StopExecutable(t: TaskId, caller: Caller)
    | StopRuns(t: TaskId, caller: Caller)
    // startTask
    | StartRead(t: TaskId)
    | StartActivate(t: TaskId)
    // createTask
    | CreateInsert(limit: Option<int>, body: nat)
    // deleteTask
    | DeleteRead(t: TaskId)
    | DeleteExecutable(t: TaskId)
    | DeleteRow(t: TaskId)
    // updateTask
    | UpdateRead(t: TaskId, body: nat)
    | UpdateDrop(t: TaskId, limit: Option<int>, body: nat)
    | UpdateWrite(t: TaskId, limit: Option<int>, body: nat)
    // register
    | RegisterExists(t: TaskId, andThen: Then)
    | RegisterSchedule(t: TaskId, andThen: Then)
    // the dispatched environment build that ends by starting the cron job
    | BuildEnv(t: TaskId)

  /** `registerFromDatabase` runs to its end before the server listens to requests. */
  datatype Server =
    | Down
    | Finding
    | ReadRuns(t: TaskId, rest: seq<TaskId>)
    | Requeue(t: TaskId, pending: seq<RunHandle>, rest: seq<TaskId>)
    | BootExists(t: TaskId, rest: seq<TaskId>)
    | BootSchedule(t: TaskId, rest: seq<TaskId>)
    | Serving

  /**
   * Auxiliary record of the past, which no step reads: the owner of every run row ever inserted, the
   * runs for which the `running` update has been executed, and the limit of every task ever created.
   */
  datatype History = History(created: map<RunId, TaskId>, launched: set<RunId>, limits: map<TaskId, Option<int>>)

  datatype Db = Db(tasks: map<TaskId, Task>, runs: Runs, nextTask: TaskId, nextRun: RunId, history: History)

  /** The database, the memory of the server process, and a supply of fresh activity ids. */
  datatype State = State(
    db: Db,
    server: Server, schedule: map<TaskId, bool>, jobs: set<TaskId>, locks: set<string>,
    queue: seq<RunHandle>, running: int, procs: map<Pid, Proc>,
    nextPid: Pid, maxConcurrency: int)

  function Initial(maxConcurrency: int): State {
    State(Db(map[], map[], 0, 0, History(map[], {}, map[])), Down, map[], {}, {}, [], 0, map[], 0, maxConcurrency)
  }

  /** What the outside world decides in a step: failures, clocks, containers, and the order of query results. */
  datatype Oracle = Oracle(ok: bool, now: Time, handleId: string, exitCode: int,
                           tasksFound: seq<TaskId>, pendingFound: seq<RunHandle>)

  datatype Request =
    | CreateTask(limit: Option<int>, body: nat)
    | StopTask(t: TaskId)
    | StartTask(t: TaskId)
    | DeleteTask(t: TaskId)
    | UpdateTask(t: TaskId, body: nat)

  datatype Action =
    | Boot
    | BootStep(o: Oracle)
    | Crash
    | Tick(t: TaskId)
    | Receive(request: Request)
    | Resume(pid: Pid, o: Oracle)

  function Label(t: TaskId): string {
    Decimal(t)
  }

  // Building blocks

  function Goto(s: State, pid: Pid, p: Proc): State {
    s.(procs := s.procs[pid := p])
  }

  function Exit(s: State, pid: Pid): State {
    s.(procs := s.procs - {pid})
  }

  function Spawn(s: State, p: Proc): State {
    s.(procs := s.procs[s.nextPid := p], nextPid := s.nextPid + 1)
  }

  function ExecuteNext(s: State): State {
    if Queue.CanStart(s.running, s.maxConcurrency, |s.queue|)
    then Spawn(s.(queue := s.queue[1..], running := s.running + 1), ExecRead(s.queue[0]))
    else s
  }

  function Enqueue(s: State, h: RunHandle): State {
    ExecuteNext(s.(queue := s.queue + [h]))
  }

  // Statements. An update or a deletion of a missing row changes nothing.

  function SetActive(db: Db, t: TaskId, value: bool): Db {
    if t in db.tasks then db.(tasks := db.tasks[t := db.tasks[t].(active := value)]) else db
  }

  function WriteConfig(db: Db, t: TaskId, limit: Option<int>, body: nat): Db {
    if t in db.tasks then db.(tasks := db.tasks[t := db.tasks[t].(times := limit, body := body)]) else db
  }

  function InsertTask(db: Db, limit: Option<int>, body: nat): Db {
    db.(tasks := db.tasks[db.nextTask := Task(limit, true, body)], nextTask := db.nextTask + 1,
        history := db.history.(limits := db.history.limits[db.nextTask := limit]))
  }

  function RemoveTask(db: Db, t: TaskId): Db {
    db.(tasks := db.tasks - {t}, runs := DropTask(db.runs, t))
  }

  function InsertRun(db: Db, t: TaskId, rank: Rank, now: Time): Db {
    db.(runs := db.runs[db.nextRun := NewRun(t, rank, now)], nextRun := db.nextRun + 1,
        history := db.history.(created := db.history.created[db.nextRun := t]))
  }

  function LaunchRun(db: Db, h: RunHandle, handleId: string, now: Time): Db {
    db.(runs := MarkRunning(db.runs, h.runId, handleId, now),
        history := db.history.(launched := db.history.launched + {h.runId}))
  }

  function FinishRun(db: Db, h: RunHandle, success: bool, now: Time): Db {
    db.(runs := MarkFinished(db.runs, h.runId, success, now))
  }

  function StopAllRuns(db: Db, t: TaskId, now: Time): Db {
    db.(runs := StopPending(db.runs, t, now))
  }

  predicate IsActive(db: Db, t: TaskId) {
    t in db.tasks && db.tasks[t].active
  }

  function StopEntry(s: State, t: TaskId): State {
    if t in s.schedule then s.(schedule := s.schedule[t := false]) else s
  }

  function ScheduleEntry(s: State, t: TaskId): State {
    Spawn(s.(schedule := s.schedule[t := false], jobs := s.jobs + {t}), BuildEnv(t))
  }

  predicate IsCallback(p: Proc) {
    p.CallbackRead? || p.CallbackLock? || p.CallbackCount? || p.CallbackInsert? || p.CallbackLeave? ||
    p.CallbackEnqueue? || p.CallbackUnschedule?
  }

  predicate IsExec(p: Proc) {
    p.ExecRead? || p.ExecLaunchEnv? || p.ExecStart? || p.ExecWait? || p.ExecFinish? || p.ExecDeleteEnv? ||
    p.ExecSystemStop? || p.ExecDeactivate? || p.ExecDone?
  }

  predicate IsStop(p: Proc) {
    p.StopRead? || p.StopDeactivate? || p.StopExecutable? || p.StopRuns?
  }

  /** Activities that only a request starts: none of them exists before the server listens. */
  predicate IsRequestOnly(p: Proc) {
    p.StartRead? || p.StartActivate? || p.CreateInsert? || p.DeleteRead? || p.DeleteExecutable? || p.DeleteRow? ||
    p.UpdateRead? || p.UpdateDrop? || p.UpdateWrite? || p.RegisterExists? || p.RegisterSchedule?
  }

  // The pieces of the activities

  function EndOfStop(s: State, pid: Pid, caller: Caller): State {
    match caller
    case ByRequest => Exit(s, pid)
    case ByExecutor(h) => Goto(s, pid, ExecDone(h))
  }

  /** The catch clause of `runTask`. */
  function Fail(s: State, pid: Pid, h: RunHandle): State {
    Goto(s, pid, StopRead(h.taskId, ByExecutor(h)))
  }

  function Continue(s: State, pid: Pid, t: TaskId, andThen: Then): State {
    match andThen
    case Nothing => Exit(s, pid)
    case Activate => Goto(s, pid, StartActivate(t))
    case Write(limit, body) => Goto(s, pid, UpdateWrite(t, limit, body))
  }

  function RunsLeft(h: RunHandle, limit: Option<int>): bool {
    limit.None? || (h.rank.Ranked? && h.rank.n < limit.value)
  }

  function CallbackStep(s: State, pid: Pid, p: Proc, o: Oracle): State
    requires IsCallback(p)
  {
    match p
    case CallbackRead(t) =>
      if o.ok && IsActive(s.db, t) then Goto(s, pid, CallbackLock(t, s.db.tasks[t].times, 0)) else Exit(s, pid)
    case CallbackLock(t, limit, retry) =>
      (match Mutex.Test(s.locks, Label(t), retry, Mutex.RETRY_NUMBER)
       case GaveUp => Exit(s, pid)
       case Busy => Goto(s, pid, CallbackLock(t, limit, retry + 1))
       case Entered =>
         Goto(s.(locks := s.locks + {Label(t)}), pid,
              if limit.None? then CallbackInsert(t, None, Unbounded) else CallbackCount(t, limit.value)))
    case CallbackCount(t, bound) =>
      if !o.ok then Goto(s, pid, CallbackLeave(t, Errored))
      else if Count(s.db.runs, t) < bound
      then Goto(s, pid, CallbackInsert(t, Some(bound), Ranked(Count(s.db.runs, t) + 1)))
      else Goto(s, pid, CallbackLeave(t, Rejected))
    case CallbackInsert(t, limit, rank) =>
      if o.ok && t in s.db.tasks
      then Goto(s.(db := InsertRun(s.db, t, rank, o.now)), pid,
                CallbackLeave(t, Registered(RunHandle(t, s.db.nextRun, rank))))
      else Goto(s, pid, CallbackLeave(t, Errored))
    case CallbackLeave(t, outcome) =>
      var s1 := s.(locks := s.locks - {Label(t)});
      (match outcome
       case Registered(h) => Goto(s1, pid, CallbackEnqueue(h))
       case Rejected => Goto(s1, pid, CallbackUnschedule(t))
       case Errored => Exit(s1, pid))
    case CallbackEnqueue(h) => Enqueue(Exit(s, pid), h)
    case CallbackUnschedule(t) => Exit(StopEntry(s, t), pid)
  }

  function ExecStep(s: State, pid: Pid, p: Proc, o: Oracle): State
    requires IsExec(p)
  {
    match p
    case ExecRead(h) =>
      if !o.ok then Fail(s, pid, h)
      else if IsActive(s.db, h.taskId) then Goto(s, pid, ExecLaunchEnv(h, s.db.tasks[h.taskId].times))
      else Goto(s, pid, ExecDone(h))
    case ExecLaunchEnv(h, limit) =>
      if o.ok then Goto(s, pid, ExecStart(h, limit, o.handleId)) else Fail(s, pid, h)
    case ExecStart(h, limit, handleId) =>
      if o.ok then Goto(s.(db := LaunchRun(s.db, h, handleId, o.now)), pid, ExecWait(h, limit)) else Fail(s, pid, h)
    case ExecWait(h, limit) =>
      if o.ok then Goto(s, pid, ExecFinish(h, limit, o.exitCode == 0)) else Fail(s, pid, h)
    case ExecFinish(h, limit, success) =>
      if o.ok
      then Goto(s.(db := FinishRun(s.db, h, success, o.now)), pid, ExecDeleteEnv(h, limit))
      else Fail(s, pid, h)
    case ExecDeleteEnv(h, limit) =>
      if !o.ok then Fail(s, pid, h)
      else if RunsLeft(h, limit) then Goto(s, pid, ExecDone(h))
      else Goto(s, pid, ExecSystemStop(h))
    case ExecSystemStop(h) =>
      var s1 := StopEntry(s, h.taskId);
      if o.ok then Goto(s1, pid, ExecDeactivate(h)) else Fail(s1, pid, h)
    case ExecDeactivate(h) =>
      if o.ok then Goto(s.(db := SetActive(s.db, h.taskId, false)), pid, ExecDone(h)) else Fail(s, pid, h)
    case ExecDone(h) =>
      var s1 := Exit(s, pid);
      ExecuteNext(s1.(running := s1.running - 1))
  }

  function StopStep(s: State, pid: Pid, p: Proc, o: Oracle): State
    requires IsStop(p)
  {
    match p
    case StopRead(t, caller) =>
      if o.ok && IsActive(s.db, t) then Goto(s, pid, StopDeactivate(t, caller)) else EndOfStop(s, pid, caller)
    case StopDeactivate(t, caller) =>
      if o.ok then Goto(s.(db := SetActive(s.db, t, false)), pid, StopExecutable(t, caller))
      else EndOfStop(s, pid, caller)
    case StopExecutable(t, caller) =>
      var s1 := StopEntry(s, t);
      if o.ok then Goto(s1, pid, StopRuns(t, caller)) else EndOfStop(s1, pid, caller)
    case StopRuns(t, caller) =>
      EndOfStop(if o.ok then s.(db := StopAllRuns(s.db, t, o.now)) else s, pid, caller)
  }

  function RequestStep(s: State, pid: Pid, p: Proc, o: Oracle): State
    requires IsRequestOnly(p)
  {
    match p
    case StartRead(t) =>
      if o.ok && t in s.db.tasks && !s.db.tasks[t].active then Goto(s, pid, RegisterExists(t, Activate))
      else Exit(s, pid)
    case StartActivate(t) => Exit(if o.ok then s.(db := SetActive(s.db, t, true)) else s, pid)
    case CreateInsert(limit, body) =>
      if o.ok then Goto(s.(db := InsertTask(s.db, limit, body)), pid, RegisterExists(s.db.nextTask, Nothing))
      else Exit(s, pid)
    case DeleteRead(t) =>
      if o.ok && t in s.db.tasks && !s.db.tasks[t].active then Goto(s, pid, DeleteExecutable(t)) else Exit(s, pid)
    case DeleteExecutable(t) =>
      var s1 := s.(schedule := s.schedule - {t});
      if o.ok then Goto(s1, pid, DeleteRow(t)) else Exit(s1, pid)
    case DeleteRow(t) => Exit(if o.ok then s.(db := RemoveTask(s.db, t)) else s, pid)
    case UpdateRead(t, body) =>
      if o.ok && t in s.db.tasks then Goto(s, pid, UpdateDrop(t, s.db.tasks[t].times, body)) else Exit(s, pid)
    case UpdateDrop(t, limit, body) =>
      var s1 := s.(schedule := s.schedule - {t});
      if o.ok then Goto(s1, pid, RegisterExists(t, Write(limit, body))) else Exit(s1, pid)
    case UpdateWrite(t, limit, body) => Exit(if o.ok then s.(db := WriteConfig(s.db, t, limit, body)) else s, pid)
    case RegisterExists(t, andThen) =>
      if t in s.schedule then Continue(s, pid, t, andThen) else Goto(s, pid, RegisterSchedule(t, andThen))
    case RegisterSchedule(t, andThen) => Continue(ScheduleEntry(s, t), pid, t, andThen)
  }

  function ResumeStep(s: State, pid: Pid, o: Oracle): State
    requires pid in s.procs
  {
    var p := s.procs[pid];
    if IsRequestOnly(p) then RequestStep(s, pid, p, o)
    else if IsStop(p) then StopStep(s, pid, p, o)
    else if p.BuildEnv? then
      Exit(if o.ok && p.t in s.schedule then s.(schedule := s.schedule[p.t := true]) else s, pid)
    else if IsCallback(p) then CallbackStep(s, pid, p, o)
    else ExecStep(s, pid, p, o)
  }

  /** `list` is an answer of the query "active tasks, ordered by id". */
  ghost predicate IsActiveList(db: Db, list: seq<TaskId>) {
    && (forall i :: 0 <= i < |list| ==> IsActive(db, list[i]))
    && (forall i, j :: 0 <= i < j < |list| ==> list[i] < list[j])
    && (forall t :: IsActive(db, t) ==> t in list)
  }

  function NextTask(s: State, rest: seq<TaskId>): State {
    s.(server := if rest == [] then Serving else ReadRuns(rest[0], rest[1..]))
  }

  ghost function BootStepState(s: State, o: Oracle): State {
    match s.server
    case Down => s
    case Serving => s
    case Finding => if IsActiveList(s.db, o.tasksFound) then NextTask(s, o.tasksFound) else s
    case ReadRuns(t, rest) =>
      if IsPendingList(s.db.runs, t, o.pendingFound) then s.(server := Requeue(t, o.pendingFound, rest)) else s
    case Requeue(t, pending, rest) =>
      if pending == [] then s.(server := BootExists(t, rest))
      else Enqueue(s.(server := Requeue(t, pending[1..], rest)), pending[0])
    case BootExists(t, rest) => if t in s.schedule then NextTask(s, rest) else s.(server := BootSchedule(t, rest))
    case BootSchedule(t, rest) => NextTask(ScheduleEntry(s, t), rest)
  }

  function CrashState(s: State): State {
    s.(server := Down, schedule := map[], jobs := {}, locks := {}, queue := [], running := 0, procs := map[])
  }

  function Entry(r: Request): Proc {
    match r
    case CreateTask(limit, body) => CreateInsert(limit, body)
    case StopTask(t) => StopRead(t, ByRequest)
    case StartTask(t) => StartRead(t)
    case DeleteTask(t) => DeleteRead(t)
    case UpdateTask(t, body) => UpdateRead(t, body)
  }

  /**
   * One step. An action that is not possible in `s` changes nothing, so every sequence of actions is a run.
   * A tick may come from any cron job this process has created, stopped or replaced ones included:
   * that covers every timing of the cron library.
   */
  ghost function Apply(s: State, a: Action): State {
    match a
    case Boot => if s.server.Down? then s.(server := Finding) else s
    case BootStep(o) => BootStepState(s, o)
    case Crash => CrashState(s)
    case Tick(t) => if t in s.jobs then Spawn(s, CallbackRead(t)) else s
    case Receive(r) => if s.server.Serving? then Spawn(s, Entry(r)) else s
    case Resume(pid, o) => if pid in s.procs then ResumeStep(s, pid, o) else s
  }

  /** The state after a sequence of actions on an empty database and a server that is down. */
  ghost function Reached(maxConcurrency: int, actions: seq<Action>): State {
    if actions == [] then Initial(maxConcurrency)
    else Apply(Reached(maxConcurrency, actions[..|actions| - 1]), actions[|actions| - 1])
  }
}
