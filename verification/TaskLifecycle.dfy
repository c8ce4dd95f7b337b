/**
 * The life of tasks: requests, the schedule table, environment builds and containers, with each request
 * taken as one step that does not fail. What the steps of these requests do when they interleave is the
 * subject of RunEngine.
 */
module TaskLifecycle {
  import opened Prelude
  import opened RunTable
  import opened TaskNames

  /** local stands for the part of the configuration that an update replaces. */
  datatype Config = Config(name: string, times: Option<int>, envInfo: nat, local: nat)

  datatype Task = Task(groupId: nat, name: string, active: bool, config: Config)

  datatype Container = Container(image: string, running: bool)

  /**
   * schedule: whether the cron job of an entry is started. builds: the tasks whose environments are being
   * built, each build ending with `scheduler.start`. containers: by handle id.
   */
  datatype State = State(tasks: map<TaskId, Task>, nextTask: TaskId, runs: Runs, schedule: map<TaskId, bool>,
                         builds: multiset<TaskId>, containers: map<string, Container>, images: set<string>)

  /**
   * stuck: the running containers whose stopping or deletion fails, which `allSettled` ignores, or that are not
   * listed although they run, as when a later build has taken over the name of their image.
   */
  datatype Event =
    | Create(groupId: nat, config: Config)
    | Delete(t: TaskId, stuck: set<string>)
    | Stop(t: TaskId, stuck: set<string>, now: Time)
    | Start(t: TaskId)
    | Update(t: TaskId, local: nat, stuck: set<string>)
    | Built(t: TaskId)
    | BuildFailed(t: TaskId)
    | Launched(t: TaskId, handleId: string)
    | Exited(handleId: string)
    | Removed(handleId: string)
    | RunAdded(t: TaskId, r: RunId, run: Run)
    | Unscheduled(t: TaskId)
    | NoRunsLeft(t: TaskId, stuck: set<string>)
    | Restart

  datatype Response = Created(t: TaskId) | Done | NotFound | BadRequest | Conflict

  // The steps

  datatype Call = StopThem | DeleteThem

  /** The call concerns this container: only running containers are listed. */
  predicate IsCalled(containers: map<string, Container>, h: string, image: string, stuck: set<string>) {
    h in containers && containers[h].image == image && containers[h].running && h !in stuck
  }

  function Called(call: Call, containers: map<string, Container>, image: string, stuck: set<string>)
    : map<string, Container>
  {
    match call
    case StopThem =>
      map h | h in containers ::
        if IsCalled(containers, h, image, stuck) then Container(image, false) else containers[h]
    case DeleteThem =>
      map h | h in containers && !IsCalled(containers, h, image, stuck) :: containers[h]
  }

  function StoppedEntry(schedule: map<TaskId, bool>, t: TaskId): map<TaskId, bool> {
    if t in schedule then schedule[t := false] else schedule
  }

  function StartedEntry(schedule: map<TaskId, bool>, t: TaskId): map<TaskId, bool> {
    if t in schedule then schedule[t := true] else schedule
  }

  function Registered(s: State, t: TaskId): State {
    if t in s.schedule then s
    else s.(schedule := s.schedule[t := false], builds := s.builds + multiset{t})
  }

  function ExecutableDeleted(s: State, t: TaskId, stuck: set<string>): State {
    var id := BuildTaskIdentifier(t);
    s.(schedule := s.schedule - {t}, containers := Called(DeleteThem, s.containers, id, stuck),
       images := s.images - {id})
  }

  function ExecutableStopped(s: State, t: TaskId, stuck: set<string>): State {
    s.(schedule := StoppedEntry(s.schedule, t),
       containers := Called(StopThem, s.containers, BuildTaskIdentifier(t), stuck))
  }

  function WithActive(s: State, t: TaskId, active: bool): State {
    if t in s.tasks then s.(tasks := s.tasks[t := s.tasks[t].(active := active)]) else s
  }

  predicate IsActive(s: State, t: TaskId) {
    t in s.tasks && s.tasks[t].active
  }

  ghost predicate NameTaken(s: State, name: string) {
    exists t :: t in s.tasks && s.tasks[t].name == name
  }

  /** After a restart, exactly the active tasks are registered again. */
  ghost function Restarted(s: State): State {
    var active := set t | t in s.tasks && s.tasks[t].active;
    s.(schedule := Idling(active), builds := multiset(active))
  }

  /** New entries for the tasks, whose cron jobs are not started yet. */
  function Idling(tasks: set<TaskId>): map<TaskId, bool> {
    map t | t in tasks :: false
  }

  lemma OneMoreIdling(tasks: set<TaskId>, t: TaskId)
    requires t !in tasks
    ensures t !in Idling(tasks) && Idling(tasks + {t}) == Idling(tasks)[t := false]
    ensures multiset(tasks + {t}) == multiset(tasks) + multiset{t}
  {
  }

  predicate IsRequest(e: Event) {
    e.Create? || e.Delete? || e.Stop? || e.Start? || e.Update?
  }

  ghost function Step(s: State, e: Event): (State, Response) {
    if IsRequest(e) then RequestStep(s, e) else (BackgroundStep(s, e), Done)
  }

  ghost function RequestStep(s: State, e: Event): (State, Response)
    requires IsRequest(e)
  {
    match e
    case Create(groupId, config) =>
      var name := BuildTaskUniqueName(groupId, config.name);
      if NameTaken(s, name) then (s, Conflict)
      else
        var s1 := s.(tasks := s.tasks[s.nextTask := Task(groupId, name, true, config)], nextTask := s.nextTask + 1);
        (Registered(s1, s.nextTask), Created(s.nextTask))
    case Delete(t, stuck) =>
      if t !in s.tasks then (s, NotFound)
      else if s.tasks[t].active then (s, BadRequest)
      else
        var s1 := ExecutableDeleted(s, t, stuck);
        (s1.(tasks := s1.tasks - {t}, runs := DropTask(s1.runs, t)), Done)
    case Stop(t, stuck, now) =>
      if t !in s.tasks then (s, NotFound)
      else if !s.tasks[t].active then (s, BadRequest)
      else
        var s1 := ExecutableStopped(WithActive(s, t, false), t, stuck);
        (s1.(runs := StopPending(s1.runs, t, now)), Done)
    case Start(t) =>
      if t !in s.tasks then (s, NotFound)
      else if s.tasks[t].active then (s, BadRequest)
      else (WithActive(Registered(s, t), t, true), Done)
    case Update(t, local, stuck) =>
      if t !in s.tasks then (s, NotFound)
      else
        var s1 := Registered(ExecutableDeleted(s, t, stuck), t);
        (s1.(tasks := s1.tasks[t := s1.tasks[t].(config := s1.tasks[t].config.(local := local))]), Done)
  }

  /** What the cron callbacks, the executors, the builds and the operator do. */
  ghost function BackgroundStep(s: State, e: Event): State
    requires !IsRequest(e)
  {
    match e
    case Built(t) =>
      if t !in s.builds then s
      else
        s.(builds := s.builds - multiset{t}, images := s.images + {BuildTaskIdentifier(t)},
           schedule := StartedEntry(s.schedule, t))
    case BuildFailed(t) => if t !in s.builds then s else s.(builds := s.builds - multiset{t})
    case Launched(t, handleId) =>
      if !IsActive(s, t) || handleId in s.containers || BuildTaskIdentifier(t) !in s.images then s
      else s.(containers := s.containers[handleId := Container(BuildTaskIdentifier(t), true)])
    case Exited(handleId) =>
      if handleId !in s.containers then s
      else s.(containers := s.containers[handleId := s.containers[handleId].(running := false)])
    case Removed(handleId) =>
      if handleId !in s.containers || s.containers[handleId].running then s
      else s.(containers := s.containers - {handleId})
    case RunAdded(t, r, run) =>
      if !IsActive(s, t) || r in s.runs || run.taskId != t then s else s.(runs := s.runs[r := run])
    case Unscheduled(t) => s.(schedule := StoppedEntry(s.schedule, t))
    case NoRunsLeft(t, stuck) =>
      var s1 := ExecutableStopped(s, t, stuck);
      WithActive(s1.(images := s1.images - {BuildTaskIdentifier(t)}), t, false)
    case Restart => Restarted(s)
  }

  const EMPTY: State := State(map[], 0, map[], map[], multiset{}, map[], {})

  ghost function After(s: State, events: seq<Event>): State {
    if events == [] then s else Step(After(s, events[..|events| - 1]), events[|events| - 1]).0
  }

  // What every run keeps

  ghost predicate ScheduleOk(s: State) {
    && (forall t :: t in s.tasks && s.tasks[t].active ==> t in s.schedule)
    && forall t :: t in s.schedule ==> t in s.tasks
  }

  ghost predicate RunsOk(s: State) {
    forall r :: r in s.runs ==> s.runs[r].taskId in s.tasks
  }

  /** A task is known by its group and its name, and ids are not used twice. */
  ghost predicate NamesOk(s: State) {
    && (forall t :: t in s.tasks ==>
          t < s.nextTask && s.tasks[t].name == BuildTaskUniqueName(s.tasks[t].groupId, s.tasks[t].config.name))
    && forall t, u :: t in s.tasks && u in s.tasks && t != u ==> s.tasks[t].name != s.tasks[u].name
  }

  ghost predicate Inv(s: State) {
    ScheduleOk(s) && RunsOk(s) && NamesOk(s)
  }

  lemma RequestKeepsSchedule(s: State, e: Event)
    requires ScheduleOk(s) && IsRequest(e)
    ensures ScheduleOk(RequestStep(s, e).0)
  {
    hide NameTaken, Called, BuildTaskIdentifier, BuildTaskUniqueName, StopPending, DropTask;
  }

  lemma BackgroundKeepsSchedule(s: State, e: Event)
    requires ScheduleOk(s) && !IsRequest(e)
    ensures ScheduleOk(BackgroundStep(s, e))
  {
    hide Called, BuildTaskIdentifier;
  }

  lemma StepKeepsSchedule(s: State, e: Event)
    requires ScheduleOk(s)
    ensures ScheduleOk(Step(s, e).0)
  {
    hide ScheduleOk, RequestStep, BackgroundStep;
    if IsRequest(e) {
      RequestKeepsSchedule(s, e);
    } else {
      BackgroundKeepsSchedule(s, e);
    }
  }

  lemma StepKeepsRuns(s: State, e: Event)
    requires RunsOk(s)
    ensures RunsOk(Step(s, e).0)
  {
    hide Called, BuildTaskIdentifier, BuildTaskUniqueName, StartedEntry, StoppedEntry;
  }

  lemma NewName(s: State, groupId: nat, config: Config)
    requires NamesOk(s)
    ensures NamesOk(Step(s, Create(groupId, config)).0)
  {
    hide BuildTaskUniqueName;
  }

  /** No other event gives a task another name, group or configured name. */
  lemma StepKeepsNames(s: State, e: Event)
    requires NamesOk(s)
    ensures NamesOk(Step(s, e).0)
  {
    hide NamesOk, RequestStep, BackgroundStep;
    if e.Create? {
      NewName(s, e.groupId, e.config);
    } else if IsRequest(e) {
      RequestKeepsNames(s, e);
    } else {
      BackgroundKeepsNames(s, e);
    }
  }

  lemma RequestKeepsNames(s: State, e: Event)
    requires NamesOk(s) && IsRequest(e) && !e.Create?
    ensures NamesOk(RequestStep(s, e).0)
  {
    hide Called, BuildTaskIdentifier, BuildTaskUniqueName, StartedEntry, StoppedEntry, StopPending, DropTask;
  }

  lemma BackgroundKeepsNames(s: State, e: Event)
    requires NamesOk(s) && !IsRequest(e)
    ensures NamesOk(BackgroundStep(s, e))
  {
    hide Called, BuildTaskIdentifier, BuildTaskUniqueName, StartedEntry, StoppedEntry;
  }

  lemma StepKeepsInv(s: State, e: Event)
    requires Inv(s)
    ensures Inv(Step(s, e).0)
  {
    hide ScheduleOk, RunsOk, NamesOk, Step;
    StepKeepsSchedule(s, e);
    StepKeepsRuns(s, e);
    StepKeepsNames(s, e);
  }

  /** Every active task has a schedule entry, and every entry belongs to an existing task. */
  lemma {:induction false} InvAlways(events: seq<Event>)
    ensures Inv(After(EMPTY, events))
  {
    if events != [] {
      var n := |events| - 1;
      InvAlways(events[..n]);
      StepKeepsInv(After(EMPTY, events[..n]), events[n]);
    }
  }

  /** A creation is refused if and only if the group already has a task of that name. */
  lemma {:induction false} ConflictIff(events: seq<Event>, groupId: nat, config: Config)
    ensures var s := After(EMPTY, events);
            Step(s, Create(groupId, config)).1 == Conflict <==>
            exists t :: t in s.tasks && s.tasks[t].groupId == groupId && s.tasks[t].config.name == config.name
  {
    InvAlways(events);
    var s := After(EMPTY, events);
    if t :| t in s.tasks && s.tasks[t].name == BuildTaskUniqueName(groupId, config.name) {
      UniqueNameInjective(s.tasks[t].groupId, s.tasks[t].config.name, groupId, config.name);
    }
  }

  // Isolation

  /** What belongs to one task. */
  datatype Part = Part(task: Option<Task>, runs: Runs, entry: Option<bool>, builds: nat,
                       containers: map<string, Container>, hasImage: bool)

  ghost function PartOf(s: State, u: TaskId): Part {
    Part(if u in s.tasks then Some(s.tasks[u]) else None,
         RunsOf(s.runs, u),
         if u in s.schedule then Some(s.schedule[u]) else None,
         s.builds[u],
         ContainersOf(s.containers, u),
         BuildTaskIdentifier(u) in s.images)
  }

  /** Whether the event is about task u. */
  ghost predicate Concerns(s: State, e: Event, u: TaskId) {
    match e
    case Create(_, _) => u == s.nextTask
    case Exited(handleId) =>
      handleId in s.containers && s.containers[handleId].image == BuildTaskIdentifier(u)
    case Removed(handleId) =>
      handleId in s.containers && s.containers[handleId].image == BuildTaskIdentifier(u)
    case Restart => true
    case _ => e.t == u
  }

  function ContainersOf(containers: map<string, Container>, u: TaskId): map<string, Container> {
    map h | h in containers && containers[h].image == BuildTaskIdentifier(u) :: containers[h]
  }

  function RunsOf(runs: Runs, u: TaskId): Runs {
    map r | r in runs && runs[r].taskId == u :: runs[r]
  }

  lemma OtherContainers(call: Call, containers: map<string, Container>, t: TaskId, stuck: set<string>, u: TaskId)
    requires t != u
    ensures ContainersOf(Called(call, containers, BuildTaskIdentifier(t), stuck), u) == ContainersOf(containers, u)
    ensures BuildTaskIdentifier(t) != BuildTaskIdentifier(u)
  {
    if BuildTaskIdentifier(t) == BuildTaskIdentifier(u) {
      IdentifierInjective(t, u);
    }
  }

  lemma OtherRuns(runs: Runs, t: TaskId, now: Time, u: TaskId)
    requires t != u
    ensures RunsOf(DropTask(runs, t), u) == RunsOf(runs, u) && RunsOf(StopPending(runs, t, now), u) == RunsOf(runs, u)
  {
  }

  lemma OtherContainer(containers: map<string, Container>, h: string, c: Container, u: TaskId)
    requires c.image != BuildTaskIdentifier(u)
    requires h in containers ==> containers[h].image != BuildTaskIdentifier(u)
    ensures ContainersOf(containers[h := c], u) == ContainersOf(containers, u)
  {
  }

  lemma OtherContainerGone(containers: map<string, Container>, h: string, u: TaskId)
    requires h in containers ==> containers[h].image != BuildTaskIdentifier(u)
    ensures ContainersOf(containers - {h}, u) == ContainersOf(containers, u)
  {
  }

  lemma OtherRun(runs: Runs, r: RunId, run: Run, u: TaskId)
    requires r !in runs && run.taskId != u
    ensures RunsOf(runs[r := run], u) == RunsOf(runs, u)
  {
  }

  lemma CreateAndStartIsolated(s: State, e: Event, u: TaskId)
    requires !Concerns(s, e, u) && (e.Create? || e.Start?)
    ensures PartOf(Step(s, e).0, u) == PartOf(s, u)
  {
    hide BackgroundStep, NameTaken, ContainersOf, RunsOf, BuildTaskIdentifier, BuildTaskUniqueName;
  }

  lemma StopIsolated(s: State, e: Event, u: TaskId)
    requires !Concerns(s, e, u) && e.Stop?
    ensures PartOf(Step(s, e).0, u) == PartOf(s, u)
  {
    hide BackgroundStep, Called, ContainersOf, RunsOf, BuildTaskIdentifier, StopPending;
    OtherContainers(StopThem, s.containers, e.t, e.stuck, u);
    OtherRuns(s.runs, e.t, e.now, u);
  }

  lemma DeletionIsolated(s: State, e: Event, u: TaskId)
    requires !Concerns(s, e, u) && (e.Delete? || e.Update?)
    ensures PartOf(Step(s, e).0, u) == PartOf(s, u)
  {
    hide BackgroundStep, Called, ContainersOf, RunsOf, BuildTaskIdentifier, DropTask;
    OtherContainers(DeleteThem, s.containers, e.t, e.stuck, u);
    OtherRuns(s.runs, e.t, 0, u);
  }

  lemma EndIsolated(s: State, e: Event, u: TaskId)
    requires !Concerns(s, e, u) && e.NoRunsLeft?
    ensures PartOf(Step(s, e).0, u) == PartOf(s, u)
  {
    hide RequestStep, Called, ContainersOf, RunsOf, BuildTaskIdentifier;
    OtherContainers(StopThem, s.containers, e.t, e.stuck, u);
  }

  lemma EntryIsolated(s: State, e: Event, u: TaskId)
    requires !Concerns(s, e, u) && (e.Unscheduled? || e.Built? || e.BuildFailed?)
    ensures PartOf(Step(s, e).0, u) == PartOf(s, u)
  {
    hide RequestStep, Called, ContainersOf, RunsOf, BuildTaskIdentifier;
    OtherContainers(StopThem, s.containers, e.t, {}, u);
  }

  lemma RunIsolated(s: State, e: Event, u: TaskId)
    requires !Concerns(s, e, u) && (e.Launched? || e.Exited? || e.Removed? || e.RunAdded?)
    ensures PartOf(Step(s, e).0, u) == PartOf(s, u)
  {
    hide RequestStep, Called, ContainersOf, RunsOf, BuildTaskIdentifier;
    match e
    case Exited(h) =>
      if h in s.containers {
        OtherContainer(s.containers, h, s.containers[h].(running := false), u);
      }
    case Removed(h) =>
      if h in s.containers {
        OtherContainerGone(s.containers, h, u);
      }
    case Launched(t, h) =>
      OtherContainers(StopThem, s.containers, t, {}, u);
      if h !in s.containers {
        OtherContainer(s.containers, h, Container(BuildTaskIdentifier(t), true), u);
      }
    case RunAdded(t, r, run) =>
      if r !in s.runs && run.taskId == t {
        OtherRun(s.runs, r, run, u);
      }
  }

  /** Stopping, deleting, updating or running one task leaves everything of every other task as it is. */
  lemma {:induction false} Isolation(s: State, e: Event, u: TaskId)
    requires !Concerns(s, e, u)
    ensures PartOf(Step(s, e).0, u) == PartOf(s, u)
  {
    hide PartOf, Step;
    if e.Create? || e.Start? {
      CreateAndStartIsolated(s, e, u);
    } else if e.Stop? {
      StopIsolated(s, e, u);
    } else if e.Delete? || e.Update? {
      DeletionIsolated(s, e, u);
    } else if e.NoRunsLeft? {
      EndIsolated(s, e, u);
    } else if e.Unscheduled? || e.Built? || e.BuildFailed? {
      EntryIsolated(s, e, u);
    } else {
      RunIsolated(s, e, u);
    }
  }

  // What each event leaves behind

  /** A creation gives a new active task with an idle entry and one build of its own. */
  lemma {:induction false} CreateIsComplete(s: State, groupId: nat, config: Config)
    requires Inv(s)
    ensures var (r, response) := Step(s, Create(groupId, config)); var t := s.nextTask;
            if NameTaken(s, Decimal(groupId) + "_" + config.name) then r == s && response == Conflict
            else
              && response == Created(t) && t !in s.tasks && t !in s.schedule
              && r == s.(tasks := s.tasks[t := Task(groupId, Decimal(groupId) + "_" + config.name, true, config)],
                         nextTask := t + 1, schedule := s.schedule[t := false], builds := s.builds + multiset{t})
  {
    hide BackgroundStep, NameTaken;
  }

  /** A build that ends starts the cron job of its task, if that still has an entry, and nothing else. */
  lemma {:induction false} BuiltStarts(s: State, t: TaskId)
    requires t in s.builds
    ensures var r := Step(s, Built(t)).0;
            && (t in r.schedule <==> t in s.schedule) && (t in s.schedule ==> r.schedule[t])
            && r.schedule - {t} == s.schedule - {t}
            && r.builds == s.builds - multiset{t}
            && BuildTaskIdentifier(t) in r.images && r.images - {BuildTaskIdentifier(t)} <= s.images <= r.images
            && r == s.(schedule := r.schedule, builds := r.builds, images := r.images)
  {
    hide RequestStep, BuildTaskIdentifier;
  }

  /** A build that fails starts nothing. */
  lemma {:induction false} FailedBuildStartsNothing(s: State, t: TaskId)
    ensures Step(s, BuildFailed(t)).0 == s.(builds := s.builds - multiset{t})
    ensures t !in s.builds ==> Step(s, Built(t)).0 == s && Step(s, BuildFailed(t)).0 == s
  {
    hide RequestStep, BuildTaskIdentifier, StartedEntry;
  }

  /**
   * When the last run of a task ends, the task is inactive, its entry is stopped and its image is gone, none of
   * its containers runs any more, stuck ones apart, and its runs and builds are as before.
   */
  lemma {:induction false} NoRunsLeftIsComplete(s: State, t: TaskId, stuck: set<string>)
    ensures var r := Step(s, NoRunsLeft(t, stuck)).0; var id := BuildTaskIdentifier(t);
            && r.tasks == (if t in s.tasks then s.tasks[t := s.tasks[t].(active := false)] else s.tasks)
            && r.schedule == (if t in s.schedule then s.schedule[t := false] else s.schedule)
            && r.images == s.images - {id}
            && r.containers.Keys == s.containers.Keys
            && (forall h :: h in r.containers ==>
                  r.containers[h] == Container(s.containers[h].image, s.containers[h].running &&
                                               (s.containers[h].image != id || h in stuck)))
            && r == s.(tasks := r.tasks, schedule := r.schedule, images := r.images, containers := r.containers)
  {
    hide RequestStep, BuildTaskIdentifier;
  }

  /** A callback that finds no room for a run stops the entry of its task, and that is all. */
  lemma {:induction false} UnscheduledStops(s: State, t: TaskId)
    ensures var r := Step(s, Unscheduled(t)).0;
            r == s.(schedule := if t in s.schedule then s.schedule[t := false] else s.schedule)
  {
    hide RequestStep;
  }

  /** After a restart exactly the active tasks have entries, all of them idle, and one build each. */
  lemma {:induction false} RestartIsComplete(s: State)
    ensures var r := Step(s, Restart).0;
            && (forall t :: t in r.schedule <==> t in s.tasks && s.tasks[t].active)
            && (forall t :: t in r.schedule ==> !r.schedule[t])
            && (forall t :: r.builds[t] == if t in r.schedule then 1 else 0)
            && r == s.(schedule := r.schedule, builds := r.builds)
  {
    hide RequestStep;
  }

  /** Containers are launched for active tasks that have an image, end by themselves, and are removed when ended. */
  lemma {:induction false} ContainerEvents(s: State, t: TaskId, h: string)
    ensures Step(s, Launched(t, h)).0.containers ==
            if t in s.tasks && s.tasks[t].active && BuildTaskIdentifier(t) in s.images && h !in s.containers
            then s.containers[h := Container(BuildTaskIdentifier(t), true)] else s.containers
    ensures Step(s, Exited(h)).0.containers ==
            if h in s.containers then s.containers[h := Container(s.containers[h].image, false)] else s.containers
    ensures Step(s, Removed(h)).0.containers ==
            if h in s.containers && !s.containers[h].running then s.containers - {h} else s.containers
  {
    hide RequestStep, BuildTaskIdentifier;
  }

  /** A start of a stopped task makes it active, and gives it an idle entry and a build if it has no entry. */
  lemma {:induction false} StartIsComplete(s: State, t: TaskId)
    ensures var (r, response) := Step(s, Start(t));
            && response == (if t !in s.tasks then NotFound else if s.tasks[t].active then BadRequest else Done)
            && (response != Done ==> r == s)
            && (response == Done ==>
                  r == s.(tasks := s.tasks[t := s.tasks[t].(active := true)],
                          schedule := if t in s.schedule then s.schedule else s.schedule[t := false],
                          builds := if t in s.schedule then s.builds else s.builds + multiset{t}))
  {
    hide BackgroundStep;
  }

  /** Runs are added to active tasks alone. */
  lemma {:induction false} RunIsAdded(s: State, t: TaskId, r: RunId, run: Run)
    ensures Step(s, RunAdded(t, r, run)).0.runs ==
            if t in s.tasks && s.tasks[t].active && r !in s.runs && run.taskId == t then s.runs[r := run] else s.runs
  {
    hide RequestStep;
  }

  // From the build to the ticks

  /** The events that stop, replace or take away the entry of t, and the failure of a build of t. */
  ghost predicate Quiets(e: Event, t: TaskId) {
    || e.Restart?
    || ((e.Stop? || e.Delete? || e.Update? || e.Unscheduled? || e.NoRunsLeft? || e.BuildFailed?) && e.t == t)
  }

  /** The entry of t ticks when a build of t has ended, and waits for a build before. */
  ghost predicate Waits(s: State, t: TaskId, built: bool) {
    t < s.nextTask && t in s.tasks && t in s.schedule && s.schedule[t] == built && (built || t in s.builds)
  }

  lemma WaitsAfterRequest(s: State, e: Event, t: TaskId, built: bool)
    requires Waits(s, t, built) && !Quiets(e, t) && IsRequest(e)
    ensures Waits(RequestStep(s, e).0, t, built)
  {
    hide NameTaken, Called, BuildTaskIdentifier, BuildTaskUniqueName, StopPending, DropTask;
  }

  lemma WaitsAfterBackground(s: State, e: Event, t: TaskId, built: bool)
    requires Waits(s, t, built) && !Quiets(e, t) && !IsRequest(e)
    ensures Waits(BackgroundStep(s, e), t, built || e == Built(t))
  {
    hide Called, BuildTaskIdentifier;
  }

  lemma WaitsStep(s: State, e: Event, t: TaskId, built: bool)
    requires Waits(s, t, built) && !Quiets(e, t)
    ensures Waits(Step(s, e).0, t, built || e == Built(t))
  {
    hide Waits, Quiets, RequestStep, BackgroundStep;
    if IsRequest(e) {
      WaitsAfterRequest(s, e, t, built);
    } else {
      WaitsAfterBackground(s, e, t, built);
    }
  }

  lemma LastOrBefore<T>(s: seq<T>, x: T)
    requires s != []
    ensures x in s <==> x in s[..|s| - 1] || x == s[|s| - 1]
  {
    assert s == s[..|s| - 1] + [s[|s| - 1]];
  }

  /** Undisturbed, an entry that waits for a build is started exactly when a build has ended. */
  lemma {:induction false} TicksOnceBuilt(s: State, t: TaskId, events: seq<Event>)
    requires Waits(s, t, false)
    requires forall i :: 0 <= i < |events| ==> !Quiets(events[i], t)
    ensures Waits(After(s, events), t, Built(t) in events)
  {
    if events != [] {
      var n := |events| - 1;
      var before := After(s, events[..n]);
      hide Step, Waits, Quiets;
      TicksOnceBuilt(s, t, events[..n]);
      WaitsStep(before, events[n], t, Built(t) in events[..n]);
      LastOrBefore(events, Built(t));
    }
  }

  /** The cron job of a new task goes exactly once its build has ended, unless something stops it before. */
  lemma {:induction false} NewTaskTicksIff(s: State, groupId: nat, config: Config, events: seq<Event>)
    requires Inv(s) && !NameTaken(s, Decimal(groupId) + "_" + config.name)
    requires forall i :: 0 <= i < |events| ==> !Quiets(events[i], s.nextTask)
    ensures var r := After(Step(s, Create(groupId, config)).0, events);
            s.nextTask in r.schedule && (r.schedule[s.nextTask] <==> Built(s.nextTask) in events)
  {
    CreateIsComplete(s, groupId, config);
    hide Step;
    TicksOnceBuilt(Step(s, Create(groupId, config)).0, s.nextTask, events);
  }

  ghost predicate Reschedules(e: Event, t: TaskId) {
    e.Restart? || (e.Update? && e.t == t)
  }

  /** So does that of a task that has been updated, and that of an active task after a restart. */
  lemma {:induction false} RescheduledTaskTicksIff(s: State, t: TaskId, e: Event, events: seq<Event>)
    requires Inv(s) && t in s.tasks && Reschedules(e, t) && (e.Restart? ==> s.tasks[t].active)
    requires forall i :: 0 <= i < |events| ==> !Quiets(events[i], t)
    ensures var r := After(Step(s, e).0, events);
            t in r.schedule && (r.schedule[t] <==> Built(t) in events)
  {
    hide Called, BuildTaskIdentifier, NameTaken;
    assert Waits(Step(s, e).0, t, false);
    hide Step;
    TicksOnceBuilt(Step(s, e).0, t, events);
  }

  // Stopped and deleted tasks

  /** After a stop nothing of the task is pending, ticking or running, containers that cannot be stopped apart. */
  lemma {:induction false} StopIsComplete(s: State, t: TaskId, stuck: set<string>, now: Time)
    requires Inv(s)
    ensures var (r, response) := Step(s, Stop(t, stuck, now));
            && response == (if t !in s.tasks then NotFound else if !s.tasks[t].active then BadRequest else Done)
            && (response == Done ==>
                  && r.tasks == s.tasks[t := s.tasks[t].(active := false)] && r.schedule == s.schedule[t := false]
                  && r.builds == s.builds && r.images == s.images && r.nextTask == s.nextTask
                  && r.runs.Keys == s.runs.Keys
                  && (forall k :: k in s.runs ==>
                        r.runs[k] ==
                        if s.runs[k].taskId == t && s.runs[k].status == Pending
                        then s.runs[k].(status := Stopped, finishedAt := Some(now)) else s.runs[k])
                  && r.containers.Keys == s.containers.Keys
                  && forall h :: h in r.containers ==>
                       r.containers[h] == Container(s.containers[h].image, s.containers[h].running &&
                                                    (s.containers[h].image != BuildTaskIdentifier(t) || h in stuck)))
            && (response != Done ==> r == s)
  {
    hide BackgroundStep, BuildTaskIdentifier, NamesOk, RunsOk;
  }

  /** The containers of the task that remain are those that have exited, and the stuck ones, and no others. */
  ghost predicate OnlyExitedAndStuck(before: map<string, Container>, after: map<string, Container>, t: TaskId,
                                     stuck: set<string>)
  {
    && (forall h :: h in ContainersOf(after, t) <==>
          h in ContainersOf(before, t) && (!before[h].running || h in stuck))
    && forall h :: h in ContainersOf(after, t) ==> after[h] == before[h]
  }

  lemma DeletedContainers(containers: map<string, Container>, t: TaskId, stuck: set<string>)
    ensures OnlyExitedAndStuck(containers, Called(DeleteThem, containers, BuildTaskIdentifier(t), stuck), t, stuck)
  {
  }

  /** A deletion is for stopped tasks only. It leaves no row, run, entry or image, and no running container. */
  lemma {:induction false} DeleteIsComplete(s: State, t: TaskId, stuck: set<string>)
    requires Inv(s)
    ensures var (r, response) := Step(s, Delete(t, stuck));
            && response == (if t !in s.tasks then NotFound else if s.tasks[t].active then BadRequest else Done)
            && (response == Done ==>
                  PartOf(r, t) == Part(None, map[], None, s.builds[t], ContainersOf(r.containers, t), false)
                  && OnlyExitedAndStuck(s.containers, r.containers, t, stuck))
            && (response != Done ==> r == s)
  {
    DeletedContainers(s.containers, t, stuck);
    hide BackgroundStep, BuildTaskIdentifier, NamesOk, Called, OnlyExitedAndStuck;
  }

  /** An update gives the task a new idle entry and build, and keeps its name, limit, activity and runs. */
  lemma {:induction false} UpdateIsComplete(s: State, t: TaskId, local: nat, stuck: set<string>)
    requires Inv(s)
    ensures var (r, response) := Step(s, Update(t, local, stuck));
            && response == (if t !in s.tasks then NotFound else Done)
            && (response == Done ==>
                  && t in r.tasks && r.tasks[t] == s.tasks[t].(config := s.tasks[t].config.(local := local))
                  && r.schedule == s.schedule[t := false] && r.builds == s.builds + multiset{t} && r.runs == s.runs
                  && BuildTaskIdentifier(t) !in r.images
                  && OnlyExitedAndStuck(s.containers, r.containers, t, stuck))
            && (response != Done ==> r == s)
  {
    DeletedContainers(s.containers, t, stuck);
    hide BackgroundStep, BuildTaskIdentifier, NamesOk, Called, OnlyExitedAndStuck;
  }

  lemma OneMoreEvent(events: seq<Event>, e: Event, s: State) returns (more: seq<Event>)
    requires After(EMPTY, events) == s
    ensures more == events + [e] && After(EMPTY, more) == Step(s, e).0
  {
    more := events + [e];
    assert more[..|events|] == events;
  }

  lemma OneContainerRuns(c: Config) returns (events: seq<Event>)
    ensures var s := After(EMPTY, events);
            && s.tasks == map[0 := Task(0, BuildTaskUniqueName(0, c.name), true, c)] && s.nextTask == 1
            && s.containers == map["h" := Container(BuildTaskIdentifier(0), true)]
  {
    hide After, BuildTaskUniqueName, BuildTaskIdentifier;
    NothingYet();
    events := OneMoreEvent([], Create(0, c), EMPTY);
    events := OneMoreEvent(events, Built(0), After(EMPTY, events));
    events := OneMoreEvent(events, Launched(0, "h"), After(EMPTY, events));
  }

  lemma NothingYet()
    ensures After(EMPTY, []) == EMPTY
  {
  }

  lemma ContainerExits(c: Config, before: seq<Event>) returns (events: seq<Event>)
    requires var s := After(EMPTY, before);
             && s.tasks == map[0 := Task(0, BuildTaskUniqueName(0, c.name), true, c)] && s.nextTask == 1
             && s.containers == map["h" := Container(BuildTaskIdentifier(0), true)]
    ensures events == before + [Restart, Exited("h")]
    ensures var s := After(EMPTY, events);
            && s.tasks == map[0 := Task(0, BuildTaskUniqueName(0, c.name), true, c)] && s.nextTask == 1
            && s.containers == map["h" := Container(BuildTaskIdentifier(0), false)]
  {
    hide After, BuildTaskUniqueName, BuildTaskIdentifier, RequestStep;
    events := OneMoreEvent(before, Restart, After(EMPTY, before));
    events := OneMoreEvent(events, Exited("h"), After(EMPTY, events));
  }

  lemma TaskIsDeleted(c: Config, before: seq<Event>) returns (events: seq<Event>)
    requires var s := After(EMPTY, before);
             && s.tasks == map[0 := Task(0, BuildTaskUniqueName(0, c.name), true, c)] && s.nextTask == 1
             && s.containers == map["h" := Container(BuildTaskIdentifier(0), false)]
    ensures events == before + [Stop(0, {}, 0), Delete(0, {})]
    ensures var s := After(EMPTY, events);
            0 !in s.tasks && s.nextTask == 1 && s.containers == map["h" := Container(BuildTaskIdentifier(0), false)]
  {
    hide After, BuildTaskUniqueName, BuildTaskIdentifier, BackgroundStep;
    events := OneMoreEvent(before, Stop(0, {}, 0), After(EMPTY, before));
    events := OneMoreEvent(events, Delete(0, {}), After(EMPTY, events));
  }

  /**
   * A run in which no call fails: the server restarts while a container runs, the container exits without its
   * executor, and the task is stopped and deleted. The container stays.
   */
  lemma {:induction false} ExitedContainerStays(c: Config) returns (events: seq<Event>)
    ensures |events| >= 4 && events[|events| - 4..] == [Restart, Exited("h"), Stop(0, {}, 0), Delete(0, {})]
    ensures var s := After(EMPTY, events);
            0 !in s.tasks && s.nextTask == 1 && s.containers == map["h" := Container(BuildTaskIdentifier(0), false)]
  {
    var first := OneContainerRuns(c);
    var second := ContainerExits(c, first);
    events := TaskIsDeleted(c, second);
    assert events == first + [Restart, Exited("h"), Stop(0, {}, 0), Delete(0, {})];
  }

  lemma NoNewRow(s: State, e: Event, t: TaskId)
    requires t !in s.tasks && t < s.nextTask
    ensures t !in Step(s, e).0.tasks && t < Step(s, e).0.nextTask
  {
    hide NameTaken, Called, BuildTaskIdentifier, BuildTaskUniqueName, StopPending, DropTask, StartedEntry, StoppedEntry;
  }

  /** A deleted task never comes back. */
  lemma DeletedStaysDeleted(s: State, e: Event, t: TaskId)
    requires Inv(s) && t !in s.tasks && t < s.nextTask
    ensures var r := Step(s, e).0; t !in r.tasks && t !in r.schedule && t < r.nextTask
  {
    hide Step, RunsOk, NamesOk;
    NoNewRow(s, e, t);
    StepKeepsInv(s, e);
    NotScheduled(Step(s, e).0, t);
  }

  lemma NoEntryToStart(schedule: map<TaskId, bool>, t: TaskId)
    requires t !in schedule
    ensures StartedEntry(schedule, t) == schedule
  {
  }

  /** A `scheduler.start` that comes after the deletion changes no row and no entry. */
  lemma {:induction false} LateStartChangesNothing(events: seq<Event>, t: TaskId)
    requires t !in After(EMPTY, events).tasks
    ensures var s := After(EMPTY, events);
            var r := Step(s, Built(t)).0;
            r == s.(builds := r.builds, images := r.images)
  {
    var s := After(EMPTY, events);
    InvAlways(events);
    hide ScheduleOk, RunsOk, NamesOk, RequestStep, BuildTaskIdentifier, StartedEntry;
    NotScheduled(s, t);
    NoEntryToStart(s.schedule, t);
  }

  lemma NotScheduled(s: State, t: TaskId)
    requires ScheduleOk(s) && t !in s.tasks
    ensures t !in s.schedule
  {
  }

  lemma {:induction false} DeletedForGood(s: State, events: seq<Event>, t: TaskId)
    requires Inv(s) && t !in s.tasks && t < s.nextTask
    ensures Inv(After(s, events)) && t !in After(s, events).tasks && t !in After(s, events).schedule
    ensures t < After(s, events).nextTask
  {
    if events != [] {
      var n := |events| - 1;
      DeletedForGood(s, events[..n], t);
      StepKeepsInv(After(s, events[..n]), events[n]);
      DeletedStaysDeleted(After(s, events[..n]), events[n], t);
    }
  }

  // Starting a stopped task

  /** The cron job of the task is started, or a build that will start it is under way. */
  ghost predicate Ticks(s: State, t: TaskId) {
    (t in s.schedule && s.schedule[t]) || (t in s.schedule && t in s.builds)
  }

  /** A start makes the cron job go only if the task has no entry at all, or the job would go anyway. */
  lemma {:induction false} StartTicksIff(s: State, t: TaskId)
    requires t in s.tasks && !s.tasks[t].active
    ensures var (r, response) := Step(s, Start(t));
            && response == Done && IsActive(r, t) && t in r.schedule
            && (Ticks(r, t) <==> t !in s.schedule || Ticks(s, t))
  {
  }

  /** The task, if it still exists, has an entry without ticks. Its id is not given again. */
  ghost predicate Idle(s: State, t: TaskId) {
    t < s.nextTask && !Ticks(s, t) && (t in s.tasks ==> t in s.schedule)
  }

  lemma IdleStaysIdle(s: State, e: Event, t: TaskId)
    requires Idle(s, t) && t in s.tasks && !Reschedules(e, t)
    ensures Idle(Step(s, e).0, t)
  {
    hide RequestStep, BackgroundStep, Idle;
    if IsRequest(e) {
      IdleAfterRequest(s, e, t);
    } else {
      IdleAfterBackground(s, e, t);
    }
  }

  lemma IdleAfterRequest(s: State, e: Event, t: TaskId)
    requires Idle(s, t) && t in s.tasks && !Reschedules(e, t) && IsRequest(e)
    ensures Idle(RequestStep(s, e).0, t)
  {
    hide NameTaken, Called, BuildTaskIdentifier, BuildTaskUniqueName, StopPending, DropTask;
  }

  lemma IdleAfterBackground(s: State, e: Event, t: TaskId)
    requires Idle(s, t) && t in s.tasks && !Reschedules(e, t) && !IsRequest(e)
    ensures Idle(BackgroundStep(s, e), t)
  {
    hide Called, BuildTaskIdentifier;
  }

  lemma {:induction false} IdleUntilRescheduled(s: State, t: TaskId, events: seq<Event>)
    requires Inv(s) && Idle(s, t)
    requires forall i :: 0 <= i < |events| ==> !Reschedules(events[i], t)
    ensures Inv(After(s, events)) && Idle(After(s, events), t)
  {
    if events != [] {
      hide ScheduleOk, RunsOk, Step;
      var n := |events| - 1;
      var before := After(s, events[..n]);
      IdleUntilRescheduled(s, t, events[..n]);
      StepKeepsInv(before, events[n]);
      if t in before.tasks {
        IdleStaysIdle(before, events[n], t);
      } else {
        DeletedStaysDeleted(before, events[n], t);
      }
    }
  }

  /** A task whose only build fails has no cron ticks until it is updated or the server restarts. */
  lemma {:induction false} FailedBuildIsIdle(s: State, t: TaskId, events: seq<Event>)
    requires Inv(s) && t in s.schedule && !s.schedule[t] && s.builds[t] == 1
    requires forall i :: 0 <= i < |events| ==> !Reschedules(events[i], t)
    ensures var r := After(Step(s, BuildFailed(t)).0, events);
            Inv(r) && Idle(r, t)
  {
    StepKeepsInv(s, BuildFailed(t));
    assert t in s.tasks && t < s.nextTask;
    hide ScheduleOk, RunsOk;
    IdleUntilRescheduled(Step(s, BuildFailed(t)).0, t, events);
  }

  /**
   * A task that is stopped when no build is under way stays without cron ticks, started again or not, until
   * it is updated or deleted or the server restarts.
   */
  lemma {:induction false} StoppedThenStartedIsIdle(s: State, t: TaskId, stuck: set<string>, now: Time,
                                                    events: seq<Event>)
    requires Inv(s) && IsActive(s, t) && t !in s.builds
    requires forall i :: 0 <= i < |events| ==> !Reschedules(events[i], t)
    ensures var r := After(Step(s, Stop(t, stuck, now)).0, events);
            Inv(r) && Idle(r, t)
  {
    hide ScheduleOk, RunsOk, Step;
    StopIdles(s, t, stuck, now);
    StepKeepsInv(s, Stop(t, stuck, now));
    IdleUntilRescheduled(Step(s, Stop(t, stuck, now)).0, t, events);
  }

  lemma StopIdles(s: State, t: TaskId, stuck: set<string>, now: Time)
    requires Inv(s) && IsActive(s, t) && t !in s.builds
    ensures Idle(Step(s, Stop(t, stuck, now)).0, t)
  {
    hide Called, StopPending, BuildTaskIdentifier, BuildTaskUniqueName, BackgroundStep;
  }

  // The program

  class CronTaskScheduler {
    var tasks: map<TaskId, bool>

    constructor ()
      ensures tasks == map[]
    {
      tasks := map[];
    }

    method ScheduleTask(t: TaskId)
      modifies this
      ensures tasks == old(tasks)[t := false]
    {
      tasks := tasks[t := false];
    }

    method Stop(t: TaskId)
      modifies this
      ensures tasks == if t in old(tasks) then old(tasks)[t := false] else old(tasks)
    {
      if t in tasks {
        tasks := tasks[t := false];
      }
    }

    method DeleteTask(t: TaskId)
      modifies this
      ensures tasks == old(tasks) - {t}
    {
      if t in tasks {
        Stop(t);
        tasks := tasks - {t};
      }
    }

    method Start(t: TaskId)
      modifies this
      ensures tasks == if t in old(tasks) then old(tasks)[t := true] else old(tasks)
    {
      if t in tasks {
        tasks := tasks[t := true];
      }
    }

    method Exists(t: TaskId) returns (found: bool)
      ensures found <==> t in tasks
    {
      found := t in tasks;
    }
  }

  /** The container runtime: what the environment runner and builder act on. */
  class Runtime {
    var containers: map<string, Container>
    var images: set<string>

    constructor ()
      ensures containers == map[] && images == {}
    {
      containers, images := map[], {};
    }

    /** The running containers whose image is exactly this one: the listing leaves exited ones out. */
    method GetEnvChildren(image: string) returns (handles: set<string>)
      ensures forall h :: h in handles <==> h in containers && containers[h].image == image && containers[h].running
    {
      handles := set h | h in containers && containers[h].image == image && containers[h].running;
    }

    method StopContainer(h: string)
      requires h in containers
      modifies this`containers
      ensures containers == old(containers)[h := Container(old(containers)[h].image, false)]
    {
      containers := containers[h := containers[h].(running := false)];
    }

    /** A running container is only deleted by force. */
    method DeleteContainer(h: string, isForce: bool) returns (deleted: bool)
      requires h in containers
      modifies this`containers
      ensures deleted <==> isForce || !old(containers)[h].running
      ensures containers == if deleted then old(containers) - {h} else old(containers)
    {
      deleted := isForce || !containers[h].running;
      if deleted {
        containers := containers - {h};
      }
    }

    method DeleteImage(image: string)
      modifies this`images
      ensures images == old(images) - {image}
    {
      images := images - {image};
    }
  }

  class TaskExecutorService {
    const scheduler: CronTaskScheduler
    const runtime: Runtime
    var builds: multiset<TaskId>

    constructor ()
      ensures fresh(scheduler) && fresh(runtime)
      ensures scheduler.tasks == map[] && runtime.containers == map[] && runtime.images == {} && builds == multiset{}
    {
      scheduler := new CronTaskScheduler();
      runtime := new Runtime();
      builds := multiset{};
    }

    method ScheduleExecutable(t: TaskId)
      modifies this`builds, scheduler
      ensures t in old(scheduler.tasks) ==> scheduler.tasks == old(scheduler.tasks) && builds == old(builds)
      ensures t !in old(scheduler.tasks) ==>
                scheduler.tasks == old(scheduler.tasks)[t := false] && builds == old(builds) + multiset{t}
    {
      var isScheduled := scheduler.Exists(t);
      if isScheduled {
        return;
      }
      scheduler.ScheduleTask(t);
      builds := builds + multiset{t};
    }

    /** The end of a dispatched build. */
    method FinishBuild(t: TaskId)
      requires t in builds
      modifies this`builds, scheduler, runtime`images
      ensures builds == old(builds) - multiset{t}
      ensures scheduler.tasks ==
              if t in old(scheduler.tasks) then old(scheduler.tasks)[t := true] else old(scheduler.tasks)
      ensures runtime.images == old(runtime.images) + {BuildTaskIdentifier(t)}
    {
      builds := builds - multiset{t};
      runtime.images := runtime.images + {BuildTaskIdentifier(t)};
      scheduler.Start(t);
    }

    /** The end of a dispatched build that fails: the error is logged, and nothing is started. */
    method FailBuild(t: TaskId)
      requires t in builds
      modifies this`builds
      ensures builds == old(builds) - multiset{t}
    {
      builds := builds - multiset{t};
    }

    /** One child after another; a failing call is settled and ignored. */
    method CallForAllChildren(image: string, call: Call, stuck: set<string>)
      modifies runtime`containers
      ensures runtime.containers == Called(call, old(runtime.containers), image, stuck)
    {
      var handles := runtime.GetEnvChildren(image);
      ghost var before := runtime.containers;
      var rest := handles;
      while rest != {}
        invariant rest <= handles
        invariant runtime.containers == Called(call, before, image, stuck + rest + (before.Keys - handles))
      {
        var h :| h in rest;
        if h !in stuck {
          match call {
            case StopThem => runtime.StopContainer(h);
            case DeleteThem => var deleted := runtime.DeleteContainer(h, true);
          }
        }
        rest := rest - {h};
      }
    }

    method DeleteExecutable(t: TaskId, stuck: set<string>)
      modifies scheduler, runtime
      ensures scheduler.tasks == old(scheduler.tasks) - {t}
      ensures runtime.containers == Called(DeleteThem, old(runtime.containers), BuildTaskIdentifier(t), stuck)
      ensures runtime.images == old(runtime.images) - {BuildTaskIdentifier(t)}
    {
      scheduler.DeleteTask(t);
      CallForAllChildren(BuildTaskIdentifier(t), DeleteThem, stuck);
      runtime.DeleteImage(BuildTaskIdentifier(t));
    }

    method StopExecutable(t: TaskId, stuck: set<string>)
      modifies scheduler, runtime`containers
      ensures scheduler.tasks ==
              if t in old(scheduler.tasks) then old(scheduler.tasks)[t := false] else old(scheduler.tasks)
      ensures runtime.containers == Called(StopThem, old(runtime.containers), BuildTaskIdentifier(t), stuck)
    {
      scheduler.Stop(t);
      CallForAllChildren(BuildTaskIdentifier(t), StopThem, stuck);
    }
  }

  class TaskService {
    const executor: TaskExecutorService
    const runs: TaskRunDao
    var tasks: map<TaskId, Task>
    var nextTask: TaskId

    constructor ()
      ensures fresh(executor) && fresh(executor.scheduler) && fresh(executor.runtime) && fresh(runs)
      ensures runs.Valid() && View() == EMPTY
    {
      executor := new TaskExecutorService();
      runs := new TaskRunDao();
      tasks, nextTask := map[], 0;
    }

    ghost function View(): State
      reads this, executor, executor.scheduler, executor.runtime, runs
    {
      State(tasks, nextTask, runs.rows, executor.scheduler.tasks, executor.builds, executor.runtime.containers,
            executor.runtime.images)
    }

    method CreateTask(groupId: nat, config: Config) returns (response: Response)
      modifies this, executor, executor.scheduler
      ensures (View(), response) == Step(old(View()), Create(groupId, config))
    {
      var name := BuildTaskUniqueName(groupId, config.name);
      if exists t :: t in tasks && tasks[t].name == name {
        return Conflict;
      }
      var t := nextTask;
      tasks, nextTask := tasks[t := Task(groupId, name, true, config)], nextTask + 1;
      executor.ScheduleExecutable(t);
      response := Created(t);
    }

    method DeleteTask(t: TaskId, stuck: set<string>) returns (response: Response)
      requires runs.Valid()
      modifies this, executor.scheduler, executor.runtime, runs
      ensures runs.Valid() && (View(), response) == Step(old(View()), Delete(t, stuck))
    {
      if t !in tasks {
        return NotFound;
      }
      if tasks[t].active {
        return BadRequest;
      }
      executor.DeleteExecutable(t, stuck);
      tasks := tasks - {t};
      runs.DeleteByTask(t);
      response := Done;
    }

    method StopTask(t: TaskId, stuck: set<string>, now: Time) returns (response: Response)
      requires runs.Valid()
      modifies this, executor.scheduler, executor.runtime, runs
      ensures runs.Valid() && (View(), response) == Step(old(View()), Stop(t, stuck, now))
    {
      if t !in tasks {
        return NotFound;
      }
      if !tasks[t].active {
        return BadRequest;
      }
      tasks := tasks[t := tasks[t].(active := false)];
      executor.StopExecutable(t, stuck);
      var count := runs.StopAll(t, now);
      response := Done;
    }

    method StartTask(t: TaskId) returns (response: Response)
      modifies this, executor, executor.scheduler
      ensures (View(), response) == Step(old(View()), Start(t))
    {
      if t !in tasks {
        return NotFound;
      }
      if tasks[t].active {
        return BadRequest;
      }
      executor.ScheduleExecutable(t);
      tasks := tasks[t := tasks[t].(active := true)];
      response := Done;
    }

    method UpdateTask(t: TaskId, local: nat, stuck: set<string>) returns (response: Response)
      modifies this, executor, executor.scheduler, executor.runtime
      ensures (View(), response) == Step(old(View()), Update(t, local, stuck))
    {
      if t !in tasks {
        return NotFound;
      }
      executor.DeleteExecutable(t, stuck);
      executor.ScheduleExecutable(t);
      tasks := tasks[t := tasks[t].(config := tasks[t].config.(local := local))];
      response := Done;
    }

    /** What a new process does, whose schedule table is empty and in which no build is under way. */
    method RegisterFromDatabase()
      requires executor.scheduler.tasks == map[] && executor.builds == multiset{}
      modifies executor, executor.scheduler
      ensures View() == Restarted(old(View()))
    {
      var active := set t | t in tasks && tasks[t].active;
      var rest := active;
      while rest != {}
        invariant rest <= active
        invariant executor.scheduler.tasks == Idling(active - rest)
        invariant executor.builds == multiset(active - rest)
      {
        hide Idling;
        var t :| t in rest;
        OneMoreIdling(active - rest, t);
        assert active - (rest - {t}) == (active - rest) + {t};
        executor.ScheduleExecutable(t);
        rest := rest - {t};
      }
    }
  }
}
