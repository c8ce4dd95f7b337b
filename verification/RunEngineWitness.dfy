/**
 * Two runs of the engine. In one a stopped row goes to `running`: that edge of the life cycle is really
 * taken. In the other a crash makes the container of one run start twice.
 */
module RunEngineWitness {
  import opened Prelude
  import opened RunTable
  import opened RunEngine
  import opened RunEngineContainers

  const FINE: Oracle := Oracle(true, 0, "container", 0, [], [])

  const HANDLE: RunHandle := RunHandle(0, 0, Unbounded)

  const PENDING: Runs := map[0 := NewRun(0, Unbounded, 0)]

  const STOPPED: Runs := map[0 := NewRun(0, Unbounded, 0).(status := Stopped, finishedAt := Some(0))]

  /** The states of a server with one slot and one unlimited task. */
  function At(active: bool, runs: Runs, started: bool, locked: bool, running: int, procs: map<Pid, Proc>, nextPid: Pid)
    : State
  {
    var created := if runs == map[] then map[] else map[0 := 0];
    State(Db(map[0 := Task(None, active, 0)], runs, 1, |created|, History(created, {}, map[0 := None])),
          Serving, map[0 := started], {0}, if locked then {Label(0)} else {}, [], running, procs, nextPid, 1)
  }

  lemma Then(actions: seq<Action>, a: Action, s: State) returns (longer: seq<Action>)
    requires Apply(Reached(1, actions), a) == s
    ensures longer == actions + [a] && Reached(1, longer) == s
  {
    longer := actions + [a];
    assert longer[..|actions|] == actions;
  }

  lemma ServerListens() returns (actions: seq<Action>)
    ensures Reached(1, actions) ==
            Initial(1).(server := Serving, procs := map[0 := CreateInsert(None, 0)], nextPid := 1)
  {
    actions := [];
    actions := Then(actions, Boot, Initial(1).(server := Finding));
    actions := Then(actions, BootStep(FINE), Initial(1).(server := Serving));
    actions := Then(actions, Receive(CreateTask(None, 0)),
                    Initial(1).(server := Serving, procs := map[0 := CreateInsert(None, 0)], nextPid := 1));
  }

  lemma TaskIsInserted() returns (actions: seq<Action>)
    ensures Reached(1, actions) ==
            At(true, map[], false, false, 0, map[0 := RegisterSchedule(0, Nothing)], 1).(schedule := map[], jobs := {})
  {
    hide Reached, BootStepState, CallbackStep, ExecStep, StopStep, Label;
    actions := ServerListens();
    actions := Then(actions, Resume(0, FINE),
                    At(true, map[], false, false, 0, map[0 := RegisterExists(0, Nothing)], 1)
                      .(schedule := map[], jobs := {}));
    actions := Then(actions, Resume(0, FINE),
                    At(true, map[], false, false, 0, map[0 := RegisterSchedule(0, Nothing)], 1)
                      .(schedule := map[], jobs := {}));
  }

  lemma JobIsCreated() returns (actions: seq<Action>)
    ensures Reached(1, actions) == At(true, map[], false, false, 0, map[1 := BuildEnv(0)], 2)
  {
    hide Reached, BootStepState, CallbackStep, ExecStep, StopStep, Label;
    actions := TaskIsInserted();
    actions := Then(actions, Resume(0, FINE), At(true, map[], false, false, 0, map[1 := BuildEnv(0)], 2));
  }

  lemma TaskIsCreated() returns (actions: seq<Action>)
    ensures Reached(1, actions) == At(true, map[], true, false, 0, map[], 2)
  {
    hide Reached, BootStepState, CallbackStep, ExecStep, StopStep, Label;
    actions := JobIsCreated();
    actions := Then(actions, Resume(1, FINE), At(true, map[], true, false, 0, map[], 2));
  }

  lemma CallbackHasRead() returns (actions: seq<Action>)
    ensures Reached(1, actions) == At(true, map[], true, false, 0, map[2 := CallbackLock(0, None, 0)], 3)
  {
    hide Reached, BootStepState, RequestStep, ExecStep, StopStep, Label;
    actions := TaskIsCreated();
    actions := Then(actions, Tick(0), At(true, map[], true, false, 0, map[2 := CallbackRead(0)], 3));
    actions := Then(actions, Resume(2, FINE), At(true, map[], true, false, 0, map[2 := CallbackLock(0, None, 0)], 3));
  }

  lemma LockIsTaken() returns (actions: seq<Action>)
    ensures Reached(1, actions) == At(true, map[], true, true, 0, map[2 := CallbackInsert(0, None, Unbounded)], 3)
  {
    hide Reached, BootStepState, RequestStep, ExecStep, StopStep, Label;
    actions := CallbackHasRead();
    actions := Then(actions, Resume(2, FINE),
                    At(true, map[], true, true, 0, map[2 := CallbackInsert(0, None, Unbounded)], 3));
  }

  lemma RunIsInserted() returns (actions: seq<Action>)
    ensures Reached(1, actions) == At(true, PENDING, true, true, 0, map[2 := CallbackLeave(0, Registered(HANDLE))], 3)
  {
    hide Reached, BootStepState, RequestStep, ExecStep, StopStep, Label;
    actions := LockIsTaken();
    actions := Then(actions, Resume(2, FINE),
                    At(true, PENDING, true, true, 0, map[2 := CallbackLeave(0, Registered(HANDLE))], 3));
  }

  lemma LockIsReleased() returns (actions: seq<Action>)
    ensures Reached(1, actions) == At(true, PENDING, true, false, 0, map[2 := CallbackEnqueue(HANDLE)], 3)
  {
    hide Reached, BootStepState, RequestStep, ExecStep, StopStep, Label;
    actions := RunIsInserted();
    actions := Then(actions, Resume(2, FINE), At(true, PENDING, true, false, 0, map[2 := CallbackEnqueue(HANDLE)], 3));
  }

  lemma RunIsQueued() returns (actions: seq<Action>)
    ensures Reached(1, actions) == At(true, PENDING, true, false, 1, map[3 := ExecRead(HANDLE)], 4)
  {
    hide Reached, BootStepState, RequestStep, ExecStep, StopStep, Label;
    actions := LockIsReleased();
    actions := Then(actions, Resume(2, FINE), At(true, PENDING, true, false, 1, map[3 := ExecRead(HANDLE)], 4));
  }

  lemma TaskIsInactive() returns (actions: seq<Action>)
    ensures Reached(1, actions) ==
            At(false, PENDING, true, false, 1, map[3 := ExecRead(HANDLE), 4 := StopExecutable(0, ByRequest)], 5)
  {
    hide Reached, BootStepState, RequestStep, ExecStep, CallbackStep, Label;
    actions := RunIsQueued();
    actions := Then(actions, Receive(StopTask(0)),
                    At(true, PENDING, true, false, 1, map[3 := ExecRead(HANDLE), 4 := StopRead(0, ByRequest)], 5));
    actions := Then(actions, Resume(4, FINE),
                    At(true, PENDING, true, false, 1,
                       map[3 := ExecRead(HANDLE), 4 := StopDeactivate(0, ByRequest)], 5));
    actions := Then(actions, Resume(4, FINE),
                    At(false, PENDING, true, false, 1,
                       map[3 := ExecRead(HANDLE), 4 := StopExecutable(0, ByRequest)], 5));
  }

  lemma EntryIsStopped() returns (actions: seq<Action>)
    ensures Reached(1, actions) ==
            At(false, PENDING, false, false, 1, map[3 := ExecRead(HANDLE), 4 := StopRuns(0, ByRequest)], 5)
  {
    hide Reached, BootStepState, RequestStep, ExecStep, CallbackStep, Label;
    actions := TaskIsInactive();
    actions := Then(actions, Resume(4, FINE),
                    At(false, PENDING, false, false, 1, map[3 := ExecRead(HANDLE), 4 := StopRuns(0, ByRequest)], 5));
  }

  lemma RunIsStopped() returns (actions: seq<Action>)
    ensures Reached(1, actions) == At(false, STOPPED, false, false, 1, map[3 := ExecRead(HANDLE)], 5)
  {
    hide Reached, BootStepState, RequestStep, ExecStep, CallbackStep, Label;
    actions := EntryIsStopped();
    actions := Then(actions, Resume(4, FINE), At(false, STOPPED, false, false, 1, map[3 := ExecRead(HANDLE)], 5));
  }

  lemma StartIsRead() returns (actions: seq<Action>)
    ensures Reached(1, actions) ==
            At(false, STOPPED, false, false, 1, map[3 := ExecRead(HANDLE), 5 := StartActivate(0)], 6)
  {
    hide Reached, BootStepState, CallbackStep, ExecStep, StopStep, Label;
    actions := RunIsStopped();
    actions := Then(actions, Receive(StartTask(0)),
                    At(false, STOPPED, false, false, 1, map[3 := ExecRead(HANDLE), 5 := StartRead(0)], 6));
    actions := Then(actions, Resume(5, FINE),
                    At(false, STOPPED, false, false, 1,
                       map[3 := ExecRead(HANDLE), 5 := RegisterExists(0, Activate)], 6));
    actions := Then(actions, Resume(5, FINE),
                    At(false, STOPPED, false, false, 1, map[3 := ExecRead(HANDLE), 5 := StartActivate(0)], 6));
  }

  lemma TaskIsActive() returns (actions: seq<Action>)
    ensures Reached(1, actions) == At(true, STOPPED, false, false, 1, map[3 := ExecRead(HANDLE)], 6)
  {
    hide Reached, BootStepState, CallbackStep, StopStep, Label;
    actions := StartIsRead();
    actions := Then(actions, Resume(5, FINE), At(true, STOPPED, false, false, 1, map[3 := ExecRead(HANDLE)], 6));
  }

  lemma ExecutorHasRead() returns (actions: seq<Action>)
    ensures Reached(1, actions) == At(true, STOPPED, false, false, 1, map[3 := ExecLaunchEnv(HANDLE, None)], 6)
  {
    hide Reached, BootStepState, CallbackStep, StopStep, Label;
    actions := TaskIsActive();
    actions := Then(actions, Resume(3, FINE),
                    At(true, STOPPED, false, false, 1, map[3 := ExecLaunchEnv(HANDLE, None)], 6));
  }

  lemma TaskIsStarted() returns (actions: seq<Action>)
    ensures Reached(1, actions) == At(true, STOPPED, false, false, 1, map[3 := ExecStart(HANDLE, None, "container")], 6)
  {
    hide Reached, BootStepState, CallbackStep, StopStep, Label;
    actions := ExecutorHasRead();
    actions := Then(actions, Resume(3, FINE),
                    At(true, STOPPED, false, false, 1, map[3 := ExecStart(HANDLE, None, "container")], 6));
  }

  /** A closure queued before a stop survives it: after stop and start it takes the stopped row to `running`. */
  lemma {:induction false} StoppedRunIsLaunched() returns (actions: seq<Action>, a: Action)
    ensures var before, after := Reached(1, actions).db.runs, Reached(1, actions + [a]).db.runs;
            0 in before && before[0].status == Stopped && 0 in after && after[0].status == Running
  {
    hide Reached, BootStepState, CallbackStep, StopStep, RequestStep, Label;
    actions := TaskIsStarted();
    a := Resume(3, FINE);
    var longer := Then(actions, a, Apply(Reached(1, actions), a));
  }

  // A crash between the launch of the container and the update of the row

  const FOUND: Oracle := Oracle(true, 0, "container", 0, [0], [HANDLE])

  /** The database with the pending row, and a server that has lost its memory. */
  function Restarting(server: Server, running: int, procs: map<Pid, Proc>, nextPid: Pid): State {
    At(true, PENDING, false, false, running, procs, nextPid).(server := server, schedule := map[], jobs := {})
  }

  lemma ContainerIsNext() returns (actions: seq<Action>)
    ensures Reached(1, actions) == At(true, PENDING, true, false, 1, map[3 := ExecLaunchEnv(HANDLE, None)], 4)
  {
    hide Reached, BootStepState, CallbackStep, StopStep, RequestStep, Label;
    actions := RunIsQueued();
    actions := Then(actions, Resume(3, FINE), At(true, PENDING, true, false, 1,
                                                 map[3 := ExecLaunchEnv(HANDLE, None)], 4));
  }

  lemma ServerCrashes(before: seq<Action>) returns (actions: seq<Action>)
    requires Reached(1, before) == At(true, PENDING, true, false, 1, map[3 := ExecLaunchEnv(HANDLE, None)], 4)
    ensures before + [Resume(3, FINE)] <= actions && Reached(1, actions) == Restarting(Finding, 0, map[], 4)
  {
    hide Reached, BootStepState, CallbackStep, StopStep, RequestStep, Label;
    actions := Then(before, Resume(3, FINE),
                    At(true, PENDING, true, false, 1, map[3 := ExecStart(HANDLE, None, "container")], 4));
    actions := Then(actions, Crash, Restarting(Down, 0, map[], 4));
    actions := Then(actions, Boot, Restarting(Finding, 0, map[], 4));
  }

  lemma RunIsFound(before: seq<Action>) returns (actions: seq<Action>)
    requires Reached(1, before) == Restarting(Finding, 0, map[], 4)
    ensures before <= actions && Reached(1, actions) == Restarting(Requeue(0, [HANDLE], []), 0, map[], 4)
  {
    hide Reached, ResumeStep, Label;
    var db := Reached(1, before).db;
    assert IsActiveList(db, [0]) && [0][1..] == [] && FOUND.tasksFound == [0];
    assert IsPendingList(db.runs, 0, [HANDLE]) by {
      assert [HANDLE][0].runId == 0;
    }
    actions := Then(before, BootStep(FOUND), Restarting(ReadRuns(0, []), 0, map[], 4));
    actions := Then(actions, BootStep(FOUND), Restarting(Requeue(0, [HANDLE], []), 0, map[], 4));
  }

  lemma RunIsQueuedAgain(before: seq<Action>) returns (actions: seq<Action>)
    requires Reached(1, before) == Restarting(Requeue(0, [HANDLE], []), 0, map[], 4)
    ensures before <= actions
    ensures Reached(1, actions) == Restarting(Requeue(0, [], []), 1, map[4 := ExecRead(HANDLE)], 5)
  {
    hide Reached, ResumeStep, Label;
    assert [HANDLE][1..] == [] && [] + [HANDLE] == [HANDLE];
    actions := Then(before, BootStep(FINE), Restarting(Requeue(0, [], []), 1, map[4 := ExecRead(HANDLE)], 5));
  }

  lemma ContainerIsNextAgain(before: seq<Action>) returns (actions: seq<Action>)
    requires Reached(1, before) == Restarting(Requeue(0, [], []), 1, map[4 := ExecRead(HANDLE)], 5)
    ensures before <= actions
    ensures Reached(1, actions) == Restarting(Requeue(0, [], []), 1, map[4 := ExecLaunchEnv(HANDLE, None)], 5)
  {
    hide Reached, CallbackStep, StopStep, RequestStep, Label;
    actions := Then(before, Resume(4, FINE),
                    Restarting(Requeue(0, [], []), 1, map[4 := ExecLaunchEnv(HANDLE, None)], 5));
  }

  /** After a crash the container of a run whose container was already launched is launched again. */
  lemma {:induction false} ContainerIsLaunchedTwice() returns (actions: seq<Action>, i: nat, j: nat)
    ensures i < j < |actions|
    ensures EnvOf(Reached(1, actions[..i]), actions[i]) == Some(HANDLE)
    ensures EnvOf(Reached(1, actions[..j]), actions[j]) == Some(HANDLE)
  {
    hide Reached;
    var first := ContainerIsNext();
    var crashed := ServerCrashes(first);
    var found := RunIsFound(crashed);
    var queued := RunIsQueuedAgain(found);
    var second := ContainerIsNextAgain(queued);
    actions, i, j := second + [Resume(4, FINE)], |first|, |second|;
    assert first + [Resume(3, FINE)] <= actions;
    assert actions[..i] == first && actions[i] == Resume(3, FINE);
    assert actions[..j] == second;
  }
}
