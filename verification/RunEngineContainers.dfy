/**
 * How often the container of a run is launched. The row is marked `running` only after the container has
 * been launched, so a crash between the two steps lets the next server launch it again. Nothing else does.
 */
module RunEngineContainers {
  import opened Prelude
  import opened RunTable
  import opened RunEngine
  import opened RunEngineControl
  import opened RunEngineInvariant
  import opened RunEngineTheorems
  import Steps = RunEngineSteps

  /** The run whose container the step launches. */
  function EnvOf(s: State, a: Action): Option<RunHandle> {
    if a.Resume? && a.pid in s.procs && s.procs[a.pid].ExecLaunchEnv? && a.o.ok then Some(s.procs[a.pid].h) else None
  }

  /** The activity may still launch the container of run r. */
  predicate Ahead(p: Proc, r: RunId) {
    || (p.CallbackLeave? && p.outcome.Registered? && p.outcome.h.runId == r)
    || ((p.CallbackEnqueue? || p.ExecRead? || p.ExecLaunchEnv?) && p.h.runId == r)
  }

  ghost predicate NoneAhead(procs: map<Pid, Proc>, r: RunId) {
    forall p :: p in procs ==> !Ahead(procs[p], r)
  }

  ghost predicate NotWaiting(waiting: seq<RunHandle>, r: RunId) {
    forall i :: 0 <= i < |waiting| ==> waiting[i].runId != r
  }

  /** Nobody in this server process is going to launch the container of run r. */
  ghost predicate Behind(s: State, r: RunId) {
    r < s.db.nextRun && NotWaiting(s.queue, r) && NotWaiting(BootPending(s.server), r) && NoneAhead(s.procs, r)
  }

  /** Nothing in this server process will launch the container of run r of task t any more. */
  ghost predicate Spent(s: State, r: RunId, t: TaskId) {
    && Behind(s, r)
    && !s.server.Down? && !s.server.Finding?
    && r in s.db.history.created && s.db.history.created[r] == t
    && t !in Outstanding(s.server)
  }

  ghost predicate StaysBehind(s: State, s': State, r: RunId) {
    && Behind(s', r) && s'.server == s.server
    && (r in s.db.history.created ==>
          r in s'.db.history.created && s'.db.history.created[r] == s.db.history.created[r])
  }

  lemma ExecuteNextKeeps(s: State, r: RunId)
    requires Behind(s, r)
    ensures Behind(ExecuteNext(s), r) && ExecuteNext(s).server == s.server && ExecuteNext(s).db == s.db
  {
  }

  lemma EnqueueKeeps(s: State, h: RunHandle, r: RunId)
    requires Behind(s, r) && h.runId != r
    ensures Behind(Enqueue(s, h), r) && Enqueue(s, h).server == s.server && Enqueue(s, h).db == s.db
  {
    hide ExecuteNext;
    ExecuteNextKeeps(s.(queue := s.queue + [h]), r);
  }

  lemma CallbackKeeps(s: State, pid: Pid, o: Oracle, r: RunId)
    requires Behind(s, r) && pid in s.procs && IsCallback(s.procs[pid])
    ensures StaysBehind(s, CallbackStep(s, pid, s.procs[pid], o), r)
  {
    hide ExecuteNext, Enqueue;
    if s.procs[pid].CallbackEnqueue? {
      EnqueueKeeps(Exit(s, pid), s.procs[pid].h, r);
    }
  }

  lemma ExecKeeps(s: State, pid: Pid, o: Oracle, r: RunId)
    requires Behind(s, r) && pid in s.procs && IsExec(s.procs[pid])
    ensures StaysBehind(s, ExecStep(s, pid, s.procs[pid], o), r)
  {
    hide ExecuteNext;
    if s.procs[pid].ExecDone? {
      var s1 := Exit(s, pid);
      ExecuteNextKeeps(s1.(running := s1.running - 1), r);
    }
  }

  lemma RequestKeeps(s: State, pid: Pid, o: Oracle, r: RunId)
    requires Behind(s, r) && pid in s.procs && IsRequestOnly(s.procs[pid])
    ensures StaysBehind(s, RequestStep(s, pid, s.procs[pid], o), r)
  {
  }

  lemma StopKeeps(s: State, pid: Pid, o: Oracle, r: RunId)
    requires Behind(s, r) && pid in s.procs && IsStop(s.procs[pid])
    ensures StaysBehind(s, StopStep(s, pid, s.procs[pid], o), r)
  {
  }

  lemma BuildKeeps(s: State, pid: Pid, o: Oracle, r: RunId)
    requires Behind(s, r) && pid in s.procs && s.procs[pid].BuildEnv?
    ensures StaysBehind(s, ResumeStep(s, pid, o), r)
  {
    hide CallbackStep, ExecStep, RequestStep, StopStep;
  }

  lemma ResumeKeeps(s: State, pid: Pid, o: Oracle, r: RunId)
    requires Behind(s, r) && pid in s.procs
    ensures StaysBehind(s, ResumeStep(s, pid, o), r)
  {
    hide Behind, StaysBehind, CallbackStep, ExecStep, RequestStep, StopStep;
    var p := s.procs[pid];
    if IsRequestOnly(p) {
      RequestKeeps(s, pid, o, r);
    } else if IsStop(p) {
      StopKeeps(s, pid, o, r);
    } else if p.BuildEnv? {
      BuildKeeps(s, pid, o, r);
    } else if IsCallback(p) {
      CallbackKeeps(s, pid, o, r);
    } else {
      ExecKeeps(s, pid, o, r);
    }
  }

  /** A starting server puts nobody ahead but the pending runs it reads. */
  lemma BootStepKeepsBehind(s: State, o: Oracle, r: RunId)
    requires Behind(s, r)
    requires s.server.ReadRuns? && IsPendingList(s.db.runs, s.server.t, o.pendingFound) ==>
               NotWaiting(o.pendingFound, r)
    ensures Behind(BootStepState(s, o), r) && BootStepState(s, o).db == s.db
  {
    hide Enqueue, ExecuteNext, IsPendingList, IsActiveList;
    if s.server.Requeue? && s.server.pending != [] {
      var u, pending, rest := s.server.t, s.server.pending, s.server.rest;
      EnqueueKeeps(s.(server := Requeue(u, pending[1..], rest)), pending[0], r);
    }
  }

  /** The turn of a task that has come does not come again. */
  lemma TurnsPass(s: State, o: Oracle, t: TaskId)
    requires !s.server.Down? && !s.server.Finding? && t !in Outstanding(s.server)
    ensures var server := BootStepState(s, o).server; !server.Down? && !server.Finding? && t !in Outstanding(server)
  {
    hide IsPendingList, IsActiveList;
  }

  /** The pending runs of another task are other runs. */
  lemma OtherPending(db: Db, u: TaskId, pending: seq<RunHandle>, r: RunId, t: TaskId)
    requires RowsOk(db) && IsPendingList(db.runs, u, pending) && u != t
    requires r in db.history.created && db.history.created[r] == t
    ensures NotWaiting(pending, r)
  {
  }

  lemma BootStepKeeps(s: State, o: Oracle, r: RunId, t: TaskId)
    requires RowsOk(s.db) && Spent(s, r, t)
    ensures Spent(BootStepState(s, o), r, t)
  {
    hide RowsOk, Behind, BootStepState, IsPendingList;
    if s.server.ReadRuns? && IsPendingList(s.db.runs, s.server.t, o.pendingFound) {
      assert s.server.t in Outstanding(s.server);
      OtherPending(s.db, s.server.t, o.pendingFound, r, t);
    }
    BootStepKeepsBehind(s, o, r);
    TurnsPass(s, o, t);
  }

  lemma StepKeeps(s: State, a: Action, r: RunId, t: TaskId)
    requires RowsOk(s.db) && Spent(s, r, t) && !a.Crash?
    ensures Spent(Apply(s, a), r, t)
  {
    hide RowsOk, BootStepState, ResumeStep;
    match a
    case BootStep(o) => BootStepKeeps(s, o, r, t);
    case Resume(pid, o) =>
      if pid in s.procs {
        ResumeKeeps(s, pid, o, r);
      }
    case _ =>
  }

  lemma NobodyElseAhead(views: Views, waiting: seq<RunHandle>, procs: map<Pid, Proc>, pid: Pid, h: RunHandle)
    requires ClaimsUnique(waiting, views) && views == ViewsOf(procs)
    requires pid in procs && procs[pid].ExecLaunchEnv? && procs[pid].h == h
    ensures forall p :: p in procs && p != pid ==> !Ahead(procs[p], h.runId)
    ensures NotWaiting(waiting, h.runId)
  {
    assert views[pid].claim == Some(h);
    forall p | p in procs && p != pid ensures !Ahead(procs[p], h.runId) {
      assert !Claims(views[p], h.runId);
    }
    forall i | 0 <= i < |waiting| ensures waiting[i].runId != h.runId {
      assert !Claims(views[pid], waiting[i].runId);
    }
  }

  lemma NotOutstanding(server: Server, jobs: set<TaskId>, waiting: seq<RunHandle>, views: Views, pid: Pid, h: RunHandle)
    requires BootOk(server, jobs, waiting, views) && pid in views && views[pid].claim == Some(h)
    ensures !server.Down? && !server.Finding? && h.taskId !in Outstanding(server)
  {
    forall u | u in Outstanding(server) ensures u != h.taskId {
      assert Untouched(jobs, waiting, views, u);
    }
  }

  lemma RunIsKnown(s: State, pid: Pid, h: RunHandle)
    requires Inv(s) && pid in s.procs && s.procs[pid].ExecLaunchEnv? && s.procs[pid].h == h
    ensures h.runId < s.db.nextRun && h.runId in s.db.history.created && s.db.history.created[h.runId] == h.taskId
    ensures ClaimsUnique(Waiting(ControlOf(s)), ViewsOf(s.procs))
    ensures BootOk(s.server, s.jobs, Waiting(ControlOf(s)), ViewsOf(s.procs))
  {
    hide ClaimsUnique, BootOk, LocksOk, SlotsOk;
    Steps.ClaimOf(s, pid);
  }

  lemma NotWaitingInParts(a: seq<RunHandle>, b: seq<RunHandle>, r: RunId)
    requires NotWaiting(a + b, r)
    ensures NotWaiting(a, r) && NotWaiting(b, r)
  {
    assert forall i :: 0 <= i < |a| ==> (a + b)[i] == a[i];
    assert forall i :: 0 <= i < |b| ==> (a + b)[|a| + i] == b[i];
  }

  lemma LaunchedEnv(s: State, pid: Pid, o: Oracle, h: RunHandle)
    requires pid in s.procs && s.procs[pid].ExecLaunchEnv? && s.procs[pid].h == h && o.ok
    requires !s.server.Down? && !s.server.Finding? && h.taskId !in Outstanding(s.server)
    requires h.runId < s.db.nextRun && h.runId in s.db.history.created && s.db.history.created[h.runId] == h.taskId
    requires NotWaiting(s.queue, h.runId) && NotWaiting(BootPending(s.server), h.runId)
    requires forall p :: p in s.procs && p != pid ==> !Ahead(s.procs[p], h.runId)
    ensures Spent(ResumeStep(s, pid, o), h.runId, h.taskId)
  {
    hide CallbackStep, RequestStep, StopStep, ExecuteNext;
  }

  lemma EnvIsLaunched(s: State, a: Action) returns (pid: Pid)
    requires EnvOf(s, a).Some?
    ensures a == Resume(pid, a.o) && a.o.ok && Apply(s, a) == ResumeStep(s, pid, a.o)
    ensures pid in s.procs && s.procs[pid].ExecLaunchEnv? && s.procs[pid].h == EnvOf(s, a).value
    ensures pid in ViewsOf(s.procs) && ViewsOf(s.procs)[pid].claim == EnvOf(s, a)
  {
    pid := a.pid;
  }

  lemma WaitingInParts(s: State)
    ensures Waiting(ControlOf(s)) == s.queue + BootPending(s.server)
  {
  }

  /** By the invariant nobody else stands for the run, so launching its container uses it up. */
  lemma {:induction false} LaunchSpends(s: State, a: Action)
    requires Inv(s) && EnvOf(s, a).Some?
    ensures Spent(Apply(s, a), EnvOf(s, a).value.runId, EnvOf(s, a).value.taskId)
  {
    var h, views, waiting := EnvOf(s, a).value, ViewsOf(s.procs), Waiting(ControlOf(s));
    WaitingInParts(s);
    hide *;
    var pid := EnvIsLaunched(s, a);
    RunIsKnown(s, pid, h);
    NobodyElseAhead(views, waiting, s.procs, pid, h);
    NotOutstanding(s.server, s.jobs, waiting, views, pid, h);
    NotWaitingInParts(s.queue, BootPending(s.server), h.runId);
    LaunchedEnv(s, pid, a.o, h);
  }

  lemma RowsFact(m: int, actions: seq<Action>)
    ensures RowsOk(Reached(m, actions).db)
  {
    hide RowsOk, Reached;
    Steps.InvAlways(m, actions);
  }

  ghost predicate NoCrash(actions: seq<Action>) {
    forall k :: 0 <= k < |actions| ==> !actions[k].Crash?
  }

  lemma NoCrashBefore(actions: seq<Action>)
    requires NoCrash(actions) && actions != []
    ensures NoCrash(actions[..|actions| - 1]) && !actions[|actions| - 1].Crash?
  {
  }

  lemma {:induction false} SpentStays(m: int, before: seq<Action>, after: seq<Action>, r: RunId, t: TaskId)
    requires Spent(Reached(m, before), r, t) && NoCrash(after)
    ensures Spent(Reached(m, before + after), r, t)
    decreases |after|
  {
    if after == [] {
      assert before + after == before;
    } else {
      hide *;
      var n := |after| - 1;
      var mid := before + after[..n];
      NoCrashBefore(after);
      SpentStays(m, before, after[..n], r, t);
      RowsFact(m, mid);
      StepKeeps(Reached(m, mid), after[n], r, t);
      Snoc(before, after);
      OneMore(m, mid, after[n]);
    }
  }

  lemma NoCrashBetween(actions: seq<Action>, i: nat, j: nat)
    requires i < j <= |actions| && forall k :: i < k < j ==> !actions[k].Crash?
    ensures NoCrash(actions[i + 1..j])
  {
  }

  /** Whoever launches the container of a run is ahead with it. */
  lemma LaunchingIsAhead(s: State, a: Action, r: RunId, t: TaskId)
    requires EnvOf(s, a).Some? && EnvOf(s, a).value.runId == r
    ensures !Spent(s, r, t)
  {
    assert Ahead(s.procs[a.pid], r);
  }

  lemma SpentAfterLaunch(m: int, actions: seq<Action>, i: nat, j: nat, h: RunHandle)
    requires i < j <= |actions| && EnvOf(Reached(m, actions[..i]), actions[i]) == Some(h)
    requires forall k :: i < k < j ==> !actions[k].Crash?
    ensures Spent(Reached(m, actions[..j]), h.runId, h.taskId)
  {
    hide *;
    Steps.InvAlways(m, actions[..i]);
    LaunchSpends(Reached(m, actions[..i]), actions[i]);
    OneMore(m, actions[..i], actions[i]);
    NoCrashBetween(actions, i, j);
    SpentStays(m, actions[..i] + [actions[i]], actions[i + 1..j], h.runId, h.taskId);
    Between(actions, i, j);
  }

  /** An activity about to launch a container stands for a run whose row has not been marked. */
  lemma LaunchingIsUnmarked(s: State, a: Action)
    requires Inv(s) && EnvOf(s, a).Some?
    ensures EnvOf(s, a).value.runId !in s.db.history.launched
  {
    hide Inv;
    Steps.ClaimOf(s, a.pid);
  }

  /** Once the `running` update of a run has been executed its container is never launched again. */
  lemma {:induction false} MarkedIsNotLaunchedAgain(m: int, before: seq<Action>, after: seq<Action>, a: Action,
                                                    r: RunId)
    requires r in Reached(m, before).db.history.launched
    ensures EnvOf(Reached(m, before + after), a).Some? ==> EnvOf(Reached(m, before + after), a).value.runId != r
  {
    hide Reached, Inv, EnvOf;
    LaunchedStays(m, before, after);
    Steps.InvAlways(m, before + after);
    if EnvOf(Reached(m, before + after), a).Some? {
      LaunchingIsUnmarked(Reached(m, before + after), a);
    }
  }

  /**
   * The container of a run is launched a second time only if the server has crashed after the first launch and
   * the `running` update of the run has never been executed.
   */
  lemma {:induction false} LaunchedAgainOnlyAfterCrash(m: int, actions: seq<Action>, i: nat, j: nat)
    requires i < j < |actions|
    requires var first := EnvOf(Reached(m, actions[..i]), actions[i]);
             var second := EnvOf(Reached(m, actions[..j]), actions[j]);
             first.Some? && second.Some? && first.value.runId == second.value.runId
    ensures exists k :: i < k < j && actions[k].Crash?
    ensures EnvOf(Reached(m, actions[..i]), actions[i]).value.runId !in Reached(m, actions[..j]).db.history.launched
  {
    hide Reached, Inv, EnvOf, Spent;
    var h := EnvOf(Reached(m, actions[..i]), actions[i]).value;
    Steps.InvAlways(m, actions[..j]);
    LaunchingIsUnmarked(Reached(m, actions[..j]), actions[j]);
    LaunchingIsAhead(Reached(m, actions[..j]), actions[j], h.runId, h.taskId);
    if forall k :: i < k < j ==> !actions[k].Crash? {
      SpentAfterLaunch(m, actions, i, j, h);
    }
  }
}
