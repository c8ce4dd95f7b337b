/**
 * What a reachable state tells about its past: each column of a run row and of a task row names the step
 * that wrote it, and what that step had been told.
 */
module RunEngineRecords {
  import opened Prelude
  import opened RunTable
  import opened RunEngine
  import opened RunEngineControl
  import opened RunEngineInvariant
  import opened RunEngineTheorems
  import opened RunEngineContainers
  import opened RunEngineEffects
  import Steps = RunEngineSteps

  lemma PrefixOfPrefix(actions: seq<Action>, n: nat, i: nat)
    requires i <= n <= |actions|
    ensures actions[..n][..i] == actions[..i]
  {
  }

  /** Action i resumed activity pid, which then was `was`, and the call or statement succeeded. */
  ghost predicate Succeeded(m: int, actions: seq<Action>, i: nat, pid: Pid, was: Proc)
    requires i < |actions|
  {
    var s := Reached(m, actions[..i]);
    && actions[i].Resume? && actions[i].pid == pid && actions[i].o.ok
    && pid in s.procs && s.procs[pid] == was
  }

  // Run rows

  lemma ChangedByLastStep(m: int, actions: seq<Action>)
    requires actions != []
    ensures var n := |actions| - 1; var s, a := Reached(m, actions[..n]), actions[n];
            && Inv(s) && Reached(m, actions) == Apply(s, a)
            && (forall r :: RunChanges(s.db, Reached(m, actions).db, Done(s, a), TimeOf(a), r))
            && (forall t :: TaskChanges(s.db, Reached(m, actions).db, Done(s, a), t))
            && (forall pid :: pid in Reached(m, actions).procs ==> Arrived(s, a, pid, Reached(m, actions).procs[pid]))
  {
    var n := |actions| - 1;
    var s, a := Reached(m, actions[..n]), actions[n];
    Steps.InvAlways(m, actions[..n]);
    hide Inv, Apply, RunChanges, TaskChanges, Done, Arrived;
    forall r ensures RunChanges(s.db, Reached(m, actions).db, Done(s, a), TimeOf(a), r) {
      StepChangesRuns(s, a, r);
    }
    forall t ensures TaskChanges(s.db, Reached(m, actions).db, Done(s, a), t) {
      StepChangesTasks(s, a, t);
    }
    forall pid | pid in Reached(m, actions).procs ensures Arrived(s, a, pid, Reached(m, actions).procs[pid]) {
      StepArrives(s, a, pid);
    }
  }

  lemma FinishArrives(s: State, a: Action, pid: Pid, q: Proc)
    requires Arrived(s, a, pid, q) && q.ExecFinish?
    ensures pid in s.procs
    ensures s.procs[pid] == q || (a.Resume? && a.pid == pid && a.o.ok && s.procs[pid] == ExecWait(q.h, q.limit)
                                  && (q.success <==> a.o.exitCode == 0))
  {
  }

  /** What an executor is about to write is what its container has said. */
  lemma {:induction false} FinishKnows(m: int, actions: seq<Action>, pid: Pid) returns (i: nat)
    requires pid in Reached(m, actions).procs && Reached(m, actions).procs[pid].ExecFinish?
    ensures i < |actions|
    ensures var q := Reached(m, actions).procs[pid];
            Succeeded(m, actions, i, pid, ExecWait(q.h, q.limit)) && (q.success <==> actions[i].o.exitCode == 0)
  {
    var n, q := |actions| - 1, Reached(m, actions).procs[pid];
    ChangedByLastStep(m, actions);
    FinishArrives(Reached(m, actions[..n]), actions[n], pid, q);
    hide Inv, Apply, Arrived, RunChanges, TaskChanges;
    if Reached(m, actions[..n]).procs[pid] == q {
      i := FinishKnows(m, actions[..n], pid);
      PrefixOfPrefix(actions, n, i);
    } else {
      i := n;
    }
  }

  /** A final status was there before, or is written by this step for this run. */
  lemma FinalStep(db: Db, db': Db, done: Option<Proc>, now: Time, r: RunId)
    requires RunChanges(db, db', done, now, r) && r in db'.runs
    requires db'.runs[r].status == Succeed || db'.runs[r].status == Failed
    ensures || (r in db.runs && db.runs[r].status == db'.runs[r].status)
            || (done.Some? && done.value.ExecFinish? && done.value.h.runId == r
                && (db'.runs[r].status == Succeed <==> done.value.success))
  {
  }

  /**
   * In every reachable state: a run has ended with `succeed` or `failed` because at some step the wait of its
   * executor for its container was answered, and it is `succeed` exactly when the answer was the exit code 0.
   */
  lemma {:induction false} FinalStatusIsExitCode(m: int, actions: seq<Action>, r: RunId) returns (i: nat)
    requires var runs := Reached(m, actions).db.runs;
             r in runs && (runs[r].status == Succeed || runs[r].status == Failed)
    ensures i < |actions| && actions[i].Resume? && actions[i].o.ok
    ensures var s, pid := Reached(m, actions[..i]), actions[i].pid;
            pid in s.procs && s.procs[pid].ExecWait? && s.procs[pid].h.runId == r
    ensures Reached(m, actions).db.runs[r].status == Succeed <==> actions[i].o.exitCode == 0
    ensures Reached(m, actions).db.runs[r].status == Failed <==> actions[i].o.exitCode != 0
  {
    var n := |actions| - 1;
    var s, s', a := Reached(m, actions[..n]), Reached(m, actions), actions[n];
    ChangedByLastStep(m, actions);
    FinalStep(s.db, s'.db, Done(s, a), TimeOf(a), r);
    hide Inv, Apply, Arrived, RunChanges, TaskChanges, Reached;
    if r in s.db.runs && s.db.runs[r].status == s'.db.runs[r].status {
      i := FinalStatusIsExitCode(m, actions[..n], r);
      PrefixOfPrefix(actions, n, i);
    } else {
      i := FinishKnows(m, actions[..n], a.pid);
      PrefixOfPrefix(actions, n, i);
    }
  }

  /** The step that inserts row r: the row is new, pending, of the callback's task, rank and moment. */
  ghost predicate Inserts(s: State, a: Action, r: RunId, row: Run) {
    var done := Done(s, a);
    && done.Some? && done.value.CallbackInsert? && r == s.db.nextRun
    && done.value.t == row.taskId && done.value.rank == row.rank && TimeOf(a) == row.createdAt
  }

  lemma InsertStep(s: State, s': State, a: Action, r: RunId)
    requires RunChanges(s.db, s'.db, Done(s, a), TimeOf(a), r) && r in s'.db.runs
    ensures || (r in s.db.runs && s.db.runs[r].taskId == s'.db.runs[r].taskId && s.db.runs[r].rank == s'.db.runs[r].rank
                && s.db.runs[r].createdAt == s'.db.runs[r].createdAt)
            || Inserts(s, a, r, s'.db.runs[r])
  {
  }

  /** Every row was inserted by a callback for its task, and still says with which rank and when. */
  lemma {:induction false} CreatedWhen(m: int, actions: seq<Action>, r: RunId) returns (i: nat)
    requires r in Reached(m, actions).db.runs
    ensures i < |actions| && Inserts(Reached(m, actions[..i]), actions[i], r, Reached(m, actions).db.runs[r])
  {
    var n := |actions| - 1;
    var s, s', a := Reached(m, actions[..n]), Reached(m, actions), actions[n];
    ChangedByLastStep(m, actions);
    InsertStep(s, s', a, r);
    hide Inv, Apply, Arrived, RunChanges, TaskChanges, Reached, Done;
    if Inserts(s, a, r, s'.db.runs[r]) {
      i := n;
    } else {
      i := CreatedWhen(m, actions[..n], r);
      PrefixOfPrefix(actions, n, i);
    }
  }

  /** The step that marks row r as running, with the container and the moment the row tells. */
  ghost predicate Marks(s: State, a: Action, r: RunId, row: Run) {
    var done := Done(s, a);
    && done.Some? && done.value.ExecStart? && done.value.h.runId == r
    && row.handleId == Some(done.value.handleId) && row.startedAt == Some(TimeOf(a))
  }

  lemma MarkStep(s: State, s': State, a: Action, r: RunId)
    requires RunChanges(s.db, s'.db, Done(s, a), TimeOf(a), r) && r in s'.db.runs
    requires s'.db.runs[r].handleId.Some? || s'.db.runs[r].startedAt.Some?
    ensures || (r in s.db.runs && s.db.runs[r].handleId == s'.db.runs[r].handleId
                && s.db.runs[r].startedAt == s'.db.runs[r].startedAt)
            || Marks(s, a, r, s'.db.runs[r])
  {
  }

  lemma {:induction false} MarkedWhen(m: int, actions: seq<Action>, r: RunId) returns (i: nat)
    requires r in Reached(m, actions).db.runs
    requires Reached(m, actions).db.runs[r].handleId.Some? || Reached(m, actions).db.runs[r].startedAt.Some?
    ensures i < |actions| && Marks(Reached(m, actions[..i]), actions[i], r, Reached(m, actions).db.runs[r])
  {
    var n := |actions| - 1;
    var s, s', a := Reached(m, actions[..n]), Reached(m, actions), actions[n];
    ChangedByLastStep(m, actions);
    MarkStep(s, s', a, r);
    hide Inv, Apply, Arrived, RunChanges, TaskChanges, Reached, Done;
    if Marks(s, a, r, s'.db.runs[r]) {
      i := n;
    } else {
      i := MarkedWhen(m, actions[..n], r);
      PrefixOfPrefix(actions, n, i);
    }
  }

  lemma StartArrives(s: State, a: Action, pid: Pid, q: Proc)
    requires Arrived(s, a, pid, q) && q.ExecStart?
    ensures pid in s.procs
    ensures s.procs[pid] == q || (EnvOf(s, a) == Some(q.h) && a.pid == pid && a.o.handleId == q.handleId)
  {
  }

  lemma {:induction false} StartKnows(m: int, actions: seq<Action>, pid: Pid) returns (i: nat)
    requires pid in Reached(m, actions).procs && Reached(m, actions).procs[pid].ExecStart?
    ensures i < |actions|
    ensures var q := Reached(m, actions).procs[pid];
            EnvOf(Reached(m, actions[..i]), actions[i]) == Some(q.h) && actions[i].o.handleId == q.handleId
  {
    var n, q := |actions| - 1, Reached(m, actions).procs[pid];
    ChangedByLastStep(m, actions);
    StartArrives(Reached(m, actions[..n]), actions[n], pid, q);
    hide Inv, Apply, Arrived, RunChanges, TaskChanges, EnvOf;
    if Reached(m, actions[..n]).procs[pid] == q {
      i := StartKnows(m, actions[..n], pid);
      PrefixOfPrefix(actions, n, i);
    } else {
      i := n;
    }
  }

  /**
   * The container and the start of a run are on record together: the step j of its `running` update wrote them
   * and its moment, and an earlier step i launched for this run the container of that handle.
   */
  lemma {:induction false} HandleIsContainer(m: int, actions: seq<Action>, r: RunId) returns (i: nat, j: nat)
    requires var runs := Reached(m, actions).db.runs; r in runs && (runs[r].handleId.Some? || runs[r].startedAt.Some?)
    ensures i < j < |actions|
    ensures var launch := EnvOf(Reached(m, actions[..i]), actions[i]); launch.Some? && launch.value.runId == r
    ensures Reached(m, actions).db.runs[r].handleId == Some(actions[i].o.handleId)
    ensures var mark := LaunchOf(Reached(m, actions[..j]), actions[j]); mark.Some? && mark.value.runId == r
    ensures Reached(m, actions).db.runs[r].startedAt == Some(actions[j].o.now)
  {
    j := MarkedWhen(m, actions, r);
    hide Reached, EnvOf;
    i := StartKnows(m, actions[..j], actions[j].pid);
    PrefixOfPrefix(actions, j, i);
  }

  /** The step that wrote the finish time of a row: the end of the run, or a stop that found it pending. */
  ghost predicate Finishes(s: State, a: Action, r: RunId, row: Run) {
    var done := Done(s, a);
    && done.Some? && row.finishedAt == Some(TimeOf(a))
    && (|| (done.value.ExecFinish? && done.value.h.runId == r)
        || (done.value.StopRuns? && done.value.t == row.taskId && r in s.db.runs && s.db.runs[r].status == Pending))
  }

  lemma FinishStep(s: State, s': State, a: Action, r: RunId)
    requires RunChanges(s.db, s'.db, Done(s, a), TimeOf(a), r) && r in s'.db.runs && s'.db.runs[r].finishedAt.Some?
    ensures || (r in s.db.runs && s.db.runs[r].finishedAt == s'.db.runs[r].finishedAt
                && s.db.runs[r].taskId == s'.db.runs[r].taskId)
            || Finishes(s, a, r, s'.db.runs[r])
  {
  }

  lemma {:induction false} FinishedWhen(m: int, actions: seq<Action>, r: RunId) returns (i: nat)
    requires r in Reached(m, actions).db.runs && Reached(m, actions).db.runs[r].finishedAt.Some?
    ensures i < |actions| && Finishes(Reached(m, actions[..i]), actions[i], r, Reached(m, actions).db.runs[r])
  {
    var n := |actions| - 1;
    var s, s', a := Reached(m, actions[..n]), Reached(m, actions), actions[n];
    ChangedByLastStep(m, actions);
    FinishStep(s, s', a, r);
    hide Inv, Apply, Arrived, RunChanges, TaskChanges, Reached, Done;
    if Finishes(s, a, r, s'.db.runs[r]) {
      i := n;
    } else {
      i := FinishedWhen(m, actions[..n], r);
      PrefixOfPrefix(actions, n, i);
    }
  }

  // Who ticked

  lemma TickArrives(s: State, a: Action, pid: Pid, q: Proc)
    requires Arrived(s, a, pid, q) && (q.CallbackRead? || q.CallbackLock? || q.CallbackCount? || q.CallbackInsert?)
    ensures || (pid in s.procs && s.procs[pid] == q)
            || (a == Tick(q.t) && q == CallbackRead(q.t))
            || (!q.CallbackRead? && a.Resume? && a.pid == pid && a.o.ok && pid in s.procs
                && s.procs[pid] == CallbackRead(q.t) && q.t in s.db.tasks && s.db.tasks[q.t].active)
            || (!q.CallbackRead? && pid in s.procs && (s.procs[pid].CallbackLock? || s.procs[pid].CallbackCount?)
                && s.procs[pid].t == q.t)
  {
  }

  lemma {:induction false} ReadIsTicked(m: int, actions: seq<Action>, pid: Pid) returns (i: nat)
    requires pid in Reached(m, actions).procs && Reached(m, actions).procs[pid].CallbackRead?
    ensures i < |actions| && actions[i] == Tick(Reached(m, actions).procs[pid].t)
  {
    var n, q := |actions| - 1, Reached(m, actions).procs[pid];
    ChangedByLastStep(m, actions);
    TickArrives(Reached(m, actions[..n]), actions[n], pid, q);
    hide Inv, Apply, Arrived, RunChanges, TaskChanges;
    if actions[n] == Tick(q.t) {
      i := n;
    } else {
      i := ReadIsTicked(m, actions[..n], pid);
    }
  }

  lemma {:induction false} CallbackReadActive(m: int, actions: seq<Action>, pid: Pid) returns (j: nat)
    requires pid in Reached(m, actions).procs
    requires var q := Reached(m, actions).procs[pid]; q.CallbackLock? || q.CallbackCount? || q.CallbackInsert?
    ensures j < |actions|
    ensures var s, t := Reached(m, actions[..j]), Reached(m, actions).procs[pid].t;
            Succeeded(m, actions, j, pid, CallbackRead(t)) && t in s.db.tasks && s.db.tasks[t].active
  {
    var n, q := |actions| - 1, Reached(m, actions).procs[pid];
    var s := Reached(m, actions[..n]);
    ChangedByLastStep(m, actions);
    TickArrives(s, actions[n], pid, q);
    hide Inv, Apply, Arrived, RunChanges, TaskChanges;
    if s.procs[pid].CallbackRead? {
      j := n;
    } else {
      j := CallbackReadActive(m, actions[..n], pid);
      PrefixOfPrefix(actions, n, j);
    }
  }

  /**
   * Every row goes back to a tick of the cron job of its task, at i, whose callback, at j, found the task there
   * and active.
   */
  lemma {:induction false} RunWasTicked(m: int, actions: seq<Action>, r: RunId) returns (i: nat, j: nat)
    requires r in Reached(m, actions).db.runs
    ensures i < j < |actions|
    ensures actions[i] == Tick(Reached(m, actions).db.runs[r].taskId)
    ensures var s, t := Reached(m, actions[..j]), Reached(m, actions).db.runs[r].taskId;
            && actions[j].Resume? && actions[j].o.ok
            && actions[j].pid in s.procs && s.procs[actions[j].pid] == CallbackRead(t)
            && t in s.db.tasks && s.db.tasks[t].active
  {
    var k := CreatedWhen(m, actions, r);
    hide Reached;
    j := CallbackReadActive(m, actions[..k], actions[k].pid);
    PrefixOfPrefix(actions, k, j);
    i := ReadIsTicked(m, actions[..j], actions[j].pid);
    PrefixOfPrefix(actions, j, i);
  }

  // Task rows

  /** The step that created task t: the row began as the request had it, and active. */
  ghost predicate Creates(s: State, a: Action, t: TaskId, limit: Option<int>) {
    var done := Done(s, a);
    done.Some? && done.value.CreateInsert? && done.value.limit == limit && t == s.db.nextTask
  }

  lemma CreateStep(s: State, s': State, a: Action, t: TaskId)
    requires Inv(s) && TaskChanges(s.db, s'.db, Done(s, a), t) && t in s'.db.tasks
    ensures || (t in s.db.tasks && s.db.tasks[t].times == s'.db.tasks[t].times)
            || Creates(s, a, t, s'.db.tasks[t].times)
  {
    if t in s.db.tasks && a.Resume? && a.pid in s.procs && s.procs[a.pid].UpdateWrite? {
      Steps.LocalsOf(s, a.pid);
      DbFacts(s);
    }
  }

  /** Every task goes back to a request to create a task with just its limit. */
  lemma {:induction false} TaskWasRequested(m: int, actions: seq<Action>, t: TaskId) returns (i: nat)
    requires t in Reached(m, actions).db.tasks
    ensures i < |actions| && actions[i].Receive? && actions[i].request.CreateTask?
    ensures actions[i].request.limit == Reached(m, actions).db.tasks[t].times
  {
    var n := |actions| - 1;
    var s, s', a := Reached(m, actions[..n]), Reached(m, actions), actions[n];
    ChangedByLastStep(m, actions);
    CreateStep(s, s', a, t);
    hide Inv, Apply, Arrived, RunChanges, TaskChanges, Reached;
    if Creates(s, a, t, s'.db.tasks[t].times) {
      i := ActivityIsRequested(m, actions[..n], a.pid);
    } else {
      i := TaskWasRequested(m, actions[..n], t);
    }
  }

  lemma BodyStep(s: State, s': State, a: Action, t: TaskId)
    requires TaskChanges(s.db, s'.db, Done(s, a), t) && t in s'.db.tasks
    ensures || (t in s.db.tasks && s.db.tasks[t].body == s'.db.tasks[t].body)
            || (Done(s, a).Some? && Done(s, a).value.UpdateWrite? && Done(s, a).value.t == t
                && Done(s, a).value.body == s'.db.tasks[t].body)
            || (Done(s, a).Some? && Done(s, a).value.CreateInsert? && Done(s, a).value.body == s'.db.tasks[t].body)
  {
  }

  /** The configuration of a task is that of a request: the one that created it, or an update of this task. */
  lemma {:induction false} BodyWasRequested(m: int, actions: seq<Action>, t: TaskId) returns (i: nat)
    requires t in Reached(m, actions).db.tasks
    ensures i < |actions| && actions[i].Receive?
    ensures var body := Reached(m, actions).db.tasks[t].body;
            || actions[i].request == UpdateTask(t, body)
            || (actions[i].request.CreateTask? && actions[i].request.body == body)
  {
    var n := |actions| - 1;
    var s, s', a := Reached(m, actions[..n]), Reached(m, actions), actions[n];
    ChangedByLastStep(m, actions);
    BodyStep(s, s', a, t);
    hide Inv, Apply, Arrived, RunChanges, TaskChanges, Reached, Asks;
    if t in s.db.tasks && s.db.tasks[t].body == s'.db.tasks[t].body {
      i := BodyWasRequested(m, actions[..n], t);
    } else {
      i := ActivityIsRequested(m, actions[..n], a.pid);
      AskedBody(actions[i].request, s.procs[a.pid]);
    }
  }

  lemma AskedBody(r: Request, p: Proc)
    requires Asks(r, p)
    ensures p.UpdateWrite? ==> r == UpdateTask(p.t, p.body)
    ensures p.CreateInsert? ==> r == CreateTask(p.limit, p.body)
  {
  }
}
