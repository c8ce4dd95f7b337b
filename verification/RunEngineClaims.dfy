/**
 * The closures and activities that stand for a run. Which steps end a claim, what a restart claims, and what
 * becomes of a run that nobody claims.
 */
module RunEngineClaims {
  import opened Prelude
  import opened RunTable
  import opened RunEngine
  import opened RunEngineControl
  import opened RunEngineInvariant
  import opened RunEngineContainers
  import opened RunEngineTheorems
  import Steps = RunEngineSteps

  /** The activity alone may execute, or has executed, the `running` update of run r. */
  predicate StandsFor(p: Proc, r: RunId) {
    Ahead(p, r) || ((p.ExecStart? || p.ExecWait? || p.ExecFinish?) && p.h.runId == r)
  }

  lemma StandingIsClaiming(p: Proc, r: RunId)
    ensures StandsFor(p, r) <==> Claims(ViewOf(p), r)
  {
  }

  ghost predicate NobodyClaims(procs: map<Pid, Proc>, r: RunId) {
    forall p :: p in procs ==> !StandsFor(procs[p], r)
  }

  /** No closure, queued or about to be queued, and no activity stands for run r. */
  ghost predicate Free(s: State, r: RunId) {
    NotWaiting(s.queue, r) && NotWaiting(BootPending(s.server), r) && NobodyClaims(s.procs, r)
  }

  lemma FreeIsUnclaimed(s: State, r: RunId)
    ensures Free(s, r) <==> Unclaimed(Waiting(ControlOf(s)), ViewsOf(s.procs), r)
  {
    var q, b, views := s.queue, BootPending(s.server), ViewsOf(s.procs);
    assert Waiting(ControlOf(s)) == q + b;
    forall p | p in s.procs ensures Claims(views[p], r) <==> StandsFor(s.procs[p], r) {
      StandingIsClaiming(s.procs[p], r);
    }
    if Unclaimed(q + b, views, r) {
      NotWaitingInParts(q, b, r);
    }
  }

  // Runs that nobody claims and that do not wait for a restart

  ghost predicate Retired(s: State, r: RunId) {
    && r < s.db.nextRun
    && (r in s.db.runs ==> s.db.runs[r].status != Pending)
    && Free(s, r)
  }

  /** Run r is retired, and its row is what it was, or gone. */
  ghost predicate StaysRetired(s: State, s': State, r: RunId) {
    Retired(s', r) && (r in s'.db.runs ==> r in s.db.runs && s'.db.runs[r] == s.db.runs[r])
  }

  lemma ExecuteNextStaysFree(s: State, r: RunId)
    requires Free(s, r)
    ensures Free(ExecuteNext(s), r) && ExecuteNext(s).db == s.db
  {
  }

  lemma EnqueueStaysFree(s: State, h: RunHandle, r: RunId)
    requires Free(s, r) && h.runId != r
    ensures Free(Enqueue(s, h), r) && Enqueue(s, h).db == s.db
  {
    hide ExecuteNext;
    ExecuteNextStaysFree(s.(queue := s.queue + [h]), r);
  }

  lemma CallbackRetired(s: State, pid: Pid, o: Oracle, r: RunId)
    requires Retired(s, r) && pid in s.procs
    requires IsCallback(s.procs[pid])
    ensures StaysRetired(s, CallbackStep(s, pid, s.procs[pid], o), r)
  {
    hide ExecuteNext, Enqueue;
    if s.procs[pid].CallbackEnqueue? {
      EnqueueStaysFree(Exit(s, pid), s.procs[pid].h, r);
    }
  }

  lemma ExecRetired(s: State, pid: Pid, o: Oracle, r: RunId)
    requires Retired(s, r) && pid in s.procs
    requires IsExec(s.procs[pid])
    ensures StaysRetired(s, ExecStep(s, pid, s.procs[pid], o), r)
  {
    hide ExecuteNext;
    if s.procs[pid].ExecDone? {
      var s1 := Exit(s, pid);
      ExecuteNextStaysFree(s1.(running := s1.running - 1), r);
    }
  }

  lemma RequestRetired(s: State, pid: Pid, o: Oracle, r: RunId)
    requires Retired(s, r) && pid in s.procs && IsRequestOnly(s.procs[pid])
    ensures StaysRetired(s, RequestStep(s, pid, s.procs[pid], o), r)
  {
  }

  lemma StopRetired(s: State, pid: Pid, o: Oracle, r: RunId)
    requires Retired(s, r) && pid in s.procs
    requires IsStop(s.procs[pid])
    ensures StaysRetired(s, StopStep(s, pid, s.procs[pid], o), r)
  {
  }

  lemma BuildRetired(s: State, pid: Pid, o: Oracle, r: RunId)
    requires Retired(s, r) && pid in s.procs && s.procs[pid].BuildEnv?
    ensures StaysRetired(s, ResumeStep(s, pid, o), r)
  {
    hide CallbackStep, ExecStep, RequestStep, StopStep;
  }

  lemma ResumeRetired(s: State, pid: Pid, o: Oracle, r: RunId)
    requires Retired(s, r) && pid in s.procs
    ensures StaysRetired(s, ResumeStep(s, pid, o), r)
  {
    hide Retired, StaysRetired, CallbackStep, ExecStep, RequestStep, StopStep;
    var p := s.procs[pid];
    if IsRequestOnly(p) {
      RequestRetired(s, pid, o, r);
    } else if IsStop(p) {
      StopRetired(s, pid, o, r);
    } else if p.BuildEnv? {
      BuildRetired(s, pid, o, r);
    } else if IsCallback(p) {
      CallbackRetired(s, pid, o, r);
    } else {
      ExecRetired(s, pid, o, r);
    }
  }

  /** A restart reads pending rows only. */
  lemma PendingIsOther(runs: Runs, u: TaskId, pending: seq<RunHandle>, r: RunId)
    requires IsPendingList(runs, u, pending) && (r in runs ==> runs[r].status != Pending)
    ensures NotWaiting(pending, r)
  {
  }

  lemma BootStepStaysFree(s: State, o: Oracle, r: RunId)
    requires Free(s, r)
    requires s.server.ReadRuns? && IsPendingList(s.db.runs, s.server.t, o.pendingFound) ==>
               NotWaiting(o.pendingFound, r)
    ensures Free(BootStepState(s, o), r) && BootStepState(s, o).db == s.db
  {
    hide Enqueue, ExecuteNext, IsPendingList, IsActiveList;
    if s.server.Requeue? && s.server.pending != [] {
      var u, pending, rest := s.server.t, s.server.pending, s.server.rest;
      EnqueueStaysFree(s.(server := Requeue(u, pending[1..], rest)), pending[0], r);
    }
  }

  lemma BootStepRetired(s: State, o: Oracle, r: RunId)
    requires Retired(s, r)
    ensures Retired(BootStepState(s, o), r) && BootStepState(s, o).db == s.db
  {
    hide Free, BootStepState, IsPendingList;
    if s.server.ReadRuns? && IsPendingList(s.db.runs, s.server.t, o.pendingFound) {
      PendingIsOther(s.db.runs, s.server.t, o.pendingFound, r);
    }
    BootStepStaysFree(s, o, r);
  }

  lemma StepRetired(s: State, a: Action, r: RunId)
    requires Retired(s, r)
    ensures StaysRetired(s, Apply(s, a), r)
    ensures LaunchOf(s, a).Some? ==> LaunchOf(s, a).value.runId != r
  {
    hide BootStepState, ResumeStep;
    match a
    case BootStep(o) => BootStepRetired(s, o, r);
    case Resume(pid, o) =>
      if pid in s.procs {
        ResumeRetired(s, pid, o, r);
      }
    case _ =>
  }

  /** A run that is not pending and that nobody claims keeps its row as it is for as long as it has one. */
  lemma {:induction false} RetiredForGood(m: int, before: seq<Action>, after: seq<Action>, r: RunId)
    requires Retired(Reached(m, before), r)
    ensures StaysRetired(Reached(m, before), Reached(m, before + after), r)
    decreases |after|
  {
    if after == [] {
      assert before + after == before;
    } else {
      hide Retired, Apply, Reached;
      var n := |after| - 1;
      RetiredForGood(m, before, after[..n], r);
      Snoc(before, after);
      OneMore(m, before + after[..n], after[n]);
      StepRetired(Reached(m, before + after[..n]), after[n], r);
    }
  }

  /** Such a run is never started: no step of any continuation, with any crashes and restarts, launches it. */
  lemma {:induction false} RetiredIsNeverLaunched(m: int, before: seq<Action>, after: seq<Action>, a: Action, r: RunId)
    requires Retired(Reached(m, before), r)
    ensures LaunchOf(Reached(m, before + after), a).Some? ==> LaunchOf(Reached(m, before + after), a).value.runId != r
  {
    hide Retired, Reached, LaunchOf;
    RetiredForGood(m, before, after, r);
    StepRetired(Reached(m, before + after), a, r);
  }

  lemma CrashFrees(s: State, r: RunId)
    requires r < s.db.nextRun && (r in s.db.runs ==> s.db.runs[r].status != Pending)
    ensures Retired(CrashState(s), r) && CrashState(s).db == s.db
  {
  }

  /** A run that is stopped when the server crashes is never started, and stays stopped while it has a row. */
  lemma {:induction false} StoppedBeforeCrashStaysStopped(m: int, before: seq<Action>, after: seq<Action>, a: Action,
                                                          r: RunId)
    requires r in Reached(m, before).db.runs && Reached(m, before).db.runs[r].status == Stopped
    ensures var s := Reached(m, before + [Crash] + after);
            && (r in s.db.runs ==> s.db.runs[r] == Reached(m, before).db.runs[r])
            && (LaunchOf(s, a).Some? ==> LaunchOf(s, a).value.runId != r)
  {
    RowIsKnown(m, before, r);
    hide Reached, Retired, LaunchOf;
    OneMore(m, before, Crash);
    CrashFrees(Reached(m, before), r);
    RetiredForGood(m, before + [Crash], after, r);
    RetiredIsNeverLaunched(m, before + [Crash], after, a, r);
  }

  lemma RowIsKnown(m: int, actions: seq<Action>, r: RunId)
    requires r in Reached(m, actions).db.runs
    ensures r < Reached(m, actions).db.nextRun
  {
    Steps.InvAlways(m, actions);
    hide Reached, Inv;
    DbFacts(Reached(m, actions));
  }

  // How a claim ends

  /** An executor gives the run up before the `running` update, or the server forgets everything. */
  predicate GivesUp(s: State, a: Action, r: RunId) {
    a.Crash? || (a.Resume? && a.pid in s.procs && StandsFor(s.procs[a.pid], r) && Abandons(s, s.procs[a.pid], a.o))
  }

  /** The executor finds its task gone or inactive, or fails before the update. */
  predicate Abandons(s: State, p: Proc, o: Oracle) {
    || (p.ExecRead? && (!o.ok || !IsActive(s.db, p.h.taskId)))
    || ((p.ExecLaunchEnv? || p.ExecStart?) && !o.ok)
  }

  predicate IsPending(db: Db, r: RunId) {
    r in db.runs && db.runs[r].status == Pending
  }

  ghost predicate PidsBelow(s: State) {
    forall p :: p in s.procs ==> p < s.nextPid
  }

  lemma ExecuteNextWasFree(s: State, r: RunId)
    requires PidsBelow(s) && Free(ExecuteNext(s), r)
    ensures Free(s, r)
  {
    var s' := ExecuteNext(s);
    if s' != s {
      assert s'.procs[s.nextPid] == ExecRead(s.queue[0]);
      forall i | 0 <= i < |s.queue| ensures s.queue[i].runId != r {
        if i > 0 {
          assert s'.queue[i - 1] == s.queue[i];
        }
      }
      forall p | p in s.procs ensures !StandsFor(s.procs[p], r) {
        assert s'.procs[p] == s.procs[p];
      }
    }
  }

  lemma EnqueueWasFree(s: State, h: RunHandle, r: RunId)
    requires PidsBelow(s) && Free(Enqueue(s, h), r)
    ensures Free(s, r) && h.runId != r
  {
    hide ExecuteNext;
    var s1 := s.(queue := s.queue + [h]);
    ExecuteNextWasFree(s1, r);
    NotWaitingInParts(s.queue, [h], r);
    assert [h][0] == h;
  }

  lemma CallbackWasFree(s: State, pid: Pid, o: Oracle, r: RunId)
    requires PidsBelow(s) && pid in s.procs
    requires IsCallback(s.procs[pid])
    requires Free(CallbackStep(s, pid, s.procs[pid], o), r)
    ensures Free(s, r)
  {
    hide ExecuteNext, Enqueue;
    if s.procs[pid].CallbackEnqueue? {
      EnqueueWasFree(Exit(s, pid), s.procs[pid].h, r);
      forall p | p in s.procs && p != pid ensures !StandsFor(s.procs[p], r) {
        assert s.procs[p] == Exit(s, pid).procs[p];
      }
    } else {
      var s' := CallbackStep(s, pid, s.procs[pid], o);
      assert s'.queue == s.queue && s'.server == s.server;
      assert pid in s'.procs ==> !StandsFor(s'.procs[pid], r);
      forall p | p in s.procs && p != pid ensures !StandsFor(s.procs[p], r) {
        assert s'.procs[p] == s.procs[p];
      }
    }
  }

  lemma ExecWasFree(s: State, pid: Pid, o: Oracle, r: RunId)
    requires PidsBelow(s) && pid in s.procs
    requires IsExec(s.procs[pid])
    requires Free(ExecStep(s, pid, s.procs[pid], o), r)
    requires StandsFor(s.procs[pid], r) ==> !(s.procs[pid].ExecWait? || s.procs[pid].ExecFinish?)
    requires StandsFor(s.procs[pid], r) ==> !Abandons(s, s.procs[pid], o)
    ensures Free(s, r)
  {
    hide ExecuteNext;
    var s1 := Exit(s, pid);
    if s.procs[pid].ExecDone? {
      ExecuteNextWasFree(s1.(running := s1.running - 1), r);
    }
    var s' := ExecStep(s, pid, s.procs[pid], o);
    forall p | p in s.procs && p != pid ensures !StandsFor(s.procs[p], r) {
      assert s.procs[p] == s1.procs[p];
      assert !s.procs[pid].ExecDone? ==> s'.procs[p] == s.procs[p];
    }
    assert pid in s'.procs || s.procs[pid].ExecDone?;
  }

  lemma RequestWasFree(s: State, pid: Pid, o: Oracle, r: RunId)
    requires PidsBelow(s) && pid in s.procs && IsRequestOnly(s.procs[pid])
    requires Free(RequestStep(s, pid, s.procs[pid], o), r)
    ensures Free(s, r)
  {
    var s' := RequestStep(s, pid, s.procs[pid], o);
    assert s'.queue == s.queue && s'.server == s.server;
    forall p | p in s.procs && p != pid ensures !StandsFor(s.procs[p], r) {
      assert s'.procs[p] == s.procs[p];
    }
  }

  lemma StopWasFree(s: State, pid: Pid, o: Oracle, r: RunId)
    requires pid in s.procs
    requires IsStop(s.procs[pid])
    requires Free(StopStep(s, pid, s.procs[pid], o), r)
    ensures Free(s, r)
  {
    var s' := StopStep(s, pid, s.procs[pid], o);
    forall p | p in s.procs && p != pid ensures !StandsFor(s.procs[p], r) {
      assert s'.procs[p] == s.procs[p];
    }
  }

  lemma BuildWasFree(s: State, pid: Pid, o: Oracle, r: RunId)
    requires pid in s.procs && s.procs[pid].BuildEnv? && Free(ResumeStep(s, pid, o), r)
    ensures Free(s, r)
  {
    hide CallbackStep, ExecStep, RequestStep, StopStep;
    var s' := ResumeStep(s, pid, o);
    forall p | p in s.procs && p != pid ensures !StandsFor(s.procs[p], r) {
      assert s'.procs[p] == s.procs[p];
    }
  }

  lemma ResumeWasFree(s: State, pid: Pid, o: Oracle, r: RunId)
    requires PidsBelow(s) && pid in s.procs && Free(ResumeStep(s, pid, o), r)
    requires StandsFor(s.procs[pid], r) ==> !(s.procs[pid].ExecWait? || s.procs[pid].ExecFinish?)
    requires StandsFor(s.procs[pid], r) ==> !Abandons(s, s.procs[pid], o)
    ensures Free(s, r)
  {
    hide Free, StandsFor, Abandons, PidsBelow, CallbackStep, ExecStep, RequestStep, StopStep;
    var p := s.procs[pid];
    if IsRequestOnly(p) {
      RequestWasFree(s, pid, o, r);
    } else if IsStop(p) {
      StopWasFree(s, pid, o, r);
    } else if p.BuildEnv? {
      BuildWasFree(s, pid, o, r);
    } else if IsCallback(p) {
      CallbackWasFree(s, pid, o, r);
    } else {
      ExecWasFree(s, pid, o, r);
    }
  }

  lemma BootStepWasFree(s: State, o: Oracle, r: RunId)
    requires PidsBelow(s) && Free(BootStepState(s, o), r)
    ensures Free(s, r)
  {
    hide Enqueue, ExecuteNext, IsPendingList, IsActiveList;
    match s.server
    case Requeue(u, pending, rest) =>
      if pending != [] {
        EnqueueWasFree(s.(server := Requeue(u, pending[1..], rest)), pending[0], r);
        assert forall i :: 1 <= i < |pending| ==> pending[i] == pending[1..][i - 1];
      }
    case BootSchedule(u, rest) =>
      var s' := BootStepState(s, o);
      forall p | p in s.procs ensures !StandsFor(s.procs[p], r) {
        assert s'.procs[p] == s.procs[p];
      }
    case _ =>
  }

  /** Otherwise a claim lasts: a row that is pending after the step and free was free before. */
  lemma StepWasFree(s: State, a: Action, r: RunId)
    requires Inv(s) && r in s.db.runs && IsPending(Apply(s, a).db, r)
    requires !GivesUp(s, a, r) && Free(Apply(s, a), r)
    ensures Free(s, r)
  {
    hide Inv, Free, StandsFor, Abandons, BootStepState, ResumeStep;
    PidsBounded(s);
    match a
    case BootStep(o) => BootStepWasFree(s, o, r);
    case Resume(pid, o) =>
      if pid in s.procs {
        PendingIsNotLaunched(s, a, r);
        ResumeWasFree(s, pid, o, r);
      }
    case Tick(t) =>
      if t in s.jobs {
        SpawnWasFree(s, CallbackRead(t), r);
      }
    case Receive(q) =>
      if s.server.Serving? {
        SpawnWasFree(s, Entry(q), r);
      }
    case Boot => SameClaims(s, Apply(s, a), r);
    case Crash =>
  }

  lemma SpawnWasFree(s: State, p: Proc, r: RunId)
    requires forall q :: q in s.procs ==> q < s.nextPid
    requires Free(Spawn(s, p), r)
    ensures Free(s, r)
  {
    forall q | q in s.procs ensures !StandsFor(s.procs[q], r) {
      assert Spawn(s, p).procs[q] == s.procs[q];
    }
  }

  lemma SameClaims(s: State, s': State, r: RunId)
    requires s'.queue == s.queue && s'.procs == s.procs && BootPending(s'.server) == BootPending(s.server)
    ensures Free(s', r) <==> Free(s, r)
  {
  }

  /** An activity past the `running` update stands for a row that is running. */
  lemma PendingIsNotLaunched(s: State, a: Action, r: RunId)
    requires Inv(s) && a.Resume? && a.pid in s.procs && r in s.db.runs && IsPending(Apply(s, a).db, r)
    ensures StandsFor(s.procs[a.pid], r) ==> !(s.procs[a.pid].ExecWait? || s.procs[a.pid].ExecFinish?)
  {
    hide Inv, Apply, RowsMove;
    var p := s.procs[a.pid];
    if StandsFor(p, r) && (p.ExecWait? || p.ExecFinish?) {
      Steps.ClaimOf(s, a.pid);
      assert s.db.runs[r].status == Running;
      StepMoves(s, a);
      MovesOn(s.db, Apply(s, a).db, r);
      assert false;
    }
  }

  lemma MovesOn(db: Db, db': Db, r: RunId)
    requires RowsMove(db, db') && r in db.runs && IsPending(db', r)
    ensures IsPending(db, r)
  {
  }

  lemma CrashedIsFree(s: State, r: RunId)
    ensures Free(CrashState(s), r)
  {
  }

  /** An executor that abandons its run was the only one to stand for it. */
  lemma AbandonedIsFree(s: State, pid: Pid, o: Oracle, r: RunId)
    requires Inv(s) && pid in s.procs && StandsFor(s.procs[pid], r) && Abandons(s, s.procs[pid], o)
    ensures Free(ResumeStep(s, pid, o), r)
  {
    hide Inv, CallbackStep, RequestStep, StopStep, ExecuteNext, Unclaimed;
    StandingIsClaiming(s.procs[pid], r);
    Steps.ClaimOf(s, pid);
    var s1 := Exit(s, pid);
    Steps.ViewsExit(s.procs, pid);
    assert ControlOf(s1).views == ViewsOf(s.procs) - {pid} && Waiting(ControlOf(s1)) == Waiting(ControlOf(s));
    FreeIsUnclaimed(s1, r);
    var s' := ResumeStep(s, pid, o);
    assert s'.queue == s.queue && s'.server == s.server && !StandsFor(s'.procs[pid], r);
    forall p | p in s'.procs && p != pid ensures !StandsFor(s'.procs[p], r) {
      assert s1.procs[p] == s'.procs[p];
    }
  }

  /** Exactly these steps end a claim and leave the row pending. */
  lemma {:induction false} ClaimEndsIff(m: int, actions: seq<Action>, a: Action, r: RunId)
    requires var s := Reached(m, actions); IsPending(s.db, r) && !Free(s, r) && IsPending(Apply(s, a).db, r)
    ensures Free(Reached(m, actions + [a]), r) <==> GivesUp(Reached(m, actions), a, r)
  {
    hide Reached, Free, BootStepState, ResumeStep, CrashState, StandsFor, Abandons;
    var s := Reached(m, actions);
    Steps.InvAlways(m, actions);
    OneMore(m, actions, a);
    if GivesUp(s, a, r) {
      if a.Crash? {
        CrashedIsFree(s, r);
      } else {
        AbandonedIsFree(s, a.pid, a.o, r);
      }
    } else if Free(Apply(s, a), r) {
      StepWasFree(s, a, r);
    }
  }

  /** The callback that has inserted a run stands for it. */
  lemma CallbackBirth(s: State, pid: Pid, o: Oracle, r: RunId)
    requires pid in s.procs && r !in s.db.runs
    requires IsCallback(s.procs[pid])
    requires r in CallbackStep(s, pid, s.procs[pid], o).db.runs
    ensures !Free(CallbackStep(s, pid, s.procs[pid], o), r)
  {
    var s' := CallbackStep(s, pid, s.procs[pid], o);
    assert pid in s'.procs && StandsFor(s'.procs[pid], r);
  }

  lemma ExecBirth(s: State, pid: Pid, p: Proc, o: Oracle)
    requires IsExec(p)
    ensures ExecStep(s, pid, p, o).db.runs.Keys <= s.db.runs.Keys
  {
  }

  lemma RequestBirth(s: State, pid: Pid, p: Proc, o: Oracle)
    requires IsRequestOnly(p)
    ensures RequestStep(s, pid, p, o).db.runs.Keys <= s.db.runs.Keys
  {
  }

  lemma StopBirth(s: State, pid: Pid, p: Proc, o: Oracle)
    requires IsStop(p)
    ensures StopStep(s, pid, p, o).db.runs.Keys <= s.db.runs.Keys
  {
  }

  lemma ResumeBirth(s: State, pid: Pid, o: Oracle, r: RunId)
    requires pid in s.procs && r !in s.db.runs && r in ResumeStep(s, pid, o).db.runs
    ensures !Free(ResumeStep(s, pid, o), r)
  {
    hide Free, CallbackStep, ExecStep, RequestStep, StopStep;
    var p := s.procs[pid];
    if IsRequestOnly(p) {
      RequestBirth(s, pid, p, o);
    } else if IsStop(p) {
      StopBirth(s, pid, p, o);
    } else if p.BuildEnv? {
    } else if IsCallback(p) {
      CallbackBirth(s, pid, o, r);
    } else {
      ExecBirth(s, pid, p, o);
    }
  }

  /** A run is born with a claim. */
  lemma NewRunIsClaimed(s: State, a: Action, r: RunId)
    requires r !in s.db.runs && r in Apply(s, a).db.runs
    ensures !Free(Apply(s, a), r)
  {
    hide Free, ResumeStep;
    if a.Resume? && a.pid in s.procs {
      ResumeBirth(s, a.pid, a.o, r);
    }
  }

  lemma Prefixes(actions: seq<Action>, n: nat)
    requires n + 1 == |actions|
    ensures actions[..n] + [actions[n]] == actions && actions[..n + 1] == actions
  {
  }

  lemma PrefixesOfFront(actions: seq<Action>, n: nat, k: nat)
    requires k < n <= |actions|
    ensures actions[..n][..k] == actions[..k] && actions[..n][..k + 1] == actions[..k + 1]
    ensures actions[..n][k] == actions[k]
  {
  }

  lemma NoRunAtFirst(m: int, actions: seq<Action>, r: RunId)
    requires IsPending(Reached(m, actions).db, r)
    ensures actions != [] && r in Reached(m, actions).db.runs
  {
  }

  /** A pending row for which nothing stands has been given up, by its executor or by a crash. */
  lemma {:induction false} PendingButFreeWasGivenUp(m: int, actions: seq<Action>, r: RunId) returns (k: nat)
    requires IsPending(Reached(m, actions).db, r) && Free(Reached(m, actions), r)
    ensures k < |actions| && GivesUp(Reached(m, actions[..k]), actions[k], r)
    ensures IsPending(Reached(m, actions[..k]).db, r) && IsPending(Reached(m, actions[..k + 1]).db, r)
    ensures !Free(Reached(m, actions[..k]), r) && Free(Reached(m, actions[..k + 1]), r)
  {
    hide *;
    NoRunAtFirst(m, actions, r);
    var n := |actions| - 1;
    var s, a := Reached(m, actions[..n]), actions[n];
    Prefixes(actions, n);
    OneMore(m, actions[..n], a);
    Steps.InvAlways(m, actions[..n]);
    StepMoves(s, a);
    if r !in s.db.runs {
      NewRunIsClaimed(s, a, r);
    }
    MovesOn(s.db, Apply(s, a).db, r);
    if Free(s, r) {
      k := PendingButFreeWasGivenUp(m, actions[..n], r);
      PrefixesOfFront(actions, n, k);
    } else {
      k := n;
      ClaimEndsIff(m, actions[..n], a, r);
    }
  }

  // What a restart claims

  /** The turn of an active task has come if and only if its pending runs, and no others, are claimed. */
  ghost predicate ClaimsPendingOfActive(s: State) {
    forall r :: !Free(s, r) <==>
      IsPending(s.db, r) && IsActive(s.db, s.db.runs[r].taskId) && s.db.runs[r].taskId !in Outstanding(s.server)
  }

  ghost predicate OutstandingAreActive(s: State) {
    forall u :: u in Outstanding(s.server) ==> IsActive(s.db, u)
  }

  /** A server that has done nothing but start so far. */
  ghost predicate Starting(s: State) {
    if s.server.Down? || s.server.Finding? then forall r :: Free(s, r)
    else ClaimsPendingOfActive(s) && OutstandingAreActive(s)
  }

  lemma TasksAreFound(s: State, list: seq<TaskId>)
    requires Starting(s) && s.server.Finding? && IsActiveList(s.db, list)
    ensures Starting(NextTask(s, list))
  {
    hide IsActive;
    var s' := NextTask(s, list);
    assert BootPending(s'.server) == [];
    forall r ensures Free(s', r) {
      assert Free(s, r);
    }
    assert list != [] ==> list == [list[0]] + list[1..];
    assert forall u :: u in Outstanding(s'.server) <==> u in list;
  }

  lemma RunsAreRead(s: State, pending: seq<RunHandle>)
    requires Starting(s) && s.server.ReadRuns? && s.server.t !in s.server.rest
    requires IsPendingList(s.db.runs, s.server.t, pending)
    ensures Starting(s.(server := Requeue(s.server.t, pending, s.server.rest)))
  {
    var t, rest := s.server.t, s.server.rest;
    var s' := s.(server := Requeue(t, pending, rest));
    assert Outstanding(s.server) == [t] + rest && IsActive(s.db, t) by {
      assert ([t] + rest)[0] == t;
    }
    forall r
      ensures !Free(s', r) <==>
        IsPending(s.db, r) && IsActive(s.db, s.db.runs[r].taskId) && s.db.runs[r].taskId !in rest
    {
      ListedIff(s.db.runs, t, pending, r);
      assert Free(s', r) <==> Free(s, r) && NotWaiting(pending, r);
      assert forall u :: u in Outstanding(s.server) <==> u == t || u in rest;
    }
  }

  lemma ListedIff(runs: Runs, t: TaskId, pending: seq<RunHandle>, r: RunId)
    requires IsPendingList(runs, t, pending)
    ensures !NotWaiting(pending, r) <==> r in runs && runs[r].taskId == t && runs[r].status == Pending
  {
  }

  /** Any other step of a starting server hands claims over or leaves them alone. */
  lemma StartMovesOn(s: State, o: Oracle)
    requires Starting(s) && PidsBelow(s) && !s.server.Finding? && !s.server.ReadRuns?
    ensures Starting(BootStepState(s, o))
  {
    var s' := BootStepState(s, o);
    forall r ensures Free(s', r) <==> Free(s, r) {
      if Free(s, r) {
        BootStepStaysFree(s, o, r);
      }
      if Free(s', r) {
        BootStepWasFree(s, o, r);
      }
    }
    SameOutstanding(s, o);
  }

  lemma SameOutstanding(s: State, o: Oracle)
    requires !s.server.Finding? && !s.server.ReadRuns?
    ensures var s' := BootStepState(s, o);
            && (forall u :: u in Outstanding(s'.server) <==> u in Outstanding(s.server))
            && s'.db == s.db && (s'.server.Down? <==> s.server.Down?) && !s'.server.Finding?
  {
  }

  lemma TurnIsNew(s: State)
    requires Inv(s) && s.server.ReadRuns?
    ensures s.server.t !in s.server.rest
  {
    var us := Outstanding(s.server);
    assert Distinct(us) && us == [s.server.t] + s.server.rest;
    assert forall i :: 0 <= i < |s.server.rest| ==> us[i + 1] == s.server.rest[i];
    assert us[0] == s.server.t;
  }

  lemma StartKeepsStarting(s: State, a: Action)
    requires Inv(s) && Starting(s) && (a.Boot? || a.BootStep?)
    ensures Starting(Apply(s, a))
  {
    PidsBounded(s);
    if a.Boot? {
      BootIsFree(s);
    } else if s.server.Finding? {
      if IsActiveList(s.db, a.o.tasksFound) {
        TasksAreFound(s, a.o.tasksFound);
      }
    } else if s.server.ReadRuns? {
      if IsPendingList(s.db.runs, s.server.t, a.o.pendingFound) {
        TurnIsNew(s);
        RunsAreRead(s, a.o.pendingFound);
      }
    } else {
      StartMovesOn(s, a.o);
    }
  }

  lemma BootIsFree(s: State)
    requires Starting(s)
    ensures Starting(Apply(s, Boot))
  {
    if s.server.Down? {
      forall r ensures Free(Apply(s, Boot), r) {
        SameClaims(s, Apply(s, Boot), r);
      }
    }
  }

  /** The server has only started since a crash. */
  lemma {:induction false} StartsAreStarting(m: int, before: seq<Action>, starts: seq<Action>)
    requires forall k :: 0 <= k < |starts| ==> starts[k].Boot? || starts[k].BootStep?
    ensures Starting(Reached(m, before + [Crash] + starts))
    decreases |starts|
  {
    hide Reached, Starting, Apply;
    if starts == [] {
      assert before + [Crash] + starts == before + [Crash];
      OneMore(m, before, Crash);
      CrashIsStarting(Reached(m, before));
    } else {
      var n := |starts| - 1;
      StartsAreStarting(m, before, starts[..n]);
      Snoc(before + [Crash], starts);
      OneMore(m, before + [Crash] + starts[..n], starts[n]);
      Steps.InvAlways(m, before + [Crash] + starts[..n]);
      StartKeepsStarting(Reached(m, before + [Crash] + starts[..n]), starts[n]);
    }
  }

  lemma CrashIsStarting(s: State)
    ensures Starting(Apply(s, Crash))
  {
  }

  /** When a server has started again, exactly the pending runs of the active tasks are claimed. */
  lemma {:induction false} RestartClaimsExactly(m: int, before: seq<Action>, starts: seq<Action>, r: RunId)
    requires forall k :: 0 <= k < |starts| ==> starts[k].Boot? || starts[k].BootStep?
    requires Reached(m, before + [Crash] + starts).server.Serving?
    ensures var s := Reached(m, before + [Crash] + starts);
            !Free(s, r) <==> IsPending(s.db, r) && IsActive(s.db, s.db.runs[r].taskId)
  {
    hide Reached, Free;
    StartsAreStarting(m, before, starts);
  }
}
