/**
 * Whose containers can still be launched. From every reachable state and for every run row, some continuation
 * launches the container of the run if and only if there is a slot at all and the row is pending, or stopped
 * with a closure or an activity that has not launched it yet.
 */
module RunEngineRelaunches {
  import opened Prelude
  import opened RunTable
  import opened RunEngine
  import opened RunEngineControl
  import opened RunEngineInvariant
  import opened RunEngineContainers
  import opened RunEngineTheorems
  import opened RunEngineClaims
  import opened RunEngineContinuations
  import Steps = RunEngineSteps

  // Runs whose containers are not launched any more

  ghost predicate Passed(s: State, r: RunId) {
    Behind(s, r) && !IsPending(s.db, r)
  }

  lemma CrashKeepsBehind(s: State, r: RunId)
    requires r < s.db.nextRun
    ensures Behind(CrashState(s), r)
  {
  }

  lemma StepKeepsBehind(s: State, a: Action, r: RunId)
    requires Passed(s, r)
    ensures Behind(Apply(s, a), r)
  {
    hide BootStepState, ResumeStep, CrashState, IsPendingList;
    match a
    case BootStep(o) =>
      if s.server.ReadRuns? && IsPendingList(s.db.runs, s.server.t, o.pendingFound) {
        PendingIsOther(s.db.runs, s.server.t, o.pendingFound, r);
      }
      BootStepKeepsBehind(s, o, r);
    case Resume(pid, o) =>
      if pid in s.procs {
        ResumeKeeps(s, pid, o, r);
      }
    case Crash => CrashKeepsBehind(s, r);
    case _ =>
  }

  lemma NotPendingStays(db: Db, db': Db, r: RunId)
    requires RowsMove(db, db') && r < db.nextRun && !IsPending(db, r)
    ensures !IsPending(db', r)
  {
  }

  lemma {:induction false} PassedStays(m: int, before: seq<Action>, after: seq<Action>, r: RunId)
    requires Passed(Reached(m, before), r)
    ensures Passed(Reached(m, before + after), r)
    decreases |after|
  {
    if after == [] {
      assert before + after == before;
    } else {
      hide Reached, Apply, Inv, RowsMove, IsPending;
      var n := |after| - 1;
      var s := Reached(m, before + after[..n]);
      PassedStays(m, before, after[..n], r);
      Snoc(before, after);
      OneMore(m, before + after[..n], after[n]);
      Steps.InvAlways(m, before + after[..n]);
      StepKeepsBehind(s, after[n], r);
      StepMoves(s, after[n]);
      NotPendingStays(s.db, Apply(s, after[n]).db, r);
    }
  }

  lemma LaunchingIsNotBehind(s: State, a: Action, r: RunId)
    requires EnvOf(s, a).Some? && EnvOf(s, a).value.runId == r
    ensures !Behind(s, r)
  {
    assert Ahead(s.procs[a.pid], r);
  }

  lemma NoSlotNoLaunch(m: int, actions: seq<Action>, a: Action)
    requires m <= 0
    ensures EnvOf(Reached(m, actions), a) == None
  {
    hide Reached;
    SlotsAreExact(m, actions);
    var s := Reached(m, actions);
    assert ExecutorPids(s) == {};
    forall p | p in s.procs ensures !s.procs[p].ExecLaunchEnv? {
      assert p !in ExecutorPids(s);
    }
  }

  // A start needs a launch

  predicate IsStarting(p: Proc, r: RunId) {
    p.ExecStart? && p.h.runId == r
  }

  ghost predicate NoneStarting(procs: map<Pid, Proc>, r: RunId) {
    forall p :: p in procs ==> !IsStarting(procs[p], r)
  }

  lemma ExecuteNextStartsNone(s: State, r: RunId)
    requires NoneStarting(s.procs, r)
    ensures NoneStarting(ExecuteNext(s).procs, r)
  {
  }

  lemma CallbackStartsNone(s: State, pid: Pid, o: Oracle, r: RunId)
    requires NoneStarting(s.procs, r) && pid in s.procs && IsCallback(s.procs[pid])
    ensures NoneStarting(CallbackStep(s, pid, s.procs[pid], o).procs, r)
  {
    hide ExecuteNext;
    if s.procs[pid].CallbackEnqueue? {
      var s1 := Exit(s, pid);
      ExecuteNextStartsNone(s1.(queue := s1.queue + [s.procs[pid].h]), r);
    }
  }

  lemma ExecStartsNone(s: State, pid: Pid, o: Oracle, r: RunId)
    requires NoneStarting(s.procs, r) && pid in s.procs && IsExec(s.procs[pid])
    requires s.procs[pid].ExecLaunchEnv? && o.ok ==> s.procs[pid].h.runId != r
    ensures NoneStarting(ExecStep(s, pid, s.procs[pid], o).procs, r)
  {
    hide ExecuteNext;
    if s.procs[pid].ExecDone? {
      var s1 := Exit(s, pid);
      ExecuteNextStartsNone(s1.(running := s1.running - 1), r);
    }
  }

  lemma RequestStartsNone(s: State, pid: Pid, o: Oracle, r: RunId)
    requires NoneStarting(s.procs, r) && pid in s.procs && IsRequestOnly(s.procs[pid])
    ensures NoneStarting(RequestStep(s, pid, s.procs[pid], o).procs, r)
  {
  }

  lemma StopStartsNone(s: State, pid: Pid, o: Oracle, r: RunId)
    requires NoneStarting(s.procs, r) && pid in s.procs && IsStop(s.procs[pid])
    ensures NoneStarting(StopStep(s, pid, s.procs[pid], o).procs, r)
  {
  }

  lemma ResumeStartsNone(s: State, pid: Pid, o: Oracle, r: RunId)
    requires NoneStarting(s.procs, r) && pid in s.procs
    requires s.procs[pid].ExecLaunchEnv? && o.ok ==> s.procs[pid].h.runId != r
    ensures NoneStarting(ResumeStep(s, pid, o).procs, r)
  {
    hide CallbackStep, ExecStep, RequestStep, StopStep;
    var p := s.procs[pid];
    if IsRequestOnly(p) {
      RequestStartsNone(s, pid, o, r);
    } else if IsStop(p) {
      StopStartsNone(s, pid, o, r);
    } else if p.BuildEnv? {
    } else if IsCallback(p) {
      CallbackStartsNone(s, pid, o, r);
    } else {
      ExecStartsNone(s, pid, o, r);
    }
  }

  lemma BootStartsNone(s: State, o: Oracle, r: RunId)
    requires NoneStarting(s.procs, r)
    ensures NoneStarting(BootStepState(s, o).procs, r)
  {
    hide ExecuteNext, IsPendingList, IsActiveList;
    if s.server.Requeue? && s.server.pending != [] {
      var b := s.server;
      ExecuteNextStartsNone(s.(server := Requeue(b.t, b.pending[1..], b.rest), queue := s.queue + [b.pending[0]]), r);
    }
  }

  /** Only the launch of its container brings a run to the point where it can be started. */
  lemma StepStartsNone(s: State, a: Action, r: RunId)
    requires NoneStarting(s.procs, r)
    requires EnvOf(s, a).Some? ==> EnvOf(s, a).value.runId != r
    ensures NoneStarting(Apply(s, a).procs, r)
  {
    hide BootStepState, ResumeStep;
    match a
    case BootStep(o) => BootStartsNone(s, o, r);
    case Resume(pid, o) =>
      if pid in s.procs {
        ResumeStartsNone(s, pid, o, r);
      }
    case _ =>
  }

  ghost predicate Launches(s: State, actions: seq<Action>, a: Action, r: RunId) {
    EnvOf(Play(s, actions), a).Some? && EnvOf(Play(s, actions), a).value.runId == r
  }

  /** Some continuation from here launches the container of run r. */
  ghost predicate CanLaunch(s: State, r: RunId) {
    exists actions, a :: Launches(s, actions, a, r)
  }

  lemma LaunchOneStepBefore(s: State, a: Action, r: RunId)
    requires CanLaunch(Apply(s, a), r)
    ensures CanLaunch(s, r)
  {
    var actions, last :| Launches(Apply(s, a), actions, last, r);
    assert ([a] + actions)[1..] == actions;
    assert Launches(s, [a] + actions, last, r);
  }

  lemma StartIsStarting(s: State, a: Action, r: RunId)
    requires Starts(s, [], a, r)
    ensures !NoneStarting(s.procs, r)
  {
    assert IsStarting(s.procs[a.pid], r);
  }

  lemma {:induction false} StartNeedsLaunch(s: State, actions: seq<Action>, a: Action, r: RunId)
    requires NoneStarting(s.procs, r) && Starts(s, actions, a, r)
    ensures CanLaunch(s, r)
    decreases |actions|
  {
    if actions == [] {
      StartIsStarting(s, a, r);
    } else if EnvOf(s, actions[0]).Some? && EnvOf(s, actions[0]).value.runId == r {
      assert Launches(s, [], actions[0], r);
    } else {
      StepStartsNone(s, actions[0], r);
      StartNeedsLaunch(Apply(s, actions[0]), actions[1..], a, r);
      LaunchOneStepBefore(s, actions[0], r);
    }
  }

  lemma FromCanStart(s: State, r: RunId)
    requires CanStart(s, r) && NoneStarting(s.procs, r)
    ensures CanLaunch(s, r)
  {
    var actions, a :| Starts(s, actions, a, r);
    StartNeedsLaunch(s, actions, a, r);
  }

  // From where a container can be launched

  /** A pending row whose container may have been launched already: the server crashes and starts again. */
  lemma PendingCanLaunch(s: State, r: RunId)
    requires Inv(s) && s.maxConcurrency >= 1 && IsPending(s.db, r)
    ensures CanLaunch(s, r)
  {
    hide Inv, CanStart, CanLaunch;
    var s' := Apply(s, Crash);
    Steps.ApplyKeeps(s, Crash);
    FromPending(s', r);
    FromCanStart(s', r);
    LaunchOneStepBefore(s, Crash, r);
  }

  /** Whoever is ahead of the launch is the only one to stand for the run. */
  lemma NobodyElseStarting(s: State, r: RunId)
    requires Inv(s) && r < s.db.nextRun && !Behind(s, r)
    ensures NoneStarting(s.procs, r) && !Free(s, r)
  {
    hide Inv, ClaimsUnique, NoneStarting, IsStarting, Ahead, NotWaiting, StandsFor;
    ControlFacts(s);
    var waiting := Waiting(ControlOf(s));
    WaitingInParts(s);
    if !NotWaiting(waiting, r) {
      WaitingAlone(s.procs, waiting, r);
      WaitingIsClaimed(s, r);
    } else {
      NotWaitingInParts(s.queue, BootPending(s.server), r);
      var q :| q in s.procs && Ahead(s.procs[q], r);
      AheadIsClaimed(s, q, r);
      ActivitiesAreUnique(waiting, ViewsOf(s.procs));
      OnlyOneStands(s.procs, q, r);
    }
  }

  lemma WaitingAlone(procs: map<Pid, Proc>, waiting: seq<RunHandle>, r: RunId)
    requires ClaimsUnique(waiting, ViewsOf(procs)) && !NotWaiting(waiting, r)
    ensures NoneStarting(procs, r)
  {
    var i :| 0 <= i < |waiting| && waiting[i].runId == r;
    forall p | p in procs ensures !IsStarting(procs[p], r) {
      assert !Claims(ViewsOf(procs)[p], waiting[i].runId);
    }
  }

  lemma WaitingIsClaimed(s: State, r: RunId)
    requires !NotWaiting(Waiting(ControlOf(s)), r)
    ensures !Free(s, r)
  {
    WaitingInParts(s);
  }

  lemma AheadIsClaimed(s: State, q: Pid, r: RunId)
    requires q in s.procs && Ahead(s.procs[q], r)
    ensures !Free(s, r)
  {
    StandingIsClaiming(s.procs[q], r);
  }

  lemma ActivitiesAreUnique(waiting: seq<RunHandle>, views: Views)
    requires ClaimsUnique(waiting, views)
    ensures ClaimsUnique([], views)
  {
  }

  lemma OnlyOneStands(procs: map<Pid, Proc>, q: Pid, r: RunId)
    requires q in procs && Ahead(procs[q], r)
    requires ClaimsUnique([], ViewsOf(procs))
    ensures NoneStarting(procs, r)
  {
    var views := ViewsOf(procs);
    StandingIsClaiming(procs[q], r);
    forall p | p in procs ensures !IsStarting(procs[p], r) {
      StandingIsClaiming(procs[p], r);
      assert views[q].claim.Some? && views[q].claim.value.runId == r;
      assert p != q ==> !Claims(views[p], r);
    }
  }

  lemma StoppedCanLaunch(s: State, r: RunId)
    requires Inv(s) && s.maxConcurrency >= 1 && Startable(s.db, r) && r < s.db.nextRun && !Behind(s, r)
    ensures CanLaunch(s, r)
  {
    hide Inv, CanStart, CanLaunch, Free, Behind, Startable, NoneStarting;
    NobodyElseStarting(s, r);
    FromStoppedClaim(s, r);
    FromCanStart(s, r);
  }

  /** Action a, taken after the continuation, launches the container of run r. */
  ghost predicate ContinuationLaunches(m: int, before: seq<Action>, after: seq<Action>, a: Action, r: RunId) {
    EnvOf(Reached(m, before + after), a).Some? && EnvOf(Reached(m, before + after), a).value.runId == r
  }

  lemma CanLaunchHere(m: int, before: seq<Action>, r: RunId) returns (after: seq<Action>, a: Action)
    requires CanLaunch(Reached(m, before), r)
    ensures ContinuationLaunches(m, before, after, a, r)
  {
    after, a :| Launches(Reached(m, before), after, a, r);
    PlayIsReached(m, before, after);
  }

  lemma NobodyLaunches(m: int, before: seq<Action>, after: seq<Action>, a: Action, r: RunId)
    requires r in Reached(m, before).db.runs && ContinuationLaunches(m, before, after, a, r)
    ensures var s := Reached(m, before);
            m >= 1 && Startable(s.db, r) && (IsPending(s.db, r) || !Behind(s, r))
  {
    var s := Reached(m, before);
    hide Reached, Inv, Behind, EnvOf;
    Steps.InvAlways(m, before);
    DbFacts(s);
    if m <= 0 {
      NoSlotNoLaunch(m, before + after, a);
    }
    if !Startable(s.db, r) {
      MarkedIsNotLaunchedAgain(m, before, after, a, r);
    }
    if Behind(s, r) && !IsPending(s.db, r) {
      PassedStays(m, before, after, r);
      LaunchingIsNotBehind(Reached(m, before + after), a, r);
    }
  }

  /**
   * From every reachable state, for every run row: some continuation launches the container of the run, again or
   * for the first time, if and only if there is a slot, and the row is pending, or stopped with somebody ahead.
   */
  lemma {:induction false} CanLaunchIff(m: int, before: seq<Action>, r: RunId)
    requires r in Reached(m, before).db.runs
    ensures var s := Reached(m, before);
            (exists after, a :: ContinuationLaunches(m, before, after, a, r)) <==>
            m >= 1 && (s.db.runs[r].status == Pending || (s.db.runs[r].status == Stopped && !Behind(s, r)))
  {
    var s := Reached(m, before);
    RowIsKnown(m, before, r);
    hide Reached, Inv, Behind, ContinuationLaunches, CanLaunch;
    Steps.InvAlways(m, before);
    CapIsConstant(m, before);
    if after, a :| ContinuationLaunches(m, before, after, a, r) {
      NobodyLaunches(m, before, after, a, r);
    }
    if m >= 1 && (s.db.runs[r].status == Pending || (s.db.runs[r].status == Stopped && !Behind(s, r))) {
      if s.db.runs[r].status == Pending {
        PendingCanLaunch(s, r);
      } else {
        StoppedCanLaunch(s, r);
      }
      var after, a := CanLaunchHere(m, before, r);
    }
  }

  /**
   * After a crash, whether its container has been launched before or not: the container of a run can be launched
   * if and only if there is a slot and its row is still pending.
   */
  lemma {:induction false} AfterCrashIff(m: int, before: seq<Action>, r: RunId)
    requires r in Reached(m, before).db.runs
    ensures (exists after, a :: ContinuationLaunches(m, before + [Crash], after, a, r)) <==>
            m >= 1 && Reached(m, before).db.runs[r].status == Pending
  {
    var s := Reached(m, before);
    RowIsKnown(m, before, r);
    hide Reached, Behind, ContinuationLaunches;
    OneMore(m, before, Crash);
    CrashKeepsBehind(s, r);
    CanLaunchIff(m, before + [Crash], r);
  }
}
