/** Every action of RunEngine keeps the invariant. */
module RunEngineSteps {
  import opened Prelude
  import opened RunTable
  import opened RunEngine
  import opened RunEngineControl
  import opened RunEngineInvariant
  import Mutex = ResourceMutex
  import Queue = TaskQueue

  // Moving one activity

  lemma ViewsGoto(procs: map<Pid, Proc>, pid: Pid, p: Proc)
    ensures ViewsOf(procs[pid := p]) == ViewsOf(procs)[pid := ViewOf(p)]
  {
  }

  lemma ViewsExit(procs: map<Pid, Proc>, pid: Pid)
    ensures ViewsOf(procs - {pid}) == ViewsOf(procs) - {pid}
  {
  }

  lemma ClaimsGoto(db: Db, waiting: seq<RunHandle>, views: Views, pid: Pid, v: View)
    requires ClaimsOk(db, waiting, views) && (v.claim.Some? ==> ClaimOk(db, v.claim.value, v.launched))
    ensures ClaimsOk(db, waiting, views[pid := v])
  {
  }

  lemma GotoKeeps(s: State, pid: Pid, p: Proc)
    requires Inv(s) && LocalsOk(s.db, p) && Narrower(ViewsOf(s.procs), pid, ViewOf(p))
    requires ViewOf(p).claim.Some? ==> ViewOf(p).launched == ViewOf(s.procs[pid]).launched
    ensures Inv(Goto(s, pid, p))
  {
    var c, v := ControlOf(s), ViewOf(p);
    ViewsGoto(s.procs, pid, p);
    MoveKeeps(c, pid, v);
    ClaimsGoto(s.db, Waiting(c), c.views, pid, v);
    assert ControlOf(Goto(s, pid, p)) == c.(views := c.views[pid := v]);
  }

  lemma ExitKeeps(s: State, pid: Pid)
    requires Inv(s) && pid in s.procs
    requires ViewOf(s.procs[pid]).section.None? && !ViewOf(s.procs[pid]).executor
    ensures Inv(Exit(s, pid))
  {
    var c := ControlOf(s);
    ViewsExit(s.procs, pid);
    DropKeeps(c, pid);
    assert ControlOf(Exit(s, pid)) == c.(views := c.views - {pid});
  }

  lemma SpawnKeeps(s: State, p: Proc)
    requires Inv(s) && LocalsOk(s.db, p) && Fresh(ControlOf(s), ViewOf(p))
    ensures Inv(Spawn(s, p))
  {
    var c, v := ControlOf(s), ViewOf(p);
    ViewsGoto(s.procs, s.nextPid, p);
    AddKeeps(c, v);
    ClaimsGoto(s.db, Waiting(c), c.views, s.nextPid, v);
    assert ControlOf(Spawn(s, p)) == c.(views := c.views[c.nextPid := v], nextPid := c.nextPid + 1);
  }

  // Changing the database under all activities

  lemma SetDb(s: State, db': Db)
    requires Inv(s) && DbOk(db') && ProcsOk(db', s.procs)
    requires ClaimsOk(db', Waiting(ControlOf(s)), ViewsOf(s.procs))
    ensures Inv(s.(db := db'))
  {
    assert ControlOf(s.(db := db')) == ControlOf(s);
  }

  lemma SetScheduleKeeps(s: State, schedule: map<TaskId, bool>)
    requires Inv(s)
    ensures Inv(s.(schedule := schedule))
  {
    assert ControlOf(s.(schedule := schedule)) == ControlOf(s);
  }

  lemma SameLimitsKeeps(s: State, db': Db)
    requires Inv(s) && SameLimits(s.db, db')
    ensures Inv(s.(db := db'))
  {
    SameLimitsDb(s.db, db');
    forall pid | pid in s.procs ensures LocalsOk(db', s.procs[pid]) {
      SameLimitsLocals(s.db, db', s.procs[pid]);
    }
    SetDb(s, db');
  }

  lemma SetActiveKeeps(s: State, t: TaskId, value: bool)
    requires Inv(s)
    ensures Inv(s.(db := SetActive(s.db, t, value)))
  {
    hide Inv;
    SetActiveSame(s.db, t, value);
    SameLimitsKeeps(s, SetActive(s.db, t, value));
  }

  lemma WriteConfigKeeps(s: State, t: TaskId, limit: Option<int>, body: nat)
    requires Inv(s) && Known(s.db, t, limit)
    ensures Inv(s.(db := WriteConfig(s.db, t, limit, body)))
  {
    hide Inv, HistoryOk;
    Parts(s);
    WriteConfigSame(s.db, t, limit, body);
    SameLimitsKeeps(s, WriteConfig(s.db, t, limit, body));
  }

  lemma InsertTaskKeeps(s: State, limit: Option<int>, body: nat)
    requires Inv(s)
    ensures Inv(s.(db := InsertTask(s.db, limit, body)))
  {
    var db' := InsertTask(s.db, limit, body);
    InsertTaskDb(s.db, limit, body);
    forall pid | pid in s.procs ensures LocalsOk(db', s.procs[pid]) {
      InsertTaskLocals(s.db, limit, body, s.procs[pid]);
    }
    SetDb(s, db');
  }

  lemma RemoveTaskKeeps(s: State, t: TaskId)
    requires Inv(s)
    ensures Inv(s.(db := RemoveTask(s.db, t)))
  {
    var db', waiting, views := RemoveTask(s.db, t), Waiting(ControlOf(s)), ViewsOf(s.procs);
    RemoveTaskDb(s.db, t);
    forall pid | pid in s.procs ensures LocalsOk(db', s.procs[pid]) {
      RemoveTaskLocals(s.db, t, s.procs[pid]);
    }
    forall i | 0 <= i < |waiting| ensures ClaimOk(db', waiting[i], false) {
      RemoveTaskClaim(s.db, t, waiting[i], false);
    }
    forall pid | pid in views && views[pid].claim.Some?
      ensures ClaimOk(db', views[pid].claim.value, views[pid].launched)
    {
      RemoveTaskClaim(s.db, t, views[pid].claim.value, views[pid].launched);
    }
    SetDb(s, db');
  }

  lemma StopAllRunsKeeps(s: State, t: TaskId, now: Time)
    requires Inv(s)
    ensures Inv(s.(db := StopAllRuns(s.db, t, now)))
  {
    var db', waiting, views := StopAllRuns(s.db, t, now), Waiting(ControlOf(s)), ViewsOf(s.procs);
    StopAllRunsDb(s.db, t, now);
    forall pid | pid in s.procs ensures LocalsOk(db', s.procs[pid]) {
      SameRowsLocals(s.db, db', s.procs[pid]);
    }
    forall i | 0 <= i < |waiting| ensures ClaimOk(db', waiting[i], false) {
      StopAllRunsClaim(s.db, t, now, waiting[i], false);
    }
    forall pid | pid in views && views[pid].claim.Some?
      ensures ClaimOk(db', views[pid].claim.value, views[pid].launched)
    {
      StopAllRunsClaim(s.db, t, now, views[pid].claim.value, views[pid].launched);
    }
    SetDb(s, db');
  }

  // Changing the database together with the activity that does it

  lemma ClaimsReplace(db: Db, waiting: seq<RunHandle>, views: Views, pid: Pid, v: View)
    requires ClaimsOk(db, waiting, views - {pid}) && (v.claim.Some? ==> ClaimOk(db, v.claim.value, v.launched))
    ensures ClaimsOk(db, waiting, views[pid := v])
  {
    var views' := views[pid := v];
    forall q | q in views' && views'[q].claim.Some? ensures ClaimOk(db, views'[q].claim.value, views'[q].launched) {
      assert q == pid || (q in views - {pid} && views'[q] == (views - {pid})[q]);
    }
  }

  lemma GotoWith(s: State, db': Db, pid: Pid, p: Proc)
    requires DbOk(db') && ProcsOk(db', s.procs[pid := p])
    requires ClaimsOk(db', Waiting(ControlOf(s)), ViewsOf(s.procs)[pid := ViewOf(p)])
    requires ControlOk(ControlOf(s).(views := ViewsOf(s.procs)[pid := ViewOf(p)]))
    ensures Inv(Goto(s.(db := db'), pid, p))
  {
    ViewsGoto(s.procs, pid, p);
    assert ControlOf(Goto(s.(db := db'), pid, p)) == ControlOf(s).(views := ViewsOf(s.procs)[pid := ViewOf(p)]);
  }

  lemma FreshUnclaimed(s: State)
    requires Inv(s)
    ensures Unclaimed(Waiting(ControlOf(s)), ViewsOf(s.procs), s.db.nextRun)
  {
  }

  lemma InsertRunClaims(db: Db, t: TaskId, rank: Rank, now: Time, waiting: seq<RunHandle>, views: Views)
    requires HistoryOk(db) && ClaimsOk(db, waiting, views)
    ensures ClaimsOk(InsertRun(db, t, rank, now), waiting, views)
  {
    forall i | 0 <= i < |waiting| ensures ClaimOk(InsertRun(db, t, rank, now), waiting[i], false) {
      InsertRunClaim(db, t, rank, now, waiting[i], false);
    }
    forall q | q in views && views[q].claim.Some?
      ensures ClaimOk(InsertRun(db, t, rank, now), views[q].claim.value, views[q].launched)
    {
      InsertRunClaim(db, t, rank, now, views[q].claim.value, views[q].launched);
    }
  }

  /** The lock at work: no other activity is about to insert a run of the same task. */
  lemma InsertRunProcs(db: Db, procs: map<Pid, Proc>, locks: set<string>, pid: Pid, t: TaskId, rank: Rank, now: Time,
                       p: Proc)
    requires HistoryOk(db) && RowsOk(db) && ProcsOk(db, procs) && LocksOk(locks, ViewsOf(procs))
    requires pid in procs && procs[pid].CallbackInsert? && procs[pid].t == t && LocalsOk(InsertRun(db, t, rank, now), p)
    ensures ProcsOk(InsertRun(db, t, rank, now), procs[pid := p])
  {
    var views := ViewsOf(procs);
    assert views[pid].section == Some(t);
    forall q | q in procs && q != pid ensures LocalsOk(InsertRun(db, t, rank, now), procs[q]) {
      assert !Holds(views[q], Label(t));
      InsertRunLocals(db, t, rank, now, procs[q]);
    }
  }

  lemma InsertRunKeeps(s: State, pid: Pid, t: TaskId, limit: Option<int>, rank: Rank, now: Time)
    requires Inv(s) && pid in s.procs && s.procs[pid] == CallbackInsert(t, limit, rank) && t in s.db.tasks
    ensures Inv(Goto(s.(db := InsertRun(s.db, t, rank, now)), pid,
                     CallbackLeave(t, Registered(RunHandle(t, s.db.nextRun, rank)))))
  {
    var db', c := InsertRun(s.db, t, rank, now), ControlOf(s);
    var p := CallbackLeave(t, Registered(RunHandle(t, s.db.nextRun, rank)));
    assert LocalsOk(s.db, s.procs[pid]);
    InsertRunDb(s.db, t, limit, rank, now);
    InsertRunProcs(s.db, s.procs, s.locks, pid, t, rank, now, p);
    InsertRunClaims(s.db, t, rank, now, Waiting(c), c.views);
    ClaimsGoto(db', Waiting(c), c.views, pid, ViewOf(p));
    FreshUnclaimed(s);
    BirthKeeps(c, pid, ViewOf(p));
    GotoWith(s, db', pid, p);
  }

  lemma SameRowsProcs(db: Db, db': Db, procs: map<Pid, Proc>, pid: Pid, p: Proc)
    requires SameRows(db, db') && ProcsOk(db, procs) && LocalsOk(db', p)
    ensures ProcsOk(db', procs[pid := p])
  {
    forall q | q in procs ensures LocalsOk(db', procs[q]) {
      SameRowsLocals(db, db', procs[q]);
    }
  }

  /** Uniqueness at work: the row of run `h` matters to no other claim. */
  lemma OthersClaimOthers(waiting: seq<RunHandle>, views: Views, pid: Pid, h: RunHandle)
    requires ClaimsUnique(waiting, views) && pid in views && views[pid].claim == Some(h)
    ensures Unclaimed(waiting, views - {pid}, h.runId)
  {
    assert Claims(views[pid], h.runId);
  }

  lemma LaunchRunClaims(db: Db, h: RunHandle, handleId: string, now: Time, waiting: seq<RunHandle>, views: Views)
    requires ClaimsOk(db, waiting, views) && Unclaimed(waiting, views, h.runId)
    ensures ClaimsOk(LaunchRun(db, h, handleId, now), waiting, views)
  {
    forall i | 0 <= i < |waiting| ensures ClaimOk(LaunchRun(db, h, handleId, now), waiting[i], false) {
      LaunchRunClaim(db, h, handleId, now, waiting[i], false);
    }
    forall q | q in views && views[q].claim.Some?
      ensures ClaimOk(LaunchRun(db, h, handleId, now), views[q].claim.value, views[q].launched)
    {
      assert !Claims(views[q], h.runId);
      LaunchRunClaim(db, h, handleId, now, views[q].claim.value, views[q].launched);
    }
  }

  lemma FinishRunClaims(db: Db, h: RunHandle, success: bool, now: Time, waiting: seq<RunHandle>, views: Views)
    requires ClaimsOk(db, waiting, views) && Unclaimed(waiting, views, h.runId)
    ensures ClaimsOk(FinishRun(db, h, success, now), waiting, views)
  {
    forall i | 0 <= i < |waiting| ensures ClaimOk(FinishRun(db, h, success, now), waiting[i], false) {
      FinishRunClaim(db, h, success, now, waiting[i], false);
    }
    forall q | q in views && views[q].claim.Some?
      ensures ClaimOk(FinishRun(db, h, success, now), views[q].claim.value, views[q].launched)
    {
      assert !Claims(views[q], h.runId);
      FinishRunClaim(db, h, success, now, views[q].claim.value, views[q].launched);
    }
  }

  lemma WithoutClaims(db: Db, waiting: seq<RunHandle>, views: Views, pid: Pid)
    requires ClaimsOk(db, waiting, views)
    ensures ClaimsOk(db, waiting, views - {pid})
  {
  }

  lemma ClaimOf(s: State, pid: Pid)
    requires Inv(s) && pid in s.procs && ViewOf(s.procs[pid]).claim.Some?
    ensures ClaimOk(s.db, ViewOf(s.procs[pid]).claim.value, ViewOf(s.procs[pid]).launched)
    ensures Unclaimed(Waiting(ControlOf(s)), ViewsOf(s.procs) - {pid}, ViewOf(s.procs[pid]).claim.value.runId)
    ensures ClaimsOk(s.db, Waiting(ControlOf(s)), ViewsOf(s.procs) - {pid})
  {
    var views := ViewsOf(s.procs);
    assert views[pid] == ViewOf(s.procs[pid]);
    OthersClaimOthers(Waiting(ControlOf(s)), views, pid, views[pid].claim.value);
    WithoutClaims(s.db, Waiting(ControlOf(s)), views, pid);
  }

  lemma ClaimStepKeeps(s: State, db': Db, pid: Pid, p: Proc)
    requires Inv(s) && DbOk(db') && ProcsOk(db', s.procs[pid := p])
    requires ClaimsOk(db', Waiting(ControlOf(s)), ViewsOf(s.procs) - {pid})
    requires ViewOf(p).claim.Some? ==> ClaimOk(db', ViewOf(p).claim.value, ViewOf(p).launched)
    requires Narrower(ViewsOf(s.procs), pid, ViewOf(p))
    ensures Inv(Goto(s.(db := db'), pid, p))
  {
    var c := ControlOf(s);
    ClaimsReplace(db', Waiting(c), c.views, pid, ViewOf(p));
    MoveKeeps(c, pid, ViewOf(p));
    GotoWith(s, db', pid, p);
  }

  lemma LaunchRunData(s: State, pid: Pid, h: RunHandle, limit: Option<int>, handleId: string, now: Time)
    requires Inv(s) && pid in s.procs && s.procs[pid] == ExecStart(h, limit, handleId)
    ensures var db', p := LaunchRun(s.db, h, handleId, now), ExecWait(h, limit);
            && DbOk(db') && ProcsOk(db', s.procs[pid := p])
            && ClaimsOk(db', Waiting(ControlOf(s)), ViewsOf(s.procs) - {pid})
            && ClaimOk(db', h, true)
  {
    var db', p := LaunchRun(s.db, h, handleId, now), ExecWait(h, limit);
    ClaimOf(s, pid);
    LaunchRunDb(s.db, h, handleId, now);
    SameRowsProcs(s.db, db', s.procs, pid, p);
    LaunchRunClaims(s.db, h, handleId, now, Waiting(ControlOf(s)), ViewsOf(s.procs) - {pid});
  }

  lemma LaunchRunKeeps(s: State, pid: Pid, h: RunHandle, limit: Option<int>, handleId: string, now: Time)
    requires Inv(s) && pid in s.procs && s.procs[pid] == ExecStart(h, limit, handleId)
    ensures Inv(Goto(s.(db := LaunchRun(s.db, h, handleId, now)), pid, ExecWait(h, limit)))
  {
    hide Inv;
    LaunchRunData(s, pid, h, limit, handleId, now);
    ClaimStepKeeps(s, LaunchRun(s.db, h, handleId, now), pid, ExecWait(h, limit));
  }

  lemma FinishRunData(s: State, pid: Pid, h: RunHandle, limit: Option<int>, success: bool, now: Time)
    requires Inv(s) && pid in s.procs && s.procs[pid] == ExecFinish(h, limit, success)
    ensures var db', p := FinishRun(s.db, h, success, now), ExecDeleteEnv(h, limit);
            && DbOk(db') && ProcsOk(db', s.procs[pid := p])
            && ClaimsOk(db', Waiting(ControlOf(s)), ViewsOf(s.procs) - {pid})
            && ViewOf(p).claim.None?
  {
    var db', p := FinishRun(s.db, h, success, now), ExecDeleteEnv(h, limit);
    ClaimOf(s, pid);
    FinishRunDb(s.db, h, success, now);
    SameRowsProcs(s.db, db', s.procs, pid, p);
    FinishRunClaims(s.db, h, success, now, Waiting(ControlOf(s)), ViewsOf(s.procs) - {pid});
  }

  lemma FinishRunKeeps(s: State, pid: Pid, h: RunHandle, limit: Option<int>, success: bool, now: Time)
    requires Inv(s) && pid in s.procs && s.procs[pid] == ExecFinish(h, limit, success)
    ensures Inv(Goto(s.(db := FinishRun(s.db, h, success, now)), pid, ExecDeleteEnv(h, limit)))
  {
    hide Inv;
    FinishRunData(s, pid, h, limit, success, now);
    ClaimStepKeeps(s, FinishRun(s.db, h, success, now), pid, ExecDeleteEnv(h, limit));
  }

  // The queue

  lemma ClaimsStart(db: Db, waiting: seq<RunHandle>, views: Views, pid: Pid)
    requires ClaimsOk(db, waiting, views) && waiting != []
    ensures ClaimsOk(db, waiting[1..], views[pid := ExecutorView(Some(waiting[0]), false)])
  {
  }

  /** `ExecuteNext` on the engine is `StartNext` on its control part. */
  lemma ExecuteNextControl(s: State)
    ensures ControlOf(ExecuteNext(s)) == StartNext(ControlOf(s))
    ensures Waiting(ControlOf(ExecuteNext(s))) == Waiting(ControlOf(s)) ||
            (s.queue != [] && Waiting(ControlOf(s)) != [] && s.queue[0] == Waiting(ControlOf(s))[0] &&
             Waiting(ControlOf(ExecuteNext(s))) == Waiting(ControlOf(s))[1..])
  {
    if Queue.CanStart(s.running, s.maxConcurrency, |s.queue|) {
      ViewsGoto(s.procs, s.nextPid, ExecRead(s.queue[0]));
      assert Waiting(ControlOf(ExecuteNext(s))) == Waiting(ControlOf(s))[1..];
    }
  }

  lemma ExecuteNextClaims(s: State)
    requires ClaimsOk(s.db, Waiting(ControlOf(s)), ViewsOf(s.procs))
    ensures ClaimsOk(s.db, Waiting(ControlOf(ExecuteNext(s))), ViewsOf(ExecuteNext(s).procs))
  {
    if Queue.CanStart(s.running, s.maxConcurrency, |s.queue|) {
      var c := ControlOf(s);
      ViewsGoto(s.procs, s.nextPid, ExecRead(s.queue[0]));
      assert Waiting(c)[0] == s.queue[0];
      assert Waiting(ControlOf(ExecuteNext(s))) == Waiting(c)[1..];
      ClaimsStart(s.db, Waiting(c), c.views, s.nextPid);
    }
  }

  lemma ExecuteNextProcs(s: State)
    requires ProcsOk(s.db, s.procs)
    ensures ExecuteNext(s).db == s.db && ProcsOk(s.db, ExecuteNext(s).procs)
  {
  }

  lemma ExecuteNextKeeps(s: State)
    requires DbOk(s.db) && ProcsOk(s.db, s.procs) && ClaimsOk(s.db, Waiting(ControlOf(s)), ViewsOf(s.procs))
    requires ControlOk(StartNext(ControlOf(s)))
    ensures Inv(ExecuteNext(s))
  {
    hide DbOk, ProcsOk, ClaimsOk, ControlOk, ControlOf, StartNext, Waiting, ViewsOf, ExecuteNext;
    ExecuteNextControl(s);
    ExecuteNextClaims(s);
    ExecuteNextProcs(s);
  }

  lemma ClaimsHandOver(db: Db, before: seq<RunHandle>, h: RunHandle, after: seq<RunHandle>, views: Views, pid: Pid)
    requires ClaimsOk(db, before + after, views) && ClaimOk(db, h, false)
    ensures ClaimsOk(db, before + [h] + after, views - {pid})
  {
    var w, w' := before + after, before + [h] + after;
    forall i | 0 <= i < |w'| ensures ClaimOk(db, w'[i], false) {
      if i != |before| {
        assert w'[i] == w[if i < |before| then i else i - 1];
      }
    }
  }

  lemma EnqueueKeeps(s: State, pid: Pid, h: RunHandle)
    requires Inv(s) && pid in s.procs && s.procs[pid] == CallbackEnqueue(h)
    ensures Inv(Enqueue(Exit(s, pid), h))
  {
    var c, s1, pending := ControlOf(s), Exit(s, pid).(queue := s.queue + [h]), BootPending(s.server);
    ViewsExit(s.procs, pid);
    assert ControlOf(s1) == c.(queue := c.queue + [h], views := c.views - {pid});
    ClaimOf(s, pid);
    HandOverKeeps(c, pid, h);
    assert Waiting(c) == s.queue + pending && Waiting(ControlOf(s1)) == s.queue + [h] + pending;
    ClaimsHandOver(s.db, s.queue, h, pending, c.views, pid);
    ExecuteNextKeeps(s1);
  }

  lemma DoneKeeps(s: State, pid: Pid, h: RunHandle)
    requires Inv(s) && pid in s.procs && s.procs[pid] == ExecDone(h)
    ensures Inv(ExecuteNext(Exit(s, pid).(running := s.running - 1)))
  {
    var c, s1 := ControlOf(s), Exit(s, pid).(running := s.running - 1);
    ViewsExit(s.procs, pid);
    assert ControlOf(s1) == c.(running := c.running - 1, views := c.views - {pid});
    SettleKeeps(c, pid);
    assert Waiting(ControlOf(s1)) == Waiting(c);
    ExecuteNextKeeps(s1);
  }

  // The lock

  lemma EnterSectionKeeps(s: State, pid: Pid, t: TaskId, limit: Option<int>, retry: nat, p: Proc)
    requires Inv(s) && pid in s.procs && s.procs[pid] == CallbackLock(t, limit, retry) && Label(t) !in s.locks
    requires p == if limit.None? then CallbackInsert(t, None, Unbounded) else CallbackCount(t, limit.value)
    ensures Inv(Goto(s.(locks := s.locks + {Label(t)}), pid, p))
  {
    var s', c, v := Goto(s.(locks := s.locks + {Label(t)}), pid, p), ControlOf(s), ViewOf(p);
    assert LocalsOk(s.db, s.procs[pid]);
    ViewsGoto(s.procs, pid, p);
    EnterKeeps(c, pid, v);
    ClaimsGoto(s.db, Waiting(c), c.views, pid, v);
    assert ControlOf(s') == c.(locks := c.locks + {Label(t)}, views := c.views[pid := v]);
    assert Waiting(ControlOf(s')) == Waiting(c);
  }

  lemma LeaveSectionKeeps(s: State, pid: Pid, t: TaskId, outcome: Registration, p: Proc)
    requires Inv(s) && pid in s.procs && s.procs[pid] == CallbackLeave(t, outcome)
    requires p == (match outcome case Registered(h) => CallbackEnqueue(h)
                                 case Rejected => CallbackUnschedule(t)
                                 case Errored => CallbackUnschedule(t))
    ensures Inv(Goto(s.(locks := s.locks - {Label(t)}), pid, p))
  {
    var s', c, v := Goto(s.(locks := s.locks - {Label(t)}), pid, p), ControlOf(s), ViewOf(p);
    ViewsGoto(s.procs, pid, p);
    assert c.views[pid].section == Some(t);
    LeaveKeeps(c, pid, v);
    ClaimsGoto(s.db, Waiting(c), c.views, pid, v);
    assert ControlOf(s') == c.(locks := c.locks - {Label(t)}, views := c.views[pid := v]);
    assert Waiting(ControlOf(s')) == Waiting(c);
  }

  // Resuming an activity

  lemma Parts(s: State)
    requires Inv(s)
    ensures ControlOk(ControlOf(s)) && HistoryOk(s.db)
    ensures forall t :: t in s.db.tasks ==> Known(s.db, t, s.db.tasks[t].times)
  {
  }

  lemma LocalsOf(s: State, pid: Pid)
    requires Inv(s) && pid in s.procs
    ensures LocalsOk(s.db, s.procs[pid]) && pid < s.nextPid
  {
    assert pid in ViewsOf(s.procs);
  }

  lemma CallbackKeeps(s: State, pid: Pid, o: Oracle)
    requires Inv(s) && pid in s.procs
    requires var p := s.procs[pid]; p.CallbackRead? || p.CallbackLock? || p.CallbackCount? || p.CallbackUnschedule?
    ensures Inv(CallbackStep(s, pid, s.procs[pid], o))
  {
    hide Inv;
    var p := s.procs[pid];
    LocalsOf(s, pid);
    match p
    case CallbackRead(t) =>
      if o.ok && IsActive(s.db, t) {
        Parts(s);
        GotoKeeps(s, pid, CallbackLock(t, s.db.tasks[t].times, 0));
      } else {
        ExitKeeps(s, pid);
      }
    case CallbackLock(t, limit, retry) =>
      match Mutex.Test(s.locks, Label(t), retry, Mutex.RETRY_NUMBER) {
        case GaveUp => ExitKeeps(s, pid);
        case Busy => GotoKeeps(s, pid, CallbackLock(t, limit, retry + 1));
        case Entered => EnterSectionKeeps(s, pid, t, limit, retry,
          if limit.None? then CallbackInsert(t, None, Unbounded) else CallbackCount(t, limit.value));
      }
    case CallbackCount(t, bound) => CountKeeps(s, pid, t, bound, o.ok);
    case CallbackUnschedule(t) =>
      SetScheduleKeeps(s, StopEntry(s, t).schedule);
      ExitKeeps(StopEntry(s, t), pid);
  }

  lemma CountKeeps(s: State, pid: Pid, t: TaskId, bound: int, ok: bool)
    requires Inv(s) && pid in s.procs && s.procs[pid] == CallbackCount(t, bound)
    ensures Inv(Goto(s, pid, CallbackLeave(t, Errored))) && Inv(Goto(s, pid, CallbackLeave(t, Rejected)))
    ensures Count(s.db.runs, t) < bound ==>
              Inv(Goto(s, pid, CallbackInsert(t, Some(bound), Ranked(Count(s.db.runs, t) + 1))))
  {
    hide Inv;
    LocalsOf(s, pid);
    GotoKeeps(s, pid, CallbackLeave(t, Errored));
    GotoKeeps(s, pid, CallbackLeave(t, Rejected));
    if Count(s.db.runs, t) < bound {
      GotoKeeps(s, pid, CallbackInsert(t, Some(bound), Ranked(Count(s.db.runs, t) + 1)));
    }
  }

  lemma SectionKeeps(s: State, pid: Pid, o: Oracle)
    requires Inv(s) && pid in s.procs
    requires var p := s.procs[pid]; p.CallbackInsert? || p.CallbackLeave? || p.CallbackEnqueue?
    ensures Inv(CallbackStep(s, pid, s.procs[pid], o))
  {
    hide Inv;
    var p := s.procs[pid];
    match p
    case CallbackInsert(t, limit, rank) =>
      if o.ok && t in s.db.tasks {
        InsertRunKeeps(s, pid, t, limit, rank, o.now);
      } else {
        GotoKeeps(s, pid, CallbackLeave(t, Errored));
      }
    case CallbackLeave(t, outcome) =>
      var q := match outcome case Registered(h) => CallbackEnqueue(h)
                             case Rejected => CallbackUnschedule(t)
                             case Errored => CallbackUnschedule(t);
      var s1 := Goto(s.(locks := s.locks - {Label(t)}), pid, q);
      LeaveSectionKeeps(s, pid, t, outcome, q);
      if outcome.Errored? {
        ExitKeeps(s1, pid);
        assert s1.procs - {pid} == s.procs - {pid};
      }
    case CallbackEnqueue(h) => EnqueueKeeps(s, pid, h);
  }

  lemma FailKeeps(s: State, pid: Pid, h: RunHandle)
    requires Inv(s) && pid in s.procs
    requires var v := ViewOf(s.procs[pid]); v.executor && v.section.None? && v.callback.None?
    ensures Inv(Fail(s, pid, h))
  {
    hide Inv;
    GotoKeeps(s, pid, StopRead(h.taskId, ByExecutor(h)));
  }

  lemma ExecKeeps(s: State, pid: Pid, o: Oracle)
    requires Inv(s) && pid in s.procs
    requires var p := s.procs[pid]; p.ExecRead? || p.ExecLaunchEnv? || p.ExecStart? || p.ExecWait? || p.ExecFinish?
    ensures Inv(ExecStep(s, pid, s.procs[pid], o))
  {
    hide Inv;
    var p := s.procs[pid];
    if !o.ok {
      FailKeeps(s, pid, p.h);
    } else {
      match p
      case ExecRead(h) =>
        if IsActive(s.db, h.taskId) {
          GotoKeeps(s, pid, ExecLaunchEnv(h, s.db.tasks[h.taskId].times));
        } else {
          GotoKeeps(s, pid, ExecDone(h));
        }
      case ExecLaunchEnv(h, limit) => GotoKeeps(s, pid, ExecStart(h, limit, o.handleId));
      case ExecStart(h, limit, handleId) => LaunchRunKeeps(s, pid, h, limit, handleId, o.now);
      case ExecWait(h, limit) => GotoKeeps(s, pid, ExecFinish(h, limit, o.exitCode == 0));
      case ExecFinish(h, limit, success) => FinishRunKeeps(s, pid, h, limit, success, o.now);
    }
  }

  lemma ExecTailKeeps(s: State, pid: Pid, o: Oracle)
    requires Inv(s) && pid in s.procs
    requires var p := s.procs[pid]; p.ExecDeleteEnv? || p.ExecSystemStop? || p.ExecDeactivate? || p.ExecDone?
    ensures Inv(ExecStep(s, pid, s.procs[pid], o))
  {
    hide Inv, SetActive;
    match s.procs[pid]
    case ExecDeleteEnv(h, limit) =>
      FailKeeps(s, pid, h);
      GotoKeeps(s, pid, ExecDone(h));
      GotoKeeps(s, pid, ExecSystemStop(h));
    case ExecSystemStop(h) =>
      var s1 := StopEntry(s, h.taskId);
      SetScheduleKeeps(s, s1.schedule);
      FailKeeps(s1, pid, h);
      GotoKeeps(s1, pid, ExecDeactivate(h));
    case ExecDeactivate(h) =>
      SetActiveKeeps(s, h.taskId, false);
      GotoKeeps(s.(db := SetActive(s.db, h.taskId, false)), pid, ExecDone(h));
      FailKeeps(s, pid, h);
    case ExecDone(h) => DoneKeeps(s, pid, h);
  }

  lemma EndOfStopKeeps(s: State, pid: Pid, caller: Caller)
    requires Inv(s) && pid in s.procs
    requires ViewOf(s.procs[pid]) == NO_VIEW.(executor := caller.ByExecutor?)
    ensures Inv(EndOfStop(s, pid, caller))
  {
    hide Inv;
    match caller
    case ByRequest => ExitKeeps(s, pid);
    case ByExecutor(h) => GotoKeeps(s, pid, ExecDone(h));
  }

  lemma StopKeeps(s: State, pid: Pid, o: Oracle)
    requires Inv(s) && pid in s.procs
    requires IsStop(s.procs[pid])
    ensures Inv(StopStep(s, pid, s.procs[pid], o))
  {
    hide Inv, SetActive, StopAllRuns;
    match s.procs[pid]
    case StopRead(t, caller) =>
      EndOfStopKeeps(s, pid, caller);
      GotoKeeps(s, pid, StopDeactivate(t, caller));
    case StopDeactivate(t, caller) =>
      EndOfStopKeeps(s, pid, caller);
      SetActiveKeeps(s, t, false);
      GotoKeeps(s.(db := SetActive(s.db, t, false)), pid, StopExecutable(t, caller));
    case StopExecutable(t, caller) =>
      var s1 := StopEntry(s, t);
      SetScheduleKeeps(s, s1.schedule);
      EndOfStopKeeps(s1, pid, caller);
      GotoKeeps(s1, pid, StopRuns(t, caller));
    case StopRuns(t, caller) =>
      StopAllRunsKeeps(s, t, o.now);
      EndOfStopKeeps(s.(db := StopAllRuns(s.db, t, o.now)), pid, caller);
      EndOfStopKeeps(s, pid, caller);
  }

  lemma NewJobKeeps(s: State, t: TaskId)
    requires Inv(s) && !s.server.Down? && !s.server.Finding? && t !in Outstanding(s.server)
    ensures Inv(s.(schedule := s.schedule[t := false], jobs := s.jobs + {t}))
  {
    hide ControlOk;
    var s1 := s.(schedule := s.schedule[t := false], jobs := s.jobs + {t});
    JobKeeps(ControlOf(s), t);
    assert ControlOf(s1) == ControlOf(s).(jobs := s.jobs + {t});
    assert Waiting(ControlOf(s1)) == Waiting(ControlOf(s));
  }

  lemma ScheduleEntryKeeps(s: State, t: TaskId)
    requires Inv(s) && !s.server.Down? && !s.server.Finding? && t !in Outstanding(s.server)
    ensures Inv(ScheduleEntry(s, t))
  {
    hide Inv;
    NewJobKeeps(s, t);
    SpawnKeeps(s.(schedule := s.schedule[t := false], jobs := s.jobs + {t}), BuildEnv(t));
  }

  lemma ContinueKeeps(s: State, pid: Pid, t: TaskId, andThen: Then)
    requires Inv(s) && pid in s.procs && ViewOf(s.procs[pid]) == NO_VIEW.(requestOnly := true)
    requires andThen.Write? ==> Known(s.db, t, andThen.limit)
    ensures Inv(Continue(s, pid, t, andThen))
  {
    hide Inv;
    match andThen
    case Nothing => ExitKeeps(s, pid);
    case Activate => GotoKeeps(s, pid, StartActivate(t));
    case Write(limit, body) => GotoKeeps(s, pid, UpdateWrite(t, limit, body));
  }

  lemma RequestOnlyServing(s: State, pid: Pid)
    requires Inv(s) && pid in s.procs && IsRequestOnly(s.procs[pid])
    ensures s.server.Serving? && ViewOf(s.procs[pid]) == NO_VIEW.(requestOnly := true)
  {
    hide Inv, ControlOk;
    Parts(s);
    RequestsNeedServing(ControlOf(s), pid);
  }

  lemma StartKeeps(s: State, pid: Pid, o: Oracle)
    requires Inv(s) && pid in s.procs
    requires var p := s.procs[pid]; p.StartRead? || p.StartActivate?
    ensures Inv(RequestStep(s, pid, s.procs[pid], o))
  {
    hide Inv, SetActive;
    ExitKeeps(s, pid);
    match s.procs[pid]
    case StartRead(t) => GotoKeeps(s, pid, RegisterExists(t, Activate));
    case StartActivate(t) =>
      SetActiveKeeps(s, t, true);
      ExitKeeps(s.(db := SetActive(s.db, t, true)), pid);
  }

  lemma CreateDeleteKeeps(s: State, pid: Pid, o: Oracle)
    requires Inv(s) && pid in s.procs
    requires var p := s.procs[pid]; p.CreateInsert? || p.DeleteRead? || p.DeleteRow?
    ensures Inv(RequestStep(s, pid, s.procs[pid], o))
  {
    hide Inv, InsertTask, RemoveTask;
    ExitKeeps(s, pid);
    match s.procs[pid]
    case CreateInsert(limit, body) =>
      InsertTaskKeeps(s, limit, body);
      GotoKeeps(s.(db := InsertTask(s.db, limit, body)), pid, RegisterExists(s.db.nextTask, Nothing));
    case DeleteRead(t) => GotoKeeps(s, pid, DeleteExecutable(t));
    case DeleteRow(t) =>
      RemoveTaskKeeps(s, t);
      ExitKeeps(s.(db := RemoveTask(s.db, t)), pid);
  }

  lemma DropEntryKeeps(s: State, pid: Pid, t: TaskId, next: Proc)
    requires Inv(s) && pid in s.procs && ViewOf(s.procs[pid]) == ViewOf(next) == NO_VIEW.(requestOnly := true)
    requires LocalsOk(s.db, next)
    ensures Inv(Goto(s.(schedule := s.schedule - {t}), pid, next)) && Inv(Exit(s.(schedule := s.schedule - {t}), pid))
  {
    hide Inv;
    var s1 := s.(schedule := s.schedule - {t});
    SetScheduleKeeps(s, s1.schedule);
    GotoKeeps(s1, pid, next);
    ExitKeeps(s1, pid);
  }

  lemma UpdateReadKeeps(s: State, pid: Pid, o: Oracle)
    requires Inv(s) && pid in s.procs && s.procs[pid].UpdateRead?
    ensures Inv(RequestStep(s, pid, s.procs[pid], o))
  {
    hide Inv, RowsOk, LimitsOk, ProcsOk, ClaimsOk, ControlOk;
    var t, body := s.procs[pid].t, s.procs[pid].body;
    ExitKeeps(s, pid);
    if t in s.db.tasks {
      Parts(s);
      GotoKeeps(s, pid, UpdateDrop(t, s.db.tasks[t].times, body));
    }
  }

  lemma UpdateWriteKeeps(s: State, pid: Pid, o: Oracle)
    requires Inv(s) && pid in s.procs && s.procs[pid].UpdateWrite?
    ensures Inv(RequestStep(s, pid, s.procs[pid], o))
  {
    hide Inv, HistoryOk, WriteConfig;
    var UpdateWrite(t, limit, body) := s.procs[pid];
    LocalsOf(s, pid);
    ExitKeeps(s, pid);
    WriteConfigKeeps(s, t, limit, body);
    ExitKeeps(s.(db := WriteConfig(s.db, t, limit, body)), pid);
  }

  lemma DropKeepsAll(s: State, pid: Pid, o: Oracle)
    requires Inv(s) && pid in s.procs
    requires var p := s.procs[pid]; p.DeleteExecutable? || p.UpdateDrop?
    ensures Inv(RequestStep(s, pid, s.procs[pid], o))
  {
    hide Inv;
    LocalsOf(s, pid);
    match s.procs[pid]
    case DeleteExecutable(t) => DropEntryKeeps(s, pid, t, DeleteRow(t));
    case UpdateDrop(t, limit, body) => DropEntryKeeps(s, pid, t, RegisterExists(t, Write(limit, body)));
  }

  lemma RegisterKeeps(s: State, pid: Pid, o: Oracle)
    requires Inv(s) && pid in s.procs
    requires var p := s.procs[pid]; p.RegisterExists? || p.RegisterSchedule?
    ensures Inv(RequestStep(s, pid, s.procs[pid], o))
  {
    hide Inv;
    RequestOnlyServing(s, pid);
    LocalsOf(s, pid);
    match s.procs[pid]
    case RegisterExists(t, andThen) =>
      ContinueKeeps(s, pid, t, andThen);
      GotoKeeps(s, pid, RegisterSchedule(t, andThen));
    case RegisterSchedule(t, andThen) =>
      ScheduleEntryKeeps(s, t);
      ContinueKeeps(ScheduleEntry(s, t), pid, t, andThen);
  }

  lemma ResumeKeeps(s: State, pid: Pid, o: Oracle)
    requires Inv(s) && pid in s.procs
    ensures Inv(ResumeStep(s, pid, o))
  {
    hide Inv;
    var p := s.procs[pid];
    if IsRequestOnly(p) {
      if p.RegisterExists? || p.RegisterSchedule? {
        RegisterKeeps(s, pid, o);
      } else if p.DeleteExecutable? || p.UpdateDrop? {
        DropKeepsAll(s, pid, o);
      } else if p.UpdateRead? {
        UpdateReadKeeps(s, pid, o);
      } else if p.UpdateWrite? {
        UpdateWriteKeeps(s, pid, o);
      } else if p.StartRead? || p.StartActivate? {
        StartKeeps(s, pid, o);
      } else {
        CreateDeleteKeeps(s, pid, o);
      }
    } else if IsStop(p) {
      StopKeeps(s, pid, o);
    } else if p.BuildEnv? {
      ExitKeeps(s, pid);
      SetScheduleKeeps(s, s.schedule[p.t := true]);
      ExitKeeps(s.(schedule := s.schedule[p.t := true]), pid);
    } else if p.CallbackInsert? || p.CallbackLeave? || p.CallbackEnqueue? {
      SectionKeeps(s, pid, o);
    } else if p.CallbackRead? || p.CallbackLock? || p.CallbackCount? || p.CallbackUnschedule? {
      CallbackKeeps(s, pid, o);
    } else if p.ExecRead? || p.ExecLaunchEnv? || p.ExecStart? || p.ExecWait? || p.ExecFinish? {
      ExecKeeps(s, pid, o);
    } else {
      ExecTailKeeps(s, pid, o);
    }
  }

  // The server itself

  lemma BootStepKeeps(s: State, o: Oracle)
    requires Inv(s)
    ensures Inv(BootStepState(s, o))
  {
    hide Inv, ControlOk;
    var c := ControlOf(s);
    Parts(s);
    match s.server
    case Down =>
    case Serving =>
    case Finding =>
      if IsActiveList(s.db, o.tasksFound) {
        FoundKeeps(c, o.tasksFound);
        ServerMoves(s, TurnTo(o.tasksFound));
      }
    case ReadRuns(t, rest) =>
      if IsPendingList(s.db.runs, t, o.pendingFound) {
        ReadRunsKeeps(s, o.pendingFound);
      }
    case Requeue(t, pending, rest) =>
      if pending == [] {
        RequeuedKeeps(c);
        ServerMoves(s, BootExists(t, rest));
      } else {
        BootEnqueueKeeps(s);
      }
    case BootExists(t, rest) =>
      TurnKeeps(c);
      ServerMoves(s, TurnTo(rest));
      BootMissingKeeps(c);
      ServerMoves(s, BootSchedule(t, rest));
    case BootSchedule(t, rest) =>
      TurnPassed(c);
      ScheduleEntryKeeps(s, t);
      Parts(ScheduleEntry(s, t));
      TurnKeeps(ControlOf(ScheduleEntry(s, t)));
      ServerMoves(ScheduleEntry(s, t), TurnTo(rest));
  }

  lemma ServerMoves(s: State, server: Server)
    requires Inv(s) && BootPending(server) == BootPending(s.server) == []
    requires ControlOk(ControlOf(s).(server := server))
    ensures Inv(s.(server := server))
  {
    var s' := s.(server := server);
    assert ControlOf(s') == ControlOf(s).(server := server);
    assert Waiting(ControlOf(s')) == Waiting(ControlOf(s));
  }

  /** Pending rows of a task nobody has touched since the start: no claim can be on them. */
  lemma PendingUnclaimed(s: State, t: TaskId, r: RunId)
    requires Inv(s) && t in Outstanding(s.server)
    requires r in s.db.runs && s.db.runs[r].taskId == t
    ensures Unclaimed(Waiting(ControlOf(s)), ViewsOf(s.procs), r)
  {
    assert Untouched(s.jobs, Waiting(ControlOf(s)), ViewsOf(s.procs), t);
  }

  lemma ReadRunsKeeps(s: State, pending: seq<RunHandle>)
    requires Inv(s) && s.server.ReadRuns? && IsPendingList(s.db.runs, s.server.t, pending)
    ensures Inv(s.(server := Requeue(s.server.t, pending, s.server.rest)))
  {
    var s', c, t := s.(server := Requeue(s.server.t, pending, s.server.rest)), ControlOf(s), s.server.t;
    assert t in Outstanding(s.server) by {
      assert Outstanding(s.server)[0] == t;
    }
    forall i | 0 <= i < |pending| ensures Unclaimed(Waiting(c), c.views, pending[i].runId) {
      PendingUnclaimed(s, t, pending[i].runId);
    }
    ReadKeeps(c, pending);
    assert ControlOf(s') == c.(server := s'.server);
    assert Waiting(c) == s.queue && Waiting(ControlOf(s')) == s.queue + pending;
    forall i | 0 <= i < |pending| ensures ClaimOk(s.db, pending[i], false) {
      PendingClaimOk(s.db, t, pending, i);
    }
    ClaimsAppend(s.db, s.queue, pending, c.views);
  }

  lemma ClaimsAppend(db: Db, waiting: seq<RunHandle>, more: seq<RunHandle>, views: Views)
    requires ClaimsOk(db, waiting, views)
    requires forall i :: 0 <= i < |more| ==> ClaimOk(db, more[i], false)
    ensures ClaimsOk(db, waiting + more, views)
  {
  }

  lemma PendingClaimOk(db: Db, t: TaskId, pending: seq<RunHandle>, i: nat)
    requires RowsOk(db) && IsPendingList(db.runs, t, pending) && i < |pending|
    ensures ClaimOk(db, pending[i], false)
  {
  }

  lemma BootEnqueueKeeps(s: State)
    requires Inv(s) && s.server.Requeue? && s.server.pending != []
    ensures var b := s.server; Inv(Enqueue(s.(server := Requeue(b.t, b.pending[1..], b.rest)), b.pending[0]))
  {
    var b, c := s.server, ControlOf(s);
    var s1 := s.(server := Requeue(b.t, b.pending[1..], b.rest), queue := s.queue + [b.pending[0]]);
    RequeueKeeps(c);
    assert ControlOf(s1) == c.(server := s1.server, queue := s1.queue);
    assert Waiting(ControlOf(s1)) == Waiting(c);
    ExecuteNextKeeps(s1);
  }

  lemma CrashStateKeeps(s: State)
    requires Inv(s)
    ensures Inv(CrashState(s))
  {
    CrashKeeps(ControlOf(s));
    var c' := ControlOf(CrashState(s));
    assert ViewsOf(map[]) == map[];
    assert c' == ControlOf(s).(server := Down, jobs := {}, locks := {}, queue := [], running := 0, views := map[]);
    assert Waiting(c') == [];
  }

  lemma JobsMeanUp(s: State, t: TaskId)
    requires Inv(s) && t in s.jobs
    ensures !s.server.Down? && !s.server.Finding?
  {
  }

  lemma {:induction false} ApplyKeeps(s: State, a: Action)
    requires Inv(s)
    ensures Inv(Apply(s, a))
  {
    hide Inv;
    match a
    case Boot =>
      if s.server.Down? {
        Parts(s);
        BootKeeps(ControlOf(s));
        ServerMoves(s, Finding);
      }
    case BootStep(o) => BootStepKeeps(s, o);
    case Crash => CrashStateKeeps(s);
    case Tick(t) =>
      if t in s.jobs {
        JobsMeanUp(s, t);
        SpawnKeeps(s, CallbackRead(t));
      }
    case Receive(r) =>
      if s.server.Serving? {
        SpawnKeeps(s, Entry(r));
      }
    case Resume(pid, o) =>
      if pid in s.procs {
        ResumeKeeps(s, pid, o);
      }
  }

  lemma InitialOk(maxConcurrency: int)
    ensures Inv(Initial(maxConcurrency))
  {
    var s := Initial(maxConcurrency);
    assert ViewsOf(s.procs) == map[] && Executors(map[]) == {};
    assert Waiting(ControlOf(s)) == [];
    assert forall t :: EverOf(s.db, t) == {};
  }

  /** The invariant holds in every reachable state, whatever the interleaving and however often the server crashes. */
  lemma {:induction false} InvAlways(maxConcurrency: int, actions: seq<Action>)
    ensures Inv(Reached(maxConcurrency, actions))
  {
    if actions == [] {
      InitialOk(maxConcurrency);
    } else {
      InvAlways(maxConcurrency, actions[..|actions| - 1]);
      ApplyKeeps(Reached(maxConcurrency, actions[..|actions| - 1]), actions[|actions| - 1]);
    }
  }
}
