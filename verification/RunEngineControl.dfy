/**
 * The control part of the engine's invariant: which activity may start which run, who holds which lock,
 * how the queue slots are used, and what a starting server keeps quiet. It sees each activity through
 * a small view and nothing of the database.
 */
module RunEngineControl {
  import opened Prelude
  import opened RunTable
  import opened RunEngine
  import Queue = TaskQueue

  /**
   * claim: the run for which this activity alone will execute, or has executed, the `running` update
   * (`launched` tells which). section: the task whose lock it holds. callback: the task of a cron
   * callback that has not handed over its run yet. executor: it occupies a slot of the queue.
   */
  datatype View = View(claim: Option<RunHandle>, launched: bool, section: Option<TaskId>,
                       callback: Option<TaskId>, executor: bool, requestOnly: bool)

  type Views = map<Pid, View>

  function CallbackView(claim: Option<RunHandle>, section: bool, t: TaskId): View {
    View(claim, false, if section then Some(t) else None, Some(t), false, false)
  }

  function ExecutorView(claim: Option<RunHandle>, launched: bool): View {
    View(claim, launched, None, None, true, false)
  }

  const NO_VIEW := View(None, false, None, None, false, false)

  function ViewOf(p: Proc): View {
    match p
    case CallbackRead(t) => CallbackView(None, false, t)
    case CallbackLock(t, _, _) => CallbackView(None, false, t)
    case CallbackCount(t, _) => CallbackView(None, true, t)
    case CallbackInsert(t, _, _) => CallbackView(None, true, t)
    case CallbackLeave(t, outcome) => CallbackView(if outcome.Registered? then Some(outcome.h) else None, true, t)
    case CallbackUnschedule(t) => CallbackView(None, false, t)
    case CallbackEnqueue(h) => NO_VIEW.(claim := Some(h))
    case ExecRead(h) => ExecutorView(Some(h), false)
    case ExecLaunchEnv(h, _) => ExecutorView(Some(h), false)
    case ExecStart(h, _, _) => ExecutorView(Some(h), false)
    case ExecWait(h, _) => ExecutorView(Some(h), true)
    case ExecFinish(h, _, _) => ExecutorView(Some(h), true)
    case ExecDeleteEnv(_, _) => ExecutorView(None, false)
    case ExecSystemStop(_) => ExecutorView(None, false)
    case ExecDeactivate(_) => ExecutorView(None, false)
    case ExecDone(_) => ExecutorView(None, false)
    case StopRead(_, caller) => NO_VIEW.(executor := caller.ByExecutor?)
    case StopDeactivate(_, caller) => NO_VIEW.(executor := caller.ByExecutor?)
    case StopExecutable(_, caller) => NO_VIEW.(executor := caller.ByExecutor?)
    case StopRuns(_, caller) => NO_VIEW.(executor := caller.ByExecutor?)
    case BuildEnv(_) => NO_VIEW
    case _ => NO_VIEW.(requestOnly := true)
  }

  function ViewsOf(procs: map<Pid, Proc>): Views {
    map pid | pid in procs :: ViewOf(procs[pid])
  }

  function BootPending(server: Server): seq<RunHandle> {
    if server.Requeue? then server.pending else []
  }

  /** Tasks whose cron job the starting server will create only after it has read their pending runs. */
  function Outstanding(server: Server): seq<TaskId> {
    match server
    case ReadRuns(t, rest) => [t] + rest
    case Requeue(_, _, rest) => rest
    case BootExists(_, rest) => rest
    case BootSchedule(_, rest) => rest
    case _ => []
  }

  datatype Control = Control(server: Server, jobs: set<TaskId>, locks: set<string>, queue: seq<RunHandle>,
                             running: int, max: int, views: Views, nextPid: Pid)

  function ControlOf(s: State): Control {
    Control(s.server, s.jobs, s.locks, s.queue, s.running, s.maxConcurrency, ViewsOf(s.procs), s.nextPid)
  }

  /** Closures in the queue, followed by those the starting server is about to put there. */
  function Waiting(c: Control): seq<RunHandle> {
    c.queue + BootPending(c.server)
  }

  predicate Claims(v: View, r: RunId) {
    v.claim.Some? && v.claim.value.runId == r
  }

  /** At most one closure or activity per run, wherever it is. */
  ghost predicate ClaimsUnique(waiting: seq<RunHandle>, views: Views) {
    && (forall i, j :: 0 <= i < j < |waiting| ==> waiting[i].runId != waiting[j].runId)
    && (forall p, q :: p in views && q in views && p != q && views[p].claim.Some? ==>
          !Claims(views[q], views[p].claim.value.runId))
    && (forall i, p :: 0 <= i < |waiting| && p in views ==> !Claims(views[p], waiting[i].runId))
  }

  predicate Holds(v: View, key: string) {
    v.section.Some? && Label(v.section.value) == key
  }

  ghost predicate Held(views: Views, key: string) {
    exists p :: p in views && Holds(views[p], key)
  }

  /** The lock set is exactly the set of labels with a critical section in flight, at most one per label. */
  ghost predicate LocksOk(locks: set<string>, views: Views) {
    && (forall p :: p in views && views[p].section.Some? ==> Label(views[p].section.value) in locks)
    && (forall p, q :: p in views && q in views && p != q && views[p].section.Some? ==>
          !Holds(views[q], Label(views[p].section.value)))
    && (forall key :: key in locks ==> Held(views, key))
  }

  function Executors(views: Views): set<Pid> {
    set pid | pid in views && views[pid].executor
  }

  ghost predicate SlotsOk(running: int, max: int, views: Views) {
    running == |Executors(views)| && running <= Max(0, max)
  }

  ghost predicate NoIdleSlot(running: int, max: int, queue: seq<RunHandle>) {
    queue != [] ==> running >= max
  }

  ghost predicate PidsOk(views: Views, nextPid: Pid) {
    forall pid :: pid in views ==> pid < nextPid
  }

  /** Nothing moves for a task whose turn has not come while the server starts. */
  ghost predicate Untouched(jobs: set<TaskId>, waiting: seq<RunHandle>, views: Views, u: TaskId) {
    && u !in jobs
    && (forall p :: p in views ==> views[p].callback != Some(u))
    && (forall p :: p in views && views[p].claim.Some? ==> views[p].claim.value.taskId != u)
    && (forall i :: 0 <= i < |waiting| ==> waiting[i].taskId != u)
  }

  ghost predicate AllUntouched(jobs: set<TaskId>, waiting: seq<RunHandle>, views: Views, us: seq<TaskId>) {
    forall u :: u in us ==> Untouched(jobs, waiting, views, u)
  }

  ghost predicate Distinct(us: seq<TaskId>) {
    forall i, j :: 0 <= i < j < |us| ==> us[i] != us[j]
  }

  ghost predicate NoRequests(views: Views) {
    forall p :: p in views ==> !views[p].requestOnly
  }

  ghost predicate BootOk(server: Server, jobs: set<TaskId>, waiting: seq<RunHandle>, views: Views) {
    && (server.Down? || server.Finding? ==> views == map[] && waiting == [] && jobs == {})
    && (!server.Serving? ==> NoRequests(views))
    && AllUntouched(jobs, waiting, views, Outstanding(server))
    && Distinct(Outstanding(server))
    && (server.Requeue? || server.BootExists? || server.BootSchedule? ==> server.t !in server.rest)
  }

  /** Everything but "no slot idles", which fails for a moment inside a step that calls `executeNext`. */
  ghost predicate AlmostOk(c: Control) {
    && ClaimsUnique(Waiting(c), c.views)
    && LocksOk(c.locks, c.views)
    && SlotsOk(c.running, c.max, c.views)
    && PidsOk(c.views, c.nextPid)
    && BootOk(c.server, c.jobs, Waiting(c), c.views)
  }

  ghost predicate ControlOk(c: Control) {
    AlmostOk(c) && NoIdleSlot(c.running, c.max, c.queue)
  }

  // One activity changes its view, appears, or disappears

  /** The claim stays or goes, and nothing else changes hands. */
  predicate Narrower(views: Views, pid: Pid, v: View) {
    && pid in views
    && (v.claim.None? || v.claim == views[pid].claim)
    && v.section == views[pid].section
    && v.executor == views[pid].executor
    && (v.callback.None? || v.callback == views[pid].callback)
    && (v.requestOnly ==> views[pid].requestOnly)
  }

  predicate Fresh(c: Control, v: View) {
    && v.claim.None? && v.section.None? && !v.executor
    && (v.requestOnly ==> c.server.Serving?)
    && (v.callback.Some? ==> v.callback.value in c.jobs)
    && !c.server.Down? && !c.server.Finding?
  }

  lemma HeldMove(views: Views, pid: Pid, v: View, key: string)
    requires Held(views, key) && (pid in views ==> v.section == views[pid].section)
    ensures Held(views[pid := v], key)
  {
    var p :| p in views && Holds(views[p], key);
    assert p in views[pid := v] && Holds(views[pid := v][p], key);
  }

  lemma HeldDrop(views: Views, pid: Pid, key: string)
    requires Held(views, key) && pid in views && views[pid].section.None?
    ensures Held(views - {pid}, key)
  {
    var p :| p in views && Holds(views[p], key);
    assert p in views - {pid} && Holds((views - {pid})[p], key);
  }

  lemma LocksMove(locks: set<string>, views: Views, pid: Pid, v: View)
    requires LocksOk(locks, views)
    requires if pid in views then v.section == views[pid].section else v.section.None?
    ensures LocksOk(locks, views[pid := v])
  {
    forall key | key in locks ensures Held(views[pid := v], key) {
      HeldMove(views, pid, v, key);
    }
  }

  lemma LocksDrop(locks: set<string>, views: Views, pid: Pid)
    requires LocksOk(locks, views) && pid in views && views[pid].section.None?
    ensures LocksOk(locks, views - {pid})
  {
    forall key | key in locks ensures Held(views - {pid}, key) {
      HeldDrop(views, pid, key);
    }
  }

  lemma UniqueMove(waiting: seq<RunHandle>, views: Views, pid: Pid, v: View)
    requires ClaimsUnique(waiting, views)
    requires v.claim.None? || (pid in views && v.claim == views[pid].claim)
    ensures ClaimsUnique(waiting, views[pid := v])
  {
  }

  lemma UntouchedMove(jobs: set<TaskId>, waiting: seq<RunHandle>, views: Views, pid: Pid, v: View, u: TaskId)
    requires Untouched(jobs, waiting, views, u)
    requires v.claim.None? || (pid in views && v.claim == views[pid].claim)
    requires v.callback.None? || (pid in views && v.callback == views[pid].callback) || v.callback.value in jobs
    ensures Untouched(jobs, waiting, views[pid := v], u)
  {
  }

  lemma BootMove(server: Server, jobs: set<TaskId>, waiting: seq<RunHandle>, views: Views, pid: Pid, v: View)
    requires BootOk(server, jobs, waiting, views)
    requires pid in views || !(server.Down? || server.Finding?)
    requires v.claim.None? || (pid in views && v.claim == views[pid].claim)
    requires v.callback.None? || (pid in views && v.callback == views[pid].callback) || v.callback.value in jobs
    requires v.requestOnly ==> server.Serving? || (pid in views && views[pid].requestOnly)
    ensures BootOk(server, jobs, waiting, views[pid := v])
  {
    forall u | u in Outstanding(server) ensures Untouched(jobs, waiting, views[pid := v], u) {
      UntouchedMove(jobs, waiting, views, pid, v, u);
    }
  }

  lemma BootDrop(server: Server, jobs: set<TaskId>, waiting: seq<RunHandle>, views: Views, pid: Pid)
    requires BootOk(server, jobs, waiting, views) && pid in views
    ensures BootOk(server, jobs, waiting, views - {pid})
  {
    forall u | u in Outstanding(server) ensures Untouched(jobs, waiting, views - {pid}, u) {
    }
  }

  lemma SlotsMove(running: int, max: int, views: Views, pid: Pid, v: View)
    requires SlotsOk(running, max, views) && v.executor == (pid in views && views[pid].executor)
    ensures SlotsOk(running, max, views[pid := v])
  {
    assert Executors(views[pid := v]) == Executors(views);
  }

  lemma MoveKeeps(c: Control, pid: Pid, v: View)
    requires ControlOk(c) && Narrower(c.views, pid, v)
    ensures ControlOk(c.(views := c.views[pid := v]))
  {
    LocksMove(c.locks, c.views, pid, v);
    UniqueMove(Waiting(c), c.views, pid, v);
    BootMove(c.server, c.jobs, Waiting(c), c.views, pid, v);
    SlotsMove(c.running, c.max, c.views, pid, v);
  }

  lemma AddKeeps(c: Control, v: View)
    requires ControlOk(c) && Fresh(c, v)
    ensures ControlOk(c.(views := c.views[c.nextPid := v], nextPid := c.nextPid + 1))
  {
    LocksMove(c.locks, c.views, c.nextPid, v);
    UniqueMove(Waiting(c), c.views, c.nextPid, v);
    BootMove(c.server, c.jobs, Waiting(c), c.views, c.nextPid, v);
    SlotsMove(c.running, c.max, c.views, c.nextPid, v);
  }

  lemma DropKeeps(c: Control, pid: Pid)
    requires ControlOk(c) && pid in c.views && c.views[pid].section.None? && !c.views[pid].executor
    ensures ControlOk(c.(views := c.views - {pid}))
  {
    LocksDrop(c.locks, c.views, pid);
    BootDrop(c.server, c.jobs, Waiting(c), c.views, pid);
    assert Executors(c.views - {pid}) == Executors(c.views);
  }

  // The lock

  lemma LocksEnter(locks: set<string>, views: Views, pid: Pid, v: View)
    requires LocksOk(locks, views) && pid in views && views[pid].section.None?
    requires v.section.Some? && Label(v.section.value) !in locks
    ensures LocksOk(locks + {Label(v.section.value)}, views[pid := v])
  {
    var views' := views[pid := v];
    assert Holds(views'[pid], Label(v.section.value));
    forall key | key in locks ensures Held(views', key) {
      var p :| p in views && Holds(views[p], key);
      assert p in views' && Holds(views'[p], key);
    }
  }

  lemma LocksLeave(locks: set<string>, views: Views, pid: Pid, v: View)
    requires LocksOk(locks, views) && pid in views && views[pid].section.Some? && v.section.None?
    ensures LocksOk(locks - {Label(views[pid].section.value)}, views[pid := v])
  {
    var views' := views[pid := v];
    forall key | key in locks - {Label(views[pid].section.value)} ensures Held(views', key) {
      var p :| p in views && Holds(views[p], key);
      assert p in views' && Holds(views'[p], key);
    }
  }

  lemma EnterKeeps(c: Control, pid: Pid, v: View)
    requires ControlOk(c) && v.section.Some? && Label(v.section.value) !in c.locks
    requires Narrower(c.views, pid, v.(section := None))
    ensures ControlOk(c.(locks := c.locks + {Label(v.section.value)}, views := c.views[pid := v]))
  {
    LocksEnter(c.locks, c.views, pid, v);
    UniqueMove(Waiting(c), c.views, pid, v);
    BootMove(c.server, c.jobs, Waiting(c), c.views, pid, v);
    SlotsMove(c.running, c.max, c.views, pid, v);
  }

  lemma LeaveKeeps(c: Control, pid: Pid, v: View)
    requires ControlOk(c) && pid in c.views && c.views[pid].section.Some? && v.section.None?
    requires Narrower(c.views, pid, v.(section := c.views[pid].section))
    ensures ControlOk(c.(locks := c.locks - {Label(c.views[pid].section.value)}, views := c.views[pid := v]))
  {
    LocksLeave(c.locks, c.views, pid, v);
    UniqueMove(Waiting(c), c.views, pid, v);
    BootMove(c.server, c.jobs, Waiting(c), c.views, pid, v);
    SlotsMove(c.running, c.max, c.views, pid, v);
  }

  // Claims that are born or change hands

  /** Nobody has a claim on the run. */
  ghost predicate Unclaimed(waiting: seq<RunHandle>, views: Views, r: RunId) {
    && (forall i :: 0 <= i < |waiting| ==> waiting[i].runId != r)
    && (forall p :: p in views ==> !Claims(views[p], r))
  }

  lemma UniqueBirth(waiting: seq<RunHandle>, views: Views, pid: Pid, v: View)
    requires ClaimsUnique(waiting, views) && v.claim.Some? && Unclaimed(waiting, views, v.claim.value.runId)
    ensures ClaimsUnique(waiting, views[pid := v])
  {
  }

  lemma BootBirth(server: Server, jobs: set<TaskId>, waiting: seq<RunHandle>, views: Views, pid: Pid, v: View)
    requires BootOk(server, jobs, waiting, views) && pid in views && !v.requestOnly
    requires v.claim.Some? && views[pid].callback == v.callback == Some(v.claim.value.taskId)
    ensures BootOk(server, jobs, waiting, views[pid := v])
  {
    forall u | u in Outstanding(server) ensures Untouched(jobs, waiting, views[pid := v], u) {
      assert Untouched(jobs, waiting, views, u);
    }
  }

  /** An activity in the critical section gets a claim on the run it has just inserted. */
  lemma BirthKeeps(c: Control, pid: Pid, v: View)
    requires ControlOk(c) && v.claim.Some? && Narrower(c.views, pid, v.(claim := None)) && !v.requestOnly
    requires c.views[pid].callback == v.callback == Some(v.claim.value.taskId)
    requires Unclaimed(Waiting(c), c.views, v.claim.value.runId)
    ensures ControlOk(c.(views := c.views[pid := v]))
  {
    LocksMove(c.locks, c.views, pid, v);
    UniqueBirth(Waiting(c), c.views, pid, v);
    BootBirth(c.server, c.jobs, Waiting(c), c.views, pid, v);
    SlotsMove(c.running, c.max, c.views, pid, v);
  }

  function StartNext(c: Control): Control {
    if Queue.CanStart(c.running, c.max, |c.queue|)
    then c.(queue := c.queue[1..], running := c.running + 1,
            views := c.views[c.nextPid := ExecutorView(Some(c.queue[0]), false)], nextPid := c.nextPid + 1)
    else c
  }

  lemma UniqueStart(waiting: seq<RunHandle>, views: Views, pid: Pid, v: View)
    requires ClaimsUnique(waiting, views) && waiting != [] && pid !in views && v.claim == Some(waiting[0])
    ensures ClaimsUnique(waiting[1..], views[pid := v])
  {
  }

  lemma BootStart(server: Server, jobs: set<TaskId>, waiting: seq<RunHandle>, views: Views, pid: Pid, v: View)
    requires BootOk(server, jobs, waiting, views) && waiting != [] && pid !in views
    requires v == ExecutorView(Some(waiting[0]), false)
    ensures BootOk(server, jobs, waiting[1..], views[pid := v])
  {
    forall u | u in Outstanding(server) ensures Untouched(jobs, waiting[1..], views[pid := v], u) {
      assert Untouched(jobs, waiting, views, u);
    }
  }

  lemma SlotsStart(running: int, max: int, views: Views, pid: Pid, v: View)
    requires SlotsOk(running, max, views) && pid !in views && v.executor && running < max
    ensures SlotsOk(running + 1, max, views[pid := v])
  {
    assert Executors(views[pid := v]) == Executors(views) + {pid};
  }

  lemma StartNextKeeps(c: Control)
    requires AlmostOk(c)
    requires |c.queue| <= 1 || c.running + 1 >= c.max
    ensures ControlOk(StartNext(c))
  {
    if Queue.CanStart(c.running, c.max, |c.queue|) {
      var v := ExecutorView(Some(c.queue[0]), false);
      assert Waiting(c)[0] == c.queue[0];
      assert Waiting(StartNext(c)) == Waiting(c)[1..];
      LocksMove(c.locks, c.views, c.nextPid, v);
      UniqueStart(Waiting(c), c.views, c.nextPid, v);
      BootStart(c.server, c.jobs, Waiting(c), c.views, c.nextPid, v);
      SlotsStart(c.running, c.max, c.views, c.nextPid, v);
    }
  }

  // Handing a closure to the queue

  lemma UniqueHandOver(before: seq<RunHandle>, h: RunHandle, after: seq<RunHandle>, views: Views, pid: Pid)
    requires ClaimsUnique(before + after, views) && pid in views && views[pid].claim == Some(h)
    ensures ClaimsUnique(before + [h] + after, views - {pid})
  {
    var w, w' := before + after, before + [h] + after;
    var views' := views - {pid};
    assert forall i :: 0 <= i < |before| ==> w'[i] == w[i];
    assert forall i :: |before| < i < |w'| ==> w'[i] == w[i - 1];
    forall i, j | 0 <= i < j < |w'| ensures w'[i].runId != w'[j].runId {
      assert Claims(views[pid], h.runId);
      if i == |before| {
        assert w[j - 1].runId != h.runId;
      } else if j == |before| {
        assert w[i].runId != h.runId;
      } else {
        assert w[if i < |before| then i else i - 1] == w'[i] && w[if j < |before| then j else j - 1] == w'[j];
      }
    }
    forall i, p | 0 <= i < |w'| && p in views' ensures !Claims(views'[p], w'[i].runId) {
      if i == |before| {
        assert views[pid].claim.Some? && p != pid;
      } else {
        assert w[if i < |before| then i else i - 1] == w'[i];
      }
    }
  }

  lemma BootHandOver(server: Server, jobs: set<TaskId>, before: seq<RunHandle>, h: RunHandle, after: seq<RunHandle>,
                     views: Views, pid: Pid)
    requires BootOk(server, jobs, before + after, views) && pid in views && views[pid].claim == Some(h)
    ensures BootOk(server, jobs, before + [h] + after, views - {pid})
  {
    var w, w' := before + after, before + [h] + after;
    forall u | u in Outstanding(server) ensures Untouched(jobs, w', views - {pid}, u) {
      assert Untouched(jobs, w, views, u);
      forall i | 0 <= i < |w'| ensures w'[i].taskId != u {
        if i != |before| {
          assert w[if i < |before| then i else i - 1] == w'[i];
        }
      }
    }
  }

  lemma HandOverKeeps(c: Control, pid: Pid, h: RunHandle)
    requires ControlOk(c) && pid in c.views && c.views[pid].claim == Some(h)
    requires c.views[pid].section.None? && !c.views[pid].executor
    ensures ControlOk(StartNext(c.(queue := c.queue + [h], views := c.views - {pid})))
  {
    var d := c.(queue := c.queue + [h], views := c.views - {pid});
    assert Waiting(c) == c.queue + BootPending(c.server);
    assert Waiting(d) == c.queue + [h] + BootPending(c.server);
    UniqueHandOver(c.queue, h, BootPending(c.server), c.views, pid);
    BootHandOver(c.server, c.jobs, c.queue, h, BootPending(c.server), c.views, pid);
    LocksDrop(c.locks, c.views, pid);
    assert Executors(c.views - {pid}) == Executors(c.views);
    StartNextKeeps(d);
  }

  /** An executor settles: its slot is given to the next closure. */
  lemma SettleKeeps(c: Control, pid: Pid)
    requires ControlOk(c) && pid in c.views && c.views[pid].section.None? && c.views[pid].executor
    ensures ControlOk(StartNext(c.(running := c.running - 1, views := c.views - {pid})))
  {
    var d := c.(running := c.running - 1, views := c.views - {pid});
    LocksDrop(c.locks, c.views, pid);
    BootDrop(c.server, c.jobs, Waiting(c), c.views, pid);
    assert Executors(c.views - {pid}) == Executors(c.views) - {pid};
    assert Waiting(d) == Waiting(c);
    StartNextKeeps(d);
  }

  // Starting the server

  lemma BootKeeps(c: Control)
    requires ControlOk(c) && c.server.Down?
    ensures ControlOk(c.(server := Finding))
  {
    assert Waiting(c.(server := Finding)) == Waiting(c);
  }

  lemma CrashKeeps(c: Control)
    ensures ControlOk(c.(server := Down, jobs := {}, locks := {}, queue := [], running := 0, views := map[]))
  {
    assert Executors(map[]) == {};
  }

  function TurnTo(rest: seq<TaskId>): Server {
    if rest == [] then Serving else ReadRuns(rest[0], rest[1..])
  }

  lemma FoundKeeps(c: Control, found: seq<TaskId>)
    requires ControlOk(c) && c.server.Finding? && Distinct(found)
    ensures ControlOk(c.(server := TurnTo(found)))
  {
    var d := c.(server := TurnTo(found));
    assert Waiting(d) == Waiting(c) == [];
    assert found != [] ==> Outstanding(d.server) == found;
  }

  /** The pending runs of the task whose turn it is are read: nobody can have a claim on them. */
  lemma ReadKeeps(c: Control, pending: seq<RunHandle>)
    requires ControlOk(c) && c.server.ReadRuns?
    requires forall i :: 0 <= i < |pending| ==> pending[i].taskId == c.server.t
    requires forall i :: 0 <= i < |pending| ==> Unclaimed(Waiting(c), c.views, pending[i].runId)
    requires forall i, j :: 0 <= i < j < |pending| ==> pending[i].runId != pending[j].runId
    ensures ControlOk(c.(server := Requeue(c.server.t, pending, c.server.rest)))
  {
    var t, rest := c.server.t, c.server.rest;
    var d := c.(server := Requeue(t, pending, rest));
    assert Outstanding(c.server) == [t] + rest;
    assert Waiting(c) == c.queue && Waiting(d) == c.queue + pending;
    assert forall i :: 0 <= i < |rest| ==> rest[i] == Outstanding(c.server)[i + 1];
    assert t !in rest by {
      assert Outstanding(c.server)[0] == t;
    }
    forall u | u in rest ensures Untouched(c.jobs, Waiting(d), c.views, u) {
      assert u in Outstanding(c.server);
      assert Untouched(c.jobs, Waiting(c), c.views, u);
    }
    assert Distinct(rest);
  }

  lemma RequeueKeeps(c: Control)
    requires ControlOk(c) && c.server.Requeue? && c.server.pending != []
    ensures var s := c.server;
            ControlOk(StartNext(c.(server := Requeue(s.t, s.pending[1..], s.rest), queue := c.queue + [s.pending[0]])))
  {
    var s := c.server;
    var d := c.(server := Requeue(s.t, s.pending[1..], s.rest), queue := c.queue + [s.pending[0]]);
    assert Waiting(d) == Waiting(c);
    StartNextKeeps(d);
  }

  lemma RequeuedKeeps(c: Control)
    requires ControlOk(c) && c.server.Requeue? && c.server.pending == []
    ensures ControlOk(c.(server := BootExists(c.server.t, c.server.rest)))
  {
    assert Waiting(c.(server := BootExists(c.server.t, c.server.rest))) == Waiting(c);
  }

  lemma BootMissingKeeps(c: Control)
    requires ControlOk(c) && c.server.BootExists?
    ensures ControlOk(c.(server := BootSchedule(c.server.t, c.server.rest)))
  {
    assert Waiting(c.(server := BootSchedule(c.server.t, c.server.rest))) == Waiting(c);
  }

  lemma TurnKeeps(c: Control)
    requires ControlOk(c) && (c.server.BootExists? || c.server.BootSchedule?)
    ensures ControlOk(c.(server := TurnTo(c.server.rest)))
  {
    var d := c.(server := TurnTo(c.server.rest));
    assert Waiting(d) == Waiting(c);
    assert Outstanding(c.server) == c.server.rest;
    assert c.server.rest != [] ==> Outstanding(d.server) == c.server.rest;
  }

  /** A cron job may be created for any task whose turn has passed. */
  lemma JobKeeps(c: Control, t: TaskId)
    requires ControlOk(c) && !c.server.Down? && !c.server.Finding? && t !in Outstanding(c.server)
    ensures ControlOk(c.(jobs := c.jobs + {t}))
  {
    forall u | u in Outstanding(c.server) ensures Untouched(c.jobs + {t}, Waiting(c), c.views, u) {
      assert Untouched(c.jobs, Waiting(c), c.views, u);
    }
    assert Waiting(c.(jobs := c.jobs + {t})) == Waiting(c);
  }

  lemma RequestsNeedServing(c: Control, pid: Pid)
    requires ControlOk(c) && pid in c.views && c.views[pid].requestOnly
    ensures c.server.Serving?
  {
  }

  lemma TurnPassed(c: Control)
    requires ControlOk(c) && (c.server.BootExists? || c.server.BootSchedule?)
    ensures c.server.t !in Outstanding(c.server)
  {
  }
}
