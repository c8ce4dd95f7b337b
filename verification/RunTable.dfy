/** The `task_runs` table: its rows, its statements, and what the statements do to ranks and counts. */
module RunTable {
  import opened Prelude

  type TaskId = nat
  type RunId = nat
  type Time = nat

  datatype Status = Pending | Running | Succeed | Failed | Stopped

  /** `runsCount + 1`: a number for a limited task, `Infinity + 1` for an unlimited one. */
  datatype Rank = Ranked(n: nat) | Unbounded

  datatype Run = Run(taskId: TaskId, rank: Rank, status: Status, handleId: Option<string>,
                     createdAt: Time, startedAt: Option<Time>, finishedAt: Option<Time>)

  datatype RunHandle = RunHandle(taskId: TaskId, runId: RunId, rank: Rank)

  /** How the guarded part of a registration ends: with a new run, without one, or with a failed statement. */
  datatype Registration = Registered(h: RunHandle) | Rejected | Errored

  type Runs = map<RunId, Run>

  function OfTask(runs: Runs, t: TaskId): set<RunId> {
    set r | r in runs && runs[r].taskId == t
  }

  function Count(runs: Runs, t: TaskId): nat {
    |OfTask(runs, t)|
  }

  function NewRun(t: TaskId, rank: Rank, now: Time): Run {
    Run(t, rank, Pending, None, now, None, None)
  }

  function MarkRunning(runs: Runs, r: RunId, handleId: string, now: Time): Runs {
    if r in runs
    then runs[r := runs[r].(status := Running, handleId := Some(handleId), startedAt := Some(now))]
    else runs
  }

  function MarkFinished(runs: Runs, r: RunId, isSuccess: bool, now: Time): Runs {
    if r in runs
    then runs[r := runs[r].(status := if isSuccess then Succeed else Failed, finishedAt := Some(now))]
    else runs
  }

  function StopIfPending(run: Run, t: TaskId, now: Time): Run {
    if run.taskId == t && run.status == Pending
    then run.(status := Stopped, finishedAt := Some(now)) else run
  }

  function StopPending(runs: Runs, t: TaskId, now: Time): Runs {
    map r | r in runs :: StopIfPending(runs[r], t, now)
  }

  /** The cascade of a task deletion. */
  function DropTask(runs: Runs, t: TaskId): Runs {
    map r | r in runs && runs[r].taskId != t :: runs[r]
  }

  ghost predicate RankLeq(a: Rank, b: Rank) {
    b.Unbounded? || (a.Ranked? && a.n <= b.n)
  }

  /** `list` is an answer of the query "runs of `t` with status pending, ordered by rank". */
  ghost predicate IsPendingList(runs: Runs, t: TaskId, list: seq<RunHandle>) {
    && (forall i :: 0 <= i < |list| ==>
          && list[i].runId in runs
          && runs[list[i].runId].taskId == t == list[i].taskId
          && runs[list[i].runId].rank == list[i].rank
          && runs[list[i].runId].status == Pending)
    && (forall i, j :: 0 <= i < j < |list| ==>
          list[i].runId != list[j].runId && RankLeq(list[i].rank, list[j].rank))
    && (forall r :: r in runs && runs[r].taskId == t && runs[r].status == Pending ==>
          exists i :: 0 <= i < |list| && list[i].runId == r)
  }

  /** Which columns a status guarantees to be filled. */
  ghost predicate RowOk(run: Run) {
    && (run.status in {Running, Succeed, Failed} ==> run.handleId.Some? && run.startedAt.Some?)
    && (run.status in {Stopped, Succeed, Failed} ==> run.finishedAt.Some?)
    && (run.status == Pending ==> run.handleId.None? && run.startedAt.None? && run.finishedAt.None?)
  }

  predicate Launched(status: Status) {
    status in {Running, Succeed, Failed}
  }

  /** The statements that update rows never move a row to another task or rank. */
  ghost predicate SameOwners(runs: Runs, runs': Runs) {
    && runs.Keys == runs'.Keys
    && forall r :: r in runs ==> runs'[r].taskId == runs[r].taskId && runs'[r].rank == runs[r].rank
  }

  lemma SameOwnersSameCount(runs: Runs, runs': Runs, t: TaskId)
    requires SameOwners(runs, runs')
    ensures OfTask(runs', t) == OfTask(runs, t) && Count(runs', t) == Count(runs, t)
  {
    assert forall r :: r in runs <==> r in runs';
    assert OfTask(runs', t) == OfTask(runs, t);
  }

  lemma {:induction false} InsertCount(runs: Runs, r: RunId, run: Run, t: TaskId)
    requires r !in runs
    ensures OfTask(runs[r := run], t) == OfTask(runs, t) + (if run.taskId == t then {r} else {})
    ensures Count(runs[r := run], t) == Count(runs, t) + (if run.taskId == t then 1 else 0)
  {
    assert OfTask(runs[r := run], t) == OfTask(runs, t) + (if run.taskId == t then {r} else {});
  }

  lemma {:induction false} DropCount(runs: Runs, dropped: TaskId, t: TaskId)
    ensures OfTask(DropTask(runs, dropped), t) == if t == dropped then {} else OfTask(runs, t)
  {
  }

  /** Ranks of one limited task: distinct and within 1..n, where n is the number of its rows. */
  ghost predicate RanksOk(runs: Runs, t: TaskId) {
    && (forall r :: r in OfTask(runs, t) ==> runs[r].rank.Ranked? && 1 <= runs[r].rank.n <= Count(runs, t))
    && (forall r, r' :: r in OfTask(runs, t) && r' in OfTask(runs, t) && r != r' ==> runs[r].rank != runs[r'].rank)
  }

  function RankValues(runs: Runs, ids: set<RunId>): set<nat>
    requires forall r :: r in ids ==> r in runs && runs[r].rank.Ranked?
  {
    set r | r in ids :: runs[r].rank.n
  }

  lemma {:induction false} RankValuesSize(runs: Runs, ids: set<RunId>)
    requires forall r :: r in ids ==> r in runs && runs[r].rank.Ranked?
    requires forall r, r' :: r in ids && r' in ids && r != r' ==> runs[r].rank != runs[r'].rank
    ensures |RankValues(runs, ids)| == |ids|
  {
    if ids != {} {
      var r :| r in ids;
      RankValuesSize(runs, ids - {r});
      assert RankValues(runs, ids) == RankValues(runs, ids - {r}) + {runs[r].rank.n};
    }
  }

  function OneTo(n: nat): (s: set<nat>)
    ensures |s| == n && forall k :: k in s <==> 1 <= k <= n
  {
    if n == 0 then {} else OneTo(n - 1) + {n}
  }

  lemma SubsetOfSameSize<T>(a: set<T>, b: set<T>)
    requires a <= b && |a| == |b|
    ensures a == b
  {
    assert b == a + (b - a) && a !! (b - a);
    assert |b - a| == 0;
  }

  /** No gap and no repetition: the ranks of the rows are exactly 1..n, each carried by one row. */
  lemma {:induction false} RanksAreExactlyOneToCount(runs: Runs, t: TaskId, k: nat)
    requires RanksOk(runs, t)
    ensures (exists r :: r in OfTask(runs, t) && runs[r].rank == Ranked(k)) <==> 1 <= k <= Count(runs, t)
  {
    var ids, n := OfTask(runs, t), Count(runs, t);
    RankValuesSize(runs, ids);
    SubsetOfSameSize(RankValues(runs, ids), OneTo(n));
    if 1 <= k <= n {
      assert k in RankValues(runs, ids);
    }
  }

  /**
   * The table itself. `update` with a missing id changes nothing, and each statement is atomic.
   */
  class TaskRunDao {
    var rows: Runs
    var nextId: RunId

    ghost predicate Valid()
      reads this
    {
      forall r :: r in rows ==> r < nextId
    }

    constructor ()
      ensures Valid() && rows == map[] && nextId == 0
    {
      rows := map[];
      nextId := 0;
    }

    method Create(t: TaskId, rank: Rank, now: Time) returns (h: RunHandle)
      requires Valid()
      modifies this
      ensures Valid()
      ensures h.runId !in old(rows) && h.taskId == t && h.rank == rank
      ensures rows == old(rows)[h.runId := NewRun(t, rank, now)]
      ensures nextId == old(nextId) + 1
    {
      h := RunHandle(t, nextId, rank);
      rows := rows[nextId := NewRun(t, rank, now)];
      nextId := nextId + 1;
    }

    method CountByTaskId(t: TaskId) returns (n: nat)
      ensures n == Count(rows, t)
    {
      var ids := set r | r in rows && rows[r].taskId == t;
      assert ids == OfTask(rows, t);
      n := |ids|;
    }

    method Start(r: RunId, handleId: string, now: Time)
      requires Valid()
      modifies this`rows
      ensures Valid() && rows == MarkRunning(old(rows), r, handleId, now)
    {
      if r in rows {
        rows := rows[r := rows[r].(status := Running, handleId := Some(handleId), startedAt := Some(now))];
      }
    }

    method Finish(r: RunId, isSuccess: bool, now: Time)
      requires Valid()
      modifies this`rows
      ensures Valid() && rows == MarkFinished(old(rows), r, isSuccess, now)
    {
      if r in rows {
        rows := rows[r := rows[r].(status := if isSuccess then Succeed else Failed, finishedAt := Some(now))];
      }
    }

    method StopAll(t: TaskId, now: Time) returns (count: nat)
      requires Valid()
      modifies this`rows
      ensures Valid() && rows == StopPending(old(rows), t, now)
      ensures count == |set r | r in old(rows) && old(rows)[r].taskId == t && old(rows)[r].status == Pending|
    {
      count := |set r | r in rows && rows[r].taskId == t && rows[r].status == Pending|;
      rows := map r | r in rows :: StopIfPending(rows[r], t, now);
    }

    method DeleteByTask(t: TaskId)
      requires Valid()
      modifies this`rows
      ensures Valid() && rows == DropTask(old(rows), t)
    {
      rows := map r | r in rows && rows[r].taskId != t :: rows[r];
    }
  }
}
