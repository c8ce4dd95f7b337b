/**
 * Registration of runs: the count and the insert inside the lock of the task, which is released however the
 * guarded code ends. That nobody else gets between them is proved in RunEngine over all interleavings.
 */
module TaskRunService {
  import opened Prelude
  import opened RunTable
  import opened ResourceMutex

  /** The new row takes the next rank, so the ranks of a limited task stay 1..n. */
  lemma {:induction false} NextRankKeepsRanks(runs: Runs, r: RunId, t: TaskId, now: Time)
    requires RanksOk(runs, t) && r !in runs
    ensures RanksOk(runs[r := NewRun(t, Ranked(Count(runs, t) + 1), now)], t)
    ensures Count(runs[r := NewRun(t, Ranked(Count(runs, t) + 1), now)], t) == Count(runs, t) + 1
  {
    InsertCount(runs, r, NewRun(t, Ranked(Count(runs, t) + 1), now), t);
  }

  lemma OtherTasksKeepRanks(runs: Runs, r: RunId, run: Run, t: TaskId)
    requires RanksOk(runs, t) && r !in runs && run.taskId != t
    ensures RanksOk(runs[r := run], t)
  {
    InsertCount(runs, r, run, t);
  }

  class TaskRunService {
    const dao: TaskRunDao
    const mutex: InMemoryMutex

    constructor ()
      ensures fresh(dao) && fresh(mutex) && dao.Valid() && dao.rows == map[]
      ensures mutex.lockedResources == {} && mutex.retryNumber == RETRY_NUMBER
    {
      dao := new TaskRunDao();
      mutex := new InMemoryMutex(RETRY_NUMBER);
    }

    /** The rank is what `runsCount + 1` will be. */
    method IsRunAllowed(t: TaskId, limit: Option<int>) returns (allowed: bool, rank: Rank)
      ensures limit == None ==> allowed && rank == Unbounded
      ensures limit.Some? ==> (allowed <==> Count(dao.rows, t) < limit.value) && rank == Ranked(Count(dao.rows, t) + 1)
    {
      if limit.None? {
        return true, Unbounded;
      }
      var count := dao.CountByTaskId(t);
      return count < limit.value, Ranked(count + 1);
    }

    /**
     * seen: what the other callers have made of the lock set when each test is made. ok: whether the
     * statements succeed, the insert being refused, for one, when the task is gone. locked: whether the lock
     * has been obtained, without which the call fails.
     */
    method TryToRegister(t: TaskId, limit: Option<int>, now: Time, seen: seq<set<string>>, countOk: bool,
                         insertOk: bool)
      returns (locked: bool, outcome: Registration)
      requires dao.Valid() && |seen| == mutex.retryNumber
      modifies dao, mutex`lockedResources
      ensures dao.Valid()
      ensures !locked <==> forall k :: 0 <= k < |seen| ==> Decimal(t) in seen[k]
      ensures locked ==> Decimal(t) !in mutex.lockedResources && mutex.lockedResources in seen
      ensures !locked ==> outcome == Errored
      ensures outcome == Rejected ==> limit.Some? && Count(old(dao.rows), t) >= limit.value
      ensures outcome.Registered? ==>
                && outcome.h.runId !in old(dao.rows) && outcome.h.taskId == t
                && outcome.h.rank == (if limit.None? then Unbounded else Ranked(Count(old(dao.rows), t) + 1))
                && (limit.Some? ==> Count(old(dao.rows), t) < limit.value && Count(dao.rows, t) <= limit.value)
                && dao.rows == old(dao.rows)[outcome.h.runId := NewRun(t, outcome.h.rank, now)]
      ensures outcome.Registered? ==> locked && insertOk && (limit.Some? ==> countOk)
      ensures !outcome.Registered? ==> dao.rows == old(dao.rows)
      ensures locked && countOk && insertOk ==>
                (outcome.Registered? <==> limit.None? || Count(old(dao.rows), t) < limit.value)
      ensures limit.Some? && RanksOk(old(dao.rows), t) ==> RanksOk(dao.rows, t)
      ensures forall u :: u != t && RanksOk(old(dao.rows), u) ==> RanksOk(dao.rows, u)
    {
      var entered, tests := mutex.Run(Decimal(t), seen);
      if !entered {
        return false, Errored;
      }
      locked := true;
      if limit.Some? && !countOk {
        outcome := Errored;
      } else {
        var allowed, rank := IsRunAllowed(t, limit);
        if !allowed {
          outcome := Rejected;
        } else if !insertOk {
          outcome := Errored;
        } else {
          ghost var before := dao.rows;
          var h := dao.Create(t, rank, now);
          InsertCount(before, h.runId, NewRun(t, rank, now), t);
          if limit.Some? && RanksOk(before, t) {
            NextRankKeepsRanks(before, h.runId, t, now);
          }
          forall u | u != t && RanksOk(before, u) ensures RanksOk(dao.rows, u) {
            OtherTasksKeepRanks(before, h.runId, NewRun(t, rank, now), u);
          }
          outcome := Registered(h);
        }
      }
      mutex.Leave(Decimal(t));
    }
  }
}
