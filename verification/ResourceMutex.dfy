/**
 * `InMemoryMutex`. A caller that finds the label locked sleeps and tests again; the code between two
 * awaits runs undisturbed, so one test (with the entry it may grant) and one release are the atomic
 * pieces. How many callers interleave them is modelled in RunEngine.
 */
module ResourceMutex {

  datatype Attempt = Entered | Busy | GaveUp

  const RETRY_NUMBER: nat := 5

  /** The decision of the test numbered `retryIdx` (from 0). */
  function Test(locked: set<string>, resource: string, retryIdx: nat, retryNumber: nat): Attempt {
    if retryIdx >= retryNumber then GaveUp
    else if resource in locked then Busy
    else Entered
  }

  class InMemoryMutex {
    var lockedResources: set<string>
    const retryNumber: nat

    constructor (retryNumber: nat)
      ensures lockedResources == {} && this.retryNumber == retryNumber
    {
      this.retryNumber := retryNumber;
      lockedResources := {};
    }

    method TryEnter(resource: string, retryIdx: nat) returns (attempt: Attempt)
      modifies this`lockedResources
      ensures attempt == GaveUp <==> retryIdx >= retryNumber
      ensures attempt == Busy <==> retryIdx < retryNumber && resource in old(lockedResources)
      ensures attempt == Test(old(lockedResources), resource, retryIdx, retryNumber)
      ensures lockedResources == old(lockedResources) + (if attempt == Entered then {resource} else {})
    {
      if retryIdx >= retryNumber {
        return GaveUp;
      }
      if resource in lockedResources {
        return Busy;
      }
      lockedResources := lockedResources + {resource};
      return Entered;
    }

    /** The `finally` block: reached when the guarded function returns and when it throws. */
    method Leave(resource: string)
      modifies this`lockedResources
      ensures lockedResources == old(lockedResources) - {resource}
    {
      lockedResources := lockedResources - {resource};
    }

    /**
     * One whole call of `run` by a caller that shares the mutex with others: `seen[k]` is what the
     * others have made of the lock set when the k-th test is made. The caller enters on the first
     * test that finds the label free, and fails after exactly `retryNumber` tests if none does.
     */
    method Run(resource: string, seen: seq<set<string>>) returns (entered: bool, tests: nat)
      requires |seen| == retryNumber
      modifies this`lockedResources
      ensures tests <= retryNumber
      ensures entered <==> exists k :: 0 <= k < |seen| && resource !in seen[k]
      ensures entered ==> 1 <= tests && resource !in seen[tests - 1]
      ensures entered ==> forall k :: 0 <= k < tests - 1 ==> resource in seen[k]
      ensures entered ==> lockedResources == seen[tests - 1] + {resource}
      ensures !entered ==> tests == retryNumber
    {
      entered, tests := false, 0;
      while tests < retryNumber && !entered
        invariant 0 <= tests <= retryNumber
        invariant !entered ==> forall k :: 0 <= k < tests ==> resource in seen[k]
        invariant entered ==> 1 <= tests && resource !in seen[tests - 1]
        invariant entered ==> forall k :: 0 <= k < tests - 1 ==> resource in seen[k]
        invariant entered ==> lockedResources == seen[tests - 1] + {resource}
        decreases retryNumber - tests, !entered
      {
        lockedResources := seen[tests];
        var attempt := TryEnter(resource, tests);
        tests := tests + 1;
        entered := attempt == Entered;
      }
    }
  }
}
