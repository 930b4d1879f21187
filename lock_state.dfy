/** The bookkeeping state of SimpleReentrantLock and the two transitions
    that lock() and unlock() make on it, as pure functions.

    The fields `owner` and `holdCount` are Java longs whose default value
    is 0. Thread identity is an explicit `id` parameter. The blocking wait
    of lock() is given by a schedule: one AwaitResult per call of the
    condition's await(), saying how that call ended and what the fields
    held when the waiting thread had the common lock back. */
module LockState {

  /** Who holds the lock (`owner`) and how many lock() calls by that
      thread are not yet matched by an unlock() (`holdCount`). */
  datatype Fields = Fields(owner: int, holdCount: nat)

  /** The fields of a newly created lock: Java's default 0 for both longs. */
  const Initial := Fields(0, 0)

  /** No thread holds the lock; `owner` is then left over and meaningless. */
  predicate Free(f: Fields) {
    f.holdCount == 0
  }

  /** Thread `id` holds the lock (possibly several times over). */
  predicate HeldBy(f: Fields, id: int) {
    f.holdCount > 0 && f.owner == id
  }

  /** The guard of lock()'s wait loop: another thread holds the lock. */
  predicate MustWait(f: Fields, id: int) {
    f.owner != id && f.holdCount > 0
  }

  /** How one call of noHolder.await() ends for the waiting thread:
      normally (after a signal or spuriously) or by an InterruptedException.
      Either way the thread has re-taken the common lock and `seen` is what
      other threads left in the fields meanwhile. */
  datatype AwaitResult = Woken(seen: Fields) | Interrupted(seen: Fields)

  /** How lock() ends: it acquired the lock; the wait was interrupted and
      the exception swallowed, so it returned without acquiring; or the
      schedule ran out while the guard still held, so the call is still
      blocked in await(). */
  datatype LockOutcome = Acquired | InterruptedWait | StillWaiting

  /** The result of one lock() call: how many awaits it made, the fields
      it leaves behind and how it ended. */
  datatype AcquireResult = AcquireResult(waits: nat, after: Fields, outcome: LockOutcome)

  /** The fields a thread reads at its k-th evaluation of the wait guard
      (k = 0 on entry, k > 0 after the k-th await). */
  function Observed(f: Fields, awaits: seq<AwaitResult>, k: nat): Fields
    requires k <= |awaits|
  {
    if k == 0 then f else awaits[k - 1].seen
  }

  lemma ObservedShift(f: Fields, awaits: seq<AwaitResult>, k: nat)
    requires 0 < |awaits| && k < |awaits|
    ensures Observed(f, awaits, k + 1) == Observed(awaits[0].seen, awaits[1..], k)
  {
  }

  /** lock() by thread `id` on fields `f` under the schedule `awaits`.
      While another thread holds the lock it awaits; a normal return from
      await re-checks the guard, an interrupt leaves the loop and the
      method without touching the fields (the catch is outside the loop).
      Once the guard fails it records itself as owner and counts one more
      hold. */
  function Acquire(f: Fields, id: int, awaits: seq<AwaitResult>): (r: AcquireResult)
    // it waits only on the schedule it is given
    ensures r.waits <= |awaits|
    // acquiring: the last fields read showed no other holder, and the
    // caller is then owner with one more hold than it found
    ensures r.outcome == Acquired ==>
              !MustWait(Observed(f, awaits, r.waits), id) &&
              r.after == Fields(id, Observed(f, awaits, r.waits).holdCount + 1) &&
              (0 < r.waits ==> awaits[r.waits - 1].Woken?)
    // interrupted: the call leaves the fields as the interrupt found them
    ensures r.outcome == InterruptedWait ==>
              0 < r.waits && awaits[r.waits - 1].Interrupted? &&
              r.after == awaits[r.waits - 1].seen
    // still blocked: the whole schedule was used, another thread still
    // holds the lock, and the caller wrote nothing
    ensures r.outcome == StillWaiting ==>
              r.waits == |awaits| && r.after == Observed(f, awaits, |awaits|) &&
              MustWait(r.after, id) &&
              (0 < r.waits ==> awaits[r.waits - 1].Woken?)
    decreases |awaits|
  {
    if !MustWait(f, id) then
      AcquireResult(0, Fields(id, f.holdCount + 1), Acquired)
    else if awaits == [] then
      AcquireResult(0, f, StillWaiting)
    else
      match awaits[0]
      case Interrupted(seen) => AcquireResult(1, seen, InterruptedWait)
      case Woken(seen) =>
        var r := Acquire(seen, id, awaits[1..]);
        ObservedShift(f, awaits, r.waits);
        r.(waits := r.waits + 1)
  }

  /** Each await a lock() call makes is entered because another thread
      held the lock at that check of the guard, and every await but the
      last returned normally: the loop re-checks after each wake and only
      an interrupt leaves it early. */
  lemma {:induction false} AcquireWaitsOnlyWhileHeld(f: Fields, id: int, awaits: seq<AwaitResult>)
    ensures forall k :: 0 <= k < Acquire(f, id, awaits).waits ==> MustWait(Observed(f, awaits, k), id)
    ensures forall k :: 0 <= k < Acquire(f, id, awaits).waits - 1 ==> awaits[k].Woken?
    decreases |awaits|
  {
    if MustWait(f, id) && awaits != [] && awaits[0].Woken? {
      var seen := awaits[0].seen;
      AcquireWaitsOnlyWhileHeld(seen, id, awaits[1..]);
      var n := Acquire(seen, id, awaits[1..]).waits;
      forall k | 0 < k <= n
        ensures Observed(f, awaits, k) == Observed(seen, awaits[1..], k - 1)
      {
        ObservedShift(f, awaits, k - 1);
      }
      forall k | 0 < k < n
        ensures awaits[k] == awaits[1..][k - 1]
      {
      }
    }
  }

  /** How unlock() ends: it released one hold and says whether it signalled
      the no-holder condition, or it threw IllegalMonitorStateException. */
  datatype UnlockOutcome = Released(signalled: bool) | IllegalMonitorState

  datatype ReleaseResult = ReleaseResult(after: Fields, outcome: UnlockOutcome)

  /** unlock() by thread `id` on fields `f`. */
  function Release(f: Fields, id: int): (r: ReleaseResult)
    // it throws exactly when the caller does not hold the lock
    ensures r.outcome == IllegalMonitorState <==> !HeldBy(f, id)
    // and then changes nothing
    ensures r.outcome == IllegalMonitorState ==> r.after == f
    // otherwise one hold fewer, same owner
    ensures r.outcome.Released? ==>
              r.after.owner == f.owner && r.after.holdCount + 1 == f.holdCount
    // it signals exactly when that was the last hold
    ensures r.outcome.Released? ==> (r.outcome.signalled <==> Free(r.after))
  {
    if f.owner != id || f.holdCount == 0 then
      ReleaseResult(f, IllegalMonitorState)
    else
      var n := f.holdCount - 1;
      ReleaseResult(Fields(f.owner, n), Released(n == 0))
  }
}
