/** Properties that relate several lock() and unlock() calls: reentrant
    counting by one thread, interrupted and blocked waits, and the
    accounting of holds when calls of many threads interleave. */
module LockProperties {
  import opened LockState

  // ---------------------------------------------------------------------
  // One thread, nested calls

  /** The fields after `n` lock() calls by `id`, none of which waits. */
  function LockTimes(f: Fields, id: int, n: nat): Fields
    decreases n
  {
    if n == 0 then f else Acquire(LockTimes(f, id, n - 1), id, []).after
  }

  /** The fields after `m` unlock() calls by `id`. */
  function UnlockTimes(f: Fields, id: int, m: nat): Fields
    decreases m
  {
    if m == 0 then f else Release(UnlockTimes(f, id, m - 1), id).after
  }

  /** A thread that holds the lock, or finds it free, can lock it again and
      again: no call waits, whatever the schedule, and each one adds one
      hold with the caller as owner. */
  lemma {:induction false} RepeatedLocking(f: Fields, id: int, n: nat)
    requires Free(f) || HeldBy(f, id)
    ensures forall k :: 0 <= k <= n ==> !MustWait(LockTimes(f, id, k), id)
    ensures 0 < n ==> LockTimes(f, id, n) == Fields(id, f.holdCount + n)
    decreases n
  {
    if 0 < n {
      RepeatedLocking(f, id, n - 1);
    }
  }

  /** From `n` holds by `id`, each of `m <= n` unlock() calls by `id`
      succeeds, keeps `id` as owner, removes one hold, and signals only
      if it removes the last one. */
  lemma {:induction false} BalancedUnlocking(id: int, n: nat, m: nat)
    requires m <= n
    ensures UnlockTimes(Fields(id, n), id, m) == Fields(id, n - m)
    ensures forall k :: 0 <= k < m ==>
              Release(UnlockTimes(Fields(id, n), id, k), id).outcome == Released(k == n - 1)
    decreases m
  {
    if 0 < m {
      BalancedUnlocking(id, n, m - 1);
    }
  }

  /** Reentrancy: from a free lock, `n` lock() calls by one thread give
      it `n` holds; after fewer than `n` unlock() calls it still holds the
      lock, after exactly `n` the lock is free, the last of them signals,
      and one more unlock() throws. */
  lemma Reentrancy(f: Fields, id: int, n: nat)
    requires Free(f) && 0 < n
    ensures LockTimes(f, id, n) == Fields(id, n)
    ensures forall m :: 0 <= m < n ==> HeldBy(UnlockTimes(LockTimes(f, id, n), id, m), id)
    ensures Free(UnlockTimes(LockTimes(f, id, n), id, n))
    ensures Release(UnlockTimes(LockTimes(f, id, n), id, n - 1), id).outcome == Released(true)
    ensures Release(UnlockTimes(LockTimes(f, id, n), id, n), id).outcome == IllegalMonitorState
  {
    RepeatedLocking(f, id, n);
    forall m | 0 <= m <= n
      ensures UnlockTimes(LockTimes(f, id, n), id, m) == Fields(id, n - m)
    {
      BalancedUnlocking(id, n, m);
    }
    BalancedUnlocking(id, n, n);
  }

  // ---------------------------------------------------------------------
  // The wait loop

  /** An interrupt is not retried: if the first `k` awaits return normally
      with the lock still held by another thread and the next one is
      interrupted, lock() ends right there, whatever the rest of the
      schedule, with the fields the interrupt found and nothing acquired. */
  lemma {:induction false} InterruptEndsLock(f: Fields, id: int, awaits: seq<AwaitResult>, k: nat)
    requires k < |awaits| && awaits[k].Interrupted?
    requires forall j :: 0 <= j <= k ==> MustWait(Observed(f, awaits, j), id)
    requires forall j :: 0 <= j < k ==> awaits[j].Woken?
    ensures Acquire(f, id, awaits) == AcquireResult(k + 1, awaits[k].seen, InterruptedWait)
    decreases k
  {
    assert MustWait(Observed(f, awaits, 0), id);
    if 0 < k {
      var seen := awaits[0].seen;
      forall j | 0 <= j <= k - 1
        ensures MustWait(Observed(seen, awaits[1..], j), id)
      {
        ObservedShift(f, awaits, j);
        assert MustWait(Observed(f, awaits, j + 1), id);
      }
      forall j | 0 <= j < k - 1
        ensures awaits[1..][j].Woken?
      {
        assert awaits[1..][j] == awaits[j + 1];
      }
      InterruptEndsLock(seen, id, awaits[1..], k - 1);
    }
  }

  /** In particular, an interrupt during the first wait that finds the
      fields as they were leaves them unchanged. */
  lemma InterruptLeavesFields(f: Fields, id: int, rest: seq<AwaitResult>)
    requires MustWait(f, id)
    ensures Acquire(f, id, [Interrupted(f)] + rest).after == f
    ensures Acquire(f, id, [Interrupted(f)] + rest).outcome == InterruptedWait
  {
  }

  /** lock() cannot complete while another thread holds the lock: if every
      check of the guard finds another holder and no wait is interrupted,
      the call is still waiting once the schedule is used up, and the
      caller has not become owner. */
  lemma BlockedWhileHeld(f: Fields, id: int, awaits: seq<AwaitResult>)
    requires forall j :: 0 <= j <= |awaits| ==> MustWait(Observed(f, awaits, j), id)
    requires forall j :: 0 <= j < |awaits| ==> awaits[j].Woken?
    ensures Acquire(f, id, awaits).outcome == StillWaiting
    ensures Acquire(f, id, awaits).after.owner != id
  {
  }

  // ---------------------------------------------------------------------
  // Many threads, interleaved calls

  /** A call of lock() or unlock() by the thread `id`. */
  datatype Call = LockCall(id: int) | UnlockCall(id: int)

  /** Whether `c` takes effect at fields `f`: a lock() that acquires, or an
      unlock() that releases. The guard check that lets lock() through and
      its update happen under the gate, so a lock() that acquires does so
      at a point where the guard fails (AcquireTakesEffectAtomically). An
      interrupted lock() returns normally but takes no effect; an unlock()
      that throws keeps the gate, after which no call can run. */
  predicate TakesEffect(f: Fields, c: Call) {
    match c
    case LockCall(id) => !MustWait(f, id)
    case UnlockCall(id) => HeldBy(f, id)
  }

  /** The effect of `c` on the fields at the point where it takes effect. */
  function Step(f: Fields, c: Call): Fields {
    match c
    case LockCall(id) => Acquire(f, id, []).after
    case UnlockCall(id) => Release(f, id).after
  }

  /** A lock() that acquires after waiting is the trace step LockCall(id)
      at the fields of its last guard check: the guard lets it through
      there and its effect is that of a lock() that does not wait. So the
      interleaving lemmas below cover lock() calls that waited too. */
  lemma AcquireTakesEffectAtomically(f: Fields, id: int, awaits: seq<AwaitResult>)
    requires Acquire(f, id, awaits).outcome == Acquired
    ensures TakesEffect(Observed(f, awaits, Acquire(f, id, awaits).waits), LockCall(id))
    ensures Acquire(f, id, awaits).after
         == Step(Observed(f, awaits, Acquire(f, id, awaits).waits), LockCall(id))
  {
  }

  /** The fields of a new lock after the calls `cs`, in order. */
  function Run(cs: seq<Call>): Fields
    decreases |cs|
  {
    if cs == [] then Initial else Step(Run(cs[..|cs| - 1]), cs[|cs| - 1])
  }

  /** Every call of `cs` takes effect at its point. */
  predicate AllTakeEffect(cs: seq<Call>)
    decreases |cs|
  {
    cs == [] || (AllTakeEffect(cs[..|cs| - 1]) && TakesEffect(Run(cs[..|cs| - 1]), cs[|cs| - 1]))
  }

  /** The holds thread `t` has after `cs`: its lock() calls minus its
      unlock() calls. */
  function Depth(cs: seq<Call>, t: int): int
    decreases |cs|
  {
    if cs == [] then 0
    else
      var d := Depth(cs[..|cs| - 1], t);
      match cs[|cs| - 1]
      case LockCall(id) => if id == t then d + 1 else d
      case UnlockCall(id) => if id == t then d - 1 else d
  }

  /** The fields keep exact account of the holds: after any interleaving
      of calls that take effect, the owner's holds are `holdCount` and
      every other thread has none. */
  lemma {:induction false} HoldsAccounted(cs: seq<Call>)
    requires AllTakeEffect(cs)
    ensures forall t :: Depth(cs, t) == (if t == Run(cs).owner then Run(cs).holdCount else 0)
    decreases |cs|
  {
    if cs != [] {
      HoldsAccounted(cs[..|cs| - 1]);
    }
  }

  /** Mutual exclusion: no thread ever has a negative number of holds, at
      most one thread has holds at a time, and while one thread has holds
      no lock() by another thread can acquire. (An interrupted lock() by
      another thread still returns, without a hold.) */
  lemma MutualExclusion(cs: seq<Call>, a: int, b: int)
    requires AllTakeEffect(cs)
    ensures 0 <= Depth(cs, a)
    ensures 0 < Depth(cs, a) && 0 < Depth(cs, b) ==> a == b
    ensures 0 < Depth(cs, a) && a != b ==> !TakesEffect(Run(cs), LockCall(b))
  {
    HoldsAccounted(cs);
  }

  /** Once the owner gives back its last hold, whichever waiting thread
      checks the guard next gets through. */
  lemma {:induction false} FreedLockAdmitsAnyone(cs: seq<Call>, owner: int, b: int)
    requires AllTakeEffect(cs)
    requires Run(cs) == Fields(owner, 1)
    ensures AllTakeEffect(cs + [UnlockCall(owner)])
    ensures Free(Run(cs + [UnlockCall(owner)]))
    ensures AllTakeEffect(cs + [UnlockCall(owner), LockCall(b)])
    ensures Run(cs + [UnlockCall(owner), LockCall(b)]) == Fields(b, 1)
    ensures Depth(cs + [UnlockCall(owner), LockCall(b)], b) == 1
  {
    var cs1 := cs + [UnlockCall(owner)];
    var cs2 := cs + [UnlockCall(owner), LockCall(b)];
    assert cs1[..|cs1| - 1] == cs;
    assert cs2[..|cs2| - 1] == cs1;
    HoldsAccounted(cs1);
    HoldsAccounted(cs2);
  }
}
