/** The lock object itself: its fields are updated in place by lock() and
    unlock(), each of which runs under the common lock (the "gate"). The
    gate is modelled by the flag `gateHeld`; a call can only proceed while
    it is clear, which is how blocking on the gate is modelled. */
module ReentrantLock {
  import opened LockState

  class SimpleReentrantLock {
    /** Thread id of the holding thread. */
    var owner: int
    /** Times the lock was acquired by `owner` and not yet released. */
    var holdCount: nat
    /** Whether the common lock guarding the two fields is held. */
    var gateHeld: bool

    /** The bookkeeping fields as a value. */
    function State(): Fields
      reads this
    {
      Fields(owner, holdCount)
    }

    /** A call of lock() or unlock() can take the common lock. */
    predicate GateFree()
      reads this
    {
      !gateHeld
    }

    /** A new lock has the default field values: free, and nobody holds the gate. */
    constructor ()
      ensures State() == Initial && Free(State()) && GateFree()
    {
      owner := 0;
      holdCount := 0;
      gateHeld := false;
    }

    /** lock() by thread `id`; `awaits` says how each await() of the wait
        loop ends. */
    method Lock(id: int, awaits: seq<AwaitResult>) returns (outcome: LockOutcome)
      requires GateFree()
      modifies this
      ensures GateFree()
      ensures State() == Acquire(old(State()), id, awaits).after
      ensures outcome == Acquire(old(State()), id, awaits).outcome
      ensures !MustWait(old(State()), id) ==>
                outcome == Acquired && owner == id && holdCount == old(holdCount) + 1
    {
      ghost var start := State();
      gateHeld := true;
      var i := 0;
      while owner != id && holdCount > 0
        invariant i <= |awaits| && gateHeld
        invariant Acquire(start, id, awaits).after == Acquire(State(), id, awaits[i..]).after
        invariant Acquire(start, id, awaits).outcome == Acquire(State(), id, awaits[i..]).outcome
        decreases |awaits| - i
      {
        if i == |awaits| {
          // still inside await(), which has given up the gate
          gateHeld := false;
          return StillWaiting;
        }
        // await() gives up the gate, other threads write the fields, and
        // the gate is taken back before await() returns or throws
        owner, holdCount := awaits[i].seen.owner, awaits[i].seen.holdCount;
        if awaits[i].Interrupted? {
          // the catch is outside the loop: the method ends, nothing acquired
          gateHeld := false;
          return InterruptedWait;
        }
        assert awaits[i..][1..] == awaits[i + 1..];
        i := i + 1;
      }
      owner := id;
      holdCount := holdCount + 1;
      gateHeld := false;
      outcome := Acquired;
    }

    /** unlock() by thread `id`. The exception is thrown before the gate is
        given back and nothing releases it on that path, so after an
        IllegalMonitorState outcome the gate stays held. */
    method Unlock(id: int) returns (outcome: UnlockOutcome)
      requires GateFree()
      modifies this
      ensures State() == Release(old(State()), id).after
      ensures outcome == Release(old(State()), id).outcome
      ensures outcome == IllegalMonitorState <==> !HeldBy(old(State()), id)
      ensures outcome == IllegalMonitorState ==> owner == old(owner) && holdCount == old(holdCount)
      ensures GateFree() <==> outcome != IllegalMonitorState
    {
      gateHeld := true;
      if owner != id || holdCount == 0 {
        return IllegalMonitorState;
      }
      holdCount := holdCount - 1;
      var signalled := holdCount == 0;
      gateHeld := false;
      outcome := Released(signalled);
    }
  }

  /** B's lock() while A holds once: a spurious wake finds A still
      holding, the next wake finds what A's last unlock left. */
  lemma HandOverSchedule()
    ensures Release(Fields(1, 1), 1) == ReleaseResult(Fields(1, 0), Released(true))
    ensures Acquire(Fields(1, 1), 2, [Woken(Fields(1, 1)), Woken(Fields(1, 0))])
         == AcquireResult(2, Fields(2, 1), Acquired)
  {
  }

  // Verified client methods for the lock's usage scenarios, on lock
  // objects with threads 1 (A) and 2 (B). What A does while B waits
  // reaches B through the fields its awaits find.

  /** A locks twice: both calls return at once; the first unlock keeps
      A as holder without a signal, the second frees the lock and signals. */
  method ScenarioReentrant() {
    var l := new SimpleReentrantLock();
    var o := l.Lock(1, []);
    assert o == Acquired;
    assert l.State() == Fields(1, 1);
    o := l.Lock(1, []);
    assert o == Acquired;
    assert l.State() == Fields(1, 2);
    var u := l.Unlock(1);
    assert u == Released(false);
    assert HeldBy(l.State(), 1);
    u := l.Unlock(1);
    assert u == Released(true);
    assert Free(l.State());
  }

  /** A holds the lock; B waits, is woken once spuriously while A still
      holds, then finds the fields A's last unlock left, and takes it. */
  method ScenarioHandOver() {
    var l := new SimpleReentrantLock();
    var o := l.Lock(1, []);
    assert l.State() == Fields(1, 1);
    HandOverSchedule();
    o := l.Lock(2, [Woken(Fields(1, 1)), Woken(Fields(1, 0))]);
    assert o == Acquired;
    assert l.State() == Fields(2, 1);
  }

  /** A holds the lock; B calls unlock(): it throws, the fields stay as
      they were and the gate is left held, so no later call can start. */
  method ScenarioGateLeak() {
    var l := new SimpleReentrantLock();
    var o := l.Lock(1, []);
    var u := l.Unlock(2);
    assert u == IllegalMonitorState;
    assert l.State() == Fields(1, 1);
    assert !l.GateFree();
  }

  /** unlock() on a lock nobody holds throws and changes nothing. */
  method ScenarioUnlockFree() {
    var l := new SimpleReentrantLock();
    var u := l.Unlock(1);
    assert u == IllegalMonitorState;
    assert l.State() == Initial;
  }

  /** An interrupted wait ends lock() without acquiring, even though the
      lock would have been free on the next wake. */
  method ScenarioInterrupt() {
    var l := new SimpleReentrantLock();
    var o := l.Lock(1, []);
    var awaits := [Interrupted(Fields(1, 1)), Woken(Fields(1, 0))];
    assert Acquire(Fields(1, 1), 2, awaits) == AcquireResult(1, Fields(1, 1), InterruptedWait);
    o := l.Lock(2, awaits);
    assert o == InterruptedWait;
    assert l.State() == Fields(1, 1);
  }
}
