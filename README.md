# SimpleReentrantLock in Dafny

A model of the bookkeeping of `SimpleReentrantLock`, an educational reentrant
lock written in Java. The lock records the thread that holds it (`owner`) and
how many of that thread's `lock()` calls are still unmatched by `unlock()`
(`holdCount`). Both fields are updated under a common lock, the "gate". A
condition, "no holder", blocks acquirers while another thread holds the lock.

The model has three parts:

- `lock_state.dfy` (module `LockState`) holds the two fields as a value,
  `Fields(owner, holdCount)`. It also holds the transitions of `lock()` and
  `unlock()` as pure functions, `Acquire` and `Release`.
  - `lock()`'s wait loop is driven by a schedule. This is a sequence with one
    `AwaitResult` per call of `await()`. Each one says whether the call
    returned normally or threw `InterruptedException`. It also gives the fields
    as the waiting thread finds them once it has the gate back.
  - If the schedule runs out while another thread still holds the lock, the
    outcome is `StillWaiting`: the real call would still be blocked.
  - `unlock()` returns `IllegalMonitorState` where the Java code throws.
    Otherwise it returns `Released(signalled)`, where the flag says whether
    `noHolder.signal()` was called.
- `simple_reentrant_lock.dfy` (module `ReentrantLock`) holds the lock object
  itself: a class with the mutable fields `owner`, `holdCount` and `gateHeld`.
  `Lock` keeps the source's `while`/`await` loop. `Unlock` keeps the source's
  early throw. Each method's postcondition ties the new fields and the result
  to `Acquire` or `Release` on the old fields. Small verified client methods go
  through the lock's usage scenarios on real objects.
- `lock_properties.dfy` (module `LockProperties`) proves properties that span
  several calls:
  - reentrant counting by one thread;
  - an interrupted wait ends `lock()`;
  - a wait that only ever finds another holder never acquires;
  - a lock() that acquires after waiting takes effect at its last guard check,
    exactly like a lock() that does not wait;
  - when the calls of many threads interleave, the fields account exactly for
    each thread's holds, which gives mutual exclusion: no lock() by another
    thread can acquire while one thread holds the lock.

The thread id is a parameter of every operation. It stands in for
`Thread.currentThread().getId()`. The gate is a flag: `lock()` and `unlock()`
can start only while nobody holds it, which is how blocking on the gate is
modelled.

Two behaviours of the code are modelled as they are written. One might expect
an interrupted wait to be retried, and the gate to be released when `unlock()`
throws; the code does neither:

- **The catch sits outside the wait loop** (SimpleReentrantLock.java:42-48).
  An `InterruptedException` from `await()` ends `lock()` at once. The wait is
  not retried, and `lock()` returns normally without acquiring anything. The
  model's outcome for this is `InterruptedWait`. `InterruptEndsLock` proves
  that the rest of the schedule does not matter.
- **The gate leaks when `unlock()` throws** (SimpleReentrantLock.java:60-64).
  The exception is thrown before `lock.unlock()`, and no try/finally gives the
  gate back. After an `IllegalMonitorState` outcome, `gateHeld` stays set and
  `GateFree()` is false. Every later `Lock` or `Unlock` requires `GateFree()`,
  so none of them can start. `ScenarioGateLeak` shows this on an object.

## Model

| member | source | states |
|---|---|---|
| `LockState.Acquire` | SimpleReentrantLock.java:39-50 | lock() never waits beyond its schedule. If it acquires, the fields it last read showed no other holder, and it leaves `owner == id` with one more hold than it found. If interrupted, the last await was the interrupted one and the fields are as the interrupt found them. If still waiting, the whole schedule was used, another thread still holds the lock and the caller wrote nothing. |
| `LockState.AcquireWaitsOnlyWhileHeld` | SimpleReentrantLock.java:43-44 | Every await a lock() call makes was entered because the guard found another holder at that check. Every await but the last returned normally, so the loop re-checks after each wake. |
| `LockState.Release` | SimpleReentrantLock.java:58-65 | unlock() throws exactly when the caller is not the owner or the count is 0, and then changes nothing. Otherwise it keeps the owner and removes exactly one hold. It signals exactly when that hold was the last. |
| `ReentrantLock.SimpleReentrantLock.constructor` | SimpleReentrantLock.java:28 | A new lock has Java's default values `owner == 0` and `holdCount == 0`, so it is free, and the gate is not held. |
| `ReentrantLock.SimpleReentrantLock.Lock` | SimpleReentrantLock.java:39-50 | The while/await loop updates the object's fields in place and ends in the state and outcome `Acquire` gives for the old fields. It gives the gate back on every exit. A caller that found the lock free or its own ends as owner with one more hold. |
| `ReentrantLock.SimpleReentrantLock.Unlock` | SimpleReentrantLock.java:58-65 | The fields and outcome are those of `Release` on the old fields. It throws exactly when the caller did not hold the lock, and then owner and holdCount are unchanged. The gate is left held exactly on the throwing path. |
| `ReentrantLock.HandOverSchedule` | SimpleReentrantLock.java:43-46 | A waiter that is woken once while the holder still holds, and then finds the fields of the holder's last unlock(), acquires with holdCount 1 after two awaits. That last unlock() signals. |
| `LockProperties.RepeatedLocking` | SimpleReentrantLock.java:43-46 | A thread that holds the lock, or finds it free, never waits on any of n further lock() calls. After them it is owner with n more holds. |
| `LockProperties.BalancedUnlocking` | SimpleReentrantLock.java:61-63 | From n holds, each of m <= n unlock() calls by the owner succeeds, keeps the owner, removes one hold, and signals only when it removes the last. |
| `LockProperties.Reentrancy` | SimpleReentrantLock.java:43-63 | From a free lock, n lock() calls by one thread give it exactly n holds. After fewer than n unlock() calls it still holds the lock. After exactly n the lock is free, and the n-th unlock() signalled. One more unlock() throws. |
| `LockProperties.InterruptEndsLock` | SimpleReentrantLock.java:42-49 | After k normal wakes that still find another holder, an interrupted await ends lock() after k+1 awaits, with the fields the interrupt found and nothing acquired, whatever the rest of the schedule. |
| `LockProperties.InterruptLeavesFields` | SimpleReentrantLock.java:42-49 | An interrupt on the first wait that finds the fields as they were leaves owner and holdCount unchanged. |
| `LockProperties.BlockedWhileHeld` | SimpleReentrantLock.java:43-44 | If every guard check finds another holder and no wait is interrupted, lock() has not returned when the schedule ends, and the caller is not owner. |
| `LockProperties.AcquireTakesEffectAtomically` | SimpleReentrantLock.java:43-46 | A lock() that acquires, after any number of waits, does so at the fields of its last guard check: the guard lets it through there, and its effect is that of the trace step of a lock() that does not wait. |
| `LockProperties.HoldsAccounted` | SimpleReentrantLock.java:43-63 | After any interleaving of calls by many threads that take effect (a lock() that acquires, an unlock() that releases), each thread's lock() calls minus its unlock() calls equal `holdCount` for the owner and 0 for every other thread. |
| `LockProperties.MutualExclusion` | SimpleReentrantLock.java:43-46 | In any such interleaving no thread's count of holds goes negative, at most one thread has holds, and while it has them no lock() by another thread can acquire. An interrupted lock() by another thread still returns, without a hold. |
| `LockProperties.FreedLockAdmitsAnyone` | SimpleReentrantLock.java:43-63 | When the owner has exactly one hold, its unlock() takes effect and frees the lock. After it, a lock() by any thread can take effect next, and that thread becomes owner with one hold. |

## Left out

- Real blocking, waking and scheduling. `noHolder.await()` is replaced by a given schedule of outcomes. `noHolder.signal()` is replaced by the `signalled` flag. Which waiter wakes, and when, is not modelled, and the platform's condition semantics are not reimplemented.
- The common `Lock` (SimpleReentrantLock.java:41, 49, 60, 64) is a flag, `gateHeld`, with no record of which thread holds it. Whether the thread that leaked it could take it again depends on that lock's concrete type. The shown file never assigns that type.
- `Thread.currentThread().getId()` is a foreign runtime call. It becomes the `id` parameter.
- `AbstractLock`, the base class, is not part of this model.
- The fields `lock` and `noHolder` are never assigned in the file, so the Java code as shown would throw a null-pointer exception on its first call. The model's constructor sets only the default `owner == 0`, `holdCount == 0`, and the gate is treated as an existing, free lock.
- LockState.Acquire: `holdCount` is an unbounded `nat`. The Java `long` would wrap to a negative value after 2^63 - 1 nested acquisitions by one thread. That case is not modelled.
- The thread's interrupt status, which Java clears when `InterruptedException` is thrown, is not tracked.
- LockProperties.HoldsAccounted: interleavings contain only calls that take effect (a lock() that acquires, an unlock() that releases). An interrupted lock() returns normally without a hold and writes nothing, so it is left out of the trace; a caller that then goes on as if it held the lock is exactly how a program using this lock loses mutual exclusion, and nothing here rules that out. A throwing unlock() leaves the gate held, so no call can follow it.
- Fairness, timeouts and cancellation: the code has none of them. No claim is made about them.
