/** The packed wake-up word of `event` (event.hpp): bit 0 is the signalled flag,
    the bits above it count the live `waiter` objects. All arithmetic is modulo
    2^64, as on a size_t. */
module EventWord {
  import opened Prelude

  // What a call asks of the condition variable.
  datatype Notify = NoOne | One | All

  predicate Signalled(w: nat) { w % 2 == 1 }

  function SetBit(w: nat): nat { if w % 2 == 1 then w else w + 1 }    // w | 1

  function ClearBit(w: nat): nat { w - w % 2 }                        // w & ~1

  function AddWaiter(w: nat): nat { (w + 2) % SIZE_LIMIT }

  function DropWaiter(w: nat): nat { (w + (SIZE_LIMIT - 2)) % SIZE_LIMIT }

  /** The event a reader has in mind: a flag and a number of waiters. */
  datatype Simple = Simple(signalled: bool, waiters: nat)

  function Pack(e: Simple): nat { 2 * e.waiters + if e.signalled then 1 else 0 }

  predicate Fits(e: Simple) { Pack(e) < SIZE_LIMIT }

  /** The packed word determines the flag and the count. */
  lemma PackIsInjective(a: Simple, b: Simple)
    requires Pack(a) == Pack(b)
    ensures a == b
  {
    assert Pack(a) % 2 == Pack(b) % 2;
  }

  /** Each word operation is the pack of the operation on the simple event, and
      the test `state_ > 1` after setting the bit is the test for a waiter. */
  lemma WordOperationsRefine(e: Simple)
    requires Fits(e)
    ensures Signalled(Pack(e)) == e.signalled
    ensures SetBit(Pack(e)) == Pack(e.(signalled := true)) < SIZE_LIMIT
    ensures SetBit(Pack(e)) > 1 <==> e.waiters > 0
    ensures ClearBit(Pack(e)) == Pack(e.(signalled := false))
    ensures Fits(e.(waiters := e.waiters + 1)) ==> AddWaiter(Pack(e)) == Pack(e.(waiters := e.waiters + 1))
    ensures e.waiters > 0 ==> DropWaiter(Pack(e)) == Pack(e.(waiters := e.waiters - 1))
  {
    assert Pack(e) % 2 == if e.signalled then 1 else 0;
  }

  /** The class itself. Waiting is split where the source releases the mutex:
      `BeginWait` is the constructor of `waiter`, `EndWait` its destructor and
      the loop test after `cond_.wait` has returned. */
  class Event {
    var state: nat

    constructor ()
      ensures state == 0 && Valid() && Value() == Simple(false, 0)
    {
      state := 0;
    }

    ghost predicate Valid()
      reads this
    {
      state < SIZE_LIMIT
    }

    ghost function Value(): (e: Simple)
      reads this
      ensures Pack(e) == state
    {
      Simple(state % 2 == 1, state / 2)
    }

    method SignalAll() returns (notify: Notify)
      requires Valid()
      modifies this
      ensures Valid() && state == SetBit(old(state)) && Value() == old(Value()).(signalled := true)
      ensures notify == All
    {
      if state % 2 == 0 {
        state := state + 1;
      }
      notify := All;
    }

    method UnlockAndSignalOne() returns (notify: Notify)
      requires Valid()
      modifies this
      ensures Valid() && state == SetBit(old(state)) && Value() == old(Value()).(signalled := true)
      ensures notify == if old(Value()).waiters > 0 then One else NoOne
    {
      if state % 2 == 0 {
        state := state + 1;
      }
      notify := if state > 1 then One else NoOne;
    }

    method MaybeUnlockAndSignalOne() returns (unlocked: bool, notify: Notify)
      requires Valid()
      modifies this
      ensures Valid() && state == SetBit(old(state)) && Value() == old(Value()).(signalled := true)
      ensures unlocked <==> old(Value()).waiters > 0
      ensures notify == if unlocked then One else NoOne
    {
      if state % 2 == 0 {
        state := state + 1;
      }
      unlocked := state > 1;
      notify := if unlocked then One else NoOne;
    }

    method Clear()
      requires Valid()
      modifies this
      ensures Valid() && state == ClearBit(old(state)) && Value() == old(Value()).(signalled := false)
    {
      state := state - state % 2;
    }

    method BeginWait()
      requires Valid() && !Value().signalled && state + 2 < SIZE_LIMIT
      modifies this
      ensures Valid() && state == AddWaiter(old(state))
      ensures Value() == old(Value()).(waiters := old(Value()).waiters + 1)
    {
      state := (state + 2) % SIZE_LIMIT;
    }

    method EndWait() returns (done: bool)
      requires Valid() && Value().waiters > 0
      modifies this
      ensures Valid() && state == DropWaiter(old(state))
      ensures Value() == old(Value()).(waiters := old(Value()).waiters - 1)
      ensures done <==> old(Value()).signalled
    {
      state := (state + (SIZE_LIMIT - 2)) % SIZE_LIMIT;
      done := state % 2 == 1;
    }
  }
}
