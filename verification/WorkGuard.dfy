/** executor_work_guard (executor_work_guard.hpp): a guard that owns work counts
    for one unit of its executor's outstanding work. */
module WorkGuards {
  import opened Prelude

  // The part of an executor a guard uses: the work counter of its scheduler.
  class Executor {
    var outstanding: int

    constructor ()
      ensures outstanding == 0
    {
      outstanding := 0;
    }
  }

  class WorkGuard {
    const executor: Executor
    var owns: bool

    constructor (executor: Executor)
      modifies executor
      ensures this.executor == executor && owns && executor.outstanding == old(executor.outstanding) + 1
    {
      this.executor := executor;
      owns := true;
      new;
      executor.outstanding := executor.outstanding + 1;
    }

    constructor Copy(other: WorkGuard)
      modifies other.executor
      ensures executor == other.executor && owns == other.owns
      ensures executor.outstanding == old(other.executor.outstanding) + if owns then 1 else 0
    {
      executor := other.executor;
      owns := other.owns;
      new;
      if owns {
        executor.outstanding := executor.outstanding + 1;
      }
    }

    constructor Move(other: WorkGuard)
      modifies other
      ensures executor == other.executor && owns == old(other.owns) && !other.owns
    {
      executor := other.executor;
      owns := other.owns;
      new;
      other.owns := false;
    }

    // The source's reset() leaves owns_ set; as evidently meant, it is cleared.
    method Reset()
      modifies this, executor
      ensures !owns && executor.outstanding == old(executor.outstanding) - if old(owns) then 1 else 0
    {
      if owns {
        executor.outstanding := executor.outstanding - 1;
        owns := false;
      }
    }

    method Destroy()
      modifies executor
      ensures executor.outstanding == old(executor.outstanding) - if owns then 1 else 0
    {
      if owns {
        executor.outstanding := executor.outstanding - 1;
      }
    }
  }

  // ---- All histories of guards ----

  // The live guards (None once destroyed) and the executor's counter.
  datatype Pool = Pool(guards: seq<Option<bool>>, outstanding: int)

  datatype Action = Create | CopyOf(i: nat) | MoveOf(i: nat) | ResetOf(i: nat) | DestroyOf(i: nat)

  predicate Possible(p: Pool, a: Action)
  {
    a.Create? || (a.i < |p.guards| && p.guards[a.i].Some?)
  }

  function Unit(g: Option<bool>): int { if g == Some(true) then 1 else 0 }

  /** What an action does; with `literal`, reset() keeps owns_. */
  function Do(p: Pool, a: Action, literal: bool): Pool
    requires Possible(p, a)
  {
    match a
    case Create => Pool(p.guards + [Some(true)], p.outstanding + 1)
    case CopyOf(i) => Pool(p.guards + [p.guards[i]], p.outstanding + Unit(p.guards[i]))
    case MoveOf(i) => Pool(p.guards[i := Some(false)] + [p.guards[i]], p.outstanding)
    case ResetOf(i) =>
      Pool(if literal then p.guards else p.guards[i := Some(false)], p.outstanding - Unit(p.guards[i]))
    case DestroyOf(i) => Pool(p.guards[i := None], p.outstanding - Unit(p.guards[i]))
  }

  function Owning(guards: seq<Option<bool>>): nat
  {
    if guards == [] then 0 else Unit(guards[0]) + Owning(guards[1..])
  }

  lemma {:induction false} OwningUpdate(guards: seq<Option<bool>>, i: nat, g: Option<bool>)
    requires i < |guards|
    ensures Owning(guards[i := g]) == Owning(guards) - Unit(guards[i]) + Unit(g)
  {
    if i == 0 {
      assert guards[i := g][1..] == guards[1..];
    } else {
      OwningUpdate(guards[1..], i - 1, g);
      assert guards[i := g][1..] == guards[1..][i - 1 := g];
    }
  }

  lemma {:induction false} OwningSnoc(guards: seq<Option<bool>>, g: Option<bool>)
    ensures Owning(guards + [g]) == Owning(guards) + Unit(g)
  {
    if guards == [] {
      assert guards + [g] == [g];
    } else {
      OwningSnoc(guards[1..], g);
      assert (guards + [g])[1..] == guards[1..] + [g];
    }
  }

  /** The counter equals the number of guards that own work, after any action and
      hence after any history, if and only if reset() is the intended one or was
      called on a guard that owned nothing. */
  lemma GuardsAreCounted(p: Pool, a: Action, literal: bool)
    requires Possible(p, a) && p.outstanding == Owning(p.guards)
    ensures var p' := Do(p, a, literal);
      p'.outstanding == Owning(p'.guards) <==> !(literal && a.ResetOf? && p.guards[a.i] == Some(true))
  {
    match a
    case Create => OwningSnoc(p.guards, Some(true));
    case CopyOf(i) => OwningSnoc(p.guards, p.guards[i]);
    case MoveOf(i) =>
      OwningUpdate(p.guards, i, Some(false));
      OwningSnoc(p.guards[i := Some(false)], p.guards[i]);
    case ResetOf(i) => OwningUpdate(p.guards, i, Some(false));
    case DestroyOf(i) => OwningUpdate(p.guards, i, None);
  }

  predicate History(pools: seq<Pool>, actions: seq<Action>)
  {
    && |pools| == |actions| + 1 && pools[0] == Pool([], 0)
    && forall k :: 0 <= k < |actions| ==> Possible(pools[k], actions[k]) && pools[k + 1] == Do(pools[k], actions[k], false)
  }

  /** Over every history of guards the counter is the number that own work. */
  lemma {:induction false} CounterIsOwners(pools: seq<Pool>, actions: seq<Action>, k: nat)
    requires History(pools, actions) && k < |pools|
    ensures pools[k].outstanding == Owning(pools[k].guards)
  {
    if k > 0 {
      CounterIsOwners(pools, actions, k - 1);
      GuardsAreCounted(pools[k - 1], actions[k - 1], false);
    }
  }
}
