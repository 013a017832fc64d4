/** scheduler::shutdown, over runs: whatever state it is called in, it destroys an
    operation at most once, and none that is anywhere else. */
module Destruction {
  import opened SchedulerCore
  import opened Protocol
  import opened Totals
  import opened Accounting
  import opened Runs
  import SchedulerClass

  lemma {:induction false} CountIsWeight(ops: seq<Op<nat>>, u: nat)
    ensures multiset(ops)[User(u)] == WeightOfOps(Just(u), ops)
  {
    if ops != [] {
      CountIsWeight(ops[1..], u);
      assert ops == [ops[0]] + ops[1..];
      assert multiset(ops) == multiset{ops[0]} + multiset(ops[1..]);
    }
  }

  // Operation u is in a thread's hands or private queue, a descriptor's queue, a
  // start_op, a post, or completed.
  predicate Elsewhere(s: State, u: nat)
  {
    || Total(Load(Just(u)), s.sched.threads) > 0
    || DescsLoad(Just(u), s.descs) > 0
    || LocksLoad(ToPlace(Just(u)), s.locks) > 0
    || BatchesLoad(Just(u), s.batches) > 0
    || WeightOfIds(Just(u), s.completed) > 0
  }

  /** Completed or destroyed, but not both, and not twice. */
  lemma ShutdownDestroysOnce(states: seq<State>, steps: seq<Step>, i: nat, u: nat)
    requires IsRun(states, steps) && i < |states|
    ensures var destroyed := multiset(SchedulerClass.WithoutTask(states[i].sched.core.ops))[User(u)];
      destroyed <= 1 && (destroyed == 1 ==> !Elsewhere(states[i], u))
  {
    ExactlyOnce(states, steps, i, u);
    SchedulerClass.WithoutTaskSpec(states[i].sched.core.ops, User(u));
    CountIsWeight(states[i].sched.core.ops, u);
  }
}
