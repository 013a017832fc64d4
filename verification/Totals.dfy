/** Sums over the threads of a state: how many wait, how many are in the reactor,
    how much private work there is, and how many operations are in their hands. */
module Totals {
  import opened SchedulerCore
  import opened EventWord
  import opened Protocol

  // Counts every operation once, or one chosen operation only.
  datatype Weight = Everything | Just(id: nat) {
    function Of(u: nat): nat { if this == Everything || this == Just(u) then 1 else 0 }
  }

  function WeightOfIds(w: Weight, us: seq<nat>): nat
  {
    if us == [] then 0 else w.Of(us[0]) + WeightOfIds(w, us[1..])
  }

  // Only user operations weigh anything: descriptor and task operations do not.
  function WeightOfOp(w: Weight, o: Op<nat>): nat { if o.User? then w.Of(o.h) else 0 }

  function WeightOfOps(w: Weight, ops: seq<Op<nat>>): nat
  {
    if ops == [] then 0 else WeightOfOp(w, ops[0]) + WeightOfOps(w, ops[1..])
  }

  lemma {:induction false} IdsConcat(w: Weight, a: seq<nat>, b: seq<nat>)
    ensures WeightOfIds(w, a + b) == WeightOfIds(w, a) + WeightOfIds(w, b)
  {
    if a == [] {
      assert a + b == b;
    } else {
      IdsConcat(w, a[1..], b);
      assert (a + b)[1..] == a[1..] + b;
    }
  }

  lemma {:induction false} OpsConcat(w: Weight, a: seq<Op<nat>>, b: seq<Op<nat>>)
    ensures WeightOfOps(w, a + b) == WeightOfOps(w, a) + WeightOfOps(w, b)
  {
    if a == [] {
      assert a + b == b;
    } else {
      OpsConcat(w, a[1..], b);
      assert (a + b)[1..] == a[1..] + b;
    }
  }

  lemma {:induction false} UsersWeight(w: Weight, us: seq<nat>)
    ensures WeightOfOps(w, Users(us)) == WeightOfIds(w, us)
  {
    if us != [] {
      UsersWeight(w, us[1..]);
      assert Users(us)[1..] == Users(us[1..]);
    }
  }

  datatype Measure = Waiters | InReactor | Work | Units | Load(w: Weight)

  // Operations held by a thread outside its private queue.
  function PcLoad(w: Weight, pc: Pc): nat
  {
    match pc
    case Running(u) => w.Of(u)
    case Scanning(_, _, _, done) => WeightOfIds(w, done)
    case Posting(first, rest) => w.Of(first) + WeightOfIds(w, rest)
    case _ => 0
  }

  function Of(m: Measure, th: Thread): nat
  {
    match m
    case Waiters => if th.pc.Waiting? || th.pc.Notified? then 1 else 0
    case InReactor => if th.pc.InTask? || th.pc.TaskReturned? then 1 else 0
    case Work => th.privateWork
    case Units => if th.pc.Compensated? || th.pc.Flushed? then 1 else 0
    case Load(w) => WeightOfOps(w, th.privateOps) + PcLoad(w, th.pc)
  }

  function Total(m: Measure, ths: seq<Thread>): nat
  {
    if ths == [] then 0 else Of(m, ths[0]) + Total(m, ths[1..])
  }

  lemma {:induction false} TotalUpdate(m: Measure, ths: seq<Thread>, t: nat, th: Thread)
    requires t < |ths|
    ensures Total(m, ths[t := th]) == Total(m, ths) - Of(m, ths[t]) + Of(m, th)
  {
    if t == 0 {
      assert ths[t := th][1..] == ths[1..];
    } else {
      TotalUpdate(m, ths[1..], t - 1, th);
      assert ths[t := th][1..] == ths[1..][t - 1 := th];
    }
  }

  lemma {:induction false} TotalSame(m: Measure, a: seq<Thread>, b: seq<Thread>)
    requires |a| == |b|
    requires forall i :: 0 <= i < |a| ==> Of(m, a[i]) == Of(m, b[i])
    ensures Total(m, a) == Total(m, b)
  {
    if a != [] {
      TotalSame(m, a[1..], b[1..]);
    }
  }

  lemma {:induction false} TotalAtLeast(m: Measure, ths: seq<Thread>, t: nat)
    requires t < |ths|
    ensures Of(m, ths[t]) <= Total(m, ths)
  {
    if t > 0 {
      TotalAtLeast(m, ths[1..], t - 1);
    }
  }

  lemma {:induction false} TotalAtLeastTwo(m: Measure, ths: seq<Thread>, t: nat, u: nat)
    requires t < u < |ths|
    ensures Of(m, ths[t]) + Of(m, ths[u]) <= Total(m, ths)
  {
    if t == 0 {
      TotalAtLeast(m, ths[1..], u - 1);
    } else {
      TotalAtLeastTwo(m, ths[1..], t - 1, u - 1);
    }
  }

  /** A positive total has a thread that contributes. */
  lemma {:induction false} SomeContributes(m: Measure, ths: seq<Thread>) returns (t: nat)
    requires Total(m, ths) > 0
    ensures t < |ths| && Of(m, ths[t]) > 0
  {
    if Of(m, ths[0]) > 0 {
      t := 0;
    } else {
      t := SomeContributes(m, ths[1..]);
      t := t + 1;
    }
  }

  lemma {:induction false} TotalZero(m: Measure, ths: seq<Thread>)
    requires forall i :: 0 <= i < |ths| ==> Of(m, ths[i]) == 0
    ensures Total(m, ths) == 0
  {
    if ths != [] {
      TotalZero(m, ths[1..]);
    }
  }

  lemma {:induction false} AtMostOneEach(ths: seq<Thread>)
    ensures Total(Waiters, ths) <= |ths|
  {
    if ths != [] {
      AtMostOneEach(ths[1..]);
    }
  }

  /** Delivering a notification changes no total. */
  lemma DeliverKeepsTotals(m: Measure, ths: seq<Thread>, notify: Notify)
    ensures Total(m, Deliver(ths, notify)) == Total(m, ths)
  {
    TotalSame(m, Deliver(ths, notify), ths);
  }

  lemma ArriveKeepsTotals(m: Measure, sc: Sched, pick: nat)
    requires sc.notices > 0
    ensures Total(m, Arrive(sc, pick).threads) == Total(m, sc.threads)
  {
    TotalSame(m, Arrive(sc, pick).threads, sc.threads);
  }
}
