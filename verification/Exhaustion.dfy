/** Exhaustion is exact: the work counter is what the queues and threads say it
    is, never underflows, and reaches zero exactly when nothing is left. */
module Exhaustion {
  import opened SchedulerCore
  import opened Descriptors
  import opened Protocol
  import opened Totals
  import opened LocalQueues
  import opened Accounting
  import opened DescriptorInvariant

  // What a thread accounts for in the common counter.
  function Net(th: Thread): int
  {
    Of(Load(Everything), th) + Of(Units, th) - Of(Work, th)
  }

  function NetTotal(ths: seq<Thread>): int
  {
    if ths == [] then 0 else Net(ths[0]) + NetTotal(ths[1..])
  }

  // Neither queues, nor executes, nor accounts for a user operation.
  predicate Quiet(th: Thread)
  {
    && (forall i :: 0 <= i < |th.privateOps| ==> !th.privateOps[i].User?)
    && !th.pc.Running? && !th.pc.Posting? && !th.pc.Flushed?
    && (th.pc.Scanning? ==> th.pc.done == [])
  }

  lemma {:induction false} UsersCount(ops: seq<Op<nat>>)
    ensures WeightOfOps(Everything, ops) <= |ops|
    ensures OnlyUsers(ops) ==> WeightOfOps(Everything, ops) == |ops|
    ensures WeightOfOps(Everything, ops) == 0 <==> forall i :: 0 <= i < |ops| ==> !ops[i].User?
  {
    if ops != [] {
      UsersCount(ops[1..]);
      assert ops == [ops[0]] + ops[1..];
    }
  }

  lemma {:induction false} IdsCount(us: seq<nat>)
    ensures WeightOfIds(Everything, us) == |us|
  {
    if us != [] {
      IdsCount(us[1..]);
    }
  }

  lemma NetSign(th: Thread, n: nat)
    requires Shape(th, n)
    ensures Net(th) >= 0 && (Net(th) == 0 <==> Quiet(th))
    ensures th.pc.Flushed? ==> Net(th) >= 1 && (Net(th) == 1 <==> th.privateOps == [])
  {
    UsersCount(th.privateOps);
    if th.pc.Scanning? {
      IdsCount(th.pc.done);
    }
  }

  lemma {:induction false} NetSum(ths: seq<Thread>)
    ensures NetTotal(ths) == Total(Load(Everything), ths) + Total(Units, ths) - Total(Work, ths)
  {
    if ths != [] {
      NetSum(ths[1..]);
    }
  }

  lemma {:induction false} NetAllQuiet(ths: seq<Thread>, n: nat)
    requires Shapes(ths, n)
    ensures NetTotal(ths) >= 0 && (NetTotal(ths) == 0 <==> forall i :: 0 <= i < |ths| ==> Quiet(ths[i]))
  {
    if ths != [] {
      NetSign(ths[0], n);
      NetAllQuiet(ths[1..], n);
      assert ths == [ths[0]] + ths[1..];
    }
  }

  lemma {:induction false} NetOthersQuiet(ths: seq<Thread>, n: nat, t: nat)
    requires Shapes(ths, n) && t < |ths|
    ensures NetTotal(ths) >= Net(ths[t])
    ensures NetTotal(ths) == Net(ths[t]) <==> forall i :: 0 <= i < |ths| && i != t ==> Quiet(ths[i])
  {
    NetSign(ths[0], n);
    assert ths == [ths[0]] + ths[1..];
    if t == 0 {
      NetAllQuiet(ths[1..], n);
    } else {
      NetOthersQuiet(ths[1..], n, t - 1);
      var rest := ths[1..];
      assert forall i :: 0 <= i < |rest| ==> rest[i] == ths[i + 1];
      assert rest[t - 1] == ths[t];
      if forall i :: 0 <= i < |ths| && i != t ==> Quiet(ths[i]) {
        assert forall i :: 0 <= i < |rest| && i != t - 1 ==> Quiet(rest[i]);
      }
      if Quiet(ths[0]) && forall i :: 0 <= i < |rest| && i != t - 1 ==> Quiet(rest[i]) {
        forall i | 0 <= i < |ths| && i != t
          ensures Quiet(ths[i])
        {
          assert i > 0 ==> ths[i] == rest[i - 1];
        }
      }
    }
  }

  // Nothing queued but, while start_op is between queueing its operation and
  // charging for it, that operation.
  predicate OnlyUncharged(d: Desc, m: Mutex)
  {
    d.queues == if m.Charging? then NO_OPS[m.j := [m.op]] else NO_OPS
  }

  lemma DescCharged(d: Desc, m: Mutex)
    requires ChargeOk(d, m)
    ensures DescLoad(Everything, d) >= LockLoad(ToCharge, m)
    ensures DescLoad(Everything, d) == LockLoad(ToCharge, m) <==> OnlyUncharged(d, m)
  {
    IdsCount(d.queues[0]);
    IdsCount(d.queues[1]);
    IdsCount(d.queues[2]);
    if m.Charging? && DescLoad(Everything, d) == 1 {
      assert d.queues[m.j] == [m.op];
    }
  }

  lemma {:induction false} DescsCharged(ds: seq<Desc>, ms: seq<Mutex>)
    requires |ds| == |ms| && forall d :: 0 <= d < |ds| ==> ChargeOk(ds[d], ms[d])
    ensures DescsLoad(Everything, ds) >= LocksLoad(ToCharge, ms)
    ensures DescsLoad(Everything, ds) == LocksLoad(ToCharge, ms) <==>
      forall d :: 0 <= d < |ds| ==> OnlyUncharged(ds[d], ms[d])
  {
    if ds != [] {
      DescCharged(ds[0], ms[0]);
      DescsCharged(ds[1..], ms[1..]);
      assert forall d :: 0 < d < |ds| ==> ds[d] == ds[1..][d - 1] && ms[d] == ms[1..][d - 1];
      assert forall d :: 0 <= d < |ds| - 1 ==> ds[1..][d] == ds[d + 1] && ms[1..][d] == ms[d + 1];
    }
  }

  lemma {:induction false} BatchesEmpty(bs: seq<Batch>)
    ensures BatchesLoad(Everything, bs) == 0 <==> forall i :: 0 <= i < |bs| ==> bs[i].ops == []
  {
    if bs != [] {
      BatchesEmpty(bs[1..]);
      IdsCount(bs[0].ops);
      assert bs == [bs[0]] + bs[1..];
    }
  }

  /** The work-accounting equation, thread by thread. */
  lemma CounterEquation(s: State)
    requires Accounted(s)
    ensures s.sched.core.outstanding
         == s.guards + WeightOfOps(Everything, s.sched.core.ops)
            + (DescsLoad(Everything, s.descs) - LocksLoad(ToCharge, s.locks))
            + BatchesLoad(Everything, s.batches) + NetTotal(s.sched.threads)
  {
    NetSum(s.sched.threads);
  }

  // No work but that of thread t: no guard, and no user operation in the shared
  // queue, any descriptor queue, any post under way, or any other thread, other
  // than an operation its start_op has queued and not yet charged.
  ghost predicate NothingElse(s: State, t: nat)
    requires Sized(s)
  {
    && s.guards == 0
    && (forall i :: 0 <= i < |s.sched.core.ops| ==> !s.sched.core.ops[i].User?)
    && (forall d :: 0 <= d < |s.descs| ==> OnlyUncharged(s.descs[d], s.locks[d]))
    && (forall i :: 0 <= i < |s.batches| ==> s.batches[i].ops == [])
    && (forall i :: 0 <= i < |s.sched.threads| && i != t ==> Quiet(s.sched.threads[i]))
  }

  // What the counter is short of without thread t is there exactly when nothing
  // else is left.
  lemma QueuesEmpty(s: State)
    requires LocalInv(s) && DescsOk(s)
    ensures WeightOfOps(Everything, s.sched.core.ops) == 0 <==>
      forall i :: 0 <= i < |s.sched.core.ops| ==> !s.sched.core.ops[i].User?
    ensures DescsLoad(Everything, s.descs) >= LocksLoad(ToCharge, s.locks)
    ensures DescsLoad(Everything, s.descs) == LocksLoad(ToCharge, s.locks) <==>
      forall d :: 0 <= d < |s.descs| ==> OnlyUncharged(s.descs[d], s.locks[d])
    ensures BatchesLoad(Everything, s.batches) == 0 <==> forall i :: 0 <= i < |s.batches| ==> s.batches[i].ops == []
  {
    UsersCount(s.sched.core.ops);
    forall d | 0 <= d < |s.descs|
      ensures ChargeOk(s.descs[d], s.locks[d])
    {
      assert DescOk(s.descs[d], s.locks[d], s.nextId);
    }
    DescsCharged(s.descs, s.locks);
    BatchesEmpty(s.batches);
  }

  /** A thread about to give back its unit finds the counter positive, and brings
      it to zero exactly when nothing else is left to do. */
  lemma ExhaustionIsExact(s: State, t: nat)
    requires LocalInv(s) && DescsOk(s) && Accounted(s) && At(s, t) && s.sched.threads[t].pc.Flushed?
    ensures s.sched.core.outstanding >= 1
    ensures s.sched.core.outstanding == 1 <==> NothingElse(s, t) && s.sched.threads[t].privateOps == []
  {
    CounterEquation(s);
    NetOthersQuiet(s.sched.threads, |s.descs|, t);
    assert Shape(s.sched.threads[t], |s.descs|);
    NetSign(s.sched.threads[t], |s.descs|);
    QueuesEmpty(s);
  }

  /** The release of a guard never underflows the counter either, and reaches zero
      only when nothing at all is left. */
  lemma GuardReleaseIsExact(s: State)
    requires LocalInv(s) && DescsOk(s) && Accounted(s) && s.guards > 0
    ensures s.sched.core.outstanding >= 1
    ensures s.sched.core.outstanding == 1 <==> NothingElse(s.(guards := s.guards - 1), |s.sched.threads|)
  {
    CounterEquation(s);
    NetAllQuiet(s.sched.threads, |s.descs|);
    QueuesEmpty(s);
  }

  /** Adding the private work first never takes the counter through zero: while a
      thread executes a user operation the counter is positive, before and after
      the private work is added. */
  lemma NeverThroughZero(s: State, t: nat)
    requires LocalInv(s) && DescsOk(s) && Accounted(s) && At(s, t) && s.sched.threads[t].pc.Running?
    ensures 1 <= s.sched.core.outstanding <= FlushWork(s.sched, t).core.outstanding
  {
    CounterEquation(s);
    NetOthersQuiet(s.sched.threads, |s.descs|, t);
    assert Shape(s.sched.threads[t], |s.descs|);
    NetSign(s.sched.threads[t], |s.descs|);
    QueuesEmpty(s);
  }
}
