/** What the private queues hold, and why membership in the private queue of the
    thread in the reactor is membership in any scheduler queue: no descriptor
    operation is ever queued twice. */
module LocalQueues {
  import opened Prelude
  import opened SchedulerCore
  import opened EventWord
  import opened Descriptors
  import opened Coalescing
  import opened Protocol
  import opened Totals
  import opened WakeUps

  predicate OnlyUsers(ops: seq<Op<nat>>)
  {
    forall i :: 0 <= i < |ops| ==> ops[i].User?
  }

  /** The private queue and counter of a thread, by what the thread is doing. */
  predicate Shape(th: Thread, n: nat)
  {
    match th.pc
    case Running(_) => OnlyUsers(th.privateOps) && th.privateWork <= |th.privateOps|
    case Compensated => th.privateOps == [] && th.privateWork == 1
    case Flushed => OnlyUsers(th.privateOps) && th.privateWork == 0
    case Stopping => OnlyUsers(th.privateOps) && th.privateWork == 0
    case Splicing => OnlyUsers(th.privateOps) && th.privateWork == 0
    case TaskReturned => OnlyDescriptors(th.privateOps, n) && Distinct(th.privateOps) && th.privateWork == 0
    case Performing(d, _) => d < n && th.privateOps == [] && th.privateWork == 0
    case Scanning(d, _, left, _) => d < n && left <= 3 && th.privateOps == [] && th.privateWork == 0
    case _ => th.privateOps == [] && th.privateWork == 0
  }

  ghost predicate Shapes(ths: seq<Thread>, n: nat)
  {
    forall i :: 0 <= i < |ths| ==> Shape(ths[i], n)
  }

  /** Descriptor operations in the shared queue are in front of task_operation_,
      exist only while it is queued, and are distinct. */
  ghost predicate QueueShape(ops: seq<Op<nat>>, n: nat)
  {
    && (forall i :: 0 <= i < |ops| && ops[i].Descriptor? ==> ops[i].d < n && Task in ops[i + 1..])
    && (forall i, k :: 0 <= i < k < |ops| && ops[i].Descriptor? ==> ops[i] != ops[k])
  }

  ghost predicate LocalInv(s: State)
  {
    && Sized(s)
    && Shapes(s.sched.threads, |s.descs|)
    && QueueShape(s.sched.core.ops, |s.descs|)
  }

  lemma {:induction false} TaskCounted(ops: seq<Op<nat>>)
    ensures Task in ops <==> Tasks(ops) > 0
  {
    if ops != [] {
      TaskCounted(ops[1..]);
      assert ops == [ops[0]] + ops[1..];
    }
  }

  lemma NoDescriptors(ops: seq<Op<nat>>, n: nat)
    requires QueueShape(ops, n) && Task !in ops
    ensures forall i :: 0 <= i < |ops| ==> !ops[i].Descriptor?
  {
    forall i | 0 <= i < |ops|
      ensures !ops[i].Descriptor?
    {
      assert Task in ops[i + 1..] ==> Task in ops;
    }
  }

  ghost predicate Enqueued(sc: Sched, d: nat)
  {
    || Descriptor(d) in sc.core.ops
    || exists i :: 0 <= i < |sc.threads| && Descriptor(d) in sc.threads[i].privateOps
  }

  /** While thread t is in the reactor, "in its private queue" and "in some
      queue of the scheduler" are the same thing. */
  lemma LocalIsGlobal(s: State, t: nat, d: nat)
    requires LocalInv(s) && WakeInv(s.sched) && At(s, t)
    requires s.sched.threads[t].pc.InTask? || s.sched.threads[t].pc.TaskReturned?
    ensures Enqueued(s.sched, d) <==> Descriptor(d) in s.sched.threads[t].privateOps
  {
    var sc := s.sched;
    TotalAtLeast(InReactor, sc.threads, t);
    NobodyPolls(sc, t);
    TaskCounted(sc.core.ops);
    NoDescriptors(sc.core.ops, |s.descs|);
    forall i | 0 <= i < |sc.threads| && i != t
      ensures Descriptor(d) !in sc.threads[i].privateOps
    {
      assert Shape(sc.threads[i], |s.descs|);
    }
  }

  /** No descriptor operation is in two places of the scheduler's queues. */
  lemma QueuedOnce(s: State, d: nat)
    requires LocalInv(s) && WakeInv(s.sched)
    ensures forall i, k :: 0 <= i < k < |s.sched.core.ops| && s.sched.core.ops[i] == Descriptor(d) ==> s.sched.core.ops[k] != Descriptor(d)
    ensures forall t :: 0 <= t < |s.sched.threads| && Descriptor(d) in s.sched.threads[t].privateOps ==>
              && Distinct(s.sched.threads[t].privateOps) && Descriptor(d) !in s.sched.core.ops
              && forall u :: 0 <= u < |s.sched.threads| && u != t ==> Descriptor(d) !in s.sched.threads[u].privateOps
  {
    var sc := s.sched;
    forall t | 0 <= t < |sc.threads| && Descriptor(d) in sc.threads[t].privateOps
      ensures Distinct(sc.threads[t].privateOps) && Descriptor(d) !in sc.core.ops
      ensures forall u :: 0 <= u < |sc.threads| && u != t ==> Descriptor(d) !in sc.threads[u].privateOps
    {
      assert Shape(sc.threads[t], |s.descs|);
      assert sc.threads[t].pc.TaskReturned?;
      TotalAtLeast(InReactor, sc.threads, t);
      NobodyPolls(sc, t);
      TaskCounted(sc.core.ops);
      NoDescriptors(sc.core.ops, |s.descs|);
      forall u | 0 <= u < |sc.threads| && u != t
        ensures Descriptor(d) !in sc.threads[u].privateOps
      {
        assert Shape(sc.threads[u], |s.descs|);
      }
    }
  }

  // ---- Preservation ----

  lemma ShapesSet(ths: seq<Thread>, n: nat, t: nat, th: Thread)
    requires Shapes(ths, n) && t < |ths| && Shape(th, n)
    ensures Shapes(ths[t := th], n)
  {
  }

  lemma ShapesDeliver(ths: seq<Thread>, n: nat, notify: Notify)
    requires Shapes(ths, n)
    ensures Shapes(Deliver(ths, notify), n)
  {
  }

  lemma ShapesGrow(ths: seq<Thread>, n: nat)
    requires Shapes(ths, n)
    ensures Shapes(ths, n + 1)
  {
    forall i | 0 <= i < |ths|
      ensures Shape(ths[i], n + 1)
    {
      assert Shape(ths[i], n);
    }
  }

  lemma QueueAppend(ops: seq<Op<nat>>, more: seq<Op<nat>>, n: nat)
    requires QueueShape(ops, n) && OnlyUsers(more)
    ensures QueueShape(ops + more, n)
  {
    var all := ops + more;
    forall i | 0 <= i < |all| && all[i].Descriptor?
      ensures all[i].d < n && Task in all[i + 1..]
    {
      assert all[i + 1..] == ops[i + 1..] + more;
    }
  }

  lemma QueueTask(ops: seq<Op<nat>>, n: nat)
    requires QueueShape(ops, n)
    ensures QueueShape(ops + [Task], n)
  {
    var all := ops + [Task];
    forall i | 0 <= i < |all| && all[i].Descriptor?
      ensures all[i].d < n && Task in all[i + 1..]
    {
      assert all[i + 1..] == ops[i + 1..] + [Task];
    }
  }

  lemma QueuePop(ops: seq<Op<nat>>, n: nat)
    requires QueueShape(ops, n) && ops != []
    ensures QueueShape(ops[1..], n)
  {
    var rest := ops[1..];
    forall i | 0 <= i < |rest| && rest[i].Descriptor?
      ensures rest[i].d < n && Task in rest[i + 1..]
    {
      assert rest[i] == ops[i + 1] && rest[i + 1..] == ops[i + 2..];
    }
  }

  // The splice of a reactor's harvest, followed by task_operation_.
  lemma QueueHarvest(ops: seq<Op<nat>>, harvest: seq<Op<nat>>, n: nat)
    requires QueueShape(ops, n) && Task !in ops && OnlyDescriptors(harvest, n) && Distinct(harvest)
    ensures QueueShape(ops + harvest + [Task], n)
  {
    var all, last := ops + harvest + [Task], |ops| + |harvest|;
    NoDescriptors(ops, n);
    forall i | 0 <= i < |ops|
      ensures !all[i].Descriptor?
    {
      assert all[i] == ops[i];
    }
    forall i | 0 <= i < |all| && all[i].Descriptor?
      ensures |ops| <= i < last && all[i] == harvest[i - |ops|] && all[i].d < n && Task in all[i + 1..]
    {
      assert all[last] == Task && all[i + 1..][last - i - 1] == Task;
    }
    forall i, k | 0 <= i < k < |all| && all[i].Descriptor?
      ensures all[i] != all[k]
    {
      assert |ops| <= i && all[i] == harvest[i - |ops|];
      if k < last {
        assert all[k] == harvest[k - |ops|];
      }
    }
  }

  lemma LocalLoop(s: State, sc: Sched, t: nat)
    requires Sized(s) && t < |sc.threads|
    requires Shapes(sc.threads, |s.descs|) && QueueShape(sc.core.ops, |s.descs|)
    requires sc.threads[t].privateOps == [] && sc.threads[t].privateWork == 0
    ensures LocalInv(s.(sched := Loop(sc, s.results, t)))
  {
    var p := TakeTurn(sc.core);
    var th := sc.threads[t].(pc := AfterTurn(p.turn, s.results));
    if sc.core.ops != [] {
      QueuePop(sc.core.ops, |s.descs|);
    }
    assert Shape(th, |s.descs|);
    ShapesSet(sc.threads, |s.descs|, t, th);
    ShapesDeliver(sc.threads[t := th], |s.descs|, p.effect.notify);
  }

  lemma LocalPush(s: State, ops: seq<Op<nat>>)
    requires LocalInv(s) && OnlyUsers(ops)
    ensures LocalInv(s.(sched := Push(s.sched, ops)))
  {
    QueueAppend(s.sched.core.ops, ops, |s.descs|);
    ShapesDeliver(s.sched.threads, |s.descs|, PushAndWake(s.sched.core, ops).effect.notify);
  }

  lemma LocalPost(s: State, u: nat, continuation: bool, caller: Option<nat>)
    requires LocalInv(s) && ValidCaller(s.sched, caller)
    ensures LocalInv(PostImmediate(s, u, continuation, caller))
  {
  }

  lemma LocalRegister(s: State, ready: Bits, added: Added)
    requires LocalInv(s)
    ensures LocalInv(AfterRegister(s, ready, added))
  {
    ShapesGrow(s.sched.threads, |s.descs|);
  }

  lemma LocalEpoll(s: State, t: nat, reports: seq<Report>)
    requires LocalInv(s) && Enabled(s, EpollReturns(t, reports))
    ensures LocalInv(AfterEpoll(s, t, reports))
  {
    assert Shape(s.sched.threads[t], |s.descs|);
    GatherLosesNothing(s.results, reports);
  }

  lemma LocalFinishTask(s: State, t: nat)
    requires LocalInv(s) && WakeInv(s.sched) && Enabled(s, FinishTask(t))
    ensures LocalInv(Next(s, FinishTask(t)))
  {
    var th := s.sched.threads[t];
    assert Shape(th, |s.descs|);
    TotalAtLeast(InReactor, s.sched.threads, t);
    TaskCounted(s.sched.core.ops);
    QueueHarvest(s.sched.core.ops, th.privateOps, |s.descs|);
    LocalLoop(s, EndTask(s.sched, t), t);
  }

  // Steps that touch neither the queues nor the threads' positions.
  predicate DescriptorStep(step: Step)
  {
    step.Register? || step.StartOp? || step.FinishStart? || step.ChargeStart? || step.Cancel? || step.Deregister? || step.Rise? || step.Fall?
  }

  // Steps of the scheduler's own interface; those of a thread entering run() or
  // stopping.
  predicate ControlStep(step: Step)
  {
    step.GuardStarted? || step.GuardFinished? || step.StopFromGuard?
    || step.Stop? || step.Notify? || step.Restart? || step.StartTask?
  }

  predicate EntryStep(step: Step) { step.EnterRun? || step.StopFromWork? }

  // The invariant reads nothing but the queues and the threads.
  lemma LocalFrame(s: State, s': State)
    requires LocalInv(s) && Sized(s') && |s'.descs| == |s.descs|
    requires s'.sched.threads == s.sched.threads && s'.sched.core.ops == s.sched.core.ops
    ensures LocalInv(s')
  {
  }

  lemma LocalStartOp(s: State, step: Step)
    requires LocalInv(s) && CanStart(s, step)
    ensures LocalInv(AfterStartOp(s, step))
  {
    LocalFrame(s, Tried(s, step));
    if Begun(s, step).outcome.Complete? {
      LocalPost(Tried(s, step), s.nextId, step.continuation, step.caller);
    } else {
      LocalFrame(Tried(s, step), AfterStartOp(s, step));
    }
  }

  lemma LocalFinishStart(s: State, step: Step)
    requires LocalInv(s) && CanFinish(s, step)
    ensures LocalInv(AfterFinishStart(s, step))
  {
    LocalFrame(s, Resolved(s, step));
    if Ended(s, step).outcome.Complete? {
      LocalPost(Resolved(s, step), s.locks[step.d].op, step.continuation, step.caller);
    } else {
      LocalFrame(Resolved(s, step), AfterFinishStart(s, step));
    }
  }

  lemma LocalDescriptorStep(s: State, step: Step)
    requires LocalInv(s) && Enabled(s, step) && DescriptorStep(step)
    ensures LocalInv(Next(s, step))
  {
    if step.Register? {
      LocalRegister(s, step.ready, step.added);
    } else if step.StartOp? {
      LocalStartOp(s, step);
    } else if step.FinishStart? {
      LocalFinishStart(s, step);
    } else {
      LocalFrame(s, Next(s, step));
    }
  }

  lemma LocalPostStep(s: State, step: Step)
    requires LocalInv(s) && Enabled(s, step)
    requires step.Post? || step.PostBatch? || step.PostBatchPrivately? || step.PostRest?
    ensures LocalInv(Next(s, step))
  {
    if step.Post? {
      LocalPost(s.(nextId := s.nextId + 1), s.nextId, step.continuation, step.caller);
    } else if step.PostBatch? {
      LocalPush(s, Users(s.batches[step.i].ops));
    } else if step.PostBatchPrivately? {
      assert Shape(s.sched.threads[step.t], |s.descs|);
    } else {
      LocalPostRest(s, step.t);
    }
  }

  lemma LocalPostRest(s: State, t: nat)
    requires LocalInv(s) && Enabled(s, PostRest(t))
    ensures LocalInv(AfterPostRest(s, t))
  {
    var pc := s.sched.threads[t].pc;
    assert Shape(s.sched.threads[t], |s.descs|);
    if !s.sched.core.oneThread {
      LocalPush(s.(sched := SetPc(s.sched, t, Running(pc.first))), Users(pc.rest));
    }
  }

  lemma LocalArrive(s: State, pick: nat)
    requires LocalInv(s) && s.sched.notices > 0
    ensures LocalInv(s.(sched := Arrive(s.sched, pick)))
  {
    if pick < |s.sched.threads| {
      assert Shape(s.sched.threads[pick], |s.descs|);
    }
  }

  lemma LocalControlStep(s: State, step: Step)
    requires LocalInv(s) && Enabled(s, step)
    requires ControlStep(step)
    ensures LocalInv(Next(s, step))
  {
    if step.Notify? {
      LocalArrive(s, step.pick);
    } else if step.Stop? || step.StopFromGuard? {
      ShapesDeliver(s.sched.threads, |s.descs|, All);
    } else if step.StartTask? {
      LocalStartTask(s);
    }
  }

  lemma LocalStartTask(s: State)
    requires LocalInv(s)
    ensures LocalInv(s.(sched := Commit(s.sched, SchedulerCore.InitTask(s.sched.core))))
  {
    QueueTask(s.sched.core.ops, |s.descs|);
    ShapesDeliver(s.sched.threads, |s.descs|, SchedulerCore.InitTask(s.sched.core).effect.notify);
  }

  lemma LocalEnterRun(s: State, t: nat)
    requires LocalInv(s) && At(s, t) && s.sched.threads[t].pc.Outside?
    ensures LocalInv(s.(sched := Commit(s.sched, StopAll(s.sched.core))))
    ensures LocalInv(s.(sched := SetPc(s.sched, t, Wanting)))
  {
    assert Shape(s.sched.threads[t], |s.descs|);
    ShapesDeliver(s.sched.threads, |s.descs|, All);
  }

  lemma LocalStopFromWork(s: State, t: nat)
    requires LocalInv(s) && At(s, t) && s.sched.threads[t].pc.Stopping?
    ensures LocalInv(s.(sched := Commit(SetPc(s.sched, t, Splicing), StopAll(s.sched.core))))
  {
    assert Shape(s.sched.threads[t], |s.descs|);
    ShapesDeliver(SetPc(s.sched, t, Splicing).threads, |s.descs|, All);
  }

  lemma LocalEntryStep(s: State, step: Step)
    requires LocalInv(s) && Enabled(s, step) && EntryStep(step)
    ensures LocalInv(Next(s, step))
  {
    if step.EnterRun? {
      LocalEnterRun(s, step.t);
    } else {
      LocalStopFromWork(s, step.t);
    }
  }

  lemma LocalSet(s: State, s': State, t: nat, th: Thread)
    requires LocalInv(s) && Sized(s') && |s'.descs| == |s.descs| && At(s, t) && Shape(th, |s.descs|)
    requires s'.sched.threads == s.sched.threads[t := th] && s'.sched.core.ops == s.sched.core.ops
    ensures LocalInv(s')
  {
  }

  lemma LocalBeginScan(s: State, t: nat)
    requires LocalInv(s) && At(s, t) && s.sched.threads[t].pc.Performing? && s.sched.threads[t].pc.d < |s.descs|
    ensures LocalInv(AfterBeginScan(s, t))
  {
    assert Shape(s.sched.threads[t], |s.descs|);
    LocalSet(s, AfterBeginScan(s, t), t, AfterBeginScan(s, t).sched.threads[t]);
  }

  lemma LocalScanOne(s: State, t: nat, status: Status, after: bool)
    requires LocalInv(s) && At(s, t) && s.sched.threads[t].pc.Scanning?
    requires s.sched.threads[t].pc.d < |s.descs| && 0 < s.sched.threads[t].pc.left <= 3
    ensures LocalInv(AfterScanOne(s, t, status, after))
  {
    assert Shape(s.sched.threads[t], |s.descs|);
    var s' := AfterScanOne(s, t, status, after);
    LocalSet(s, s', t, s'.sched.threads[t]);
  }

  lemma LocalEndScan(s: State, t: nat)
    requires LocalInv(s) && At(s, t) && s.sched.threads[t].pc.Scanning? && s.sched.threads[t].pc.d < |s.descs|
    ensures LocalInv(AfterEndScan(s, t))
  {
    assert Shape(s.sched.threads[t], |s.descs|);
    LocalSet(s, AfterEndScan(s, t), t, AfterEndScan(s, t).sched.threads[t]);
  }

  lemma LocalScanStep(s: State, step: Step)
    requires LocalInv(s) && Enabled(s, step)
    requires step.BeginScan? || step.ScanOne? || step.EndScan?
    ensures LocalInv(Next(s, step))
  {
    if step.BeginScan? {
      LocalBeginScan(s, step.t);
    } else if step.ScanOne? {
      LocalScanOne(s, step.t, step.status, step.after);
    } else {
      LocalEndScan(s, step.t);
    }
  }

  lemma LocalFlush(s: State, t: nat, completed: seq<nat>)
    requires LocalInv(s) && At(s, t) && (s.sched.threads[t].pc.Running? || s.sched.threads[t].pc.Compensated?)
    ensures LocalInv(s.(sched := FlushWork(s.sched, t), completed := completed))
  {
    assert Shape(s.sched.threads[t], |s.descs|);
    LocalSet(s, s.(sched := FlushWork(s.sched, t), completed := completed), t, FlushWork(s.sched, t).threads[t]);
  }

  lemma LocalGiveBack(s: State, t: nat)
    requires LocalInv(s) && At(s, t) && s.sched.threads[t].pc.Flushed?
    ensures LocalInv(s.(sched := GiveBack(s.sched, t)))
  {
    assert Shape(s.sched.threads[t], |s.descs|);
    LocalSet(s, s.(sched := GiveBack(s.sched, t)), t, GiveBack(s.sched, t).threads[t]);
  }

  lemma LocalWake(s: State, t: nat)
    requires LocalInv(s) && At(s, t) && s.sched.threads[t].pc.Waiting?
    ensures LocalInv(s.(sched := SetPc(s.sched, t, Notified)))
  {
    assert Shape(s.sched.threads[t], |s.descs|);
    LocalSet(s, s.(sched := SetPc(s.sched, t, Notified)), t, s.sched.threads[t].(pc := Notified));
  }

  lemma LocalThreadStep(s: State, step: Step)
    requires LocalInv(s) && Enabled(s, step)
    requires step.Wake? || step.FinishOp? || step.FlushEmpty? || step.WorkFinished?
    ensures LocalInv(Next(s, step))
  {
    if step.Wake? {
      LocalWake(s, step.t);
    } else if step.WorkFinished? {
      LocalGiveBack(s, step.t);
    } else {
      LocalFlush(s, step.t, Next(s, step).completed);
    }
  }

  lemma LocalResume(s: State, t: nat)
    requires LocalInv(s) && At(s, t) && s.sched.threads[t].pc.Notified?
    ensures LocalInv(s.(sched := Reacquire(s.sched, s.results, t)))
  {
    assert Shape(s.sched.threads[t], |s.descs|);
    var w := DropWaiter(s.sched.core.word);
    if Signalled(w) {
      LocalLoop(s, s.sched.(core := s.sched.core.(word := w)), t);
    } else {
      LocalSet(s, s.(sched := Reacquire(s.sched, s.results, t)), t, s.sched.threads[t].(pc := Waiting));
    }
  }

  lemma LocalSplice(s: State, t: nat)
    requires LocalInv(s) && Enabled(s, Splice(t))
    ensures LocalInv(Next(s, Splice(t)))
  {
    assert Shape(s.sched.threads[t], |s.descs|);
    if s.sched.threads[t].privateOps != [] {
      QueueAppend(s.sched.core.ops, s.sched.threads[t].privateOps, |s.descs|);
      LocalLoop(s, SpliceOwn(s.sched, t), t);
    } else {
      LocalSet(s, Next(s, Splice(t)), t, s.sched.threads[t].(pc := Wanting));
    }
  }

  lemma LocalAcquire(s: State, t: nat)
    requires LocalInv(s) && Enabled(s, Acquire(t))
    ensures LocalInv(s.(sched := Loop(s.sched, s.results, t)))
  {
    assert Shape(s.sched.threads[t], |s.descs|);
    LocalLoop(s, s.sched, t);
  }

  lemma LocalLoopStep(s: State, step: Step)
    requires LocalInv(s) && WakeInv(s.sched) && Enabled(s, step)
    requires step.Acquire? || step.Resume? || step.Splice? || step.EpollReturns? || step.FinishTask?
    ensures LocalInv(Next(s, step))
  {
    if step.Acquire? {
      LocalAcquire(s, step.t);
    } else if step.Resume? {
      LocalResume(s, step.t);
    } else if step.Splice? {
      LocalSplice(s, step.t);
    } else if step.EpollReturns? {
      LocalEpoll(s, step.t, step.reports);
    } else {
      LocalFinishTask(s, step.t);
    }
  }

  lemma LocalStep(s: State, step: Step)
    requires LocalInv(s) && WakeInv(s.sched) && Enabled(s, step)
    ensures LocalInv(Next(s, step))
  {
    if DescriptorStep(step) {
      LocalDescriptorStep(s, step);
    } else if step.Post? || step.PostBatch? || step.PostBatchPrivately? || step.PostRest? {
      LocalPostStep(s, step);
    } else if ControlStep(step) {
      LocalControlStep(s, step);
    } else if EntryStep(step) {
      LocalEntryStep(s, step);
    } else if step.Acquire? || step.Resume? || step.Splice? || step.EpollReturns? || step.FinishTask? {
      LocalLoopStep(s, step);
    } else if step.BeginScan? || step.ScanOne? || step.EndScan? {
      LocalScanStep(s, step);
    } else {
      LocalThreadStep(s, step);
    }
  }
}
