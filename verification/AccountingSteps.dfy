/** Every step of the machine moves operations between places, or submits or
    completes one, and changes the counters accordingly. */
module AccountingSteps {
  import opened Prelude
  import opened SchedulerCore
  import opened EventWord
  import opened Descriptors
  import opened Coalescing
  import opened Protocol
  import opened Totals
  import opened LocalQueues
  import opened Scans
  import opened Accounting

  /** What a step adds to the operations held: a submitted operation, minus a
      completed one. */
  ghost function Change(w: Weight, s: State, step: Step): int
    requires Enabled(s, step)
  {
    if step.StartOp? || step.Post? then w.Of(s.nextId)
    else if step.FinishOp? then 0 - w.Of(s.sched.threads[step.t].pc.op)
    else 0
  }

  // ---- Operations ----

  lemma HeldRegister(w: Weight, s: State, ready: Bits, added: Added)
    ensures Held(w, AfterRegister(s, ready, added)) == Held(w, s)
  {
    var s' := AfterRegister(s, ready, added);
    DescsSnoc(w, s.descs, s'.descs[|s.descs|]);
    LocksSnoc(ToPlace(w), s.locks, Free);
  }

  // start_op before its post: the operation is in the descriptor's queue or
  // still to be placed.
  lemma HeldTried(w: Weight, s: State, step: Step)
    requires CanStart(s, step)
    ensures Held(w, Tried(s, step)) == Held(w, s) + if Begun(s, step).outcome.Queued? then w.Of(s.nextId) else 0
  {
    StartBeginLoad(w, s.descs[step.d], step.j, step.allow, step.status, s.nextId);
    DescsUpdate(w, s.descs, step.d, Begun(s, step).desc);
  }

  lemma HeldStartOp(w: Weight, s: State, step: Step)
    requires CanStart(s, step)
    ensures Held(w, AfterStartOp(s, step)) == Held(w, s) + w.Of(s.nextId)
  {
    var r := Begun(s, step);
    HeldTried(w, s, step);
    if r.outcome.Complete? {
      PostLoad(w, Tried(s, step), s.nextId, step.continuation, step.caller);
    } else if r.outcome.Hold? {
      LocksUpdate(ToPlace(w), s.locks, step.d, Starting(s.nextId, step.j, r.outcome.speculative));
    } else {
      LocksUpdate(ToPlace(w), s.locks, step.d, Charging(s.nextId, step.j));
    }
  }

  lemma HeldResolved(w: Weight, s: State, step: Step)
    requires CanFinish(s, step)
    ensures Held(w, Resolved(s, step)) == Held(w, s) - if Ended(s, step).outcome.Queued? then 0 else w.Of(s.locks[step.d].op)
  {
    var m := s.locks[step.d];
    StartFinishLoad(w, s.descs[step.d], m.j, m.speculative, step.modOk, m.op);
    DescsUpdate(w, s.descs, step.d, Ended(s, step).desc);
    LocksUpdate(ToPlace(w), s.locks, step.d, Resolved(s, step).locks[step.d]);
  }

  lemma HeldFinishStart(w: Weight, s: State, step: Step)
    requires CanFinish(s, step)
    ensures Held(w, AfterFinishStart(s, step)) == Held(w, s)
  {
    HeldResolved(w, s, step);
    if Ended(s, step).outcome.Complete? {
      PostLoad(w, Resolved(s, step), s.locks[step.d].op, step.continuation, step.caller);
    }
  }

  lemma HeldCancel(w: Weight, s: State, d: nat)
    requires d < |s.descs|
    ensures Held(w, AfterCancel(s, d)) == Held(w, s)
  {
    CancelLoad(w, s.descs[d]);
    DescsUpdate(w, s.descs, d, Cancelled(s.descs[d]));
    BatchesSnoc(w, s.batches, Batch(AllQueued(s.descs[d]), true));
  }

  lemma HeldDeregister(w: Weight, s: State, d: nat, closing: bool)
    requires Sized(s) && d < |s.descs|
    ensures Held(w, AfterDeregister(s, d, closing)) == Held(w, s)
  {
    HeldCancel(w, s, d);
    var s1 := AfterCancel(s, d);
    DescsUpdate(w, s1.descs, d, s1.descs[d].(shutdown := true));
  }

  lemma HeldDescriptorStep(w: Weight, s: State, step: Step)
    requires Enabled(s, step) && DescriptorStep(step)
    ensures Held(w, Next(s, step)) == Held(w, s) + Change(w, s, step)
  {
    if step.Register? {
      HeldRegister(w, s, step.ready, step.added);
    } else if step.StartOp? {
      HeldStartOp(w, s, step);
    } else if step.FinishStart? {
      HeldFinishStart(w, s, step);
    } else if step.ChargeStart? {
      LocksUpdate(ToPlace(w), s.locks, step.d, Free);
    } else if step.Cancel? {
      HeldCancel(w, s, step.d);
    } else if step.Deregister? {
      HeldDeregister(w, s, step.d, step.closing);
    }
  }

  lemma HeldPushed(w: Weight, s: State, i: nat)
    requires i < |s.batches|
    ensures Held(w, s.(sched := Push(s.sched, Users(s.batches[i].ops)), batches := Without(s.batches, i))) == Held(w, s)
  {
    BatchesWithout(w, s.batches, i);
    UsersWeight(w, s.batches[i].ops);
    PushLoad(w, s.sched, Users(s.batches[i].ops));
  }

  lemma HeldPrivately(w: Weight, s: State, i: nat, t: nat)
    requires i < |s.batches| && At(s, t)
    ensures Held(w, s.(sched := AddPrivate(s.sched, t, Users(s.batches[i].ops), 0), batches := Without(s.batches, i)))
         == Held(w, s)
  {
    BatchesWithout(w, s.batches, i);
    UsersWeight(w, s.batches[i].ops);
    AddPrivateLoad(w, s.sched, t, Users(s.batches[i].ops), 0);
  }

  lemma HeldPosted(w: Weight, s: State, continuation: bool, caller: Option<nat>)
    requires ValidCaller(s.sched, caller)
    ensures Held(w, PostImmediate(s.(nextId := s.nextId + 1), s.nextId, continuation, caller)) == Held(w, s) + w.Of(s.nextId)
  {
    PostLoad(w, s.(nextId := s.nextId + 1), s.nextId, continuation, caller);
  }

  lemma HeldPostStep(w: Weight, s: State, step: Step)
    requires Enabled(s, step)
    requires step.Post? || step.PostBatch? || step.PostBatchPrivately?
    ensures Held(w, Next(s, step)) == Held(w, s) + Change(w, s, step)
  {
    if step.Post? {
      HeldPosted(w, s, step.continuation, step.caller);
    } else if step.PostBatch? {
      HeldPushed(w, s, step.i);
    } else {
      HeldPrivately(w, s, step.i, step.t);
    }
  }

  lemma PostRestPrivately(w: Weight, sc: Sched, t: nat)
    requires t < |sc.threads| && sc.threads[t].pc.Posting?
    ensures var pc := sc.threads[t].pc;
      SchedLoad(w, SetPc(AddPrivate(sc, t, Users(pc.rest), 0), t, Running(pc.first))) == SchedLoad(w, sc)
  {
    var pc := sc.threads[t].pc;
    UsersWeight(w, pc.rest);
    AddPrivateLoad(w, sc, t, Users(pc.rest), 0);
    var sc1 := AddPrivate(sc, t, Users(pc.rest), 0);
    SetLoad(w, sc1, t, sc1.threads[t].(pc := Running(pc.first)));
  }

  lemma PostRestShared(w: Weight, sc: Sched, t: nat)
    requires t < |sc.threads| && sc.threads[t].pc.Posting?
    ensures var pc := sc.threads[t].pc;
      SchedLoad(w, Push(SetPc(sc, t, Running(pc.first)), Users(pc.rest))) == SchedLoad(w, sc)
  {
    var pc := sc.threads[t].pc;
    UsersWeight(w, pc.rest);
    SetLoad(w, sc, t, sc.threads[t].(pc := Running(pc.first)));
    PushLoad(w, SetPc(sc, t, Running(pc.first)), Users(pc.rest));
  }

  lemma HeldPostRest(w: Weight, s: State, t: nat)
    requires At(s, t) && s.sched.threads[t].pc.Posting?
    ensures Held(w, AfterPostRest(s, t)) == Held(w, s)
  {
    PostRestPrivately(w, s.sched, t);
    PostRestShared(w, s.sched, t);
  }

  lemma StopLoad(w: Weight, sc: Sched)
    ensures SchedLoad(w, Commit(sc, StopAll(sc.core))) == SchedLoad(w, sc)
  {
    CommitLoad(w, sc, StopAll(sc.core));
  }

  lemma StartTaskLoad(w: Weight, sc: Sched)
    ensures SchedLoad(w, Commit(sc, SchedulerCore.InitTask(sc.core))) == SchedLoad(w, sc)
  {
    CommitLoad(w, sc, SchedulerCore.InitTask(sc.core));
    OpsConcat(w, sc.core.ops, [Task]);
    assert WeightOfOps(w, [Task]) == WeightOfOps(w, []);
  }

  lemma HeldEnterRun(w: Weight, s: State, t: nat)
    requires At(s, t) && s.sched.threads[t].pc.Outside?
    ensures Held(w, s.(sched := SetPc(s.sched, t, Wanting))) == Held(w, s)
  {
    SetLoad(w, s.sched, t, s.sched.threads[t].(pc := Wanting));
  }

  lemma HeldStopFromWork(w: Weight, s: State, t: nat)
    requires At(s, t) && s.sched.threads[t].pc.Stopping?
    ensures Held(w, s.(sched := Commit(SetPc(s.sched, t, Splicing), StopAll(s.sched.core)))) == Held(w, s)
  {
    SetLoad(w, s.sched, t, s.sched.threads[t].(pc := Splicing));
    StopLoad(w, SetPc(s.sched, t, Splicing));
  }

  lemma HeldArrive(w: Weight, s: State, pick: nat)
    requires s.sched.notices > 0
    ensures Held(w, s.(sched := Arrive(s.sched, pick))) == Held(w, s)
  {
    ArriveKeepsTotals(Load(w), s.sched, pick);
  }

  lemma HeldStop(w: Weight, s: State, stops: nat)
    ensures Held(w, s.(sched := Commit(s.sched, StopAll(s.sched.core)), stops := stops)) == Held(w, s)
  {
    StopLoad(w, s.sched);
  }

  lemma HeldStartTask(w: Weight, s: State)
    ensures Held(w, s.(sched := Commit(s.sched, SchedulerCore.InitTask(s.sched.core)))) == Held(w, s)
  {
    StartTaskLoad(w, s.sched);
  }

  lemma HeldControlStep(w: Weight, s: State, step: Step)
    requires Enabled(s, step)
    requires ControlStep(step)
    ensures Held(w, Next(s, step)) == Held(w, s)
  {
    if step.Notify? {
      HeldArrive(w, s, step.pick);
    } else if step.Stop? || step.StopFromGuard? {
      HeldStop(w, s, Next(s, step).stops);
    } else if step.StartTask? {
      HeldStartTask(w, s);
    }
  }

  lemma HeldEntryStep(w: Weight, s: State, step: Step)
    requires Enabled(s, step) && EntryStep(step)
    ensures Held(w, Next(s, step)) == Held(w, s)
  {
    if step.EnterRun? {
      HeldStop(w, s, s.stops);
      HeldEnterRun(w, s, step.t);
    } else {
      HeldStopFromWork(w, s, step.t);
    }
  }

  lemma FlushLoad(w: Weight, sc: Sched, t: nat)
    requires t < |sc.threads|
    ensures SchedLoad(w, FlushWork(sc, t)) == SchedLoad(w, sc) - PcLoad(w, sc.threads[t].pc)
  {
    TotalUpdate(Load(w), sc.threads, t, sc.threads[t].(pc := Flushed, privateWork := 0));
  }

  lemma GiveBackLoad(w: Weight, sc: Sched, t: nat)
    requires t < |sc.threads| && sc.threads[t].pc.Flushed?
    ensures SchedLoad(w, GiveBack(sc, t)) == SchedLoad(w, sc)
  {
    TotalUpdate(Load(w), sc.threads, t, GiveBack(sc, t).threads[t]);
  }

  lemma HeldWake(w: Weight, s: State, t: nat)
    requires At(s, t) && s.sched.threads[t].pc.Waiting?
    ensures Held(w, s.(sched := SetPc(s.sched, t, Notified))) == Held(w, s)
  {
    SetLoad(w, s.sched, t, s.sched.threads[t].(pc := Notified));
  }

  lemma HeldFlush(w: Weight, s: State, t: nat, completed: seq<nat>)
    requires At(s, t)
    ensures Held(w, s.(sched := FlushWork(s.sched, t), completed := completed)) == Held(w, s) - PcLoad(w, s.sched.threads[t].pc)
  {
    FlushLoad(w, s.sched, t);
  }

  lemma HeldGiveBack(w: Weight, s: State, t: nat)
    requires At(s, t) && s.sched.threads[t].pc.Flushed?
    ensures Held(w, s.(sched := GiveBack(s.sched, t))) == Held(w, s)
  {
    GiveBackLoad(w, s.sched, t);
  }

  lemma HeldThreadStep(w: Weight, s: State, step: Step)
    requires Enabled(s, step)
    requires step.FinishOp? || step.FlushEmpty?
    ensures Held(w, Next(s, step)) == Held(w, s) + Change(w, s, step)
  {
    HeldFlush(w, s, step.t, Next(s, step).completed);
  }

  // Operations move between thread t and descriptor d.
  lemma HeldMove(w: Weight, s: State, s': State, t: nat, th: Thread, d: nat, desc: Desc)
    requires At(s, t) && d < |s.descs|
    requires s'.sched == SetThread(s.sched, t, th) && s'.descs == s.descs[d := desc] && s'.batches == s.batches
    requires LocksLoad(ToPlace(w), s'.locks) == LocksLoad(ToPlace(w), s.locks)
    requires Of(Load(w), th) + DescLoad(w, desc) == Of(Load(w), s.sched.threads[t]) + DescLoad(w, s.descs[d])
    ensures Held(w, s') == Held(w, s)
  {
    SetLoad(w, s.sched, t, th);
    DescsUpdate(w, s.descs, d, desc);
  }

  lemma HeldBeginScan(w: Weight, s: State, t: nat)
    requires Sized(s) && At(s, t) && s.sched.threads[t].pc.Performing?
    requires s.sched.threads[t].pc.d < |s.descs| && s.locks[s.sched.threads[t].pc.d].Free?
    ensures Held(w, AfterBeginScan(s, t)) == Held(w, s)
  {
    var d := s.sched.threads[t].pc.d;
    var s' := AfterBeginScan(s, t);
    LocksUpdate(ToPlace(w), s.locks, d, ScannedBy(t));
    HeldMove(w, s, s', t, s'.sched.threads[t], d, s'.descs[d]);
  }

  // Moving on in perform_io changes what thread t has performed and not handed over.
  lemma ScanningLoad(w: Weight, sc: Sched, t: nat, d: nat, events: Events, left: nat, done: seq<nat>)
    requires t < |sc.threads| && sc.threads[t].pc.Scanning?
    ensures SchedLoad(w, SetPc(sc, t, Scanning(d, events, left, done)))
         == SchedLoad(w, sc) - WeightOfIds(w, sc.threads[t].pc.done) + WeightOfIds(w, done)
  {
    SetLoad(w, sc, t, sc.threads[t].(pc := Scanning(d, events, left, done)));
  }

  lemma HeldScanOne(w: Weight, s: State, t: nat, status: Status, after: bool)
    requires Sized(s) && At(s, t) && s.sched.threads[t].pc.Scanning?
    requires s.sched.threads[t].pc.d < |s.descs| && 0 < s.sched.threads[t].pc.left <= 3
    ensures Held(w, AfterScanOne(s, t, status, after)) == Held(w, s)
  {
    var pc := s.sched.threads[t].pc;
    var c := Scan(s.descs[pc.d], pc.left, pc.done);
    var next := ScanStep(c, pc.events, status);
    ScanStepLoad(w, c, pc.events, status);
    ScanningLoad(w, s.sched, t, pc.d, pc.events, next.left, next.done);
    DescsUpdate(w, s.descs, pc.d, next.desc);
  }

  lemma HeldEndScan(w: Weight, s: State, t: nat)
    requires Sized(s) && LocksMatch(s) && At(s, t) && s.sched.threads[t].pc.Scanning? && s.sched.threads[t].pc.d < |s.descs|
    ensures Held(w, AfterEndScan(s, t)) == Held(w, s)
  {
    var s' := AfterEndScan(s, t);
    var done := s.sched.threads[t].pc.done;
    SetLoad(w, s.sched, t, s'.sched.threads[t]);
    LocksUpdate(ToPlace(w), s.locks, s.sched.threads[t].pc.d, Free);
    if |done| == 1 {
      assert WeightOfIds(w, done) == w.Of(done[0]) + WeightOfIds(w, done[1..]);
    }
  }

  lemma HeldResume(w: Weight, s: State, t: nat)
    requires At(s, t) && s.sched.threads[t].pc.Notified?
    ensures Held(w, s.(sched := Reacquire(s.sched, s.results, t))) == Held(w, s)
  {
    var sc := s.sched;
    var dropped := DropWaiter(sc.core.word);
    if Signalled(dropped) {
      LoopLoad(w, sc.(core := sc.core.(word := dropped)), s.results, t);
    } else {
      SetLoad(w, sc, t, sc.threads[t].(pc := Waiting));
    }
  }

  lemma HarvestWeight(w: Weight, results: seq<Events>, reports: seq<Report>)
    requires InRange(reports, |results|)
    ensures WeightOfOps(w, Gather(Gathered([], results), reports).ops) == 0
  {
    GatherLosesNothing(results, reports);
    OnlyDescriptorsWeight(w, Gather(Gathered([], results), reports).ops, |results|);
  }

  lemma HarvestLoad(w: Weight, sc: Sched, t: nat, harvest: seq<Op<nat>>)
    requires t < |sc.threads| && sc.threads[t].pc.InTask? && sc.threads[t].privateOps == [] && WeightOfOps(w, harvest) == 0
    ensures SchedLoad(w, SetThread(sc, t, sc.threads[t].(pc := TaskReturned, privateOps := harvest))) == SchedLoad(w, sc)
  {
    SetLoad(w, sc, t, sc.threads[t].(pc := TaskReturned, privateOps := harvest));
  }

  lemma HeldEpoll(w: Weight, s: State, t: nat, reports: seq<Report>)
    requires LocalInv(s) && At(s, t) && s.sched.threads[t].pc.InTask? && InRange(reports, |s.sockets|)
    ensures Held(w, AfterEpoll(s, t, reports)) == Held(w, s)
  {
    assert Shape(s.sched.threads[t], |s.descs|);
    HarvestWeight(w, s.results, reports);
    HarvestLoad(w, s.sched, t, Gather(Gathered([], s.results), reports).ops);
  }

  lemma {:induction false} OnlyDescriptorsWeight(w: Weight, ops: seq<Op<nat>>, n: nat)
    requires OnlyDescriptors(ops, n)
    ensures WeightOfOps(w, ops) == 0
  {
    if ops != [] {
      OnlyDescriptorsWeight(w, ops[1..], n);
    }
  }

  lemma HeldSplice(w: Weight, s: State, t: nat)
    requires At(s, t) && s.sched.threads[t].pc.Splicing?
    ensures Held(w, AfterSplice(s, t)) == Held(w, s)
  {
    SetLoad(w, s.sched, t, s.sched.threads[t].(pc := Wanting));
    SpliceLoad(w, s.sched, t);
    LoopLoad(w, SpliceOwn(s.sched, t), s.results, t);
  }

  lemma HeldFinishTask(w: Weight, s: State, t: nat)
    requires At(s, t) && s.sched.threads[t].pc.TaskReturned?
    ensures Held(w, s.(sched := Loop(EndTask(s.sched, t), s.results, t))) == Held(w, s)
  {
    EndTaskLoad(w, s.sched, t);
    LoopLoad(w, EndTask(s.sched, t), s.results, t);
  }

  lemma HeldLoopStep(w: Weight, s: State, step: Step)
    requires LocalInv(s) && Enabled(s, step)
    requires step.Acquire? || step.Resume? || step.Splice? || step.EpollReturns? || step.FinishTask?
    ensures Held(w, Next(s, step)) == Held(w, s)
  {
    if step.Acquire? {
      LoopLoad(w, s.sched, s.results, step.t);
    } else if step.Resume? {
      HeldResume(w, s, step.t);
    } else if step.Splice? {
      HeldSplice(w, s, step.t);
    } else if step.EpollReturns? {
      HeldEpoll(w, s, step.t, step.reports);
    } else {
      HeldFinishTask(w, s, step.t);
    }
  }

  lemma HeldScanStep(w: Weight, s: State, step: Step)
    requires LocksMatch(s) && Enabled(s, step)
    requires step.BeginScan? || step.ScanOne? || step.EndScan?
    ensures Held(w, Next(s, step)) == Held(w, s)
  {
    if step.BeginScan? {
      HeldBeginScan(w, s, step.t);
    } else if step.ScanOne? {
      HeldScanOne(w, s, step.t, step.status, step.after);
    } else {
      HeldEndScan(w, s, step.t);
    }
  }

  /** Splices, deferred posts, cancellation, deregistration and the reactor
      neither drop nor duplicate an operation. */
  lemma HeldStep(w: Weight, s: State, step: Step)
    requires LocalInv(s) && LocksMatch(s) && Enabled(s, step)
    ensures Held(w, Next(s, step)) == Held(w, s) + Change(w, s, step)
  {
    if DescriptorStep(step) {
      HeldDescriptorStep(w, s, step);
    } else if step.Post? || step.PostBatch? || step.PostBatchPrivately? {
      HeldPostStep(w, s, step);
    } else if step.PostRest? {
      HeldPostRest(w, s, step.t);
    } else if ControlStep(step) {
      HeldControlStep(w, s, step);
    } else if EntryStep(step) {
      HeldEntryStep(w, s, step);
    } else if step.Wake? {
      HeldWake(w, s, step.t);
    } else if step.WorkFinished? {
      HeldGiveBack(w, s, step.t);
    } else if step.FinishOp? || step.FlushEmpty? {
      HeldThreadStep(w, s, step);
    } else if step.BeginScan? || step.ScanOne? || step.EndScan? {
      HeldScanStep(w, s, step);
    } else {
      HeldLoopStep(w, s, step);
    }
  }

  // ---- The counters ----

  function SchedLedger(sc: Sched): int
  {
    sc.core.outstanding + Total(Work, sc.threads) - Total(Units, sc.threads)
  }

  lemma CommitLedger(sc: Sched, r: Result<nat>)
    ensures SchedLedger(Commit(sc, r)) == SchedLedger(sc) - sc.core.outstanding + r.core.outstanding
  {
    DeliverKeepsTotals(Work, sc.threads, r.effect.notify);
    DeliverKeepsTotals(Units, sc.threads, r.effect.notify);
  }

  lemma SetLedger(sc: Sched, t: nat, th: Thread)
    requires t < |sc.threads|
    ensures SchedLedger(SetThread(sc, t, th))
         == SchedLedger(sc) - Of(Work, sc.threads[t]) + Of(Work, th) + Of(Units, sc.threads[t]) - Of(Units, th)
  {
    TotalUpdate(Work, sc.threads, t, th);
    TotalUpdate(Units, sc.threads, t, th);
  }

  lemma LoopLedger(sc: Sched, results: seq<Events>, t: nat)
    requires t < |sc.threads| && Of(Units, sc.threads[t]) == 0
    ensures SchedLedger(Loop(sc, results, t)) == SchedLedger(sc)
  {
    var p := TakeTurn(sc.core);
    var pc := AfterTurn(p.turn, results);
    SetLedger(sc, t, sc.threads[t].(pc := pc));
    CommitLedger(SetPc(sc, t, pc), Result(p.core, p.effect));
  }

  lemma AddPrivateLedger(sc: Sched, t: nat, ops: seq<Op<nat>>, work: nat)
    requires t < |sc.threads|
    ensures SchedLedger(AddPrivate(sc, t, ops, work)) == SchedLedger(sc) + work
  {
    SetLedger(sc, t, AddPrivate(sc, t, ops, work).threads[t]);
  }

  lemma PostLedger(s: State, u: nat, continuation: bool, caller: Option<nat>)
    requires ValidCaller(s.sched, caller)
    ensures Ledger(PostImmediate(s, u, continuation, caller)) == Ledger(s) + 1
  {
    if caller.Some? {
      AddPrivateLedger(s.sched, caller.value, [User(u)], 1);
    }
  }

  lemma LedgerStartOp(s: State, step: Step)
    requires CanStart(s, step)
    ensures Ledger(AfterStartOp(s, step)) == Ledger(s) + 1
  {
    var r := Begun(s, step);
    if r.outcome.Complete? {
      PostLedger(Tried(s, step), s.nextId, step.continuation, step.caller);
    } else {
      UnchargedUpdate(s.locks, step.d, AfterStartOp(s, step).locks[step.d]);
    }
  }

  lemma LedgerFinishStart(s: State, step: Step)
    requires CanFinish(s, step)
    ensures Ledger(AfterFinishStart(s, step)) == Ledger(s)
  {
    UnchargedUpdate(s.locks, step.d, Resolved(s, step).locks[step.d]);
    if Ended(s, step).outcome.Complete? {
      PostLedger(Resolved(s, step), s.locks[step.d].op, step.continuation, step.caller);
    }
  }

  lemma LedgerDescriptorStep(s: State, step: Step)
    requires Enabled(s, step) && DescriptorStep(step)
    ensures Ledger(Next(s, step)) == Ledger(s) + Change(Everything, s, step)
  {
    if step.Register? {
      LocksSnoc(ToPlace(Everything), s.locks, Free);
      LocksSnoc(ToCharge, s.locks, Free);
    } else if step.StartOp? {
      LedgerStartOp(s, step);
    } else if step.FinishStart? {
      LedgerFinishStart(s, step);
    } else if step.ChargeStart? {
      UnchargedUpdate(s.locks, step.d, Free);
    }
  }

  lemma LedgerPostStep(s: State, step: Step)
    requires Enabled(s, step)
    requires step.Post? || step.PostBatch? || step.PostBatchPrivately?
    ensures Ledger(Next(s, step)) == Ledger(s) + Change(Everything, s, step)
  {
    if step.Post? {
      PostLedger(s.(nextId := s.nextId + 1), s.nextId, step.continuation, step.caller);
    } else if step.PostBatch? {
      CommitLedger(s.sched, PushAndWake(s.sched.core, Users(s.batches[step.i].ops)));
    } else {
      AddPrivateLedger(s.sched, step.t, Users(s.batches[step.i].ops), 0);
    }
  }

  lemma PostRestPrivateLedger(sc: Sched, t: nat)
    requires t < |sc.threads| && sc.threads[t].pc.Posting?
    ensures var pc := sc.threads[t].pc;
      SchedLedger(SetPc(AddPrivate(sc, t, Users(pc.rest), 0), t, Running(pc.first))) == SchedLedger(sc)
  {
    var pc := sc.threads[t].pc;
    var sc1 := AddPrivate(sc, t, Users(pc.rest), 0);
    AddPrivateLedger(sc, t, Users(pc.rest), 0);
    SetLedger(sc1, t, sc1.threads[t].(pc := Running(pc.first)));
  }

  lemma PostRestSharedLedger(sc: Sched, t: nat)
    requires t < |sc.threads| && sc.threads[t].pc.Posting?
    ensures var pc := sc.threads[t].pc;
      SchedLedger(Push(SetPc(sc, t, Running(pc.first)), Users(pc.rest))) == SchedLedger(sc)
  {
    var pc := sc.threads[t].pc;
    var sc1 := SetPc(sc, t, Running(pc.first));
    SetLedger(sc, t, sc1.threads[t]);
    CommitLedger(sc1, PushAndWake(sc1.core, Users(pc.rest)));
  }

  lemma LedgerPostRest(s: State, t: nat)
    requires At(s, t) && s.sched.threads[t].pc.Posting?
    ensures Ledger(AfterPostRest(s, t)) == Ledger(s)
  {
    PostRestPrivateLedger(s.sched, t);
    PostRestSharedLedger(s.sched, t);
  }

  lemma LedgerEnterRun(s: State, t: nat)
    requires Enabled(s, EnterRun(t))
    ensures Ledger(Next(s, EnterRun(t))) == Ledger(s)
  {
    CommitLedger(s.sched, StopAll(s.sched.core));
    SetLedger(s.sched, t, s.sched.threads[t].(pc := Wanting));
  }

  lemma LedgerStopFromWork(s: State, t: nat)
    requires At(s, t) && s.sched.threads[t].pc.Stopping?
    ensures Ledger(s.(sched := Commit(SetPc(s.sched, t, Splicing), StopAll(s.sched.core)))) == Ledger(s)
  {
    SetLedger(s.sched, t, s.sched.threads[t].(pc := Splicing));
    CommitLedger(SetPc(s.sched, t, Splicing), StopAll(s.sched.core));
  }

  lemma LedgerArrive(s: State, pick: nat)
    requires s.sched.notices > 0
    ensures Ledger(s.(sched := Arrive(s.sched, pick))) == Ledger(s)
  {
    ArriveKeepsTotals(Work, s.sched, pick);
    ArriveKeepsTotals(Units, s.sched, pick);
  }

  lemma LedgerControlStep(s: State, step: Step)
    requires Enabled(s, step)
    requires ControlStep(step)
    ensures Ledger(Next(s, step)) == Ledger(s)
  {
    if step.Notify? {
      LedgerArrive(s, step.pick);
    } else if step.Stop? || step.StopFromGuard? {
      CommitLedger(s.sched, StopAll(s.sched.core));
    } else if step.StartTask? {
      CommitLedger(s.sched, SchedulerCore.InitTask(s.sched.core));
    }
  }

  lemma LedgerEntryStep(s: State, step: Step)
    requires Enabled(s, step) && EntryStep(step)
    ensures Ledger(Next(s, step)) == Ledger(s)
  {
    if step.EnterRun? {
      LedgerEnterRun(s, step.t);
    } else {
      LedgerStopFromWork(s, step.t);
    }
  }

  // work_cleanup: adding the private work, then giving back one unit.
  lemma FlushLedger(sc: Sched, t: nat)
    requires t < |sc.threads|
    ensures SchedLedger(FlushWork(sc, t)) == SchedLedger(sc) + Of(Units, sc.threads[t]) - 1
  {
    SetLedger(AddOutstanding(sc, sc.threads[t].privateWork), t, sc.threads[t].(pc := Flushed, privateWork := 0));
  }

  lemma GiveBackLedger(sc: Sched, t: nat)
    requires t < |sc.threads| && sc.threads[t].pc.Flushed?
    ensures SchedLedger(GiveBack(sc, t)) == SchedLedger(sc)
  {
    SetLedger(AddOutstanding(sc, -1), t, GiveBack(sc, t).threads[t]);
  }

  lemma LedgerWake(s: State, t: nat)
    requires At(s, t) && s.sched.threads[t].pc.Waiting?
    ensures Ledger(s.(sched := SetPc(s.sched, t, Notified))) == Ledger(s)
  {
    SetLedger(s.sched, t, s.sched.threads[t].(pc := Notified));
  }

  lemma LedgerFlush(s: State, t: nat, completed: seq<nat>)
    requires At(s, t)
    ensures Ledger(s.(sched := FlushWork(s.sched, t), completed := completed))
         == Ledger(s) + Of(Units, s.sched.threads[t]) - 1
  {
    FlushLedger(s.sched, t);
  }

  lemma LedgerGiveBack(s: State, t: nat)
    requires At(s, t) && s.sched.threads[t].pc.Flushed?
    ensures Ledger(s.(sched := GiveBack(s.sched, t))) == Ledger(s)
  {
    GiveBackLedger(s.sched, t);
  }

  lemma LedgerThreadStep(s: State, step: Step)
    requires Enabled(s, step)
    requires step.FinishOp? || step.FlushEmpty?
    ensures Ledger(Next(s, step)) == Ledger(s) + Change(Everything, s, step)
  {
    LedgerFlush(s, step.t, Next(s, step).completed);
  }

  lemma LedgerBeginScan(s: State, t: nat)
    requires Enabled(s, BeginScan(t))
    ensures Ledger(AfterBeginScan(s, t)) == Ledger(s)
  {
    SetLedger(s.sched, t, AfterBeginScan(s, t).sched.threads[t]);
    UnchargedUpdate(s.locks, s.sched.threads[t].pc.d, ScannedBy(t));
  }

  lemma LedgerScanOne(s: State, t: nat, status: Status, after: bool)
    requires Sized(s) && At(s, t) && s.sched.threads[t].pc.Scanning?
    requires s.sched.threads[t].pc.d < |s.descs| && 0 < s.sched.threads[t].pc.left <= 3
    ensures Ledger(AfterScanOne(s, t, status, after)) == Ledger(s)
  {
    SetLedger(s.sched, t, AfterScanOne(s, t, status, after).sched.threads[t]);
  }

  /** compensating_work_started exactly balances an empty perform_io. */
  lemma LedgerEndScan(s: State, t: nat)
    requires LocksMatch(s) && Enabled(s, EndScan(t))
    ensures Ledger(AfterEndScan(s, t)) == Ledger(s)
  {
    SetLedger(s.sched, t, AfterEndScan(s, t).sched.threads[t]);
    UnchargedUpdate(s.locks, s.sched.threads[t].pc.d, Free);
  }

  lemma LedgerScanStep(s: State, step: Step)
    requires LocksMatch(s) && Enabled(s, step)
    requires step.BeginScan? || step.ScanOne? || step.EndScan?
    ensures Ledger(Next(s, step)) == Ledger(s)
  {
    if step.BeginScan? {
      LedgerBeginScan(s, step.t);
    } else if step.ScanOne? {
      LedgerScanOne(s, step.t, step.status, step.after);
    } else {
      LedgerEndScan(s, step.t);
    }
  }

  lemma LedgerSplice(s: State, t: nat)
    requires At(s, t) && s.sched.threads[t].pc.Splicing?
    ensures Ledger(AfterSplice(s, t)) == Ledger(s)
  {
    SetLedger(s.sched, t, s.sched.threads[t].(pc := Wanting));
    SetLedger(s.sched, t, s.sched.threads[t].(privateOps := []));
    LoopLedger(SpliceOwn(s.sched, t), s.results, t);
  }

  lemma LedgerFinishTask(s: State, t: nat)
    requires At(s, t) && s.sched.threads[t].pc.TaskReturned?
    ensures Ledger(s.(sched := Loop(EndTask(s.sched, t), s.results, t))) == Ledger(s)
  {
    SetLedger(s.sched, t, s.sched.threads[t].(privateOps := [], privateWork := 0));
    LoopLedger(EndTask(s.sched, t), s.results, t);
  }

  lemma LedgerAcquire(s: State, t: nat)
    requires At(s, t) && s.sched.threads[t].pc.Wanting?
    ensures Ledger(s.(sched := Loop(s.sched, s.results, t))) == Ledger(s)
  {
    LoopLedger(s.sched, s.results, t);
  }

  lemma LedgerEpoll(s: State, t: nat, reports: seq<Report>)
    requires Sized(s) && At(s, t) && s.sched.threads[t].pc.InTask? && InRange(reports, |s.sockets|)
    ensures Ledger(AfterEpoll(s, t, reports)) == Ledger(s)
  {
    SetLedger(s.sched, t, AfterEpoll(s, t, reports).sched.threads[t]);
  }

  lemma LedgerLoopStep(s: State, step: Step)
    requires Enabled(s, step)
    requires step.Acquire? || step.Splice? || step.EpollReturns? || step.FinishTask?
    ensures Ledger(Next(s, step)) == Ledger(s)
  {
    if step.Acquire? {
      LedgerAcquire(s, step.t);
    } else if step.Splice? {
      LedgerSplice(s, step.t);
    } else if step.EpollReturns? {
      LedgerEpoll(s, step.t, step.reports);
    } else {
      LedgerFinishTask(s, step.t);
    }
  }

  lemma LedgerResume(s: State, t: nat)
    requires At(s, t) && s.sched.threads[t].pc.Notified?
    ensures Ledger(s.(sched := Reacquire(s.sched, s.results, t))) == Ledger(s)
  {
    var sc := s.sched;
    var dropped := DropWaiter(sc.core.word);
    if Signalled(dropped) {
      LoopLedger(sc.(core := sc.core.(word := dropped)), s.results, t);
    } else {
      SetLedger(sc, t, sc.threads[t].(pc := Waiting));
    }
  }

  lemma LedgerStep(s: State, step: Step)
    requires LocalInv(s) && LocksMatch(s) && Enabled(s, step)
    ensures Ledger(Next(s, step)) == Ledger(s) + Change(Everything, s, step)
  {
    if DescriptorStep(step) {
      LedgerDescriptorStep(s, step);
    } else if step.Post? || step.PostBatch? || step.PostBatchPrivately? {
      LedgerPostStep(s, step);
    } else if step.PostRest? {
      LedgerPostRest(s, step.t);
    } else if ControlStep(step) {
      LedgerControlStep(s, step);
    } else if EntryStep(step) {
      LedgerEntryStep(s, step);
    } else if step.Wake? {
      LedgerWake(s, step.t);
    } else if step.WorkFinished? {
      LedgerGiveBack(s, step.t);
    } else if step.FinishOp? || step.FlushEmpty? {
      LedgerThreadStep(s, step);
    } else if step.BeginScan? || step.ScanOne? || step.EndScan? {
      LedgerScanStep(s, step);
    } else if step.Resume? {
      LedgerResume(s, step.t);
    } else {
      LedgerLoopStep(s, step);
    }
  }
}
