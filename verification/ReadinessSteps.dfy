/** An edge is lost in no step but those that `Loses` names. */
module ReadinessSteps {
  import opened Prelude
  import opened SchedulerCore
  import opened EventWord
  import opened Descriptors
  import opened Coalescing
  import opened Protocol
  import opened Totals
  import opened WakeUps
  import opened LocalQueues
  import opened Scans
  import opened DescriptorInvariant
  import opened Readiness

  // ---- Scheduler steps ----

  lemma EdgeThread(s: State, s': State, t: nat, d: nat, j: Dir)
    requires Sized(s) && !Lost(s, d, j)
    requires SameDescriptors(s, s') && ThreadKept(s.sched, s'.sched, s.results, t)
    ensures !Lost(s', d, j)
  {
    FlightThread(s.sched, s'.sched, s.results, t);
    EdgeSched(s, s', d, j);
  }

  lemma EdgeCommit(s: State, s': State, core: Core<nat>, effect: Effect, d: nat, j: Dir)
    requires Sized(s) && !Lost(s, d, j) && core.ops == s.sched.core.ops
    requires SameDescriptors(s, s') && s'.sched == Commit(s.sched, Result(core, effect))
    ensures !Lost(s', d, j)
  {
    FlightWoken(s.sched, s'.sched, s.results);
    EdgeSched(s, s', d, j);
  }

  lemma EdgePush(s: State, s': State, ops: seq<Op<nat>>, d: nat, j: Dir)
    requires Sized(s) && !Lost(s, d, j)
    requires SameDescriptors(s, s') && s'.sched == Push(s.sched, ops)
    ensures !Lost(s', d, j)
  {
    FlightPush(s.sched, s.results, ops);
    EdgeSched(s, s', d, j);
  }

  lemma EdgePost(s: State, u: nat, continuation: bool, caller: Option<nat>, d: nat, j: Dir)
    requires Sized(s) && !Lost(s, d, j) && ValidCaller(s.sched, caller)
    ensures !Lost(PostImmediate(s, u, continuation, caller), d, j)
  {
    var s' := PostImmediate(s, u, continuation, caller);
    if caller.Some? {
      EdgeThread(s, s', caller.value, d, j);
    } else {
      EdgeCommit(s, s', s'.sched.core, Effect(NoOne, false), d, j);
    }
  }

  lemma EdgePostStep(s: State, step: Step, d: nat, j: Dir)
    requires Enabled(s, step) && !Lost(s, d, j)
    requires step.Post? || step.PostBatch? || step.PostBatchPrivately?
    ensures !Lost(Next(s, step), d, j)
  {
    if step.Post? {
      EdgePost(s.(nextId := s.nextId + 1), s.nextId, step.continuation, step.caller, d, j);
    } else if step.PostBatch? {
      EdgePush(s, Next(s, step), Users(s.batches[step.i].ops), d, j);
    } else {
      EdgeThread(s, Next(s, step), step.t, d, j);
    }
  }

  lemma EdgePostRest(s: State, t: nat, d: nat, j: Dir)
    requires Sized(s) && !Lost(s, d, j) && At(s, t) && s.sched.threads[t].pc.Posting?
    ensures !Lost(AfterPostRest(s, t), d, j)
  {
    var pc := s.sched.threads[t].pc;
    if s.sched.core.oneThread {
      EdgeThread(s, AfterPostRest(s, t), t, d, j);
    } else {
      var s1 := s.(sched := SetPc(s.sched, t, Running(pc.first)));
      EdgeThread(s, s1, t, d, j);
      EdgePush(s1, AfterPostRest(s, t), Users(pc.rest), d, j);
    }
  }

  lemma EdgeStartTask(s: State, d: nat, j: Dir)
    requires Sized(s) && !Lost(s, d, j)
    ensures !Lost(s.(sched := Commit(s.sched, SchedulerCore.InitTask(s.sched.core))), d, j)
  {
    var s' := s.(sched := Commit(s.sched, SchedulerCore.InitTask(s.sched.core)));
    if !s.sched.core.shutdown && !s.sched.core.task {
      var s1 := s.(sched := s.sched.(core := s.sched.core.(task := true)));
      EdgeCommit(s, s1, s1.sched.core, Effect(NoOne, false), d, j);
      EdgePush(s1, s', [Task], d, j);
    } else {
      EdgeCommit(s, s', s.sched.core, Effect(NoOne, false), d, j);
    }
  }

  // `stops` is no part of what an edge is.
  lemma EdgeStop(s: State, stops: nat, d: nat, j: Dir)
    requires Sized(s) && !Lost(s, d, j)
    ensures !Lost(s.(sched := Commit(s.sched, StopAll(s.sched.core)), stops := stops), d, j)
  {
    var r := StopAll(s.sched.core);
    EdgeCommit(s, s.(sched := Commit(s.sched, r), stops := stops), r.core, r.effect, d, j);
  }

  lemma EdgeControlStep(s: State, step: Step, d: nat, j: Dir)
    requires Enabled(s, step) && ControlStep(step) && !Lost(s, d, j)
    ensures !Lost(Next(s, step), d, j)
  {
    if step.Notify? {
      FlightWoken(s.sched, Arrive(s.sched, step.pick), s.results);
      EdgeSched(s, s.(sched := Arrive(s.sched, step.pick)), d, j);
    } else if step.Stop? || step.StopFromGuard? {
      EdgeStop(s, Next(s, step).stops, d, j);
    } else if step.StartTask? {
      EdgeStartTask(s, d, j);
    } else {
      EdgeCommit(s, Next(s, step), Next(s, step).sched.core, Effect(NoOne, false), d, j);
    }
  }

  lemma EdgeEntryStep(s: State, step: Step, d: nat, j: Dir)
    requires Enabled(s, step) && EntryStep(step) && !Lost(s, d, j)
    ensures !Lost(Next(s, step), d, j)
  {
    if step.StopFromWork? {
      var s1 := s.(sched := SetPc(s.sched, step.t, Splicing));
      EdgeThread(s, s1, step.t, d, j);
      EdgeStop(s1, s.stops, d, j);
    } else if s.sched.core.outstanding == 0 {
      EdgeStop(s, s.stops, d, j);
    } else {
      EdgeThread(s, Next(s, step), step.t, d, j);
    }
  }

  lemma EdgeThreadStep(s: State, step: Step, d: nat, j: Dir)
    requires Enabled(s, step) && !Lost(s, d, j)
    requires step.Wake? || step.FinishOp? || step.FlushEmpty? || step.WorkFinished?
    ensures !Lost(Next(s, step), d, j)
  {
    EdgeThread(s, Next(s, step), step.t, d, j);
  }

  lemma EdgeResume(s: State, t: nat, d: nat, j: Dir)
    requires LocalInv(s) && !Lost(s, d, j) && At(s, t) && s.sched.threads[t].pc.Notified?
    ensures !Lost(s.(sched := Reacquire(s.sched, s.results, t)), d, j)
  {
    var sc := s.sched.(core := s.sched.core.(word := DropWaiter(s.sched.core.word)));
    if Signalled(sc.core.word) {
      FlightWoken(s.sched, sc, s.results);
      EdgeLoop(s, sc, t, d, j);
    } else {
      EdgeThread(s, s.(sched := Reacquire(s.sched, s.results, t)), t, d, j);
    }
  }

  lemma EdgeSplice(s: State, t: nat, d: nat, j: Dir)
    requires LocalInv(s) && !Lost(s, d, j) && At(s, t) && s.sched.threads[t].pc.Splicing?
    ensures !Lost(AfterSplice(s, t), d, j)
  {
    assert Shape(s.sched.threads[t], |s.descs|);
    if s.sched.threads[t].privateOps == [] {
      EdgeThread(s, AfterSplice(s, t), t, d, j);
    } else {
      FlightThread(s.sched, SpliceOwn(s.sched, t), s.results, t);
      QueueAppend(s.sched.core.ops, s.sched.threads[t].privateOps, |s.descs|);
      EdgeLoop(s, SpliceOwn(s.sched, t), t, d, j);
    }
  }

  lemma EdgeFinishTask(s: State, t: nat, d: nat, j: Dir)
    requires LocalInv(s) && WakeInv(s.sched) && !Lost(s, d, j) && At(s, t) && s.sched.threads[t].pc.TaskReturned?
    ensures !Lost(s.(sched := Loop(EndTask(s.sched, t), s.results, t)), d, j)
  {
    assert Shape(s.sched.threads[t], |s.descs|);
    TotalAtLeast(InReactor, s.sched.threads, t);
    TaskCounted(s.sched.core.ops);
    QueueHarvest(s.sched.core.ops, s.sched.threads[t].privateOps, |s.descs|);
    FlightThread(s.sched, EndTask(s.sched, t), s.results, t);
    EdgeLoop(s, EndTask(s.sched, t), t, d, j);
  }

  lemma EdgeLoopStep(s: State, step: Step, d: nat, j: Dir)
    requires LocalInv(s) && WakeInv(s.sched) && Enabled(s, step) && !Lost(s, d, j)
    requires step.Acquire? || step.Resume? || step.Splice? || step.FinishTask?
    ensures !Lost(Next(s, step), d, j)
  {
    if step.Acquire? {
      EdgeLoop(s, s.sched, step.t, d, j);
    } else if step.Resume? {
      EdgeResume(s, step.t, d, j);
    } else if step.Splice? {
      EdgeSplice(s, step.t, d, j);
    } else {
      EdgeFinishTask(s, step.t, d, j);
    }
  }

  // ---- Descriptor steps ----

  // The scheduler is left alone; a direction that needs an event did before.
  lemma EdgeLess(s: State, s': State, d: nat, j: Dir)
    requires Sized(s) && Sized(s') && s'.sched == s.sched && d < |s.descs| <= |s'.descs|
    requires s'.results[d] == s.results[d] && !Lost(s, d, j)
    requires Needs(s'.descs[d], s'.sockets[d], s'.locks[d], j) && !s'.sockets[d].pending[j] ==>
      Needs(s.descs[d], s.sockets[d], s.locks[d], j) && !s.sockets[d].pending[j]
    ensures !Lost(s', d, j)
  {
  }

  // start_op before its post: speculation turns off only when the direction has
  // just been found exhausted, and it goes on to wait only if not ready.
  lemma EdgeStartOp(s: State, step: Step, d: nat, j: Dir)
    requires CanStart(s, step) && !Lost(s, d, j)
    requires Tries(s.descs[step.d], step.j, step.allow) ==> Oracle(s.sockets[step.d], step.j, step.status, step.after)
    ensures !Lost(AfterStartOp(s, step), d, j)
  {
    if d < |s.descs| {
      var s1 := Tried(s, step);
      if Begun(s, step).outcome.Complete? {
        EdgeLess(s, s1, d, j);
        EdgePost(s1, s.nextId, step.continuation, step.caller, d, j);
      } else {
        EdgeLess(s, AfterStartOp(s, step), d, j);
      }
    }
  }

  // The rest of start_op: an EPOLL_CTL_MOD reports what is ready by now, unless
  // it fails.
  lemma EdgeResolved(s: State, step: Step, d: nat, j: Dir)
    requires Enabled(s, step) && CanFinish(s, step) && !Lost(s, d, j) && !Loses(s, step, d, j)
    ensures !Lost(Resolved(s, step), d, j)
  {
  }

  lemma EdgeFinishStart(s: State, step: Step, d: nat, j: Dir)
    requires Enabled(s, step) && CanFinish(s, step) && !Lost(s, d, j) && !Loses(s, step, d, j)
    ensures !Lost(AfterFinishStart(s, step), d, j)
  {
    EdgeResolved(s, step, d, j);
    if Ended(s, step).outcome.Complete? {
      EdgePost(Resolved(s, step), s.locks[step.d].op, step.continuation, step.caller, d, j);
    }
  }

  lemma EdgeRise(s: State, step: Step, d: nat, j: Dir)
    requires Enabled(s, step) && step.Rise? && !Lost(s, d, j) && !Loses(s, step, d, j)
    ensures !Lost(AfterRise(s, step.d, step.j), d, j)
  {
  }

  lemma EdgeCharge(s: State, e: nat, d: nat, j: Dir)
    requires Sized(s) && e < |s.descs| && s.locks[e].Charging? && !Lost(s, d, j)
    ensures !Lost(AfterCharge(s, e), d, j)
  {
    if d < |s.descs| {
      var s1 := s.(locks := s.locks[e := Free]);
      EdgeLess(s, s1, d, j);
      EdgeCommit(s1, AfterCharge(s, e), AfterCharge(s, e).sched.core, Effect(NoOne, false), d, j);
    }
  }

  lemma EdgeRegister(s: State, ready: Bits, added: Added, d: nat, j: Dir)
    requires Sized(s) && !Lost(s, d, j)
    ensures !Lost(AfterRegister(s, ready, added), d, j)
  {
    if d < |s.descs| {
      EdgeLess(s, AfterRegister(s, ready, added), d, j);
    }
  }

  lemma EdgeQuietStep(s: State, step: Step, d: nat, j: Dir)
    requires Enabled(s, step) && !Lost(s, d, j)
    requires step.Cancel? || step.Deregister? || step.Fall?
    ensures !Lost(Next(s, step), d, j)
  {
    if d < |s.descs| {
      EdgeLess(s, Next(s, step), d, j);
    }
  }

  lemma EdgeDescriptorStep(s: State, step: Step, d: nat, j: Dir)
    requires Enabled(s, step) && DescriptorStep(step) && !Lost(s, d, j) && !Loses(s, step, d, j)
    ensures !Lost(Next(s, step), d, j)
  {
    if step.Register? {
      EdgeRegister(s, step.ready, step.added, d, j);
    } else if step.StartOp? {
      EdgeStartOp(s, step, d, j);
    } else if step.FinishStart? {
      EdgeFinishStart(s, step, d, j);
    } else if step.ChargeStart? {
      EdgeCharge(s, step.d, d, j);
    } else if step.Rise? {
      EdgeRise(s, step, d, j);
    } else {
      EdgeQuietStep(s, step, d, j);
    }
  }

  // ---- perform_io ----

  ghost predicate OnlyThread(s: State, s': State, t: nat)
  {
    && At(s, t) && |s'.sched.threads| == |s.sched.threads|
    && s'.sched.threads == s.sched.threads[t := s'.sched.threads[t]]
  }

  // The thread in perform_io on d moves on; everybody else stays put.
  lemma CarriedByOthers(s: State, s': State, t: nat, d: nat, j: Dir)
    requires OnlyThread(s, s', t)
    requires Carries(s.sched.threads[t].pc, d, j) ==> Carries(s'.sched.threads[t].pc, d, j)
    requires Carried(s.sched.threads, d, j)
    ensures Carried(s'.sched.threads, d, j)
  {
    var i :| 0 <= i < |s.sched.threads| && Carries(s.sched.threads[i].pc, d, j);
    assert Carries(s'.sched.threads[i].pc, d, j);
  }

  lemma EnqueuedKept(s: State, s': State, t: nat, d: nat)
    requires OnlyThread(s, s', t)
    requires s'.sched.threads[t].privateOps == s.sched.threads[t].privateOps && s'.sched.core.ops == s.sched.core.ops
    requires Enqueued(s.sched, d)
    ensures Enqueued(s'.sched, d)
  {
    if Descriptor(d) !in s.sched.core.ops {
      var i :| 0 <= i < |s.sched.threads| && Descriptor(d) in s.sched.threads[i].privateOps;
      assert Descriptor(d) in s'.sched.threads[i].privateOps;
    }
  }

  // What a turn of perform_io does to direction j, whichever it is.
  lemma ScanStepEdge(c: Scan, events: Events, status: Status, k: Socket, after: bool, j: Dir)
    requires 0 < c.left <= 3 && (Selects(events, c.left - 1) ==> c.desc.speculative[c.left - 1])
    requires Performs(c, events) ==> Oracle(k, c.left - 1, status, after)
    ensures var n := ScanStep(c, events, status);
      var k' := if Performs(c, events) then SetReady(k, c.left - 1, after) else k;
      Needs(n.desc, k', Free, j) && !(Selects(events, j) && j < n.left) ==>
        Needs(c.desc, k, Free, j) && !(Selects(events, j) && j < c.left)
  {
  }

  lemma EdgeScanOne(s: State, t: nat, status: Status, after: bool, d: nat, j: Dir)
    requires ScansOk(s) && Enabled(s, ScanOne(t, status, after)) && !Lost(s, d, j)
    ensures !Lost(AfterScanOne(s, t, status, after), d, j)
  {
    var pc := s.sched.threads[t].pc;
    var s' := AfterScanOne(s, t, status, after);
    assert ScanPrepared(pc, s.descs);
    if d < |s.descs| && Needs(s'.descs[d], s'.sockets[d], s'.locks[d], j) {
      ScanStepEdge(Scan(s.descs[pc.d], pc.left, pc.done), pc.events, status, s.sockets[pc.d], after, j);
      if Carries(s'.sched.threads[t].pc, d, j) {
        assert Carried(s'.sched.threads, d, j);
      } else {
        assert Needs(s.descs[d], s.sockets[d], s.locks[d], j) && !Carries(pc, d, j);
        ScanKeepsOthers(s, s', t, d, j);
      }
    }
  }

  lemma ScanKeepsOthers(s: State, s': State, t: nat, e: nat, j: Dir)
    requires Sized(s) && Sized(s') && |s'.descs| == |s.descs| && e < |s.descs| && OnlyThread(s, s', t)
    requires s'.sched.threads[t].privateOps == s.sched.threads[t].privateOps && s'.sched.core.ops == s.sched.core.ops
    requires s'.results == s.results && s'.sockets[e].pending == s.sockets[e].pending
    requires Carries(s.sched.threads[t].pc, e, j) ==> Carries(s'.sched.threads[t].pc, e, j)
    requires OnItsWay(s, e, j)
    ensures OnItsWay(s', e, j)
  {
    if Carried(s.sched.threads, e, j) {
      CarriedByOthers(s, s', t, e, j);
    } else if Enqueued(s.sched, e) {
      EnqueuedKept(s, s', t, e);
    }
  }

  lemma EdgeBeginScan(s: State, t: nat, d: nat, j: Dir)
    requires Sized(s) && At(s, t) && s.sched.threads[t].pc.Performing? && !Lost(s, d, j)
    requires s.sched.threads[t].pc.d < |s.descs| && s.locks[s.sched.threads[t].pc.d].Free?
    ensures !Lost(AfterBeginScan(s, t), d, j)
  {
    if d < |s.descs| && OnItsWay(s, d, j) {
      ScanKeepsOthers(s, AfterBeginScan(s, t), t, d, j);
    }
  }

  lemma EdgeEndScan(s: State, t: nat, d: nat, j: Dir)
    requires ScansOk(s) && At(s, t) && s.sched.threads[t].pc.Scanning? && !Lost(s, d, j)
    requires s.sched.threads[t].pc.left == 0 && s.sched.threads[t].pc.d < |s.descs|
    ensures !Lost(AfterEndScan(s, t), d, j)
  {
    if d < |s.descs| && OnItsWay(s, d, j) {
      ScanKeepsOthers(s, AfterEndScan(s, t), t, d, j);
    }
  }

  lemma EdgeScanStep(s: State, step: Step, d: nat, j: Dir)
    requires ScansOk(s) && Enabled(s, step) && ScanStepLabel(step) && !Lost(s, d, j)
    ensures !Lost(Next(s, step), d, j)
  {
    if step.BeginScan? {
      EdgeBeginScan(s, step.t, d, j);
    } else if step.ScanOne? {
      EdgeScanOne(s, step.t, step.status, step.after, d, j);
    } else {
      EdgeEndScan(s, step.t, d, j);
    }
  }

  // ---- The reactor ----

  lemma {:induction false} ConsumeSpec(sockets: seq<Socket>, reports: seq<Report>, d: nat)
    requires InRange(reports, |sockets|) && d < |sockets|
    ensures Consume(sockets, reports)[d] == if Reported(reports, d) then sockets[d].(pending := [false, false, false]) else sockets[d]
    decreases |reports|
  {
    if reports != [] {
      var r, rest := reports[0], reports[1..];
      var sockets1 := if r.Interrupter? then sockets else sockets[r.d := sockets[r.d].(pending := [false, false, false])];
      ConsumeSpec(sockets1, rest, d);
      ReportedCons(reports, d);
    }
  }

  lemma ReportedCons(reports: seq<Report>, d: nat)
    requires reports != []
    ensures Reported(reports, d) <==> Names(reports[0], d) || Reported(reports[1..], d)
  {
    if Reported(reports[1..], d) {
      var i :| 0 <= i < |reports[1..]| && Names(reports[1..][i], d);
      assert Names(reports[i + 1], d);
    }
    if Reported(reports, d) && !Names(reports[0], d) {
      var i :| 0 <= i < |reports| && Names(reports[i], d);
      assert Names(reports[1..][i - 1], d);
    }
  }

  // A descriptor's task_result_ selects what some report of it selects.
  lemma ReportSelects(results: seq<Events>, reports: seq<Report>, d: nat, j: Dir)
    requires InRange(reports, |results|) && d < |results| && Reported(reports, d)
    ensures Selects(Gather(Gathered([], results), reports).results[d], j) <==> Covered(reports, d, j)
  {
    GatherLosesNothing(results, reports);
    var events := Gather(Gathered([], results), reports).results[d];
    if Covered(reports, d, j) {
      var k :| 0 <= k < |reports| && reports[k].Ready? && reports[k].d == d && Selects(reports[k].events, j);
      var f := if FlagOf(j) in reports[k].events then FlagOf(j)
               else if EpollErr in reports[k].events then EpollErr else EpollHup;
      assert Names(reports[k], d) && f in reports[k].events;
      assert ReportedFlag(reports, d, f);
    }
    if Selects(events, j) {
      var f := if FlagOf(j) in events then FlagOf(j) else if EpollErr in events then EpollErr else EpollHup;
      assert ReportedFlag(reports, d, f);
      var k :| 0 <= k < |reports| && Names(reports[k], d) && f in reports[k].events;
      assert Selects(reports[k].events, j);
    }
  }

  // A pending edge that epoll_wait consumes reaches task_result_.
  lemma ReportReaches(s: State, reports: seq<Report>, d: nat, j: Dir)
    requires Sized(s) && d < |s.descs| && InRange(reports, |s.sockets|) && Faithful(s.sockets, reports)
    requires Reported(reports, d) && s.sockets[d].pending[j] && s.sockets[d].ready[j]
    ensures var g := Gather(Gathered([], s.results), reports);
      Descriptor(d) in g.ops && Selects(g.results[d], j)
  {
    GatherLosesNothing(s.results, reports);
    ReportSelects(s.results, reports, d, j);
    var i :| 0 <= i < |reports| && Names(reports[i], d);
    assert Covered(reports, d, j);
  }

  lemma EdgeEpoll(s: State, t: nat, reports: seq<Report>, d: nat, j: Dir)
    requires LocalInv(s) && WakeInv(s.sched) && !Lost(s, d, j)
    requires At(s, t) && s.sched.threads[t].pc.InTask? && InRange(reports, |s.sockets|) && Faithful(s.sockets, reports)
    ensures !Lost(AfterEpoll(s, t, reports), d, j)
  {
    var s' := AfterEpoll(s, t, reports);
    assert Shape(s.sched.threads[t], |s.descs|);
    if d < |s.descs| {
      ConsumeSpec(s.sockets, reports, d);
      LocalIsGlobal(s, t, d);
      if Carried(s.sched.threads, d, j) {
        CarriedByOthers(s, s', t, d, j);
      } else if Needs(s.descs[d], s.sockets[d], s.locks[d], j) && Reported(reports, d) {
        ReportReaches(s, reports, d, j);
        assert Descriptor(d) in s'.sched.threads[t].privateOps;
      }
    }
  }

  /** An edge that is not lost stays so in every step but those named. */
  lemma EdgeStep(s: State, step: Step, d: nat, j: Dir)
    requires LocalInv(s) && WakeInv(s.sched) && ScansOk(s) && Enabled(s, step)
    requires !Lost(s, d, j) && !Loses(s, step, d, j)
    ensures Sized(Next(s, step)) && !Lost(Next(s, step), d, j)
  {
    LocalStep(s, step);
    if DescriptorStep(step) {
      EdgeDescriptorStep(s, step, d, j);
    } else if step.Post? || step.PostBatch? || step.PostBatchPrivately? {
      EdgePostStep(s, step, d, j);
    } else if step.PostRest? {
      EdgePostRest(s, step.t, d, j);
    } else if ControlStep(step) {
      EdgeControlStep(s, step, d, j);
    } else if EntryStep(step) {
      EdgeEntryStep(s, step, d, j);
    } else if step.Wake? || step.FinishOp? || step.FlushEmpty? || step.WorkFinished? {
      EdgeThreadStep(s, step, d, j);
    } else if ScanStepLabel(step) {
      EdgeScanStep(s, step, d, j);
    } else if step.EpollReturns? {
      EdgeEpoll(s, step.t, step.reports, d, j);
    } else {
      EdgeLoopStep(s, step, d, j);
    }
  }

  // ---- The converse, and what re-arming mends ----

  /** Each step named does lose the edge. */
  lemma LosingStepLoses(s: State, step: Step, d: nat, j: Dir)
    requires DescsOk(s) && Enabled(s, step) && Loses(s, step, d, j)
    ensures Sized(Next(s, step)) && Lost(Next(s, step), d, j)
  {
    var s' := Next(s, step);
    assert DescOk(s.descs[d], s.locks[d], s.nextId);
    assert s'.sched == s.sched;
    assert Enqueued(s'.sched, d) <==> Enqueued(s.sched, d);
  }

  ghost predicate Deafened(s: State, d: nat, j: Dir)
    requires Sized(s)
  {
    Lost(s, d, j) || Unasked(s, d, j)
  }

  // Only an ignored failure leaves a direction unasked.
  lemma UnaskedStep(s: State, step: Step, d: nat, j: Dir)
    requires Enabled(s, step) && Sized(Next(s, step)) && Unasked(Next(s, step), d, j)
    ensures Ignored(s, step, d, j) || Unasked(s, d, j)
  {
    if !DescriptorStep(step) {
      UnaskedElsewhere(s, step, d);
    } else if step.StartOp? {
      UnaskedStart(s, step, d, j);
    } else if step.FinishStart? {
      UnaskedFinish(s, step, d, j);
    }
  }

  lemma UnaskedStart(s: State, step: Step, d: nat, j: Dir)
    requires CanStart(s, step) && Sized(AfterStartOp(s, step)) && Unasked(AfterStartOp(s, step), d, j)
    ensures Unasked(s, d, j)
  {
    PostKeepsPcs(Tried(s, step), s.nextId, step.continuation, step.caller);
  }

  lemma UnaskedFinish(s: State, step: Step, d: nat, j: Dir)
    requires Enabled(s, step) && CanFinish(s, step) && Sized(AfterFinishStart(s, step)) && Unasked(AfterFinishStart(s, step), d, j)
    ensures Ignored(s, step, d, j) || Unasked(s, d, j)
  {
    PostKeepsPcs(Resolved(s, step), s.locks[step.d].op, step.continuation, step.caller);
  }

  lemma UnaskedElsewhere(s: State, step: Step, d: nat)
    requires Enabled(s, step) && !DescriptorStep(step)
    ensures var s' := Next(s, step);
      && |s'.descs| == |s.descs| && |s'.sockets| == |s.sockets|
      && (d < |s.descs| ==> s'.descs[d].shutdown == s.descs[d].shutdown && s'.descs[d].registered == s.descs[d].registered
                            && s'.sockets[d].interest == s.sockets[d].interest)
  {
    if step.EpollReturns? && d < |s.sockets| {
      ConsumeSpec(s.sockets, step.reports, d);
    }
  }

  lemma RearmingMends(s: State, step: Step, d: nat, j: Dir)
    requires Enabled(s, step) && Rearms(s, step, d)
    ensures Sized(AfterFinishStart(s, step)) && !Deafened(AfterFinishStart(s, step), d, j)
  {
  }

  /** A direction is deaf only after an ignored failure, and a successful
      EPOLL_CTL_MOD mends every direction of its descriptor. */
  lemma DeafenedStep(s: State, step: Step, d: nat, j: Dir)
    requires LocalInv(s) && WakeInv(s.sched) && ScansOk(s) && Enabled(s, step)
    requires Sized(Next(s, step)) && Deafened(Next(s, step), d, j)
    ensures Ignored(s, step, d, j) || (Deafened(s, d, j) && !Rearms(s, step, d))
  {
    if step.FinishStart? && Rearms(s, step, d) {
      RearmingMends(s, step, d, j);
    } else if Unasked(Next(s, step), d, j) {
      UnaskedStep(s, step, d, j);
    } else if !Lost(s, d, j) {
      assert Loses(s, step, d, j) by {
        if !Loses(s, step, d, j) {
          EdgeStep(s, step, d, j);
        }
      }
    }
  }
}
