/** Event coalescing over whole runs: task_result_ is the union of the last
    reports, stays so while the descriptor is queued, and is all of it what
    perform_io acts on. */
module Harvests {
  import opened EventWord
  import opened SchedulerCore
  import opened Descriptors
  import opened Coalescing
  import opened Protocol
  import opened Totals
  import opened WakeUps
  import opened LocalQueues
  import opened Scans
  import opened Runs

  // The bitwise or of the reports of d.
  function UnionOf(reports: seq<Report>, d: nat): Events
  {
    if reports == [] then {}
    else (if reports[0].Ready? && reports[0].d == d then reports[0].events else {}) + UnionOf(reports[1..], d)
  }

  lemma {:induction false} UnionIsReports(reports: seq<Report>, d: nat, f: Flag)
    ensures f in UnionOf(reports, d) <==> ReportedFlag(reports, d, f)
  {
    if reports != [] {
      UnionIsReports(reports[1..], d, f);
      if ReportedFlag(reports[1..], d, f) {
        var i :| 0 <= i < |reports[1..]| && Names(reports[1..][i], d) && f in reports[1..][i].events;
        assert Names(reports[i + 1], d) && f in reports[i + 1].events;
      }
      if ReportedFlag(reports, d, f) && !(Names(reports[0], d) && f in reports[0].events) {
        var i :| 0 <= i < |reports| && Names(reports[i], d) && f in reports[i].events;
        assert Names(reports[1..][i - 1], d) && f in reports[1..][i - 1].events;
      }
    }
  }

  // The harvest of epoll_wait that last reported d, by the labels alone.
  ghost function LastHarvest(steps: seq<Step>, n: nat, d: nat): Events
    requires n <= |steps|
  {
    if n == 0 then {}
    else if steps[n - 1].EpollReturns? && Reported(steps[n - 1].reports, d) then UnionOf(steps[n - 1].reports, d)
    else LastHarvest(steps, n - 1, d)
  }

  function ResultAt(s: State, d: nat): Events { if d < |s.results| then s.results[d] else {} }

  // ---- task_result_ is the last harvest ----

  lemma HarvestUnion(results: seq<Events>, reports: seq<Report>, d: nat)
    requires InRange(reports, |results|) && d < |results|
    ensures Gather(Gathered([], results), reports).results[d]
         == if Reported(reports, d) then UnionOf(reports, d) else results[d]
  {
    GatherLosesNothing(results, reports);
    if Reported(reports, d) {
      var events := Gather(Gathered([], results), reports).results[d];
      forall f: Flag
        ensures f in events <==> f in UnionOf(reports, d)
      {
        UnionIsReports(reports, d, f);
      }
      assert events == UnionOf(reports, d);
    }
  }

  lemma EpollResult(s: State, t: nat, reports: seq<Report>, d: nat)
    requires LocalInv(s) && At(s, t) && s.sched.threads[t].pc.InTask? && InRange(reports, |s.sockets|)
    ensures ResultAt(AfterEpoll(s, t, reports), d) == if Reported(reports, d) then UnionOf(reports, d) else ResultAt(s, d)
  {
    assert Shape(s.sched.threads[t], |s.descs|);
    if d < |s.results| {
      HarvestUnion(s.results, reports, d);
    }
  }

  lemma PlacingKeepsResults(s: State, step: Step)
    requires CanStart(s, step) || CanFinish(s, step)
    ensures CanStart(s, step) ==> AfterStartOp(s, step).results == s.results
    ensures CanFinish(s, step) ==> AfterFinishStart(s, step).results == s.results
  {
    if CanStart(s, step) {
      PostKeepsPcs(Tried(s, step), s.nextId, step.continuation, step.caller);
    } else {
      PostKeepsPcs(Resolved(s, step), s.locks[step.d].op, step.continuation, step.caller);
    }
  }

  lemma OthersKeepResults(s: State, step: Step, d: nat)
    requires Enabled(s, step) && !step.EpollReturns? && !step.StartOp? && !step.FinishStart?
    ensures ResultAt(Next(s, step), d) == ResultAt(s, d)
  {
  }

  lemma ResultStep(s: State, step: Step, d: nat)
    requires LocalInv(s) && Enabled(s, step)
    ensures ResultAt(Next(s, step), d)
         == if step.EpollReturns? && Reported(step.reports, d) then UnionOf(step.reports, d) else ResultAt(s, d)
  {
    if step.EpollReturns? {
      EpollResult(s, step.t, step.reports, d);
    } else if step.StartOp? || step.FinishStart? {
      PlacingKeepsResults(s, step);
    } else {
      OthersKeepResults(s, step, d);
    }
  }

  /** task_result_ is at all times the union of all the reports of the harvest that
      last reported the descriptor. */
  lemma {:induction false} ResultIsLastHarvest(states: seq<State>, steps: seq<Step>, n: nat, d: nat)
    requires IsRun(states, steps) && n < |states|
    ensures ResultAt(states[n], d) == LastHarvest(steps, n, d)
  {
    if n > 0 {
      ResultIsLastHarvest(states, steps, n - 1, d);
      InvHolds(states, steps, n - 1);
      assert Taken(states, steps, n - 1);
      ResultStep(states[n - 1], steps[n - 1], d);
    }
  }

  // ---- It stays while the descriptor is queued ----

  // With a descriptor in the shared queue nobody is in the reactor.
  lemma NobodyHarvests(s: State, d: nat, t: nat)
    requires LocalInv(s) && WakeInv(s.sched) && Descriptor(d) in s.sched.core.ops && At(s, t)
    ensures !s.sched.threads[t].pc.InTask? && !s.sched.threads[t].pc.TaskReturned?
  {
    var ops := s.sched.core.ops;
    var i :| 0 <= i < |ops| && ops[i] == Descriptor(d);
    assert Task in ops[i + 1..] ==> Task in ops;
    TaskCounted(ops);
    TotalAtLeast(InReactor, s.sched.threads, t);
  }

  lemma QueuedResultStep(s: State, step: Step, d: nat)
    requires LocalInv(s) && WakeInv(s.sched) && Descriptor(d) in s.sched.core.ops && Enabled(s, step)
    ensures !step.EpollReturns? && ResultAt(Next(s, step), d) == ResultAt(s, d)
  {
    if step.EpollReturns? {
      NobodyHarvests(s, d, step.t);
    } else {
      ResultStep(s, step, d);
    }
  }

  ghost predicate QueuedFrom(states: seq<State>, i: nat, k: nat, d: nat)
  {
    forall m :: i <= m < k && m < |states| ==> Descriptor(d) in states[m].sched.core.ops
  }

  /** From the moment a descriptor is queued until it is popped no report is
      absorbed, and its task_result_ stays what it was. */
  lemma {:induction false} QueuedResultStays(states: seq<State>, steps: seq<Step>, i: nat, k: nat, d: nat)
    requires IsRun(states, steps) && i <= k < |states| && QueuedFrom(states, i, k, d)
    ensures ResultAt(states[k], d) == ResultAt(states[i], d)
    ensures i < k ==> !steps[k - 1].EpollReturns?
    decreases k
  {
    if i < k {
      QueuedResultStays(states, steps, i, k - 1, d);
      InvHolds(states, steps, k - 1);
      assert Taken(states, steps, k - 1);
      QueuedResultStep(states[k - 1], steps[k - 1], d);
    }
  }

  // ---- And is what perform_io acts on ----

  // Thread t is about to call, or in, perform_io of d with these events.
  predicate ActsOn(s: State, t: nat, d: nat, events: Events)
  {
    && At(s, t)
    && var pc := s.sched.threads[t].pc;
       (pc.Performing? && pc.d == d && pc.events == events) || (pc.Scanning? && pc.d == d && pc.events == events)
  }

  lemma LoopActs(sc: Sched, results: seq<Events>, u: nat, t: nat, d: nat, events: Events)
    requires u < |sc.threads| && t < |sc.threads| && Loop(sc, results, u).threads[t].pc == Performing(d, events)
    ensures if t == u then events == if d < |results| then results[d] else {} else sc.threads[t].pc == Performing(d, events)
  {
  }

  lemma ResumeActs(sc: Sched, results: seq<Events>, u: nat, t: nat, d: nat, events: Events)
    requires u < |sc.threads| && t < |sc.threads| && Reacquire(sc, results, u).threads[t].pc == Performing(d, events)
    ensures if t == u then events == if d < |results| then results[d] else {} else sc.threads[t].pc == Performing(d, events)
  {
    var w := DropWaiter(sc.core.word);
    if Signalled(w) {
      LoopActs(sc.(core := sc.core.(word := w)), results, u, t, d, events);
    }
  }

  lemma SpliceActs(s: State, u: nat, t: nat, d: nat, events: Events)
    requires At(s, u) && At(s, t) && s.sched.threads[u].pc.Splicing?
    requires AfterSplice(s, u).sched.threads[t].pc == Performing(d, events)
    ensures if t == u then events == ResultAt(s, d) else s.sched.threads[t].pc == Performing(d, events)
  {
    if s.sched.threads[u].privateOps != [] {
      LoopActs(SpliceOwn(s.sched, u), s.results, u, t, d, events);
    }
  }

  lemma PopActs(s: State, step: Step, t: nat, d: nat, events: Events)
    requires Enabled(s, step) && (step.Acquire? || step.Resume? || step.Splice? || step.FinishTask?)
    requires At(s, t) && t < |Next(s, step).sched.threads| && Next(s, step).sched.threads[t].pc == Performing(d, events)
    ensures events == ResultAt(s, d) || s.sched.threads[t].pc == Performing(d, events)
  {
    if step.Acquire? {
      LoopActs(s.sched, s.results, step.t, t, d, events);
    } else if step.Resume? {
      ResumeActs(s.sched, s.results, step.t, t, d, events);
    } else if step.Splice? {
      SpliceActs(s, step.t, t, d, events);
    } else {
      LoopActs(EndTask(s.sched, step.t), s.results, step.t, t, d, events);
    }
  }

  lemma PlacingActs(s: State, step: Step, t: nat, d: nat, events: Events)
    requires CanStart(s, step) || CanFinish(s, step)
    requires CanStart(s, step) ==> ActsOn(AfterStartOp(s, step), t, d, events)
    requires CanFinish(s, step) ==> ActsOn(AfterFinishStart(s, step), t, d, events)
    ensures ActsOn(s, t, d, events)
  {
    if CanStart(s, step) {
      PostKeepsPcs(Tried(s, step), s.nextId, step.continuation, step.caller);
    } else {
      PostKeepsPcs(Resolved(s, step), s.locks[step.d].op, step.continuation, step.caller);
    }
  }

  lemma ControlActs(s: State, step: Step, t: nat, d: nat, events: Events)
    requires Enabled(s, step) && (ControlStep(step) || EntryStep(step)) && ActsOn(Next(s, step), t, d, events)
    ensures ActsOn(s, t, d, events)
  {
  }

  lemma PostActs(s: State, step: Step, t: nat, d: nat, events: Events)
    requires Enabled(s, step) && (step.Post? || step.PostBatch? || step.PostBatchPrivately? || step.PostRest?)
    requires ActsOn(Next(s, step), t, d, events)
    ensures ActsOn(s, t, d, events)
  {
  }

  lemma QuietActs(s: State, step: Step, t: nat, d: nat, events: Events)
    requires Enabled(s, step) && DescriptorStep(step) && !step.StartOp? && !step.FinishStart?
    requires ActsOn(Next(s, step), t, d, events)
    ensures ActsOn(s, t, d, events)
  {
  }

  lemma ThreadActs(s: State, step: Step, t: nat, d: nat, events: Events)
    requires Enabled(s, step)
    requires step.Wake? || step.FinishOp? || step.FlushEmpty? || step.WorkFinished? || step.EpollReturns?
    requires ActsOn(Next(s, step), t, d, events)
    ensures ActsOn(s, t, d, events)
  {
  }

  lemma ScanActs(s: State, step: Step, t: nat, d: nat, events: Events)
    requires Enabled(s, step) && ScanStepLabel(step) && ActsOn(Next(s, step), t, d, events)
    ensures ActsOn(s, t, d, events)
  {
  }

  // A thread comes to act on a descriptor by popping it, with its task_result_.
  lemma ActsStep(s: State, step: Step, t: nat, d: nat, events: Events)
    requires Enabled(s, step) && ActsOn(Next(s, step), t, d, events)
    ensures At(s, t)
    ensures ActsOn(s, t, d, events)
         || (Next(s, step).sched.threads[t].pc == Performing(d, events) && events == ResultAt(s, d))
  {
    if step.StartOp? || step.FinishStart? {
      PlacingActs(s, step, t, d, events);
    } else if ControlStep(step) || EntryStep(step) {
      ControlActs(s, step, t, d, events);
    } else if step.Acquire? || step.Resume? || step.Splice? || step.FinishTask? {
      OtherStepScans(s, step);
      if Next(s, step).sched.threads[t].pc.Performing? {
        PopActs(s, step, t, d, events);
      }
    } else if DescriptorStep(step) {
      QuietActs(s, step, t, d, events);
    } else if step.Post? || step.PostBatch? || step.PostBatchPrivately? || step.PostRest? {
      PostActs(s, step, t, d, events);
    } else if ScanStepLabel(step) {
      ScanActs(s, step, t, d, events);
    } else {
      ThreadActs(s, step, t, d, events);
    }
  }

  // Step p popped descriptor d for thread t, which has acted on it up to state n.
  ghost predicate PoppedAt(states: seq<State>, p: nat, n: nat, t: nat, d: nat, events: Events)
  {
    && p < n < |states| && At(states[p + 1], t) && states[p + 1].sched.threads[t].pc == Performing(d, events)
    && forall m :: p < m <= n ==> ActsOn(states[m], t, d, events)
  }

  lemma StillActs(states: seq<State>, p: nat, n: nat, t: nat, d: nat, events: Events)
    requires PoppedAt(states, p, n, t, d, events) && n + 1 < |states| && ActsOn(states[n + 1], t, d, events)
    ensures PoppedAt(states, p, n + 1, t, d, events)
  {
  }

  /** The whole set reaches perform_io: the events a thread acts on, from the pop of
      the descriptor to the end of perform_io, are the union of all the reports of
      the last harvest before the pop. */
  lemma {:induction false} PerformIoGetsTheHarvest(states: seq<State>, steps: seq<Step>, n: nat, t: nat, d: nat, events: Events)
    returns (p: nat)
    requires IsRun(states, steps) && n < |states| && ActsOn(states[n], t, d, events)
    ensures p < n && PoppedAt(states, p, n, t, d, events) && events == LastHarvest(steps, p, d)
  {
    assert n > 0;
    assert Taken(states, steps, n - 1);
    ActsStep(states[n - 1], steps[n - 1], t, d, events);
    if ActsOn(states[n - 1], t, d, events) {
      p := PerformIoGetsTheHarvest(states, steps, n - 1, t, d, events);
      StillActs(states, p, n - 1, t, d, events);
    } else {
      p := n - 1;
      ResultIsLastHarvest(states, steps, p, d);
    }
  }
}
