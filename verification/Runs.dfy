/** The main theorems: what holds in every state of every run. */
module Runs {
  import opened Prelude
  import opened EventWord
  import opened SchedulerCore
  import opened Descriptors
  import opened Coalescing
  import opened Protocol
  import opened Totals
  import opened WakeUps
  import opened WakeSteps
  import opened LocalQueues
  import opened Accounting
  import opened AccountingSteps
  import opened Scans
  import opened DescriptorInvariant
  import opened Exhaustion

  ghost predicate Inv(s: State)
  {
    && WakeInv(s.sched) && LocalInv(s)
    && ScansOk(s) && DescsOk(s)
    && Accounted(s) && Conserved(s)
  }

  lemma ConservedInit(s: State)
    requires Init(s)
    ensures Accounted(s) && Conserved(s)
  {
    TotalZero(Work, s.sched.threads);
    TotalZero(Units, s.sched.threads);
    TotalZero(Load(Everything), s.sched.threads);
    forall u: nat
      ensures Held(Just(u), s) == 0
    {
      TotalZero(Load(Just(u)), s.sched.threads);
    }
  }

  lemma InvInit(s: State)
    requires Init(s)
    ensures Inv(s)
  {
    WakeInit(s);
    ConservedInit(s);
    DescriptorsInit(s);
  }

  lemma DescriptorsInit(s: State)
    requires Init(s)
    ensures ScansOk(s) && DescsOk(s)
  {
  }

  lemma ConservedStep(s: State, step: Step)
    requires LocalInv(s) && LocksMatch(s) && Conserved(s) && Enabled(s, step)
    ensures Conserved(Next(s, step))
  {
    var s' := Next(s, step);
    NextIdStep(s, step);
    forall u: nat
      ensures Held(Just(u), s') + WeightOfIds(Just(u), s'.completed) == if u < s'.nextId then 1 else 0
    {
      HeldStep(Just(u), s, step);
      BookKeeping(s, step, u);
    }
  }

  lemma PlacingIds(s: State, step: Step)
    requires CanStart(s, step) || CanFinish(s, step)
    ensures CanStart(s, step) ==> AfterStartOp(s, step).nextId == s.nextId + 1 && AfterStartOp(s, step).completed == s.completed
    ensures CanFinish(s, step) ==> AfterFinishStart(s, step).nextId == s.nextId && AfterFinishStart(s, step).completed == s.completed
  {
  }

  lemma OtherIds(s: State, step: Step)
    requires Enabled(s, step) && !step.StartOp? && !step.FinishStart?
    ensures Next(s, step).nextId == s.nextId + if step.Post? then 1 else 0
    ensures Next(s, step).completed == if step.FinishOp? then s.completed + [s.sched.threads[step.t].pc.op] else s.completed
  {
  }

  // The submission counter and the completion log move with the operations.
  lemma NextIdStep(s: State, step: Step)
    requires Enabled(s, step)
    ensures Next(s, step).nextId == s.nextId + if step.StartOp? || step.Post? then 1 else 0
    ensures Next(s, step).completed == if step.FinishOp? then s.completed + [s.sched.threads[step.t].pc.op] else s.completed
  {
    if step.StartOp? || step.FinishStart? {
      PlacingIds(s, step);
    } else {
      OtherIds(s, step);
    }
  }

  lemma BookKeeping(s: State, step: Step, u: nat)
    requires Enabled(s, step)
    ensures WeightOfIds(Just(u), Next(s, step).completed)
         == WeightOfIds(Just(u), s.completed) + if step.FinishOp? then Just(u).Of(s.sched.threads[step.t].pc.op) else 0
  {
    NextIdStep(s, step);
    if step.FinishOp? {
      var v := s.sched.threads[step.t].pc.op;
      IdsConcat(Just(u), s.completed, [v]);
      assert WeightOfIds(Just(u), [v]) == Just(u).Of(v) + WeightOfIds(Just(u), []);
    }
  }

  lemma InvStep(s: State, step: Step)
    requires Inv(s) && Enabled(s, step)
    ensures Inv(Next(s, step))
  {
    WakeStep(s, step);
    LocalStep(s, step);
    ScansStep(s, step);
    DescsStep(s, step);
    HeldStep(Everything, s, step);
    LedgerStep(s, step);
    ConservedStep(s, step);
  }

  /** The invariant holds in every state of every run. */
  lemma {:induction false} InvHolds(states: seq<State>, steps: seq<Step>, i: nat)
    requires IsRun(states, steps) && i < |states|
    ensures Inv(states[i])
  {
    if i == 0 {
      InvInit(states[0]);
    } else {
      InvHolds(states, steps, i - 1);
      assert Taken(states, steps, i - 1);
      InvStep(states[i - 1], steps[i - 1]);
    }
  }

  // ---- Waking up ----

  /** No lost wake-up. With work queued, not stopped and a thread in run(), some
      thread in run() is not blocked, or a notification is in transit to one that
      waits; and unless one_thread_, a waiting thread implies a notified one or a
      notification in transit. */
  lemma NoLostWakeUpHolds(states: seq<State>, steps: seq<Step>, i: nat)
    requires IsRun(states, steps) && i < |states|
    requires !states[i].sched.core.stopped && states[i].sched.core.ops != []
    ensures var sc := states[i].sched;
      && (SomeoneInside(sc) ==> NotAllBlocked(sc) || (sc.notices > 0 && SomeoneWaits(sc)))
      && (!sc.core.oneThread && SomeoneWaits(sc) ==> SomeoneNotified(sc) || sc.notices > 0)
  {
    InvHolds(states, steps, i);
  }

  // Some step of steps[i..k] is a restart.
  ghost predicate Restarted(steps: seq<Step>, i: nat, k: nat)
  {
    exists m :: i <= m < k && m < |steps| && steps[m].Restart?
  }

  lemma StoppedMeansAwake(s: State)
    requires WakeInv(s.sched) && s.sched.core.stopped
    ensures Signalled(s.sched.core.word)
    ensures forall t :: 0 <= t < |s.sched.threads| ==> !Blocked(s.sched, s.sched.threads[t])
  {
  }

  /** Stop reaches everyone: from a stopped state to the next restart, no thread
      waits and none is blocked in the reactor. */
  lemma StopReachesEveryone(states: seq<State>, steps: seq<Step>, i: nat, k: nat)
    requires IsRun(states, steps) && i <= k < |states|
    requires states[i].sched.core.stopped && !Restarted(steps, i, k)
    ensures states[k].sched.core.stopped && Signalled(states[k].sched.core.word)
    ensures forall t :: 0 <= t < |states[k].sched.threads| ==> !Blocked(states[k].sched, states[k].sched.threads[t])
  {
    StoppedUntilRestart(states, steps, i, k);
    InvHolds(states, steps, k);
    StoppedMeansAwake(states[k]);
  }

  lemma {:induction false} StoppedUntilRestart(states: seq<State>, steps: seq<Step>, i: nat, k: nat)
    requires IsRun(states, steps) && i <= k < |states|
    requires states[i].sched.core.stopped && !Restarted(steps, i, k)
    ensures states[k].sched.core.stopped
    decreases k
  {
    if i < k {
      assert !steps[k - 1].Restart?;
      StoppedUntilRestart(states, steps, i, k - 1);
      assert Taken(states, steps, k - 1);
      StoppedStays(states[k - 1], steps[k - 1]);
    }
  }

  lemma StoppedPost(s: State, u: nat, continuation: bool, caller: Option<nat>)
    requires ValidCaller(s.sched, caller)
    ensures PostImmediate(s, u, continuation, caller).sched.core.stopped == s.sched.core.stopped
  {
  }

  lemma StoppedStartOp(s: State, step: Step)
    requires CanStart(s, step)
    ensures AfterStartOp(s, step).sched.core.stopped == s.sched.core.stopped
  {
    StoppedPost(Tried(s, step), s.nextId, step.continuation, step.caller);
  }

  lemma StoppedFinishStart(s: State, step: Step)
    requires CanFinish(s, step)
    ensures AfterFinishStart(s, step).sched.core.stopped == s.sched.core.stopped
  {
    StoppedPost(Resolved(s, step), s.locks[step.d].op, step.continuation, step.caller);
  }

  lemma StoppedDescriptorStep(s: State, step: Step)
    requires Enabled(s, step) && DescriptorStep(step)
    ensures Next(s, step).sched.core.stopped == s.sched.core.stopped
  {
    if step.StartOp? {
      StoppedStartOp(s, step);
    } else if step.FinishStart? {
      StoppedFinishStart(s, step);
    }
  }

  lemma StoppedLoop(sc: Sched, results: seq<Events>, t: nat)
    requires t < |sc.threads|
    ensures Loop(sc, results, t).core.stopped == sc.core.stopped
  {
  }

  lemma StoppedLoopStep(s: State, step: Step)
    requires Enabled(s, step) && s.sched.core.stopped
    requires step.Acquire? || step.Resume? || step.Splice? || step.FinishTask?
    ensures Next(s, step).sched.core.stopped
  {
    if step.Acquire? {
      StoppedLoop(s.sched, s.results, step.t);
    } else if step.Splice? {
      StoppedLoop(SpliceOwn(s.sched, step.t), s.results, step.t);
    } else if step.FinishTask? {
      StoppedLoop(EndTask(s.sched, step.t), s.results, step.t);
    } else {
      StoppedLoop(s.sched.(core := s.sched.core.(word := DropWaiter(s.sched.core.word))), s.results, step.t);
    }
  }

  lemma StoppedStays(s: State, step: Step)
    requires Enabled(s, step) && s.sched.core.stopped && !step.Restart?
    ensures Next(s, step).sched.core.stopped
  {
    if DescriptorStep(step) {
      StoppedDescriptorStep(s, step);
    } else if step.Acquire? || step.Resume? || step.Splice? || step.FinishTask? {
      StoppedLoopStep(s, step);
    }
  }

  /** The packed word is the pack of the signalled flag and the number of threads
      with a live waiter object, and the test `state_ > 1` finds one iff there
      is one. */
  lemma EventWordRefines(states: seq<State>, steps: seq<Step>, i: nat)
    requires IsRun(states, steps) && i < |states|
    ensures var sc := states[i].sched;
      var e := Simple(Signalled(sc.core.word), Total(Waiters, sc.threads));
      && Fits(e) && sc.core.word == Pack(e)
      && (SetBit(sc.core.word) > 1 <==>
            exists t :: 0 <= t < |sc.threads| && (sc.threads[t].pc.Waiting? || sc.threads[t].pc.Notified?))
  {
    InvHolds(states, steps, i);
    WaitersCounted(states[i].sched);
  }

  predicate InTheReactor(th: Thread) { th.pc.InTask? || th.pc.TaskReturned? }

  /** Reactor exclusivity: once the task is set, either task_operation_ is queued,
      once, and no thread is in the reactor, or it is not queued and exactly one
      thread is. */
  lemma ReactorIsExclusive(states: seq<State>, steps: seq<Step>, i: nat)
    requires IsRun(states, steps) && i < |states| && states[i].sched.core.task
    ensures var sc := states[i].sched;
      if Task in sc.core.ops then
        Tasks(sc.core.ops) == 1 && forall t :: 0 <= t < |sc.threads| ==> !InTheReactor(sc.threads[t])
      else
        exists t :: 0 <= t < |sc.threads| && InTheReactor(sc.threads[t])
          && forall u :: 0 <= u < |sc.threads| && u != t ==> !InTheReactor(sc.threads[u])
  {
    InvHolds(states, steps, i);
    var sc := states[i].sched;
    TaskCounted(sc.core.ops);
    if Task in sc.core.ops {
      forall t | 0 <= t < |sc.threads|
        ensures !InTheReactor(sc.threads[t])
      {
        TotalAtLeast(InReactor, sc.threads, t);
      }
    } else {
      var t := SomeContributes(InReactor, sc.threads);
      NobodyPolls(sc, t);
      assert InTheReactor(sc.threads[t]);
    }
  }

  /** Local membership is global membership, and no descriptor operation is ever
      queued twice. */
  lemma EnqueuedLocallyIffGlobally(states: seq<State>, steps: seq<Step>, i: nat, t: nat, d: nat)
    requires IsRun(states, steps) && i < |states| && At(states[i], t) && InTheReactor(states[i].sched.threads[t])
    ensures Enqueued(states[i].sched, d) <==> Descriptor(d) in states[i].sched.threads[t].privateOps
    ensures Distinct(states[i].sched.threads[t].privateOps)
  {
    InvHolds(states, steps, i);
    LocalIsGlobal(states[i], t, d);
    assert Shape(states[i].sched.threads[t], |states[i].descs|);
  }

  // ---- Operations ----

  /** Exactly once: an operation submitted so far is in one place of the machine
      and not completed, or in none and completed once; others are nowhere. */
  lemma ExactlyOnce(states: seq<State>, steps: seq<Step>, i: nat, u: nat)
    requires IsRun(states, steps) && i < |states|
    ensures var held, completed := Held(Just(u), states[i]), WeightOfIds(Just(u), states[i].completed);
      if u < states[i].nextId then (held == 1 && completed == 0) || (held == 0 && completed == 1)
      else held == 0 && completed == 0
  {
    InvHolds(states, steps, i);
  }

  /** The work-accounting equation. The operations inside a start_op, those it has
      yet to place and those it has queued, are not charged before it ends. */
  lemma WorkIsAccounted(states: seq<State>, steps: seq<Step>, i: nat)
    requires IsRun(states, steps) && i < |states|
    ensures var s := states[i];
      s.sched.core.outstanding + Total(Work, s.sched.threads)
      == s.guards + Held(Everything, s) - Uncharged(s.locks) + Total(Units, s.sched.threads)
  {
    InvHolds(states, steps, i);
  }

  // Some start_op is between queueing its operation and charging for it.
  ghost predicate SomeoneCharges(s: State)
  {
    exists d :: 0 <= d < |s.locks| && s.locks[d].Charging?
  }

  /** work_finished finds the counter positive, and brings it to zero, and hence calls
      for a stop, exactly when there is at that moment no guard, no user operation
      in any queue, and no other thread executing one; except that a descriptor may
      hold the one operation that its start_op has queued and not yet charged. What
      the stop itself finds is StopLeavesNothing. */
  lemma WorkFinishedIsExact(states: seq<State>, steps: seq<Step>, i: nat)
    requires IsRun(states, steps) && i < |steps| && steps[i].WorkFinished?
    ensures var s, t := states[i], steps[i].t;
      && At(s, t) && At(states[i + 1], t) && Sized(s) && s.sched.core.outstanding >= 1
      && (states[i + 1].sched.threads[t].pc.Stopping? <==> NothingElse(s, t) && s.sched.threads[t].privateOps == [])
      && (states[i + 1].sched.threads[t].pc.Stopping? ==>
            ((forall d :: 0 <= d < |s.descs| ==> s.descs[d].queues == NO_OPS) <==> !SomeoneCharges(s)))
  {
    InvHolds(states, steps, i);
    assert Taken(states, steps, i);
    ExhaustionIsExact(states[i], steps[i].t);
    if NothingElse(states[i], steps[i].t) {
      UnchargedLeft(states[i], steps[i].t);
    }
  }

  lemma UnchargedLeft(s: State, t: nat)
    requires Sized(s) && NothingElse(s, t)
    ensures (forall d :: 0 <= d < |s.descs| ==> s.descs[d].queues == NO_OPS) <==> !SomeoneCharges(s)
  {
    forall d | 0 <= d < |s.descs|
      ensures s.descs[d].queues == NO_OPS <==> !s.locks[d].Charging?
    {
      assert OnlyUncharged(s.descs[d], s.locks[d]);
      if s.locks[d].Charging? {
        assert s.descs[d].queues[s.locks[d].j] != NO_OPS[s.locks[d].j];
      }
    }
    if SomeoneCharges(s) {
      var d :| 0 <= d < |s.locks| && s.locks[d].Charging?;
      assert s.descs[d].queues != NO_OPS;
    }
  }

  /** The release of a guard finds the counter positive, and calls for a stop
      exactly when nothing at all is left, with the same exception. */
  lemma GuardFinishedIsExact(states: seq<State>, steps: seq<Step>, i: nat)
    requires IsRun(states, steps) && i < |steps| && steps[i].GuardFinished?
    ensures var s, s' := states[i], states[i + 1];
      && Sized(s') && s.sched.core.outstanding >= 1
      && s'.stops == s.stops + if NothingElse(s', |s.sched.threads|) then 1 else 0
  {
    InvHolds(states, steps, i);
    assert Taken(states, steps, i);
    GuardReleaseIsExact(states[i]);
  }

  /** The counter is zero exactly when nothing is left, in every state; with the same
      exception. */
  lemma CounterZeroIsExact(states: seq<State>, steps: seq<Step>, i: nat)
    requires IsRun(states, steps) && i < |states|
    ensures Sized(states[i])
    ensures states[i].sched.core.outstanding == 0 <==> NothingElse(states[i], |states[i].sched.threads|)
  {
    InvHolds(states, steps, i);
    CounterEquation(states[i]);
    NetAllQuiet(states[i].sched.threads, |states[i].descs|);
    QueuesEmpty(states[i]);
  }

  lemma StopStep(s: State, step: Step)
    requires Enabled(s, step) && (step.StopFromWork? || step.StopFromGuard?)
    ensures Next(s, step).sched.core.stopped && Next(s, step).sched.core.outstanding == s.sched.core.outstanding
  {
  }

  /** What called for a stop stops, whatever has come in since: it leaves nothing
      behind if and only if the counter is still zero when the stop is taken. */
  lemma StopLeavesNothing(states: seq<State>, steps: seq<Step>, i: nat)
    requires IsRun(states, steps) && i < |steps| && (steps[i].StopFromWork? || steps[i].StopFromGuard?)
    ensures var s, s' := states[i], states[i + 1];
      && s'.sched.core.stopped && Signalled(s'.sched.core.word)
      && (forall t :: 0 <= t < |s'.sched.threads| ==> !Blocked(s'.sched, s'.sched.threads[t]))
      && Sized(s') && (NothingElse(s', |s'.sched.threads|) <==> s.sched.core.outstanding == 0)
  {
    InvHolds(states, steps, i + 1);
    assert Taken(states, steps, i);
    StopStep(states[i], steps[i]);
    StoppedMeansAwake(states[i + 1]);
    CounterZeroIsExact(states, steps, i + 1);
  }

  /** The counter never goes negative. */
  lemma NeverUnderflows(states: seq<State>, steps: seq<Step>, i: nat)
    requires IsRun(states, steps) && i < |states|
    ensures states[i].sched.core.outstanding >= 0
  {
    InvHolds(states, steps, i);
    CounterEquation(states[i]);
    NetAllQuiet(states[i].sched.threads, |states[i].descs|);
    QueuesEmpty(states[i]);
  }

  // ---- Descriptors ----

  /** What has been performed stays performed, in the same order. */
  lemma {:induction false} PerformedOnlyGrows(states: seq<State>, steps: seq<Step>, i: nat, k: nat, d: nat, j: Dir)
    requires IsRun(states, steps) && i <= k < |states| && d < |states[i].descs|
    ensures d < |states[k].descs| && states[i].descs[d].performed[j] <= states[k].descs[d].performed[j]
    decreases k
  {
    if i < k {
      PerformedOnlyGrows(states, steps, i, k - 1, d, j);
      assert Taken(states, steps, k - 1);
      PerformedStep(states[k - 1], steps[k - 1], d, j);
    }
  }

  lemma PerformedStartOp(s: State, step: Step, d: nat, j: Dir)
    requires CanStart(s, step) && d < |s.descs|
    ensures AfterStartOp(s, step).descs == s.descs[step.d := Begun(s, step).desc]
    ensures s.descs[d].performed[j] <= AfterStartOp(s, step).descs[d].performed[j]
  {
  }

  lemma PerformedFinishStart(s: State, step: Step, d: nat, j: Dir)
    requires CanFinish(s, step) && d < |s.descs|
    ensures |AfterFinishStart(s, step).descs| == |s.descs|
    ensures s.descs[d].performed[j] == AfterFinishStart(s, step).descs[d].performed[j]
  {
  }

  lemma PerformedDescriptorStep(s: State, step: Step, d: nat, j: Dir)
    requires Enabled(s, step) && DescriptorStep(step) && d < |s.descs|
    ensures d < |Next(s, step).descs| && s.descs[d].performed[j] <= Next(s, step).descs[d].performed[j]
  {
    if step.StartOp? {
      PerformedStartOp(s, step, d, j);
    } else if step.FinishStart? {
      PerformedFinishStart(s, step, d, j);
    }
  }

  lemma PerformedScanStep(s: State, step: Step, d: nat, j: Dir)
    requires Enabled(s, step) && d < |s.descs|
    requires step.BeginScan? || step.ScanOne? || step.EndScan?
    ensures d < |Next(s, step).descs| && s.descs[d].performed[j] <= Next(s, step).descs[d].performed[j]
  {
  }

  lemma PerformedStep(s: State, step: Step, d: nat, j: Dir)
    requires Enabled(s, step) && d < |s.descs|
    ensures d < |Next(s, step).descs| && s.descs[d].performed[j] <= Next(s, step).descs[d].performed[j]
  {
    if DescriptorStep(step) {
      PerformedDescriptorStep(s, step, d, j);
    } else if step.BeginScan? || step.ScanOne? || step.EndScan? {
      PerformedScanStep(s, step, d, j);
    } else {
      assert Next(s, step).descs == s.descs;
    }
  }

  lemma {:induction false} StaysShutDown(states: seq<State>, steps: seq<Step>, i: nat, k: nat, d: nat)
    requires IsRun(states, steps) && i <= k < |states|
    requires d < |states[i].descs| && states[i].descs[d].shutdown
    ensures d < |states[k].descs| && states[k].descs[d].shutdown
    decreases k
  {
    if i < k {
      StaysShutDown(states, steps, i, k - 1, d);
      assert Taken(states, steps, k - 1);
      ShutdownStep(states[k - 1], steps[k - 1], d);
    }
  }

  /** Once a descriptor is shut down, all its queues are empty in every later
      state. */
  lemma ShutDownStaysEmpty(states: seq<State>, steps: seq<Step>, i: nat, k: nat, d: nat)
    requires IsRun(states, steps) && i <= k < |states|
    requires d < |states[i].descs| && states[i].descs[d].shutdown
    ensures d < |states[k].descs| && states[k].descs[d].shutdown && states[k].descs[d].queues == NO_OPS
  {
    StaysShutDown(states, steps, i, k, d);
    InvHolds(states, steps, k);
    var s := states[k];
    assert DescOk(s.descs[d], s.locks[d], s.nextId);
  }
}
