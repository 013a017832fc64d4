/** The private queue and counter of each thread, exactly: what each step adds and
    when they are emptied. */
module PrivateQueues {
  import opened Prelude
  import opened SchedulerCore
  import opened EventWord
  import opened Descriptors
  import opened Coalescing
  import opened Protocol
  import opened LocalQueues
  import opened Scans
  import opened StartOps
  import opened Changes

  // The operation that a post made from inside a handler of thread t keeps to the
  // thread: a continuation, or any with one thread.
  function Kept(s: State, step: Step, t: nat): seq<Op<nat>>
  {
    if !(step.Post? || step.StartOp? || step.FinishStart?) || step.caller != Some(t)
       || !(s.sched.core.oneThread || step.continuation) then []
    else if step.Post? || (CanStart(s, step) && Begun(s, step).outcome.Complete?) then [User(s.nextId)]
    else if CanFinish(s, step) && Ended(s, step).outcome.Complete? then [User(s.locks[step.d].op)]
    else []
  }

  // What a deferred post, with one thread, adds to the queue and does not charge.
  function Deferred(s: State, step: Step, t: nat): seq<Op<nat>>
  {
    if step.PostBatchPrivately? && step.t == t && step.i < |s.batches| then Users(s.batches[step.i].ops)
    else if step.PostRest? && step.t == t && At(s, t) && s.sched.threads[t].pc.Posting? && s.sched.core.oneThread
    then Users(s.sched.threads[t].pc.rest)
    else []
  }

  ghost predicate PrivateAfter(s: State, step: Step, t: nat, th': Thread)
    requires Enabled(s, step) && At(s, t)
  {
    var th := s.sched.threads[t];
    && th'.privateOps
       == (if (step.Splice? || step.FinishTask?) && step.t == t then []
           else if step.EpollReturns? && step.t == t then Gather(Gathered(th.privateOps, s.results), step.reports).ops
           else th.privateOps + Kept(s, step, t) + Deferred(s, step, t))
    && th'.privateWork
       == (if (step.FinishOp? || step.FlushEmpty? || step.FinishTask?) && step.t == t then 0
           else if step.EndScan? && step.t == t && th.pc.done == [] then th.privateWork + 1
           else th.privateWork + |Kept(s, step, t)|)
  }

  lemma PrivateUntouched(s: State, step: Step, t: nat)
    requires Enabled(s, step) && At(s, t) && !Acts(step, t)
    ensures At(Next(s, step), t) && PrivateAfter(s, step, t, Next(s, step).sched.threads[t])
  {
    OthersStayExactly(s, step);
    assert s.sched.threads[t].privateOps + [] + [] == s.sched.threads[t].privateOps;
  }

  lemma PrivateStart(s: State, step: Step, t: nat)
    requires Enabled(s, step) && At(s, t) && step.StartOp? && step.caller == Some(t)
    ensures At(Next(s, step), t) && PrivateAfter(s, step, t, Next(s, step).sched.threads[t])
  {
    assert s.sched.threads[t].privateOps + [] + [] == s.sched.threads[t].privateOps;
    StartOpExactly(s, step);
  }

  lemma PrivateFinish(s: State, step: Step, t: nat)
    requires Enabled(s, step) && At(s, t) && step.FinishStart? && step.caller == Some(t)
    ensures At(Next(s, step), t) && PrivateAfter(s, step, t, Next(s, step).sched.threads[t])
  {
    assert s.sched.threads[t].privateOps + [] + [] == s.sched.threads[t].privateOps;
    FinishStartExactly(s, step);
  }

  lemma PrivatePost(s: State, step: Step, t: nat)
    requires Enabled(s, step) && At(s, t) && Acts(step, t) && (step.Post? || step.PostBatchPrivately?)
    ensures At(Next(s, step), t) && PrivateAfter(s, step, t, Next(s, step).sched.threads[t])
  {
    var own := s.sched.threads[t].privateOps;
    assert own + [] + Deferred(s, step, t) == own + Deferred(s, step, t) && own + [] == own;
  }

  lemma PrivateRest(s: State, t: nat)
    requires Enabled(s, PostRest(t))
    ensures At(Next(s, PostRest(t)), t) && PrivateAfter(s, PostRest(t), t, Next(s, PostRest(t)).sched.threads[t])
  {
    var own, pc := s.sched.threads[t].privateOps, s.sched.threads[t].pc;
    assert own + [] + Users(pc.rest) == own + Users(pc.rest) && own + [] + [] == own;
    PushSignals(SetPc(s.sched, t, Running(pc.first)), Users(pc.rest));
  }

  lemma LoopPrivate(sc: Sched, results: seq<Events>, t: nat)
    requires t < |sc.threads|
    ensures var sc' := Loop(sc, results, t);
      && |sc'.threads| == |sc.threads|
      && sc'.threads[t].privateOps == sc.threads[t].privateOps && sc'.threads[t].privateWork == sc.threads[t].privateWork
  {
  }

  lemma PrivateLoop(s: State, step: Step)
    requires Enabled(s, step) && (step.Acquire? || step.Resume?)
    ensures At(Next(s, step), step.t) && PrivateAfter(s, step, step.t, Next(s, step).sched.threads[step.t])
  {
    assert s.sched.threads[step.t].privateOps + [] + [] == s.sched.threads[step.t].privateOps;
    if step.Acquire? {
      LoopPrivate(s.sched, s.results, step.t);
    } else {
      LoopPrivate(s.sched.(core := s.sched.core.(word := DropWaiter(s.sched.core.word))), s.results, step.t);
    }
  }

  lemma PrivateCleanUp(s: State, step: Step)
    requires Enabled(s, step) && (step.Splice? || step.FinishTask?)
    ensures At(Next(s, step), step.t) && PrivateAfter(s, step, step.t, Next(s, step).sched.threads[step.t])
  {
    if step.Splice? {
      LoopPrivate(SpliceOwn(s.sched, step.t), s.results, step.t);
    } else {
      LoopPrivate(EndTask(s.sched, step.t), s.results, step.t);
    }
  }

  lemma PrivateEntry(s: State, step: Step)
    requires Enabled(s, step) && EntryStep(step)
    ensures At(Next(s, step), step.t) && PrivateAfter(s, step, step.t, Next(s, step).sched.threads[step.t])
  {
    assert s.sched.threads[step.t].privateOps + [] + [] == s.sched.threads[step.t].privateOps;
    if step.StopFromWork? {
      StopSignals(SetPc(s.sched, step.t, Splicing));
    } else {
      StopSignals(s.sched);
    }
  }

  lemma PrivateScan(s: State, step: Step)
    requires Enabled(s, step) && (ScanStepLabel(step) || step.EpollReturns?)
    ensures At(Next(s, step), step.t) && PrivateAfter(s, step, step.t, Next(s, step).sched.threads[step.t])
  {
    assert s.sched.threads[step.t].privateOps + [] + [] == s.sched.threads[step.t].privateOps;
  }

  lemma PrivateThread(s: State, step: Step)
    requires Enabled(s, step) && (step.Wake? || step.FinishOp? || step.FlushEmpty? || step.WorkFinished?)
    ensures At(Next(s, step), step.t) && PrivateAfter(s, step, step.t, Next(s, step).sched.threads[step.t])
  {
    assert s.sched.threads[step.t].privateOps + [] + [] == s.sched.threads[step.t].privateOps;
  }

  /** What a post keeps to its thread goes to the end of the private queue and is charged
      privately, a deferred post is not charged, an empty perform_io is compensated, and
      the queue and the counter are emptied by the clean-up destructors alone. */
  lemma PrivateExactly(s: State, step: Step, t: nat)
    requires Enabled(s, step) && At(s, t)
    ensures At(Next(s, step), t) && PrivateAfter(s, step, t, Next(s, step).sched.threads[t])
  {
    if !Acts(step, t) {
      PrivateUntouched(s, step, t);
    } else if step.StartOp? {
      PrivateStart(s, step, t);
    } else if step.FinishStart? {
      PrivateFinish(s, step, t);
    } else if step.Post? || step.PostBatchPrivately? {
      PrivatePost(s, step, t);
    } else if step.PostRest? {
      PrivateRest(s, t);
    } else if step.Acquire? || step.Resume? {
      PrivateLoop(s, step);
    } else if step.Splice? || step.FinishTask? {
      PrivateCleanUp(s, step);
    } else if EntryStep(step) {
      PrivateEntry(s, step);
    } else if ScanStepLabel(step) || step.EpollReturns? {
      PrivateScan(s, step);
    } else {
      PrivateThread(s, step);
    }
  }
}
