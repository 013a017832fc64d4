/** What changes when: the steps that stop the scheduler, that call notify_one, that
    interrupt the reactor, that move another thread, and that put or take an edge of
    readiness, each of them exactly. */
module Changes {
  import opened Prelude
  import opened EventWord
  import opened SchedulerCore
  import opened Descriptors
  import opened Coalescing
  import opened Protocol
  import opened LocalQueues
  import opened Scans
  import opened StartOps
  import opened CommonQueue

  // A stop_all_threads().
  predicate Stops(s: State, step: Step)
  {
    step.Stop? || step.StopFromGuard? || step.StopFromWork? || (step.EnterRun? && s.sched.core.outstanding == 0)
  }

  // A push to the common queue with wake_one_thread_and_unlock().
  predicate Pushes(s: State, step: Step)
  {
    || step.PostBatch?
    || (step.PostRest? && !s.sched.core.oneThread)
    || (step.StartTask? && !s.sched.core.task && !s.sched.core.shutdown)
  }

  // The thread that takes an operation leaves another for somebody else.
  predicate PassesOn(s: State, step: Step)
  {
    Takes(s, step) && !s.sched.core.oneThread && |s.sched.core.ops + Appended(s, step)| > 1
  }

  // Live waiter objects other than that of a thread just back from one.
  function OtherWaiters(s: State, step: Step): int { s.sched.core.word / 2 - if step.Resume? then 1 else 0 }

  // What the section shared with the world comes to after a step.
  predicate Signals(s: State, step: Step, sc': Sched)
  {
    var c := s.sched.core;
    && (sc'.core.stopped <==> (c.stopped && !step.Restart?) || Stops(s, step))
    && sc'.notices == s.sched.notices - (if step.Notify? then 1 else 0)
                      + (if (Pushes(s, step) || PassesOn(s, step)) && OtherWaiters(s, step) > 0 then 1 else 0)
    && (sc'.interrupt <==>
          || (s.sched.interrupt && !(step.EpollReturns? && Interrupter in step.reports))
          || (Pushes(s, step) && c.word / 2 == 0 && (c.task || step.StartTask?) && !(c.guardedWake && c.interrupted))
          || (Stops(s, step) && c.task && !c.interrupted))
  }

  // ---- Section by section ----

  lemma PushSignals(sc: Sched, ops: seq<Op<nat>>)
    ensures var sc' := Push(sc, ops);
      && sc'.core.stopped == sc.core.stopped && sc'.threads == sc.threads
      && sc'.notices == sc.notices + (if sc.core.word / 2 > 0 then 1 else 0)
      && sc'.interrupt
         == (sc.interrupt || (sc.core.word / 2 == 0 && sc.core.task && !(sc.core.guardedWake && sc.core.interrupted)))
  {
  }

  lemma StopSignals(sc: Sched)
    ensures var sc' := Commit(sc, StopAll(sc.core));
      && sc'.core.stopped && sc'.notices == sc.notices
      && (sc'.interrupt <==> sc.interrupt || (sc.core.task && !sc.core.interrupted))
      && |sc'.threads| == |sc.threads|
      && forall u :: 0 <= u < |sc.threads| ==>
           sc'.threads[u] == if sc.threads[u].pc.Waiting? then sc.threads[u].(pc := Notified) else sc.threads[u]
  {
  }

  lemma LoopSignals(sc: Sched, results: seq<Events>, t: nat)
    requires t < |sc.threads|
    ensures var sc' := Loop(sc, results, t);
      && sc'.core.stopped == sc.core.stopped && sc'.interrupt == sc.interrupt
      && sc'.notices == sc.notices + (if !sc.core.stopped && !sc.core.oneThread && |sc.core.ops| > 1 && sc.core.word / 2 > 0
                                      then 1 else 0)
      && |sc'.threads| == |sc.threads|
      && forall u :: 0 <= u < |sc.threads| && u != t ==> sc'.threads[u] == sc.threads[u]
  {
  }

  lemma DroppedWaiter(w: nat)
    requires 2 <= w < SIZE_LIMIT
    ensures DropWaiter(w) == w - 2 && Signalled(w) == Signalled(w - 2) && w / 2 - 1 == (w - 2) / 2
    ensures AddWaiter(w - 2) == w
  {
  }

  // ---- The loop ----

  lemma ResumeSignals(s: State, t: nat)
    requires 2 <= s.sched.core.word < SIZE_LIMIT && Enabled(s, Resume(t))
    ensures Signals(s, Resume(t), Next(s, Resume(t)).sched)
  {
    DroppedWaiter(s.sched.core.word);
    assert s.sched.core.ops + [] == s.sched.core.ops;
    LoopSignals(s.sched.(core := s.sched.core.(word := DropWaiter(s.sched.core.word))), s.results, t);
  }

  lemma AcquireSignals(s: State, t: nat)
    requires Enabled(s, Acquire(t))
    ensures Signals(s, Acquire(t), Next(s, Acquire(t)).sched)
  {
    assert s.sched.core.ops + [] == s.sched.core.ops;
    LoopSignals(s.sched, s.results, t);
  }

  lemma SpliceSignals(s: State, t: nat)
    requires Enabled(s, Splice(t))
    ensures Signals(s, Splice(t), Next(s, Splice(t)).sched)
  {
    LoopSignals(SpliceOwn(s.sched, t), s.results, t);
  }

  lemma FinishTaskSignals(s: State, t: nat)
    requires Enabled(s, FinishTask(t))
    ensures Signals(s, FinishTask(t), Next(s, FinishTask(t)).sched)
  {
    LoopSignals(EndTask(s.sched, t), s.results, t);
    var ops, own := s.sched.core.ops, s.sched.threads[t].privateOps;
    assert EndTask(s.sched, t).core.ops == ops + own + [Task] == ops + (own + [Task]);
  }

  // ---- Everything else ----

  lemma PushStepSignals(s: State, step: Step)
    requires Enabled(s, step) && (step.PostBatch? || step.PostRest?)
    ensures Signals(s, step, Next(s, step).sched)
  {
    if step.PostBatch? {
      PushSignals(s.sched, Users(s.batches[step.i].ops));
    } else {
      var pc := s.sched.threads[step.t].pc;
      PushSignals(SetPc(s.sched, step.t, Running(pc.first)), Users(pc.rest));
    }
  }

  lemma StartTaskSignals(s: State)
    requires Enabled(s, StartTask)
    ensures Signals(s, StartTask, Next(s, StartTask).sched)
  {
    PushSignals(s.sched.(core := s.sched.core.(task := true)), [Task]);
  }

  lemma StopStepSignals(s: State, step: Step)
    requires Enabled(s, step) && (step.Stop? || step.StopFromGuard?)
    ensures Signals(s, step, Next(s, step).sched)
  {
    StopSignals(s.sched);
  }

  lemma EntrySignals(s: State, step: Step)
    requires Enabled(s, step) && EntryStep(step)
    ensures Signals(s, step, Next(s, step).sched)
  {
    if step.StopFromWork? {
      StopSignals(SetPc(s.sched, step.t, Splicing));
    } else {
      StopSignals(s.sched);
    }
  }

  lemma StartSignals(s: State, step: Step)
    requires Enabled(s, step) && (step.StartOp? || step.FinishStart?)
    ensures Signals(s, step, Next(s, step).sched)
  {
    if step.StartOp? {
      StartOpExactly(s, step);
    } else {
      FinishStartExactly(s, step);
    }
  }

  lemma QuietSignals(s: State, step: Step)
    requires Enabled(s, step) && DescriptorStep(step) && !step.StartOp? && !step.FinishStart?
    ensures Signals(s, step, Next(s, step).sched)
  {
  }

  lemma ControlSignals(s: State, step: Step)
    requires Enabled(s, step) && (step.GuardStarted? || step.GuardFinished? || step.Notify? || step.Restart?)
    ensures Signals(s, step, Next(s, step).sched)
  {
  }

  lemma ChargeSignals(s: State, step: Step)
    requires Enabled(s, step) && (step.Post? || step.PostBatchPrivately?)
    ensures Signals(s, step, Next(s, step).sched)
  {
  }

  lemma ThreadSignals(s: State, step: Step)
    requires Enabled(s, step) && (step.Wake? || step.FinishOp? || step.FlushEmpty? || step.WorkFinished?)
    ensures Signals(s, step, Next(s, step).sched)
  {
  }

  lemma EpollSignals(s: State, step: Step)
    requires Enabled(s, step) && step.EpollReturns?
    ensures Signals(s, step, Next(s, step).sched)
  {
    assert Next(s, step).sched == AfterEpoll(s, step.t, step.reports).sched;
  }

  lemma ScanSignals(s: State, step: Step)
    requires Enabled(s, step) && ScanStepLabel(step)
    ensures Signals(s, step, Next(s, step).sched)
  {
  }

  /** Every step stops the scheduler, calls notify_one and interrupts the reactor
      exactly when the source does: a push or a thread that leaves work behind notifies
      iff somebody else waits, a push interrupts iff nobody waits, and a stop does
      unless an interrupt is on its way. */
  lemma SignalsExactly(s: State, step: Step)
    requires Enabled(s, step) && s.sched.core.word < SIZE_LIMIT && (step.Resume? ==> s.sched.core.word >= 2)
    ensures Signals(s, step, Next(s, step).sched)
  {
    if step.Resume? {
      ResumeSignals(s, step.t);
    } else if step.Acquire? {
      AcquireSignals(s, step.t);
    } else if step.Splice? {
      SpliceSignals(s, step.t);
    } else if step.FinishTask? {
      FinishTaskSignals(s, step.t);
    } else if step.PostBatch? || step.PostRest? {
      PushStepSignals(s, step);
    } else if step.StartTask? {
      StartTaskSignals(s);
    } else if step.Stop? || step.StopFromGuard? {
      StopStepSignals(s, step);
    } else if EntryStep(step) {
      EntrySignals(s, step);
    } else if step.StartOp? || step.FinishStart? {
      StartSignals(s, step);
    } else if DescriptorStep(step) {
      QuietSignals(s, step);
    } else if ControlStep(step) {
      ControlSignals(s, step);
    } else if step.Post? || step.PostBatchPrivately? {
      ChargeSignals(s, step);
    } else if step.EpollReturns? {
      EpollSignals(s, step);
    } else if ScanStepLabel(step) {
      ScanSignals(s, step);
    } else {
      ThreadSignals(s, step);
    }
  }

  // ---- The threads ----

  // The thread that takes the step, and the one whose handler makes the call.
  predicate Acts(step: Step, u: nat)
  {
    || ((step.PostBatchPrivately? || EntryStep(step) || step.Acquire? || step.Wake? || step.Resume? || step.FinishOp?
         || step.FlushEmpty? || step.WorkFinished? || step.Splice? || ScanStepLabel(step) || step.PostRest?
         || step.EpollReturns? || step.FinishTask?) && step.t == u)
    || ((step.Post? || step.StartOp? || step.FinishStart?) && step.caller == Some(u))
  }

  // Every other thread keeps what it is doing and what it holds; a stop wakes all
  // that wait, a notify_one the one it reaches.
  predicate OthersStay(s: State, step: Step, sc': Sched)
  {
    && |sc'.threads| == |s.sched.threads|
    && forall u :: 0 <= u < |s.sched.threads| && !Acts(step, u) ==>
         var th := s.sched.threads[u];
         sc'.threads[u] == if (Stops(s, step) || step == Notify(u)) && th.pc.Waiting? then th.(pc := Notified) else th
  }

  lemma LoopStay(s: State, step: Step)
    requires Enabled(s, step) && (step.Acquire? || step.Resume?)
    ensures OthersStay(s, step, Next(s, step).sched)
  {
    if step.Acquire? {
      LoopSignals(s.sched, s.results, step.t);
    } else {
      LoopSignals(s.sched.(core := s.sched.core.(word := DropWaiter(s.sched.core.word))), s.results, step.t);
    }
  }

  lemma CleanUpStay(s: State, step: Step)
    requires Enabled(s, step) && (step.Splice? || step.FinishTask?)
    ensures OthersStay(s, step, Next(s, step).sched)
  {
    if step.Splice? {
      LoopSignals(SpliceOwn(s.sched, step.t), s.results, step.t);
    } else {
      LoopSignals(EndTask(s.sched, step.t), s.results, step.t);
    }
  }

  lemma PushStay(s: State, step: Step)
    requires Enabled(s, step) && (step.PostBatch? || step.PostRest?)
    ensures OthersStay(s, step, Next(s, step).sched)
  {
    if step.PostBatch? {
      PushSignals(s.sched, Users(s.batches[step.i].ops));
    } else {
      var pc := s.sched.threads[step.t].pc;
      PushSignals(SetPc(s.sched, step.t, Running(pc.first)), Users(pc.rest));
    }
  }

  lemma StopStay(s: State, step: Step)
    requires Enabled(s, step) && (step.Stop? || step.StopFromGuard?)
    ensures OthersStay(s, step, Next(s, step).sched)
  {
    StopSignals(s.sched);
  }

  lemma EntryStay(s: State, step: Step)
    requires Enabled(s, step) && EntryStep(step)
    ensures OthersStay(s, step, Next(s, step).sched)
  {
    if step.StopFromWork? {
      StopSignals(SetPc(s.sched, step.t, Splicing));
    } else {
      StopSignals(s.sched);
    }
  }

  lemma StartStay(s: State, step: Step)
    requires Enabled(s, step) && (step.StartOp? || step.FinishStart?)
    ensures OthersStay(s, step, Next(s, step).sched)
  {
    if step.StartOp? {
      StartOpExactly(s, step);
    } else {
      FinishStartExactly(s, step);
    }
  }

  lemma QuietStay(s: State, step: Step)
    requires Enabled(s, step) && DescriptorStep(step) && !step.StartOp? && !step.FinishStart?
    ensures OthersStay(s, step, Next(s, step).sched)
  {
  }

  lemma ControlStay(s: State, step: Step)
    requires Enabled(s, step) && ControlStep(step) && !step.Stop? && !step.StopFromGuard?
    ensures OthersStay(s, step, Next(s, step).sched)
  {
  }

  lemma ChargeStay(s: State, step: Step)
    requires Enabled(s, step) && (step.Post? || step.PostBatchPrivately?)
    ensures OthersStay(s, step, Next(s, step).sched)
  {
  }

  lemma ThreadStay(s: State, step: Step)
    requires Enabled(s, step) && (step.Wake? || step.FinishOp? || step.FlushEmpty? || step.WorkFinished?)
    ensures OthersStay(s, step, Next(s, step).sched)
  {
  }

  lemma ScanStay(s: State, step: Step)
    requires Enabled(s, step) && (ScanStepLabel(step) || step.EpollReturns?)
    ensures OthersStay(s, step, Next(s, step).sched)
  {
  }

  /** No step moves a thread but its own and the one that calls it, except that a stop
      wakes every waiting thread and an arriving notify_one the one it picks. */
  lemma OthersStayExactly(s: State, step: Step)
    requires Enabled(s, step)
    ensures OthersStay(s, step, Next(s, step).sched)
  {
    if step.Acquire? || step.Resume? {
      LoopStay(s, step);
    } else if step.Splice? || step.FinishTask? {
      CleanUpStay(s, step);
    } else if step.PostBatch? || step.PostRest? {
      PushStay(s, step);
    } else if step.Stop? || step.StopFromGuard? {
      StopStay(s, step);
    } else if EntryStep(step) {
      EntryStay(s, step);
    } else if step.StartOp? || step.FinishStart? {
      StartStay(s, step);
    } else if DescriptorStep(step) {
      QuietStay(s, step);
    } else if ControlStep(step) {
      ControlStay(s, step);
    } else if step.Post? || step.PostBatchPrivately? {
      ChargeStay(s, step);
    } else if ScanStepLabel(step) || step.EpollReturns? {
      ScanStay(s, step);
    } else {
      ThreadStay(s, step);
    }
  }

  // ---- What a thread does next ----

  // Outside the loop of do_run_one, which QueueStep covers, and of perform_io.
  predicate StageAfter(s: State, step: Step, sc': Sched)
    requires EntryStep(step) || step.Wake? || step.FinishOp? || step.FlushEmpty? || step.WorkFinished? || step.Splice?
             || step.BeginScan? || step.EndScan? || step.PostRest? || step.EpollReturns?
  {
    && At(s, step.t) && step.t < |sc'.threads|
    && var pc, pc' := s.sched.threads[step.t].pc, sc'.threads[step.t].pc;
       if step.EnterRun? then pc' == if s.sched.core.outstanding == 0 then Outside else Wanting
       else if step.Wake? then pc' == Notified
       else if step.FinishOp? || step.FlushEmpty? then pc' == Flushed
       else if step.WorkFinished? then pc' == if sc'.core.outstanding == 0 then Stopping else Splicing
       else if step.StopFromWork? then pc' == Splicing
       else if step.Splice? then pc' == Wanting
       else if step.EpollReturns? then pc' == TaskReturned
       else if step.PostRest? then pc.Posting? && pc' == Running(pc.first)
       else if step.BeginScan? then pc.Performing? && pc' == Scanning(pc.d, pc.events, 3, [])
       else pc.Scanning? && pc' == match |pc.done|
         case 0 => Compensated
         case 1 => Running(pc.done[0])
         case _ => Posting(pc.done[0], pc.done[1..])
  }

  lemma EntryStage(s: State, step: Step)
    requires Enabled(s, step) && EntryStep(step)
    ensures StageAfter(s, step, Next(s, step).sched)
  {
    if step.StopFromWork? {
      StopSignals(SetPc(s.sched, step.t, Splicing));
    } else {
      StopSignals(s.sched);
    }
  }

  lemma WorkStage(s: State, step: Step)
    requires Enabled(s, step) && (step.Wake? || step.FinishOp? || step.FlushEmpty? || step.WorkFinished?)
    ensures StageAfter(s, step, Next(s, step).sched)
  {
  }

  lemma ScanStage(s: State, step: Step)
    requires Enabled(s, step) && (step.BeginScan? || step.EndScan? || step.EpollReturns?)
    ensures StageAfter(s, step, Next(s, step).sched)
  {
  }

  lemma RestStage(s: State, step: Step)
    requires Enabled(s, step) && (step.PostRest? || (step.Splice? && !Turns(s, step)))
    ensures StageAfter(s, step, Next(s, step).sched)
  {
    if step.PostRest? {
      var pc := s.sched.threads[step.t].pc;
      PushSignals(SetPc(s.sched, step.t, Running(pc.first)), Users(pc.rest));
    }
  }

  /** Where each of its own steps takes a thread: perform_io hands the first operation
      performed to the thread to be executed, the others to a post, and with none the
      thread compensates; giving back a unit leads to a stop exactly at zero. */
  lemma StageExactly(s: State, step: Step)
    requires Enabled(s, step) && !Turns(s, step)
    requires EntryStep(step) || step.Wake? || step.FinishOp? || step.FlushEmpty? || step.WorkFinished? || step.Splice?
             || step.BeginScan? || step.EndScan? || step.PostRest? || step.EpollReturns?
    ensures StageAfter(s, step, Next(s, step).sched)
  {
    if EntryStep(step) {
      EntryStage(s, step);
    } else if step.BeginScan? || step.EndScan? || step.EpollReturns? {
      ScanStage(s, step);
    } else if step.PostRest? || step.Splice? {
      RestStage(s, step);
    } else {
      WorkStage(s, step);
    }
  }

  // ---- The guards ----

  predicate GuardsAfter(s: State, step: Step, s': State)
  {
    && s'.guards == s.guards + (if step.GuardStarted? then 1 else if step.GuardFinished? then -1 else 0)
    && s'.stops == s.stops + (if step.GuardFinished? && s'.sched.core.outstanding == 0 then 1
                              else if step.StopFromGuard? then -1 else 0)
  }

  lemma PlacingGuards(s: State, step: Step)
    requires CanStart(s, step) || CanFinish(s, step)
    ensures CanStart(s, step) ==> GuardsAfter(s, step, AfterStartOp(s, step))
    ensures CanFinish(s, step) ==> GuardsAfter(s, step, AfterFinishStart(s, step))
  {
    if CanStart(s, step) {
      PostExactly(Tried(s, step), s.nextId, step.continuation, step.caller);
    } else {
      PostExactly(Resolved(s, step), s.locks[step.d].op, step.continuation, step.caller);
    }
  }

  /** A guard is counted while it is owned, and the release that finds the counter at
      zero, and no other, leads to one stop. */
  lemma GuardsExactly(s: State, step: Step)
    requires Enabled(s, step)
    ensures GuardsAfter(s, step, Next(s, step))
  {
    if step.StartOp? || step.FinishStart? {
      PlacingGuards(s, step);
    } else {
      OtherGuards(s, step);
    }
  }

  lemma OtherGuards(s: State, step: Step)
    requires Enabled(s, step) && !step.StartOp? && !step.FinishStart?
    ensures GuardsAfter(s, step, Next(s, step))
  {
  }
}
