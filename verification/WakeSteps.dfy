/** Every step of the machine keeps the wake-up invariant. */
module WakeSteps {
  import opened Prelude
  import opened SchedulerCore
  import opened Descriptors
  import opened Coalescing
  import opened Protocol
  import opened Totals
  import opened WakeUps
  import opened LocalQueues

  // The work counter plays no part in waking up.
  lemma OutstandingKeeps(sc: Sched, n: int)
    requires WakeInv(sc)
    ensures WakeInv(AddOutstanding(sc, n))
  {
    var sc' := AddOutstanding(sc, n);
    if SomeoneInside(sc') && NotAllBlocked(sc) {
      var i :| 0 <= i < |sc.threads| && Inside(sc.threads[i]) && !Blocked(sc, sc.threads[i]);
      assert !Blocked(sc', sc'.threads[i]);
    }
  }

  lemma SetKeeps(sc: Sched, t: nat, th: Thread)
    requires WakeInv(sc) && t < |sc.threads| && Harmless(sc.threads[t], th)
    ensures WakeInv(SetThread(sc, t, th))
  {
    HarmlessKeeps(sc, t, th, sc.interrupt, sc.core.outstanding);
    assert SetThread(sc, t, th)
        == SetThread(sc, t, th).(interrupt := sc.interrupt, core := sc.core.(outstanding := sc.core.outstanding));
  }

  lemma WakePost(s: State, u: nat, continuation: bool, caller: Option<nat>)
    requires WakeInv(s.sched) && ValidCaller(s.sched, caller)
    ensures WakeInv(PostImmediate(s, u, continuation, caller).sched)
  {
    if caller.Some? && (s.sched.core.oneThread || continuation) {
      var th := s.sched.threads[caller.value];
      SetKeeps(s.sched, caller.value, AddPrivate(s.sched, caller.value, [User(u)], 1).threads[caller.value]);
    } else {
      OutstandingKeeps(s.sched, 1);
    }
  }

  lemma WakeStartOp(s: State, step: Step)
    requires WakeInv(s.sched) && CanStart(s, step)
    ensures WakeInv(AfterStartOp(s, step).sched)
  {
    if Begun(s, step).outcome.Complete? {
      WakePost(Tried(s, step), s.nextId, step.continuation, step.caller);
    }
  }

  lemma WakeFinishStart(s: State, step: Step)
    requires WakeInv(s.sched) && CanFinish(s, step)
    ensures WakeInv(AfterFinishStart(s, step).sched)
  {
    if Ended(s, step).outcome.Complete? {
      WakePost(Resolved(s, step), s.locks[step.d].op, step.continuation, step.caller);
    }
  }

  lemma WakeDescriptorStep(s: State, step: Step)
    requires WakeInv(s.sched) && Enabled(s, step) && DescriptorStep(step)
    ensures WakeInv(Next(s, step).sched)
  {
    if step.StartOp? {
      WakeStartOp(s, step);
    } else if step.FinishStart? {
      WakeFinishStart(s, step);
    } else if step.ChargeStart? {
      OutstandingKeeps(s.sched, 1);
    } else {
      assert Next(s, step).sched == s.sched;
    }
  }

  lemma WakePostStep(s: State, step: Step)
    requires LocalInv(s) && WakeInv(s.sched) && Enabled(s, step)
    requires step.Post? || step.PostBatch? || step.PostBatchPrivately?
    ensures WakeInv(Next(s, step).sched)
  {
    if step.Post? {
      WakePost(s, s.nextId, step.continuation, step.caller);
    } else if step.PostBatch? {
      PushKeeps(s.sched, Users(s.batches[step.i].ops));
    } else {
      SetKeeps(s.sched, step.t, Next(s, step).sched.threads[step.t]);
    }
  }

  lemma WakePostPrivately(sc: Sched, t: nat, pc: Pc, ops: seq<Op<nat>>)
    requires WakeInv(sc) && t < |sc.threads| && Harmless(sc.threads[t], sc.threads[t].(pc := pc))
    ensures WakeInv(SetPc(AddPrivate(sc, t, ops, 0), t, pc))
  {
    var th := sc.threads[t].(pc := pc, privateOps := sc.threads[t].privateOps + ops);
    SetKeeps(sc, t, th);
    assert SetPc(AddPrivate(sc, t, ops, 0), t, pc).threads == sc.threads[t := th];
  }

  lemma WakePostRest(s: State, t: nat)
    requires WakeInv(s.sched) && At(s, t) && s.sched.threads[t].pc.Posting?
    ensures WakeInv(AfterPostRest(s, t).sched)
  {
    var pc := s.sched.threads[t].pc;
    if s.sched.core.oneThread {
      WakePostPrivately(s.sched, t, Running(pc.first), Users(pc.rest));
    } else {
      var sc := SetPc(s.sched, t, Running(pc.first));
      SetKeeps(s.sched, t, sc.threads[t]);
      PushKeeps(sc, Users(pc.rest));
    }
  }

  lemma WakeControlStep(s: State, step: Step)
    requires LocalInv(s) && WakeInv(s.sched) && Enabled(s, step)
    requires ControlStep(step)
    ensures WakeInv(Next(s, step).sched)
  {
    if step.GuardStarted? {
      OutstandingKeeps(s.sched, 1);
    } else if step.GuardFinished? {
      OutstandingKeeps(s.sched, -1);
    } else if step.Notify? {
      ArriveKeeps(s.sched, step.pick);
    } else if step.Stop? || step.StopFromGuard? {
      StopKeeps(s.sched);
    } else if step.Restart? {
      RestartKeeps(s.sched);
    } else {
      StartTaskKeeps(s.sched);
    }
  }

  lemma WakeEntryStep(s: State, step: Step)
    requires WakeInv(s.sched) && Enabled(s, step)
    requires EntryStep(step)
    ensures WakeInv(Next(s, step).sched)
  {
    if step.EnterRun? {
      StopKeeps(s.sched);
      SetKeeps(s.sched, step.t, s.sched.threads[step.t].(pc := Wanting));
    } else {
      SetKeeps(s.sched, step.t, s.sched.threads[step.t].(pc := Splicing));
      StopKeeps(SetPc(s.sched, step.t, Splicing));
    }
  }

  // A step of thread t that changes t harmlessly, and the work counter at most.
  lemma ThreadStepKeeps(sc: Sched, t: nat, th: Thread, n: int)
    requires WakeInv(sc) && t < |sc.threads| && Harmless(sc.threads[t], th)
    ensures WakeInv(SetThread(AddOutstanding(sc, n), t, th))
  {
    HarmlessKeeps(sc, t, th, sc.interrupt, sc.core.outstanding + n);
    assert SetThread(AddOutstanding(sc, n), t, th)
        == SetThread(sc, t, th).(interrupt := sc.interrupt, core := sc.core.(outstanding := sc.core.outstanding + n));
  }

  lemma WakeScanOne(s: State, t: nat, status: Status, after: bool)
    requires WakeInv(s.sched) && Sized(s) && At(s, t) && s.sched.threads[t].pc.Scanning?
    requires s.sched.threads[t].pc.d < |s.descs| && 0 < s.sched.threads[t].pc.left <= 3
    ensures WakeInv(AfterScanOne(s, t, status, after).sched)
  {
    SetKeeps(s.sched, t, AfterScanOne(s, t, status, after).sched.threads[t]);
  }

  lemma WakeBeginScan(s: State, t: nat)
    requires WakeInv(s.sched) && Sized(s) && At(s, t)
    requires s.sched.threads[t].pc.Performing? && s.sched.threads[t].pc.d < |s.descs|
    ensures WakeInv(AfterBeginScan(s, t).sched)
  {
    SetKeeps(s.sched, t, AfterBeginScan(s, t).sched.threads[t]);
  }

  lemma WakeEndScan(s: State, t: nat)
    requires WakeInv(s.sched) && Sized(s) && At(s, t)
    requires s.sched.threads[t].pc.Scanning? && s.sched.threads[t].pc.d < |s.descs|
    ensures WakeInv(AfterEndScan(s, t).sched)
  {
    SetKeeps(s.sched, t, AfterEndScan(s, t).sched.threads[t]);
  }

  lemma WakeScanStep(s: State, step: Step)
    requires WakeInv(s.sched) && Enabled(s, step)
    requires step.BeginScan? || step.ScanOne? || step.EndScan?
    ensures WakeInv(Next(s, step).sched)
  {
    if step.BeginScan? {
      WakeBeginScan(s, step.t);
    } else if step.ScanOne? {
      WakeScanOne(s, step.t, step.status, step.after);
    } else {
      WakeEndScan(s, step.t);
    }
  }

  lemma WakeFlush(sc: Sched, t: nat)
    requires WakeInv(sc) && t < |sc.threads| && (sc.threads[t].pc.Running? || sc.threads[t].pc.Compensated?)
    ensures WakeInv(FlushWork(sc, t))
  {
    ThreadStepKeeps(sc, t, sc.threads[t].(pc := Flushed, privateWork := 0), sc.threads[t].privateWork);
  }

  lemma WakeGiveBack(sc: Sched, t: nat)
    requires WakeInv(sc) && t < |sc.threads| && sc.threads[t].pc.Flushed?
    ensures WakeInv(GiveBack(sc, t))
  {
    ThreadStepKeeps(sc, t, GiveBack(sc, t).threads[t], -1);
  }

  lemma WakeThreadStep(s: State, step: Step)
    requires WakeInv(s.sched) && Enabled(s, step)
    requires step.FinishOp? || step.FlushEmpty? || step.WorkFinished?
    ensures WakeInv(Next(s, step).sched)
  {
    if step.WorkFinished? {
      WakeGiveBack(s.sched, step.t);
    } else {
      WakeFlush(s.sched, step.t);
    }
  }

  lemma WakeEpoll(s: State, t: nat, reports: seq<Report>)
    requires WakeInv(s.sched) && Enabled(s, EpollReturns(t, reports))
    ensures WakeInv(AfterEpoll(s, t, reports).sched)
  {
    var sc' := AfterEpoll(s, t, reports).sched;
    HarmlessKeeps(s.sched, t, sc'.threads[t], sc'.interrupt, s.sched.core.outstanding);
    assert sc' == SetThread(s.sched, t, sc'.threads[t])
                    .(interrupt := sc'.interrupt, core := s.sched.core.(outstanding := s.sched.core.outstanding));
  }

  lemma WakeLoopStep(s: State, step: Step)
    requires LocalInv(s) && WakeInv(s.sched) && Enabled(s, step)
    requires step.Acquire? || step.Resume? || step.Splice? || step.FinishTask?
    ensures WakeInv(Next(s, step).sched)
  {
    var t := step.t;
    assert Shape(s.sched.threads[t], |s.descs|);
    if step.Acquire? {
      AcquireKeeps(s.sched, s.results, t);
    } else if step.Resume? {
      ResumeKeeps(s.sched, s.results, t);
    } else if step.Splice? {
      if s.sched.threads[t].privateOps == [] {
        SetKeeps(s.sched, t, s.sched.threads[t].(pc := Wanting));
      } else {
        SpliceKeeps(s.sched, s.results, t);
      }
    } else {
      FinishTaskKeeps(s.sched, s.results, t);
    }
  }

  lemma WakeStep(s: State, step: Step)
    requires LocalInv(s) && WakeInv(s.sched) && Enabled(s, step)
    ensures WakeInv(Next(s, step).sched)
  {
    if DescriptorStep(step) {
      WakeDescriptorStep(s, step);
    } else if step.Post? || step.PostBatch? || step.PostBatchPrivately? {
      WakePostStep(s, step);
    } else if step.PostRest? {
      WakePostRest(s, step.t);
    } else if ControlStep(step) {
      WakeControlStep(s, step);
    } else if EntryStep(step) {
      WakeEntryStep(s, step);
    } else if step.Wake? {
      WakeKeeps(s.sched, step.t);
    } else if step.EpollReturns? {
      WakeEpoll(s, step.t, step.reports);
    } else if step.Acquire? || step.Resume? || step.Splice? || step.FinishTask? {
      WakeLoopStep(s, step);
    } else if step.BeginScan? || step.ScanOne? || step.EndScan? {
      WakeScanStep(s, step);
    } else {
      WakeThreadStep(s, step);
    }
  }

  lemma WakeInit(s: State)
    requires Init(s)
    ensures WakeInv(s.sched) && LocalInv(s)
  {
    TotalZero(Waiters, s.sched.threads);
    TotalZero(InReactor, s.sched.threads);
  }
}
