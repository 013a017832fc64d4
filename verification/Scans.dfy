/** Who is in perform_io: which thread holds which descriptor's mutex, and what
    perform_io has done to the direction it is in. */
module Scans {
  import opened Prelude
  import opened EventWord
  import opened SchedulerCore
  import opened Descriptors
  import opened Protocol
  import opened LocalQueues

  // A descriptor's mutex is held by a thread exactly while it is in perform_io.
  ghost predicate LocksMatch(s: State)
  {
    && (forall t :: 0 <= t < |s.sched.threads| && s.sched.threads[t].pc.Scanning? ==>
          s.sched.threads[t].pc.d < |s.locks| && s.locks[s.sched.threads[t].pc.d] == ScannedBy(t))
    && (forall d :: 0 <= d < |s.locks| && s.locks[d].ScannedBy? ==>
          s.locks[d].t < |s.sched.threads| && s.sched.threads[s.locks[d].t].pc.Scanning?
          && s.sched.threads[s.locks[d].t].pc.d == d)
  }

  // perform_io has turned speculation on for the direction it is in.
  predicate ScanPrepared(pc: Pc, descs: seq<Desc>)
  {
    pc.Scanning? && pc.d < |descs| && 0 < pc.left <= 3 && Selects(pc.events, pc.left - 1) ==>
      descs[pc.d].speculative[pc.left - 1]
  }

  ghost predicate ScansOk(s: State)
  {
    && Sized(s) && LocksMatch(s)
    && forall i :: 0 <= i < |s.sched.threads| ==> ScanPrepared(s.sched.threads[i].pc, s.descs)
  }

  predicate ScanStepLabel(step: Step) { step.BeginScan? || step.ScanOne? || step.EndScan? }

  // ---- The other steps ----

  // Nobody enters, leaves or moves on in perform_io.
  ghost predicate ScansSame(sc: Sched, sc': Sched)
  {
    && |sc'.threads| == |sc.threads|
    && forall i :: 0 <= i < |sc.threads| && (sc.threads[i].pc.Scanning? || sc'.threads[i].pc.Scanning?) ==>
         sc'.threads[i].pc == sc.threads[i].pc
  }

  lemma ScanFrame(s: State, s': State)
    requires ScansOk(s) && Sized(s') && ScansSame(s.sched, s'.sched) && |s.descs| <= |s'.descs|
    requires forall e :: 0 <= e < |s.descs| ==>
      if s.locks[e].ScannedBy? then s'.locks[e] == s.locks[e] && s'.descs[e].speculative == s.descs[e].speculative
      else !s'.locks[e].ScannedBy?
    requires forall e :: |s.descs| <= e < |s'.descs| ==> !s'.locks[e].ScannedBy?
    ensures ScansOk(s')
  {
    forall i | 0 <= i < |s'.sched.threads|
      ensures ScanPrepared(s'.sched.threads[i].pc, s'.descs)
    {
      assert ScanPrepared(s.sched.threads[i].pc, s.descs);
    }
  }

  lemma PostKeepsPcs(s: State, u: nat, continuation: bool, caller: Option<nat>)
    requires ValidCaller(s.sched, caller)
    ensures var s' := PostImmediate(s, u, continuation, caller);
      && s'.descs == s.descs && s'.sockets == s.sockets && s'.results == s.results && s'.locks == s.locks
      && |s'.sched.threads| == |s.sched.threads|
      && forall i :: 0 <= i < |s.sched.threads| ==> s'.sched.threads[i].pc == s.sched.threads[i].pc
  {
  }

  lemma StartKeepsScans(s: State, step: Step)
    requires ScansOk(s) && CanStart(s, step)
    ensures ScansOk(AfterStartOp(s, step))
  {
    PostKeepsPcs(Tried(s, step), s.nextId, step.continuation, step.caller);
    ScanFrame(s, AfterStartOp(s, step));
  }

  lemma FinishKeepsScans(s: State, step: Step)
    requires ScansOk(s) && CanFinish(s, step)
    ensures ScansOk(AfterFinishStart(s, step))
  {
    PostKeepsPcs(Resolved(s, step), s.locks[step.d].op, step.continuation, step.caller);
    ScanFrame(s, AfterFinishStart(s, step));
  }

  lemma ScansDescriptorStep(s: State, step: Step)
    requires ScansOk(s) && Enabled(s, step) && DescriptorStep(step)
    ensures ScansOk(Next(s, step))
  {
    if step.StartOp? {
      StartKeepsScans(s, step);
    } else if step.FinishStart? {
      FinishKeepsScans(s, step);
    } else {
      ScanFrame(s, Next(s, step));
    }
  }

  // Every step but those of the descriptors leaves them and their mutexes alone.
  lemma LeavesDescriptors(s: State, step: Step)
    requires Enabled(s, step) && !DescriptorStep(step) && !ScanStepLabel(step)
    ensures var s' := Next(s, step);
      Sized(s') && s'.descs == s.descs && s'.locks == s.locks && s'.nextId >= s.nextId
  {
  }

  lemma LoopScans(sc: Sched, sc1: Sched, results: seq<Events>, t: nat)
    requires t < |sc.threads| && |sc1.threads| == |sc.threads| && !sc.threads[t].pc.Scanning?
    requires forall i :: 0 <= i < |sc.threads| ==> sc1.threads[i].pc == sc.threads[i].pc
    ensures ScansSame(sc, Loop(sc1, results, t))
  {
  }

  lemma ResumeScans(sc: Sched, results: seq<Events>, t: nat)
    requires t < |sc.threads| && sc.threads[t].pc.Notified?
    ensures ScansSame(sc, Reacquire(sc, results, t))
  {
    var w := DropWaiter(sc.core.word);
    if Signalled(w) {
      LoopScans(sc, sc.(core := sc.core.(word := w)), results, t);
    }
  }

  lemma SplicingScans(s: State, t: nat)
    requires At(s, t) && s.sched.threads[t].pc.Splicing?
    ensures ScansSame(s.sched, AfterSplice(s, t).sched)
  {
    if s.sched.threads[t].privateOps != [] {
      LoopScans(s.sched, SpliceOwn(s.sched, t), s.results, t);
    }
  }

  lemma LoopStepScans(s: State, step: Step)
    requires Enabled(s, step)
    requires step.Acquire? || step.Resume? || step.Splice? || step.FinishTask?
    ensures ScansSame(s.sched, Next(s, step).sched)
  {
    if step.Acquire? {
      LoopScans(s.sched, s.sched, s.results, step.t);
    } else if step.Resume? {
      ResumeScans(s.sched, s.results, step.t);
    } else if step.Splice? {
      SplicingScans(s, step.t);
    } else {
      LoopScans(s.sched, EndTask(s.sched, step.t), s.results, step.t);
    }
  }

  lemma CommitScans(sc: Sched, r: Result<nat>)
    ensures ScansSame(sc, Commit(sc, r))
  {
  }

  lemma ControlStepScans(s: State, step: Step)
    requires Enabled(s, step) && ControlStep(step)
    ensures ScansSame(s.sched, Next(s, step).sched)
  {
    if step.Stop? || step.StopFromGuard? {
      CommitScans(s.sched, StopAll(s.sched.core));
    } else if step.StartTask? {
      CommitScans(s.sched, SchedulerCore.InitTask(s.sched.core));
    }
  }

  lemma EntryStepScans(s: State, step: Step)
    requires Enabled(s, step) && EntryStep(step)
    ensures ScansSame(s.sched, Next(s, step).sched)
  {
    CommitScans(s.sched, StopAll(s.sched.core));
    CommitScans(SetPc(s.sched, step.t, Splicing), StopAll(s.sched.core));
  }

  lemma PushScans(sc: Sched, ops: seq<Op<nat>>)
    ensures ScansSame(sc, Push(sc, ops))
  {
  }

  lemma PostRestScans(s: State, t: nat)
    requires At(s, t) && s.sched.threads[t].pc.Posting?
    ensures ScansSame(s.sched, AfterPostRest(s, t).sched)
  {
    var pc := s.sched.threads[t].pc;
    PushScans(SetPc(s.sched, t, Running(pc.first)), Users(pc.rest));
  }

  lemma PostStepScans(s: State, step: Step)
    requires Enabled(s, step)
    requires step.Post? || step.PostBatch? || step.PostBatchPrivately? || step.PostRest?
    ensures ScansSame(s.sched, Next(s, step).sched)
  {
    if step.PostBatch? {
      PushScans(s.sched, Users(s.batches[step.i].ops));
    } else if step.PostRest? {
      PostRestScans(s, step.t);
    }
  }

  lemma ThreadStepScans(s: State, step: Step)
    requires Enabled(s, step)
    requires step.Wake? || step.FinishOp? || step.FlushEmpty? || step.WorkFinished?
    ensures ScansSame(s.sched, Next(s, step).sched)
  {
  }

  lemma EpollScans(s: State, step: Step)
    requires Enabled(s, step) && step.EpollReturns?
    ensures ScansSame(s.sched, AfterEpoll(s, step.t, step.reports).sched)
  {
  }

  lemma OtherStepScans(s: State, step: Step)
    requires Enabled(s, step) && !DescriptorStep(step) && !ScanStepLabel(step)
    ensures ScansSame(s.sched, Next(s, step).sched)
  {
    if ControlStep(step) {
      ControlStepScans(s, step);
    } else if EntryStep(step) {
      EntryStepScans(s, step);
    } else if step.Acquire? || step.Resume? || step.Splice? || step.FinishTask? {
      LoopStepScans(s, step);
    } else if step.Post? || step.PostBatch? || step.PostBatchPrivately? || step.PostRest? {
      PostStepScans(s, step);
    } else if step.EpollReturns? {
      EpollScans(s, step);
    } else {
      ThreadStepScans(s, step);
    }
  }

  // ---- perform_io ----

  // Thread t is the only one that scans descriptor d, before or after.
  lemma ScanMoves(s: State, s': State, t: nat, d: nat)
    requires ScansOk(s) && Sized(s') && At(s, t) && d < |s.descs| == |s'.descs|
    requires |s'.sched.threads| == |s.sched.threads| && s'.sched.threads == s.sched.threads[t := s'.sched.threads[t]]
    requires forall e :: 0 <= e < |s.descs| && e != d ==> s'.descs[e] == s.descs[e] && s'.locks[e] == s.locks[e]
    requires if s.sched.threads[t].pc.Scanning? then s.sched.threads[t].pc.d == d else !s.locks[d].ScannedBy?
    requires if s'.sched.threads[t].pc.Scanning? then s'.sched.threads[t].pc.d == d && s'.locks[d] == ScannedBy(t)
      else !s'.locks[d].ScannedBy?
    requires ScanPrepared(s'.sched.threads[t].pc, s'.descs)
    ensures ScansOk(s')
  {
    forall i | 0 <= i < |s.sched.threads|
      ensures ScanPrepared(s'.sched.threads[i].pc, s'.descs)
    {
      assert ScanPrepared(s.sched.threads[i].pc, s.descs);
    }
  }

  lemma BeginScanKeeps(s: State, t: nat)
    requires ScansOk(s) && At(s, t) && s.sched.threads[t].pc.Performing?
    requires s.sched.threads[t].pc.d < |s.descs| && s.locks[s.sched.threads[t].pc.d].Free?
    ensures ScansOk(AfterBeginScan(s, t))
  {
    ScanMoves(s, AfterBeginScan(s, t), t, s.sched.threads[t].pc.d);
  }

  lemma ScanStepPrepares(c: Scan, events: Events, status: Status)
    requires 0 < c.left <= 3 && (Selects(events, c.left - 1) ==> c.desc.speculative[c.left - 1])
    ensures var n := ScanStep(c, events, status);
      n.left <= 3 && (0 < n.left && Selects(events, n.left - 1) ==> n.desc.speculative[n.left - 1])
  {
  }

  lemma ScanOneKeeps(s: State, t: nat, status: Status, after: bool)
    requires ScansOk(s) && At(s, t) && s.sched.threads[t].pc.Scanning?
    requires s.sched.threads[t].pc.d < |s.descs| && 0 < s.sched.threads[t].pc.left <= 3
    ensures ScansOk(AfterScanOne(s, t, status, after))
  {
    var pc := s.sched.threads[t].pc;
    assert ScanPrepared(pc, s.descs);
    ScanStepPrepares(Scan(s.descs[pc.d], pc.left, pc.done), pc.events, status);
    ScanMoves(s, AfterScanOne(s, t, status, after), t, pc.d);
  }

  lemma EndScanKeeps(s: State, t: nat)
    requires ScansOk(s) && At(s, t) && s.sched.threads[t].pc.Scanning? && s.sched.threads[t].pc.d < |s.descs|
    ensures ScansOk(AfterEndScan(s, t))
  {
    ScanMoves(s, AfterEndScan(s, t), t, s.sched.threads[t].pc.d);
  }

  lemma ScansStep(s: State, step: Step)
    requires ScansOk(s) && Enabled(s, step)
    ensures ScansOk(Next(s, step))
  {
    if DescriptorStep(step) {
      ScansDescriptorStep(s, step);
    } else if step.BeginScan? {
      BeginScanKeeps(s, step.t);
    } else if step.ScanOne? {
      ScanOneKeeps(s, step.t, step.status, step.after);
    } else if step.EndScan? {
      EndScanKeeps(s, step.t);
    } else {
      LeavesDescriptors(s, step);
      OtherStepScans(s, step);
      ScanFrame(s, Next(s, step));
    }
  }
}
