/** Per-descriptor invariants: operations are performed in the order of their
    submission, a shut-down descriptor is empty, and what is queued has its
    interest recorded. */
module DescriptorInvariant {
  import opened Descriptors
  import opened Protocol
  import opened LocalQueues
  import opened Scans

  predicate Increasing(us: seq<nat>)
  {
    forall i, k :: 0 <= i < k < |us| ==> us[i] < us[k]
  }

  predicate Below(us: seq<nat>, n: nat)
  {
    forall i :: 0 <= i < |us| ==> us[i] < n
  }

  /** The operations performed successfully in direction j, then those queued. */
  function Log(d: Desc, j: Dir): seq<nat> { d.performed[j] + d.queues[j] }

  // Identifiers are submission times: performed and queued operations are in
  // the order of their submission, and precede the one inside start_op.
  predicate Fifo(d: Desc, m: Mutex, n: nat)
  {
    && (m.Starting? ==> m.op < n)
    && forall j: Dir :: Increasing(Log(d, j)) && Below(Log(d, j), if m.Starting? then m.op else n)
  }

  predicate ShutOk(d: Desc, m: Mutex)
  {
    d.shutdown ==> d.queues == NO_OPS && !m.Starting?
  }

  predicate RegisteredOk(d: Desc)
  {
    && (d.registered == {} || (EpollIn in d.registered && EpollPri in d.registered))
    && (forall j: Dir :: d.queues[j] != [] ==> FlagOf(j) in d.registered)
  }

  // The operation queued and still to be charged is the last of its queue.
  predicate ChargeOk(d: Desc, m: Mutex)
  {
    m.Charging? ==> d.queues[m.j] != [] && d.queues[m.j][|d.queues[m.j]| - 1] == m.op
  }

  predicate DescOk(d: Desc, m: Mutex, n: nat)
  {
    Fifo(d, m, n) && ShutOk(d, m) && RegisteredOk(d) && ChargeOk(d, m)
  }

  ghost predicate DescsOk(s: State)
  {
    Sized(s) && forall d :: 0 <= d < |s.descs| ==> DescOk(s.descs[d], s.locks[d], s.nextId)
  }

  // ---- The sections of a descriptor ----

  lemma LogAppend(us: seq<nat>, u: nat)
    requires Increasing(us) && Below(us, u)
    ensures Increasing(us + [u]) && Below(us + [u], u + 1)
  {
  }

  lemma EnqueueFifo(d: Desc, j: Dir, u: nat)
    requires Fifo(d, Free, u)
    ensures Fifo(Enqueue(d, j, u), Free, u + 1)
  {
    var d' := Enqueue(d, j, u);
    forall i: Dir
      ensures Increasing(Log(d', i)) && Below(Log(d', i), u + 1)
    {
      assert Increasing(Log(d, i)) && Below(Log(d, i), u);
      if i == j {
        assert Log(d', i) == Log(d, i) + [u];
        LogAppend(Log(d, i), u);
      } else {
        assert Log(d', i) == Log(d, i);
      }
    }
  }

  // A speculative perform() happens only on an empty queue.
  lemma PerformFifo(d: Desc, j: Dir, u: nat)
    requires Fifo(d, Free, u) && d.queues[j] == []
    ensures Fifo(LogPerformed(d, j, u), Free, u + 1)
  {
    var d' := LogPerformed(d, j, u);
    forall i: Dir
      ensures Increasing(Log(d', i)) && Below(Log(d', i), u + 1)
    {
      assert Increasing(Log(d, i)) && Below(Log(d, i), u);
      if i == j {
        assert Log(d', i) == Log(d, i) + [u];
        LogAppend(Log(d, i), u);
      } else {
        assert Log(d', i) == Log(d, i);
      }
    }
  }

  lemma FifoSame(d: Desc, d': Desc, m: Mutex, n: nat)
    requires Fifo(d, m, n) && d'.queues == d.queues && d'.performed == d.performed
    ensures Fifo(d', m, n)
  {
    forall j: Dir
      ensures Log(d', j) == Log(d, j)
    {
    }
  }

  lemma FifoLater(d: Desc, n: nat, n': nat)
    requires Fifo(d, Free, n) && n <= n'
    ensures Fifo(d, Free, n')
  {
    forall j: Dir
      ensures Below(Log(d, j), n')
    {
      assert Below(Log(d, j), n);
    }
  }

  lemma StartBeginFifo(d: Desc, j: Dir, allow: bool, status: Status, u: nat)
    requires Fifo(d, Free, u)
    ensures var r := StartBegin(d, j, allow, status, u);
      if r.outcome.Hold? then Fifo(r.desc, Starting(u, j, r.outcome.speculative), u + 1) else Fifo(r.desc, Free, u + 1)
  {
    var r := StartBegin(d, j, allow, status, u);
    FifoLater(d, u, u + 1);
    EnqueueFifo(d, j, u);
    if r.outcome.Complete? && !d.shutdown {
      PerformFifo(d, j, u);
      FifoSame(LogPerformed(d, j, u), r.desc, Free, u + 1);
    } else if r.outcome.Hold? {
      forall i: Dir
        ensures Increasing(Log(d, i)) && Below(Log(d, i), u)
      {
      }
    }
  }

  lemma StartFinishFifo(d: Desc, m: Mutex, modOk: bool, n: nat)
    requires m.Starting? && Fifo(d, m, n)
    ensures Fifo(StartFinish(d, m.j, m.speculative, modOk, m.op).desc, Free, n)
  {
    var r := StartFinish(d, m.j, m.speculative, modOk, m.op);
    forall i: Dir
      ensures Increasing(Log(d, i)) && Below(Log(d, i), m.op)
    {
    }
    assert Fifo(d, Free, m.op);
    var d1 := d.(registered := r.desc.registered);
    FifoSame(d, d1, Free, m.op);
    EnqueueFifo(d1, m.j, m.op);
    FifoLater(Enqueue(d1, m.j, m.op), m.op + 1, n);
    FifoLater(d, m.op, n);
  }

  lemma CancelFifo(d: Desc, n: nat)
    requires Fifo(d, Free, n)
    ensures Fifo(Cancelled(d), Free, n)
  {
    forall j: Dir
      ensures Increasing(Log(Cancelled(d), j)) && Below(Log(Cancelled(d), j), n)
    {
      assert Increasing(Log(d, j)) && Below(Log(d, j), n);
      assert Log(Cancelled(d), j) == Log(d, j)[..|d.performed[j]|];
    }
  }

  /** perform_io performs from the front of a queue: the log stays the same. */
  lemma ScanStepLog(c: Scan, events: Events, status: Status, j: Dir)
    requires 0 < c.left <= 3
    ensures Log(ScanStep(c, events, status).desc, j) == Log(c.desc, j)
  {
    var cur: Dir := c.left - 1;
    if Performs(c, events) && !status.NotDone? && j == cur {
      var q := c.desc.queues[cur];
      assert q == [q[0]] + q[1..];
      assert c.desc.performed[cur] + [q[0]] + q[1..] == c.desc.performed[cur] + q;
    }
  }

  lemma ScanStepOk(c: Scan, events: Events, status: Status, t: nat, n: nat)
    requires 0 < c.left <= 3 && DescOk(c.desc, ScannedBy(t), n)
    ensures DescOk(ScanStep(c, events, status).desc, ScannedBy(t), n)
  {
    forall j: Dir
      ensures Increasing(Log(ScanStep(c, events, status).desc, j)) && Below(Log(ScanStep(c, events, status).desc, j), n)
    {
      ScanStepLog(c, events, status, j);
    }
    assert ShutOk(c.desc, ScannedBy(t));
  }

  // ---- Steps ----

  // A change at descriptor d.
  lemma DescsAt(s: State, s': State, d: nat)
    requires DescsOk(s) && Sized(s') && |s'.descs| == |s.descs| && d < |s.descs| && s'.nextId >= s.nextId
    requires forall e :: 0 <= e < |s.descs| && e != d ==> s'.descs[e] == s.descs[e] && s'.locks[e] == s.locks[e]
    requires DescOk(s'.descs[d], s'.locks[d], s'.nextId)
    ensures DescsOk(s')
  {
    forall e | 0 <= e < |s'.descs|
      ensures DescOk(s'.descs[e], s'.locks[e], s'.nextId)
    {
      if e != d {
        DescLater(s.descs[e], s.locks[e], s.nextId, s'.nextId);
      }
    }
  }

  lemma DescLater(d: Desc, m: Mutex, n: nat, n': nat)
    requires DescOk(d, m, n) && n <= n'
    ensures DescOk(d, m, n')
  {
    forall j: Dir
      ensures Increasing(Log(d, j)) && Below(Log(d, j), if m.Starting? then m.op else n')
    {
      assert Increasing(Log(d, j)) && Below(Log(d, j), if m.Starting? then m.op else n);
    }
  }

  // The invariant reads nothing but the descriptors and their mutexes.
  lemma DescsSame(s: State, s': State)
    requires DescsOk(s) && Sized(s') && s'.descs == s.descs && s'.locks == s.locks && s'.nextId >= s.nextId
    ensures DescsOk(s')
  {
    forall e | 0 <= e < |s'.descs|
      ensures DescOk(s'.descs[e], s'.locks[e], s'.nextId)
    {
      DescLater(s.descs[e], s.locks[e], s.nextId, s'.nextId);
    }
  }

  lemma StartBeginOk(d: Desc, j: Dir, allow: bool, status: Status, u: nat)
    requires DescOk(d, Free, u)
    ensures var r := StartBegin(d, j, allow, status, u);
      DescOk(r.desc,
             match r.outcome
             case Complete => Free
             case Queued => Charging(u, j)
             case Hold(speculative) => Starting(u, j, speculative),
             u + 1)
  {
    StartBeginFifo(d, j, allow, status, u);
  }

  lemma StartFinishOk(d: Desc, m: Mutex, modOk: bool, n: nat)
    requires m.Starting? && DescOk(d, m, n)
    ensures var r := StartFinish(d, m.j, m.speculative, modOk, m.op);
      DescOk(r.desc, if r.outcome.Queued? then Charging(m.op, m.j) else Free, n)
  {
    StartFinishFifo(d, m, modOk, n);
  }

  lemma DescsStartOp(s: State, step: Step)
    requires DescsOk(s) && CanStart(s, step)
    ensures DescsOk(AfterStartOp(s, step))
  {
    StartBeginOk(s.descs[step.d], step.j, step.allow, step.status, s.nextId);
    DescsAt(s, AfterStartOp(s, step), step.d);
  }

  lemma DescsFinishStart(s: State, step: Step)
    requires DescsOk(s) && CanFinish(s, step)
    ensures DescsOk(AfterFinishStart(s, step))
  {
    StartFinishOk(s.descs[step.d], s.locks[step.d], step.modOk, s.nextId);
    DescsAt(s, AfterFinishStart(s, step), step.d);
  }

  lemma DescsCharge(s: State, d: nat)
    requires DescsOk(s) && d < |s.descs| && s.locks[d].Charging?
    ensures DescsOk(AfterCharge(s, d))
  {
    FifoSame(s.descs[d], s.descs[d], s.locks[d], s.nextId);
    DescsAt(s, AfterCharge(s, d), d);
  }

  lemma DescsRegister(s: State, ready: Bits, added: Added)
    requires DescsOk(s)
    ensures DescsOk(AfterRegister(s, ready, added))
  {
    var s' := AfterRegister(s, ready, added);
    forall e | 0 <= e < |s'.descs|
      ensures DescOk(s'.descs[e], s'.locks[e], s'.nextId)
    {
      if e < |s.descs| {
        assert DescOk(s.descs[e], s.locks[e], s.nextId);
      }
    }
  }

  lemma DescsCancel(s: State, d: nat)
    requires DescsOk(s) && d < |s.descs| && s.locks[d].Free?
    ensures DescsOk(AfterCancel(s, d))
  {
    CancelFifo(s.descs[d], s.nextId);
    DescsAt(s, AfterCancel(s, d), d);
  }

  lemma DescsDeregister(s: State, d: nat, closing: bool)
    requires DescsOk(s) && d < |s.descs| && s.locks[d].Free?
    ensures DescsOk(AfterDeregister(s, d, closing))
  {
    var s' := AfterDeregister(s, d, closing);
    if !s.descs[d].shutdown {
      CancelFifo(s.descs[d], s.nextId);
      FifoSame(Cancelled(s.descs[d]), s'.descs[d], Free, s.nextId);
      DescsAt(s, s', d);
    }
  }

  lemma DescsDescriptorStep(s: State, step: Step)
    requires DescsOk(s) && Enabled(s, step) && DescriptorStep(step)
    ensures DescsOk(Next(s, step))
  {
    if step.Register? {
      DescsRegister(s, step.ready, step.added);
    } else if step.StartOp? {
      DescsStartOp(s, step);
    } else if step.FinishStart? {
      DescsFinishStart(s, step);
    } else if step.ChargeStart? {
      DescsCharge(s, step.d);
    } else if step.Cancel? {
      DescsCancel(s, step.d);
    } else if step.Deregister? {
      DescsDeregister(s, step.d, step.closing);
    } else {
      DescsSame(s, Next(s, step));
    }
  }

  // perform_io leaves queues and logs alone when it takes and releases the mutex.
  lemma DescsBeginScan(s: State, t: nat)
    requires DescsOk(s) && At(s, t) && s.sched.threads[t].pc.Performing?
    requires s.sched.threads[t].pc.d < |s.descs| && s.locks[s.sched.threads[t].pc.d].Free?
    ensures DescsOk(AfterBeginScan(s, t))
  {
    var d := s.sched.threads[t].pc.d;
    FifoSame(s.descs[d], AfterBeginScan(s, t).descs[d], Free, s.nextId);
    DescsAt(s, AfterBeginScan(s, t), d);
  }

  lemma DescsScanOne(s: State, t: nat, status: Status, after: bool)
    requires DescsOk(s) && LocksMatch(s) && At(s, t) && s.sched.threads[t].pc.Scanning?
    requires s.sched.threads[t].pc.d < |s.descs| && 0 < s.sched.threads[t].pc.left <= 3
    ensures DescsOk(AfterScanOne(s, t, status, after))
  {
    var pc := s.sched.threads[t].pc;
    ScanStepOk(Scan(s.descs[pc.d], pc.left, pc.done), pc.events, status, t, s.nextId);
    DescsAt(s, AfterScanOne(s, t, status, after), pc.d);
  }

  lemma DescsEndScan(s: State, t: nat)
    requires DescsOk(s) && LocksMatch(s) && At(s, t) && s.sched.threads[t].pc.Scanning?
    requires s.sched.threads[t].pc.d < |s.descs|
    ensures DescsOk(AfterEndScan(s, t))
  {
    var d := s.sched.threads[t].pc.d;
    FifoSame(s.descs[d], s.descs[d], s.locks[d], s.nextId);
    DescsAt(s, AfterEndScan(s, t), d);
  }

  lemma DescsScanStep(s: State, step: Step)
    requires DescsOk(s) && LocksMatch(s) && Enabled(s, step)
    requires ScanStepLabel(step)
    ensures DescsOk(Next(s, step))
  {
    if step.BeginScan? {
      DescsBeginScan(s, step.t);
    } else if step.ScanOne? {
      DescsScanOne(s, step.t, step.status, step.after);
    } else {
      DescsEndScan(s, step.t);
    }
  }

  lemma DescsStep(s: State, step: Step)
    requires DescsOk(s) && LocksMatch(s) && Enabled(s, step)
    ensures DescsOk(Next(s, step))
  {
    if DescriptorStep(step) {
      DescsDescriptorStep(s, step);
    } else if ScanStepLabel(step) {
      DescsScanStep(s, step);
    } else {
      LeavesDescriptors(s, step);
      DescsSame(s, Next(s, step));
    }
  }

  /** Once a descriptor is shut down it stays so; with DescsOk, it stays empty. */
  lemma ShutdownStep(s: State, step: Step, d: nat)
    requires Enabled(s, step) && d < |s.descs| && s.descs[d].shutdown
    ensures d < |Next(s, step).descs| && Next(s, step).descs[d].shutdown
  {
    if DescriptorStep(step) {
      ShutdownDescriptorStep(s, step, d);
    } else if ScanStepLabel(step) {
      ShutdownScanStep(s, step, d);
    }
  }

  lemma ShutdownDescriptorStep(s: State, step: Step, d: nat)
    requires Enabled(s, step) && DescriptorStep(step) && d < |s.descs| && s.descs[d].shutdown
    ensures d < |Next(s, step).descs| && Next(s, step).descs[d].shutdown
  {
  }

  lemma ShutdownScanStep(s: State, step: Step, d: nat)
    requires Enabled(s, step) && d < |s.descs| && s.descs[d].shutdown
    requires ScanStepLabel(step)
    ensures d < |Next(s, step).descs| && Next(s, step).descs[d].shutdown
  {
  }
}
