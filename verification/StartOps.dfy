/** start_op (epoll_reactor.cc:157-214), branch by branch on the fields: when an
    operation is performed, when it is completed without having been performed, and
    that it is queued otherwise; and that start_op is atomic over runs. */
module StartOps {
  import opened Prelude
  import opened SchedulerCore
  import opened Descriptors
  import opened Protocol
  import opened LocalQueues
  import opened Scans
  import opened Runs

  /** An operation is performed iff it finds its queue empty, may speculate, does, and
      is ready; it is completed unperformed iff the descriptor is shut down, or its
      queue is empty and either epoll does not know the descriptor or the interest a
      write needs cannot be had; in every other case it joins its queue. */
  lemma StartWholeExactly(d: Desc, j: Dir, allow: bool, status: Status, modOk: bool, u: nat)
    ensures var f := StartWhole(d, j, allow, status, modOk, u);
      var first := !d.shutdown && d.queues[j] == [];
      var may := allow && !(j == READ && d.queues[EXCEPT] != []);
      var performed := first && may && d.speculative[j] && status != NotDone;
      var asks := j == WRITE && may && EpollOut !in d.registered;
      var refused := d.shutdown || (first && !performed && (d.registered == {} || (asks && !modOk)));
      && f.desc.performed == (if performed then d.performed[j := d.performed[j] + [u]] else d.performed)
      && f.desc.queues == (if performed || refused then d.queues else d.queues[j := d.queues[j] + [u]])
      && f.outcome == (if performed || refused then Complete else Queued)
      && f.desc.shutdown == d.shutdown
      && f.desc.speculative
         == (if performed && status == DoneAndExhausted && d.registered != {} then d.speculative[j := false]
             else d.speculative)
      && f.desc.registered
         == (if j == WRITE && first && !performed && !refused then d.registered + {EpollOut} else d.registered)
      && f.control
         == (if !first || performed || d.registered == {} || (may && !asks) then NoControl
             else if modOk then Modified(d.registered + {EpollOut}) else Failed)
  {
    if j == WRITE && EpollOut in d.registered {
      assert d.registered + {EpollOut} == d.registered;
    }
  }

  // ---- The steps ----

  // The operation goes to the scheduler with a unit, privately for a continuation
  // or the only thread, and otherwise by a post to the common queue.
  predicate HandedOver(s: State, s': State, u: nat, continuation: bool, caller: Option<nat>)
  {
    if caller.Some? && (continuation || s.sched.core.oneThread) then
      && s'.batches == s.batches && caller.value < |s.sched.threads|
      && var th := s.sched.threads[caller.value];
         var th' := th.(privateOps := th.privateOps + [User(u)], privateWork := th.privateWork + 1);
         s'.sched == s.sched.(threads := s.sched.threads[caller.value := th'])
    else
      && s'.sched == s.sched.(core := s.sched.core.(outstanding := s.sched.core.outstanding + 1))
      && s'.batches == s.batches + [Batch([u], false)]
  }

  lemma PostExactly(s: State, u: nat, continuation: bool, caller: Option<nat>)
    requires ValidCaller(s.sched, caller)
    ensures var s' := PostImmediate(s, u, continuation, caller);
      HandedOver(s, s', u, continuation, caller) && s'.(sched := s.sched, batches := s.batches) == s
  {
  }

  /** The first step of start_op. */
  lemma StartOpExactly(s: State, step: Step)
    requires step.StartOp? && Enabled(s, step)
    ensures var s', d, j, u := Next(s, step), step.d, step.j, s.nextId;
      var before := s.descs[d];
      var first := !before.shutdown && before.queues[j] == [];
      var may := step.allow && !(j == READ && before.queues[EXCEPT] != []);
      var tried := first && may && before.speculative[j];
      var performed := tried && step.status != NotDone;
      && s'.nextId == u + 1 && Sized(s') && |s'.descs| == |s.descs|
      && (forall e :: 0 <= e < |s.descs| && e != d ==>
            s'.descs[e] == s.descs[e] && s'.locks[e] == s.locks[e] && s'.sockets[e] == s.sockets[e])
      && s'.sockets[d] == (if tried then s.sockets[d].(ready := s.sockets[d].ready[j := step.after]) else s.sockets[d])
      && s'.descs[d] == before.(
           performed := if performed then before.performed[j := before.performed[j] + [u]] else before.performed,
           queues := if before.queues[j] != [] && !before.shutdown then before.queues[j := before.queues[j] + [u]]
                     else before.queues,
           speculative := if performed && step.status == DoneAndExhausted && before.registered != {}
                          then before.speculative[j := false] else before.speculative)
      && s'.locks[d]
         == (if performed || before.shutdown then Free else if first then Starting(u, j, may) else Charging(u, j))
      && (if performed || before.shutdown then HandedOver(s, s', u, step.continuation, step.caller)
          else s'.sched == s.sched && s'.batches == s.batches)
  {
    if Begun(s, step).outcome.Complete? {
      PostExactly(Tried(s, step), s.nextId, step.continuation, step.caller);
    }
  }

  // What it decides, and what it leaves of the descriptor, its mutex and its socket.
  lemma RefusedExactly(s: State, step: Step)
    requires CanFinish(s, step)
    ensures var s', d, m := Resolved(s, step), step.d, s.locks[step.d];
      var before, k := s.descs[d], s.sockets[d];
      var asks := m.j == WRITE && m.speculative && EpollOut !in before.registered;
      var refused := before.registered == {} || (asks && !step.modOk);
      && Sized(s') && s'.sched == s.sched && s'.batches == s.batches && s'.nextId == s.nextId
      && s'.descs == s.descs[d := s'.descs[d]] && s'.locks == s.locks[d := s'.locks[d]]
      && s'.sockets == s.sockets[d := s'.sockets[d]]
      && (Ended(s, step).outcome.Complete? <==> refused)
      && s'.descs[d] == before.(
           queues := if refused then before.queues else before.queues[m.j := before.queues[m.j] + [m.op]],
           registered := if m.j == WRITE && !refused then before.registered + {EpollOut} else before.registered)
      && s'.locks[d] == (if refused then Free else Charging(m.op, m.j))
      && s'.sockets[d].ready == k.ready
      && s'.sockets[d].interest
         == (if before.registered != {} && step.modOk && (asks || !m.speculative) then before.registered + {EpollOut}
             else k.interest)
  {
    var m, before := s.locks[step.d], s.descs[step.d];
    if m.j == WRITE && !m.speculative {
      assert before.registered + {EpollOut} + {EpollOut} == before.registered + {EpollOut};
    }
    if EpollOut in before.registered {
      assert before.registered + {EpollOut} == before.registered;
    }
  }

  /** The second: the operation is completed unperformed iff epoll does not know the
      descriptor or a write that may speculate has asked in vain. */
  lemma FinishStartExactly(s: State, step: Step)
    requires step.FinishStart? && Enabled(s, step)
    ensures var s', d, m := Next(s, step), step.d, s.locks[step.d];
      var before, k := s.descs[d], s.sockets[d];
      var asks := m.j == WRITE && m.speculative && EpollOut !in before.registered;
      var refused := before.registered == {} || (asks && !step.modOk);
      && s'.nextId == s.nextId && Sized(s') && |s'.descs| == |s.descs|
      && (forall e :: 0 <= e < |s.descs| && e != d ==>
            s'.descs[e] == s.descs[e] && s'.locks[e] == s.locks[e] && s'.sockets[e] == s.sockets[e])
      && s'.descs[d] == before.(
           queues := if refused then before.queues else before.queues[m.j := before.queues[m.j] + [m.op]],
           registered := if m.j == WRITE && !refused then before.registered + {EpollOut} else before.registered)
      && s'.locks[d] == (if refused then Free else Charging(m.op, m.j))
      && (if refused then HandedOver(s, s', m.op, step.continuation, step.caller)
          else s'.sched == s.sched && s'.batches == s.batches)
      && s'.sockets[d].ready == k.ready
      && s'.sockets[d].interest
         == (if before.registered != {} && step.modOk && (asks || !m.speculative) then before.registered + {EpollOut}
             else k.interest)
  {
    RefusedExactly(s, step);
    if Ended(s, step).outcome.Complete? {
      PostExactly(Resolved(s, step), s.locks[step.d].op, step.continuation, step.caller);
    }
  }

  // ---- start_op over runs ----

  // While its mutex is held by start_op, nobody else changes the descriptor.
  lemma HeldStays(s: State, step: Step, d: nat)
    requires LocksMatch(s) && Enabled(s, step) && d < |s.descs| && s.locks[d].Starting?
    requires !(step.FinishStart? && step.d == d)
    ensures var s' := Next(s, step);
      Sized(s') && d < |s'.descs| && s'.locks[d] == s.locks[d] && s'.descs[d] == s.descs[d]
  {
    if step.StartOp? {
      StartOpExactly(s, step);
    } else if step.FinishStart? {
      FinishStartExactly(s, step);
    } else if ScanStepLabel(step) {
      HeldFromScans(s, step, d);
    } else if DescriptorStep(step) {
      HeldElsewhere(s, step, d);
    } else {
      LeavesDescriptors(s, step);
    }
  }

  lemma HeldFromScans(s: State, step: Step, d: nat)
    requires LocksMatch(s) && Enabled(s, step) && ScanStepLabel(step) && d < |s.descs| && s.locks[d].Starting?
    ensures var s' := Next(s, step);
      Sized(s') && d < |s'.descs| && s'.locks[d] == s.locks[d] && s'.descs[d] == s.descs[d]
  {
  }

  lemma HeldElsewhere(s: State, step: Step, d: nat)
    requires Enabled(s, step) && DescriptorStep(step) && !step.StartOp? && !step.FinishStart?
    requires d < |s.descs| && s.locks[d].Starting?
    ensures var s' := Next(s, step);
      Sized(s') && d < |s'.descs| && s'.locks[d] == s.locks[d] && s'.descs[d] == s.descs[d]
  {
  }

  // The second half of start_op number i has not come by state k.
  ghost predicate Pending(steps: seq<Step>, i: nat, k: nat, d: nat)
  {
    forall m :: i < m < k && m < |steps| ==> !(steps[m].FinishStart? && steps[m].d == d)
  }

  lemma {:induction false} HeldUntil(states: seq<State>, steps: seq<Step>, i: nat, k: nat)
    requires IsRun(states, steps) && i < k <= |steps| && steps[i].StartOp? && Pending(steps, i, k, steps[i].d)
    requires steps[i].d < |states[i + 1].locks| && states[i + 1].locks[steps[i].d].Starting?
    ensures Sized(states[k]) && steps[i].d < |states[k].descs| && steps[i].d < |states[i].descs|
    ensures states[k].locks[steps[i].d] == states[i + 1].locks[steps[i].d]
    ensures states[k].descs[steps[i].d] == states[i].descs[steps[i].d]
    decreases k
  {
    if k == i + 1 {
      assert Taken(states, steps, i);
      HeldAtFirst(states[i], steps[i]);
    } else {
      HeldUntil(states, steps, i, k - 1);
      HeldOn(states, steps, k - 1, steps[i].d);
    }
  }

  lemma HeldAtFirst(s: State, step: Step)
    requires step.StartOp? && Enabled(s, step)
    requires step.d < |Next(s, step).locks| && Next(s, step).locks[step.d].Starting?
    ensures step.d < |s.descs| && Sized(Next(s, step)) && |Next(s, step).descs| == |s.descs|
    ensures Next(s, step).descs[step.d] == s.descs[step.d]
  {
    StartOpExactly(s, step);
  }

  lemma HeldOn(states: seq<State>, steps: seq<Step>, k: nat, d: nat)
    requires IsRun(states, steps) && k < |steps| && Sized(states[k]) && d < |states[k].descs| && states[k].locks[d].Starting?
    requires !(steps[k].FinishStart? && steps[k].d == d)
    ensures var s' := states[k + 1];
      Sized(s') && d < |s'.descs| && s'.locks[d] == states[k].locks[d] && s'.descs[d] == states[k].descs[d]
  {
    InvHolds(states, steps, k);
    assert Taken(states, steps, k);
    HeldStays(states[k], steps[k], d);
  }

  /** start_op is atomic on its descriptor: whatever the others do in between, the
      step that begins it and the step that ends it leave the descriptor as start_op
      without interruption leaves it. */
  lemma StartOpIsAtomic(states: seq<State>, steps: seq<Step>, i: nat, k: nat)
    requires IsRun(states, steps) && i < k < |steps| && steps[i].StartOp?
    requires steps[i].d < |states[i + 1].locks| && states[i + 1].locks[steps[i].d].Starting?
    requires Pending(steps, i, k, steps[i].d) && steps[k].FinishStart? && steps[k].d == steps[i].d
    ensures steps[i].d < |states[i].descs|
    ensures var d, s', u := steps[i].d, states[k + 1], states[i].nextId;
      var f := StartWhole(states[i].descs[d], steps[i].j, steps[i].allow, steps[i].status, steps[k].modOk, u);
      && d < |s'.descs| && Sized(s') && s'.descs[d] == f.desc
      && s'.locks[d] == (if f.outcome.Queued? then Charging(u, steps[i].j) else Free)
      && (f.outcome.Complete? ==> HandedOver(states[k], s', u, steps[k].continuation, steps[k].caller))
  {
    HeldUntil(states, steps, i, k);
    assert Taken(states, steps, i) && Taken(states, steps, k);
    StartOpExactly(states[i], steps[i]);
    FinishStartExactly(states[k], steps[k]);
    FinishedAlike(states[i], steps[i], states[k], steps[k]);
  }

  // The two halves make the whole.
  lemma FinishedAlike(s: State, begin: Step, t: State, end: Step)
    requires CanStart(s, begin) && CanFinish(t, end) && begin.d == end.d && t.descs[end.d] == s.descs[begin.d]
    requires t.locks[end.d] == AfterStartOp(s, begin).locks[begin.d]
    ensures var f := StartWhole(s.descs[begin.d], begin.j, begin.allow, begin.status, end.modOk, s.nextId);
      && AfterFinishStart(t, end).descs[end.d] == f.desc
      && f.outcome == Ended(t, end).outcome
  {
  }
}
