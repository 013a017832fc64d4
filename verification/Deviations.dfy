/** Where the literal text of the source, or an unchecked result, would break one
    of the invariants: what goes wrong, for all states. */
module Deviations {
  import opened Descriptors
  import opened Coalescing
  import opened Protocol
  import opened Totals
  import opened LocalQueues
  import opened Accounting
  import opened AccountingSteps
  import opened DescriptorInvariant
  import opened Readiness
  import opened ReadinessSteps

  /** A rise is reported exactly in a direction epoll has been asked about, unless
      an event for it is on its way already. */
  lemma RiseIsReported(s: State, d: nat, j: Dir)
    requires Sized(s) && d < |s.descs|
    ensures OnItsWay(AfterRise(s, d, j), d, j) <==> FlagOf(j) in s.sockets[d].interest || OnItsWay(s, d, j)
  {
    assert AfterRise(s, d, j).sched == s.sched;
  }

  /** start_op ignores the result of the EPOLL_CTL_MOD it issues when it may not
      speculate (epoll_reactor.cc:210), and trusts the recorded interest when it may
      (epoll_reactor.cc:186). Whichever it does, the operation it queues on a ready
      direction has an event on its way if and only if a call was made and
      succeeded, or one was on its way already; and the next rise is reported if
      and only if epoll has by then been asked about the direction. */
  lemma IgnoredControlFailure(s: State, step: Step)
    requires DescsOk(s) && CanFinish(s, step) && Ended(s, step).outcome.Queued?
    ensures var d, j, s' := step.d, s.locks[step.d].j, AfterFinishStart(s, step);
      && s'.descs[d].queues[j] != []
      && (s.sockets[d].ready[j] ==> (OnItsWay(s', d, j) <==> Ended(s, step).control.Modified? || OnItsWay(s, d, j)))
      && (OnItsWay(AfterRise(s', d, j), d, j) <==> FlagOf(j) in s'.sockets[d].interest || OnItsWay(s', d, j))
      && (FlagOf(j) in s'.sockets[d].interest <==>
            Ended(s, step).control.Modified? || FlagOf(j) in s.sockets[d].interest)
  {
    var d, j, s' := step.d, s.locks[step.d].j, AfterFinishStart(s, step);
    assert DescOk(s.descs[d], s.locks[d], s.nextId);
    assert s'.sched == s.sched;
    RiseIsReported(s', d, j);
  }

  // What a start_op for a write that may not speculate leaves behind if
  // epoll_reactor.cc:205 is taken literally, `registered_events_ &= EPOLLOUT`.
  function LiteralResolved(s: State, step: Step): State
    requires CanFinish(s, step) && s.locks[step.d].j == WRITE && !s.locks[step.d].speculative
  {
    var d, m := s.descs[step.d], s.locks[step.d];
    var registered := d.registered * {EpollOut};
    s.(descs := s.descs[step.d := Enqueue(d.(registered := registered), WRITE, m.op)],
       locks := s.locks[step.d := Charging(m.op, WRITE)],
       sockets := s.sockets[step.d := Rearm(s.sockets[step.d], registered + {EpollOut})])
  }

  /** The literal mask drops every other interest: from then on a rise is reported
      exactly for writes, or where an event was on its way already. */
  lemma LiteralMaskLosesReads(s: State, step: Step, j: Dir)
    requires CanFinish(s, step) && s.locks[step.d].j == WRITE && !s.locks[step.d].speculative
    ensures var d, s1 := step.d, LiteralResolved(s, step);
      OnItsWay(AfterRise(s1, d, j), d, j) <==> j == WRITE || OnItsWay(s, d, j)
  {
    var d, s1 := step.d, LiteralResolved(s, step);
    RiseIsReported(s1, d, j);
    assert s1.sched == s.sched;
    assert s1.sockets[d].interest == {EpollOut};
  }

  /** scheduler.cc:137 reads task_result_ after releasing the mutex. When thread u
      has popped descriptor d with its events and thread t in the reactor then
      absorbs a harvest, a read that late finds direction j, which u was handed,
      if and only if the harvest does not report d or some report of it selects j. */
  lemma LateReadSeesLaterReport(s: State, t: nat, u: nat, d: nat, j: Dir, reports: seq<Report>)
    requires LocalInv(s) && At(s, t) && s.sched.threads[t].pc.InTask? && InRange(reports, |s.sockets|)
    requires At(s, u) && d < |s.descs| && s.sched.threads[u].pc == Performing(d, s.results[d]) && Selects(s.results[d], j)
    ensures var s' := AfterEpoll(s, t, reports);
      && Carries(s'.sched.threads[u].pc, d, j)
      && (Selects(s'.results[d], j) <==> !Reported(reports, d) || Covered(reports, d, j))
  {
    assert Shape(s.sched.threads[t], |s.descs|);
    GatherLosesNothing(s.results, reports);
    if Reported(reports, d) {
      ReportSelects(s.results, reports, d, j);
    }
  }

  // scheduler.cc:219 as written: the private queue is spliced onto the batch,
  // which the caller then discards.
  function LiteralSplice(s: State, i: nat, t: nat): State
    requires i < |s.batches| && At(s, t)
  {
    s.(sched := SetThread(s.sched, t, s.sched.threads[t].(privateOps := [])), batches := Without(s.batches, i))
  }

  /** The literal splice loses every operation of the batch and of the private
      queue; the intended one loses none. */
  lemma LiteralSpliceLosesOperations(w: Weight, s: State, i: nat, t: nat)
    requires Enabled(s, PostBatchPrivately(i, t))
    ensures Held(w, LiteralSplice(s, i, t))
         == Held(w, s) - WeightOfIds(w, s.batches[i].ops) - WeightOfOps(w, s.sched.threads[t].privateOps)
    ensures Held(w, Next(s, PostBatchPrivately(i, t))) == Held(w, s)
  {
    BatchesWithout(w, s.batches, i);
    SetLoad(w, s.sched, t, s.sched.threads[t].(privateOps := []));
    HeldPostStep(w, s, PostBatchPrivately(i, t));
  }

  // register_internal_descriptor: the operation goes into a queue of the new
  // descriptor without work_started().
  function AfterRegisterInternal(s: State, j: Dir, ready: Bits, ok: bool): State
  {
    s.(descs := s.descs + [Enqueue(NEW_DESC, j, s.nextId)],
       sockets := s.sockets + [NewSocket(ready, if ok then AddOk else AddFailed)],
       results := s.results + [{}],
       locks := s.locks + [Free],
       nextId := s.nextId + 1)
  }

  /** An internal descriptor's operation is queued but never charged: it is
      conserved, but the counters fall one short of the operations held. */
  lemma InternalOperationIsUncharged(s: State, j: Dir, ready: Bits, ok: bool)
    requires Accounted(s) && Conserved(s)
    ensures var s' := AfterRegisterInternal(s, j, ready, ok);
      Conserved(s') && Ledger(s') == Held(Everything, s') - 1
  {
    var s' := AfterRegisterInternal(s, j, ready, ok);
    LocksSnoc(ToPlace(Everything), s.locks, Free);
    LocksSnoc(ToCharge, s.locks, Free);
    InternalHeld(Everything, s, j, ready, ok);
    forall u: nat
      ensures Held(Just(u), s') + WeightOfIds(Just(u), s'.completed) == if u < s'.nextId then 1 else 0
    {
      InternalHeld(Just(u), s, j, ready, ok);
    }
  }

  lemma InternalHeld(w: Weight, s: State, j: Dir, ready: Bits, ok: bool)
    ensures Held(w, AfterRegisterInternal(s, j, ready, ok)) == Held(w, s) + w.Of(s.nextId)
  {
    var s' := AfterRegisterInternal(s, j, ready, ok);
    EnqueueLoad(w, NEW_DESC, j, s.nextId);
    DescsSnoc(w, s.descs, s'.descs[|s.descs|]);
    LocksSnoc(ToPlace(w), s.locks, Free);
  }
}
