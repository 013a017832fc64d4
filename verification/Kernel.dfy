/** What epoll is asked and told: every step's effect on the interest, the readiness
    and the pending edges of a socket, exactly. */
module Kernel {
  import opened Prelude
  import opened SchedulerCore
  import opened Descriptors
  import opened Coalescing
  import opened Protocol
  import opened LocalQueues
  import opened Scans
  import ReadinessSteps

  predicate Wanted(interest: Events, j: Dir)
  {
    (j == READ && EpollIn in interest) || (j == WRITE && EpollOut in interest) || (j == EXCEPT && EpollPri in interest)
  }

  // A successful EPOLL_CTL_MOD: a write that may speculate and has not asked yet, or
  // any operation that may not.
  predicate Asked(s: State, step: Step, d: nat)
  {
    && CanFinish(s, step) && step.d == d && step.modOk && s.descs[d].registered != {}
    && (!s.locks[d].speculative || (s.locks[d].j == WRITE && EpollOut !in s.descs[d].registered))
  }

  // EPOLL_CTL_DEL.
  predicate Removed(s: State, step: Step, d: nat)
  {
    step == Deregister(d, false) && d < |s.descs| && !s.descs[d].shutdown && s.descs[d].registered != {}
  }

  // An attempt to perform an operation of direction j.
  predicate Attempts(s: State, step: Step, d: nat, j: Dir)
  {
    || (CanStart(s, step) && step.d == d && step.j == j && Tries(s.descs[d], j, step.allow))
    || (step.ScanOne? && At(s, step.t) && s.sched.threads[step.t].pc.Scanning?
        && var pc := s.sched.threads[step.t].pc;
           pc.d == d && pc.left == j + 1 && d < |s.descs| && Selects(pc.events, j) && s.descs[d].queues[j] != [])
  }

  ghost predicate SocketAfter(s: State, step: Step, d: nat, j: Dir, k: Socket, k': Socket)
    requires Sized(s) && d < |s.descs|
  {
    && (k'.ready[j] <==>
          if step == Rise(d, j) then true
          else if step == Fall(d, j) then false
          else if Attempts(s, step, d, j) then step.after
          else k.ready[j])
    && k'.interest == (if Asked(s, step, d) then s.descs[d].registered + {EpollOut}
                       else if Removed(s, step, d) then {} else k.interest)
    && (k'.pending[j] <==>
          || (k.pending[j] && !Removed(s, step, d) && !(step.EpollReturns? && Reported(step.reports, d)))
          || (step == Rise(d, j) && Wanted(k.interest, j))
          || (Asked(s, step, d) && k.ready[j] && Wanted(k'.interest, j)))
  }

  lemma RearmExactly(k: Socket, interest: Events, j: Dir)
    ensures var k' := Rearm(k, interest);
      && k'.interest == interest && k'.ready == k.ready
      && (k'.pending[j] <==> k.pending[j] || (k.ready[j] && Wanted(interest, j)))
  {
  }

  lemma StartSocket(s: State, step: Step, d: nat, j: Dir)
    requires CanStart(s, step) && d < |s.sockets|
    ensures AfterStartOp(s, step).sockets == Tried(s, step).sockets
    ensures SocketAfter(s, step, d, j, s.sockets[d], AfterStartOp(s, step).sockets[d])
  {
    PostKeepsPcs(Tried(s, step), s.nextId, step.continuation, step.caller);
  }

  lemma FinishSocket(s: State, step: Step, d: nat, j: Dir)
    requires CanFinish(s, step) && d < |s.sockets|
    ensures AfterFinishStart(s, step).sockets == Resolved(s, step).sockets
    ensures SocketAfter(s, step, d, j, s.sockets[d], AfterFinishStart(s, step).sockets[d])
  {
    PostKeepsPcs(Resolved(s, step), s.locks[step.d].op, step.continuation, step.caller);
    RearmExactly(s.sockets[d], s.descs[d].registered + {EpollOut}, j);
    var m := s.locks[step.d];
    if !m.speculative {
      assert s.descs[step.d].registered + {EpollOut} + {EpollOut} == s.descs[step.d].registered + {EpollOut};
    }
  }

  lemma EnvironmentSocket(s: State, step: Step, d: nat, j: Dir)
    requires Enabled(s, step) && (step.Rise? || step.Fall? || step.Register?) && d < |s.sockets|
    ensures d < |Next(s, step).sockets|
    ensures SocketAfter(s, step, d, j, s.sockets[d], Next(s, step).sockets[d])
  {
  }

  lemma ClosingSocket(s: State, step: Step, d: nat, j: Dir)
    requires Enabled(s, step) && (step.Cancel? || step.Deregister? || step.ChargeStart?) && d < |s.sockets|
    ensures d < |Next(s, step).sockets|
    ensures SocketAfter(s, step, d, j, s.sockets[d], Next(s, step).sockets[d])
  {
  }

  lemma ScanSocket(s: State, step: Step, d: nat, j: Dir)
    requires Enabled(s, step) && ScanStepLabel(step) && d < |s.sockets|
    ensures d < |Next(s, step).sockets|
    ensures SocketAfter(s, step, d, j, s.sockets[d], Next(s, step).sockets[d])
  {
  }

  lemma EpollSocket(s: State, step: Step, d: nat, j: Dir)
    requires Enabled(s, step) && step.EpollReturns? && d < |s.sockets|
    ensures d < |Next(s, step).sockets|
    ensures SocketAfter(s, step, d, j, s.sockets[d], Next(s, step).sockets[d])
  {
    ReadinessSteps.ConsumeSpec(s.sockets, step.reports, d);
  }

  lemma OtherSocket(s: State, step: Step)
    requires Enabled(s, step) && !DescriptorStep(step) && !ScanStepLabel(step) && !step.EpollReturns?
    ensures Next(s, step).sockets == s.sockets
  {
  }

  /** epoll is asked by a successful control call alone, reports an edge when readiness
      rises under the interest it has or when it is asked while ready, and each report
      or the removal of the descriptor takes it. */
  lemma SocketExactly(s: State, step: Step, d: nat, j: Dir)
    requires Enabled(s, step) && d < |s.sockets|
    ensures d < |Next(s, step).sockets|
    ensures SocketAfter(s, step, d, j, s.sockets[d], Next(s, step).sockets[d])
  {
    if step.StartOp? {
      StartSocket(s, step, d, j);
    } else if step.FinishStart? {
      FinishSocket(s, step, d, j);
    } else if step.Rise? || step.Fall? || step.Register? {
      EnvironmentSocket(s, step, d, j);
    } else if DescriptorStep(step) {
      ClosingSocket(s, step, d, j);
    } else if ScanStepLabel(step) {
      ScanSocket(s, step, d, j);
    } else if step.EpollReturns? {
      EpollSocket(s, step, d, j);
    } else {
      OtherSocket(s, step);
    }
  }

  /** A new descriptor: unknown to epoll where it may not be polled, and reported at
      once where it is ready for what register_descriptor asks about. */
  lemma RegisterExactly(s: State, ready: Bits, added: Added, j: Dir)
    requires Sized(s)
    ensures var s', d := Next(s, Register(ready, added)), |s.descs|;
      && Sized(s') && |s'.descs| == d + 1 && s'.descs[..d] == s.descs && s'.sockets[..d] == s.sockets
      && s'.locks == s.locks + [Free] && s'.results == s.results + [{}] && s'.sched == s.sched
      && var asked := {EpollIn, EpollErr, EpollHup, EpollPri, EpollEt};
         && s'.descs[d].queues == [[], [], []] && s'.descs[d].performed == [[], [], []]
         && s'.descs[d].speculative == [true, true, true] && !s'.descs[d].shutdown
         && s'.descs[d].registered == (if added == AddNotPermitted then {} else asked)
         && s'.sockets[d].ready == ready && s'.sockets[d].interest == (if added == AddOk then asked else {})
         && (s'.sockets[d].pending[j] <==> added == AddOk && ready[j] && j != WRITE)
  {
    RearmExactly(Socket({}, ready, [false, false, false]), if added.AddOk? then ADD_EVENTS else {}, j);
  }
}
