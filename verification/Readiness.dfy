/** Lost readiness edges: what it is for an operation waiting on a ready direction
    to have an event on its way to it, and the steps that can lose one. */
module Readiness {
  import opened EventWord
  import opened SchedulerCore
  import opened Descriptors
  import opened Protocol
  import opened LocalQueues

  // ---- On its way ----

  // A thread holds an event for direction j of descriptor d that its perform_io
  // has yet to act on.
  predicate Carries(pc: Pc, d: nat, j: Dir)
  {
    || (pc.Performing? && pc.d == d && Selects(pc.events, j))
    || (pc.Scanning? && pc.d == d && Selects(pc.events, j) && j < pc.left)
  }

  ghost predicate Carried(ths: seq<Thread>, d: nat, j: Dir)
  {
    exists i :: 0 <= i < |ths| && Carries(ths[i].pc, d, j)
  }

  // Queued in the scheduler with an event for j, or in a thread's hands.
  ghost predicate InFlight(sc: Sched, results: seq<Events>, d: nat, j: Dir)
    requires d < |results|
  {
    (Enqueued(sc, d) && Selects(results[d], j)) || Carried(sc.threads, d, j)
  }

  ghost predicate OnItsWay(s: State, d: nat, j: Dir)
    requires Sized(s) && d < |s.descs|
  {
    s.sockets[d].pending[j] || InFlight(s.sched, s.results, d, j)
  }

  // Nothing will look at direction j before an event arrives: operations are
  // queued, speculation is off, or a start_op is about to queue its operation.
  predicate Awaits(desc: Desc, m: Mutex, j: Dir)
  {
    desc.queues[j] != [] || !desc.speculative[j] || (m.Starting? && m.j == j && m.speculative)
  }

  // A ready direction of a live descriptor, with its interest registered as far as
  // the descriptor knows, that nothing looks at before an event arrives.
  predicate Needs(desc: Desc, k: Socket, m: Mutex, j: Dir)
  {
    !desc.shutdown && FlagOf(j) in desc.registered && k.ready[j] && Awaits(desc, m, j)
  }

  /** The edge is lost: it is needed and not on its way. */
  ghost predicate Lost(s: State, d: nat, j: Dir)
    requires Sized(s)
  {
    d < |s.descs| && Needs(s.descs[d], s.sockets[d], s.locks[d], j) && !OnItsWay(s, d, j)
  }

  // ---- How an edge can be lost ----

  // An epoll_ctl fails and the descriptor goes on as if it had succeeded: the
  // registration, or the EPOLL_CTL_MOD of a start_op that may not speculate.
  ghost predicate Ignored(s: State, step: Step, d: nat, j: Dir)
    requires Enabled(s, step)
  {
    || (step.Register? && step.added.AddFailed? && d == |s.descs|)
    || (step.FinishStart? && step.d == d && s.locks[d].j == j
        && !s.locks[d].speculative && s.descs[d].registered != {} && !step.modOk)
  }

  // A successful EPOLL_CTL_MOD reports what is ready in every direction.
  ghost predicate Rearms(s: State, step: Step, d: nat)
    requires Enabled(s, step)
  {
    step.FinishStart? && step.d == d && Ended(s, step).control.Modified?
  }

  // The descriptor takes it that epoll has been asked about j; it has not.
  ghost predicate Unasked(s: State, d: nat, j: Dir)
    requires Sized(s)
  {
    && d < |s.descs| && !s.descs[d].shutdown
    && FlagOf(j) in s.descs[d].registered && FlagOf(j) !in s.sockets[d].interest
  }

  /** The steps that lose an edge not already on its way: an ignored failure of
      EPOLL_CTL_MOD on a ready direction, and readiness that rises in a direction
      epoll was not asked about. */
  ghost predicate Loses(s: State, step: Step, d: nat, j: Dir)
    requires Enabled(s, step)
  {
    && d < |s.descs| && !OnItsWay(s, d, j)
    && ((step.FinishStart? && Ignored(s, step, d, j) && s.sockets[d].ready[j])
        || (step.Rise? && step.d == d && step.j == j && Unasked(s, d, j) && Awaits(s.descs[d], s.locks[d], j)))
  }

  // ---- Scheduler sections lose no event in flight ----

  ghost predicate FlightKept(sc: Sched, sc': Sched, results: seq<Events>)
  {
    forall d, j: Dir :: 0 <= d < |results| && InFlight(sc, results, d, j) ==> InFlight(sc', results, d, j)
  }

  // Threads wake up, nothing else.
  ghost predicate Woken(ths: seq<Thread>, ths': seq<Thread>)
  {
    |ths'| == |ths| && forall i :: 0 <= i < |ths| ==> ths'[i] == ths[i] || ths'[i] == Awaken(ths[i])
  }

  lemma FlightWoken(sc: Sched, sc': Sched, results: seq<Events>)
    requires sc'.core.ops == sc.core.ops && Woken(sc.threads, sc'.threads)
    ensures FlightKept(sc, sc', results)
  {
    forall d, j: Dir | 0 <= d < |results| && InFlight(sc, results, d, j)
      ensures InFlight(sc', results, d, j)
    {
      if Carried(sc.threads, d, j) {
        var i :| 0 <= i < |sc.threads| && Carries(sc.threads[i].pc, d, j);
        assert Carries(sc'.threads[i].pc, d, j);
      } else if Descriptor(d) !in sc.core.ops {
        var i :| 0 <= i < |sc.threads| && Descriptor(d) in sc.threads[i].privateOps;
        assert Descriptor(d) in sc'.threads[i].privateOps;
      }
    }
  }

  lemma FlightTrans(a: Sched, b: Sched, c: Sched, results: seq<Events>)
    requires FlightKept(a, b, results) && FlightKept(b, c, results)
    ensures FlightKept(a, c, results)
  {
  }

  // Thread t changes its position and queues; what it held reaches the shared
  // queue or stays.
  ghost predicate ThreadKept(sc: Sched, sc': Sched, results: seq<Events>, t: nat)
  {
    && t < |sc.threads| == |sc'.threads|
    && (forall i :: 0 <= i < |sc.threads| && i != t ==> sc'.threads[i] == sc.threads[i])
    && (forall d: nat, j: Dir :: Carries(sc.threads[t].pc, d, j) ==> Carries(sc'.threads[t].pc, d, j))
    && (forall d: nat :: Descriptor(d) in sc.threads[t].privateOps ==>
          Descriptor(d) in sc'.threads[t].privateOps || Descriptor(d) in sc'.core.ops)
    && (forall d: nat :: Descriptor(d) in sc.core.ops ==>
          || Descriptor(d) in sc'.core.ops
          || (d < |results| && sc'.threads[t].pc == Performing(d, results[d])))
  }

  lemma FlightThread(sc: Sched, sc': Sched, results: seq<Events>, t: nat)
    requires ThreadKept(sc, sc', results, t)
    ensures FlightKept(sc, sc', results)
  {
    forall d, j: Dir | 0 <= d < |results| && InFlight(sc, results, d, j)
      ensures InFlight(sc', results, d, j)
    {
      if Carried(sc.threads, d, j) {
        var i :| 0 <= i < |sc.threads| && Carries(sc.threads[i].pc, d, j);
        assert Carries(sc'.threads[i].pc, d, j);
      } else if Descriptor(d) in sc.core.ops {
        assert Descriptor(d) in sc'.core.ops || Carries(sc'.threads[t].pc, d, j);
      } else {
        var i :| 0 <= i < |sc.threads| && Descriptor(d) in sc.threads[i].privateOps;
        assert Descriptor(d) in sc'.threads[i].privateOps || Descriptor(d) in sc'.core.ops;
      }
    }
  }

  lemma FlightPush(sc: Sched, results: seq<Events>, ops: seq<Op<nat>>)
    ensures FlightKept(sc, Push(sc, ops), results)
  {
    var sc1 := sc.(core := sc.core.(ops := sc.core.ops + ops));
    var r := PushAndWake(sc.core, ops);
    FlightWoken(sc1, Push(sc, ops), results);
    forall d, j: Dir | 0 <= d < |results| && InFlight(sc, results, d, j)
      ensures InFlight(sc1, results, d, j)
    {
      if Enqueued(sc, d) && Descriptor(d) !in sc.core.ops {
        var i :| 0 <= i < |sc.threads| && Descriptor(d) in sc.threads[i].privateOps;
        assert Descriptor(d) in sc1.threads[i].privateOps;
      }
    }
  }

  /** Popping a descriptor operation hands its events to the thread. */
  lemma FlightLoop(sc: Sched, results: seq<Events>, t: nat)
    requires t < |sc.threads| && forall d: nat, j: Dir :: !Carries(sc.threads[t].pc, d, j)
    requires forall i :: 0 <= i < |sc.core.ops| && sc.core.ops[i].Descriptor? ==> sc.core.ops[i].d < |results|
    ensures FlightKept(sc, Loop(sc, results, t), results)
  {
    var p := TakeTurn(sc.core);
    var sc1 := SetPc(sc, t, AfterTurn(p.turn, results)).(core := p.core);
    forall d: nat | Descriptor(d) in sc.core.ops
      ensures Descriptor(d) in sc1.core.ops || (d < |results| && sc1.threads[t].pc == Performing(d, results[d]))
    {
      assert sc.core.ops == [sc.core.ops[0]] + sc.core.ops[1..];
    }
    FlightThread(sc, sc1, results, t);
    FlightWoken(sc1, Loop(sc, results, t), results);
    FlightTrans(sc, sc1, Loop(sc, results, t), results);
  }

  // ---- Steps that leave the descriptors alone ----

  ghost predicate SameDescriptors(s: State, s': State)
  {
    s'.descs == s.descs && s'.sockets == s.sockets && s'.results == s.results && s'.locks == s.locks
  }

  lemma EdgeSched(s: State, s': State, d: nat, j: Dir)
    requires Sized(s) && !Lost(s, d, j)
    requires SameDescriptors(s, s') && FlightKept(s.sched, s'.sched, s.results)
    ensures !Lost(s', d, j)
  {
  }

  lemma EdgeLoop(s: State, sc: Sched, t: nat, d: nat, j: Dir)
    requires Sized(s) && !Lost(s, d, j) && At(s, t)
    requires FlightKept(s.sched, sc, s.results)
    requires |sc.threads| == |s.sched.threads| && QueueShape(sc.core.ops, |s.descs|)
    requires !sc.threads[t].pc.Performing? && !sc.threads[t].pc.Scanning?
    ensures !Lost(s.(sched := Loop(sc, s.results, t)), d, j)
  {
    FlightLoop(sc, s.results, t);
    FlightTrans(s.sched, sc, Loop(sc, s.results, t), s.results);
    EdgeSched(s, s.(sched := Loop(sc, s.results, t)), d, j);
  }
}
