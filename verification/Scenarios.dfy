/** Concrete runs in which the program does what Deviations and the exceptions of
    the run theorems allow it to do. Each has at most one descriptor and at most
    two threads. */
module Scenarios {
  import opened Prelude
  import opened EventWord
  import opened SchedulerCore
  import opened Descriptors
  import opened Coalescing
  import opened Protocol
  import opened Readiness
  import opened Totals
  import opened Accounting
  import WakeUps
  import Runs
  import Deviations

  // A state with one descriptor and nothing posted; with none.
  function One(sched: Sched, desc: Desc, socket: Socket, lock: Mutex, batches: seq<Batch>, nextId: nat, completed: seq<nat>): State
  {
    State(sched, [desc], [socket], [{}], [lock], batches, 0, 0, nextId, completed)
  }

  function Bare(sched: Sched, batches: seq<Batch>, nextId: nat, completed: seq<nat>): State
  {
    State(sched, [], [], [], [], batches, 0, 0, nextId, completed)
  }

  const QUIET: Bits := [false, false, false]
  const NEW_SOCKET := Socket(ADD_EVENTS, QUIET, QUIET)

  // `last` can be reached.
  ghost predicate Reaches(states: seq<State>, steps: seq<Step>, last: State)
  {
    IsRun(states, steps) && states[|steps|] == last
  }

  lemma Extend(states: seq<State>, steps: seq<Step>, s: State, step: Step, s': State)
    requires Reaches(states, steps, s) && Enabled(s, step) && Next(s, step) == s'
    ensures Reaches(states + [s'], steps + [step], s')
  {
    var states', steps' := states + [s'], steps + [step];
    forall k | 0 <= k < |steps'|
      ensures Taken(states', steps', k)
    {
      if k < |steps| {
        assert Taken(states, steps, k);
      }
    }
  }

  // ---- Steps of the descriptor ----

  lemma Registering(sched: Sched, batches: seq<Batch>, nextId: nat, completed: seq<nat>)
    ensures var s := Bare(sched, batches, nextId, completed);
      && Enabled(s, Register(QUIET, AddOk))
      && Next(s, Register(QUIET, AddOk)) == One(sched, NEW_DESC, NEW_SOCKET, Free, batches, nextId, completed)
  {
  }

  // A start_op that finds the direction not ready, or may not try it.
  lemma Holding(sched: Sched, desc: Desc, socket: Socket, batches: seq<Batch>, nextId: nat, completed: seq<nat>, j: Dir, allow: bool)
    requires !socket.ready[j] && !desc.shutdown && desc.queues[j] == []
    ensures var s := One(sched, desc, socket, Free, batches, nextId, completed);
      var step := StartOp(0, j, allow, NotDone, false, false, None);
      && Enabled(s, step)
      && Next(s, step) == One(sched, desc, socket, Starting(nextId, j, SpeculationAllowed(desc, j, allow)), batches, nextId + 1, completed)
  {
    var s := One(sched, desc, socket, Free, batches, nextId, completed);
    var step := StartOp(0, j, allow, NotDone, false, false, None);
    assert CanStart(s, step);
    assert Begun(s, step) == Started(desc, Hold(SpeculationAllowed(desc, j, allow)));
    assert SetReady(socket, j, false) == socket;
    assert s.sockets[0 := socket] == s.sockets && s.descs[0 := desc] == s.descs;
    assert Tried(s, step) == s.(nextId := nextId + 1);
  }

  lemma Finishing(sched: Sched, desc: Desc, socket: Socket, batches: seq<Batch>, nextId: nat, completed: seq<nat>,
                  u: nat, j: Dir, speculative: bool, modOk: bool)
    requires StartFinish(desc, j, speculative, modOk, u).outcome.Queued?
    ensures var s := One(sched, desc, socket, Starting(u, j, speculative), batches, nextId, completed);
      var r := StartFinish(desc, j, speculative, modOk, u);
      var step := FinishStart(0, modOk, false, None);
      && Enabled(s, step)
      && Next(s, step) == One(sched, r.desc, Controlled(socket, r), Charging(u, j), batches, nextId, completed)
  {
  }

  lemma Charged(sched: Sched, desc: Desc, socket: Socket, batches: seq<Batch>, nextId: nat, completed: seq<nat>, u: nat, j: Dir)
    ensures var s := One(sched, desc, socket, Charging(u, j), batches, nextId, completed);
      && Enabled(s, ChargeStart(0))
      && Next(s, ChargeStart(0)) == One(AddOutstanding(sched, 1), desc, socket, Free, batches, nextId, completed)
  {
  }

  lemma Cancelling(sched: Sched, desc: Desc, socket: Socket, batches: seq<Batch>, nextId: nat, completed: seq<nat>)
    ensures var s := One(sched, desc, socket, Free, batches, nextId, completed);
      && Enabled(s, Cancel(0))
      && Next(s, Cancel(0)) == One(sched, Cancelled(desc), socket, Free, batches + [Batch(AllQueued(desc), true)], nextId, completed)
  {
  }

  lemma Rising(sched: Sched, desc: Desc, socket: Socket, batches: seq<Batch>, nextId: nat, completed: seq<nat>, j: Dir)
    ensures var s := One(sched, desc, socket, Free, batches, nextId, completed);
      && Enabled(s, Rise(0, j))
      && Next(s, Rise(0, j)) == AfterRise(s, 0, j)
  {
  }

  // ---- A write that trusts an interest epoll was never given ----

  // No thread has entered run().
  const EMPTY := Sched(Fresh<nat>(false, false), [], true, 0)

  // The descriptor after a write that was queued although EPOLL_CTL_MOD failed.
  const RECORDED := NEW_DESC.(registered := ADD_EVENTS + {EpollOut})

  // A start_op is queued and charged.
  lemma Queueing(states: seq<State>, steps: seq<Step>, sched: Sched, desc: Desc, socket: Socket, batches: seq<Batch>,
                 nextId: nat, completed: seq<nat>, j: Dir, allow: bool, modOk: bool)
    returns (states': seq<State>, steps': seq<Step>)
    requires Reaches(states, steps, One(sched, desc, socket, Free, batches, nextId, completed))
    requires !socket.ready[j] && !desc.shutdown && desc.queues[j] == []
    requires StartFinish(desc, j, SpeculationAllowed(desc, j, allow), modOk, nextId).outcome.Queued?
    ensures var r := StartFinish(desc, j, SpeculationAllowed(desc, j, allow), modOk, nextId);
      Reaches(states', steps', One(AddOutstanding(sched, 1), r.desc, Controlled(socket, r), Free, batches, nextId + 1, completed))
  {
    var speculative := SpeculationAllowed(desc, j, allow);
    var r := StartFinish(desc, j, speculative, modOk, nextId);
    var s0 := One(sched, desc, socket, Free, batches, nextId, completed);
    var s1 := One(sched, desc, socket, Starting(nextId, j, speculative), batches, nextId + 1, completed);
    var s2 := One(sched, r.desc, Controlled(socket, r), Charging(nextId, j), batches, nextId + 1, completed);
    var s3 := One(AddOutstanding(sched, 1), r.desc, Controlled(socket, r), Free, batches, nextId + 1, completed);
    Holding(sched, desc, socket, batches, nextId, completed, j, allow);
    Finishing(sched, desc, socket, batches, nextId + 1, completed, nextId, j, speculative, modOk);
    Charged(sched, r.desc, Controlled(socket, r), batches, nextId + 1, completed, nextId, j);
    var step0, step1 := StartOp(0, j, allow, NotDone, false, false, None), FinishStart(0, modOk, false, None);
    Extend(states, steps, s0, step0, s1);
    Extend(states + [s1], steps + [step0], s1, step1, s2);
    Extend(states + [s1] + [s2], steps + [step0] + [step1], s2, ChargeStart(0), s3);
    states', steps' := states + [s1] + [s2] + [s3], steps + [step0] + [step1] + [ChargeStart(0)];
  }

  lemma Registered() returns (states: seq<State>, steps: seq<Step>)
    ensures Reaches(states, steps, One(EMPTY, NEW_DESC, NEW_SOCKET, Free, [], 0, []))
  {
    var s0, s1 := Bare(EMPTY, [], 0, []), One(EMPTY, NEW_DESC, NEW_SOCKET, Free, [], 0, []);
    assert Init(s0);
    assert Reaches([s0], [], s0);
    Registering(EMPTY, [], 0, []);
    Extend([s0], [], s0, Register(QUIET, AddOk), s1);
    states, steps := [s0] + [s1], [] + [Register(QUIET, AddOk)];
  }

  // The operations of a first write, cancelled.
  const CANCELLED := [Batch([] + [0] + [], true)]

  lemma FirstWriteCancelled() returns (states: seq<State>, steps: seq<Step>)
    ensures Reaches(states, steps, One(AddOutstanding(EMPTY, 1), RECORDED, NEW_SOCKET, Free, CANCELLED, 1, []))
  {
    states, steps := Registered();
    states, steps := Queueing(states, steps, EMPTY, NEW_DESC, NEW_SOCKET, [], 0, [], WRITE, false, false);
    var sched, queued := AddOutstanding(EMPTY, 1), Enqueue(RECORDED, WRITE, 0);
    assert StartFinish(NEW_DESC, WRITE, false, false, 0) == Finished(queued, Queued, Failed);
    var s, s' := One(sched, queued, NEW_SOCKET, Free, [], 1, []), One(sched, RECORDED, NEW_SOCKET, Free, CANCELLED, 1, []);
    Cancelling(sched, queued, NEW_SOCKET, [], 1, []);
    assert Cancelled(queued) == RECORDED && AllQueued(queued) == [] + [0] + [];
    assert [] + CANCELLED == CANCELLED;
    Extend(states, steps, s, Cancel(0), s');
    states, steps := states + [s'], steps + [Cancel(0)];
  }

  /** The first write may not speculate; its EPOLL_CTL_MOD fails, and the interest is
      recorded all the same. It is cancelled. The second write finds the interest
      recorded, asks for nothing, and is queued; the socket becomes writable; and
      no event is on its way. No call fails after the first. */
  lemma TrustedInterestLosesAnEdge() returns (states: seq<State>, steps: seq<Step>)
    ensures IsRun(states, steps)
    ensures var s := states[|steps|];
      Sized(s) && |s.descs| == 1 && s.descs[0].queues[WRITE] == [1] && s.sockets[0].ready[WRITE] && !OnItsWay(s, 0, WRITE)
  {
    states, steps := FirstWriteCancelled();
    var sched, again := AddOutstanding(EMPTY, 1), Enqueue(RECORDED, WRITE, 1);
    states, steps := Queueing(states, steps, sched, RECORDED, NEW_SOCKET, CANCELLED, 1, [], WRITE, true, true);
    assert StartFinish(RECORDED, WRITE, true, true, 1) == Finished(again, Queued, NoControl);
    var s := One(AddOutstanding(sched, 1), again, NEW_SOCKET, Free, CANCELLED, 2, []);
    Rising(AddOutstanding(sched, 1), again, NEW_SOCKET, CANCELLED, 2, [], WRITE);
    Extend(states, steps, s, Rise(0, WRITE), AfterRise(s, 0, WRITE));
    states, steps := states + [AfterRise(s, 0, WRITE)], steps + [Rise(0, WRITE)];
    Deviations.RiseIsReported(s, 0, WRITE);
  }

  // ---- The literal mask ----

  /** With a read queued, a write that may not speculate takes the literal mask of
      epoll_reactor.cc:205; the socket then becomes readable, and no event is on its
      way to the read. */
  lemma LiteralMaskLosesAnEdge() returns (states: seq<State>, steps: seq<Step>, write: Step)
    ensures IsRun(states, steps)
    ensures var s := states[|steps|];
      && CanFinish(s, write) && s.locks[write.d].j == WRITE && !s.locks[write.d].speculative && write.modOk
      && var s' := AfterRise(Deviations.LiteralResolved(s, write), write.d, READ);
         s'.descs[write.d].queues[READ] == [0] && s'.sockets[write.d].ready[READ] && !OnItsWay(s', write.d, READ)
  {
    states, steps := Registered();
    states, steps := Queueing(states, steps, EMPTY, NEW_DESC, NEW_SOCKET, [], 0, [], READ, true, true);
    var sched, reading := AddOutstanding(EMPTY, 1), Enqueue(NEW_DESC, READ, 0);
    assert StartFinish(NEW_DESC, READ, true, true, 0) == Finished(reading, Queued, NoControl);
    var s := One(sched, reading, NEW_SOCKET, Free, [], 1, []);
    var s' := One(sched, reading, NEW_SOCKET, Starting(1, WRITE, false), [], 2, []);
    var begin := StartOp(0, WRITE, false, NotDone, false, false, None);
    Holding(sched, reading, NEW_SOCKET, [], 1, [], WRITE, false);
    Extend(states, steps, s, begin, s');
    states, steps, write := states + [s'], steps + [begin], FinishStart(0, true, false, None);
    Deviations.LiteralMaskLosesReads(s', write, READ);
  }

  // ---- A stop before the charge ----

  // The only thread has completed operation 0 and is about to give back its unit.
  const LAST := Sched(Fresh<nat>(false, false).(word := 1, outstanding := 1), [Thread(Flushed, [], 0)], true, 0)

  lemma Posted(sc: Sched)
    requires sc == Sched(Fresh<nat>(false, false), [IDLE], true, 0)
    ensures var s := Bare(sc, [], 0, []);
      var s' := Bare(AddOutstanding(sc, 1), [Batch([0], false)], 1, []);
      Enabled(s, Post(false, None)) && Next(s, Post(false, None)) == s'
  {
    assert [] + [Batch([0], false)] == [Batch([0], false)];
  }

  lemma Pushed(sc: Sched, batches: seq<Batch>)
    requires sc == AddOutstanding(Sched(Fresh<nat>(false, false), [IDLE], true, 0), 1) && batches == [Batch([0], false)]
    ensures var s := Bare(sc, batches, 1, []);
      var s' := Bare(sc.(core := sc.core.(ops := [User(0)], word := 1)), [], 1, []);
      Enabled(s, PostBatch(0)) && Next(s, PostBatch(0)) == s'
  {
    assert Users([0]) == [User(0)] && [] + [User(0)] == [User(0)];
    assert Without(batches, 0) == [];
  }

  lemma Entered(core: Core<nat>)
    requires core.outstanding == 1
    ensures var s, s' := Bare(Sched(core, [IDLE], true, 0), [], 1, []), Bare(Sched(core, [Thread(Wanting, [], 0)], true, 0), [], 1, []);
      Enabled(s, EnterRun(0)) && Next(s, EnterRun(0)) == s'
  {
    assert [IDLE][0 := Thread(Wanting, [], 0)] == [Thread(Wanting, [], 0)];
  }

  lemma Popped(core: Core<nat>)
    requires core == Fresh<nat>(false, false).(word := 1, outstanding := 1, ops := [User(0)])
    ensures var s := Bare(Sched(core, [Thread(Wanting, [], 0)], true, 0), [], 1, []);
      var s' := Bare(Sched(core.(ops := []), [Thread(Running(0), [], 0)], true, 0), [], 1, []);
      Enabled(s, Acquire(0)) && Next(s, Acquire(0)) == s'
  {
    var sc := Sched(core, [Thread(Wanting, [], 0)], true, 0);
    assert TakeTurn(core) == Pass(core.(ops := []), Effect(NoOne, false), Execute(User(0)));
    assert [Thread(Wanting, [], 0)][0 := Thread(Running(0), [], 0)] == [Thread(Running(0), [], 0)];
    assert Loop(sc, [], 0) == Sched(core.(ops := []), [Thread(Running(0), [], 0)], true, 0);
  }

  lemma Completing(core: Core<nat>)
    ensures var s := Bare(Sched(core, [Thread(Running(0), [], 0)], true, 0), [], 1, []);
      var s' := Bare(Sched(core, [Thread(Flushed, [], 0)], true, 0), [], 1, [0]);
      Enabled(s, FinishOp(0)) && Next(s, FinishOp(0)) == s'
  {
    assert [Thread(Running(0), [], 0)][0 := Thread(Flushed, [], 0)] == [Thread(Flushed, [], 0)];
    assert [] + [0] == [0];
  }

  // One operation is posted, popped and completed.
  lemma PostedAndPopped() returns (states: seq<State>, steps: seq<Step>)
    ensures Reaches(states, steps, Bare(Sched(LAST.core, [Thread(Running(0), [], 0)], true, 0), [], 1, []))
  {
    var sc := Sched(Fresh<nat>(false, false), [IDLE], true, 0);
    var posted := AddOutstanding(sc, 1);
    var pushed := posted.(core := posted.core.(ops := [User(0)], word := 1));
    var batches := [Batch([0], false)];
    var s0, s1, s2 := Bare(sc, [], 0, []), Bare(posted, batches, 1, []), Bare(pushed, [], 1, []);
    var s3 := Bare(Sched(pushed.core, [Thread(Wanting, [], 0)], true, 0), [], 1, []);
    var s4 := Bare(Sched(LAST.core, [Thread(Running(0), [], 0)], true, 0), [], 1, []);
    assert Reaches([s0], [], s0);
    Posted(sc);
    Pushed(posted, batches);
    Entered(pushed.core);
    Popped(pushed.core);
    Extend([s0], [], s0, Post(false, None), s1);
    Extend([s0] + [s1], [] + [Post(false, None)], s1, PostBatch(0), s2);
    Extend([s0] + [s1] + [s2], [] + [Post(false, None)] + [PostBatch(0)], s2, EnterRun(0), s3);
    states, steps := [s0] + [s1] + [s2] + [s3], [] + [Post(false, None)] + [PostBatch(0)] + [EnterRun(0)];
    Extend(states, steps, s3, Acquire(0), s4);
    states, steps := states + [s4], steps + [Acquire(0)];
  }

  lemma LastUnit() returns (states: seq<State>, steps: seq<Step>)
    ensures Reaches(states, steps, One(LAST, NEW_DESC, NEW_SOCKET, Free, [], 1, [0]))
  {
    states, steps := PostedAndPopped();
    var s0 := Bare(Sched(LAST.core, [Thread(Running(0), [], 0)], true, 0), [], 1, []);
    var s1, s2 := Bare(LAST, [], 1, [0]), One(LAST, NEW_DESC, NEW_SOCKET, Free, [], 1, [0]);
    Completing(LAST.core);
    Extend(states, steps, s0, FinishOp(0), s1);
    Registering(LAST, [], 1, [0]);
    Extend(states + [s1], steps + [FinishOp(0)], s1, Register(QUIET, AddOk), s2);
    states, steps := states + [s1] + [s2], steps + [FinishOp(0)] + [Register(QUIET, AddOk)];
  }

  lemma GivingBack(desc: Desc, socket: Socket, lock: Mutex)
    ensures var s := One(LAST, desc, socket, lock, [], 2, [0]);
      && Enabled(s, WorkFinished(0))
      && Next(s, WorkFinished(0)) == s.(sched := GiveBack(LAST, 0))
      && GiveBack(LAST, 0).threads[0].pc.Stopping?
  {
  }

  /** start_op has queued a read (epoll_reactor.cc:213) and not yet charged for it
      (:214) when the last handler's thread gives back its unit: the counter reaches
      zero, and the scheduler goes on to stop with the read in its queue. */
  lemma StopsBeforeTheCharge() returns (states: seq<State>, steps: seq<Step>)
    ensures IsRun(states, steps)
    ensures var s := states[|steps|];
      && |s.sched.threads| == 1 && s.sched.threads[0].pc.Stopping? && s.sched.core.outstanding == 0
      && |s.descs| == 1 && s.descs[0].queues[READ] == [1]
  {
    states, steps := LastUnit();
    var reading := Enqueue(NEW_DESC, READ, 1);
    assert StartFinish(NEW_DESC, READ, true, true, 1) == Finished(reading, Queued, NoControl);
    var s0 := One(LAST, NEW_DESC, NEW_SOCKET, Free, [], 1, [0]);
    var s1 := One(LAST, NEW_DESC, NEW_SOCKET, Starting(1, READ, true), [], 2, [0]);
    var s2 := One(LAST, reading, NEW_SOCKET, Charging(1, READ), [], 2, [0]);
    var s3 := s2.(sched := GiveBack(LAST, 0));
    var step0, step1 := StartOp(0, READ, true, NotDone, false, false, None), FinishStart(0, true, false, None);
    Holding(LAST, NEW_DESC, NEW_SOCKET, [], 1, [0], READ, true);
    Extend(states, steps, s0, step0, s1);
    Finishing(LAST, NEW_DESC, NEW_SOCKET, [], 2, [0], 1, READ, true, true);
    Extend(states + [s1], steps + [step0], s1, step1, s2);
    GivingBack(reading, NEW_SOCKET, Charging(1, READ));
    Extend(states + [s1] + [s2], steps + [step0] + [step1], s2, WorkFinished(0), s3);
    states, steps := states + [s1] + [s2] + [s3], steps + [step0] + [step1] + [WorkFinished(0)];
  }

  // ---- Steps of one thread and of posters, in any state ----

  lemma Posting(s: State)
    requires Sized(s)
    ensures Enabled(s, Post(false, None))
    ensures Next(s, Post(false, None))
         == s.(nextId := s.nextId + 1, sched := AddOutstanding(s.sched, 1), batches := s.batches + [Batch([s.nextId], false)])
  {
  }

  lemma Pushing(s: State, u: nat)
    requires Sized(s) && s.batches == [Batch([u], false)]
    ensures Enabled(s, PostBatch(0)) && Next(s, PostBatch(0)) == s.(sched := Push(s.sched, [User(u)]), batches := [])
  {
    assert Users([u]) == [User(u)] && Without(s.batches, 0) == [];
  }

  lemma PostingPrivately(s: State, t: nat)
    requires Sized(s) && At(s, t) && s.sched.threads[t].pc.Running? && s.sched.core.oneThread
    ensures Enabled(s, Post(false, Some(t)))
    ensures Next(s, Post(false, Some(t)))
         == s.(nextId := s.nextId + 1, sched := AddPrivate(s.sched, t, [User(s.nextId)], 1))
  {
  }

  lemma Entering(s: State, t: nat)
    requires Sized(s) && At(s, t) && s.sched.threads[t].pc.Outside? && s.sched.core.outstanding != 0
    ensures Enabled(s, EnterRun(t)) && Next(s, EnterRun(t)) == s.(sched := SetPc(s.sched, t, Wanting))
  {
  }

  lemma Acquiring(s: State, t: nat)
    requires Sized(s) && At(s, t) && s.sched.threads[t].pc.Wanting?
    ensures Enabled(s, Acquire(t)) && Next(s, Acquire(t)) == s.(sched := Loop(s.sched, s.results, t))
  {
  }

  lemma Stopping(s: State, t: nat)
    requires Sized(s) && At(s, t) && s.sched.threads[t].pc.Stopping?
    ensures Enabled(s, StopFromWork(t))
    ensures Next(s, StopFromWork(t)) == s.(sched := Commit(SetPc(s.sched, t, Splicing), StopAll(s.sched.core)))
  {
  }

  lemma Guarding(s: State)
    requires Sized(s)
    ensures Enabled(s, GuardStarted)
    ensures Next(s, GuardStarted) == s.(sched := AddOutstanding(s.sched, 1), guards := s.guards + 1)
  {
  }

  lemma Releasing(s: State)
    requires Sized(s) && s.guards > 0
    ensures Enabled(s, GuardFinished) && Next(s, GuardFinished) == AfterGuard(s)
  {
  }

  lemma StoppingForGuard(s: State)
    requires Sized(s) && s.stops > 0
    ensures Enabled(s, StopFromGuard)
    ensures Next(s, StopFromGuard) == s.(sched := Commit(s.sched, StopAll(s.sched.core)), stops := s.stops - 1)
  {
  }

  // A poster posts operation u, which is the next, with no other post under way.
  lemma PostedBy(states: seq<State>, steps: seq<Step>, s: State) returns (states': seq<State>, steps': seq<Step>)
    requires Reaches(states, steps, s) && Sized(s) && s.batches == []
    ensures Reaches(states', steps',
                    s.(nextId := s.nextId + 1, sched := Push(AddOutstanding(s.sched, 1), [User(s.nextId)])))
    ensures states < states' && steps < steps'
  {
    var s1 := s.(nextId := s.nextId + 1, sched := AddOutstanding(s.sched, 1), batches := [Batch([s.nextId], false)]);
    var s2 := s.(nextId := s.nextId + 1, sched := Push(AddOutstanding(s.sched, 1), [User(s.nextId)]));
    Posting(s);
    assert s.batches + [Batch([s.nextId], false)] == s1.batches;
    Pushing(s1, s.nextId);
    Extend(states, steps, s, Post(false, None), s1);
    states', steps' := states + [s1], steps + [Post(false, None)];
    Extend(states', steps', s1, PostBatch(0), s2);
    states', steps' := states' + [s2], steps' + [PostBatch(0)];
  }

  // ---- A stop that finds something left ----

  lemma CompletedLast() returns (states: seq<State>, steps: seq<Step>)
    ensures Reaches(states, steps, Bare(GiveBack(LAST, 0), [], 1, [0]))
    ensures steps != [] && steps[|steps| - 1] == WorkFinished(0)
  {
    states, steps := PostedAndPopped();
    var s0 := Bare(Sched(LAST.core, [Thread(Running(0), [], 0)], true, 0), [], 1, []);
    var s1, s2 := Bare(LAST, [], 1, [0]), Bare(GiveBack(LAST, 0), [], 1, [0]);
    Completing(LAST.core);
    Extend(states, steps, s0, FinishOp(0), s1);
    assert Enabled(s1, WorkFinished(0)) && Next(s1, WorkFinished(0)) == s2;
    Extend(states + [s1], steps + [FinishOp(0)], s1, WorkFinished(0), s2);
    states, steps := states + [s1] + [s2], steps + [FinishOp(0)] + [WorkFinished(0)];
  }

  /** work_finished in step `zero` brings the counter to zero with nothing left;
      before the thread takes the mutex to stop, an operation is posted; the
      scheduler stops with it queued. */
  lemma StopsAfterAPost() returns (states: seq<State>, steps: seq<Step>, zero: nat)
    ensures IsRun(states, steps)
    ensures zero < |steps| && steps[zero] == WorkFinished(0) && states[zero + 1].sched.core.outstanding == 0
    ensures var s := states[|steps|];
      s.sched.core.stopped && s.sched.core.ops == [User(1)] && s.sched.core.outstanding == 1 && s.descs == []
  {
    var states0, steps0 := CompletedLast();
    zero := |steps0| - 1;
    var s0 := Bare(GiveBack(LAST, 0), [], 1, [0]);
    states, steps := PostedBy(states0, steps0, s0);
    assert states[zero + 1] == states0[zero + 1] && steps[zero] == steps0[zero];
    var s1 := s0.(nextId := 2, sched := Push(AddOutstanding(s0.sched, 1), [User(1)]));
    var s2 := s1.(sched := Commit(SetPc(s1.sched, 0, Splicing), StopAll(s1.sched.core)));
    assert [] + [User(1)] == [User(1)];
    Stopping(s1, 0);
    Extend(states, steps, s1, StopFromWork(0), s2);
    states, steps := states + [s2], steps + [StopFromWork(0)];
  }

  /** The same for the last guard: an operation is posted between its release and the
      stop that the release calls for. */
  lemma StopsAfterAPostForAGuard() returns (states: seq<State>, steps: seq<Step>)
    ensures IsRun(states, steps) && |steps| > 0 && steps[|steps| - 1] == StopFromGuard
    ensures var s := states[|steps|];
      s.sched.core.stopped && s.sched.core.ops == [User(0)] && s.sched.core.outstanding == 1 && s.guards == 0
  {
    var s0 := Bare(EMPTY, [], 0, []);
    var s1 := s0.(sched := AddOutstanding(EMPTY, 1), guards := 1);
    var s2 := AfterGuard(s1);
    assert s2 == s0.(stops := 1);
    Guarding(s0);
    Releasing(s1);
    assert Reaches([s0], [], s0);
    Extend([s0], [], s0, GuardStarted, s1);
    Extend([s0] + [s1], [] + [GuardStarted], s1, GuardFinished, s2);
    states, steps := PostedBy([s0] + [s1] + [s2], [] + [GuardStarted] + [GuardFinished], s2);
    var s3 := s2.(nextId := 1, sched := Push(AddOutstanding(s2.sched, 1), [User(0)]));
    var s4 := s3.(sched := Commit(s3.sched, StopAll(s3.sched.core)), stops := 0);
    assert [] + [User(0)] == [User(0)];
    StoppingForGuard(s3);
    Extend(states, steps, s3, StopFromGuard, s4);
    states, steps := states + [s4], steps + [StopFromGuard];
  }

  // ---- A notification in transit ----

  /** The only thread in run() waits, and the poster of the only operation has
      released the mutex and not yet called notify_one: everybody is blocked, and
      nobody notified, but for the notification in transit. */
  lemma WaitsForTheNotice() returns (states: seq<State>, steps: seq<Step>)
    ensures IsRun(states, steps)
    ensures var sc := states[|steps|].sched;
      && !sc.core.stopped && sc.core.ops != [] && !sc.core.oneThread && sc.notices == 1
      && WakeUps.SomeoneInside(sc) && !WakeUps.NotAllBlocked(sc)
      && WakeUps.SomeoneWaits(sc) && !WakeUps.SomeoneNotified(sc)
  {
    var core := Fresh<nat>(false, false);
    var s0 := Bare(Sched(core, [IDLE], true, 0), [], 0, []);
    var s1 := s0.(sched := AddOutstanding(s0.sched, 1), guards := 1);
    var s2 := s1.(sched := SetPc(s1.sched, 0, Wanting));
    var s3 := s2.(sched := Loop(s2.sched, [], 0));
    var waiting := Sched(core.(word := 2, outstanding := 1), [Thread(Waiting, [], 0)], true, 0);
    Guarding(s0);
    Entering(s1, 0);
    Acquiring(s2, 0);
    assert s2.sched.threads == [Thread(Wanting, [], 0)];
    assert TakeTurn(s2.sched.core) == Pass(core.(word := 2, outstanding := 1), Effect(NoOne, false), Block);
    assert s3.sched == waiting;
    assert Reaches([s0], [], s0);
    Extend([s0], [], s0, GuardStarted, s1);
    Extend([s0] + [s1], [] + [GuardStarted], s1, EnterRun(0), s2);
    Extend([s0] + [s1] + [s2], [] + [GuardStarted] + [EnterRun(0)], s2, Acquire(0), s3);
    states, steps := [s0] + [s1] + [s2] + [s3], [] + [GuardStarted] + [EnterRun(0)] + [Acquire(0)];
    states, steps := PostedBy(states, steps, s3);
    var sc := states[|steps|].sched;
    assert sc == Push(AddOutstanding(waiting, 1), [User(0)]);
    assert sc.threads == [Thread(Waiting, [], 0)] && sc.notices == 1;
    assert WakeUps.Inside(sc.threads[0]) && WakeUps.Blocked(sc, sc.threads[0]);
  }

  // ---- The literal splice ----

  // The only thread, under one_thread_, runs operation 0 and has posted operation 1.
  const ALONE := Sched(Fresh<nat>(true, false).(word := 1, outstanding := 1), [Thread(Running(0), [User(1)], 1)], true, 0)

  lemma RunsAndPosts() returns (states: seq<State>, steps: seq<Step>)
    ensures Reaches(states, steps, Bare(ALONE, [], 2, []))
  {
    var core := Fresh<nat>(true, false);
    var s0 := Bare(Sched(core, [IDLE], true, 0), [], 0, []);
    assert Reaches([s0], [], s0);
    states, steps := PostedBy([s0], [], s0);
    var s1 := s0.(nextId := 1, sched := Push(AddOutstanding(s0.sched, 1), [User(0)]));
    assert s1.sched.core == core.(word := 1, outstanding := 1, ops := [User(0)]) by { assert [] + [User(0)] == [User(0)]; }
    var s2 := s1.(sched := SetPc(s1.sched, 0, Wanting));
    var s3 := s2.(sched := Loop(s2.sched, [], 0));
    var s4 := s3.(nextId := 2, sched := AddPrivate(s3.sched, 0, [User(1)], 1));
    Entering(s1, 0);
    Acquiring(s2, 0);
    assert TakeTurn(s2.sched.core) == Pass(ALONE.core, Effect(NoOne, false), Execute(User(0)));
    assert s3.sched.threads == [Thread(Running(0), [], 0)];
    PostingPrivately(s3, 0);
    assert s4.sched.threads == [Thread(Running(0), [User(1)], 1)] by { assert [] + [User(1)] == [User(1)]; }
    Extend(states, steps, s1, EnterRun(0), s2);
    states, steps := states + [s2], steps + [EnterRun(0)];
    Extend(states, steps, s2, Acquire(0), s3);
    states, steps := states + [s3], steps + [Acquire(0)];
    Extend(states, steps, s3, Post(false, Some(0)), s4);
    states, steps := states + [s4], steps + [Post(false, Some(0))];
  }

  /** A handler that has posted an operation cancels a read: taken literally, the
      splice of scheduler.cc:219 leaves neither the read nor the post anywhere. */
  lemma LiteralSpliceLosesARead() returns (states: seq<State>, steps: seq<Step>)
    ensures IsRun(states, steps)
    ensures var s := states[|steps|];
      && Enabled(s, PostBatchPrivately(0, 0))
      && Held(Just(1), s) == 1 && Held(Just(2), s) == 1
      && Held(Just(1), Deviations.LiteralSplice(s, 0, 0)) == 0 && Held(Just(2), Deviations.LiteralSplice(s, 0, 0)) == 0
  {
    states, steps := RunsAndPosts();
    var s0, s1 := Bare(ALONE, [], 2, []), One(ALONE, NEW_DESC, NEW_SOCKET, Free, [], 2, []);
    Registering(ALONE, [], 2, []);
    Extend(states, steps, s0, Register(QUIET, AddOk), s1);
    states, steps := Queueing(states + [s1], steps + [Register(QUIET, AddOk)], ALONE, NEW_DESC, NEW_SOCKET, [], 2, [], READ, true, true);
    var sched, reading := AddOutstanding(ALONE, 1), Enqueue(NEW_DESC, READ, 2);
    assert StartFinish(NEW_DESC, READ, true, true, 2) == Finished(reading, Queued, NoControl);
    var cancelled := [Batch(AllQueued(reading), true)];
    var s2 := One(sched, reading, NEW_SOCKET, Free, [], 3, []);
    var s3 := One(sched, NEW_DESC, NEW_SOCKET, Free, cancelled, 3, []);
    Cancelling(sched, reading, NEW_SOCKET, [], 3, []);
    assert Cancelled(reading) == NEW_DESC && [] + cancelled == cancelled;
    Extend(states, steps, s2, Cancel(0), s3);
    states, steps := states + [s3], steps + [Cancel(0)];
    LostBySplice(states, steps, s3, 1);
    LostBySplice(states, steps, s3, 2);
  }

  lemma LostBySplice(states: seq<State>, steps: seq<Step>, s: State, u: nat)
    requires Reaches(states, steps, s)
    requires s.sched.core.oneThread && s.sched.threads == [Thread(Running(0), [User(1)], 1)]
    requires s.batches == [Batch([] + [2] + [] + [], true)] && s.nextId == 3 && s.completed == [] && u in {1, 2}
    ensures Enabled(s, PostBatchPrivately(0, 0))
    ensures Held(Just(u), s) == 1 && Held(Just(u), Deviations.LiteralSplice(s, 0, 0)) == 0
  {
    Runs.InvHolds(states, steps, |steps|);
    Runs.ExactlyOnce(states, steps, |steps|, u);
    Deviations.LiteralSpliceLosesOperations(Just(u), s, 0, 0);
    assert s.batches[0].ops == [2];
    assert WeightOfIds(Just(u), [2]) == Just(u).Of(2) + WeightOfIds(Just(u), []);
    assert WeightOfOps(Just(u), [User(1)]) == Just(u).Of(1) + WeightOfOps(Just(u), []);
  }

  // ---- The late read of task_result_ ----

  // One guard, one descriptor with nothing queued, two threads.
  function Watched(sched: Sched, socket: Socket, result: Events): State
  {
    State(sched, [NEW_DESC], [socket], [result], [Free], [], 1, 0, 0, [])
  }

  function Pair(core: Core<nat>, a: Thread, b: Thread): Sched { Sched(core, [a, b], true, 0) }

  const WANTS := Thread(Wanting, [], 0)
  const POLLS := Thread(InTask(true), [], 0)
  const READABLE := NEW_SOCKET.(ready := [true, false, false], pending := [true, false, false])
  const SEEN := READABLE.(pending := QUIET)
  const BUSY: Core<nat> := Fresh<nat>(false, false).(word := 1, task := true, outstanding := 1)

  lemma Rises(s: State, j: Dir)
    requires Sized(s) && |s.descs| == 1
    ensures Enabled(s, Rise(0, j)) && Next(s, Rise(0, j)) == AfterRise(s, 0, j)
  {
  }

  lemma RegistersFirst(sched: Sched)
    ensures var s := Bare(sched, [], 0, []).(guards := 1);
      Enabled(s, Register(QUIET, AddOk)) && Next(s, Register(QUIET, AddOk)) == Watched(sched, NEW_SOCKET, {})
  {
  }

  lemma BecomesReadable(sched: Sched)
    ensures AfterRise(Watched(sched, NEW_SOCKET, {}), 0, READ) == Watched(sched, READABLE, {})
  {
    assert QUIET[READ := true] == [true, false, false];
    assert AfterRise(Watched(sched, NEW_SOCKET, {}), 0, READ).sockets == [READABLE];
  }

  lemma ReadySocket() returns (states: seq<State>, steps: seq<Step>)
    ensures Reaches(states, steps, Watched(Pair(Fresh<nat>(false, false).(outstanding := 1), IDLE, IDLE), READABLE, {}))
  {
    var s0 := Bare(Pair(Fresh<nat>(false, false), IDLE, IDLE), [], 0, []);
    var s1 := s0.(sched := AddOutstanding(s0.sched, 1), guards := 1);
    var s2, s3 := Watched(s1.sched, NEW_SOCKET, {}), Watched(s1.sched, READABLE, {});
    assert Reaches([s0], [], s0);
    Guarding(s0);
    RegistersFirst(s1.sched);
    Rises(s2, READ);
    BecomesReadable(s1.sched);
    Extend([s0], [], s0, GuardStarted, s1);
    Extend([s0] + [s1], [] + [GuardStarted], s1, Register(QUIET, AddOk), s2);
    states, steps := [s0] + [s1] + [s2], [] + [GuardStarted] + [Register(QUIET, AddOk)];
    Extend(states, steps, s2, Rise(0, READ), s3);
    states, steps := states + [s3], steps + [Rise(0, READ)];
  }

  lemma TaskQueued(socket: Socket)
    ensures var s := Watched(Pair(Fresh<nat>(false, false).(outstanding := 1), IDLE, IDLE), socket, {});
      Enabled(s, StartTask) && Next(s, StartTask) == Watched(Pair(BUSY.(ops := [Task]), IDLE, IDLE), socket, {})
  {
    var none: seq<Op<nat>> := [];
    assert none + [Task] == [Task];
  }

  lemma FirstPolls() returns (states: seq<State>, steps: seq<Step>)
    ensures Reaches(states, steps, Watched(Pair(BUSY.(interrupted := false), POLLS, WANTS), READABLE, {}))
  {
    states, steps := ReadySocket();
    var s0 := Watched(Pair(Fresh<nat>(false, false).(outstanding := 1), IDLE, IDLE), READABLE, {});
    var core := BUSY.(ops := [Task]);
    var s1 := Watched(Pair(core, IDLE, IDLE), READABLE, {});
    var s2, s3 := Watched(Pair(core, WANTS, IDLE), READABLE, {}), Watched(Pair(core, WANTS, WANTS), READABLE, {});
    var s4 := Watched(Pair(BUSY.(interrupted := false), POLLS, WANTS), READABLE, {});
    TaskQueued(READABLE);
    Entering(s1, 0);
    assert SetPc(s1.sched, 0, Wanting) == s2.sched;
    Entering(s2, 1);
    assert SetPc(s2.sched, 1, Wanting) == s3.sched;
    Acquiring(s3, 0);
    assert TakeTurn(core) == Pass(s4.sched.core, Effect(NoOne, false), Poll(true));
    assert Loop(s3.sched, s3.results, 0) == s4.sched;
    Extend(states, steps, s0, StartTask, s1);
    states, steps := states + [s1], steps + [StartTask];
    Extend(states, steps, s1, EnterRun(0), s2);
    states, steps := states + [s2], steps + [EnterRun(0)];
    Extend(states, steps, s2, EnterRun(1), s3);
    states, steps := states + [s3], steps + [EnterRun(1)];
    Extend(states, steps, s3, Acquire(0), s4);
    states, steps := states + [s4], steps + [Acquire(0)];
  }

  // epoll_wait reports the descriptor once.
  lemma Reporting(s: State, t: nat, events: Events)
    requires Sized(s) && |s.descs| == 1 && At(s, t) && s.sched.threads[t].pc.InTask? && s.sched.threads[t].privateOps == []
    requires forall j: Dir :: s.sockets[0].pending[j] ==> FlagOf(j) in events
    ensures var reports := [Ready(0, events)];
      && Enabled(s, EpollReturns(t, reports))
      && AfterEpoll(s, t, reports)
         == s.(sched := SetThread(s.sched, t, s.sched.threads[t].(pc := TaskReturned, privateOps := [Descriptor(0)]))
                         .(interrupt := s.sched.interrupt),
               sockets := [s.sockets[0].(pending := QUIET)], results := [events])
  {
    var reports := [Ready(0, events)];
    forall i, j: Dir | 0 <= i < |reports| && reports[i].Ready? && s.sockets[0].pending[j] && s.sockets[0].ready[j]
      ensures Covered(reports, 0, j)
    {
      assert reports[0].Ready? && reports[0].d == 0 && Selects(reports[0].events, j);
    }
    var g := Gathered([], s.results);
    assert reports[1..] == [];
    assert Absorb(g, reports[0]) == Gathered([Descriptor(0)], [events]);
    assert Gather(g, reports) == Gather(Absorb(g, reports[0]), []);
    var quiet := [s.sockets[0].(pending := QUIET)];
    assert s.sockets[0 := s.sockets[0].(pending := QUIET)] == quiet;
    assert Consume(s.sockets, reports) == Consume(quiet, []);
    assert Interrupter !in reports;
  }

  const HANDED := Thread(Performing(0, {EpollIn}), [], 0)

  // The harvest is spliced, and its descriptor popped by the same thread.
  lemma HandedOver(events: Events)
    requires events == {EpollIn}
    ensures var s := Watched(Pair(BUSY.(interrupted := false), Thread(TaskReturned, [Descriptor(0)], 0), WANTS), SEEN, events);
      && Enabled(s, FinishTask(0))
      && Next(s, FinishTask(0)) == Watched(Pair(BUSY.(ops := [Task]), HANDED, WANTS), SEEN, events)
  {
    var s := Watched(Pair(BUSY.(interrupted := false), Thread(TaskReturned, [Descriptor(0)], 0), WANTS), SEEN, events);
    var ended := EndTask(s.sched, 0);
    assert ended.core.ops == [Descriptor(0), Task];
    assert ended.core.ops[1..] == [Task];
    assert TakeTurn(ended.core) == Pass(BUSY.(ops := [Task]), Effect(NoOne, false), Execute(Descriptor(0)));
    assert Loop(ended, s.results, 0) == Pair(BUSY.(ops := [Task]), HANDED, WANTS);
  }

  lemma SecondPolls() returns (states: seq<State>, steps: seq<Step>)
    ensures Reaches(states, steps, Watched(Pair(BUSY.(interrupted := false), HANDED, POLLS), SEEN, {EpollIn}))
  {
    states, steps := FirstPolls();
    var s0 := Watched(Pair(BUSY.(interrupted := false), POLLS, WANTS), READABLE, {});
    var reports := [Ready(0, {EpollIn})];
    var s1 := Watched(Pair(BUSY.(interrupted := false), Thread(TaskReturned, [Descriptor(0)], 0), WANTS), SEEN, {EpollIn});
    var s2 := Watched(Pair(BUSY.(ops := [Task]), HANDED, WANTS), SEEN, {EpollIn});
    var s3 := Watched(Pair(BUSY.(interrupted := false), HANDED, POLLS), SEEN, {EpollIn});
    Reporting(s0, 0, {EpollIn});
    assert AfterEpoll(s0, 0, reports).sched.threads == s1.sched.threads;
    HandedOver({EpollIn});
    Acquiring(s2, 1);
    assert TakeTurn(s2.sched.core) == Pass(s3.sched.core, Effect(NoOne, false), Poll(true));
    assert Loop(s2.sched, s2.results, 1) == s3.sched;
    Extend(states, steps, s0, EpollReturns(0, reports), s1);
    states, steps := states + [s1], steps + [EpollReturns(0, reports)];
    Extend(states, steps, s1, FinishTask(0), s2);
    states, steps := states + [s2], steps + [FinishTask(0)];
    Extend(states, steps, s2, Acquire(1), s3);
    states, steps := states + [s3], steps + [Acquire(1)];
  }

  /** Thread 0 has popped a readable descriptor; urgent data arrives, and thread 1 in
      the reactor absorbs the report; read only now, task_result_ no longer selects
      the reading that thread 0 was handed. */
  lemma LateReadLosesAnEvent() returns (states: seq<State>, steps: seq<Step>)
    ensures IsRun(states, steps)
    ensures var s := states[|steps|];
      |s.results| == 1 && At(s, 0) && Carries(s.sched.threads[0].pc, 0, READ) && !Selects(s.results[0], READ)
  {
    states, steps := SecondPolls();
    var s0 := Watched(Pair(BUSY.(interrupted := false), HANDED, POLLS), SEEN, {EpollIn});
    var s1 := AfterRise(s0, 0, EXCEPT);
    var reports := [Ready(0, {EpollPri})];
    var s2 := AfterEpoll(s1, 1, reports);
    Rises(s0, EXCEPT);
    Reporting(s1, 1, {EpollPri});
    Extend(states, steps, s0, Rise(0, EXCEPT), s1);
    states, steps := states + [s1], steps + [Rise(0, EXCEPT)];
    Extend(states, steps, s1, EpollReturns(1, reports), s2);
    states, steps := states + [s2], steps + [EpollReturns(1, reports)];
  }
}
