/** The whole completion engine as a state machine: any number of threads in
    run(), external posters, one thread at a time in the reactor, descriptors fed
    by a nondeterministic epoll. A step is one section guarded by the scheduler
    mutex, one atomic update, one perform() under a descriptor mutex, or one
    change of the environment. */
module Protocol {
  import opened Prelude
  import opened EventWord
  import opened SchedulerCore
  import opened Descriptors
  import opened Coalescing

  // ---- State ----

  datatype Pc =
    | Outside                        // not in run()
    | Wanting                        // wants the mutex at the top of the loop
    | Waiting                        // blocked in event::wait
    | Notified                       // woken, its waiter object still alive
    | Running(op: nat)               // executing a user operation
    | Performing(d: nat, events: Events)   // about to call perform_io
    | Scanning(d: nat, events: Events, left: nat, done: seq<nat>)  // in perform_io
    | Posting(first: nat, rest: seq<nat>)  // perform_io over, `rest` not yet posted
    | Compensated                    // perform_io completed nothing
    | Flushed                        // work_cleanup has added the private work
    | Stopping                       // work_finished reached zero, stop() to come
    | Splicing                       // work_cleanup looks at the private queue
    | InTask(blocking: bool)         // in epoll_wait
    | TaskReturned                   // task_cleanup wants the mutex

  datatype Thread = Thread(pc: Pc, privateOps: seq<Op<nat>>, privateWork: nat)

  // The part guarded by the scheduler mutex, the threads it wakes, whether the
  // interrupter is pending in epoll, and how many calls of notify_one are still to
  // come from threads that have released the mutex.
  datatype Sched = Sched(core: Core<nat>, threads: seq<Thread>, interrupt: bool, notices: nat)

  // The kernel's side of a descriptor.
  datatype Socket = Socket(interest: Events, ready: Bits, pending: Bits)

  // A descriptor's mutex: free, held inside start_op for `op`, which is still to
  // be placed or is queued and still to be charged, or held by a thread inside
  // perform_io.
  datatype Mutex =
    | Free
    | Starting(op: nat, j: Dir, speculative: bool)
    | Charging(op: nat, j: Dir)
    | ScannedBy(t: nat)

  // Operations handed to a post that has not yet taken the scheduler mutex.
  datatype Batch = Batch(ops: seq<nat>, deferred: bool)

  // descs, sockets, results (task_result_) and locks are indexed by descriptor.
  // `stops` counts the guards whose release found the counter at zero and whose
  // stop() is still to come.
  // Operation identifiers are handed out in order of submission.
  datatype State = State(
    sched: Sched,
    descs: seq<Desc>,
    sockets: seq<Socket>,
    results: seq<Events>,
    locks: seq<Mutex>,
    batches: seq<Batch>,
    guards: nat,
    stops: nat,
    nextId: nat,
    completed: seq<nat>)

  predicate Sized(s: State)
  {
    |s.descs| == |s.sockets| == |s.results| == |s.locks|
  }

  const IDLE := Thread(Outside, [], 0)

  // A size_t counts the waiters above the signalled bit, so more than 2^62
  // threads are not considered.
  ghost predicate Init(s: State)
  {
    && (exists one, guarded :: s.sched.core == Fresh<nat>(one, guarded))
    && |s.sched.threads| < SIZE_LIMIT / 4
    && (forall i :: 0 <= i < |s.sched.threads| ==> s.sched.threads[i] == IDLE)
    && s.sched.notices == 0
    && s.sched.interrupt  // the reactor's constructor signals the interrupter
    && s.descs == [] && s.sockets == [] && s.results == [] && s.locks == []
    && s.batches == [] && s.guards == 0 && s.stops == 0 && s.nextId == 0 && s.completed == []
  }

  // ---- Scheduler sections ----

  function Users(ops: seq<nat>): (r: seq<Op<nat>>)
    ensures |r| == |ops| && forall i :: 0 <= i < |r| ==> r[i] == User(ops[i])
  {
    if ops == [] then [] else [User(ops[0])] + Users(ops[1..])
  }

  function Awaken(th: Thread): Thread { if th.pc.Waiting? then th.(pc := Notified) else th }

  function AwakenAll(ths: seq<Thread>): (r: seq<Thread>)
    ensures |r| == |ths| && forall i :: 0 <= i < |r| ==> r[i] == Awaken(ths[i])
  {
    if ths == [] then [] else [Awaken(ths[0])] + AwakenAll(ths[1..])
  }

  // notify_all is called with the mutex held and wakes every waiting thread.
  function Deliver(ths: seq<Thread>, notify: Notify): (r: seq<Thread>)
    ensures |r| == |ths|
  {
    if notify.All? then AwakenAll(ths) else ths
  }

  /** What a section does to the part it guards and asks of the world. notify_one is
      called after the mutex has been released: it is in transit until then. */
  function Commit(sc: Sched, r: Result<nat>): Sched
  {
    Sched(r.core, Deliver(sc.threads, r.effect.notify), sc.interrupt || r.effect.interrupt,
          sc.notices + if r.effect.notify.One? then 1 else 0)
  }

  // notify_one wakes some waiting thread if there is one.
  predicate ValidPick(ths: seq<Thread>, pick: nat)
  {
    (exists i :: 0 <= i < |ths| && ths[i].pc.Waiting?) ==> pick < |ths| && ths[pick].pc.Waiting?
  }

  function Arrive(sc: Sched, pick: nat): Sched
    requires sc.notices > 0
  {
    sc.(threads := if pick < |sc.threads| then sc.threads[pick := Awaken(sc.threads[pick])] else sc.threads,
        notices := sc.notices - 1)
  }

  function Push(sc: Sched, ops: seq<Op<nat>>): Sched { Commit(sc, PushAndWake(sc.core, ops)) }

  function SetThread(sc: Sched, t: nat, th: Thread): Sched
    requires t < |sc.threads|
  {
    sc.(threads := sc.threads[t := th])
  }

  function SetPc(sc: Sched, t: nat, pc: Pc): Sched
    requires t < |sc.threads|
  {
    SetThread(sc, t, sc.threads[t].(pc := pc))
  }

  // Popping a descriptor operation reads its task_result_ in the same section.
  function AfterTurn(turn: Turn<nat>, results: seq<Events>): Pc
  {
    match turn
    case Leave => Outside
    case Block => Waiting
    case Poll(blocking) => InTask(blocking)
    case Execute(User(u)) => Running(u)
    case Execute(Descriptor(d)) => Performing(d, if d < |results| then results[d] else {})
    case Execute(Task) => Wanting
  }

  /** Thread t, holding the mutex, makes a pass of the loop in do_run_one. */
  function Loop(sc: Sched, results: seq<Events>, t: nat): Sched
    requires t < |sc.threads|
  {
    var p := TakeTurn(sc.core);
    Commit(SetPc(sc, t, AfterTurn(p.turn, results)), Result(p.core, p.effect))
  }

  function SpliceOwn(sc: Sched, t: nat): Sched
    requires t < |sc.threads|
  {
    var th := sc.threads[t];
    SetThread(sc.(core := sc.core.(ops := sc.core.ops + th.privateOps)), t, th.(privateOps := []))
  }

  // The destructor of task_cleanup, up to the end of its section.
  function EndTask(sc: Sched, t: nat): Sched
    requires t < |sc.threads|
  {
    var th := sc.threads[t];
    SetThread(sc.(core := CleanUpTask(sc.core, th.privateOps, th.privateWork)), t,
              th.(privateOps := [], privateWork := 0))
  }

  // A thread back from cond_.wait, holding the mutex.
  function Reacquire(sc: Sched, results: seq<Events>, t: nat): Sched
    requires t < |sc.threads|
  {
    var w := DropWaiter(sc.core.word);
    if Signalled(w) then Loop(sc.(core := sc.core.(word := w)), results, t)
    else SetPc(sc.(core := sc.core.(word := AddWaiter(w))), t, Waiting)
  }

  function AddOutstanding(sc: Sched, n: int): Sched
  {
    sc.(core := sc.core.(outstanding := sc.core.outstanding + n))
  }

  // Adding the private work to the common counter (work_cleanup).
  function FlushWork(sc: Sched, t: nat): Sched
    requires t < |sc.threads|
  {
    var th := sc.threads[t];
    SetThread(AddOutstanding(sc, th.privateWork), t, th.(pc := Flushed, privateWork := 0))
  }

  function GiveBack(sc: Sched, t: nat): Sched
    requires t < |sc.threads|
  {
    SetPc(AddOutstanding(sc, -1), t, if sc.core.outstanding == 1 then Stopping else Splicing)
  }

  // ---- Posts ----

  // The thread whose handler makes the call, if it is made inside run().
  predicate ValidCaller(sc: Sched, caller: Option<nat>)
  {
    caller.Some? ==> caller.value < |sc.threads| && sc.threads[caller.value].pc.Running?
  }

  function AddPrivate(sc: Sched, t: nat, ops: seq<Op<nat>>, work: nat): Sched
    requires t < |sc.threads|
  {
    var th := sc.threads[t];
    SetThread(sc, t, th.(privateOps := th.privateOps + ops, privateWork := th.privateWork + work))
  }

  /** post_immediate_completion up to work_started(), or all of it on the
      private path. */
  function PostImmediate(s: State, u: nat, continuation: bool, caller: Option<nat>): State
    requires ValidCaller(s.sched, caller)
  {
    if caller.Some? && (s.sched.core.oneThread || continuation) then
      s.(sched := AddPrivate(s.sched, caller.value, [User(u)], 1))
    else
      s.(sched := AddOutstanding(s.sched, 1), batches := s.batches + [Batch([u], false)])
  }

  function Without<T>(xs: seq<T>, i: nat): seq<T>
    requires i < |xs|
  {
    xs[..i] + xs[i + 1..]
  }

  // ---- Descriptor sections ----

  // EPOLL_CTL_ADD and EPOLL_CTL_MOD report the current readiness.
  function Rearm(k: Socket, interest: Events): Socket
  {
    k.(interest := interest, pending := [
      k.pending[0] || (k.ready[0] && FlagOf(0) in interest),
      k.pending[1] || (k.ready[1] && FlagOf(1) in interest),
      k.pending[2] || (k.ready[2] && FlagOf(2) in interest)])
  }

  // A failed EPOLL_CTL_MOD changes nothing, in the branch that queues all the same
  // as in the one that gives up.
  function Controlled(k: Socket, r: Finished): Socket
  {
    if r.control.Modified? then Rearm(k, r.control.interest) else k
  }

  datatype Added = AddOk | AddNotPermitted | AddFailed

  function NewSocket(ready: Bits, added: Added): Socket
  {
    Rearm(Socket({}, ready, [false, false, false]), if added.AddOk? then ADD_EVENTS else {})
  }

  function SetReady(k: Socket, j: Dir, ready: bool): Socket { k.(ready := k.ready[j := ready]) }

  // A successful or failed attempt leaves the direction ready or not: not_done
  // means not ready, done_and_exhausted that nothing is left.
  predicate Oracle(k: Socket, j: Dir, status: Status, after: bool)
  {
    && (status.NotDone? <==> !k.ready[j])
    && (!status.Done? ==> !after)
  }

  // ---- Labels ----

  datatype Step =
    | Register(ready: Bits, added: Added)
    | StartOp(d: nat, j: Dir, allow: bool, status: Status, after: bool, continuation: bool, caller: Option<nat>)
    | FinishStart(d: nat, modOk: bool, continuation: bool, caller: Option<nat>)
    | ChargeStart(d: nat)
    | Cancel(d: nat)
    | Deregister(d: nat, closing: bool)
    | Rise(d: nat, j: Dir)
    | Fall(d: nat, j: Dir)
    | Post(continuation: bool, caller: Option<nat>)
    | PostBatch(i: nat)
    | PostBatchPrivately(i: nat, t: nat)
    | GuardStarted
    | GuardFinished
    | StopFromGuard
    | Stop
    | Restart
    | StartTask
    | Notify(pick: nat)
    | EnterRun(t: nat)
    | Acquire(t: nat)
    | Wake(t: nat)
    | Resume(t: nat)
    | FinishOp(t: nat)
    | FlushEmpty(t: nat)
    | WorkFinished(t: nat)
    | StopFromWork(t: nat)
    | Splice(t: nat)
    | BeginScan(t: nat)
    | ScanOne(t: nat, status: Status, after: bool)
    | EndScan(t: nat)
    | PostRest(t: nat)
    | EpollReturns(t: nat, reports: seq<Report>)
    | FinishTask(t: nat)

  // epoll_wait reports a pending direction that is still ready, and may report
  // more; `reports` covers every pending direction of a descriptor it names.
  ghost predicate Faithful(sockets: seq<Socket>, reports: seq<Report>)
    requires InRange(reports, |sockets|)
  {
    forall i, j: Dir :: 0 <= i < |reports| && reports[i].Ready?
      && sockets[reports[i].d].pending[j] && sockets[reports[i].d].ready[j]
      ==> Covered(reports, reports[i].d, j)
  }

  ghost predicate Covered(reports: seq<Report>, d: nat, j: Dir)
  {
    exists i :: 0 <= i < |reports| && reports[i].Ready? && reports[i].d == d && Selects(reports[i].events, j)
  }

  function Consume(sockets: seq<Socket>, reports: seq<Report>): (r: seq<Socket>)
    requires InRange(reports, |sockets|)
    ensures |r| == |sockets|
    decreases |reports|
  {
    if reports == [] then sockets
    else if reports[0].Interrupter? then Consume(sockets, reports[1..])
    else
      var d := reports[0].d;
      Consume(sockets[d := sockets[d].(pending := [false, false, false])], reports[1..])
  }

  predicate At(s: State, t: nat) { t < |s.sched.threads| }

  ghost predicate Enabled(s: State, step: Step)
  {
    && Sized(s)
    && match step
       case Register(_, _) => true
       case StartOp(d, j, allow, status, after, _, caller) =>
         && d < |s.descs| && s.locks[d].Free? && ValidCaller(s.sched, caller)
         && (Tries(s.descs[d], j, allow) ==> Oracle(s.sockets[d], j, status, after))
       case FinishStart(d, _, _, caller) => d < |s.descs| && s.locks[d].Starting? && ValidCaller(s.sched, caller)
       case ChargeStart(d) => d < |s.descs| && s.locks[d].Charging?
       case Cancel(d) => d < |s.descs| && s.locks[d].Free?
       case Deregister(d, _) => d < |s.descs| && s.locks[d].Free?
       case Rise(d, _) => d < |s.descs|
       case Fall(d, _) => d < |s.descs|
       case Post(_, caller) => ValidCaller(s.sched, caller)
       case PostBatch(i) => i < |s.batches|
       case PostBatchPrivately(i, t) =>
         && i < |s.batches| && s.batches[i].deferred && s.sched.core.oneThread
         && At(s, t) && s.sched.threads[t].pc.Running?
       case GuardStarted => true
       case GuardFinished => s.guards > 0
       case StopFromGuard => s.stops > 0
       case Stop => true
       case Restart => true
       case StartTask => true
       case Notify(pick) => s.sched.notices > 0 && ValidPick(s.sched.threads, pick)
       case EnterRun(t) => At(s, t) && s.sched.threads[t].pc.Outside?
       case Acquire(t) => At(s, t) && s.sched.threads[t].pc.Wanting?
       case Wake(t) => At(s, t) && s.sched.threads[t].pc.Waiting?
       case Resume(t) => At(s, t) && s.sched.threads[t].pc.Notified?
       case FinishOp(t) => At(s, t) && s.sched.threads[t].pc.Running?
       case FlushEmpty(t) => At(s, t) && s.sched.threads[t].pc.Compensated?
       case WorkFinished(t) => At(s, t) && s.sched.threads[t].pc.Flushed?
       case StopFromWork(t) => At(s, t) && s.sched.threads[t].pc.Stopping?
       case Splice(t) => At(s, t) && s.sched.threads[t].pc.Splicing?
       case BeginScan(t) =>
         && At(s, t) && s.sched.threads[t].pc.Performing?
         && var d := s.sched.threads[t].pc.d; d < |s.descs| && s.locks[d].Free?
       case ScanOne(t, status, after) =>
         && At(s, t) && s.sched.threads[t].pc.Scanning?
         && var pc := s.sched.threads[t].pc;
            && pc.d < |s.descs| && 0 < pc.left <= 3
            && (Performs(Scan(s.descs[pc.d], pc.left, pc.done), pc.events) ==>
                  Oracle(s.sockets[pc.d], pc.left - 1, status, after))
       case EndScan(t) =>
         && At(s, t) && s.sched.threads[t].pc.Scanning?
         && s.sched.threads[t].pc.left == 0 && s.sched.threads[t].pc.d < |s.descs|
       case PostRest(t) => At(s, t) && s.sched.threads[t].pc.Posting?
       case EpollReturns(t, reports) =>
         && At(s, t) && s.sched.threads[t].pc.InTask? && |reports| <= 128
         && InRange(reports, |s.sockets|) && Faithful(s.sockets, reports)
       case FinishTask(t) => At(s, t) && s.sched.threads[t].pc.TaskReturned?
  }

  // ---- Effects of the larger steps ----

  function AfterRegister(s: State, ready: Bits, added: Added): State
  {
    s.(descs := s.descs + [if added.AddNotPermitted? then NEW_DESC.(registered := {}) else NEW_DESC],
       sockets := s.sockets + [NewSocket(ready, added)],
       results := s.results + [{}],
       locks := s.locks + [Free])
  }

  // What start_op and its second half rely on.
  predicate CanStart(s: State, step: Step)
  {
    step.StartOp? && Sized(s) && step.d < |s.descs| && s.locks[step.d].Free? && ValidCaller(s.sched, step.caller)
  }

  predicate CanFinish(s: State, step: Step)
  {
    step.FinishStart? && Sized(s) && step.d < |s.descs| && s.locks[step.d].Starting? && ValidCaller(s.sched, step.caller)
  }

  // What start_op decides, and the state once perform() has been tried.
  function Begun(s: State, step: Step): Started
    requires CanStart(s, step)
  {
    StartBegin(s.descs[step.d], step.j, step.allow, step.status, s.nextId)
  }

  function Tried(s: State, step: Step): State
    requires CanStart(s, step)
  {
    s.(nextId := s.nextId + 1,
       descs := s.descs[step.d := Begun(s, step).desc],
       sockets := if Tries(s.descs[step.d], step.j, step.allow)
                  then s.sockets[step.d := SetReady(s.sockets[step.d], step.j, step.after)] else s.sockets)
  }

  function AfterStartOp(s: State, step: Step): State
    requires CanStart(s, step)
  {
    var s1 := Tried(s, step);
    match Begun(s, step).outcome
    case Complete => PostImmediate(s1, s.nextId, step.continuation, step.caller)
    case Queued => s1.(locks := s.locks[step.d := Charging(s.nextId, step.j)])
    case Hold(speculative) => s1.(locks := s.locks[step.d := Starting(s.nextId, step.j, speculative)])
  }

  // What the rest of start_op decides, and the state once the operation is queued
  // or refused.
  function Ended(s: State, step: Step): Finished
    requires CanFinish(s, step)
  {
    var m := s.locks[step.d];
    StartFinish(s.descs[step.d], m.j, m.speculative, step.modOk, m.op)
  }

  function Resolved(s: State, step: Step): State
    requires CanFinish(s, step)
  {
    s.(descs := s.descs[step.d := Ended(s, step).desc],
       locks := s.locks[step.d := if Ended(s, step).outcome.Queued? then Charging(s.locks[step.d].op, s.locks[step.d].j) else Free],
       sockets := s.sockets[step.d := Controlled(s.sockets[step.d], Ended(s, step))])
  }

  function AfterFinishStart(s: State, step: Step): State
    requires CanFinish(s, step)
  {
    var s1 := Resolved(s, step);
    if Ended(s, step).outcome.Complete? then PostImmediate(s1, s.locks[step.d].op, step.continuation, step.caller) else s1
  }

  // work_started() for the operation just queued, and the end of start_op.
  function AfterCharge(s: State, d: nat): State
    requires Sized(s) && d < |s.descs|
  {
    s.(sched := AddOutstanding(s.sched, 1), locks := s.locks[d := Free])
  }

  function AfterCancel(s: State, d: nat): State
    requires d < |s.descs|
  {
    s.(descs := s.descs[d := Cancelled(s.descs[d])],
       batches := s.batches + [Batch(AllQueued(s.descs[d]), true)])
  }

  function AfterDeregister(s: State, d: nat, closing: bool): State
    requires Sized(s) && d < |s.descs|
  {
    if s.descs[d].shutdown then s
    else
      var s1 := AfterCancel(s, d);
      var s2 := s1.(descs := s1.descs[d := s1.descs[d].(shutdown := true)]);
      if closing || s.descs[d].registered == {} then s2
      else s2.(sockets := s2.sockets[d := s2.sockets[d].(interest := {}, pending := [false, false, false])])
  }

  function AfterRise(s: State, d: nat, j: Dir): State
    requires Sized(s) && d < |s.descs|
  {
    var k := s.sockets[d];
    s.(sockets := s.sockets[d := SetReady(k, j, true).(pending := k.pending[j := k.pending[j] || FlagOf(j) in k.interest])])
  }

  function AfterBeginScan(s: State, t: nat): State
    requires Sized(s) && At(s, t) && s.sched.threads[t].pc.Performing? && s.sched.threads[t].pc.d < |s.descs|
  {
    var d := s.sched.threads[t].pc.d;
    var events := s.sched.threads[t].pc.events;
    var b := Descriptors.ScanBegin(s.descs[d], events);
    s.(sched := SetPc(s.sched, t, Scanning(d, events, b.left, b.done)),
       descs := s.descs[d := b.desc], locks := s.locks[d := ScannedBy(t)])
  }

  function AfterScanOne(s: State, t: nat, status: Status, after: bool): State
    requires Sized(s) && At(s, t) && s.sched.threads[t].pc.Scanning?
    requires s.sched.threads[t].pc.d < |s.descs| && 0 < s.sched.threads[t].pc.left <= 3
  {
    var pc := s.sched.threads[t].pc;
    var now := Scan(s.descs[pc.d], pc.left, pc.done);
    var next := ScanStep(now, pc.events, status);
    var s1 := s.(sched := SetPc(s.sched, t, Scanning(pc.d, pc.events, next.left, next.done)),
                 descs := s.descs[pc.d := next.desc]);
    if Performs(now, pc.events)
    then s1.(sockets := s.sockets[pc.d := SetReady(s.sockets[pc.d], pc.left - 1, after)]) else s1
  }

  function AfterEndScan(s: State, t: nat): State
    requires Sized(s) && At(s, t) && s.sched.threads[t].pc.Scanning? && s.sched.threads[t].pc.d < |s.descs|
  {
    var th := s.sched.threads[t];
    var th1 := if th.pc.done == [] then th.(pc := Compensated, privateWork := th.privateWork + 1)
               else if |th.pc.done| == 1 then th.(pc := Running(th.pc.done[0]))
               else th.(pc := Posting(th.pc.done[0], th.pc.done[1..]));
    s.(sched := SetThread(s.sched, t, th1), locks := s.locks[th.pc.d := Free])
  }

  function AfterPostRest(s: State, t: nat): State
    requires At(s, t) && s.sched.threads[t].pc.Posting?
  {
    var pc := s.sched.threads[t].pc;
    if s.sched.core.oneThread
    then s.(sched := SetPc(AddPrivate(s.sched, t, Users(pc.rest), 0), t, Running(pc.first)))
    else s.(sched := Push(SetPc(s.sched, t, Running(pc.first)), Users(pc.rest)))
  }

  function AfterSplice(s: State, t: nat): State
    requires At(s, t)
  {
    if s.sched.threads[t].privateOps == [] then s.(sched := SetPc(s.sched, t, Wanting))
    else s.(sched := Loop(SpliceOwn(s.sched, t), s.results, t))
  }

  function AfterEpoll(s: State, t: nat, reports: seq<Report>): State
    requires At(s, t) && InRange(reports, |s.sockets|) && Sized(s)
  {
    var th := s.sched.threads[t];
    var g := Gather(Gathered(th.privateOps, s.results), reports);
    s.(sched := SetThread(s.sched, t, th.(pc := TaskReturned, privateOps := g.ops))
                  .(interrupt := s.sched.interrupt && Interrupter !in reports),
       sockets := Consume(s.sockets, reports), results := g.results)
  }

  // The release of a guard is a work_finished(): at zero, stop() follows.
  function AfterGuard(s: State): State
    requires s.guards > 0
  {
    s.(sched := AddOutstanding(s.sched, -1), guards := s.guards - 1,
       stops := s.stops + if s.sched.core.outstanding == 1 then 1 else 0)
  }

  ghost function Next(s: State, step: Step): State
    requires Enabled(s, step)
  {
    match step
    case Register(ready, added) => AfterRegister(s, ready, added)
    case StartOp(_, _, _, _, _, _, _) => AfterStartOp(s, step)
    case FinishStart(_, _, _, _) => AfterFinishStart(s, step)
    case ChargeStart(d) => AfterCharge(s, d)
    case Cancel(d) => AfterCancel(s, d)
    case Deregister(d, closing) => AfterDeregister(s, d, closing)
    case Rise(d, j) => AfterRise(s, d, j)
    case Fall(d, j) => s.(sockets := s.sockets[d := SetReady(s.sockets[d], j, false)])
    case Post(continuation, caller) => PostImmediate(s.(nextId := s.nextId + 1), s.nextId, continuation, caller)
    case PostBatch(i) =>
      s.(sched := Push(s.sched, Users(s.batches[i].ops)), batches := Without(s.batches, i))
    case PostBatchPrivately(i, t) =>
      s.(sched := AddPrivate(s.sched, t, Users(s.batches[i].ops), 0), batches := Without(s.batches, i))
    case GuardStarted => s.(sched := AddOutstanding(s.sched, 1), guards := s.guards + 1)
    case GuardFinished => AfterGuard(s)
    case StopFromGuard => s.(sched := Commit(s.sched, StopAll(s.sched.core)), stops := s.stops - 1)
    case Stop => s.(sched := Commit(s.sched, StopAll(s.sched.core)))
    case Restart => s.(sched := s.sched.(core := s.sched.core.(stopped := false)))
    case Notify(pick) => s.(sched := Arrive(s.sched, pick))
    case StartTask => s.(sched := Commit(s.sched, SchedulerCore.InitTask(s.sched.core)))
    case EnterRun(t) =>
      if s.sched.core.outstanding == 0 then s.(sched := Commit(s.sched, StopAll(s.sched.core)))
      else s.(sched := SetPc(s.sched, t, Wanting))
    case Acquire(t) => s.(sched := Loop(s.sched, s.results, t))
    case Wake(t) => s.(sched := SetPc(s.sched, t, Notified))
    case Resume(t) => s.(sched := Reacquire(s.sched, s.results, t))
    case FinishOp(t) => s.(sched := FlushWork(s.sched, t), completed := s.completed + [s.sched.threads[t].pc.op])
    case FlushEmpty(t) => s.(sched := FlushWork(s.sched, t))
    case WorkFinished(t) => s.(sched := GiveBack(s.sched, t))
    case StopFromWork(t) =>
      s.(sched := Commit(SetPc(s.sched, t, Splicing), StopAll(s.sched.core)))
    case Splice(t) => AfterSplice(s, t)
    case BeginScan(t) => AfterBeginScan(s, t)
    case ScanOne(t, status, after) => AfterScanOne(s, t, status, after)
    case EndScan(t) => AfterEndScan(s, t)
    case PostRest(t) => AfterPostRest(s, t)
    case EpollReturns(t, reports) => AfterEpoll(s, t, reports)
    case FinishTask(t) => s.(sched := Loop(EndTask(s.sched, t), s.results, t))
  }

  // ---- Runs ----

  // Step k leads from state k to state k + 1.
  ghost predicate Taken(states: seq<State>, steps: seq<Step>, k: nat)
    requires k < |steps| && |states| == |steps| + 1
  {
    Enabled(states[k], steps[k]) && states[k + 1] == Next(states[k], steps[k])
  }

  /** states[0], steps[0], states[1], ... is a run of the machine. */
  ghost predicate IsRun(states: seq<State>, steps: seq<Step>)
  {
    && |states| == |steps| + 1
    && Init(states[0])
    && forall k :: 0 <= k < |steps| ==> Taken(states, steps, k)
  }
}
