/** Nobody is stuck: in every state of every run a descriptor's mutex can be released
    by its holder, and a thread inside run() that does not wait for a notification
    can go on, at once or as soon as the mutex it wants is free. */
module Progress {
  import opened Prelude
  import opened SchedulerCore
  import opened Descriptors
  import opened Coalescing
  import opened Protocol
  import opened LocalQueues
  import opened Scans
  import opened StartOps
  import opened Runs

  // What a perform() may return now.
  function Outcome(k: Socket, j: Dir): Status { if k.ready[j] then Done else NotDone }

  // The next step of whoever holds the mutex of d.
  function HolderStep(s: State, d: nat): Step
    requires Sized(s) && d < |s.descs| && !s.locks[d].Free?
  {
    match s.locks[d]
    case Starting(_, _, _) => FinishStart(d, true, false, None)
    case Charging(_, _) => ChargeStart(d)
    case ScannedBy(t) =>
      if At(s, t) && s.sched.threads[t].pc.Scanning? && 0 < s.sched.threads[t].pc.left <= 3
      then ScanOne(t, Outcome(s.sockets[d], s.sched.threads[t].pc.left - 1), false) else EndScan(t)
    case Free => ChargeStart(d)
  }

  lemma HolderCanMove(s: State, d: nat)
    requires ScansOk(s) && LocalInv(s) && d < |s.descs| && !s.locks[d].Free?
    ensures Enabled(s, HolderStep(s, d))
  {
    if s.locks[d].ScannedBy? {
      assert Shape(s.sched.threads[s.locks[d].t], |s.descs|);
    }
  }

  // How far the holder of the mutex of d is from releasing it.
  function Directions(s: State, d: nat): nat
    requires d < |s.locks|
  {
    if s.locks[d].ScannedBy? && At(s, s.locks[d].t) && s.sched.threads[s.locks[d].t].pc.Scanning?
    then s.sched.threads[s.locks[d].t].pc.left else 0
  }

  function Operations(s: State, d: nat): nat
    requires Sized(s) && d < |s.descs|
  {
    if 0 < Directions(s, d) <= 3 then |s.descs[d].queues[Directions(s, d) - 1]| else 0
  }

  function Stages(m: Mutex): nat { if m.Free? then 0 else if m.Starting? then 2 else 1 }

  predicate Nearer(s: State, s': State, d: nat)
    requires Sized(s) && Sized(s') && d < |s.descs| && d < |s'.descs|
  {
    || Directions(s', d) < Directions(s, d)
    || (Directions(s', d) == Directions(s, d) && Operations(s', d) < Operations(s, d))
    || (Directions(s', d) == Directions(s, d) && Operations(s', d) == Operations(s, d)
        && Stages(s'.locks[d]) < Stages(s.locks[d]))
  }

  lemma StartNearer(s: State, d: nat)
    requires Sized(s) && d < |s.descs| && (s.locks[d].Starting? || s.locks[d].Charging?)
    requires Enabled(s, HolderStep(s, d))
    ensures var s' := Next(s, HolderStep(s, d)); Sized(s') && |s'.descs| == |s.descs| && Nearer(s, s', d)
  {
    if s.locks[d].Starting? {
      FinishStartExactly(s, HolderStep(s, d));
    }
  }

  lemma ScanNearer(s: State, d: nat)
    requires ScansOk(s) && LocalInv(s) && d < |s.descs| && s.locks[d].ScannedBy? && Enabled(s, HolderStep(s, d))
    ensures var s' := Next(s, HolderStep(s, d)); Sized(s') && |s'.descs| == |s.descs| && Nearer(s, s', d)
  {
    assert Shape(s.sched.threads[s.locks[d].t], |s.descs|);
  }

  // states[0], steps[0], states[1], ... is a part of a run.
  ghost predicate Goes(states: seq<State>, steps: seq<Step>)
  {
    |states| == |steps| + 1 && forall k :: 0 <= k < |steps| ==> Taken(states, steps, k)
  }

  lemma GoesOn(s: State, step: Step, states: seq<State>, steps: seq<Step>)
    requires Enabled(s, step) && Goes(states, steps) && states[0] == Next(s, step)
    ensures Goes([s] + states, [step] + steps)
  {
    var states', steps' := [s] + states, [step] + steps;
    forall k | 0 <= k < |steps'|
      ensures Taken(states', steps', k)
    {
      if k > 0 {
        assert Taken(states, steps, k - 1);
      }
    }
  }

  // Threads that are not in perform_io stay as they are.
  predicate Spared(s: State, s': State)
  {
    && |s'.sched.threads| == |s.sched.threads|
    && forall t :: 0 <= t < |s.sched.threads| && !s.sched.threads[t].pc.Scanning? ==>
         s'.sched.threads[t] == s.sched.threads[t]
  }

  lemma StartSpares(s: State, d: nat)
    requires Sized(s) && d < |s.descs| && (s.locks[d].Starting? || s.locks[d].Charging?)
    requires Enabled(s, HolderStep(s, d))
    ensures Spared(s, Next(s, HolderStep(s, d)))
  {
    if s.locks[d].Starting? {
      FinishStartExactly(s, HolderStep(s, d));
    } else {
      assert Next(s, HolderStep(s, d)) == AfterCharge(s, d);
    }
  }

  lemma ScanSpares(s: State, t: nat, status: Status, after: bool)
    requires Sized(s) && At(s, t) && s.sched.threads[t].pc.Scanning? && s.sched.threads[t].pc.d < |s.descs|
    ensures 0 < s.sched.threads[t].pc.left <= 3 ==> Spared(s, AfterScanOne(s, t, status, after))
    ensures Spared(s, AfterEndScan(s, t))
  {
  }

  lemma HolderSpares(s: State, d: nat)
    requires ScansOk(s) && d < |s.descs| && !s.locks[d].Free? && Enabled(s, HolderStep(s, d))
    ensures Spared(s, Next(s, HolderStep(s, d)))
  {
    if s.locks[d].ScannedBy? {
      ScanSpares(s, s.locks[d].t, Outcome(s.sockets[d], if 0 < Directions(s, d) <= 3 then Directions(s, d) - 1 else 0), false);
    } else {
      StartSpares(s, d);
    }
  }

  lemma HolderMoves(s: State, d: nat) returns (s': State)
    requires Inv(s) && d < |s.descs| && !s.locks[d].Free?
    ensures Enabled(s, HolderStep(s, d)) && s' == Next(s, HolderStep(s, d)) && Inv(s')
    ensures |s'.descs| == |s.descs| && Nearer(s, s', d) && Spared(s, s')
  {
    HolderCanMove(s, d);
    s' := Next(s, HolderStep(s, d));
    if s.locks[d].ScannedBy? {
      ScanNearer(s, d);
    } else {
      StartNearer(s, d);
    }
    HolderSpares(s, d);
    InvStep(s, HolderStep(s, d));
  }

  // The holder's steps, one after the other, to the end.
  ghost predicate HeldIn(s: State, d: nat, step: Step)
  {
    Sized(s) && d < |s.descs| && !s.locks[d].Free? && step == HolderStep(s, d)
  }

  ghost predicate Releases(states: seq<State>, steps: seq<Step>, d: nat)
  {
    && Goes(states, steps)
    && (forall k :: 0 <= k < |steps| ==> HeldIn(states[k], d, steps[k]))
    && Sized(states[|steps|]) && d < |states[|steps|].descs| && states[|steps|].locks[d].Free?
  }

  lemma ReleasesOn(s: State, step: Step, states: seq<State>, steps: seq<Step>, d: nat)
    requires HeldIn(s, d, step) && Enabled(s, step)
    requires Releases(states, steps, d) && states[0] == Next(s, step)
    ensures Releases([s] + states, [step] + steps, d)
  {
    var states', steps' := [s] + states, [step] + steps;
    GoesOn(s, step, states, steps);
    forall k | 0 <= k < |steps'|
      ensures HeldIn(states'[k], d, steps'[k])
    {
      if k > 0 {
        assert HeldIn(states[k - 1], d, steps[k - 1]);
      }
    }
  }

  /** Whatever holds a descriptor's mutex releases it by steps of its own, and moves no
      thread that is not in perform_io. */
  lemma MutexIsReleased(s: State, d: nat) returns (states: seq<State>, steps: seq<Step>)
    requires Inv(s) && d < |s.descs|
    ensures Releases(states, steps, d) && states[0] == s && Spared(s, states[|steps|])
    decreases Directions(s, d), Operations(s, d), Stages(s.locks[d])
  {
    if s.locks[d].Free? {
      states, steps := [s], [];
    } else {
      var s' := HolderMoves(s, d);
      states, steps := MutexIsReleased(s', d);
      ReleasesOn(s, HolderStep(s, d), states, steps, d);
      states, steps := [s] + states, [HolderStep(s, d)] + steps;
    }
  }

  // The next step of thread t.
  function OwnStep(s: State, t: nat): Step
    requires Sized(s) && At(s, t)
  {
    match s.sched.threads[t].pc
    case Outside => EnterRun(t)
    case Wanting => Acquire(t)
    case Waiting => Wake(t)
    case Notified => Resume(t)
    case Running(_) => FinishOp(t)
    case Performing(_, _) => BeginScan(t)
    case Scanning(d, _, left, _) =>
      if d < |s.sockets| && 0 < left <= 3 then ScanOne(t, Outcome(s.sockets[d], left - 1), false) else EndScan(t)
    case Posting(_, _) => PostRest(t)
    case Compensated => FlushEmpty(t)
    case Flushed => WorkFinished(t)
    case Stopping => StopFromWork(t)
    case Splicing => Splice(t)
    case InTask(_) => EpollReturns(t, [])
    case TaskReturned => FinishTask(t)
  }

  lemma ThreadCanMove(s: State, t: nat)
    requires ScansOk(s) && LocalInv(s) && At(s, t) && !s.sched.threads[t].pc.Performing?
    ensures Enabled(s, OwnStep(s, t))
  {
    assert Shape(s.sched.threads[t], |s.descs|);
  }

  /** No deadlock: a thread that has not to wait for a notification can take its next
      step, unless it is about to perform I/O on a descriptor whose mutex is held; then
      the holder can take its own until the mutex is free, and the thread its next. */
  lemma NobodyIsStuck(states: seq<State>, steps: seq<Step>, i: nat, t: nat)
    returns (later: seq<State>, taken: seq<Step>, d: nat)
    requires IsRun(states, steps) && i < |states| && At(states[i], t)
    ensures Sized(states[i])
    ensures if states[i].sched.threads[t].pc.Performing? then
        && Releases(later, taken, d) && later[0] == states[i] && d == states[i].sched.threads[t].pc.d
        && Enabled(later[|taken|], BeginScan(t))
      else Enabled(states[i], OwnStep(states[i], t))
  {
    InvHolds(states, steps, i);
    var s := states[i];
    later, taken, d := [s], [], 0;
    if s.sched.threads[t].pc.Performing? {
      assert Shape(s.sched.threads[t], |s.descs|);
      d := s.sched.threads[t].pc.d;
      later, taken := MutexIsReleased(s, d);
    } else {
      ThreadCanMove(s, t);
    }
  }

  // ---- Calls from outside ----

  /** Nothing keeps anybody from posting, registering, stopping, restarting, starting
      the task or taking a guard, nor (below) a guard from being released and a post, a
      stop or a notification under way from arriving. */
  lemma CallsAreOpen(s: State, ready: Bits, added: Added, continuation: bool, caller: Option<nat>)
    requires Sized(s) && ValidCaller(s.sched, caller)
    ensures Enabled(s, Post(continuation, caller)) && Enabled(s, Register(ready, added))
    ensures Enabled(s, Stop) && Enabled(s, Restart) && Enabled(s, StartTask) && Enabled(s, GuardStarted)
  {
  }

  lemma ArrivalsAreOpen(s: State) returns (pick: nat)
    requires Sized(s)
    ensures (s.guards > 0 ==> Enabled(s, GuardFinished)) && (s.stops > 0 ==> Enabled(s, StopFromGuard))
    ensures forall i :: 0 <= i < |s.batches| ==> Enabled(s, PostBatch(i))
    ensures s.sched.notices > 0 ==> Enabled(s, Notify(pick))
  {
    if t :| 0 <= t < |s.sched.threads| && s.sched.threads[t].pc.Waiting? {
      pick := t;
    } else {
      pick := 0;
    }
  }

  /** Every call on a descriptor whose mutex is free goes ahead, its socket changes at
      any time, and whatever is pending there can be reported to a thread in the
      reactor. */
  lemma DescriptorIsOpen(s: State, d: nat, j: Dir, allow: bool, closing: bool, caller: Option<nat>, continuation: bool, t: nat)
    requires Sized(s) && d < |s.descs| && ValidCaller(s.sched, caller)
    ensures Enabled(s, Rise(d, j)) && Enabled(s, Fall(d, j))
    ensures s.locks[d].Free? ==>
      && Enabled(s, Step.Cancel(d)) && Enabled(s, Deregister(d, closing))
      && Enabled(s, StartOp(d, j, allow, Outcome(s.sockets[d], j), false, continuation, caller))
    ensures At(s, t) && s.sched.threads[t].pc.InTask? ==>
      Enabled(s, EpollReturns(t, [Ready(d, {EpollIn, EpollPri, EpollOut})]))
  {
    var reports := [Ready(d, {EpollIn, EpollPri, EpollOut})];
    forall i: Dir
      ensures Covered(reports, d, i)
    {
      assert Selects(reports[0].events, i);
    }
  }
}
