/** No lost wake-up, stop reaches everyone, the packed event word and reactor
    exclusivity, as invariants of the part of the state the scheduler mutex
    guards. */
module WakeUps {
  import opened Prelude
  import opened EventWord
  import opened SchedulerCore
  import opened Descriptors
  import opened Protocol
  import opened Totals

  predicate Inside(th: Thread) { !th.pc.Outside? }

  predicate InBlockingTask(th: Thread) { th.pc.InTask? && th.pc.blocking }

  // Blocked until somebody else acts.
  predicate Blocked(sc: Sched, th: Thread)
  {
    th.pc.Waiting? || (InBlockingTask(th) && !sc.interrupt)
  }

  // Certain to come back to the queue by itself.
  predicate Driving(th: Thread)
  {
    Inside(th) && !th.pc.Waiting? && !th.pc.Notified? && !InBlockingTask(th)
  }

  function Tasks(ops: seq<Op<nat>>): nat
  {
    if ops == [] then 0 else (if ops[0].Task? then 1 else 0) + Tasks(ops[1..])
  }

  lemma {:induction false} TasksConcat(a: seq<Op<nat>>, b: seq<Op<nat>>)
    ensures Tasks(a + b) == Tasks(a) + Tasks(b)
  {
    if a == [] {
      assert a + b == b;
    } else {
      TasksConcat(a[1..], b);
      assert (a + b)[1..] == a[1..] + b;
    }
  }

  lemma {:induction false} NoTasks(ops: seq<Op<nat>>)
    requires forall i :: 0 <= i < |ops| ==> !ops[i].Task?
    ensures Tasks(ops) == 0
  {
    if ops != [] {
      NoTasks(ops[1..]);
    }
  }

  // ---- The invariants, thread t left out when t holds the mutex ----

  // state_ == 2 * waiters + signalled bit
  ghost predicate WordCounts(sc: Sched, waiters: int)
  {
    |sc.threads| < SIZE_LIMIT / 4 && sc.core.word < SIZE_LIMIT && sc.core.word / 2 == waiters
  }

  ghost predicate Exclusive(sc: Sched, polling: int)
  {
    Tasks(sc.core.ops) + polling == if sc.core.task then 1 else 0
  }

  ghost predicate StopReached(sc: Sched, t: int)
  {
    sc.core.stopped ==>
      Signalled(sc.core.word)
      && forall i :: 0 <= i < |sc.threads| && i != t ==>
           !sc.threads[i].pc.Waiting? && (InBlockingTask(sc.threads[i]) ==> sc.interrupt)
  }

  ghost predicate InterruptOnItsWay(sc: Sched, t: int)
  {
    sc.core.interrupted ==>
      forall i :: 0 <= i < |sc.threads| && i != t ==> (InBlockingTask(sc.threads[i]) ==> sc.interrupt)
  }

  ghost predicate SignalledIfWork(sc: Sched)
  {
    !sc.core.oneThread && sc.core.ops != [] ==> Signalled(sc.core.word)
  }

  // ---- What they are for ----

  ghost predicate SomeoneInside(sc: Sched)
  {
    exists i :: 0 <= i < |sc.threads| && Inside(sc.threads[i])
  }

  ghost predicate NotAllBlocked(sc: Sched)
  {
    exists i :: 0 <= i < |sc.threads| && Inside(sc.threads[i]) && !Blocked(sc, sc.threads[i])
  }

  ghost predicate SomeoneWaits(sc: Sched)
  {
    exists i :: 0 <= i < |sc.threads| && sc.threads[i].pc.Waiting?
  }

  ghost predicate SomeoneNotified(sc: Sched)
  {
    exists i :: 0 <= i < |sc.threads| && sc.threads[i].pc.Notified?
  }

  ghost predicate SomeoneDrives(sc: Sched)
  {
    exists i :: 0 <= i < |sc.threads| && Driving(sc.threads[i])
  }

  // A notification in transit excuses the thread it will reach, and only while
  // there is one to reach.
  ghost predicate NoLostWakeUp(sc: Sched)
  {
    !sc.core.stopped && sc.core.ops != [] ==>
      && (SomeoneInside(sc) ==> NotAllBlocked(sc) || (sc.notices > 0 && SomeoneWaits(sc)))
      && (!sc.core.oneThread && SomeoneWaits(sc) ==> SomeoneNotified(sc) || sc.notices > 0)
      && (!Signalled(sc.core.word) ==> SomeoneDrives(sc))
  }

  ghost predicate BaseInv(sc: Sched)
  {
    && WordCounts(sc, Total(Waiters, sc.threads))
    && Exclusive(sc, Total(InReactor, sc.threads))
    && StopReached(sc, -1)
    && InterruptOnItsWay(sc, -1)
  }

  ghost predicate WakeInv(sc: Sched)
  {
    && BaseInv(sc)
    && SignalledIfWork(sc)
    && NoLostWakeUp(sc)
  }

  // Thread t holds the mutex in the middle of a section: what it relies on
  // about the others.
  ghost predicate HeldInv(sc: Sched, t: nat)
  {
    && t < |sc.threads| && Inside(sc.threads[t]) && !sc.threads[t].pc.Waiting?
    && WordCounts(sc, Total(Waiters, sc.threads) - Of(Waiters, sc.threads[t]))
    && Exclusive(sc, Total(InReactor, sc.threads) - Of(InReactor, sc.threads[t]))
    && StopReached(sc, t)
    && InterruptOnItsWay(sc, t)
  }

  // ---- Preservation, section by section ----

  lemma NobodyPolls(sc: Sched, t: nat)
    requires t < |sc.threads| && Total(InReactor, sc.threads) - Of(InReactor, sc.threads[t]) == 0
    ensures forall i :: 0 <= i < |sc.threads| && i != t ==> !sc.threads[i].pc.InTask? && !sc.threads[i].pc.TaskReturned?
  {
    forall i | 0 <= i < |sc.threads| && i != t
      ensures !sc.threads[i].pc.InTask? && !sc.threads[i].pc.TaskReturned?
    {
      if i < t {
        TotalAtLeastTwo(InReactor, sc.threads, i, t);
      } else {
        TotalAtLeastTwo(InReactor, sc.threads, t, i);
      }
    }
  }

  // A waiter is counted in the word, so a word of at most 1 has none.
  lemma WaitersCounted(sc: Sched)
    requires WordCounts(sc, Total(Waiters, sc.threads))
    ensures SetBit(sc.core.word) <= 1 ==>
              forall i :: 0 <= i < |sc.threads| ==> !sc.threads[i].pc.Waiting? && !sc.threads[i].pc.Notified?
    ensures SetBit(sc.core.word) > 1 ==>
              exists i :: 0 <= i < |sc.threads| && (sc.threads[i].pc.Waiting? || sc.threads[i].pc.Notified?)
  {
    if SetBit(sc.core.word) <= 1 {
      forall i | 0 <= i < |sc.threads|
        ensures !sc.threads[i].pc.Waiting? && !sc.threads[i].pc.Notified?
      {
        TotalAtLeast(Waiters, sc.threads, i);
      }
    } else {
      var i := SomeContributes(Waiters, sc.threads);
    }
  }

  // With nobody waiting, a wake-up leaves no thread blocked in the reactor.
  lemma InterruptReaches(sc: Sched)
    requires BaseInv(sc) && SetBit(sc.core.word) <= 1
    ensures var sc' := Commit(sc, WakeOne(sc.core));
      sc'.threads == sc.threads && forall i :: 0 <= i < |sc.threads| ==> !Blocked(sc', sc.threads[i])
  {
    WaitersCounted(sc);
    forall i | 0 <= i < |sc.threads|
      ensures !Blocked(Commit(sc, WakeOne(sc.core)), sc.threads[i])
    {
      TotalAtLeast(InReactor, sc.threads, i);
    }
  }

  // With somebody waiting, a wake-up puts a notification in transit, and somebody
  // has been notified already or waits for it.
  lemma SignalReaches(sc: Sched)
    requires BaseInv(sc) && SetBit(sc.core.word) > 1
    ensures var sc' := Commit(sc, WakeOne(sc.core));
      sc'.notices > 0 && (NotAllBlocked(sc') || SomeoneWaits(sc'))
  {
    WaitersCounted(sc);
    var sc' := Commit(sc, WakeOne(sc.core));
    var i :| 0 <= i < |sc.threads| && (sc.threads[i].pc.Waiting? || sc.threads[i].pc.Notified?);
    if sc.threads[i].pc.Notified? {
      assert !Blocked(sc', sc'.threads[i]);
    } else {
      assert sc'.threads[i].pc.Waiting?;
    }
  }

  lemma WakeOneBase(sc: Sched)
    requires BaseInv(sc)
    ensures BaseInv(Commit(sc, WakeOne(sc.core)))
  {
    var r := WakeOne(sc.core);
    DeliverKeepsTotals(Waiters, sc.threads, r.effect.notify);
    DeliverKeepsTotals(InReactor, sc.threads, r.effect.notify);
  }

  /** wake_one_thread_and_unlock wakes a waiter, or else interrupts the reactor:
      whatever the section has put in the queue, and for both readings of the
      test at scheduler.cc:248. */
  lemma WakeOneKeeps(sc: Sched)
    requires BaseInv(sc)
    ensures WakeInv(Commit(sc, WakeOne(sc.core)))
  {
    WakeOneBase(sc);
    var sc' := Commit(sc, WakeOne(sc.core));
    if SetBit(sc.core.word) > 1 {
      SignalReaches(sc);
    } else {
      InterruptReaches(sc);
      WaitersCounted(sc);
    }
  }

  lemma PushKeeps(sc: Sched, ops: seq<Op<nat>>)
    requires WakeInv(sc)
    requires forall i :: 0 <= i < |ops| ==> !ops[i].Task?
    ensures WakeInv(Push(sc, ops))
  {
    TasksConcat(sc.core.ops, ops);
    NoTasks(ops);
    WakeOneKeeps(sc.(core := sc.core.(ops := sc.core.ops + ops)));
  }

  lemma StartTaskKeeps(sc: Sched)
    requires WakeInv(sc)
    ensures WakeInv(Commit(sc, SchedulerCore.InitTask(sc.core)))
  {
    if !sc.core.shutdown && !sc.core.task {
      TasksConcat(sc.core.ops, [Task]);
      WakeOneKeeps(sc.(core := sc.core.(task := true, ops := sc.core.ops + [Task])));
    } else {
      assert Commit(sc, SchedulerCore.InitTask(sc.core)) == sc;
    }
  }

  lemma StopKeeps(sc: Sched)
    requires WakeInv(sc)
    ensures WakeInv(Commit(sc, StopAll(sc.core)))
  {
    DeliverKeepsTotals(Waiters, sc.threads, All);
    DeliverKeepsTotals(InReactor, sc.threads, All);
    var sc' := Commit(sc, StopAll(sc.core));
    forall i | 0 <= i < |sc'.threads|
      ensures InBlockingTask(sc'.threads[i]) ==> sc'.interrupt
    {
      TotalAtLeast(InReactor, sc.threads, i);
    }
  }

  lemma RestartKeeps(sc: Sched)
    requires WakeInv(sc)
    ensures WakeInv(sc.(core := sc.core.(stopped := false)))
  {
    var sc' := sc.(core := sc.core.(stopped := false));
    if sc.core.stopped && SomeoneInside(sc') {
      var i :| 0 <= i < |sc'.threads| && Inside(sc'.threads[i]);
      assert !Blocked(sc', sc'.threads[i]);
    }
  }

  lemma WakeKeeps(sc: Sched, t: nat)
    requires WakeInv(sc) && t < |sc.threads| && sc.threads[t].pc.Waiting?
    ensures WakeInv(SetPc(sc, t, Notified))
  {
    var sc' := SetPc(sc, t, Notified);
    TotalUpdate(Waiters, sc.threads, t, sc'.threads[t]);
    TotalUpdate(InReactor, sc.threads, t, sc'.threads[t]);
    assert sc'.threads[t].pc.Notified?;
    if SomeoneDrives(sc) {
      var i :| 0 <= i < |sc.threads| && Driving(sc.threads[i]);
      assert Driving(sc'.threads[i]);
    }
  }

  /** A notification that arrives wakes a waiting thread, and is spent only if there
      is none. */
  lemma ArriveKeeps(sc: Sched, pick: nat)
    requires WakeInv(sc) && sc.notices > 0 && ValidPick(sc.threads, pick)
    ensures WakeInv(Arrive(sc, pick))
  {
    var sc' := Arrive(sc, pick);
    ArriveKeepsTotals(Waiters, sc, pick);
    ArriveKeepsTotals(InReactor, sc, pick);
    if SomeoneWaits(sc) {
      assert sc'.threads[pick].pc.Notified? && !Blocked(sc', sc'.threads[pick]);
    } else {
      assert sc'.threads == sc.threads;
    }
    if SomeoneDrives(sc) {
      var i :| 0 <= i < |sc.threads| && Driving(sc.threads[i]);
      assert Driving(sc'.threads[i]);
    }
  }

  // A change of thread t that concerns nobody else: it ends up driving, and is
  // counted as before.
  ghost predicate Harmless(old': Thread, new': Thread)
  {
    && Driving(new')
    && Of(Waiters, old') == 0 && Of(InReactor, old') == Of(InReactor, new')
  }

  lemma HarmlessKeeps(sc: Sched, t: nat, th: Thread, interrupt: bool, outstanding: int)
    requires WakeInv(sc) && t < |sc.threads| && Harmless(sc.threads[t], th)
    requires interrupt == sc.interrupt || Of(InReactor, th) == 1
    ensures WakeInv(SetThread(sc, t, th).(interrupt := interrupt, core := sc.core.(outstanding := outstanding)))
  {
    var sc' := SetThread(sc, t, th).(interrupt := interrupt, core := sc.core.(outstanding := outstanding));
    TotalUpdate(Waiters, sc.threads, t, th);
    TotalUpdate(InReactor, sc.threads, t, th);
    if Of(InReactor, th) == 1 {
      TotalAtLeast(InReactor, sc.threads, t);
      NobodyPolls(sc, t);
    }
    assert Driving(sc'.threads[t]) && !Blocked(sc', sc'.threads[t]);
    if SomeoneNotified(sc) {
      var i :| 0 <= i < |sc.threads| && sc.threads[i].pc.Notified?;
      assert sc'.threads[i].pc.Notified?;
    }
    if SomeoneWaits(sc') {
      var i :| 0 <= i < |sc'.threads| && sc'.threads[i].pc.Waiting?;
      assert sc.threads[i].pc.Waiting?;
    }
  }

  // ---- A pass of the loop ----

  lemma LoopTotals(sc: Sched, results: seq<Events>, t: nat, m: Measure)
    requires t < |sc.threads|
    ensures var pc := AfterTurn(TakeTurn(sc.core).turn, results);
      Total(m, Loop(sc, results, t).threads)
        == Total(m, sc.threads) - Of(m, sc.threads[t]) + Of(m, sc.threads[t].(pc := pc))
    ensures Of(m, sc.threads[t]) <= Total(m, sc.threads)
  {
    var p := TakeTurn(sc.core);
    var th := sc.threads[t].(pc := AfterTurn(p.turn, results));
    TotalUpdate(m, sc.threads, t, th);
    DeliverKeepsTotals(m, sc.threads[t := th], p.effect.notify);
    TotalAtLeast(m, sc.threads, t);
  }

  // The word arithmetic of a pass, on its own.
  lemma TurnWord(c: Core<nat>)
    requires c.word < SIZE_LIMIT && c.word / 2 < SIZE_LIMIT / 4
    requires c.stopped ==> Signalled(c.word)
    ensures var p := TakeTurn(c);
      && p.core.word < SIZE_LIMIT
      && p.core.word / 2 == c.word / 2 + (if p.turn.Block? then 1 else 0)
      && (!c.oneThread && p.core.ops != [] ==> Signalled(p.core.word))
  {
  }

  lemma LoopWord(sc: Sched, results: seq<Events>, t: nat)
    requires HeldInv(sc, t)
    ensures var sc' := Loop(sc, results, t);
      WordCounts(sc', Total(Waiters, sc'.threads)) && SignalledIfWork(sc')
  {
    LoopTotals(sc, results, t, Waiters);
    AtMostOneEach(sc.threads);
    TurnWord(sc.core);
  }

  // A pass takes the task out of the queue exactly when it goes on to poll.
  lemma TurnTasks(c: Core<nat>)
    ensures var p := TakeTurn(c);
      p.core.task == c.task && Tasks(p.core.ops) + (if p.turn.Poll? then 1 else 0) == Tasks(c.ops)
  {
  }

  lemma LoopExclusive(sc: Sched, results: seq<Events>, t: nat)
    requires HeldInv(sc, t)
    ensures var sc' := Loop(sc, results, t); Exclusive(sc', Total(InReactor, sc'.threads))
  {
    LoopTotals(sc, results, t, InReactor);
    TurnTasks(sc.core);
  }

  lemma LoopOthers(sc: Sched, results: seq<Events>, t: nat)
    requires HeldInv(sc, t)
    ensures var sc' := Loop(sc, results, t); StopReached(sc', -1) && InterruptOnItsWay(sc', -1)
  {
    LoopTotals(sc, results, t, InReactor);
    if sc.core.ops != [] && sc.core.ops[0].Task? {
      NobodyPolls(sc, t);
    }
  }

  // A pass that leaves work behind makes thread t drive.
  lemma LoopDrives(sc: Sched, results: seq<Events>, t: nat)
    requires t < |sc.threads|
    ensures var sc' := Loop(sc, results, t);
      !sc'.core.stopped && sc'.core.ops != [] ==> Driving(sc'.threads[t])
  {
  }

  // And, unless one_thread_, passes the signal on if somebody waits.
  lemma LoopSignals(sc: Sched, results: seq<Events>, t: nat, i: nat)
    requires HeldInv(sc, t) && !sc.core.oneThread
    requires var sc' := Loop(sc, results, t);
      !sc'.core.stopped && sc'.core.ops != [] && i < |sc'.threads| && sc'.threads[i].pc.Waiting?
    ensures Loop(sc, results, t).notices > 0
  {
    LoopDrives(sc, results, t);
    assert i != t && sc.threads[i].pc.Waiting?;
    WaiterInWord(sc, t, i);
  }

  lemma LoopProgress(sc: Sched, results: seq<Events>, t: nat)
    requires HeldInv(sc, t)
    ensures NoLostWakeUp(Loop(sc, results, t))
  {
    var sc' := Loop(sc, results, t);
    if !sc'.core.stopped && sc'.core.ops != [] {
      LoopDrives(sc, results, t);
      assert !Blocked(sc', sc'.threads[t]);
      if !sc.core.oneThread && SomeoneWaits(sc') {
        var i :| 0 <= i < |sc'.threads| && sc'.threads[i].pc.Waiting?;
        LoopSignals(sc, results, t, i);
      }
    }
  }

  lemma WaiterInWord(sc: Sched, t: nat, i: nat)
    requires HeldInv(sc, t) && i < |sc.threads| && i != t && sc.threads[i].pc.Waiting?
    ensures SetBit(sc.core.word) > 1
  {
    if i < t {
      TotalAtLeastTwo(Waiters, sc.threads, i, t);
    } else {
      TotalAtLeastTwo(Waiters, sc.threads, t, i);
    }
  }

  /** A pass of the loop in do_run_one loses no wake-up: a thread that pops while
      more is queued passes the signal on, one that blocks leaves nothing. */
  lemma LoopKeeps(sc: Sched, results: seq<Events>, t: nat)
    requires HeldInv(sc, t)
    ensures WakeInv(Loop(sc, results, t))
  {
    LoopWord(sc, results, t);
    LoopExclusive(sc, results, t);
    LoopOthers(sc, results, t);
    LoopProgress(sc, results, t);
  }

  lemma AcquireKeeps(sc: Sched, results: seq<Events>, t: nat)
    requires WakeInv(sc) && t < |sc.threads| && sc.threads[t].pc.Wanting?
    ensures WakeInv(Loop(sc, results, t))
  {
    LoopKeeps(sc, results, t);
  }

  lemma SplicedHeld(sc: Sched, t: nat)
    requires WakeInv(sc) && t < |sc.threads| && sc.threads[t].pc.Splicing?
    requires forall i :: 0 <= i < |sc.threads[t].privateOps| ==> !sc.threads[t].privateOps[i].Task?
    ensures HeldInv(SpliceOwn(sc, t), t)
  {
    var th := sc.threads[t].(privateOps := []);
    TotalUpdate(Waiters, sc.threads, t, th);
    TotalUpdate(InReactor, sc.threads, t, th);
    TasksConcat(sc.core.ops, sc.threads[t].privateOps);
    NoTasks(sc.threads[t].privateOps);
  }

  lemma SpliceKeeps(sc: Sched, results: seq<Events>, t: nat)
    requires WakeInv(sc) && t < |sc.threads| && sc.threads[t].pc.Splicing?
    requires forall i :: 0 <= i < |sc.threads[t].privateOps| ==> !sc.threads[t].privateOps[i].Task?
    ensures WakeInv(Loop(SpliceOwn(sc, t), results, t))
  {
    SplicedHeld(sc, t);
    LoopKeeps(SpliceOwn(sc, t), results, t);
  }

  lemma FinishTaskKeeps(sc: Sched, results: seq<Events>, t: nat)
    requires WakeInv(sc) && t < |sc.threads| && sc.threads[t].pc.TaskReturned?
    requires forall i :: 0 <= i < |sc.threads[t].privateOps| ==> !sc.threads[t].privateOps[i].Task?
    ensures WakeInv(Loop(EndTask(sc, t), results, t))
  {
    var th := sc.threads[t].(privateOps := [], privateWork := 0);
    var ops := sc.threads[t].privateOps;
    TotalUpdate(Waiters, sc.threads, t, th);
    TotalUpdate(InReactor, sc.threads, t, th);
    TotalAtLeast(InReactor, sc.threads, t);
    NobodyPolls(sc, t);
    TasksConcat(sc.core.ops + ops, [Task]);
    TasksConcat(sc.core.ops, ops);
    NoTasks(ops);
    LoopKeeps(EndTask(sc, t), results, t);
  }

  // A woken thread that finds the flag clear waits again: with work queued this
  // happens only under one_thread_, while another thread drives.
  lemma WaitAgain(sc: Sched, t: nat)
    requires WakeInv(sc) && t < |sc.threads| && sc.threads[t].pc.Notified? && !Signalled(sc.core.word)
    ensures WakeInv(SetPc(sc, t, Waiting).(core := sc.core))
  {
    var sc' := SetPc(sc, t, Waiting).(core := sc.core);
    TotalUpdate(Waiters, sc.threads, t, sc'.threads[t]);
    TotalUpdate(InReactor, sc.threads, t, sc'.threads[t]);
    if !sc.core.stopped && sc.core.ops != [] {
      var i :| 0 <= i < |sc.threads| && Driving(sc.threads[i]);
      assert Driving(sc'.threads[i]) && !Blocked(sc', sc'.threads[i]);
    }
  }

  // The waiter object of a woken thread is destroyed before it looks at the flag.
  lemma DroppedWaiter(sc: Sched, t: nat)
    requires WakeInv(sc) && t < |sc.threads| && sc.threads[t].pc.Notified?
    ensures DropWaiter(sc.core.word) == sc.core.word - 2 && AddWaiter(DropWaiter(sc.core.word)) == sc.core.word
    ensures HeldInv(sc.(core := sc.core.(word := DropWaiter(sc.core.word))), t)
  {
    TotalAtLeast(Waiters, sc.threads, t);
    AtMostOneEach(sc.threads);
  }

  lemma ResumeKeeps(sc: Sched, results: seq<Events>, t: nat)
    requires WakeInv(sc) && t < |sc.threads| && sc.threads[t].pc.Notified?
    ensures WakeInv(Reacquire(sc, results, t))
  {
    DroppedWaiter(sc, t);
    var w := DropWaiter(sc.core.word);
    if Signalled(w) {
      LoopKeeps(sc.(core := sc.core.(word := w)), results, t);
    } else {
      WaitAgain(sc, t);
    }
  }
}
