/** The class `scheduler` (scheduler.hpp, scheduler.cc). Each method is one or
    more sections on the object's fields and is proved to do what the functions
    of SchedulerCore say, which Protocol interleaves. What a method asks of the
    condition variable and the reactor is its `effect`. */
module SchedulerClass {
  import opened Prelude
  import opened EventWord
  import opened OpQueues
  import opened SchedulerCore

  // scheduler_thread_info
  class ThreadInfo<H(==)> {
    const privateOps: OpQueue<Op<H>>
    var privateWork: nat

    constructor ()
      ensures fresh(privateOps) && privateOps.c == [] && privateWork == 0
    {
      privateOps := new OpQueue();
      privateWork := 0;
    }
  }

  class Scheduler<H(==)> {
    const oneThread: bool
    const guardedWake: bool
    const wakeup: Event
    const opQueue: OpQueue<Op<H>>
    var task: bool
    var taskInterrupted: bool
    var outstanding: int
    var stopped: bool
    var isShutdown: bool

    ghost predicate Valid()
      reads this, wakeup
    {
      wakeup.Valid()
    }

    /** The fields as one value. */
    ghost function View(): Core<H>
      reads this, wakeup, opQueue
    {
      Core(opQueue.c, wakeup.state, stopped, isShutdown, task, taskInterrupted, outstanding, oneThread, guardedWake)
    }

    // A wake-up: the flag is set and one waiter notified, or with none the reactor is
    // interrupted, unless that is on its way already and the test asks.
    ghost predicate Woken(event: Simple, interrupted: bool, effect: Effect)
      reads this, wakeup
    {
      && wakeup.Value() == event.(signalled := true)
      && effect.notify == (if event.waiters > 0 then One else NoOne)
      && (effect.interrupt <==> event.waiters == 0 && task && !(guardedWake && interrupted))
      && (taskInterrupted <==> interrupted || effect.interrupt)
    }

    constructor (concurrencyHint: int, guardedWake: bool)
      ensures Valid() && fresh(wakeup) && fresh(opQueue)
      ensures View() == Fresh(concurrencyHint == 1, guardedWake)
    {
      this.oneThread := concurrencyHint == 1;
      this.guardedWake := guardedWake;
      wakeup := new Event();
      opQueue := new OpQueue();
      task, taskInterrupted, outstanding, stopped, isShutdown := false, true, 0, false, false;
    }

    method WakeOneThreadAndUnlock() returns (effect: Effect)
      requires Valid()
      modifies this`taskInterrupted, wakeup
      ensures Valid() && View() == WakeOne(old(View())).core && effect == WakeOne(old(View())).effect
      ensures Woken(old(wakeup.Value()), old(taskInterrupted), effect)
    {
      var unlocked, notify := wakeup.MaybeUnlockAndSignalOne();
      var interrupt := false;
      if !unlocked {
        if (!guardedWake || !taskInterrupted) && task {
          taskInterrupted := true;
          interrupt := true;
        }
      }
      effect := Effect(notify, interrupt);
    }

    method StopAllThreads() returns (effect: Effect)
      requires Valid()
      modifies this`stopped, this`taskInterrupted, wakeup
      ensures Valid() && View() == StopAll(old(View())).core && effect == StopAll(old(View())).effect
      ensures stopped && wakeup.Value() == old(wakeup.Value()).(signalled := true)
      ensures taskInterrupted == (old(taskInterrupted) || task) && effect == Effect(All, task && !old(taskInterrupted))
    {
      stopped := true;
      var notify := wakeup.SignalAll();
      var interrupt := false;
      if !taskInterrupted && task {
        taskInterrupted := true;
        interrupt := true;
      }
      effect := Effect(notify, interrupt);
    }

    method InitTask() returns (effect: Effect)
      requires Valid()
      modifies this`task, this`taskInterrupted, wakeup, opQueue
      ensures Valid()
      ensures View() == SchedulerCore.InitTask(old(View())).core && effect == SchedulerCore.InitTask(old(View())).effect
      ensures task == (old(task) || !isShutdown)
      ensures if task && !old(task) then
          opQueue.c == old(opQueue.c) + [Task] && Woken(old(wakeup.Value()), old(taskInterrupted), effect)
        else View() == old(View()) && effect == Effect(NoOne, false)
    {
      if !isShutdown && !task {
        task := true;
        opQueue.Push(Task);
        effect := WakeOneThreadAndUnlock();
      } else {
        effect := Effect(NoOne, false);
      }
    }

    method Restart()
      modifies this`stopped
      ensures View() == old(View()).(stopped := false)
    {
      stopped := false;
    }

    method WorkStarted()
      modifies this`outstanding
      ensures View() == old(View()).(outstanding := old(outstanding) + 1)
    {
      outstanding := outstanding + 1;
    }

    // Reaching zero stops the scheduler.
    method WorkFinished() returns (effect: Effect)
      requires Valid()
      modifies this`outstanding, this`stopped, this`taskInterrupted, wakeup
      ensures Valid()
      ensures var c := old(View()).(outstanding := old(outstanding) - 1);
        var r := if old(outstanding) == 1 then StopAll(c) else Result(c, Effect(NoOne, false));
        View() == r.core && effect == r.effect
      ensures outstanding == old(outstanding) - 1 && stopped == (old(stopped) || outstanding == 0)
      ensures if outstanding == 0 then wakeup.Value().signalled && effect.notify == All
        else wakeup.Value() == old(wakeup.Value()) && effect == Effect(NoOne, false)
    {
      outstanding := outstanding - 1;
      if outstanding == 0 {
        effect := StopAllThreads();
      } else {
        effect := Effect(NoOne, false);
      }
    }

    // `caller` is what thread_call_stack::contains(this) returns: the record of
    // this thread if it is inside run() of this scheduler.
    method CompensatingWorkStarted(caller: ThreadInfo<H>)
      modifies caller`privateWork
      ensures caller.privateWork == old(caller.privateWork) + 1
    {
      caller.privateWork := caller.privateWork + 1;
    }

    method PushAndWakeOne(op: Op<H>) returns (effect: Effect)
      requires Valid()
      modifies this`taskInterrupted, wakeup, opQueue
      ensures Valid()
      ensures View() == PushAndWake(old(View()), [op]).core && effect == PushAndWake(old(View()), [op]).effect
      ensures opQueue.c == old(opQueue.c) + [op] && Woken(old(wakeup.Value()), old(taskInterrupted), effect)
    {
      opQueue.Push(op);
      effect := WakeOneThreadAndUnlock();
    }

    method DoDispatch(op: Op<H>) returns (effect: Effect)
      requires Valid()
      modifies this`taskInterrupted, this`outstanding, wakeup, opQueue
      ensures Valid()
      ensures View() == PostShared(old(View()), op).core && effect == PostShared(old(View()), op).effect
      ensures opQueue.c == old(opQueue.c) + [op] && outstanding == old(outstanding) + 1
      ensures Woken(old(wakeup.Value()), old(taskInterrupted), effect)
    {
      WorkStarted();
      effect := PushAndWakeOne(op);
    }

    /** An immediate completion charges one unit, privately or to the common
        counter, and queues the operation where it charges. */
    method PostImmediateCompletion(op: Op<H>, isContinuation: bool, caller: ThreadInfo?<H>) returns (effect: Effect)
      requires Valid() && (caller != null ==> caller.privateOps != opQueue)
      modifies this`taskInterrupted, this`outstanding, wakeup, opQueue
      modifies caller, if caller == null then {} else {caller.privateOps}
      ensures Valid()
      ensures if caller != null && (oneThread || isContinuation) then
          && View() == old(View()) && effect == Effect(NoOne, false)
          && caller.privateWork == old(caller.privateWork) + 1
          && caller.privateOps.c == old(caller.privateOps.c) + [op]
        else
          && View() == PostShared(old(View()), op).core && effect == PostShared(old(View()), op).effect
          && opQueue.c == old(opQueue.c) + [op] && outstanding == old(outstanding) + 1
          && Woken(old(wakeup.Value()), old(taskInterrupted), effect)
          && (caller != null ==> unchanged(caller) && unchanged(caller.privateOps))
    {
      if oneThread || isContinuation {
        if caller != null {
          caller.privateWork := caller.privateWork + 1;
          caller.privateOps.Push(op);
          return Effect(NoOne, false);
        }
      }
      WorkStarted();
      effect := PushAndWakeOne(op);
    }

    /** A deferred completion was charged when the operation was started. */
    method PostDeferredCompletion(op: Op<H>, caller: ThreadInfo?<H>) returns (effect: Effect)
      requires Valid() && (caller != null ==> caller.privateOps != opQueue)
      modifies this`taskInterrupted, wakeup, opQueue
      modifies if caller == null then {} else {caller.privateOps}
      ensures Valid()
      ensures if caller != null && oneThread then
          && View() == old(View()) && effect == Effect(NoOne, false)
          && caller.privateOps.c == old(caller.privateOps.c) + [op]
        else
          && View() == PushAndWake(old(View()), [op]).core && effect == PushAndWake(old(View()), [op]).effect
          && opQueue.c == old(opQueue.c) + [op] && Woken(old(wakeup.Value()), old(taskInterrupted), effect)
          && (caller != null ==> unchanged(caller.privateOps))
    {
      if oneThread {
        if caller != null {
          caller.privateOps.Push(op);
          return Effect(NoOne, false);
        }
      }
      effect := PushAndWakeOne(op);
    }

    // scheduler.cc:219 splices the private queue into `batch`; as evidently
    // meant, the batch goes to the private queue (see Deviations).
    method PostDeferredCompletions(batch: OpQueue<Op<H>>, caller: ThreadInfo?<H>) returns (effect: Effect)
      requires Valid() && batch != opQueue
      requires caller != null ==> caller.privateOps != opQueue && caller.privateOps != batch
      modifies this`taskInterrupted, wakeup, opQueue, batch
      modifies if caller == null then {} else {caller.privateOps}
      ensures Valid() && batch.c == []
      ensures if caller != null && oneThread then
          && View() == old(View()) && effect == Effect(NoOne, false)
          && caller.privateOps.c == old(caller.privateOps.c) + old(batch.c)
        else
          && (var r := PushAndWake(old(View()), old(batch.c)); View() == r.core && effect == r.effect)
          && opQueue.c == old(opQueue.c) + old(batch.c) && Woken(old(wakeup.Value()), old(taskInterrupted), effect)
          && (caller != null ==> unchanged(caller.privateOps))
    {
      if oneThread {
        if caller != null {
          caller.privateOps.PushAll(batch);
          return Effect(NoOne, false);
        }
      }
      opQueue.PushAll(batch);
      effect := WakeOneThreadAndUnlock();
    }

    // The abandoned operations die with a local queue.
    method AbandonOperations(batch: OpQueue<Op<H>>) returns (abandoned: seq<Op<H>>)
      modifies batch
      ensures abandoned == old(batch.c) && batch.c == []
    {
      var local := new OpQueue<Op<H>>();
      local.PushAll(batch);
      abandoned := local.c;
    }

    /** One pass of the loop in do_run_one, with the mutex held. */
    method Turn() returns (effect: Effect, turn: Turn<H>)
      requires Valid() && wakeup.state + 2 < SIZE_LIMIT
      modifies this`taskInterrupted, wakeup, opQueue
      ensures Valid()
      ensures var p := TakeTurn(old(View())); View() == p.core && effect == p.effect && turn == p.turn
      ensures if stopped then turn == Leave && View() == old(View()) && effect == Effect(NoOne, false)
        else if old(opQueue.c) == [] then
          && turn == Block && opQueue.c == [] && effect == Effect(NoOne, false) && taskInterrupted == old(taskInterrupted)
          && wakeup.Value() == Simple(false, old(wakeup.Value()).waiters + 1)
        else
          var o, more := old(opQueue.c)[0], |old(opQueue.c)| > 1;
          var passes := more && !oneThread;
          && opQueue.c == old(opQueue.c)[1..] && turn == (if o.Task? then Poll(!more) else Execute(o))
          && taskInterrupted == (if o.Task? then more else old(taskInterrupted))
          && wakeup.Value() == (if passes then old(wakeup.Value()).(signalled := true) else old(wakeup.Value()))
          && effect == Effect(if passes && old(wakeup.Value()).waiters > 0 then One else NoOne, false)
    {
      effect := Effect(NoOne, false);
      if stopped {
        turn := Leave;
      } else {
        var o := opQueue.Front();
        if o.Some? {
          opQueue.Pop();
          var moreHandlers := opQueue.c != [];
          if o.value.Task? {
            taskInterrupted := moreHandlers;
            turn := Poll(!moreHandlers);
          } else {
            turn := Execute(o.value);
          }
          if moreHandlers && !oneThread {
            var notify := wakeup.UnlockAndSignalOne();
            effect := Effect(notify, false);
          }
        } else {
          wakeup.Clear();
          wakeup.BeginWait();
          turn := Block;
        }
      }
    }

    // The start of both clean-up destructors.
    method FlushWork(thread: ThreadInfo<H>)
      modifies this`outstanding, thread`privateWork
      ensures View() == old(View()).(outstanding := old(outstanding) + old(thread.privateWork)) && thread.privateWork == 0
    {
      if thread.privateWork > 0 {
        outstanding := outstanding + thread.privateWork;
      }
      thread.privateWork := 0;
    }

    /** ~task_cleanup: the reactor's harvest goes in front of task_operation_. */
    method TaskCleanup(thread: ThreadInfo<H>)
      requires thread.privateOps != opQueue
      modifies this`outstanding, this`taskInterrupted, opQueue, thread, thread.privateOps
      ensures thread.privateWork == 0 && thread.privateOps.c == []
      ensures View() == CleanUpTask(old(View()), old(thread.privateOps.c), old(thread.privateWork))
      ensures opQueue.c == old(opQueue.c) + old(thread.privateOps.c) + [Task] && taskInterrupted
      ensures outstanding == old(outstanding) + old(thread.privateWork)
    {
      FlushWork(thread);
      opQueue.PushAll(thread.privateOps);
      taskInterrupted := true;
      opQueue.Push(Task);
    }

    // The end of ~work_cleanup.
    method SpliceOwn(thread: ThreadInfo<H>)
      requires thread.privateOps != opQueue
      modifies opQueue, thread.privateOps
      ensures View() == old(View()).(ops := old(opQueue.c) + old(thread.privateOps.c)) && thread.privateOps.c == []
    {
      if thread.privateOps.c != [] {
        opQueue.PushAll(thread.privateOps);
      } else {
        assert opQueue.c + [] == opQueue.c;
      }
    }

    /** ~work_cleanup: the private work is added before the unit of the completed
        operation is given back, and the private queue is spliced last. */
    method WorkCleanup(thread: ThreadInfo<H>) returns (effect: Effect)
      requires Valid() && thread.privateOps != opQueue
      modifies this`outstanding, this`stopped, this`taskInterrupted, wakeup, opQueue, thread, thread.privateOps
      ensures Valid() && thread.privateWork == 0 && thread.privateOps.c == []
      ensures var r := CleanUpWork(old(View()), old(thread.privateOps.c), old(thread.privateWork));
        View() == r.core && effect == r.effect
      ensures opQueue.c == old(opQueue.c) + old(thread.privateOps.c)
      ensures outstanding == old(outstanding) + old(thread.privateWork) - 1 && stopped == (old(stopped) || outstanding == 0)
      ensures if outstanding == 0 then wakeup.Value().signalled && effect.notify == All else effect == Effect(NoOne, false)
    {
      ghost var c, own, work := View(), thread.privateOps.c, thread.privateWork;
      FlushWork(thread);
      effect := WorkFinished();
      SpliceOwn(thread);
      SplicedLast(c, own, work);
    }

    /** shutdown(), with no thread in run(): every queued operation but
        task_operation_ is destroyed, once and in order. */
    method Shutdown() returns (destroyed: seq<Op<H>>)
      modifies this`isShutdown, this`task, opQueue
      ensures View() == old(View()).(shutdown := true, task := false, ops := [])
      ensures destroyed == WithoutTask(old(opQueue.c))
    {
      isShutdown := true;
      destroyed := [];
      var o := opQueue.Front();
      while o.Some?
        invariant o == if opQueue.c == [] then None else Some(opQueue.c[0])
        invariant destroyed + WithoutTask(opQueue.c) == WithoutTask(old(opQueue.c))
        modifies opQueue
        decreases |opQueue.c|
      {
        WithoutTaskCons(opQueue.c, destroyed);
        opQueue.Pop();
        destroyed := destroyed + if o.value.Task? then [] else [o.value];
        o := opQueue.Front();
      }
      assert destroyed + [] == destroyed;
      task := false;
    }
  }

  // The splice may come after the stop: stopping neither looks at the queue nor
  // changes it.
  lemma SplicedLast<H>(c: Core<H>, own: seq<Op<H>>, work: nat)
    ensures var c1 := c.(outstanding := c.outstanding + work - 1);
      var r := if c1.outstanding == 0 then StopAll(c1) else Result(c1, Effect(NoOne, false));
      CleanUpWork(c, own, work) == Result(r.core.(ops := r.core.ops + own), r.effect)
  {
  }

  function WithoutTask<H>(ops: seq<Op<H>>): seq<Op<H>>
  {
    if ops == [] then [] else (if ops[0].Task? then [] else [ops[0]]) + WithoutTask(ops[1..])
  }

  lemma {:induction false} WithoutTaskCons<H>(ops: seq<Op<H>>, destroyed: seq<Op<H>>)
    requires ops != []
    ensures destroyed + WithoutTask(ops)
         == (destroyed + if ops[0].Task? then [] else [ops[0]]) + WithoutTask(ops[1..])
  {
    var first := if ops[0].Task? then [] else [ops[0]];
    assert WithoutTask(ops) == first + WithoutTask(ops[1..]);
    assert destroyed + (first + WithoutTask(ops[1..])) == (destroyed + first) + WithoutTask(ops[1..]);
  }

  /** Shutdown destroys in the order of the queue: the operation at i is destroyed after
      just those in front of it that are not task_operation_. */
  lemma {:induction false} WithoutTaskInOrder<H>(ops: seq<Op<H>>, i: nat)
    requires i < |ops| && !ops[i].Task?
    ensures var before := i - multiset(ops[..i])[Task];
      0 <= before < |WithoutTask(ops)| && WithoutTask(ops)[before] == ops[i]
  {
    if i > 0 {
      WithoutTaskInOrder(ops[1..], i - 1);
      assert ops[..i] == [ops[0]] + ops[1..][..i - 1];
      assert multiset(ops[..i]) == multiset{ops[0]} + multiset(ops[1..][..i - 1]);
    }
  }

  /** Shutdown destroys every operation other than task_operation_ as often as it
      is queued, and nothing else. */
  lemma {:induction false} WithoutTaskSpec<H>(ops: seq<Op<H>>, o: Op<H>)
    ensures multiset(WithoutTask(ops))[o] == if o.Task? then 0 else multiset(ops)[o]
  {
    if ops != [] {
      var rest := WithoutTask(ops[1..]);
      WithoutTaskSpec(ops[1..], o);
      assert ops == [ops[0]] + ops[1..];
      assert multiset(ops) == multiset{ops[0]} + multiset(ops[1..]);
      if ops[0].Task? {
        assert WithoutTask(ops) == rest;
      } else {
        assert WithoutTask(ops) == [ops[0]] + rest;
        assert multiset(WithoutTask(ops)) == multiset{ops[0]} + multiset(rest);
      }
    }
  }
}
