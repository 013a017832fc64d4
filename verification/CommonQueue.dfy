/** The common queue of the scheduler over runs: it is first in, first out, and what
    a thread does next is what it has taken from the front. */
module CommonQueue {
  import opened Prelude
  import opened EventWord
  import opened SchedulerCore
  import opened Descriptors
  import opened Protocol
  import opened LocalQueues
  import opened Scans
  import opened Runs

  // What a step appends: a post's operations, the task, what a thread has kept to
  // itself, and at the end of the reactor's turn its harvest and then the task.
  function Appended(s: State, step: Step): seq<Op<nat>>
  {
    if step.PostBatch? && step.i < |s.batches| then Users(s.batches[step.i].ops)
    else if step.StartTask? && !s.sched.core.task && !s.sched.core.shutdown then [Task]
    else if (step.PostRest? || step.Splice? || step.FinishTask?) && At(s, step.t) then
      var th := s.sched.threads[step.t];
      if step.Splice? then th.privateOps
      else if step.FinishTask? then th.privateOps + [Task]
      else if th.pc.Posting? && !s.sched.core.oneThread then Users(th.pc.rest) else []
    else []
  }

  // The step makes a pass of the loop in do_run_one.
  predicate Turns(s: State, step: Step)
  {
    || step.Acquire?
    || (step.Resume? && Signalled(s.sched.core.word))
    || (step.Splice? && At(s, step.t) && s.sched.threads[step.t].privateOps != [])
    || step.FinishTask?
  }

  // And takes an operation: it is not stopped and there is one.
  predicate Takes(s: State, step: Step)
  {
    Turns(s, step) && !s.sched.core.stopped && s.sched.core.ops + Appended(s, step) != []
  }

  // What thread t does with the operation it has taken, `rest` being left.
  predicate GetsTo(s: State, s': State, t: nat, o: Op<nat>, rest: seq<Op<nat>>)
  {
    && At(s', t)
    && var pc := s'.sched.threads[t].pc;
       match o
       case User(u) => pc == Running(u)
       case Task => pc == InTask(rest == [])
       case Descriptor(d) => pc.Performing? && pc.d == d && (d < |s.results| ==> pc.events == s.results[d])
  }

  // ---- One pass ----

  lemma FlagStays(w: nat)
    requires w < SIZE_LIMIT
    ensures Signalled(DropWaiter(w)) == Signalled(w)
  {
  }

  lemma LoopTakes(s: State, sc: Sched, t: nat)
    requires t < |sc.threads|
    ensures var sc' := Loop(sc, s.results, t);
      && |sc'.threads| == |sc.threads|
      && (if sc.core.stopped then sc'.core.ops == sc.core.ops && sc'.threads[t].pc == Outside
          else if sc.core.ops == [] then sc'.core.ops == [] && sc'.threads[t].pc == Waiting
          else sc'.core.ops == sc.core.ops[1..] && GetsTo(s, s.(sched := sc'), t, sc.core.ops[0], sc.core.ops[1..]))
  {
  }

  // What a pass of thread t over the queue `ops` makes of it.
  predicate Passes(s: State, s': State, t: nat, ops: seq<Op<nat>>)
  {
    && At(s', t)
    && if s.sched.core.stopped then s'.sched.core.ops == ops && s'.sched.threads[t].pc == Outside
       else if ops == [] then s'.sched.core.ops == [] && s'.sched.threads[t].pc == Waiting
       else s'.sched.core.ops == ops[1..] && GetsTo(s, s', t, ops[0], ops[1..])
  }

  lemma ResumePasses(s: State, t: nat)
    requires s.sched.core.word < SIZE_LIMIT && t < |s.sched.threads| && Signalled(s.sched.core.word)
    ensures Passes(s, s.(sched := Reacquire(s.sched, s.results, t)), t, s.sched.core.ops)
  {
    FlagStays(s.sched.core.word);
    LoopTakes(s, s.sched.(core := s.sched.core.(word := DropWaiter(s.sched.core.word))), t);
  }

  lemma SplicePasses(s: State, t: nat)
    requires t < |s.sched.threads| && s.sched.threads[t].privateOps != []
    ensures Passes(s, AfterSplice(s, t), t, s.sched.core.ops + s.sched.threads[t].privateOps)
  {
    LoopTakes(s, SpliceOwn(s.sched, t), t);
  }

  lemma TaskPasses(s: State, t: nat)
    requires t < |s.sched.threads|
    ensures Passes(s, s.(sched := Loop(EndTask(s.sched, t), s.results, t)), t,
                   s.sched.core.ops + (s.sched.threads[t].privateOps + [Task]))
  {
    var ops, own := s.sched.core.ops, s.sched.threads[t].privateOps;
    LoopTakes(s, EndTask(s.sched, t), t);
    assert ops + own + [Task] == ops + (own + [Task]);
    assert EndTask(s.sched, t).core.ops == ops + (own + [Task]);
  }

  lemma TurnPasses(s: State, step: Step)
    requires s.sched.core.word < SIZE_LIMIT && Enabled(s, step) && Turns(s, step)
    ensures Passes(s, Next(s, step), step.t, s.sched.core.ops + Appended(s, step))
  {
    assert s.sched.core.ops + [] == s.sched.core.ops;
    if step.Acquire? {
      LoopTakes(s, s.sched, step.t);
    } else if step.Resume? {
      ResumePasses(s, step.t);
    } else if step.Splice? {
      SplicePasses(s, step.t);
    } else {
      TaskPasses(s, step.t);
    }
  }

  // ---- Every step ----

  lemma PushAppends(sc: Sched, ops: seq<Op<nat>>)
    ensures Push(sc, ops).core.ops == sc.core.ops + ops
  {
  }

  lemma BatchAppends(s: State, i: nat)
    requires i < |s.batches| && Sized(s)
    ensures Next(s, PostBatch(i)).sched.core.ops == s.sched.core.ops + Users(s.batches[i].ops)
  {
    PushAppends(s.sched, Users(s.batches[i].ops));
  }

  lemma RestAppends(s: State, t: nat)
    requires At(s, t) && s.sched.threads[t].pc.Posting?
    ensures var rest := Users(s.sched.threads[t].pc.rest);
      AfterPostRest(s, t).sched.core.ops == if s.sched.core.oneThread then s.sched.core.ops else s.sched.core.ops + rest
  {
    var pc := s.sched.threads[t].pc;
    PushAppends(SetPc(s.sched, t, Running(pc.first)), Users(pc.rest));
  }

  lemma PostAppends(s: State, step: Step)
    requires Enabled(s, step) && (step.PostBatch? || step.PostRest?)
    ensures Next(s, step).sched.core.ops == s.sched.core.ops + Appended(s, step)
  {
    if step.PostBatch? {
      BatchAppends(s, step.i);
    } else {
      RestAppends(s, step.t);
      assert s.sched.core.ops + [] == s.sched.core.ops;
    }
  }

  lemma TaskAppends(s: State, step: Step)
    requires Enabled(s, step) && step.StartTask?
    ensures Next(s, step).sched.core.ops == s.sched.core.ops + Appended(s, step)
  {
    assert s.sched.core.ops + [] == s.sched.core.ops;
  }

  lemma NoTurn(s: State, step: Step)
    requires Enabled(s, step) && (step.Splice? || step.Resume?)
    requires s.sched.core.word < SIZE_LIMIT && !Turns(s, step)
    ensures Next(s, step).sched.core.ops == s.sched.core.ops && Appended(s, step) == []
  {
    if step.Resume? {
      FlagStays(s.sched.core.word);
    }
  }

  lemma StartsLeaveQueue(s: State, step: Step)
    requires CanStart(s, step) || CanFinish(s, step)
    ensures CanStart(s, step) ==> AfterStartOp(s, step).sched.core.ops == s.sched.core.ops
    ensures CanFinish(s, step) ==> AfterFinishStart(s, step).sched.core.ops == s.sched.core.ops
  {
  }

  lemma DescriptorsLeaveQueue(s: State, step: Step)
    requires Enabled(s, step) && DescriptorStep(step) && !step.StartOp? && !step.FinishStart?
    ensures Next(s, step).sched.core.ops == s.sched.core.ops
  {
  }

  lemma StopLeavesQueue(sc: Sched)
    ensures Commit(sc, StopAll(sc.core)).core.ops == sc.core.ops
  {
  }

  lemma ControlLeavesQueue(s: State, step: Step)
    requires Enabled(s, step) && ControlStep(step) && !step.StartTask?
    ensures Next(s, step).sched.core.ops == s.sched.core.ops
  {
    if step.Stop? || step.StopFromGuard? {
      StopLeavesQueue(s.sched);
    }
  }

  lemma EntryLeavesQueue(s: State, step: Step)
    requires Enabled(s, step) && EntryStep(step)
    ensures Next(s, step).sched.core.ops == s.sched.core.ops
  {
    StopLeavesQueue(s.sched);
    StopLeavesQueue(SetPc(s.sched, step.t, Splicing));
  }

  lemma ThreadLeavesQueue(s: State, step: Step)
    requires Enabled(s, step) && (step.Wake? || step.FinishOp? || step.FlushEmpty? || step.WorkFinished?)
    ensures Next(s, step).sched.core.ops == s.sched.core.ops
  {
  }

  lemma ReactorLeavesQueue(s: State, step: Step)
    requires Enabled(s, step) && (step.EpollReturns? || ScanStepLabel(step))
    ensures Next(s, step).sched.core.ops == s.sched.core.ops
  {
    if step.BeginScan? {
      assert AfterBeginScan(s, step.t).sched.core == s.sched.core;
    } else if step.ScanOne? {
      assert AfterScanOne(s, step.t, step.status, step.after).sched.core == s.sched.core;
    } else if step.EndScan? {
      assert AfterEndScan(s, step.t).sched.core == s.sched.core;
    } else {
      assert AfterEpoll(s, step.t, step.reports).sched.core == s.sched.core;
    }
  }

  lemma ChargeLeavesQueue(s: State, step: Step)
    requires Enabled(s, step) && (step.Post? || step.PostBatchPrivately?)
    ensures Next(s, step).sched.core.ops == s.sched.core.ops
  {
  }

  lemma NothingTaken(s: State, step: Step)
    requires s.sched.core.word < SIZE_LIMIT && Enabled(s, step) && !Turns(s, step)
    ensures Next(s, step).sched.core.ops == s.sched.core.ops + Appended(s, step)
  {
    assert s.sched.core.ops + [] == s.sched.core.ops;
    if step.StartOp? || step.FinishStart? {
      StartsLeaveQueue(s, step);
    } else if DescriptorStep(step) {
      DescriptorsLeaveQueue(s, step);
    } else if step.PostBatch? || step.PostRest? {
      PostAppends(s, step);
    } else if step.StartTask? {
      TaskAppends(s, step);
    } else if step.Splice? || step.Resume? {
      NoTurn(s, step);
    } else if ControlStep(step) {
      ControlLeavesQueue(s, step);
    } else if EntryStep(step) {
      EntryLeavesQueue(s, step);
    } else if step.Post? || step.PostBatchPrivately? {
      ChargeLeavesQueue(s, step);
    } else if step.EpollReturns? || ScanStepLabel(step) {
      ReactorLeavesQueue(s, step);
    } else {
      ThreadLeavesQueue(s, step);
    }
  }

  /** Every step appends what it brings to the end of the queue and takes at most one
      operation, from the front, and the thread that takes it does what it says. */
  lemma QueueStep(s: State, step: Step)
    requires s.sched.core.word < SIZE_LIMIT && Enabled(s, step)
    ensures var all := s.sched.core.ops + Appended(s, step);
      var s' := Next(s, step);
      if Takes(s, step) then s'.sched.core.ops == all[1..] && GetsTo(s, s', step.t, all[0], all[1..])
      else s'.sched.core.ops == all
    ensures Turns(s, step) && !Takes(s, step) ==>
      var s' := Next(s, step);
      At(s', step.t) && s'.sched.threads[step.t].pc == if s.sched.core.stopped then Outside else Waiting
  {
    if Turns(s, step) {
      TurnPasses(s, step);
    } else {
      NothingTaken(s, step);
    }
  }

  // ---- Runs ----

  // What a step takes.
  function TakenBy(s: State, step: Step): seq<Op<nat>>
  {
    if Takes(s, step) then [(s.sched.core.ops + Appended(s, step))[0]] else []
  }

  lemma StepInOrder(s: State, step: Step)
    requires s.sched.core.word < SIZE_LIMIT && Enabled(s, step)
    ensures TakenBy(s, step) + Next(s, step).sched.core.ops == s.sched.core.ops + Appended(s, step)
  {
    QueueStep(s, step);
    Rest(s.sched.core.ops + Appended(s, step), Next(s, step).sched.core.ops, Takes(s, step));
  }

  // A list is its head and the rest.
  lemma Rest(all: seq<Op<nat>>, left: seq<Op<nat>>, takes: bool)
    requires if takes then all != [] && left == all[1..] else left == all
    ensures (if takes then [all[0]] else []) + left == all
  {
  }

  // The lists, one after the other.
  function Flat(lists: seq<seq<Op<nat>>>): seq<Op<nat>>
  {
    if lists == [] then [] else Flat(lists[..|lists| - 1]) + lists[|lists| - 1]
  }

  // What each of the first n steps has appended, and what it has taken.
  function AllAppended(states: seq<State>, steps: seq<Step>, n: nat): seq<seq<Op<nat>>>
    requires n <= |steps| && n <= |states|
  {
    seq(n, k requires 0 <= k < n => Appended(states[k], steps[k]))
  }

  function AllTaken(states: seq<State>, steps: seq<Step>, n: nat): seq<seq<Op<nat>>>
    requires n <= |steps| && n <= |states|
  {
    seq(n, k requires 0 <= k < n => TakenBy(states[k], steps[k]))
  }

  ghost predicate InOrder(queues: seq<seq<Op<nat>>>, added: seq<seq<Op<nat>>>, taken: seq<seq<Op<nat>>>)
  {
    && |added| == |taken| && |queues| == |added| + 1 && queues[0] == []
    && forall k :: 0 <= k < |added| ==> taken[k] + queues[k + 1] == queues[k] + added[k]
  }

  lemma {:induction false} TakenFromTheFront(queues: seq<seq<Op<nat>>>, added: seq<seq<Op<nat>>>, taken: seq<seq<Op<nat>>>)
    requires InOrder(queues, added, taken)
    ensures Flat(taken) + queues[|added|] == Flat(added)
    decreases |added|
  {
    if added != [] {
      var n := |added| - 1;
      TakenFromTheFront(queues[..n + 1], added[..n], taken[..n]);
      calc {
        Flat(taken) + queues[n + 1];
        Flat(taken[..n]) + taken[n] + queues[n + 1];
        Flat(taken[..n]) + (taken[n] + queues[n + 1]);
        Flat(taken[..n]) + (queues[n] + added[n]);
        Flat(taken[..n]) + queues[n] + added[n];
        Flat(added);
      }
    }
  }

  lemma QueueTaken(states: seq<State>, steps: seq<Step>, k: nat)
    requires IsRun(states, steps) && k < |steps|
    ensures TakenBy(states[k], steps[k]) + states[k + 1].sched.core.ops
         == states[k].sched.core.ops + Appended(states[k], steps[k])
  {
    InvHolds(states, steps, k);
    assert Taken(states, steps, k);
    StepInOrder(states[k], steps[k]);
  }

  /** First in, first out: what has been taken from the common queue followed by what
      is in it is at all times what has been put there, in the order in which it was. */
  lemma FirstInFirstOut(states: seq<State>, steps: seq<Step>, n: nat)
    requires IsRun(states, steps) && n < |states|
    ensures Flat(AllTaken(states, steps, n)) + states[n].sched.core.ops == Flat(AllAppended(states, steps, n))
  {
    var queues := seq(n + 1, k requires 0 <= k <= n => states[k].sched.core.ops);
    var added, taken := AllAppended(states, steps, n), AllTaken(states, steps, n);
    forall k | 0 <= k < n
      ensures taken[k] + queues[k + 1] == queues[k] + added[k]
    {
      QueueTaken(states, steps, k);
    }
    TakenFromTheFront(queues, added, taken);
  }
}
