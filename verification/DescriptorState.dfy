/** The class `descriptor_state` and the reactor's sections on it
    (epoll_reactor.hpp, epoll_reactor.cc), in place, with perform() and epoll_ctl
    as oracles. */
module DescriptorStateClass {
  import opened Prelude
  import opened OpQueues
  import opened SchedulerCore
  import opened Descriptors
  import opened Coalescing
  import opened PerformIo

  class DescriptorState {
    const opQueue: array<seq<nat>>
    const trySpeculative: array<bool>
    var registered: Events
    var isShutdown: bool
    var taskResult: Events
    ghost var performed: Queues

    ghost predicate Valid()
      reads this
    {
      opQueue.Length == 3 && trySpeculative.Length == 3
    }

    ghost function View(): Desc
      requires Valid()
      reads this, opQueue, trySpeculative
    {
      Desc(opQueue[..], trySpeculative[..], registered, isShutdown, performed)
    }

    // register_descriptor, with the outcome of EPOLL_CTL_ADD.
    constructor (notPermitted: bool)
      ensures Valid() && fresh(opQueue) && fresh(trySpeculative)
      ensures View() == if notPermitted then NEW_DESC.(registered := {}) else NEW_DESC
      ensures opQueue[..] == [[], [], []] && trySpeculative[..] == [true, true, true] && !isShutdown
      ensures registered == if notPermitted then {} else {EpollIn, EpollErr, EpollHup, EpollPri, EpollEt}
    {
      opQueue := new seq<nat>[3](_ => []);
      trySpeculative := new bool[3](_ => true);
      registered := if notPermitted then {} else ADD_EVENTS;
      isShutdown, taskResult, performed := false, {}, NO_OPS;
      new;
      assert opQueue[..] == NO_OPS && trySpeculative[..] == [true, true, true];
    }

    method SetReadyEvents(events: Events)
      modifies this`taskResult
      ensures taskResult == events
    {
      taskResult := events;
    }

    method AddReadyEvents(events: Events)
      modifies this`taskResult
      ensures taskResult == old(taskResult) + events
    {
      taskResult := taskResult + events;
    }

    method PushOp(j: Dir, op: nat)
      requires Valid()
      modifies opQueue
      ensures View() == Enqueue(old(View()), j, op)
    {
      opQueue[j] := opQueue[j] + [op];
      assert opQueue[..] == old(opQueue[..])[j := old(opQueue[j]) + [op]];
    }

    method SetSpeculative(j: Dir, value: bool)
      requires Valid()
      modifies trySpeculative
      ensures View() == old(View()).(speculative := old(View()).speculative[j := value])
    {
      trySpeculative[j] := value;
      assert trySpeculative[..] == old(trySpeculative[..])[j := value];
    }

    // The part of start_op after the speculative attempt, on an empty queue.
    method FinishStart(j: Dir, speculative: bool, op: nat, modOk: bool) returns (outcome: Outcome, control: Control)
      requires Valid() && opQueue[j] == []
      modifies this`registered, opQueue
      ensures var f := StartFinish(old(View()), j, speculative, modOk, op);
        View() == f.desc && outcome == f.outcome && control == f.control
    {
      control := NoControl;
      if registered == {} {
        return Complete, NoControl;
      }
      if speculative {
        if j == WRITE {
          if EpollOut !in registered {
            if modOk {
              control := Modified(registered + {EpollOut});
              registered := registered + {EpollOut};
            } else {
              return Complete, Failed;
            }
          }
        }
      } else {
        if j == WRITE {
          registered := registered + {EpollOut};
        }
        control := if modOk then Modified(registered + {EpollOut}) else Failed;
      }
      PushOp(j, op);
      outcome := Queued;
    }

    /** start_op with the mutex held throughout. `status` is what perform() returns
        if it is called, `modOk` whether EPOLL_CTL_MOD succeeds if it is. */
    method StartOp(j: Dir, allowSpeculative: bool, op: nat, status: Status, modOk: bool)
      returns (outcome: Outcome, control: Control)
      requires Valid()
      modifies this`registered, this`performed, opQueue, trySpeculative
      ensures var f := StartWhole(old(View()), j, allowSpeculative, status, modOk, op);
        View() == f.desc && outcome == f.outcome && control == f.control
    {
      if isShutdown {
        return Complete, NoControl;
      }
      if opQueue[j] == [] {
        var speculative := allowSpeculative && (j != READ || opQueue[EXCEPT] == []);
        if speculative && trySpeculative[j] {
          if !status.NotDone? {
            performed := performed[j := performed[j] + [op]];
            if status.DoneAndExhausted? && registered != {} {
              SetSpeculative(j, false);
            }
            return Complete, NoControl;
          }
        }
        outcome, control := FinishStart(j, speculative, op, modOk);
      } else {
        PushOp(j, op);
        outcome, control := Queued, NoControl;
      }
    }

    // The nested loops of cancel_ops and deregister_descriptor.
    method TakeAll() returns (ops: seq<nat>)
      requires Valid()
      modifies opQueue
      ensures View() == Cancelled(old(View())) && ops == AllQueued(old(View()))
    {
      ops := [];
      ghost var before := opQueue[..];
      assert AllQueued(View()) == before[0] + before[1] + before[2];
      var i := 0;
      while i < 3
        invariant 0 <= i <= 3
        invariant forall k :: 0 <= k < i ==> opQueue[k] == []
        invariant forall k :: i <= k < 3 ==> opQueue[k] == before[k]
        invariant ops == (if i > 0 then before[0] else []) + (if i > 1 then before[1] else []) + (if i > 2 then before[2] else [])
      {
        ghost var start := ops;
        while opQueue[i] != []
          invariant ops + opQueue[i] == start + before[i]
          invariant forall k :: 0 <= k < i ==> opQueue[k] == []
          invariant forall k :: i < k < 3 ==> opQueue[k] == before[k]
          decreases |opQueue[i]|
        {
          var op := opQueue[i][0];
          opQueue[i] := opQueue[i][1..];
          ops := ops + [op];
        }
        assert ops == start + before[i] && start + before[i] + [] == start + before[i];
        i := i + 1;
      }
      assert opQueue[..] == NO_OPS;
    }

    /** cancel_ops: reads first, out-of-band operations last. */
    method CancelOps() returns (ops: seq<nat>)
      requires Valid()
      modifies opQueue
      ensures CancelOpsDoes(old(View()), View(), ops)
      ensures opQueue[..] == [[], [], []] && ops == old(opQueue[READ] + opQueue[WRITE] + opQueue[EXCEPT])
    {
      ops := TakeAll();
    }

    /** deregister_descriptor: cancels and shuts down, unless already shut down,
        when the caller's pointer is cleared instead. */
    method Deregister(closing: bool) returns (ops: seq<nat>, removed: bool, cleared: bool)
      requires Valid()
      modifies this`isShutdown, opQueue
      ensures DeregisterDoes(old(View()), closing, View(), ops, removed, cleared)
      ensures isShutdown && (cleared <==> old(isShutdown)) && (cleared ==> ops == [] && !removed && View() == old(View()))
      ensures !cleared ==> opQueue[..] == [[], [], []] && (removed <==> !closing && registered != {})
      ensures !cleared ==> ops == old(opQueue[READ] + opQueue[WRITE] + opQueue[EXCEPT])
    {
      ops, removed, cleared := [], false, false;
      if !isShutdown {
        if closing {
        } else if registered != {} {
          removed := true;
        }
        ops := TakeAll();
        isShutdown := true;
      } else {
        cleared := true;
      }
    }

    method PopPerformed(j: Dir) returns (op: nat)
      requires Valid() && opQueue[j] != []
      modifies this`performed, opQueue
      ensures op == old(opQueue[j])[0]
      ensures View() == LogPerformed(old(View()).(queues := old(View()).queues[j := old(opQueue[j])[1..]]), j, op)
    {
      op := opQueue[j][0];
      opQueue[j] := opQueue[j][1..];
      performed := performed[j := performed[j] + [op]];
      assert opQueue[..] == old(opQueue[..])[j := old(opQueue[j])[1..]];
    }

    /** The inner loop of perform_io, for one selected direction. */
    method PerformQueue(j: Dir, events: Events, st: nat -> Status, done: seq<nat>, ghost goal: Scan) returns (done': seq<nat>)
      requires Valid() && Selects(events, j)
      requires goal == ScanAll(Scan(View(), j + 1, done), events, st)
      modifies this`performed, opQueue, trySpeculative
      ensures ScanAll(NextDirection(Scan(View(), j + 1, done'), events), events, st) == goal
    {
      done' := done;
      while opQueue[j] != []
        invariant goal == ScanAll(Scan(View(), j + 1, done'), events, st)
        decreases |opQueue[j]|
      {
        var status := st(opQueue[j][0]);
        if status.NotDone? {
          return;
        }
        var op := PopPerformed(j);
        done' := done' + [op];
        if status.DoneAndExhausted? {
          SetSpeculative(j, false);
          return;
        }
      }
    }

    /** perform_io: returns the first operation performed, if any, and the rest, to
        be posted; with none, the caller compensates for the work counted. */
    method PerformIo(events: Events, st: nat -> Status) returns (first: Option<nat>, rest: seq<nat>)
      requires Valid()
      modifies this`performed, opQueue, trySpeculative
      ensures var r := ScanAll(ScanBegin(old(View()), events), events, st);
        && View() == r.desc
        && first == (if r.done == [] then None else Some(r.done[0]))
        && rest == (if r.done == [] then [] else r.done[1..])
      ensures var all := EpollErr in events || EpollHup in events;
        && Served(old(View()), View(), st, READ, all || EpollIn in events)
        && Served(old(View()), View(), st, WRITE, all || EpollOut in events)
        && Served(old(View()), View(), st, EXCEPT, all || EpollPri in events)
    {
      var done: seq<nat> := [];
      ghost var goal := ScanAll(ScanBegin(View(), events), events, st);
      var j := 2;
      while j >= 0
        invariant -1 <= j <= 2
        invariant goal == ScanAll(Scan(Enter(View(), events, j + 1), j + 1, done), events, st)
      {
        if Selects(events, j) {
          SetSpeculative(j, true);
          done := PerformQueue(j, events, st, done, goal);
        }
        j := j - 1;
      }
      PerformIoByFlags(old(View()), events, st);
      first := if done == [] then None else Some(done[0]);
      rest := if done == [] then [] else done[1..];
    }
  }

  class EpollReactor {
    // The descriptors epoll reports on, each with its task_result_.
    const descriptors: seq<DescriptorState>

    constructor (descriptors: seq<DescriptorState>)
      ensures this.descriptors == descriptors
    {
      this.descriptors := descriptors;
    }

    ghost predicate Valid()
    {
      forall i, k :: 0 <= i < k < |descriptors| ==> descriptors[i] != descriptors[k]
    }

    ghost function Results(): (r: seq<Events>)
      reads descriptors
      ensures |r| == |descriptors|
    {
      seq(|descriptors|, i requires 0 <= i < |descriptors| reads descriptors => descriptors[i].taskResult)
    }

    /** run() after epoll_wait has returned `reports`: `ops` is the private queue
        of the thread in the reactor. */
    method Run(reports: seq<Report>, ops: OpQueue<Op<nat>>)
      requires Valid() && InRange(reports, |descriptors|)
      modifies ops, (set d | d in descriptors)`taskResult
      ensures var g := Gather(Gathered(old(ops.c), old(Results())), reports); ops.c == g.ops && Results() == g.results
    {
      ghost var goal := Gather(Gathered(ops.c, Results()), reports);
      var i := 0;
      while i < |reports|
        invariant 0 <= i <= |reports| && InRange(reports[i..], |descriptors|)
        invariant Gather(Gathered(ops.c, Results()), reports[i..]) == goal
      {
        ghost var before := Gathered(ops.c, Results());
        assert reports[i..][0] == reports[i] && reports[i..][1..] == reports[i + 1..];
        if reports[i].Ready? {
          var d := reports[i].d;
          assert descriptors[d] in descriptors;
          var enqueued := ops.IsEnqueued(Descriptor(d));
          if !enqueued {
            descriptors[d].SetReadyEvents(reports[i].events);
            ops.Push(Descriptor(d));
            assert Results() == before.results[d := reports[i].events];
          } else {
            descriptors[d].AddReadyEvents(reports[i].events);
            assert Results() == before.results[d := before.results[d] + reports[i].events];
          }
        }
        assert Gathered(ops.c, Results()) == Absorb(before, reports[i]);
        i := i + 1;
      }
      assert reports[i..] == [];
    }
  }
}
