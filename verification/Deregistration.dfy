/** deregister_descriptor over runs: it shuts the descriptor down, empties it, takes
    it out of epoll, and no operation is queued or performed on it afterwards. */
module Deregistration {
  import opened Prelude
  import opened SchedulerCore
  import opened Descriptors
  import opened Protocol
  import opened LocalQueues
  import opened Scans
  import opened DescriptorInvariant
  import opened StartOps
  import opened Runs

  /** One deregistration: the first shuts the descriptor down, hands every queued
      operation to the scheduler, uncharged, and tells epoll unless the descriptor is
      closing or epoll does not know it; any further one changes nothing. */
  lemma DeregisterExactly(s: State, d: nat, closing: bool)
    requires Enabled(s, Deregister(d, closing))
    ensures var s', before := Next(s, Deregister(d, closing)), s.descs[d];
      if before.shutdown then s' == s
      else
        && s'.descs == s.descs[d := before.(queues := [[], [], []], shutdown := true)]
        && s'.batches
           == s.batches + [Batch(before.queues[READ] + before.queues[WRITE] + before.queues[EXCEPT], true)]
        && s'.sockets
           == (if !closing && before.registered != {}
               then s.sockets[d := s.sockets[d].(interest := {}, pending := [false, false, false])] else s.sockets)
        && s'.sched == s.sched && s'.locks == s.locks && s'.results == s.results && s'.nextId == s.nextId
        && s'.guards == s.guards && s'.stops == s.stops && s'.completed == s.completed
  {
    if !s.descs[d].shutdown {
      assert s.sockets[d := s.sockets[d]] == s.sockets;
    }
  }

  /** Cancelling does the same to the queues and nothing else. */
  lemma CancelExactly(s: State, d: nat)
    requires Enabled(s, Step.Cancel(d))
    ensures var s', before := Next(s, Step.Cancel(d)), s.descs[d];
      && s'.descs == s.descs[d := before.(queues := [[], [], []])]
      && s'.batches == s.batches + [Batch(before.queues[READ] + before.queues[WRITE] + before.queues[EXCEPT], true)]
      && s'.(descs := s.descs, batches := s.batches) == s
  {
  }

  // start_op on a descriptor that is shut down.
  lemma StartRefused(s: State, step: Step)
    requires step.StartOp? && Enabled(s, step) && s.descs[step.d].shutdown
    ensures var s' := Next(s, step);
      && s'.descs == s.descs && s'.locks == s.locks && s'.sockets == s.sockets
      && HandedOver(s, s', s.nextId, step.continuation, step.caller)
  {
    StartOpExactly(s, step);
    assert s.descs[step.d := s.descs[step.d]] == s.descs;
  }

  /** After deregister_descriptor the descriptor is shut down and empty for good, and
      every later start_op on it hands its operation straight to the scheduler:
      nothing is queued, performed or asked of epoll. */
  lemma DeregisteredForGood(states: seq<State>, steps: seq<Step>, i: nat, k: nat)
    requires IsRun(states, steps) && i < k < |states| && steps[i].Deregister?
    ensures var d := steps[i].d;
      && d < |states[k].descs| && states[k].descs[d].shutdown && states[k].descs[d].queues == [[], [], []]
      && (k < |steps| && steps[k].StartOp? && steps[k].d == d ==>
            && states[k + 1].descs == states[k].descs && states[k + 1].sockets == states[k].sockets
            && states[k + 1].locks == states[k].locks
            && HandedOver(states[k], states[k + 1], states[k].nextId, steps[k].continuation, steps[k].caller))
  {
    var d := steps[i].d;
    assert Taken(states, steps, i);
    DeregisterExactly(states[i], d, steps[i].closing);
    ShutDownStaysEmpty(states, steps, i + 1, k, d);
    if k < |steps| && steps[k].StartOp? && steps[k].d == d {
      assert Taken(states, steps, k);
      StartRefused(states[k], steps[k]);
    }
  }
}
