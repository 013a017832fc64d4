/** Lost readiness edges over whole runs: exactly which steps lose one, and that
    none is lost while epoll_ctl succeeds. */
module EdgeRuns {
  import opened Descriptors
  import opened Protocol
  import DescriptorInvariant
  import opened Readiness
  import opened ReadinessSteps
  import opened Runs

  ghost predicate LostIn(s: State, d: nat, j: Dir) { Sized(s) && Lost(s, d, j) }

  ghost predicate LosesIn(s: State, step: Step, d: nat, j: Dir) { Enabled(s, step) && Loses(s, step, d, j) }

  ghost predicate NeverLost(states: seq<State>, n: nat, d: nat, j: Dir)
  {
    forall i :: 0 <= i <= n && i < |states| ==> !LostIn(states[i], d, j)
  }

  ghost predicate NeverLoses(states: seq<State>, steps: seq<Step>, n: nat, d: nat, j: Dir)
  {
    forall k :: 0 <= k < n && k < |steps| && k < |states| ==> !LosesIn(states[k], steps[k], d, j)
  }

  // One step: an edge that is not lost is lost exactly when the step loses it.
  lemma EdgeLostExactly(s: State, step: Step, d: nat, j: Dir)
    requires Inv(s) && Enabled(s, step)
    ensures LosesIn(s, step, d, j) ==> LostIn(Next(s, step), d, j)
    ensures !LostIn(s, d, j) && LostIn(Next(s, step), d, j) ==> LosesIn(s, step, d, j)
  {
    if Loses(s, step, d, j) {
      LosingStepLoses(s, step, d, j);
    } else if !Lost(s, d, j) {
      EdgeStep(s, step, d, j);
    }
  }

  lemma EdgeTaken(states: seq<State>, steps: seq<Step>, k: nat, d: nat, j: Dir)
    requires IsRun(states, steps) && k < |steps|
    ensures LosesIn(states[k], steps[k], d, j) ==> LostIn(states[k + 1], d, j)
    ensures !LostIn(states[k], d, j) && LostIn(states[k + 1], d, j) ==> LosesIn(states[k], steps[k], d, j)
  {
    InvHolds(states, steps, k);
    assert Taken(states, steps, k);
    EdgeLostExactly(states[k], steps[k], d, j);
  }

  lemma NothingLostAtFirst(s: State, d: nat, j: Dir)
    requires Init(s)
    ensures !LostIn(s, d, j)
  {
  }

  lemma NeverLostSnoc(states: seq<State>, n: nat, d: nat, j: Dir)
    requires 0 < n < |states|
    ensures NeverLost(states, n, d, j) <==> NeverLost(states, n - 1, d, j) && !LostIn(states[n], d, j)
  {
  }

  lemma NeverLosesSnoc(states: seq<State>, steps: seq<Step>, n: nat, d: nat, j: Dir)
    requires 0 < n <= |steps| && n <= |states|
    ensures NeverLoses(states, steps, n, d, j) <==>
      NeverLoses(states, steps, n - 1, d, j) && !LosesIn(states[n - 1], steps[n - 1], d, j)
  {
  }

  /** Edges are lost exactly in the steps that `Loses` names: up to a state of any
      run no edge of direction j is lost if and only if no step before it was an
      ignored failure of EPOLL_CTL_MOD with the direction ready, or a rise in a
      direction epoll had not been asked about, with nothing else on its way. */
  lemma {:induction false} EdgesLostExactly(states: seq<State>, steps: seq<Step>, n: nat, d: nat, j: Dir)
    requires IsRun(states, steps) && n < |states|
    ensures NeverLost(states, n, d, j) <==> NeverLoses(states, steps, n, d, j)
  {
    if n == 0 {
      NothingLostAtFirst(states[0], d, j);
    } else {
      EdgesLostExactly(states, steps, n - 1, d, j);
      EdgeTaken(states, steps, n - 1, d, j);
      NeverLostSnoc(states, n, d, j);
      NeverLosesSnoc(states, steps, n, d, j);
    }
  }

  // ---- While epoll_ctl succeeds ----

  ghost predicate IgnoredIn(s: State, step: Step, d: nat, j: Dir) { Enabled(s, step) && Ignored(s, step, d, j) }

  ghost predicate RearmsIn(s: State, step: Step, d: nat) { Enabled(s, step) && Rearms(s, step, d) }

  // An epoll_ctl that mattered to direction j has failed and been ignored, and
  // none has succeeded for the descriptor since.
  ghost predicate Deaf(states: seq<State>, steps: seq<Step>, n: nat, d: nat, j: Dir)
  {
    exists k :: 0 <= k < n && DeafSince(states, steps, k, n, d, j)
  }

  ghost predicate DeafSince(states: seq<State>, steps: seq<Step>, k: nat, n: nat, d: nat, j: Dir)
  {
    && k < n <= |steps| && |states| == |steps| + 1 && IgnoredIn(states[k], steps[k], d, j)
    && forall m :: k < m < n ==> !RearmsIn(states[m], steps[m], d)
  }

  ghost predicate DeafenedIn(s: State, d: nat, j: Dir) { Sized(s) && Deafened(s, d, j) }

  lemma DeafenedOneStep(s: State, step: Step, d: nat, j: Dir)
    requires Inv(s) && Enabled(s, step) && DeafenedIn(Next(s, step), d, j)
    ensures IgnoredIn(s, step, d, j) || (DeafenedIn(s, d, j) && !RearmsIn(s, step, d))
  {
    DeafenedStep(s, step, d, j);
  }

  lemma StillDeaf(states: seq<State>, steps: seq<Step>, n: nat, d: nat, j: Dir)
    requires n < |steps| && |states| == |steps| + 1
    requires Deaf(states, steps, n, d, j) && !RearmsIn(states[n], steps[n], d)
    ensures Deaf(states, steps, n + 1, d, j)
  {
    var k :| 0 <= k < n && DeafSince(states, steps, k, n, d, j);
    assert DeafSince(states, steps, k, n + 1, d, j);
  }

  lemma DeafenedTaken(states: seq<State>, steps: seq<Step>, k: nat, d: nat, j: Dir)
    requires IsRun(states, steps) && k < |steps| && DeafenedIn(states[k + 1], d, j)
    ensures IgnoredIn(states[k], steps[k], d, j) || (DeafenedIn(states[k], d, j) && !RearmsIn(states[k], steps[k], d))
  {
    InvHolds(states, steps, k);
    assert Taken(states, steps, k);
    DeafenedOneStep(states[k], steps[k], d, j);
  }

  lemma {:induction false} DeafenedIsDeaf(states: seq<State>, steps: seq<Step>, n: nat, d: nat, j: Dir)
    requires IsRun(states, steps) && n < |states| && DeafenedIn(states[n], d, j)
    ensures Deaf(states, steps, n, d, j)
  {
    if n > 0 {
      DeafenedTaken(states, steps, n - 1, d, j);
      if IgnoredIn(states[n - 1], steps[n - 1], d, j) {
        assert DeafSince(states, steps, n - 1, n, d, j);
      } else {
        DeafenedIsDeaf(states, steps, n - 1, d, j);
        StillDeaf(states, steps, n - 1, d, j);
      }
    }
  }

  /** No lost readiness edge: an operation queued for a direction in which its
      socket is ready has an event on its way, in epoll, in task_result_ of a
      queued descriptor, or with a thread about to act on it. A failed epoll_ctl
      excuses its own direction only, and only until the next that succeeds. */
  lemma NoLostEdgeHolds(states: seq<State>, steps: seq<Step>, n: nat, d: nat, j: Dir)
    requires IsRun(states, steps) && n < |states| && !Deaf(states, steps, n, d, j)
    ensures Sized(states[n])
    ensures d < |states[n].descs| && states[n].descs[d].queues[j] != [] && states[n].sockets[d].ready[j] ==>
      OnItsWay(states[n], d, j)
  {
    InvHolds(states, steps, n);
    QueuedNeeds(states[n], d, j);
    if DeafenedIn(states[n], d, j) {
      DeafenedIsDeaf(states, steps, n, d, j);
    }
  }

  lemma QueuedNeeds(s: State, d: nat, j: Dir)
    requires DescriptorInvariant.DescsOk(s)
    ensures d < |s.descs| && s.descs[d].queues[j] != [] && s.sockets[d].ready[j] ==>
      Needs(s.descs[d], s.sockets[d], s.locks[d], j)
  {
    if d < |s.descs| && s.descs[d].queues[j] != [] {
      assert DescriptorInvariant.DescOk(s.descs[d], s.locks[d], s.nextId);
    }
  }

  /** The same with nothing queued, once speculation has been turned off. */
  lemma NoLostEdgeBeforeQueueing(states: seq<State>, steps: seq<Step>, n: nat, d: nat, j: Dir)
    requires IsRun(states, steps) && n < |states| && !Deaf(states, steps, n, d, j)
    ensures Sized(states[n])
    ensures (d < |states[n].descs| && !states[n].descs[d].shutdown && !states[n].descs[d].speculative[j]
             && FlagOf(j) in states[n].descs[d].registered && states[n].sockets[d].ready[j])
      ==> OnItsWay(states[n], d, j)
  {
    InvHolds(states, steps, n);
    if DeafenedIn(states[n], d, j) {
      DeafenedIsDeaf(states, steps, n, d, j);
    }
  }
}
