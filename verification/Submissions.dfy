/** What each descriptor and direction has been given over a run, by the labels of
    its steps and the states they were taken in (what start_op decides there, and
    what is queued when it is cancelled), and that it performs and queues exactly
    that, in order. */
module Submissions {
  import opened Descriptors
  import opened Protocol
  import opened LocalQueues
  import opened Scans
  import opened DescriptorInvariant
  import opened Runs

  // ---- The accepted, uncancelled submissions ----

  function Except(us: seq<nat>, gone: seq<nat>): seq<nat>
  {
    if us == [] then [] else (if us[0] in gone then [] else [us[0]]) + Except(us[1..], gone)
  }

  // A start_op for direction j of descriptor d performs its operation at once or
  // queues it.
  predicate AcceptsNow(s: State, step: Step, d: nat, j: Dir)
  {
    && CanStart(s, step) && step.d == d && step.j == j
    && (Begun(s, step).outcome.Queued? || (Tries(s.descs[d], j, step.allow) && !step.status.NotDone?))
  }

  // A start_op that has gone on holding the mutex queues its operation.
  predicate AcceptsHeld(s: State, step: Step, d: nat, j: Dir)
  {
    CanFinish(s, step) && step.d == d && s.locks[d].j == j && Ended(s, step).outcome.Queued?
  }

  // cancel_ops, or the first deregistration.
  predicate Cancels(s: State, step: Step, d: nat)
  {
    d < |s.descs| && ((step.Cancel? && step.d == d) || (step.Deregister? && step.d == d && !s.descs[d].shutdown))
  }

  /** One more step of the account: accepted operations are appended, cancelled ones
      removed. */
  function Account(us: seq<nat>, s: State, step: Step, d: nat, j: Dir): seq<nat>
  {
    if AcceptsNow(s, step, d, j) then us + [s.nextId]
    else if AcceptsHeld(s, step, d, j) then us + [s.locks[d].op]
    else if Cancels(s, step, d) then Except(us, s.descs[d].queues[j])
    else us
  }

  function Accepted(states: seq<State>, steps: seq<Step>, n: nat, d: nat, j: Dir): seq<nat>
    requires n <= |steps| && n <= |states|
  {
    if n == 0 then []
    else Account(Accepted(states, steps, n - 1, d, j), states[n - 1], steps[n - 1], d, j)
  }

  // ---- The log is the account ----

  // Performed, then queued; nothing before the descriptor is registered.
  function LogAt(s: State, d: nat, j: Dir): seq<nat> { if d < |s.descs| then Log(s.descs[d], j) else [] }

  lemma ExceptCons(u: nat, us: seq<nat>, gone: seq<nat>)
    ensures Except([u] + us, gone) == (if u in gone then [] else [u]) + Except(us, gone)
  {
    assert ([u] + us)[1..] == us;
  }

  lemma {:induction false} ExceptConcat(a: seq<nat>, b: seq<nat>, gone: seq<nat>)
    ensures Except(a + b, gone) == Except(a, gone) + Except(b, gone)
  {
    if a == [] {
      assert a + b == b;
    } else {
      var u, rest := a[0], a[1..];
      var first := if u in gone then [] else [u];
      calc {
        Except(a + b, gone);
        { assert a + b == [u] + (rest + b); ExceptCons(u, rest + b, gone); }
        first + Except(rest + b, gone);
        { ExceptConcat(rest, b, gone); }
        first + (Except(rest, gone) + Except(b, gone));
        { assert a == [u] + rest; ExceptCons(u, rest, gone); }
        Except(a, gone) + Except(b, gone);
      }
    }
  }

  lemma {:induction false} ExceptNone(us: seq<nat>, gone: seq<nat>)
    requires forall i :: 0 <= i < |us| ==> us[i] !in gone
    ensures Except(us, gone) == us
  {
    if us != [] {
      ExceptNone(us[1..], gone);
    }
  }

  lemma {:induction false} ExceptAll(us: seq<nat>, gone: seq<nat>)
    requires forall i :: 0 <= i < |us| ==> us[i] in gone
    ensures Except(us, gone) == []
  {
    if us != [] {
      ExceptAll(us[1..], gone);
    }
  }

  // Cancelling removes what is queued and keeps what has been performed.
  lemma {:induction false} CancelLog(d: Desc, j: Dir)
    requires Increasing(Log(d, j))
    ensures Except(Log(d, j), d.queues[j]) == d.performed[j]
  {
    var p, q := d.performed[j], d.queues[j];
    forall i | 0 <= i < |p|
      ensures p[i] !in q
    {
      assert (p + q)[i] == p[i];
      forall k | 0 <= k < |q|
        ensures q[k] != p[i]
      {
        assert (p + q)[|p| + k] == q[k];
      }
    }
    ExceptConcat(p, q, q);
    ExceptNone(p, q);
    ExceptAll(q, q);
  }

  lemma StartLog(s: State, step: Step, d: nat, j: Dir)
    requires CanStart(s, step)
    ensures LogAt(AfterStartOp(s, step), d, j) == Account(LogAt(s, d, j), s, step, d, j)
  {
    PostKeepsPcs(Tried(s, step), s.nextId, step.continuation, step.caller);
    if step.d == d && step.j == j {
      BeginLog(s.descs[d], j, step.allow, step.status, s.nextId);
    }
  }

  lemma BeginLog(d: Desc, j: Dir, allow: bool, status: Status, u: nat)
    ensures var r := StartBegin(d, j, allow, status, u);
      Log(r.desc, j)
      == Log(d, j) + if r.outcome.Queued? || (Tries(d, j, allow) && !status.NotDone?) then [u] else []
  {
    assert d.performed[j] + (d.queues[j] + [u]) == Log(d, j) + [u];
    assert Log(d, j) + [] == Log(d, j);
    assert d.queues[j] == [] ==> d.performed[j] + [u] + [] == d.performed[j] + [] + [u];
  }

  lemma FinishLog(s: State, step: Step, d: nat, j: Dir)
    requires CanFinish(s, step)
    ensures LogAt(AfterFinishStart(s, step), d, j) == Account(LogAt(s, d, j), s, step, d, j)
  {
    PostKeepsPcs(Resolved(s, step), s.locks[step.d].op, step.continuation, step.caller);
    if step.d == d && s.locks[d].j == j {
      var desc, u := s.descs[d], s.locks[d].op;
      assert desc.performed[j] + (desc.queues[j] + [u]) == Log(desc, j) + [u];
    }
  }

  lemma CancellingLog(s: State, step: Step, d: nat, j: Dir)
    requires DescsOk(s) && Enabled(s, step) && (step.Cancel? || step.Deregister?)
    ensures LogAt(Next(s, step), d, j) == Account(LogAt(s, d, j), s, step, d, j)
  {
    if Cancels(s, step, d) {
      assert DescOk(s.descs[d], s.locks[d], s.nextId);
      CancelLog(s.descs[d], j);
      assert s.descs[d].performed[j] + [] == s.descs[d].performed[j];
    }
  }

  lemma ScanningLog(s: State, step: Step, d: nat, j: Dir)
    requires Enabled(s, step) && ScanStepLabel(step)
    ensures LogAt(Next(s, step), d, j) == LogAt(s, d, j)
  {
    if step.ScanOne? {
      var pc := s.sched.threads[step.t].pc;
      ScanStepLog(Scan(s.descs[pc.d], pc.left, pc.done), pc.events, step.status, j);
    }
  }

  // Every other step leaves the account and the log alone.
  lemma QuietAccount(us: seq<nat>, s: State, step: Step, d: nat, j: Dir)
    requires !step.StartOp? && !step.FinishStart? && !step.Cancel? && !step.Deregister?
    ensures Account(us, s, step, d, j) == us
  {
  }

  lemma QuietLog(s: State, step: Step, d: nat, j: Dir)
    requires Enabled(s, step) && (step.Register? || step.ChargeStart? || step.Rise? || step.Fall?)
    ensures LogAt(Next(s, step), d, j) == LogAt(s, d, j)
  {
  }

  lemma {:induction false} LogStep(s: State, step: Step, d: nat, j: Dir)
    requires DescsOk(s) && Enabled(s, step)
    ensures LogAt(Next(s, step), d, j) == Account(LogAt(s, d, j), s, step, d, j)
  {
    if step.StartOp? {
      StartLog(s, step, d, j);
    } else if step.FinishStart? {
      FinishLog(s, step, d, j);
    } else if step.Cancel? || step.Deregister? {
      CancellingLog(s, step, d, j);
    } else {
      QuietAccount(LogAt(s, d, j), s, step, d, j);
      if ScanStepLabel(step) {
        ScanningLog(s, step, d, j);
      } else if DescriptorStep(step) {
        QuietLog(s, step, d, j);
      } else {
        LeavesDescriptors(s, step);
      }
    }
  }

  lemma LogTaken(states: seq<State>, steps: seq<Step>, k: nat, d: nat, j: Dir)
    requires IsRun(states, steps) && k < |steps|
    ensures LogAt(states[k + 1], d, j) == Account(LogAt(states[k], d, j), states[k], steps[k], d, j)
  {
    InvHolds(states, steps, k);
    assert Taken(states, steps, k);
    LogStep(states[k], steps[k], d, j);
  }

  /** Per-descriptor, per-type FIFO: what a descriptor has performed in a direction,
      followed by what it has queued there, is at all times the list of the
      accepted submissions for that descriptor and direction that have not been
      cancelled, in the order in which they were accepted. */
  lemma {:induction false} LogIsAccepted(states: seq<State>, steps: seq<Step>, n: nat, d: nat, j: Dir)
    requires IsRun(states, steps) && n < |states|
    ensures LogAt(states[n], d, j) == Accepted(states, steps, n, d, j)
  {
    if n > 0 {
      LogIsAccepted(states, steps, n - 1, d, j);
      LogTaken(states, steps, n - 1, d, j);
    }
  }

  /** Performs happen in the order of submission, ahead of what is still queued: the
      performed operations are a prefix of the accepted ones, whose identifiers
      increase. */
  lemma {:induction false} PerformedInOrder(states: seq<State>, steps: seq<Step>, n: nat, d: nat, j: Dir)
    requires IsRun(states, steps) && n < |states| && d < |states[n].descs|
    ensures states[n].descs[d].performed[j] <= Accepted(states, steps, n, d, j)
    ensures Increasing(Accepted(states, steps, n, d, j))
  {
    LogIsAccepted(states, steps, n, d, j);
    InvHolds(states, steps, n);
    assert DescOk(states[n].descs[d], states[n].locks[d], states[n].nextId);
  }

  // ---- Whose operations they are ----

  // Operation u was submitted before state n by a start_op for direction j of d.
  ghost predicate SubmittedTo(states: seq<State>, steps: seq<Step>, n: nat, u: nat, d: nat, j: Dir)
  {
    exists k :: 0 <= k < n && SubmittedBy(states, steps, k, u, d, j)
  }

  predicate SubmittedBy(states: seq<State>, steps: seq<Step>, k: nat, u: nat, d: nat, j: Dir)
  {
    k < |steps| && k < |states| && steps[k].StartOp? && steps[k].d == d && steps[k].j == j && states[k].nextId == u
  }

  lemma SubmittedLater(states: seq<State>, steps: seq<Step>, n: nat, u: nat, d: nat, j: Dir)
    requires SubmittedTo(states, steps, n, u, d, j)
    ensures SubmittedTo(states, steps, n + 1, u, d, j)
  {
    var k :| 0 <= k < n && SubmittedBy(states, steps, k, u, d, j);
    assert SubmittedBy(states, steps, k, u, d, j);
  }

  // A descriptor's mutex is held for u, submitted for direction j.
  predicate HoldsFor(s: State, d: nat, u: nat, j: Dir)
  {
    d < |s.locks| && s.locks[d].Starting? && s.locks[d].op == u && s.locks[d].j == j
  }

  lemma StartHolds(s: State, step: Step, d: nat, u: nat, j: Dir)
    requires CanStart(s, step) && HoldsFor(AfterStartOp(s, step), d, u, j)
    ensures HoldsFor(s, d, u, j) || (step.d == d && step.j == j && s.nextId == u)
  {
    PostKeepsPcs(Tried(s, step), s.nextId, step.continuation, step.caller);
  }

  lemma FinishHolds(s: State, step: Step, d: nat, u: nat, j: Dir)
    requires CanFinish(s, step) && HoldsFor(AfterFinishStart(s, step), d, u, j)
    ensures HoldsFor(s, d, u, j)
  {
    PostKeepsPcs(Resolved(s, step), s.locks[step.d].op, step.continuation, step.caller);
  }

  lemma OtherHolds(s: State, step: Step, d: nat, u: nat, j: Dir)
    requires Enabled(s, step) && !step.StartOp? && !step.FinishStart? && (DescriptorStep(step) || ScanStepLabel(step))
    requires HoldsFor(Next(s, step), d, u, j)
    ensures HoldsFor(s, d, u, j)
  {
  }

  lemma HoldsStep(s: State, step: Step, d: nat, u: nat, j: Dir)
    requires Enabled(s, step) && HoldsFor(Next(s, step), d, u, j)
    ensures HoldsFor(s, d, u, j) || (step.StartOp? && step.d == d && step.j == j && s.nextId == u)
  {
    if step.StartOp? {
      StartHolds(s, step, d, u, j);
    } else if step.FinishStart? {
      FinishHolds(s, step, d, u, j);
    } else if DescriptorStep(step) || ScanStepLabel(step) {
      OtherHolds(s, step, d, u, j);
    } else {
      LeavesDescriptors(s, step);
    }
  }

  // Before each step, too, or the step was the start_op.
  lemma HeldBefore(states: seq<State>, steps: seq<Step>, n: nat, d: nat, u: nat, j: Dir)
    requires IsRun(states, steps) && 0 < n < |states| && HoldsFor(states[n], d, u, j)
    ensures HoldsFor(states[n - 1], d, u, j) || SubmittedBy(states, steps, n - 1, u, d, j)
  {
    assert Taken(states, steps, n - 1);
    HoldsStep(states[n - 1], steps[n - 1], d, u, j);
  }

  lemma {:induction false} HeldForItsOwn(states: seq<State>, steps: seq<Step>, n: nat, d: nat, u: nat, j: Dir)
    requires IsRun(states, steps) && n < |states| && HoldsFor(states[n], d, u, j)
    ensures SubmittedTo(states, steps, n, u, d, j)
  {
    if n > 0 {
      HeldBefore(states, steps, n, d, u, j);
      if HoldsFor(states[n - 1], d, u, j) {
        HeldForItsOwn(states, steps, n - 1, d, u, j);
        SubmittedLater(states, steps, n - 1, u, d, j);
      }
    }
  }

  lemma {:induction false} ExceptOnly(us: seq<nat>, gone: seq<nat>, u: nat)
    requires u in Except(us, gone)
    ensures u in us
  {
    if us != [] && u != us[0] {
      ExceptOnly(us[1..], gone, u);
    }
  }

  /** A descriptor performs and queues in a direction only operations submitted by a
      start_op for that descriptor and direction. */
  lemma {:induction false} OnlyItsOwn(states: seq<State>, steps: seq<Step>, n: nat, d: nat, j: Dir, u: nat)
    requires IsRun(states, steps) && n < |states| && u in Accepted(states, steps, n, d, j)
    ensures SubmittedTo(states, steps, n, u, d, j)
  {
    var s, step, before := states[n - 1], steps[n - 1], Accepted(states, steps, n - 1, d, j);
    if u in before {
      OnlyItsOwn(states, steps, n - 1, d, j, u);
      SubmittedLater(states, steps, n - 1, u, d, j);
    } else if AcceptsNow(s, step, d, j) {
      assert SubmittedBy(states, steps, n - 1, u, d, j);
    } else if AcceptsHeld(s, step, d, j) {
      HeldForItsOwn(states, steps, n - 1, d, u, j);
      SubmittedLater(states, steps, n - 1, u, d, j);
    } else if Cancels(s, step, d) {
      ExceptOnly(before, s.descs[d].queues[j], u);
    }
  }

  lemma {:induction false} IdentifiersGrow(states: seq<State>, steps: seq<Step>, k: nat, n: nat)
    requires IsRun(states, steps) && k <= n < |states|
    ensures states[k].nextId <= states[n].nextId
    decreases n
  {
    if k < n {
      IdentifiersGrow(states, steps, k, n - 1);
      assert Taken(states, steps, n - 1);
      NextIdStep(states[n - 1], steps[n - 1]);
    }
  }

  /** An operation is submitted to one descriptor and direction. */
  lemma {:induction false} SubmittedOnce(states: seq<State>, steps: seq<Step>, n: nat, u: nat, d: nat, j: Dir, e: nat, i: Dir)
    requires IsRun(states, steps) && n < |states|
    requires SubmittedTo(states, steps, n, u, d, j) && SubmittedTo(states, steps, n, u, e, i)
    ensures d == e && j == i
  {
    var k :| 0 <= k < n && SubmittedBy(states, steps, k, u, d, j);
    var m :| 0 <= m < n && SubmittedBy(states, steps, m, u, e, i);
    if k < m {
      assert Taken(states, steps, k);
      NextIdStep(states[k], steps[k]);
      IdentifiersGrow(states, steps, k + 1, m);
    } else if m < k {
      assert Taken(states, steps, m);
      NextIdStep(states[m], steps[m]);
      IdentifiersGrow(states, steps, m + 1, k);
    }
  }
}
