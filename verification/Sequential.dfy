/** The methods of the classes Scheduler and DescriptorState that span several
    sections, each proved against a function of SchedulerCore, Descriptors or
    PerformIo, are the machine's steps run one after the other with nobody in
    between. */
module Sequential {
  import opened Prelude
  import opened SchedulerCore
  import opened Descriptors
  import opened Protocol
  import opened PerformIo

  /** ~work_cleanup: adding the private work, giving back a unit, stopping at
      zero and splicing the private queue, as four steps of thread t. */
  lemma {:induction false} WorkCleanupIsItsSteps(sc: Sched, t: nat)
    requires t < |sc.threads|
    ensures var th, r := sc.threads[t], CleanUpWork(sc.core, sc.threads[t].privateOps, sc.threads[t].privateWork);
      var flushed := FlushWork(sc, t);
      var given := GiveBack(flushed, t);
      var stopped := if given.threads[t].pc.Stopping? then Commit(SetPc(given, t, Splicing), StopAll(given.core)) else given;
      var spliced := SpliceOwn(stopped, t);
      && spliced.core == r.core
      && spliced.interrupt == (sc.interrupt || r.effect.interrupt)
      && spliced.threads[t] == Thread(Splicing, [], 0)
      && forall u :: 0 <= u < |sc.threads| && u != t ==>
           spliced.threads[u] == if r.effect.notify.All? then Awaken(sc.threads[u]) else sc.threads[u]
  {
  }

  /** A post by anybody takes the private path or the common one, as
      post_immediate_completion does: work_started, then the push and wake-up. */
  lemma {:induction false} PostIsItsSteps(s: State, u: nat, continuation: bool, caller: Option<nat>)
    requires Sized(s) && ValidCaller(s.sched, caller)
    ensures var s1 := PostImmediate(s, u, continuation, caller);
      if caller.Some? && (s.sched.core.oneThread || continuation) then
        && s1.sched.core == s.sched.core && s1.batches == s.batches
        && s1.sched.threads[caller.value].privateOps == s.sched.threads[caller.value].privateOps + [User(u)]
        && s1.sched.threads[caller.value].privateWork == s.sched.threads[caller.value].privateWork + 1
      else
        var step := PostBatch(|s.batches|);
        && Enabled(s1, step)
        && Next(s1, step).sched == Commit(s.sched, PostShared(s.sched.core, User(u)))
        && Next(s1, step).batches == s.batches
  {
    assert Users([u]) == [User(u)];
  }

  /** start_op: the speculative attempt, the placing of the operation, and its
      charge, as up to three steps. */
  lemma {:induction false} StartOpIsItsSteps(s: State, begin: Step, modOk: bool)
    requires CanStart(s, begin)
    ensures var d := begin.d;
      var finish := FinishStart(d, modOk, begin.continuation, begin.caller);
      var s1 := AfterStartOp(s, begin);
      var s2 := if s1.locks[d].Starting? then AfterFinishStart(s1, finish) else s1;
      var s3 := if s2.locks[d].Charging? then AfterCharge(s2, d) else s2;
      var f := StartWhole(s.descs[d], begin.j, begin.allow, begin.status, modOk, s.nextId);
      && s3.descs == s.descs[d := f.desc] && s3.locks[d].Free?
      && s3.sockets[d] == Controlled(Tried(s, begin).sockets[d], f)
      && s3.sched == (if f.outcome.Queued? then AddOutstanding(s.sched, 1)
                      else PostImmediate(s, s.nextId, begin.continuation, begin.caller).sched)
  {
    var d, r := begin.d, Begun(s, begin);
    var s1 := AfterStartOp(s, begin);
    if r.outcome.Hold? {
      assert r.desc == s.descs[d] && s1.descs == s.descs[d := r.desc];
    }
  }

  /** cancel_ops is the machine's step: the operations it returns are posted. */
  lemma CancelIsItsStep(s: State, d: nat, d': Desc, ops: seq<nat>)
    requires Enabled(s, Step.Cancel(d)) && CancelOpsDoes(s.descs[d], d', ops)
    ensures Next(s, Step.Cancel(d)) == s.(descs := s.descs[d := d'], batches := s.batches + [Batch(ops, true)])
  {
  }

  /** deregister_descriptor is the machine's step: the operations it returns are
      posted unless it only clears the caller's pointer, and what it takes out of
      epoll is no longer watched. */
  lemma DeregisterIsItsStep(s: State, d: nat, closing: bool, d': Desc, ops: seq<nat>, removed: bool, cleared: bool)
    requires Enabled(s, Deregister(d, closing)) && DeregisterDoes(s.descs[d], closing, d', ops, removed, cleared)
    ensures Next(s, Deregister(d, closing)) == s.(
      descs := s.descs[d := d'],
      batches := if cleared then s.batches else s.batches + [Batch(ops, true)],
      sockets := if removed then s.sockets[d := s.sockets[d].(interest := {}, pending := [false, false, false])]
                 else s.sockets)
  {
    assert s.descs[d := s.descs[d]] == s.descs;
  }

  // The turns of perform_io by thread t, to the end.
  function RunScan(s: State, t: nat, st: nat -> Status, after: bool): (r: State)
    requires Sized(s) && At(s, t) && s.sched.threads[t].pc.Scanning?
    requires s.sched.threads[t].pc.d < |s.descs| && s.sched.threads[t].pc.left <= 3
    ensures Sized(r) && At(r, t) && r.sched.threads[t].pc.Scanning? && r.sched.threads[t].pc.d < |r.descs|
    decreases s.sched.threads[t].pc.left,
              if 0 < s.sched.threads[t].pc.left
              then |s.descs[s.sched.threads[t].pc.d].queues[s.sched.threads[t].pc.left - 1]| else 0
  {
    var pc := s.sched.threads[t].pc;
    if pc.left == 0 then s
    else RunScan(AfterScanOne(s, t, PerformIo.Result(Scan(s.descs[pc.d], pc.left, pc.done), pc.events, st), after), t, st, after)
  }

  lemma {:induction false} OneTurn(s: State, t: nat, status: Status, after: bool)
    requires Sized(s) && At(s, t) && s.sched.threads[t].pc.Scanning?
    requires s.sched.threads[t].pc.d < |s.descs| && 0 < s.sched.threads[t].pc.left <= 3
    ensures var pc := s.sched.threads[t].pc;
      var n := ScanStep(Scan(s.descs[pc.d], pc.left, pc.done), pc.events, status);
      var s' := AfterScanOne(s, t, status, after);
      && Sized(s') && s'.locks == s.locks && s'.descs == s.descs[pc.d := n.desc]
      && s'.sched == SetPc(s.sched, t, Scanning(pc.d, pc.events, n.left, n.done))
  {
  }

  lemma {:induction false} SetPcTwice(sc: Sched, t: nat, a: Pc, b: Pc)
    requires t < |sc.threads|
    ensures SetPc(SetPc(sc, t, a), t, b) == SetPc(sc, t, b)
    ensures SetPc(sc, t, sc.threads[t].pc) == sc
  {
  }

  lemma {:induction false} RunScanIsScanAll(s: State, t: nat, st: nat -> Status, after: bool)
    requires Sized(s) && At(s, t) && s.sched.threads[t].pc.Scanning?
    requires s.sched.threads[t].pc.d < |s.descs| && s.sched.threads[t].pc.left <= 3
    ensures var pc := s.sched.threads[t].pc;
      var r := ScanAll(Scan(s.descs[pc.d], pc.left, pc.done), pc.events, st);
      var s' := RunScan(s, t, st, after);
      && r.left == 0 && s'.locks == s.locks
      && s'.descs == s.descs[pc.d := r.desc] && s'.sched == SetPc(s.sched, t, Scanning(pc.d, pc.events, 0, r.done))
    decreases s.sched.threads[t].pc.left,
              if 0 < s.sched.threads[t].pc.left
              then |s.descs[s.sched.threads[t].pc.d].queues[s.sched.threads[t].pc.left - 1]| else 0
  {
    var pc := s.sched.threads[t].pc;
    if pc.left == 0 {
      SetPcTwice(s.sched, t, pc, pc);
    } else {
      var c := Scan(s.descs[pc.d], pc.left, pc.done);
      var status := PerformIo.Result(c, pc.events, st);
      var n := ScanStep(c, pc.events, status);
      OneTurn(s, t, status, after);
      RunScanIsScanAll(AfterScanOne(s, t, status, after), t, st, after);
      var r := ScanAll(n, pc.events, st);
      SetPcTwice(s.sched, t, Scanning(pc.d, pc.events, n.left, n.done), Scanning(pc.d, pc.events, 0, r.done));
    }
  }

  // The end of perform_io: what was performed is executed, posted or compensated.
  function HandOver(sc: Sched, t: nat, done: seq<nat>): Sched
    requires t < |sc.threads|
  {
    var th := sc.threads[t];
    if done == [] then SetThread(sc, t, th.(pc := Compensated, privateWork := th.privateWork + 1))
    else
      var running := SetPc(sc, t, Running(done[0]));
      if |done| == 1 then running
      else if sc.core.oneThread then AddPrivate(running, t, Users(done[1..]), 0)
      else Push(running, Users(done[1..]))
  }

  lemma {:induction false} EndingScan(s: State, sc: Sched, t: nat, d: nat, events: Events, done: seq<nat>)
    requires Sized(s) && d < |s.descs| && t < |sc.threads| && s.sched == SetPc(sc, t, Scanning(d, events, 0, done))
    ensures var s1 := AfterEndScan(s, t);
      var s2 := if s1.sched.threads[t].pc.Posting? then AfterPostRest(s1, t) else s1;
      s2.descs == s.descs && s2.locks == s.locks[d := Free] && s2.sched == HandOver(sc, t, done)
  {
    if done == [] {
      assert AfterEndScan(s, t).sched.threads == HandOver(sc, t, done).threads;
    } else {
      SetPcTwice(sc, t, Scanning(d, events, 0, done), Running(done[0]));
      if |done| > 1 {
        SetPcTwice(sc, t, Scanning(d, events, 0, done), Posting(done[0], done[1..]));
        SetPcTwice(sc, t, Posting(done[0], done[1..]), Running(done[0]));
        PostsEither(sc, t, Posting(done[0], done[1..]), Running(done[0]), Users(done[1..]));
      }
    }
  }

  lemma {:induction false} PostsEither(sc: Sched, t: nat, a: Pc, b: Pc, ops: seq<Op<nat>>)
    requires t < |sc.threads|
    ensures SetPc(AddPrivate(SetPc(sc, t, a), t, ops, 0), t, b) == AddPrivate(SetPc(sc, t, b), t, ops, 0)
  {
  }

  /** perform_io: taking the mutex, the turns of the loops, releasing it, and handing
      over what was performed: the first operation to be executed, the rest posted,
      or, with none, a unit to make up for the one about to be given back. */
  lemma {:induction false} PerformIoIsItsSteps(s: State, t: nat, st: nat -> Status, after: bool)
    requires Sized(s) && At(s, t) && s.sched.threads[t].pc.Performing? && s.sched.threads[t].pc.d < |s.descs|
    ensures var pc := s.sched.threads[t].pc;
      var r := ScanAll(ScanBegin(s.descs[pc.d], pc.events), pc.events, st);
      var s1 := AfterEndScan(RunScan(AfterBeginScan(s, t), t, st, after), t);
      var s2 := if s1.sched.threads[t].pc.Posting? then AfterPostRest(s1, t) else s1;
      s2.descs == s.descs[pc.d := r.desc] && s2.locks[pc.d].Free? && s2.sched == HandOver(s.sched, t, r.done)
  {
    var pc := s.sched.threads[t].pc;
    var b := ScanBegin(s.descs[pc.d], pc.events);
    var r := ScanAll(b, pc.events, st);
    RunScanIsScanAll(AfterBeginScan(s, t), t, st, after);
    SetPcTwice(s.sched, t, Scanning(pc.d, pc.events, b.left, b.done), Scanning(pc.d, pc.events, 0, r.done));
    EndingScan(RunScan(AfterBeginScan(s, t), t, st, after), s.sched, t, pc.d, pc.events, r.done);
  }
}
