/** Exactly-once conservation of operations and exact work accounting. */
module Accounting {
  import opened Prelude
  import opened SchedulerCore
  import opened Descriptors
  import opened Protocol
  import opened Totals

  // ---- How often an operation is held by each part of the state ----

  function DescLoad(w: Weight, d: Desc): nat
  {
    WeightOfIds(w, d.queues[0]) + WeightOfIds(w, d.queues[1]) + WeightOfIds(w, d.queues[2])
  }

  function DescsLoad(w: Weight, ds: seq<Desc>): nat
  {
    if ds == [] then 0 else DescLoad(w, ds[0]) + DescsLoad(w, ds[1..])
  }

  // The operations inside a start_op that has not yet placed them, and those it
  // has queued and not yet charged.
  datatype Inside = ToPlace(w: Weight) | ToCharge

  function LockLoad(k: Inside, m: Mutex): nat
  {
    match k
    case ToPlace(w) => if m.Starting? then w.Of(m.op) else 0
    case ToCharge => if m.Charging? then 1 else 0
  }

  function LocksLoad(k: Inside, ms: seq<Mutex>): nat
  {
    if ms == [] then 0 else LockLoad(k, ms[0]) + LocksLoad(k, ms[1..])
  }

  function BatchesLoad(w: Weight, bs: seq<Batch>): nat
  {
    if bs == [] then 0 else WeightOfIds(w, bs[0].ops) + BatchesLoad(w, bs[1..])
  }

  function SchedLoad(w: Weight, sc: Sched): nat { WeightOfOps(w, sc.core.ops) + Total(Load(w), sc.threads) }

  /** How often the operations of weight w occur in the machine: in the shared
      queue, a private queue or the hands of a thread, a descriptor queue, a
      start_op in progress, or a post in progress. */
  function Held(w: Weight, s: State): nat
  {
    SchedLoad(w, s.sched) + DescsLoad(w, s.descs) + LocksLoad(ToPlace(w), s.locks) + BatchesLoad(w, s.batches)
  }

  /** Every submitted operation is in exactly one place, or completed once. */
  ghost predicate Conserved(s: State)
  {
    forall u: nat :: Held(Just(u), s) + WeightOfIds(Just(u), s.completed) == if u < s.nextId then 1 else 0
  }

  // The operations inside a start_op that has not yet charged for them.
  function Owed(m: Mutex): nat { if m.Starting? || m.Charging? then 1 else 0 }

  function Uncharged(ms: seq<Mutex>): nat { LocksLoad(ToPlace(Everything), ms) + LocksLoad(ToCharge, ms) }

  /** The counters, less what they count besides operations: guards, the unit of
      an empty perform_io or of a completed operation not yet given back; plus
      the operations not yet charged. */
  function Ledger(s: State): int
  {
    s.sched.core.outstanding + Total(Work, s.sched.threads) + Uncharged(s.locks)
    - s.guards - Total(Units, s.sched.threads)
  }

  /** The work-accounting equation. */
  ghost predicate Accounted(s: State) { Ledger(s) == Held(Everything, s) }

  // ---- Sums under an update ----

  lemma {:induction false} DescsUpdate(w: Weight, ds: seq<Desc>, i: nat, d: Desc)
    requires i < |ds|
    ensures DescsLoad(w, ds[i := d]) == DescsLoad(w, ds) - DescLoad(w, ds[i]) + DescLoad(w, d)
  {
    if i == 0 {
      assert ds[i := d][1..] == ds[1..];
    } else {
      DescsUpdate(w, ds[1..], i - 1, d);
      assert ds[i := d][1..] == ds[1..][i - 1 := d];
    }
  }

  lemma {:induction false} DescsSnoc(w: Weight, ds: seq<Desc>, d: Desc)
    ensures DescsLoad(w, ds + [d]) == DescsLoad(w, ds) + DescLoad(w, d)
  {
    if ds == [] {
      assert ds + [d] == [d];
    } else {
      DescsSnoc(w, ds[1..], d);
      assert (ds + [d])[1..] == ds[1..] + [d];
    }
  }

  lemma {:induction false} LocksUpdate(k: Inside, ms: seq<Mutex>, i: nat, m: Mutex)
    requires i < |ms|
    ensures LocksLoad(k, ms[i := m]) == LocksLoad(k, ms) - LockLoad(k, ms[i]) + LockLoad(k, m)
  {
    if i == 0 {
      assert ms[i := m][1..] == ms[1..];
    } else {
      LocksUpdate(k, ms[1..], i - 1, m);
      assert ms[i := m][1..] == ms[1..][i - 1 := m];
    }
  }

  lemma {:induction false} LocksSnoc(k: Inside, ms: seq<Mutex>, m: Mutex)
    ensures LocksLoad(k, ms + [m]) == LocksLoad(k, ms) + LockLoad(k, m)
  {
    if ms == [] {
      assert ms + [m] == [m];
    } else {
      LocksSnoc(k, ms[1..], m);
      assert (ms + [m])[1..] == ms[1..] + [m];
    }
  }

  lemma UnchargedUpdate(ms: seq<Mutex>, i: nat, m: Mutex)
    requires i < |ms|
    ensures Uncharged(ms[i := m]) == Uncharged(ms) - Owed(ms[i]) + Owed(m)
  {
    LocksUpdate(ToPlace(Everything), ms, i, m);
    LocksUpdate(ToCharge, ms, i, m);
  }

  lemma {:induction false} BatchesSnoc(w: Weight, bs: seq<Batch>, b: Batch)
    ensures BatchesLoad(w, bs + [b]) == BatchesLoad(w, bs) + WeightOfIds(w, b.ops)
  {
    if bs == [] {
      assert bs + [b] == [b];
    } else {
      BatchesSnoc(w, bs[1..], b);
      assert (bs + [b])[1..] == bs[1..] + [b];
    }
  }

  lemma {:induction false} BatchesWithout(w: Weight, bs: seq<Batch>, i: nat)
    requires i < |bs|
    ensures BatchesLoad(w, Without(bs, i)) == BatchesLoad(w, bs) - WeightOfIds(w, bs[i].ops)
  {
    if i == 0 {
      assert Without(bs, i) == bs[1..];
    } else {
      BatchesWithout(w, bs[1..], i - 1);
      assert Without(bs, i)[1..] == Without(bs[1..], i - 1);
    }
  }

  // ---- Descriptor sections move operations, nothing else ----

  lemma EnqueueLoad(w: Weight, d: Desc, j: Dir, u: nat)
    ensures DescLoad(w, Enqueue(d, j, u)) == DescLoad(w, d) + w.Of(u)
  {
    IdsConcat(w, d.queues[j], [u]);
    assert WeightOfIds(w, [u]) == w.Of(u) + WeightOfIds(w, []);
  }

  /** start_op puts the operation in the descriptor queue exactly when it
      reports it queued. */
  lemma StartBeginLoad(w: Weight, d: Desc, j: Dir, allow: bool, status: Status, u: nat)
    ensures var r := StartBegin(d, j, allow, status, u);
      DescLoad(w, r.desc) == DescLoad(w, d) + if r.outcome.Queued? then w.Of(u) else 0
  {
    EnqueueLoad(w, d, j, u);
  }

  lemma StartFinishLoad(w: Weight, d: Desc, j: Dir, speculative: bool, modOk: bool, u: nat)
    ensures var r := StartFinish(d, j, speculative, modOk, u);
      && !r.outcome.Hold?
      && DescLoad(w, r.desc) == DescLoad(w, d) + if r.outcome.Queued? then w.Of(u) else 0
  {
    EnqueueLoad(w, d, j, u);
    EnqueueLoad(w, d.(registered := d.registered + {EpollOut}), j, u);
  }

  lemma CancelLoad(w: Weight, d: Desc)
    ensures DescLoad(w, d) == DescLoad(w, Cancelled(d)) + WeightOfIds(w, AllQueued(d))
  {
    IdsConcat(w, d.queues[READ] + d.queues[WRITE], d.queues[EXCEPT]);
    IdsConcat(w, d.queues[READ], d.queues[WRITE]);
  }

  lemma PopLoad(w: Weight, d: Desc, j: Dir)
    requires d.queues[j] != []
    ensures DescLoad(w, d.(queues := d.queues[j := d.queues[j][1..]])) + w.Of(d.queues[j][0]) == DescLoad(w, d)
  {
  }

  lemma ScanStepLoad(w: Weight, c: Scan, events: Events, status: Status)
    requires 0 < c.left <= 3
    ensures var r := ScanStep(c, events, status);
      DescLoad(w, r.desc) + WeightOfIds(w, r.done) == DescLoad(w, c.desc) + WeightOfIds(w, c.done)
  {
    if Performs(c, events) && !status.NotDone? {
      var j: Dir := c.left - 1;
      var u := c.desc.queues[j][0];
      PopLoad(w, c.desc, j);
      assert ScanStep(c, events, status).done == c.done + [u];
      assert ScanStep(c, events, status).desc.queues == c.desc.queues[j := c.desc.queues[j][1..]];
      IdsConcat(w, c.done, [u]);
      assert WeightOfIds(w, [u]) == w.Of(u) + WeightOfIds(w, []);
    } else {
      assert ScanStep(c, events, status).desc.queues == c.desc.queues;
    }
  }

  // ---- Scheduler sections ----

  lemma CommitLoad(w: Weight, sc: Sched, r: Result<nat>)
    ensures SchedLoad(w, Commit(sc, r)) == WeightOfOps(w, r.core.ops) + Total(Load(w), sc.threads)
  {
    DeliverKeepsTotals(Load(w), sc.threads, r.effect.notify);
  }

  lemma PushLoad(w: Weight, sc: Sched, ops: seq<Op<nat>>)
    ensures SchedLoad(w, Push(sc, ops)) == SchedLoad(w, sc) + WeightOfOps(w, ops)
  {
    var r := PushAndWake(sc.core, ops);
    assert r.core.ops == sc.core.ops + ops;
    OpsConcat(w, sc.core.ops, ops);
    CommitLoad(w, sc, r);
  }

  lemma SetLoad(w: Weight, sc: Sched, t: nat, th: Thread)
    requires t < |sc.threads|
    ensures SchedLoad(w, SetThread(sc, t, th)) == SchedLoad(w, sc) - Of(Load(w), sc.threads[t]) + Of(Load(w), th)
  {
    TotalUpdate(Load(w), sc.threads, t, th);
  }

  lemma TurnLoad(w: Weight, c: Core<nat>, results: seq<Events>)
    ensures var p := TakeTurn(c);
      WeightOfOps(w, p.core.ops) + PcLoad(w, AfterTurn(p.turn, results)) == WeightOfOps(w, c.ops)
  {
  }

  // Popping moves an operation from the queue into the hands of the thread.
  lemma LoopLoad(w: Weight, sc: Sched, results: seq<Events>, t: nat)
    requires t < |sc.threads| && PcLoad(w, sc.threads[t].pc) == 0
    ensures SchedLoad(w, Loop(sc, results, t)) == SchedLoad(w, sc)
  {
    var p := TakeTurn(sc.core);
    var pc := AfterTurn(p.turn, results);
    TurnLoad(w, sc.core, results);
    SetLoad(w, sc, t, sc.threads[t].(pc := pc));
    CommitLoad(w, SetPc(sc, t, pc), Result(p.core, p.effect));
  }

  lemma SpliceLoad(w: Weight, sc: Sched, t: nat)
    requires t < |sc.threads|
    ensures SchedLoad(w, SpliceOwn(sc, t)) == SchedLoad(w, sc)
  {
    OpsConcat(w, sc.core.ops, sc.threads[t].privateOps);
    TotalUpdate(Load(w), sc.threads, t, sc.threads[t].(privateOps := []));
  }

  lemma EndTaskLoad(w: Weight, sc: Sched, t: nat)
    requires t < |sc.threads|
    ensures SchedLoad(w, EndTask(sc, t)) == SchedLoad(w, sc)
  {
    var th := sc.threads[t];
    OpsConcat(w, sc.core.ops + th.privateOps, [Task]);
    OpsConcat(w, sc.core.ops, th.privateOps);
    TotalUpdate(Load(w), sc.threads, t, th.(privateOps := [], privateWork := 0));
    assert WeightOfOps(w, [Task]) == WeightOfOps(w, []);
  }

  lemma AddPrivateLoad(w: Weight, sc: Sched, t: nat, ops: seq<Op<nat>>, work: nat)
    requires t < |sc.threads|
    ensures SchedLoad(w, AddPrivate(sc, t, ops, work)) == SchedLoad(w, sc) + WeightOfOps(w, ops)
  {
    OpsConcat(w, sc.threads[t].privateOps, ops);
    SetLoad(w, sc, t, AddPrivate(sc, t, ops, work).threads[t]);
  }

  lemma PostLoad(w: Weight, s: State, u: nat, continuation: bool, caller: Option<nat>)
    requires ValidCaller(s.sched, caller)
    ensures Held(w, PostImmediate(s, u, continuation, caller)) == Held(w, s) + w.Of(u)
  {
    if caller.Some? {
      AddPrivateLoad(w, s.sched, caller.value, [User(u)], 1);
    }
    BatchesSnoc(w, s.batches, Batch([u], false));
    assert WeightOfIds(w, [u]) == w.Of(u) + WeightOfIds(w, []);
    assert WeightOfOps(w, [User(u)]) == w.Of(u) + WeightOfOps(w, []);
  }
}
