/** A whole perform_io (epoll_reactor.cc:330-357), uninterrupted: the steps that
    Protocol interleaves, run to the end with an arbitrary perform() oracle, and
    what they amount to. */
module PerformIo {
  import opened Descriptors

  // An operation is performed at most once in a call, so its result is a
  // function of the operation.
  function Result(c: Scan, events: Events, st: nat -> Status): Status
    requires 0 < c.left <= 3
  {
    if Performs(c, events) then st(c.desc.queues[c.left - 1][0]) else NotDone
  }

  function ScanAll(c: Scan, events: Events, st: nat -> Status): Scan
    requires c.left <= 3
    decreases c.left, if 0 < c.left then |c.desc.queues[c.left - 1]| else 0
  {
    if c.left == 0 then c else ScanAll(ScanStep(c, events, Result(c, events, st)), events, st)
  }

  /** How many operations at the front of a queue are performed. */
  function Taken(q: seq<nat>, st: nat -> Status): (k: nat)
    ensures k <= |q|
  {
    if q == [] then 0
    else match st(q[0])
      case NotDone => 0
      case DoneAndExhausted => 1
      case Done => 1 + Taken(q[1..], st)
  }

  // The last operation performed found the direction exhausted.
  predicate Exhausts(q: seq<nat>, st: nat -> Status)
  {
    if q == [] then false
    else match st(q[0])
      case NotDone => false
      case DoneAndExhausted => true
      case Done => Exhausts(q[1..], st)
  }

  /** The prefix taken: all but perhaps the last are plainly done, and the loop
      stops only at the end of the queue or with the direction not ready. */
  lemma {:induction false} TakenStops(q: seq<nat>, st: nat -> Status)
    ensures var k := Taken(q, st);
      && (forall i :: 0 <= i < k ==> st(q[i]) == if i == k - 1 && Exhausts(q, st) then DoneAndExhausted else Done)
      && (k == |q| || st(q[k]).NotDone? || Exhausts(q, st))
      && (Exhausts(q, st) ==> k > 0)
  {
    if q != [] && st(q[0]).Done? {
      TakenStops(q[1..], st);
      var k := Taken(q[1..], st);
      forall i | 0 <= i < k + 1
        ensures st(q[i]) == if i == k && Exhausts(q, st) then DoneAndExhausted else Done
      {
        if i > 0 {
          assert q[i] == q[1..][i - 1];
        }
      }
    }
  }

  // What a call does to one direction.
  function TakenIn(d: Desc, events: Events, st: nat -> Status, j: Dir): (k: nat)
    ensures k <= |d.queues[j]|
  {
    if Selects(events, j) then Taken(d.queues[j], st) else 0
  }

  predicate ExhaustsIn(d: Desc, events: Events, st: nat -> Status, j: Dir)
  {
    Selects(events, j) && Exhausts(d.queues[j], st)
  }

  // The current direction of a scan, done with.
  function Finish(c: Scan, events: Events, st: nat -> Status): Scan
    requires 0 < c.left <= 3
  {
    var j: Dir := c.left - 1;
    var q := c.desc.queues[j];
    var k := TakenIn(c.desc, events, st, j);
    NextDirection(Scan(c.desc.(queues := c.desc.queues[j := q[k..]],
                               performed := c.desc.performed[j := c.desc.performed[j] + q[..k]],
                               speculative := if ExhaustsIn(c.desc, events, st, j) then c.desc.speculative[j := false]
                                              else c.desc.speculative),
                       c.left, c.done + q[..k]), events)
  }

  lemma {:induction false} ScanDirection(c: Scan, events: Events, st: nat -> Status)
    requires 0 < c.left <= 3
    ensures ScanAll(c, events, st) == ScanAll(Finish(c, events, st), events, st)
    decreases |c.desc.queues[c.left - 1]|
  {
    var j: Dir := c.left - 1;
    var q := c.desc.queues[j];
    TakenStops(q, st);
    var next := ScanStep(c, events, Result(c, events, st));
    if Performs(c, events) && st(q[0]).Done? {
      ScanDirection(next, events, st);
      FinishLater(c, events, st);
    } else {
      FinishNow(c, events, st);
    }
  }

  // The direction ends with this turn: nothing more is performed.
  lemma FinishIdle(c: Scan, events: Events, st: nat -> Status)
    requires 0 < c.left <= 3
    requires !Performs(c, events) || st(c.desc.queues[c.left - 1][0]).NotDone?
    ensures Finish(c, events, st) == NextDirection(c, events)
  {
    var j: Dir := c.left - 1;
    var q, p := c.desc.queues[j], c.desc.performed[j];
    assert TakenIn(c.desc, events, st, j) == 0 && !ExhaustsIn(c.desc, events, st, j);
    assert q[0..] == q && q[..0] == [] && c.done + [] == c.done && p + [] == p;
    assert c.desc.queues[j := q] == c.desc.queues && c.desc.performed[j := p] == c.desc.performed;
    assert c.desc.(queues := c.desc.queues, performed := c.desc.performed, speculative := c.desc.speculative) == c.desc;
  }

  // Or the last operation is.
  lemma FinishExhausted(c: Scan, events: Events, st: nat -> Status)
    requires 0 < c.left <= 3 && Performs(c, events) && st(c.desc.queues[c.left - 1][0]).DoneAndExhausted?
    ensures ScanStep(c, events, DoneAndExhausted) == Finish(c, events, st)
  {
    var j: Dir := c.left - 1;
    var q := c.desc.queues[j];
    assert TakenIn(c.desc, events, st, j) == 1 && ExhaustsIn(c.desc, events, st, j);
    assert q[..1] == [q[0]];
  }

  lemma FinishNow(c: Scan, events: Events, st: nat -> Status)
    requires 0 < c.left <= 3
    requires !Performs(c, events) || !st(c.desc.queues[c.left - 1][0]).Done?
    ensures ScanStep(c, events, Result(c, events, st)) == Finish(c, events, st)
  {
    if !Performs(c, events) || st(c.desc.queues[c.left - 1][0]).NotDone? {
      FinishIdle(c, events, st);
    } else {
      FinishExhausted(c, events, st);
    }
  }

  lemma Moved(taken: seq<nat>, q: seq<nat>, k: nat)
    requires q != [] && k < |q|
    ensures q[1..][k..] == q[k + 1..] && taken + [q[0]] + q[1..][..k] == taken + q[..k + 1]
  {
    assert [q[0]] + q[1..][..k] == q[..k + 1];
  }

  // The direction goes on after this turn.
  lemma FinishLater(c: Scan, events: Events, st: nat -> Status)
    requires 0 < c.left <= 3 && Performs(c, events) && st(c.desc.queues[c.left - 1][0]).Done?
    ensures Finish(ScanStep(c, events, Done), events, st) == Finish(c, events, st)
  {
    var j: Dir := c.left - 1;
    var q, p := c.desc.queues[j], c.desc.performed[j];
    var k := Taken(q[1..], st);
    var n := ScanStep(c, events, Done);
    assert n.desc.queues[j] == q[1..] && n.desc.performed[j] == p + [q[0]] && n.done == c.done + [q[0]];
    assert TakenIn(n.desc, events, st, j) == k && TakenIn(c.desc, events, st, j) == k + 1;
    Moved(p, q, k);
    Moved(c.done, q, k);
    assert n.desc.queues[j := q[k + 1..]] == c.desc.queues[j := q[k + 1..]];
    assert n.desc.performed[j := p + q[..k + 1]] == c.desc.performed[j := p + q[..k + 1]];
  }

  // A call's effect on direction j, whichever other directions it has finished.
  predicate SplitAt(d: Desc, d': Desc, events: Events, st: nat -> Status, j: Dir)
  {
    var k := TakenIn(d, events, st, j);
    && d'.queues[j] == d.queues[j][k..]
    && d'.performed[j] == d.performed[j] + d.queues[j][..k]
    && d'.speculative[j] == if Selects(events, j) then !ExhaustsIn(d, events, st, j) else d.speculative[j]
  }

  predicate Untouched(d: Desc, d': Desc, j: Dir)
  {
    d'.queues[j] == d.queues[j] && d'.performed[j] == d.performed[j] && d'.speculative[j] == d.speculative[j]
  }

  lemma FinishSplits(d: Desc, c: Scan, events: Events, st: nat -> Status)
    requires 0 < c.left <= 3 && c.desc.registered == d.registered && c.desc.shutdown == d.shutdown
    requires var j: Dir := c.left - 1; Untouched(Enter(d, events, c.left), c.desc, j)
    ensures var j: Dir := c.left - 1;
      var n := Finish(c, events, st);
      && n.left == j && SplitAt(d, n.desc, events, st, j)
      && n.done == c.done + d.queues[j][..TakenIn(d, events, st, j)]
      && n.desc.registered == d.registered && n.desc.shutdown == d.shutdown
  {
  }

  // The directions already done stay as they are, and the next is entered as it
  // was at the start.
  lemma FinishSpares(d: Desc, c: Scan, events: Events, st: nat -> Status, i: Dir)
    requires 0 < c.left <= 3
    ensures var n := Finish(c, events, st);
      && (i > c.left - 1 ==> Untouched(c.desc, n.desc, i))
      && (i < c.left - 2 ==> Untouched(c.desc, n.desc, i))
      && (i == c.left - 2 && Untouched(d, c.desc, i) ==> Untouched(Enter(d, events, c.left - 1), n.desc, i))
  {
  }

  /** perform_io splits each selected queue into a performed prefix and an
      untouched suffix, leaves the others alone, and collects the performed
      operations in the order except, write, read. */
  lemma PerformIoSplits(d: Desc, events: Events, st: nat -> Status)
    ensures var r := ScanAll(ScanBegin(d, events), events, st);
      && r.left == 0
      && (forall j: Dir :: SplitAt(d, r.desc, events, st, j))
      && r.desc.registered == d.registered && r.desc.shutdown == d.shutdown
      && r.done == d.queues[EXCEPT][..TakenIn(d, events, st, EXCEPT)] + d.queues[WRITE][..TakenIn(d, events, st, WRITE)]
                   + d.queues[READ][..TakenIn(d, events, st, READ)]
  {
    var c3 := ScanBegin(d, events);
    FinishSplits(d, c3, events, st);
    FinishSpares(d, c3, events, st, WRITE);
    FinishSpares(d, c3, events, st, READ);
    ScanDirection(c3, events, st);
    var c2 := Finish(c3, events, st);
    FinishSplits(d, c2, events, st);
    FinishSpares(d, c2, events, st, EXCEPT);
    FinishSpares(d, c2, events, st, READ);
    ScanDirection(c2, events, st);
    var c1 := Finish(c2, events, st);
    FinishSplits(d, c1, events, st);
    FinishSpares(d, c1, events, st, EXCEPT);
    FinishSpares(d, c1, events, st, WRITE);
    ScanDirection(c1, events, st);
    var c0 := Finish(c1, events, st);
    assert SplitAt(d, c0.desc, events, st, EXCEPT) && SplitAt(d, c0.desc, events, st, WRITE);
    assert [] + d.queues[EXCEPT][..TakenIn(d, events, st, EXCEPT)] == d.queues[EXCEPT][..TakenIn(d, events, st, EXCEPT)];
  }

  /** Each selected queue ends empty or with its direction not ready: the next
      perform() has failed, or the last has exhausted the direction, and then
      speculation is off. */
  lemma SelectedQueuesDrain(d: Desc, events: Events, st: nat -> Status, j: Dir)
    requires Selects(events, j)
    ensures var d' := ScanAll(ScanBegin(d, events), events, st).desc;
      || d'.queues[j] == []
      || st(d'.queues[j][0]).NotDone?
      || (!d'.speculative[j] && |d'.queues[j]| < |d.queues[j]|
          && st(d.queues[j][|d.queues[j]| - |d'.queues[j]| - 1]).DoneAndExhausted?)
  {
    PerformIoSplits(d, events, st);
    var q := d.queues[j];
    var k := Taken(q, st);
    TakenStops(q, st);
    assert SplitAt(d, ScanAll(ScanBegin(d, events), events, st).desc, events, st, j);
    if Exhausts(q, st) {
      assert st(q[k - 1]).DoneAndExhausted?;
    }
  }

  // A call's effect on one queue: its performed prefix gone, or nothing at all.
  predicate Served(d: Desc, d': Desc, st: nat -> Status, j: Dir, selected: bool)
  {
    var k := if selected then Taken(d.queues[j], st) else 0;
    && d'.queues[j] == d.queues[j][k..] && d'.performed[j] == d.performed[j] + d.queues[j][..k]
    && d'.speculative[j] == if selected then !Exhausts(d.queues[j], st) else d.speculative[j]
  }

  /** Which events serve which queue: an error or a hang-up serves all three;
      otherwise readability the reads, writability the writes and priority data the
      out-of-band operations, each of them only its own. */
  lemma PerformIoByFlags(d: Desc, events: Events, st: nat -> Status)
    ensures var d' := ScanAll(ScanBegin(d, events), events, st).desc;
      var all := EpollErr in events || EpollHup in events;
      && Served(d, d', st, READ, all || EpollIn in events)
      && Served(d, d', st, WRITE, all || EpollOut in events)
      && Served(d, d', st, EXCEPT, all || EpollPri in events)
  {
    PerformIoSplits(d, events, st);
    var d' := ScanAll(ScanBegin(d, events), events, st).desc;
    assert SplitAt(d, d', events, st, READ) && SplitAt(d, d', events, st, WRITE) && SplitAt(d, d', events, st, EXCEPT);
  }

  /** And what is returned: the performed operations, out-of-band first and reads
      last, each queue's own from its front. */
  lemma PerformIoReturns(d: Desc, events: Events, st: nat -> Status)
    ensures var r := ScanAll(ScanBegin(d, events), events, st);
      var d' := r.desc;
      && (forall j: Dir :: d.performed[j] <= d'.performed[j])
      && r.done == d'.performed[EXCEPT][|d.performed[EXCEPT]|..] + d'.performed[WRITE][|d.performed[WRITE]|..]
                   + d'.performed[READ][|d.performed[READ]|..]
  {
    PerformIoSplits(d, events, st);
    var r := ScanAll(ScanBegin(d, events), events, st);
    forall j: Dir
      ensures d.performed[j] <= r.desc.performed[j]
      ensures r.desc.performed[j][|d.performed[j]|..] == d.queues[j][..TakenIn(d, events, st, j)]
    {
      assert SplitAt(d, r.desc, events, st, j);
    }
  }
}
