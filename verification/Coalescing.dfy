/** The event loop of epoll_reactor::run (epoll_reactor.cc:60-75): a list of
    reported events becomes a list of descriptor operations to run, each with
    the union of its events in task_result_. */
module Coalescing {
  import opened Descriptors
  import opened SchedulerCore

  datatype Report = Interrupter | Ready(d: nat, events: Events)

  datatype Gathered = Gathered(ops: seq<Op<nat>>, results: seq<Events>)

  predicate InRange(reports: seq<Report>, n: nat)
  {
    forall i :: 0 <= i < |reports| && reports[i].Ready? ==> reports[i].d < n
  }

  function Absorb(g: Gathered, r: Report): Gathered
    requires r.Ready? ==> r.d < |g.results|
  {
    if r.Interrupter? then g
    else if Descriptor(r.d) !in g.ops then
      Gathered(g.ops + [Descriptor(r.d)], g.results[r.d := r.events])
    else
      g.(results := g.results[r.d := g.results[r.d] + r.events])
  }

  function Gather(g: Gathered, reports: seq<Report>): (r: Gathered)
    requires InRange(reports, |g.results|)
    ensures |r.results| == |g.results|
    decreases |reports|
  {
    if reports == [] then g else Gather(Absorb(g, reports[0]), reports[1..])
  }

  // ---- What coalescing guarantees ----

  ghost predicate Names(r: Report, d: nat) { r.Ready? && r.d == d }

  ghost predicate Reported(reports: seq<Report>, d: nat)
  {
    exists i :: 0 <= i < |reports| && Names(reports[i], d)
  }

  ghost predicate ReportedFlag(reports: seq<Report>, d: nat, f: Flag)
  {
    exists i :: 0 <= i < |reports| && Names(reports[i], d) && f in reports[i].events
  }

  predicate Distinct(ops: seq<Op<nat>>)
  {
    forall i, k :: 0 <= i < k < |ops| ==> ops[i] != ops[k]
  }

  predicate OnlyDescriptors(ops: seq<Op<nat>>, n: nat)
  {
    forall i :: 0 <= i < |ops| ==> ops[i].Descriptor? && ops[i].d < n
  }

  lemma {:induction false} GatherSnoc(g: Gathered, reports: seq<Report>, r: Report)
    requires InRange(reports, |g.results|) && (r.Ready? ==> r.d < |g.results|)
    ensures InRange(reports + [r], |g.results|)
    ensures Gather(g, reports + [r]) == Absorb(Gather(g, reports), r)
    decreases |reports|
  {
    if reports != [] {
      assert (reports + [r])[0] == reports[0] && (reports + [r])[1..] == reports[1..] + [r];
      GatherSnoc(Absorb(g, reports[0]), reports[1..], r);
    }
  }

  /** Coalescing loses nothing: the descriptors queued are those already there
      and those reported, none twice, and the events of a reported descriptor
      are exactly the union of its reports. */
  lemma {:induction false} GatherLosesNothing(results: seq<Events>, reports: seq<Report>)
    requires InRange(reports, |results|)
    ensures var r := Gather(Gathered([], results), reports);
      && OnlyDescriptors(r.ops, |results|) && Distinct(r.ops)
      && (forall d :: Descriptor(d) in r.ops <==> Reported(reports, d))
      && (forall d, f :: 0 <= d < |results| && Reported(reports, d) ==>
            (f in r.results[d] <==> ReportedFlag(reports, d, f)))
      && (forall d :: 0 <= d < |results| && !Reported(reports, d) ==> r.results[d] == results[d])
    decreases |reports|
  {
    if reports != [] {
      var n := |reports| - 1;
      var front, last := reports[..n], reports[n];
      assert reports == front + [last];
      GatherLosesNothing(results, front);
      GatherSnoc(Gathered([], results), front, last);
      ReportedSnoc(front, last);
    }
  }

  lemma ReportedSnoc(front: seq<Report>, last: Report)
    ensures forall d :: Reported(front + [last], d) <==> Reported(front, d) || Names(last, d)
    ensures forall d, f :: ReportedFlag(front + [last], d, f)
              <==> ReportedFlag(front, d, f) || (Names(last, d) && f in last.events)
  {
    var all := front + [last];
    forall d
      ensures Reported(all, d) <==> Reported(front, d) || Names(last, d)
    {
      if Reported(front, d) {
        var i :| 0 <= i < |front| && Names(front[i], d);
        assert Names(all[i], d);
      }
      assert all[|front|] == last;
    }
    forall d, f
      ensures ReportedFlag(all, d, f) <==> ReportedFlag(front, d, f) || (Names(last, d) && f in last.events)
    {
      if ReportedFlag(front, d, f) {
        var i :| 0 <= i < |front| && Names(front[i], d) && f in front[i].events;
        assert Names(all[i], d) && f in all[i].events;
      }
      assert all[|front|] == last;
    }
  }

  // reports[i] is the first report naming d.
  ghost predicate FirstAt(reports: seq<Report>, d: nat, i: nat)
  {
    i < |reports| && Names(reports[i], d) && forall k :: 0 <= k < i ==> !Names(reports[k], d)
  }

  /** Descriptors are queued in the order of their first reports. */
  lemma {:induction false} GatherKeepsOrder(results: seq<Events>, reports: seq<Report>) returns (first: seq<nat>)
    requires InRange(reports, |results|)
    ensures var ops := Gather(Gathered([], results), reports).ops;
      && |first| == |ops|
      && (forall a :: 0 <= a < |ops| ==> ops[a].Descriptor? && FirstAt(reports, ops[a].d, first[a]))
      && (forall a, b :: 0 <= a < b < |ops| ==> first[a] < first[b])
    decreases |reports|
  {
    if reports == [] {
      first := [];
    } else {
      var n := |reports| - 1;
      var front, last := reports[..n], reports[n];
      assert reports == front + [last];
      first := GatherKeepsOrder(results, front);
      GatherSnoc(Gathered([], results), front, last);
      GatherLosesNothing(results, front);
      if last.Ready? && !Reported(front, last.d) {
        first := first + [n];
      }
    }
  }
}
