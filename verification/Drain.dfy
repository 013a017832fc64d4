/** Single-thread drain: handlers are finite trees of posts, one thread runs, and
    there is no reactor and no guard. run() terminates, never waits, completes
    every handler once in level order, and stops with no work outstanding. */
module Drain {
  import opened Prelude
  import opened SchedulerCore
  import opened SchedulerClass

  // A handler: the is_continuation flag it is posted with, and what it posts in
  // turn when it runs.
  datatype Handler = Handler(id: nat, continuation: bool, posts: seq<Handler>)

  function Size(h: Handler): nat
    decreases h, 1
  {
    1 + SizeAll(h.posts)
  }

  function SizeAll(q: seq<Handler>): nat
    decreases q, 0
  {
    if q == [] then 0 else Size(q[0]) + SizeAll(q[1..])
  }

  // ---- The order in which a handler's posts reach the common queue ----

  // Straight: as posted. ContinuationsLast: through the private queue, the
  // continuations after the others.
  datatype Order = Straight | ContinuationsLast

  function Select(q: seq<Handler>, continuation: bool): seq<Handler>
  {
    if q == [] then []
    else (if q[0].continuation == continuation then [q[0]] else []) + Select(q[1..], continuation)
  }

  lemma SelectCons(h: Handler, q: seq<Handler>, continuation: bool)
    ensures Select([h] + q, continuation) == (if h.continuation == continuation then [h] else []) + Select(q, continuation)
  {
    assert ([h] + q)[1..] == q;
  }

  function Kids(order: Order, h: Handler): seq<Handler>
  {
    match order
    case Straight => h.posts
    case ContinuationsLast => Select(h.posts, false) + Select(h.posts, true)
  }

  function Children(order: Order, q: seq<Handler>): seq<Handler>
  {
    if q == [] then [] else Kids(order, q[0]) + Children(order, q[1..])
  }

  function Ids(q: seq<Handler>): seq<nat>
  {
    if q == [] then [] else [q[0].id] + Ids(q[1..])
  }

  lemma {:induction false} SizeAllConcat(a: seq<Handler>, b: seq<Handler>)
    ensures SizeAll(a + b) == SizeAll(a) + SizeAll(b)
  {
    if a == [] {
      assert a + b == b;
    } else {
      SizeAllConcat(a[1..], b);
      assert (a + b)[1..] == a[1..] + b;
    }
  }

  lemma {:induction false} SelectSize(q: seq<Handler>)
    ensures SizeAll(Select(q, false)) + SizeAll(Select(q, true)) == SizeAll(q)
  {
    if q != [] {
      SelectSize(q[1..]);
      assert Select(q, q[0].continuation)[1..] == Select(q[1..], q[0].continuation);
      assert Select(q, !q[0].continuation) == Select(q[1..], !q[0].continuation);
    }
  }

  lemma KidsSize(order: Order, h: Handler)
    ensures SizeAll(Kids(order, h)) == Size(h) - 1
  {
    SelectSize(h.posts);
    SizeAllConcat(Select(h.posts, false), Select(h.posts, true));
  }

  lemma {:induction false} ChildrenSize(order: Order, q: seq<Handler>)
    ensures SizeAll(Children(order, q)) == SizeAll(q) - |q|
  {
    if q != [] {
      ChildrenSize(order, q[1..]);
      KidsSize(order, q[0]);
      SizeAllConcat(Kids(order, q[0]), Children(order, q[1..]));
    }
  }

  // ---- Level order, and the order of a queue ----

  /** The identifiers of a forest level by level. */
  function Levels(order: Order, q: seq<Handler>): seq<nat>
    decreases SizeAll(q)
  {
    if q == [] then []
    else
      ChildrenSize(order, q);
      Ids(q) + Levels(order, Children(order, q))
  }

  /** The identifiers in the order in which a queue is served that takes each
      handler's posts at its end. */
  function Served(order: Order, q: seq<Handler>): seq<nat>
    decreases SizeAll(q)
  {
    if q == [] then []
    else
      KidsSize(order, q[0]);
      SizeAllConcat(q[1..], Kids(order, q[0]));
      [q[0].id] + Served(order, q[1..] + Kids(order, q[0]))
  }

  lemma ServedCons(order: Order, h: Handler, q: seq<Handler>)
    ensures Served(order, [h] + q) == [h.id] + Served(order, q + Kids(order, h))
  {
    assert ([h] + q)[1..] == q;
  }

  lemma IdsCons(h: Handler, q: seq<Handler>)
    ensures Ids([h] + q) == [h.id] + Ids(q)
  {
    assert ([h] + q)[1..] == q;
  }

  lemma ChildrenCons(order: Order, h: Handler, q: seq<Handler>)
    ensures Children(order, [h] + q) == Kids(order, h) + Children(order, q)
  {
    assert ([h] + q)[1..] == q;
  }

  lemma Reassociate<T>(a: seq<T>, b: seq<T>, c: seq<T>)
    ensures (a + b) + c == a + (b + c)
  {
  }

  lemma {:induction false} ServedSplit(order: Order, q: seq<Handler>, r: seq<Handler>)
    ensures Served(order, q + r) == Ids(q) + Served(order, r + Children(order, q))
  {
    if q == [] {
      assert q + r == r && r + Children(order, q) == r;
    } else {
      var h, rest := q[0], q[1..];
      var kids, more := Kids(order, h), Children(order, rest);
      calc {
        Served(order, q + r);
        { assert q + r == [h] + (rest + r); ServedCons(order, h, rest + r); }
        [h.id] + Served(order, (rest + r) + kids);
        { Reassociate(rest, r, kids); ServedSplit(order, rest, r + kids); }
        [h.id] + (Ids(rest) + Served(order, (r + kids) + more));
        { Reassociate(r, kids, more); Reassociate([h.id], Ids(rest), Served(order, r + (kids + more))); }
        ([h.id] + Ids(rest)) + Served(order, r + (kids + more));
        { assert q == [h] + rest; IdsCons(h, rest); ChildrenCons(order, h, rest); }
        Ids(q) + Served(order, r + Children(order, q));
      }
    }
  }

  /** Serving from a queue is level order. */
  lemma {:induction false} ServedIsLevelOrder(order: Order, q: seq<Handler>)
    ensures Served(order, q) == Levels(order, q)
    decreases SizeAll(q)
  {
    if q != [] {
      ServedSplit(order, q, []);
      assert q + [] == q && [] + Children(order, q) == Children(order, q);
      ChildrenSize(order, q);
      ServedIsLevelOrder(order, Children(order, q));
    }
  }

  lemma {:induction false} LevelsLength(order: Order, q: seq<Handler>)
    ensures |Levels(order, q)| == SizeAll(q)
    decreases SizeAll(q)
  {
    if q != [] {
      ChildrenSize(order, q);
      LevelsLength(order, Children(order, q));
      IdsLength(q);
    }
  }

  lemma {:induction false} IdsLength(q: seq<Handler>)
    ensures |Ids(q)| == |q|
  {
    if q != [] {
      IdsLength(q[1..]);
    }
  }

  // ---- Every handler once ----

  // The identifiers of a forest with their multiplicities, by plain recursion.
  function Census(h: Handler): multiset<nat>
    decreases h, 1
  {
    multiset{h.id} + CensusAll(h.posts)
  }

  function CensusAll(q: seq<Handler>): multiset<nat>
    decreases q, 0
  {
    if q == [] then multiset{} else Census(q[0]) + CensusAll(q[1..])
  }

  lemma CensusCons(h: Handler, q: seq<Handler>)
    ensures CensusAll([h] + q) == Census(h) + CensusAll(q)
  {
    assert ([h] + q)[1..] == q;
  }

  lemma {:induction false} CensusConcat(a: seq<Handler>, b: seq<Handler>)
    ensures CensusAll(a + b) == CensusAll(a) + CensusAll(b)
  {
    if a == [] {
      assert a + b == b;
    } else {
      var h, rest := a[0], a[1..];
      calc {
        CensusAll(a + b);
        { assert a + b == [h] + (rest + b); CensusCons(h, rest + b); }
        Census(h) + CensusAll(rest + b);
        { CensusConcat(rest, b); }
        Census(h) + CensusAll(rest) + CensusAll(b);
        { assert a == [h] + rest; CensusCons(h, rest); }
        CensusAll(a) + CensusAll(b);
      }
    }
  }

  lemma {:induction false} CensusSelect(q: seq<Handler>)
    ensures CensusAll(Select(q, false)) + CensusAll(Select(q, true)) == CensusAll(q)
  {
    if q != [] {
      var h, rest := q[0], q[1..];
      assert q == [h] + rest;
      SelectCons(h, rest, false);
      SelectCons(h, rest, true);
      CensusSelect(rest);
      CensusCons(h, Select(rest, h.continuation));
      CensusCons(h, rest);
      assert [] + Select(rest, !h.continuation) == Select(rest, !h.continuation);
    }
  }

  lemma KidsCensus(order: Order, h: Handler)
    ensures CensusAll(Kids(order, h)) == CensusAll(h.posts)
  {
    CensusSelect(h.posts);
    CensusConcat(Select(h.posts, false), Select(h.posts, true));
  }

  lemma {:induction false} CensusChildren(order: Order, q: seq<Handler>)
    ensures CensusAll(q) == multiset(Ids(q)) + CensusAll(Children(order, q))
  {
    if q != [] {
      CensusChildren(order, q[1..]);
      KidsCensus(order, q[0]);
      CensusConcat(Kids(order, q[0]), Children(order, q[1..]));
      assert multiset(Ids(q)) == multiset{q[0].id} + multiset(Ids(q[1..]));
    }
  }

  /** Level order lists every handler of the forest exactly once. */
  lemma {:induction false} LevelsComplete(order: Order, q: seq<Handler>)
    ensures multiset(Levels(order, q)) == CensusAll(q)
    decreases SizeAll(q)
  {
    if q != [] {
      ChildrenSize(order, q);
      LevelsComplete(order, Children(order, q));
      CensusChildren(order, q);
      assert multiset(Ids(q) + Levels(order, Children(order, q)))
          == multiset(Ids(q)) + multiset(Levels(order, Children(order, q)));
    }
  }

  // ---- The private queue refines the shared one ----

  /** The same forest with each handler's posts reordered: the others first, then
      the continuations, both in order. */
  function Reordered(h: Handler): Handler
    decreases h, 1
  {
    h.(posts := ReorderedSelect(h.posts, false) + ReorderedSelect(h.posts, true))
  }

  function ReorderedSelect(q: seq<Handler>, continuation: bool): seq<Handler>
    decreases q, 0
  {
    if q == [] then []
    else (if q[0].continuation == continuation then [Reordered(q[0])] else []) + ReorderedSelect(q[1..], continuation)
  }

  function ReorderedAll(q: seq<Handler>): seq<Handler>
  {
    if q == [] then [] else [Reordered(q[0])] + ReorderedAll(q[1..])
  }

  lemma ReorderedCons(h: Handler, q: seq<Handler>)
    ensures ReorderedAll([h] + q) == [Reordered(h)] + ReorderedAll(q)
  {
    assert ([h] + q)[1..] == q;
  }

  lemma {:induction false} ReorderedConcat(a: seq<Handler>, b: seq<Handler>)
    ensures ReorderedAll(a + b) == ReorderedAll(a) + ReorderedAll(b)
  {
    if a == [] {
      assert a + b == b;
    } else {
      var h, rest := a[0], a[1..];
      calc {
        ReorderedAll(a + b);
        { assert a + b == [h] + (rest + b); ReorderedCons(h, rest + b); }
        [Reordered(h)] + ReorderedAll(rest + b);
        { ReorderedConcat(rest, b); }
        [Reordered(h)] + (ReorderedAll(rest) + ReorderedAll(b));
        { assert a == [h] + rest; ReorderedCons(h, rest); }
        ReorderedAll(a) + ReorderedAll(b);
      }
    }
  }

  lemma {:induction false} ReorderedSelection(q: seq<Handler>, continuation: bool)
    ensures ReorderedSelect(q, continuation) == ReorderedAll(Select(q, continuation))
  {
    if q != [] {
      ReorderedSelection(q[1..], continuation);
      if q[0].continuation == continuation {
        assert Select(q, continuation)[1..] == Select(q[1..], continuation);
      } else {
        assert Select(q, continuation) == Select(q[1..], continuation);
      }
    }
  }

  lemma ReorderedKids(h: Handler)
    ensures Kids(Straight, Reordered(h)) == ReorderedAll(Kids(ContinuationsLast, h))
  {
    ReorderedSelection(h.posts, false);
    ReorderedSelection(h.posts, true);
    ReorderedConcat(Select(h.posts, false), Select(h.posts, true));
  }

  lemma {:induction false} ReorderedChildren(q: seq<Handler>)
    ensures Children(Straight, ReorderedAll(q)) == ReorderedAll(Children(ContinuationsLast, q))
    ensures Ids(ReorderedAll(q)) == Ids(q)
  {
    if q != [] {
      ReorderedChildren(q[1..]);
      ReorderedKids(q[0]);
      ReorderedConcat(Kids(ContinuationsLast, q[0]), Children(ContinuationsLast, q[1..]));
      assert ReorderedAll(q)[1..] == ReorderedAll(q[1..]);
    }
  }

  /** Continuations go through the private queue: the completions are those of the
      forest, with each handler's posts reordered, posted straight to the shared
      queue. */
  lemma {:induction false} PrivateQueueRefinesShared(q: seq<Handler>)
    ensures Levels(ContinuationsLast, q) == Levels(Straight, ReorderedAll(q))
    decreases SizeAll(q)
  {
    if q != [] {
      ChildrenSize(ContinuationsLast, q);
      PrivateQueueRefinesShared(Children(ContinuationsLast, q));
      ReorderedChildren(q);
    }
  }

  // ---- When both paths complete in the same order ----

  // Every handler makes its posts with the continuations last.
  predicate InOrder(h: Handler)
    decreases h, 1
  {
    Kids(ContinuationsLast, h) == h.posts && AllInOrder(h.posts)
  }

  predicate AllInOrder(q: seq<Handler>)
    decreases q, 0
  {
    q == [] || (InOrder(q[0]) && AllInOrder(q[1..]))
  }

  lemma {:induction false} InOrderConcat(a: seq<Handler>, b: seq<Handler>)
    ensures AllInOrder(a + b) <==> AllInOrder(a) && AllInOrder(b)
  {
    if a == [] {
      assert a + b == b;
    } else {
      InOrderConcat(a[1..], b);
      assert (a + b)[1..] == a[1..] + b;
    }
  }

  lemma {:induction false} InOrderChildren(q: seq<Handler>)
    requires AllInOrder(q)
    ensures Children(ContinuationsLast, q) == Children(Straight, q) && AllInOrder(Children(Straight, q))
  {
    if q != [] {
      InOrderChildren(q[1..]);
      InOrderConcat(q[0].posts, Children(Straight, q[1..]));
    }
  }

  lemma {:induction false} TransparentIf(q: seq<Handler>)
    requires AllInOrder(q)
    ensures Levels(ContinuationsLast, q) == Levels(Straight, q)
    decreases SizeAll(q)
  {
    if q != [] {
      InOrderChildren(q);
      ChildrenSize(Straight, q);
      TransparentIf(Children(Straight, q));
    }
  }

  // No two handlers of the forest have the same identifier.
  ghost predicate AllDistinct(q: seq<Handler>)
  {
    forall id: nat :: CensusAll(q)[id] <= 1
  }

  predicate DistinctIds(q: seq<Handler>)
  {
    forall i, k :: 0 <= i < k < |q| ==> q[i].id != q[k].id
  }

  lemma {:induction false} IdInCensus(q: seq<Handler>, i: nat)
    requires i < |q|
    ensures CensusAll(q)[q[i].id] >= 1
  {
    if i > 0 {
      IdInCensus(q[1..], i - 1);
    }
  }

  lemma {:induction false} DistinctTop(q: seq<Handler>)
    requires AllDistinct(q)
    ensures DistinctIds(q)
  {
    if q != [] {
      var rest := q[1..];
      forall id: nat
        ensures CensusAll(rest)[id] <= 1
      {
        assert CensusAll(q)[id] == Census(q[0])[id] + CensusAll(rest)[id];
      }
      DistinctTop(rest);
      forall i, k | 0 <= i < k < |q|
        ensures q[i].id != q[k].id
      {
        if i == 0 {
          IdInCensus(rest, k - 1);
          assert CensusAll(q)[q[0].id] == Census(q[0])[q[0].id] + CensusAll(rest)[q[0].id];
        } else {
          assert q[i] == rest[i - 1] && q[k] == rest[k - 1];
        }
      }
    }
  }

  lemma DistinctBelow(q: seq<Handler>)
    requires AllDistinct(q)
    ensures AllDistinct(Children(Straight, q))
  {
    CensusChildren(Straight, q);
    forall id: nat
      ensures CensusAll(Children(Straight, q))[id] <= 1
    {
      assert CensusAll(q)[id] == multiset(Ids(q))[id] + CensusAll(Children(Straight, q))[id];
    }
  }

  lemma {:induction false} SelectedFrom(q: seq<Handler>, continuation: bool)
    ensures forall h :: h in Select(q, continuation) ==> h in q
  {
    if q != [] {
      SelectedFrom(q[1..], continuation);
      assert q == [q[0]] + q[1..];
    }
  }

  lemma {:induction false} SelectLength(q: seq<Handler>)
    ensures |Select(q, false)| + |Select(q, true)| == |q|
  {
    if q != [] {
      SelectLength(q[1..]);
    }
  }

  lemma {:induction false} IdsAt(q: seq<Handler>, i: nat)
    requires i < |q|
    ensures |Ids(q)| == |q| && Ids(q)[i] == q[i].id
  {
    IdsLength(q);
    if i > 0 {
      IdsAt(q[1..], i - 1);
    }
  }

  // With distinct identifiers, the identifiers tell whether the posts were moved.
  lemma KidsByIds(h: Handler)
    requires DistinctIds(h.posts) && Ids(Kids(ContinuationsLast, h)) == Ids(h.posts)
    ensures Kids(ContinuationsLast, h) == h.posts
  {
    var kids := Kids(ContinuationsLast, h);
    SelectLength(h.posts);
    forall i | 0 <= i < |h.posts|
      ensures kids[i] == h.posts[i]
    {
      IdsAt(kids, i);
      IdsAt(h.posts, i);
      SelectedFrom(h.posts, false);
      SelectedFrom(h.posts, true);
      assert kids[i] in h.posts;
      var k :| 0 <= k < |h.posts| && h.posts[k] == kids[i];
    }
  }

  lemma {:induction false} IdsConcat(a: seq<Handler>, b: seq<Handler>)
    ensures Ids(a + b) == Ids(a) + Ids(b)
  {
    if a == [] {
      assert a + b == b;
    } else {
      var h, rest := a[0], a[1..];
      calc {
        Ids(a + b);
        { assert a + b == [h] + (rest + b); IdsCons(h, rest + b); }
        [h.id] + Ids(rest + b);
        { IdsConcat(rest, b); }
        [h.id] + (Ids(rest) + Ids(b));
        { assert a == [h] + rest; IdsCons(h, rest); }
        Ids(a) + Ids(b);
      }
    }
  }

  lemma {:induction false} ChildrenLength(q: seq<Handler>)
    ensures |Children(ContinuationsLast, q)| == |Children(Straight, q)|
  {
    if q != [] {
      SelectLength(q[0].posts);
      ChildrenLength(q[1..]);
    }
  }

  // Each handler's posts are a stretch of the children.
  lemma {:induction false} PostsDistinct(q: seq<Handler>)
    requires q != [] && DistinctIds(Children(Straight, q))
    ensures DistinctIds(q[0].posts) && DistinctIds(Children(Straight, q[1..]))
  {
    var posts, rest := q[0].posts, Children(Straight, q[1..]);
    assert Children(Straight, q) == posts + rest;
    forall i, k | 0 <= i < k < |posts|
      ensures posts[i].id != posts[k].id
    {
      assert (posts + rest)[i] == posts[i] && (posts + rest)[k] == posts[k];
    }
    forall i, k | 0 <= i < k < |rest|
      ensures rest[i].id != rest[k].id
    {
      assert (posts + rest)[|posts| + i] == rest[i] && (posts + rest)[|posts| + k] == rest[k];
    }
  }

  // Children with the same identifiers in the same order: the first handler has
  // posted in order, and the others' children are alike too.
  lemma FirstByIds(q: seq<Handler>)
    requires q != [] && DistinctIds(Children(Straight, q))
    requires Ids(Children(ContinuationsLast, q)) == Ids(Children(Straight, q))
    ensures Kids(ContinuationsLast, q[0]) == q[0].posts && DistinctIds(Children(Straight, q[1..]))
    ensures Ids(Children(ContinuationsLast, q[1..])) == Ids(Children(Straight, q[1..]))
  {
    var kids, posts := Kids(ContinuationsLast, q[0]), q[0].posts;
    var moved, others := Children(ContinuationsLast, q[1..]), Children(Straight, q[1..]);
    PostsDistinct(q);
    SelectLength(posts);
    IdsConcat(kids, moved);
    IdsConcat(posts, others);
    IdsLength(kids);
    IdsLength(posts);
    assert Ids(kids) == (Ids(kids) + Ids(moved))[..|kids|] && Ids(posts) == (Ids(posts) + Ids(others))[..|posts|];
    assert Ids(moved) == (Ids(kids) + Ids(moved))[|kids|..] && Ids(others) == (Ids(posts) + Ids(others))[|posts|..];
    KidsByIds(q[0]);
  }

  lemma {:induction false} SameChildren(q: seq<Handler>)
    requires DistinctIds(Children(Straight, q)) && Ids(Children(ContinuationsLast, q)) == Ids(Children(Straight, q))
    ensures Children(ContinuationsLast, q) == Children(Straight, q)
    ensures AllInOrder(Children(Straight, q)) ==> AllInOrder(q)
  {
    if q != [] {
      FirstByIds(q);
      InOrderConcat(q[0].posts, Children(Straight, q[1..]));
      SameChildren(q[1..]);
    }
  }

  // The first identifiers of a level order are those of the first level.
  lemma LevelsFirst(order: Order, q: seq<Handler>)
    ensures |q| <= |Levels(order, q)| && Levels(order, q)[..|q|] == Ids(q)
  {
    IdsLength(q);
  }

  lemma LevelsRest(order: Order, q: seq<Handler>)
    requires q != []
    ensures |q| <= |Levels(order, q)| && Levels(order, q)[|q|..] == Levels(order, Children(order, q))
  {
    IdsLength(q);
  }

  lemma {:induction false} TransparentOnlyIf(q: seq<Handler>)
    requires AllDistinct(q) && Levels(ContinuationsLast, q) == Levels(Straight, q)
    ensures AllInOrder(q)
    decreases SizeAll(q)
  {
    if q != [] {
      var moved, straight := Children(ContinuationsLast, q), Children(Straight, q);
      LevelsRest(ContinuationsLast, q);
      LevelsRest(Straight, q);
      LevelsFirst(ContinuationsLast, moved);
      LevelsFirst(Straight, straight);
      ChildrenLength(q);
      DistinctBelow(q);
      DistinctTop(straight);
      SameChildren(q);
      ChildrenSize(Straight, q);
      TransparentOnlyIf(straight);
    }
  }

  /** All posts through the private queue (one_thread_) and all posts to the shared
      queue complete in the same order as posts split between the two if, and with
      distinct identifiers only if, every handler makes its posts with the
      continuations last. */
  lemma FastPathIsTransparent(q: seq<Handler>)
    ensures AllInOrder(q) ==> Levels(ContinuationsLast, q) == Levels(Straight, q)
    ensures AllDistinct(q) ==> (Levels(ContinuationsLast, q) == Levels(Straight, q) <==> AllInOrder(q))
  {
    if AllInOrder(q) {
      TransparentIf(q);
    } else if AllDistinct(q) && Levels(ContinuationsLast, q) == Levels(Straight, q) {
      TransparentOnlyIf(q);
    }
  }

  predicate NoneIn(q: seq<Handler>)
  {
    q == [] || (!q[0].continuation && NoneIn(q[0].posts) && NoneIn(q[1..]))
  }

  lemma {:induction false} SelectAll(q: seq<Handler>)
    requires NoneIn(q)
    ensures Select(q, false) == q && Select(q, true) == []
  {
    if q != [] {
      SelectAll(q[1..]);
    }
  }

  /** In particular where nothing is posted as a continuation. */
  lemma {:induction false} NoContinuationsInOrder(q: seq<Handler>)
    requires NoneIn(q)
    ensures AllInOrder(q)
  {
    if q != [] {
      SelectAll(q[0].posts);
      NoContinuationsInOrder(q[0].posts);
      NoContinuationsInOrder(q[1..]);
    }
  }

  // ---- run() itself ----

  function Wrap(q: seq<Handler>): (r: seq<Op<Handler>>)
    ensures |r| == |q|
  {
    if q == [] then [] else [User(q[0])] + Wrap(q[1..])
  }

  lemma WrapCons(h: Handler, q: seq<Handler>)
    ensures Wrap([h] + q) == [User(h)] + Wrap(q)
  {
    assert ([h] + q)[1..] == q;
  }

  lemma {:induction false} WrapConcat(a: seq<Handler>, b: seq<Handler>)
    ensures Wrap(a + b) == Wrap(a) + Wrap(b)
  {
    if a == [] {
      assert a + b == b;
    } else {
      var h, rest := a[0], a[1..];
      calc {
        Wrap(a + b);
        { assert a + b == [h] + (rest + b); WrapCons(h, rest + b); }
        [User(h)] + Wrap(rest + b);
        { WrapConcat(rest, b); }
        [User(h)] + (Wrap(rest) + Wrap(b));
        { assert a == [h] + rest; WrapCons(h, rest); }
        Wrap(a) + Wrap(b);
      }
    }
  }

  lemma {:induction false} SelectSnoc(q: seq<Handler>, h: Handler, continuation: bool)
    ensures Select(q + [h], continuation) == Select(q, continuation) + if h.continuation == continuation then [h] else []
  {
    var last := if h.continuation == continuation then [h] else [];
    if q == [] {
      assert q + [h] == [h] + q && [] + last == last + [];
      SelectCons(h, q, continuation);
    } else {
      var first := if q[0].continuation == continuation then [q[0]] else [];
      calc {
        Select(q + [h], continuation);
        { assert q + [h] == [q[0]] + (q[1..] + [h]); SelectCons(q[0], q[1..] + [h], continuation); }
        first + Select(q[1..] + [h], continuation);
        { SelectSnoc(q[1..], h, continuation); }
        first + (Select(q[1..], continuation) + last);
        (first + Select(q[1..], continuation)) + last;
      }
    }
  }

  // The posts that take the shared queue and those that take the private one.
  function Shared(oneThread: bool, posts: seq<Handler>): seq<Handler>
  {
    if oneThread then [] else Select(posts, false)
  }

  function Private(oneThread: bool, posts: seq<Handler>): seq<Handler>
  {
    if oneThread then posts else Select(posts, true)
  }

  function OrderOf(oneThread: bool): Order { if oneThread then Straight else ContinuationsLast }

  // What the first posts of a handler put into the shared queue, and into the
  // private one.
  function SharedOps(oneThread: bool, posts: seq<Handler>): seq<Op<Handler>> { Wrap(Shared(oneThread, posts)) }

  function PrivateOps(oneThread: bool, posts: seq<Handler>): seq<Op<Handler>> { Wrap(Private(oneThread, posts)) }

  // What one more post adds to the two queues.
  lemma {:induction false} PostsSnoc(oneThread: bool, posts: seq<Handler>, i: nat)
    requires i < |posts|
    ensures var private' := oneThread || posts[i].continuation;
      && SharedOps(oneThread, posts[..i + 1])
         == SharedOps(oneThread, posts[..i]) + (if private' then [] else [User(posts[i])])
      && PrivateOps(oneThread, posts[..i + 1])
         == PrivateOps(oneThread, posts[..i]) + (if private' then [User(posts[i])] else [])
  {
    var q, h := posts[..i], posts[i];
    assert posts[..i + 1] == q + [h];
    SelectSnoc(q, h, false);
    SelectSnoc(q, h, true);
    WrapConcat(Shared(oneThread, q), [h]);
    WrapConcat(Private(oneThread, q), [h]);
    assert Select(q, !h.continuation) + [] == Select(q, !h.continuation);
    assert Wrap([h]) == [User(h)];
  }

  // The posts of a handler, appended to the rest of the queue.
  lemma {:induction false} PostsAppend(oneThread: bool, rest: seq<Handler>, h: Handler)
    ensures Wrap(rest) + SharedOps(oneThread, h.posts) + PrivateOps(oneThread, h.posts)
         == Wrap(rest + Kids(OrderOf(oneThread), h))
  {
    var shared, private' := Shared(oneThread, h.posts), Private(oneThread, h.posts);
    assert shared + private' == Kids(OrderOf(oneThread), h);
    assert rest + shared + private' == rest + (shared + private');
    WrapConcat(rest, shared);
    WrapConcat(rest + shared, private');
  }

  // One thread: no waiter, no reactor, its private queue apart from the others.
  ghost predicate Alone(s: Scheduler<Handler>, th: ThreadInfo<Handler>)
    reads s, s.wakeup
  {
    s.wakeup.state <= 1 && !s.task && th.privateOps != s.opQueue
  }

  method PostOne(s: Scheduler<Handler>, th: ThreadInfo<Handler>, h: Handler)
    requires Alone(s, th)
    modifies s`taskInterrupted, s`outstanding, s.wakeup, s.opQueue, th, th.privateOps
    ensures Alone(s, th)
    ensures var private' := s.oneThread || h.continuation;
      && s.opQueue.c == old(s.opQueue.c) + (if private' then [] else [User(h)])
      && th.privateOps.c == old(th.privateOps.c) + (if private' then [User(h)] else [])
      && s.outstanding == old(s.outstanding) + (if private' then 0 else 1)
      && th.privateWork == old(th.privateWork) + (if private' then 1 else 0)
  {
    ghost var c := s.View();
    var _ := s.PostImmediateCompletion(User(h), h.continuation, th);
    if !(s.oneThread || h.continuation) {
      assert s.View() == PostShared(c, User(h)).core;
    }
    assert s.opQueue.c == s.View().ops && s.outstanding == s.View().outstanding && s.wakeup.state == s.View().word;
  }

  // How the two queues and counters stand once `posts` have been made.
  ghost predicate Posted(s: Scheduler<Handler>, th: ThreadInfo<Handler>, ops: seq<Op<Handler>>, own: seq<Op<Handler>>,
                         outstanding: int, work: int, posts: seq<Handler>)
    reads s, s.wakeup, s.opQueue, th, th.privateOps
  {
    && Alone(s, th)
    && s.opQueue.c == ops + SharedOps(s.oneThread, posts)
    && th.privateOps.c == own + PrivateOps(s.oneThread, posts)
    && s.outstanding == outstanding + |SharedOps(s.oneThread, posts)|
    && th.privateWork == work + |PrivateOps(s.oneThread, posts)|
  }

  method PostNext(s: Scheduler<Handler>, th: ThreadInfo<Handler>, posts: seq<Handler>, i: nat,
                  ghost ops: seq<Op<Handler>>, ghost own: seq<Op<Handler>>, ghost outstanding: int, ghost work: int)
    requires i < |posts| && Posted(s, th, ops, own, outstanding, work, posts[..i])
    modifies s`taskInterrupted, s`outstanding, s.wakeup, s.opQueue, th, th.privateOps
    ensures Posted(s, th, ops, own, outstanding, work, posts[..i + 1])
  {
    PostsSnoc(s.oneThread, posts, i);
    PostOne(s, th, posts[i]);
  }

  /** A handler runs: it makes its posts, in order, from inside run(). */
  method Complete(s: Scheduler<Handler>, th: ThreadInfo<Handler>, h: Handler)
    requires Alone(s, th)
    modifies s`taskInterrupted, s`outstanding, s.wakeup, s.opQueue, th, th.privateOps
    ensures Posted(s, th, old(s.opQueue.c), old(th.privateOps.c), old(s.outstanding), old(th.privateWork), h.posts)
  {
    var i := 0;
    while i < |h.posts|
      invariant 0 <= i <= |h.posts|
      invariant Posted(s, th, old(s.opQueue.c), old(th.privateOps.c), old(s.outstanding), old(th.privateWork), h.posts[..i])
    {
      PostNext(s, th, h.posts, i, old(s.opQueue.c), old(th.privateOps.c), old(s.outstanding), old(th.privateWork));
      i := i + 1;
    }
    assert h.posts[..i] == h.posts;
  }

  // The section of do_run_one that takes the front of the queue.
  method TakeFront(s: Scheduler<Handler>, th: ThreadInfo<Handler>, ghost q: seq<Handler>) returns (turn: Turn<Handler>)
    requires Alone(s, th) && s.opQueue.c == Wrap(q) && (s.stopped <==> q == [])
    modifies s`taskInterrupted, s.wakeup, s.opQueue
    ensures Alone(s, th)
    ensures if q == [] then turn == Leave && s.opQueue.c == []
      else turn == Execute(User(q[0])) && s.opQueue.c == Wrap(q[1..])
  {
    ghost var c := s.View();
    var _, t := s.Turn();
    turn := t;
    assert s.opQueue.c == s.View().ops && s.wakeup.state == s.View().word;
    if q != [] {
      assert Wrap(q)[1..] == Wrap(q[1..]);
    }
  }

  // Giving back the unit of the handler and splicing its private posts.
  method CleanUp(s: Scheduler<Handler>, th: ThreadInfo<Handler>)
    requires Alone(s, th) && !s.stopped
    modifies s`taskInterrupted, s`outstanding, s`stopped, s.wakeup, s.opQueue, th, th.privateOps
    ensures Alone(s, th) && th.privateOps.c == [] && th.privateWork == 0
    ensures s.outstanding == old(s.outstanding) + old(th.privateWork) - 1
    ensures s.opQueue.c == old(s.opQueue.c) + old(th.privateOps.c)
    ensures s.stopped <==> s.outstanding == 0
  {
    var _ := s.WorkCleanup(th);
    assert s.opQueue.c == s.View().ops && s.outstanding == s.View().outstanding
        && s.wakeup.state == s.View().word && s.stopped == s.View().stopped;
  }

  // Between handlers: one unit outstanding for each handler queued, and stopped
  // once there is none.
  ghost predicate Between(s: Scheduler<Handler>, th: ThreadInfo<Handler>, q: seq<Handler>)
    reads s, s.wakeup, s.opQueue, th, th.privateOps
  {
    && Alone(s, th) && th.privateOps.c == [] && th.privateWork == 0
    && s.opQueue.c == Wrap(q) && s.outstanding == |q| && (s.stopped <==> q == [])
  }

  // The queue after one handler has been completed.
  function After(order: Order, q: seq<Handler>): seq<Handler>
  {
    if q == [] then [] else q[1..] + Kids(order, q[0])
  }

  /** do_run_one: never blocks while work is outstanding, completes the front
      handler, and stops exactly when the queue has become empty. */
  method DoRunOne(s: Scheduler<Handler>, th: ThreadInfo<Handler>, ghost q: seq<Handler>)
    returns (n: nat, turn: Turn<Handler>, ghost done: seq<nat>)
    requires Between(s, th, q)
    modifies s`taskInterrupted, s`outstanding, s`stopped, s.wakeup, s.opQueue, th, th.privateOps
    ensures Between(s, th, After(OrderOf(s.oneThread), q))
    ensures turn == (if q == [] then Leave else Execute(User(q[0]))) && n == if q == [] then 0 else 1
    ensures done == if q == [] then [] else [q[0].id]
  {
    turn := TakeFront(s, th, q);
    if turn.Leave? {
      return 0, turn, [];
    }
    var h := turn.op.h;
    ghost var rest := q[1..];
    Complete(s, th, h);
    assert th.privateOps.c == PrivateOps(s.oneThread, h.posts);
    CleanUp(s, th);
    PostsAppend(s.oneThread, rest, h);
    assert s.opQueue.c == Wrap(After(OrderOf(s.oneThread), q));
    assert s.outstanding == |s.opQueue.c|;
    return 1, turn, [h.id];
  }

  // Handlers completed so far, and those the queue still has to serve.
  ghost predicate Progress(order: Order, forest: seq<Handler>, q: seq<Handler>, completed: seq<nat>)
  {
    completed + Served(order, q) == Served(order, forest)
  }

  lemma {:induction false} ProgressStep(order: Order, forest: seq<Handler>, q: seq<Handler>, completed: seq<nat>)
    requires q != [] && Progress(order, forest, q, completed)
    ensures Progress(order, forest, After(order, q), completed + [q[0].id])
    ensures SizeAll(After(order, q)) < SizeAll(q)
  {
    KidsSize(order, q[0]);
    SizeAllConcat(q[1..], Kids(order, q[0]));
    assert completed + ([q[0].id] + Served(order, After(order, q))) == (completed + [q[0].id]) + Served(order, After(order, q));
  }

  lemma {:induction false} ProgressEnd(order: Order, forest: seq<Handler>, completed: seq<nat>)
    requires Progress(order, forest, [], completed)
    ensures completed == Levels(order, forest) && |completed| == SizeAll(forest)
  {
    assert completed + [] == completed;
    ServedIsLevelOrder(order, forest);
    LevelsLength(order, forest);
  }

  // n is the largest size_t or the number counted, whichever is less.
  predicate Counts(n: nat, completed: nat)
  {
    (completed < SIZE_LIMIT ==> n == completed) && (completed >= SIZE_LIMIT ==> n == SIZE_LIMIT - 1)
  }

  // run() with nothing outstanding stops at once.
  method RunIdle(s: Scheduler<Handler>, th: ThreadInfo<Handler>)
    requires Alone(s, th) && s.opQueue.c == [] && s.outstanding == 0
    modifies s`taskInterrupted, s`stopped, s.wakeup
    ensures s.stopped && s.outstanding == 0 && s.opQueue.c == []
  {
    var _ := s.StopAllThreads();
    assert s.stopped == s.View().stopped && s.outstanding == s.View().outstanding && s.opQueue.c == s.View().ops;
  }

  // The loop of run(), which counts up to the largest size_t.
  method RunLoop(s: Scheduler<Handler>, th: ThreadInfo<Handler>, ghost forest: seq<Handler>)
    returns (n: nat, ghost completed: seq<nat>)
    requires Between(s, th, forest)
    modifies s`taskInterrupted, s`outstanding, s`stopped, s.wakeup, s.opQueue, th, th.privateOps
    ensures Between(s, th, [])
    ensures Progress(OrderOf(s.oneThread), forest, [], completed)
    ensures |completed| < 0x1_0000_0000_0000_0000 ==> n == |completed|
    ensures |completed| >= 0x1_0000_0000_0000_0000 ==> n == 0xFFFF_FFFF_FFFF_FFFF
  {
    ghost var order, q, left := OrderOf(s.oneThread), forest, forest;
    completed := [];
    n := 0;
    ghost var done;
    var more, turn;
    more, turn, done := DoRunOne(s, th, q);
    left := After(order, q);
    while more != 0
      invariant (q == [] <==> more == 0) && done == if q == [] then [] else [q[0].id]
      invariant left == After(order, q) && Between(s, th, left)
      invariant Progress(order, forest, q, completed)
      invariant Counts(n, |completed|)
      decreases SizeAll(q)
    {
      ProgressStep(order, forest, q, completed);
      if n != SIZE_LIMIT - 1 {
        n := n + 1;
      }
      completed, q := completed + done, left;
      more, turn, done := DoRunOne(s, th, q);
      left := After(order, q);
    }
  }

  /** run(): terminates, completes the forest in level order, counts its handlers
      up to the largest size_t, and ends stopped with nothing outstanding. */
  method Run(s: Scheduler<Handler>, th: ThreadInfo<Handler>, ghost forest: seq<Handler>)
    returns (n: nat, ghost completed: seq<nat>)
    requires Alone(s, th) && th.privateOps.c == [] && th.privateWork == 0
    requires s.opQueue.c == Wrap(forest) && s.outstanding == |forest| && !s.stopped
    modifies s`taskInterrupted, s`outstanding, s`stopped, s.wakeup, s.opQueue, th, th.privateOps
    ensures completed == Levels(OrderOf(s.oneThread), forest)
    ensures SizeAll(forest) < 0x1_0000_0000_0000_0000 ==> n == SizeAll(forest)
    ensures SizeAll(forest) >= 0x1_0000_0000_0000_0000 ==> n == 0xFFFF_FFFF_FFFF_FFFF
    ensures s.stopped && s.outstanding == 0 && s.opQueue.c == []
  {
    if s.outstanding == 0 {
      RunIdle(s, th);
      return 0, [];
    }
    n, completed := RunLoop(s, th, forest);
    ProgressEnd(OrderOf(s.oneThread), forest, completed);
  }
}
