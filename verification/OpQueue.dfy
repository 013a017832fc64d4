/** op_queue (op_queue.hpp): a queue over a list, with a splicing push, a push
    that converts from a queue of another operation type, null on empty, and a
    membership test. */
module OpQueues {
  import opened Prelude

  function Converted<T, U>(us: seq<U>, convert: U -> T): (r: seq<T>)
    ensures |r| == |us|
  {
    if us == [] then [] else [convert(us[0])] + Converted(us[1..], convert)
  }

  lemma {:induction false} ConvertedAt<T, U>(us: seq<U>, convert: U -> T, i: nat)
    requires i < |us|
    ensures Converted(us, convert)[i] == convert(us[i])
  {
    if i > 0 {
      ConvertedAt(us[1..], convert, i - 1);
    }
  }

  lemma ConvertedSnoc<T, U>(us: seq<U>, u: U, convert: U -> T)
    ensures Converted(us + [u], convert) == Converted(us, convert) + [convert(u)]
  {
    forall i | 0 <= i <= |us|
      ensures Converted(us + [u], convert)[i] == (Converted(us, convert) + [convert(u)])[i]
    {
      ConvertedAt(us + [u], convert, i);
      if i < |us| {
        ConvertedAt(us, convert, i);
      }
    }
  }

  class OpQueue<T(==)> {
    var c: seq<T>

    constructor ()
      ensures c == []
    {
      c := [];
    }

    method Push(v: T)
      modifies this
      ensures c == old(c) + [v]
    {
      c := c + [v];
    }

    // std::list::splice: the source is left empty.
    method PushAll(q: OpQueue<T>)
      requires q != this
      modifies this, q
      ensures c == old(c) + old(q.c) && q.c == []
    {
      c := c + q.c;
      q.c := [];
    }

    // The loop of op_queue.hpp:19-24 never pops its source; as evidently meant,
    // this one does.
    method PushConverted<U>(q: OpQueue<U>, convert: U -> T)
      requires q as object != this
      modifies this, q
      ensures c == old(c) + Converted(old(q.c), convert) && q.c == []
    {
      ghost var start, source := c, q.c;
      ghost var i := 0;
      var v := q.Front();
      while v.Some?
        invariant 0 <= i <= |source| && q.c == source[i..]
        invariant v == if i == |source| then None else Some(source[i])
        invariant c == start + Converted(source[..i], convert)
        decreases |source| - i
      {
        assert source[..i + 1] == source[..i] + [source[i]];
        ConvertedSnoc(source[..i], source[i], convert);
        Push(convert(v.value));
        q.Pop();
        i := i + 1;
        v := q.Front();
      }
      assert source[..i] == source;
    }

    method Front() returns (v: Option<T>)
      ensures v == if c == [] then None else Some(c[0])
    {
      v := if c == [] then None else Some(c[0]);
    }

    method Back() returns (v: Option<T>)
      ensures v == if c == [] then None else Some(c[|c| - 1])
    {
      v := if c == [] then None else Some(c[|c| - 1]);
    }

    // The source calls pop() on an empty queue at epoll_reactor.cc:355; here as
    // there nothing is removed then.
    method Pop()
      modifies this
      ensures c == if old(c) == [] then [] else old(c)[1..]
    {
      if c != [] {
        c := c[1..];
      }
    }

    method IsEnqueued(v: T) returns (found: bool)
      ensures found <==> v in c
    {
      var i := 0;
      while i < |c|
        invariant 0 <= i <= |c| && v !in c[..i]
      {
        if c[i] == v {
          return true;
        }
        i := i + 1;
      }
      found := false;
    }
  }
}
