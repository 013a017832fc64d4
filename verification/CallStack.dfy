/** call_stack (call_stack.hpp): the chain of contexts of a thread, which decides
    the thread record, and hence the private queue, that a post reaches. */
module CallStacks {
  import opened Prelude

  datatype Frame<K, V> = Frame(key: K, value: V)

  /** The value of the innermost frame with the key. */
  function Innermost<K(==), V>(frames: seq<Frame<K, V>>, k: K): Option<V>
  {
    if frames == [] then None
    else if frames[0].key == k then Some(frames[0].value)
    else Innermost(frames[1..], k)
  }

  // frames[i] is the innermost frame with key k.
  predicate FirstWith<K(==), V>(frames: seq<Frame<K, V>>, k: K, i: nat)
  {
    i < |frames| && frames[i].key == k && forall j :: 0 <= j < i ==> frames[j].key != k
  }

  /** A lookup finds the innermost frame with the key, and fails only if there is
      none. */
  lemma {:induction false} InnermostSpec<K, V>(frames: seq<Frame<K, V>>, k: K)
    ensures match Innermost(frames, k)
      case Some(v) => exists i: nat :: FirstWith(frames, k, i) && frames[i].value == v
      case None => forall i :: 0 <= i < |frames| ==> frames[i].key != k
  {
    if frames != [] && frames[0].key != k {
      InnermostSpec(frames[1..], k);
      if Innermost(frames[1..], k).Some? {
        var v := Innermost(frames[1..], k).value;
        var i: nat :| FirstWith(frames[1..], k, i) && frames[1..][i].value == v;
        assert forall j :: 0 < j <= i ==> frames[j] == frames[1..][j - 1];
        assert FirstWith(frames, k, i + 1) && frames[i + 1].value == v;
      }
    } else if frames != [] {
      assert FirstWith(frames, k, 0);
    }
  }

  // A context lives on the stack of its thread; its members never change.
  class Context<K(==), V> {
    const key: K
    const value: V
    const next: Context?<K, V>
    ghost const frames: seq<Frame<K, V>>

    ghost predicate Valid()
      decreases |frames|
    {
      && frames != [] && frames[0] == Frame(key, value)
      && (if next == null then |frames| == 1 else next.frames == frames[1..] && next.Valid())
    }

    constructor (key: K, value: V, next: Context?<K, V>)
      requires next != null ==> next.Valid()
      ensures Valid() && this.key == key && this.value == value && this.next == next
      ensures frames == [Frame(key, value)] + if next == null then [] else next.frames
    {
      this.key := key;
      this.value := value;
      this.next := next;
      frames := [Frame(key, value)] + if next == null then [] else next.frames;
    }

    /** The value of the next enclosing context with the same key. */
    method NextByKey() returns (v: Option<V>)
      requires Valid()
      ensures v == Innermost(frames[1..], key)
    {
      v := Search(next, key, frames[1..]);
    }
  }

  method Search<K(==), V>(from: Context?<K, V>, k: K, ghost frames: seq<Frame<K, V>>) returns (v: Option<V>)
    requires if from == null then frames == [] else from.Valid() && from.frames == frames
    ensures v == Innermost(frames, k)
  {
    var elem := from;
    ghost var left := frames;
    while elem != null
      invariant if elem == null then left == [] else elem.Valid() && elem.frames == left
      invariant Innermost(left, k) == Innermost(frames, k)
      decreases |left|
    {
      if elem.key == k {
        return Some(elem.value);
      }
      elem, left := elem.next, left[1..];
    }
    v := None;
  }

  // The thread-local top_.
  class CallStack<K(==), V> {
    var top: Context?<K, V>

    ghost predicate Valid()
      reads this
    {
      top != null ==> top.Valid()
    }

    ghost function Frames(): seq<Frame<K, V>>
      reads this
    {
      if top == null then [] else top.frames
    }

    constructor ()
      ensures Valid() && Frames() == []
    {
      top := null;
    }

    // The constructor of context, then its destructor: contexts nest.
    method Push(key: K, value: V)
      requires Valid()
      modifies this
      ensures Valid() && Frames() == [Frame(key, value)] + old(Frames())
    {
      top := new Context(key, value, top);
    }

    method Pop()
      requires Valid() && Frames() != []
      modifies this
      ensures Valid() && Frames() == old(Frames())[1..]
    {
      top := top.next;
    }

    method Contains(k: K) returns (v: Option<V>)
      requires Valid()
      ensures v == Innermost(Frames(), k)
    {
      v := Search(top, k, Frames());
    }

    method TopValue() returns (v: Option<V>)
      requires Valid()
      ensures v == if Frames() == [] then None else Some(Frames()[0].value)
    {
      v := if top == null then None else Some(top.value);
    }
  }

  /** run() on one scheduler does not hide the records of others; leaving it
      restores what was found before. */
  lemma PushShadowsOneKey<K, V>(frames: seq<Frame<K, V>>, key: K, value: V, k: K)
    ensures Innermost([Frame(key, value)] + frames, k) == if k == key then Some(value) else Innermost(frames, k)
  {
    assert ([Frame(key, value)] + frames)[1..] == frames;
  }
}
