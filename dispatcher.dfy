/**
 * `Dispatcher`: the plain observer list. Subscribers are kept in an
 * `ArrayList` in registration order; `register` appends, `unregister`
 * removes the first equal element, and `post` calls `onEvent` on every
 * element in list order.
 */
module PubSub {

  /** One `onEvent(msg)` call on a subscriber of type S. */
  datatype Delivery<S> = OnEvent(subscriber: S, msg: string)

  /** The index `ArrayList.remove(Object)` removes: the first occurrence of s. */
  function FirstIndex<S(==)>(xs: seq<S>, s: S): (i: nat)
    requires s in xs
    ensures i < |xs| && xs[i] == s
    ensures s !in xs[..i]
    decreases |xs|
  {
    if xs[0] == s then 0
    else
      assert xs == [xs[0]] + xs[1..];
      1 + FirstIndex(xs[1..], s)
  }

  /** `ArrayList.remove(Object)`, walked the way `indexOf` walks the list. */
  function RemoveFirst<S(==)>(xs: seq<S>, s: S): seq<S>
    decreases |xs|
  {
    if xs == [] then []
    else if xs[0] == s then xs[1..]
    else [xs[0]] + RemoveFirst(xs[1..], s)
  }

  /**
   * `ArrayList.remove(Object)` removes the first occurrence of s and keeps
   * the rest in their order; the list is unchanged when s is absent.
   */
  lemma {:induction false} RemoveFirstRemovesFirstOccurrence<S>(xs: seq<S>, s: S)
    ensures s !in xs ==> RemoveFirst(xs, s) == xs
    ensures s in xs ==> RemoveFirst(xs, s) == xs[..FirstIndex(xs, s)] + xs[FirstIndex(xs, s) + 1..]
    decreases |xs|
  {
    if xs != [] && xs[0] != s {
      assert xs == [xs[0]] + xs[1..];
      RemoveFirstRemovesFirstOccurrence(xs[1..], s);
      if s in xs {
        var i := FirstIndex(xs[1..], s);
        assert FirstIndex(xs, s) == i + 1;
        assert xs[..i + 1] == [xs[0]] + xs[1..][..i];
        assert xs[i + 2..] == xs[1..][i + 1..];
      }
    }
  }

  /** Unregistering takes away one copy of s, if there is one, and keeps every other element. */
  lemma {:induction false} RemoveFirstKeepsOthers<S>(xs: seq<S>, s: S)
    ensures s in xs ==> multiset(RemoveFirst(xs, s)) + multiset{s} == multiset(xs)
    ensures s !in xs ==> multiset(RemoveFirst(xs, s)) == multiset(xs)
    ensures |RemoveFirst(xs, s)| == if s in xs then |xs| - 1 else |xs|
  {
    RemoveFirstRemovesFirstOccurrence(xs, s);
    if s in xs {
      var i := FirstIndex(xs, s);
      var r := RemoveFirst(xs, s);
      assert r == xs[..i] + xs[i + 1..];
      assert xs == xs[..i] + [s] + xs[i + 1..];
      calc {
        multiset(xs);
        multiset(xs[..i]) + multiset([s]) + multiset(xs[i + 1..]);
        multiset(xs[..i]) + multiset(xs[i + 1..]) + multiset{s};
        multiset(r) + multiset{s};
      }
    }
  }

  /**
   * Unregistering a subscriber that was not yet in the list undoes its
   * registration exactly; otherwise it removes an earlier registration and
   * leaves the same subscribers, counted with multiplicity.
   */
  lemma {:induction false} UnregisterUndoesRegister<S>(xs: seq<S>, s: S)
    ensures s !in xs ==> RemoveFirst(xs + [s], s) == xs
    ensures s in xs ==> RemoveFirst(xs + [s], s) == RemoveFirst(xs, s) + [s]
    decreases |xs|
  {
    var ys := xs + [s];
    if xs == [] {
      assert ys == [s];
    } else {
      assert ys[0] == xs[0];
      assert ys[1..] == xs[1..] + [s];
      if xs[0] != s {
        UnregisterUndoesRegister(xs[1..], s);
        assert RemoveFirst(ys, s) == [xs[0]] + RemoveFirst(xs[1..] + [s], s);
        assert s in xs <==> s in xs[1..] by {
          assert xs == [xs[0]] + xs[1..];
        }
      }
    }
  }

  class Dispatcher<S(==)> {
    /** The registered subscribers, in registration order, duplicates allowed. */
    var subscribers: seq<S>

    /** A new dispatcher has no subscribers. */
    constructor ()
      ensures subscribers == []
    {
      subscribers := [];
    }

    /** register: s is appended at the end, even when already present. */
    method Register(s: S)
      modifies this
      ensures subscribers == old(subscribers) + [s]
    {
      subscribers := subscribers + [s];
    }

    /** unregister: the first occurrence of s is removed; no change when s is absent. */
    method Unregister(s: S)
      modifies this
      ensures subscribers == RemoveFirst(old(subscribers), s)
    {
      subscribers := RemoveFirst(subscribers, s);
    }

    /**
     * post: one `onEvent(msg)` per list element, in list order, so a
     * subscriber registered k times is called k times; the list is unchanged.
     */
    method Post(msg: string) returns (deliveries: seq<Delivery<S>>)
      ensures |deliveries| == |subscribers|
      ensures forall i :: 0 <= i < |subscribers| ==> deliveries[i] == OnEvent(subscribers[i], msg)
    {
      deliveries := [];
      var i := 0;
      while i < |subscribers|
        invariant 0 <= i <= |subscribers|
        invariant |deliveries| == i
        invariant forall k :: 0 <= k < i ==> deliveries[k] == OnEvent(subscribers[k], msg)
      {
        deliveries := deliveries + [OnEvent(subscribers[i], msg)];
        i := i + 1;
      }
    }
  }
}
