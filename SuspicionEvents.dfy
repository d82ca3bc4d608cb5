/** The global suspicion channel: a record describing something suspicious
    and a static, synchronous publish/subscribe list. Subscribers are
    identified by a value of type `L`; a delivery pairs a subscriber with the
    event it is handed. */
module SuspicionEvents {
  import opened Common

  /** The four categories of suspicious activity. */
  datatype SuspicionType = Theft | LoudNoise | Sprinting | WeaponDrawn

  /** The event record; its constructor stores the three values unchanged. */
  datatype SuspicionEvent = SuspicionEvent(position: Vec3, amount: real, kind: SuspicionType)

  /** Every category, in declaration order. */
  const AllTypes: seq<SuspicionType> := [Theft, LoudNoise, Sprinting, WeaponDrawn]

  /** One handler invocation made by Raise. */
  datatype Delivery<L> = Delivery(subscriber: L, event: SuspicionEvent)

  /** The invocations Raise makes: every subscriber, in subscription order,
      each handed the same event. */
  function Fanout<L>(subscribers: seq<L>, e: SuspicionEvent): (ds: seq<Delivery<L>>)
    ensures |ds| == |subscribers|
    ensures forall i :: 0 <= i < |ds| ==> ds[i] == Delivery(subscribers[i], e)
  {
    if subscribers == [] then []
    else [Delivery(subscribers[0], e)] + Fanout(subscribers[1..], e)
  }

  /** The subscriber list after `-= h`: the last occurrence of `h` is removed;
      without one the list is unchanged. */
  function RemoveLast<L(==)>(subscribers: seq<L>, h: L): (r: seq<L>)
    ensures h !in subscribers ==> r == subscribers
    ensures h in subscribers ==> |r| == |subscribers| - 1
    decreases |subscribers|
  {
    if subscribers == [] then []
    else if subscribers[|subscribers| - 1] == h then subscribers[..|subscribers| - 1]
    else RemoveLast(subscribers[..|subscribers| - 1], h) + [subscribers[|subscribers| - 1]]
  }

  /** There are exactly four categories, all distinct, and every value is one of them. */
  lemma ExactlyFourTypes(t: SuspicionType)
    ensures t in AllTypes
    ensures |AllTypes| == 4
    ensures forall i, j :: 0 <= i < j < |AllTypes| ==> AllTypes[i] != AllTypes[j]
  {
  }

  /** Raise with no subscribers invokes nothing; otherwise every subscriber is
      reached exactly as often as it is subscribed, with the unfiltered event. */
  lemma {:induction false} FanoutReachesEveryone<L>(subscribers: seq<L>, e: SuspicionEvent, h: L)
    ensures subscribers == [] ==> Fanout(subscribers, e) == []
    ensures multiset(Fanout(subscribers, e))[Delivery(h, e)] == multiset(subscribers)[h]
  {
    if subscribers != [] {
      FanoutReachesEveryone(subscribers[1..], e, h);
      CountOfCons(subscribers, h);
      FanoutCons(subscribers, e);
      CountOfCons(Fanout(subscribers, e), Delivery(h, e));
    }
  }

  lemma FanoutCons<L>(s: seq<L>, e: SuspicionEvent)
    requires s != []
    ensures Fanout(s, e)[0] == Delivery(s[0], e) && Fanout(s, e)[1..] == Fanout(s[1..], e)
  {
  }

  /** Occurrences in a non-empty sequence: the head's, then the tail's. */
  lemma CountOfCons<T>(s: seq<T>, x: T)
    requires s != []
    ensures multiset(s)[x] == (if s[0] == x then 1 else 0) + multiset(s[1..])[x]
  {
    assert s == [s[0]] + s[1..];
  }

  /** Unsubscribing keeps the relative order of the remaining handlers and
      drops exactly one occurrence of the removed handler. */
  lemma {:induction false} RemoveLastDropsOne<L>(subscribers: seq<L>, h: L)
    requires h in subscribers
    ensures multiset(RemoveLast(subscribers, h)) == multiset(subscribers) - multiset{h}
    decreases |subscribers|
  {
    var n := |subscribers|;
    var init := subscribers[..n - 1];
    assert subscribers == init + [subscribers[n - 1]];
    if subscribers[n - 1] != h {
      assert h in init;
      RemoveLastDropsOne(init, h);
    }
  }

  /** The static event: a list of subscribed handlers. */
  class SuspicionBus<L(==)> {
    var subscribers: seq<L>

    constructor ()
      ensures subscribers == []
    {
      subscribers := [];
    }

    /** `OnRaised += h`: appends. */
    method Subscribe(h: L)
      modifies this
      ensures subscribers == old(subscribers) + [h]
    {
      subscribers := subscribers + [h];
    }

    /** `OnRaised -= h`: removes the last occurrence, if any. */
    method Unsubscribe(h: L)
      modifies this
      ensures subscribers == RemoveLast(old(subscribers), h)
    {
      var subs := subscribers;
      var i := |subs|;
      assert subs[..i] == subs && subs[i..] == [];
      while i > 0 && subs[i - 1] != h
        invariant 0 <= i <= |subs|
        invariant subscribers == subs
        invariant RemoveLast(subs, h) == RemoveLast(subs[..i], h) + subs[i..]
      {
        RemoveLastShift(subs, i, h);
        i := i - 1;
      }
      if i > 0 {
        RemoveLastHit(subs, i, h);
        subscribers := subs[..i - 1] + subs[i..];
      } else {
        assert subs[..0] == [] && subs[0..] == subs;
      }
    }

    /** Invokes every subscriber with `e`, synchronously and in order; the
        result is the list of invocations made. */
    method Raise(e: SuspicionEvent) returns (ds: seq<Delivery<L>>)
      ensures ds == Fanout(subscribers, e)
      ensures subscribers == [] ==> ds == []
    {
      ds := [];
      var i := 0;
      while i < |subscribers|
        invariant 0 <= i <= |subscribers|
        invariant ds == Fanout(subscribers[..i], e)
      {
        assert subscribers[..i + 1] == subscribers[..i] + [subscribers[i]];
        FanoutAppend(subscribers[..i], subscribers[i], e);
        ds := ds + [Delivery(subscribers[i], e)];
        i := i + 1;
      }
      assert subscribers[..i] == subscribers;
    }
  }

  lemma FanoutAppend<L>(s: seq<L>, x: L, e: SuspicionEvent)
    ensures Fanout(s + [x], e) == Fanout(s, e) + [Delivery(x, e)]
  {
  }

  lemma RemoveLastShift<L>(s: seq<L>, i: nat, h: L)
    requires 0 < i <= |s| && s[i - 1] != h
    ensures RemoveLast(s[..i], h) + s[i..] == RemoveLast(s[..i - 1], h) + s[i - 1..]
  {
    assert s[..i][..i - 1] == s[..i - 1];
    assert s[i - 1..] == [s[i - 1]] + s[i..];
  }

  lemma RemoveLastHit<L>(s: seq<L>, i: nat, h: L)
    requires 0 < i <= |s| && s[i - 1] == h
    ensures RemoveLast(s[..i], h) + s[i..] == s[..i - 1] + s[i..]
  {
    assert s[..i][..i - 1] == s[..i - 1];
  }
}
