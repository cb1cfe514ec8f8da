/** Exactly when a lookup or a pop of the CoAP gateway hits a missing key, and runs in which one does. */
module CoapFailures {
  import opened Dicts
  import opened Messages
  import opened Gateway
  import opened Coap

  ghost predicate Known(s: CoapState, address: Address) {
    address in s.mapping && s.mapping[address] in s.gw.nodes.vals
  }

  /** What the handler of an event needs of the state. */
  ghost predicate Guard(s: CoapState, e: Event) {
    match e.what
    case Check(uid, address, _) => uid in s.mapping ==> Known(s, address)
    case Post(address, _, _) => address in s.mapping ==> Known(s, address)
    case Answer(_, _, _, _) => true
    case Cleanup => OwnEntries(s, ToRemove(s, e.at, 0))
    case Link(_, _) => true
  }

  /** A handler goes through exactly when its guard holds. */
  lemma HandleDoneIff(s: CoapState, e: Event)
    requires s.gw.nodes.Valid()
    ensures Handle(s, e).Done? <==> Guard(s, e)
  {
    if e.what.Cleanup? {
      ToRemoveDistinct(s, e.at, 0);
      ExpiredAreCached(s, e.at);
      RemoveAllIff(s, ToRemove(s, e.at, 0));
    }
  }

  lemma ExpiredAreCached(s: CoapState, now: real)
    requires s.gw.nodes.Valid()
    ensures forall i :: 0 <= i < |ToRemove(s, now, 0)| ==> ToRemove(s, now, 0)[i] in s.gw.nodes.vals
  {
    var dead := ToRemove(s, now, 0);
    assert s.gw.nodes.keys[0..] == s.gw.nodes.keys;
    forall i | 0 <= i < |dead| ensures dead[i] in s.gw.nodes.vals {
      assert dead[i] in dead;
    }
  }

  lemma {:induction false} RemovalsKeepValid(s: CoapState, dead: seq<Uid>)
    requires s.gw.nodes.Valid() && RemoveAll(s, dead).Done?
    ensures RemoveAll(s, dead).value.gw.nodes.Valid()
    decreases |dead|
  {
    if dead != [] {
      RemovalsKeepValid(RemoveOne(s, dead[0]).value, dead[1..]);
    }
  }

  lemma NodesStayValid(s: CoapState, e: Event)
    requires s.gw.nodes.Valid() && Handle(s, e).Done?
    ensures Handle(s, e).value.gw.nodes.Valid()
  {
    if e.what.Cleanup? {
      RemovalsKeepValid(s, ToRemove(s, e.at, 0));
    }
  }

  /** Every event of a run finds its guard satisfied. */
  ghost predicate Guarded(s: CoapState, es: seq<Event>) {
    forall k: nat :: k < |es| ==> GuardedAt(s, es, k)
  }

  /** Over any run, whatever the nodes do, no lookup or pop fails exactly when every guard holds. */
  lemma {:induction false} RunDoneIff(protocol: string, maxTime: real, es: seq<Event>)
    ensures HandleAll(Start(protocol, maxTime), es).Done? <==> Guarded(Start(protocol, maxTime), es)
    ensures HandleAll(Start(protocol, maxTime), es).Done? ==> HandleAll(Start(protocol, maxTime), es).value.gw.nodes.Valid()
    decreases |es|
  {
    if es != [] {
      var s, last := Start(protocol, maxTime), |es| - 1;
      RunDoneIff(protocol, maxTime, es[..last]);
      GuardedSplits(s, es);
      if HandleAll(s, es[..last]).Done? {
        HandleDoneIff(HandleAll(s, es[..last]).value, es[last]);
        if HandleAll(s, es).Done? {
          NodesStayValid(HandleAll(s, es[..last]).value, es[last]);
        }
      }
    }
  }

  ghost predicate GuardedAt(s: CoapState, es: seq<Event>, k: nat)
    requires k < |es|
  {
    HandleAll(s, es[..k]).Done? && Guard(HandleAll(s, es[..k]).value, es[k])
  }

  lemma {:induction false} GuardedSplits(s: CoapState, es: seq<Event>)
    requires es != []
    ensures Guarded(s, es) <==> Guarded(s, es[..|es| - 1]) && GuardedAt(s, es, |es| - 1)
  {
    var last := |es| - 1;
    forall k: nat | k < last ensures GuardedAt(s, es[..last], k) == GuardedAt(s, es, k) {
      assert es[..last][..k] == es[..k];
    }
  }

  // ---------------------------------------------------------------------------------------
  // What each hypothesis on the nodes is needed for

  /** A run of two, three or four events that fails at the last. */
  lemma {:induction false} FailsAtSecond(s: CoapState, es: seq<Event>, s1: CoapState)
    requires |es| == 2 && Handle(s, es[0]) == Done(s1) && Handle(s1, es[1]).KeyError?
    ensures HandleAll(s, es).KeyError?
  {
    Passes(s, [], es[0], s, s1, es[..1]);
  }

  lemma {:induction false} FailsAtThird(s: CoapState, es: seq<Event>, s1: CoapState, s2: CoapState)
    requires |es| == 3 && Handle(s, es[0]) == Done(s1) && Handle(s1, es[1]) == Done(s2) && Handle(s2, es[2]).KeyError?
    ensures HandleAll(s, es).KeyError?
  {
    Passes(s, [], es[0], s, s1, es[..1]);
    Passes(s, es[..1], es[1], s1, s2, es[..2]);
  }

  lemma {:induction false} FailsAtFourth(s: CoapState, es: seq<Event>, s1: CoapState, s2: CoapState, s3: CoapState)
    requires |es| == 4 && Handle(s, es[0]) == Done(s1) && Handle(s1, es[1]) == Done(s2)
    requires Handle(s2, es[2]) == Done(s3) && Handle(s3, es[3]).KeyError?
    ensures HandleAll(s, es).KeyError?
  {
    Passes(s, [], es[0], s, s1, es[..1]);
    Passes(s, es[..1], es[1], s1, s2, es[..2]);
    Passes(s, es[..2], es[2], s2, s3, es[..3]);
  }

  lemma {:induction false} Passes(s: CoapState, before: seq<Event>, e: Event, s1: CoapState, s2: CoapState, es: seq<Event>)
    requires es == before + [e] && HandleAll(s, before) == Done(s1) && Handle(s1, e) == Done(s2)
    ensures HandleAll(s, es) == Done(s2)
  {
    assert es[..|es| - 1] == before;
  }

  lemma CheckedIn(s: CoapState, a: Uid, x: Address, at: real) returns (s': CoapState)
    requires s.gw.nodes.Valid() && a !in s.mapping
    ensures Handle(s, Event(at, Check(a, x, false))) == Done(s')
    ensures s'.gw.nodes.Valid() && s'.mapping == s.mapping[x := a] && s'.lastSeen == s.lastSeen[a := at] && s'.maxTime == s.maxTime
    ensures s'.gw.nodes.vals.Keys == s.gw.nodes.vals.Keys + {a}
    ensures IpOf(s', a) == Some(x) && forall b :: b != a ==> IpOf(s', b) == IpOf(s, b)
  {
    s' := AddedAsNew(s, a, x, at);
    var labelled := Labelled(s.gw.protocol, IpOnly(x));
    assert s'.gw.nodes == s.gw.nodes.Put(a, labelled);
    assert IpIn(labelled) == Some(x);
  }

  /** A cleanup that finds two expired nodes with one address, or one whose address is not in the book,
      fails. */
  lemma CleanupFails(s: CoapState, e: Event, a: Uid, b: Uid)
    requires s.gw.nodes.Valid() && e.what.Cleanup? && a in s.gw.nodes.vals && b in s.gw.nodes.vals
    requires Expired(s, a, e.at) && Expired(s, b, e.at)
    requires (a != b && IpOf(s, a) == IpOf(s, b)) || (IpOf(s, a).Some? && IpOf(s, a).value !in s.mapping)
    ensures Handle(s, e).KeyError?
  {
    var dead := ToRemove(s, e.at, 0);
    assert s.gw.nodes.keys[0..] == s.gw.nodes.keys;
    var i :| 0 <= i < |dead| && dead[i] == a;
    var j :| 0 <= j < |dead| && dead[j] == b;
    assert IpOf(s, dead[i]) == IpOf(s, a) && IpOf(s, dead[j]) == IpOf(s, b);
    HandleDoneIff(s, e);
  }

  lemma ExpiredAt200(s: CoapState, u: Uid)
    requires u in s.lastSeen && s.lastSeen[u] == 0.0 && s.maxTime == 120.0
    ensures Expired(s, u, 200.0)
  {
    assert (200.0).Floor == 200;
  }

  /** Two nodes share an address: everything else is as it should be. */
  lemma {:induction false} SharedAddressFails(a: Uid, b: Uid, x: Address, es: seq<Event>)
    requires a != b && a != x && b != x
    requires es == [Event(0.0, Check(a, x, false)), Event(0.0, Check(b, x, false)), Event(200.0, Cleanup)]
    ensures HandleAll(Start("CoAP", 120.0), es).KeyError?
    ensures var addr, uids := (u: Uid) => x, {a, b};
      Unmistakable(addr, uids) && forall i :: 0 <= i < |es| ==> Conforming(es[i], addr, uids)
  {
    SharedRun(Start("CoAP", 120.0), a, b, x, es);
  }

  lemma {:induction false} SharedRun(s0: CoapState, a: Uid, b: Uid, x: Address, es: seq<Event>)
    requires s0 == Start("CoAP", 120.0) && a != b && a != x && b != x && |es| == 3
    requires es[0] == Event(0.0, Check(a, x, false)) && es[1] == Event(0.0, Check(b, x, false)) && es[2] == Event(200.0, Cleanup)
    ensures HandleAll(s0, es).KeyError?
  {
    var s1 := CheckedIn(s0, a, x, 0.0);
    var s2 := CheckedIn(s1, b, x, 0.0);
    ExpiredAt200(s2, a);
    ExpiredAt200(s2, b);
    CleanupFails(s2, es[2], a, b);
    FailsAtThird(s0, es, s1, s2);
  }

  /** A uid reads like the address of another node. */
  lemma {:induction false} MistakenUidFails(u: Uid, v: Uid, x: Address, es: seq<Event>)
    requires u != v && u != x && v != x
    requires es == [Event(0.0, Check(v, u, false)), Event(0.0, Check(u, x, false))]
    ensures HandleAll(Start("CoAP", 120.0), es).KeyError?
    ensures var addr, uids := (w: Uid) => if w == v then u else x, {u, v};
      Unshared(addr, uids) && forall i :: 0 <= i < |es| ==> Conforming(es[i], addr, uids)
  {
    var s0 := Start("CoAP", 120.0);
    MistakenRun(s0, u, v, x, es);
  }

  lemma {:induction false} MistakenRun(s0: CoapState, u: Uid, v: Uid, x: Address, es: seq<Event>)
    requires s0 == Start("CoAP", 120.0) && u != v && u != x && v != x && |es| == 2
    requires es[0] == Event(0.0, Check(v, u, false)) && es[1] == Event(0.0, Check(u, x, false))
    ensures HandleAll(s0, es).KeyError?
  {
    var s1 := CheckedIn(s0, v, u, 0.0);
    FailsAtSecond(s0, es, s1);
  }

  /** A node publishes an `ip`, by a post or in an answer. */
  lemma {:induction false} PublishedIpFails(a: Uid, x: Address, y: Address, es: seq<Event>)
    requires a != x && x != y && |es| == 3
    requires es[0] == Event(0.0, Check(a, x, false)) && es[2] == Event(200.0, Cleanup)
    requires es[1].what == Post(x, "ip", y) || es[1].what == Answer(a, true, "ip", y)
    ensures HandleAll(Start("CoAP", 120.0), es).KeyError?
    ensures var addr, uids := (u: Uid) => x, {a};
      Addressing(addr, uids) && Conforming(es[0], addr, uids) && Conforming(es[2], addr, uids)
  {
    PublishedRun(Start("CoAP", 120.0), a, x, y, es);
  }

  lemma {:induction false} PublishedRun(s0: CoapState, a: Uid, x: Address, y: Address, es: seq<Event>)
    requires s0 == Start("CoAP", 120.0) && a != x && x != y && |es| == 3
    requires es[0] == Event(0.0, Check(a, x, false)) && es[2] == Event(200.0, Cleanup)
    requires es[1].what == Post(x, "ip", y) || es[1].what == Answer(a, true, "ip", y)
    ensures HandleAll(s0, es).KeyError?
  {
    var s1 := CheckedIn(s0, a, x, 0.0);
    var s2 := IpReplaced(s1, a, x, y, es[1]);
    ExpiredAt200(s2, a);
    CleanupFails(s2, es[2], a, a);
    FailsAtThird(s0, es, s1, s2);
  }

  lemma IpReplaced(s: CoapState, a: Uid, x: Address, y: Address, e: Event) returns (s': CoapState)
    requires s.gw.nodes.Valid() && a in s.gw.nodes.vals && s.mapping == map[x := a]
    requires e.what == Post(x, "ip", y) || e.what == Answer(a, true, "ip", y)
    ensures Handle(s, e) == Done(s') && s'.gw.nodes.Valid() && a in s'.gw.nodes.vals && IpOf(s', a) == Some(y)
    ensures s'.mapping == s.mapping && s'.lastSeen == s.lastSeen && s'.maxTime == s.maxTime
  {
    s' := s.(gw := ForwardData(s.gw, a, "ip", y));
    assert s'.gw.nodes == s.gw.nodes.Put(a, s.gw.nodes.vals[a].Put("ip", y));
  }

  /** A node changes its address: its removal leaves the old one in the book, for the next post to find. */
  lemma {:induction false} MovedNodeFails(a: Uid, x: Address, y: Address, value: string, es: seq<Event>)
    requires a != x && a != y && x != y
    requires es == [Event(0.0, Check(a, x, false)), Event(0.0, Check(a, y, false)), Event(200.0, Cleanup), Event(200.0, Post(x, "led", value))]
    ensures HandleAll(Start("CoAP", 120.0), es).KeyError?
    ensures var addr, uids := (u: Uid) => x, {a};
      Addressing(addr, uids) && forall i :: 0 <= i < |es| && i != 1 ==> Conforming(es[i], addr, uids)
  {
    MovedRun(Start("CoAP", 120.0), a, x, y, value, es);
  }

  lemma {:induction false} MovedRun(s0: CoapState, a: Uid, x: Address, y: Address, value: string, es: seq<Event>)
    requires s0 == Start("CoAP", 120.0) && a != x && a != y && x != y && |es| == 4
    requires es[0] == Event(0.0, Check(a, x, false)) && es[1] == Event(0.0, Check(a, y, false))
    requires es[2] == Event(200.0, Cleanup) && es[3] == Event(200.0, Post(x, "led", value))
    ensures HandleAll(s0, es).KeyError?
  {
    var s1, s2 := CheckedInTwice(s0, a, x, y);
    var s3 := OnlyNodeRemoved(s2, a, y, es[2]);
    StalePostFails(s3, x, es[3]);
    FailsAtFourth(s0, es, s1, s2, s3);
  }

  lemma CheckedInTwice(s0: CoapState, a: Uid, x: Address, y: Address) returns (s1: CoapState, s2: CoapState)
    requires s0.gw.nodes.Valid() && s0.gw.nodes.vals == map[] && s0.mapping == map[] && s0.maxTime == 120.0 && a != x && a != y
    ensures Handle(s0, Event(0.0, Check(a, x, false))) == Done(s1) && Handle(s1, Event(0.0, Check(a, y, false))) == Done(s2)
    ensures s2.gw.nodes.Valid() && s2.gw.nodes.vals.Keys == {a} && IpOf(s2, a) == Some(y)
    ensures x in s2.mapping && s2.mapping[x] == a && y in s2.mapping
    ensures a in s2.lastSeen && s2.lastSeen[a] == 0.0 && s2.maxTime == 120.0
  {
    s1 := CheckedIn(s0, a, x, 0.0);
    s2 := CheckedIn(s1, a, y, 0.0);
  }

  lemma StalePostFails(s: CoapState, x: Address, e: Event)
    requires x in s.mapping && s.mapping[x] !in s.gw.nodes.vals && e.what.Post? && e.what.address == x
    ensures Handle(s, e).KeyError?
  {
  }

  lemma OnlyNodeRemoved(s: CoapState, a: Uid, y: Address, e: Event) returns (s': CoapState)
    requires s.gw.nodes.Valid() && s.gw.nodes.vals.Keys == {a} && IpOf(s, a) == Some(y) && y in s.mapping
    requires a in s.lastSeen && s.lastSeen[a] == 0.0 && s.maxTime == 120.0 && e == Event(200.0, Cleanup)
    ensures Handle(s, e) == Done(s') && s'.mapping == s.mapping - {y} && a !in s'.gw.nodes.vals
  {
    ExpiredAt200(s, a);
    var dead := ToRemove(s, 200.0, 0);
    assert s.gw.nodes.keys[0..] == s.gw.nodes.keys;
    ToRemoveDistinct(s, 200.0, 0);
    OnlyMember(dead, a);
    s' := RemoveOne(s, a).value;
    assert RemoveAll(s, dead) == RemoveAll(s', dead[1..]) == Done(s');
  }

  lemma OnlyMember(dead: seq<Uid>, a: Uid)
    requires Distinct(dead) && a in dead && forall u :: u in dead ==> u == a
    ensures dead == [a]
  {
    var i :| 0 <= i < |dead| && dead[i] == a;
    forall j | 0 <= j < |dead| ensures dead[j] == dead[i] {
      assert dead[j] in dead;
    }
    assert dead[0] == dead[i] && dead[|dead| - 1] == dead[i];
    assert i == 0 && |dead| - 1 == i;
  }
}
