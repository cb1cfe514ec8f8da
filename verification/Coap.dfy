/** The CoAP gateway: the address book kept beside the cache, and the eviction of silent nodes. */
module Coap {
  import opened Dicts
  import opened Messages
  import opened Gateway

  type Address = string

  /** `mapping` is `node_mapping`, from addresses to uids; `lastSeen` collects the field of that name
      of the cached node objects. */
  datatype CoapState = CoapState(gw: GatewayState, mapping: map<Address, Uid>, lastSeen: map<Uid, real>, maxTime: real)

  datatype Outcome<+T> = Done(value: T) | KeyError

  function IpOnly(address: Address): (r: Resources)
    ensures r.Valid() && r.vals == map["ip" := address]
  {
    Empty<string, string>().Put("ip", address)
  }

  function AddedAsNew(s: CoapState, uid: Uid, address: Address, now: real): CoapState {
    s.(gw := AddNode(s.gw, uid, IpOnly(address)), mapping := s.mapping[address := uid], lastSeen := s.lastSeen[uid := now])
  }

  /** `handle_coap_check`. The first test looks a uid up among the addresses, as the code does. */
  function HandleCheck(s: CoapState, uid: Uid, address: Address, reset: bool, now: real): Outcome<CoapState> {
    if uid !in s.mapping then Done(AddedAsNew(s, uid, address, now))
    else if address !in s.mapping || s.mapping[address] !in s.gw.nodes.vals then KeyError
    else if reset then Done(s.(gw := ResetNode(s.gw, s.mapping[address], IpOnly(address))))
    else Done(s.(lastSeen := s.lastSeen[s.mapping[address] := now]))
  }

  /** `handle_coap_post`. */
  function HandlePost(s: CoapState, address: Address, endpoint: string, value: string): Outcome<CoapState> {
    if address !in s.mapping then Done(s)
    else if s.mapping[address] !in s.gw.nodes.vals then KeyError
    else Done(s.(gw := ForwardData(s.gw, s.mapping[address], endpoint, value)))
  }

  /** The test `int(time.time()) > node.last_seen + self.max_time`. */
  predicate Expired(s: CoapState, uid: Uid, now: real) {
    uid in s.lastSeen && now.Floor as real > s.lastSeen[uid] + s.maxTime
  }

  /** `to_remove`: the expired nodes, in the order of the cache, from key number `from` on. */
  function ToRemove(s: CoapState, now: real, from: nat): (dead: seq<Uid>)
    requires from <= |s.gw.nodes.keys|
    ensures forall u :: u in dead <==> u in s.gw.nodes.keys[from..] && Expired(s, u, now)
    decreases |s.gw.nodes.keys| - from
  {
    if from == |s.gw.nodes.keys| then []
    else
      assert s.gw.nodes.keys[from..] == [s.gw.nodes.keys[from]] + s.gw.nodes.keys[from + 1..];
      (if Expired(s, s.gw.nodes.keys[from], now) then [s.gw.nodes.keys[from]] else []) + ToRemove(s, now, from + 1)
  }

  /** One turn of the removal loop: both dictionaries are popped. */
  function RemoveOne(s: CoapState, uid: Uid): Outcome<CoapState> {
    if uid !in s.gw.nodes.vals || "ip" !in s.gw.nodes.vals[uid].vals || s.gw.nodes.vals[uid].vals["ip"] !in s.mapping
    then KeyError
    else Done(s.(gw := RemoveNode(s.gw, uid),
                 mapping := s.mapping - {s.gw.nodes.vals[uid].vals["ip"]},
                 lastSeen := s.lastSeen - {uid}))
  }

  function RemoveAll(s: CoapState, dead: seq<Uid>): Outcome<CoapState>
    decreases |dead|
  {
    if dead == [] then Done(s)
    else
      var one := RemoveOne(s, dead[0]);
      if one.KeyError? then KeyError else RemoveAll(one.value, dead[1..])
  }

  /** What the loop leaves behind, whether it ends or fails: a turn that fails changes nothing. */
  function RemoveWhile(s: CoapState, dead: seq<Uid>): CoapState
    decreases |dead|
  {
    if dead == [] || RemoveOne(s, dead[0]).KeyError? then s else RemoveWhile(RemoveOne(s, dead[0]).value, dead[1..])
  }

  lemma {:induction false} RemoveWhileEnds(s: CoapState, dead: seq<Uid>)
    ensures RemoveAll(s, dead).Done? ==> RemoveAll(s, dead).value == RemoveWhile(s, dead)
    decreases |dead|
  {
    if dead != [] && RemoveOne(s, dead[0]).Done? {
      RemoveWhileEnds(RemoveOne(s, dead[0]).value, dead[1..]);
    }
  }

  /** `check_dead_nodes`. */
  function CheckDeadNodes(s: CoapState, now: real): Outcome<CoapState> {
    RemoveAll(s, ToRemove(s, now, 0))
  }

  // ---------------------------------------------------------------------------------------
  // When the removal loop fails

  function IpOf(s: CoapState, uid: Uid): Option<Address> {
    if uid in s.gw.nodes.vals && "ip" in s.gw.nodes.vals[uid].vals then Some(s.gw.nodes.vals[uid].vals["ip"]) else None
  }

  /** Every node to remove has an address of its own in the book. */
  ghost predicate OwnEntries(s: CoapState, dead: seq<Uid>) {
    && (forall i :: 0 <= i < |dead| ==> IpOf(s, dead[i]).Some? && IpOf(s, dead[i]).value in s.mapping)
    && (forall i, j :: 0 <= i < j < |dead| ==> IpOf(s, dead[i]) != IpOf(s, dead[j]))
  }

  /** The removal loop goes through exactly when the nodes to remove have distinct addresses, all in
      the book. */
  lemma {:induction false} RemoveAllIff(s: CoapState, dead: seq<Uid>)
    requires Distinct(dead) && forall i :: 0 <= i < |dead| ==> dead[i] in s.gw.nodes.vals
    ensures RemoveAll(s, dead).Done? <==> OwnEntries(s, dead)
    decreases |dead|
  {
    if dead != [] {
      var one := RemoveOne(s, dead[0]);
      if one.Done? {
        var s' := one.value;
        var rest := dead[1..];
        assert forall i :: 0 <= i < |rest| ==> rest[i] == dead[i + 1] && rest[i] != dead[0];
        assert forall i :: 0 <= i < |rest| ==> IpOf(s', rest[i]) == IpOf(s, rest[i]);
        RemoveAllIff(s', rest);
        if OwnEntries(s, dead) {
          assert OwnEntries(s', rest);
        }
        if OwnEntries(s', rest) {
          forall i, j | 0 <= i < j < |dead|
            ensures IpOf(s, dead[i]) != IpOf(s, dead[j])
          {
            assert dead[j] == rest[j - 1];
            assert i > 0 ==> dead[i] == rest[i - 1];
          }
          forall i | 0 <= i < |dead|
            ensures IpOf(s, dead[i]).Some? && IpOf(s, dead[i]).value in s.mapping
          {
            assert i > 0 ==> dead[i] == rest[i - 1];
          }
        }
      }
    }
  }

  lemma {:induction false} ToRemoveDistinct(s: CoapState, now: real, from: nat)
    requires from <= |s.gw.nodes.keys| && Distinct(s.gw.nodes.keys)
    ensures Distinct(ToRemove(s, now, from))
    decreases |s.gw.nodes.keys| - from
  {
    if from < |s.gw.nodes.keys| {
      ToRemoveDistinct(s, now, from + 1);
      assert s.gw.nodes.keys[from] !in s.gw.nodes.keys[from + 1..];
    }
  }

  // ---------------------------------------------------------------------------------------
  // Runs of one gateway

  datatype What =
    | Check(uid: Uid, address: Address, reset: bool)
    | Post(address: Address, endpoint: string, value: string)
    | Answer(uid: Uid, current: bool, endpoint: string, value: string)
    | Cleanup
    | Link(phase: Phase, toBroker: seq<Message>)

  /** Something that happens to the gateway, and the clock when it does. `Answer` is a value that a
      discovery or a write obtains from a node, whose object is `current` unless it has been replaced in
      the cache meanwhile; `Link` stands for anything the broker connection
      does, which concerns neither dictionary. */
  datatype Event = Event(at: real, what: What)

  function Handle(s: CoapState, e: Event): Outcome<CoapState> {
    match e.what
    case Check(uid, address, reset) => HandleCheck(s, uid, address, reset, e.at)
    case Post(address, endpoint, value) => HandlePost(s, address, endpoint, value)
    case Answer(uid, current, endpoint, value) =>
      if current && uid in s.gw.nodes.vals then Done(s.(gw := ForwardData(s.gw, uid, endpoint, value)))
      else Done(s.(gw := Send(s.gw, [Update(uid, endpoint, value, All)])))
    case Cleanup => CheckDeadNodes(s, e.at)
    case Link(phase, toBroker) => Done(s.(gw := s.gw.(phase := phase, toBroker := toBroker)))
  }

  function HandleAll(s: CoapState, es: seq<Event>): Outcome<CoapState>
    decreases |es|
  {
    if es == [] then Done(s)
    else
      var last := |es| - 1;
      var before := HandleAll(s, es[..last]);
      if before.KeyError? then KeyError else Handle(before.value, es[last])
  }

  function Start(protocol: string, maxTime: real): CoapState {
    CoapState(GatewayState(protocol, Empty(), Idle, []), map[], map[], maxTime)
  }

  /** The addresses of `uids`: none is shared, and a uid that reads like an address is that of the
      node with that very address. */
  ghost predicate Addressing(addr: Uid -> Address, uids: set<Uid>) {
    Unshared(addr, uids) && Unmistakable(addr, uids)
  }

  ghost predicate Unshared(addr: Uid -> Address, uids: set<Uid>) {
    forall u, v :: u in uids && v in uids && addr(u) == addr(v) ==> u == v
  }

  ghost predicate Unmistakable(addr: Uid -> Address, uids: set<Uid>) {
    forall u, v :: u in uids && v in uids && u == addr(v) ==> u == v
  }

  /** Nodes check in from their own address and publish no resource named `ip`. */
  predicate Conforming(e: Event, addr: Uid -> Address, uids: set<Uid>) {
    match e.what
    case Check(uid, address, _) => uid in uids && address == addr(uid)
    case Post(_, endpoint, _) => endpoint != "ip"
    case Answer(_, _, endpoint, _) => endpoint != "ip"
    case Cleanup => true
    case Link(_, _) => true
  }

  function IpIn(res: Resources): Option<Address> {
    if "ip" in res.vals then Some(res.vals["ip"]) else None
  }

  /** The cached nodes with their `ip` resource. */
  function Ips(nodes: Cache): map<Uid, Option<Address>> {
    map u | u in nodes.vals :: IpIn(nodes.vals[u])
  }

  ghost predicate Book(ips: map<Uid, Option<Address>>, mapping: map<Address, Uid>, addr: Uid -> Address, uids: set<Uid>) {
    && (forall u :: u in ips ==> u in uids && ips[u] == Some(addr(u)) && addr(u) in mapping && mapping[addr(u)] == u)
    && (forall a :: a in mapping ==> mapping[a] in ips && addr(mapping[a]) == a)
  }

  /** `node_mapping` is the inverse of the cache by the `ip` resource. */
  ghost predicate Inverse(s: CoapState, addr: Uid -> Address, uids: set<Uid>) {
    ValidCache(s.gw.nodes) && Book(Ips(s.gw.nodes), s.mapping, addr, uids) && s.lastSeen.Keys == s.gw.nodes.vals.Keys
  }

  lemma BookAfterAdd(ips: map<Uid, Option<Address>>, mapping: map<Address, Uid>, addr: Uid -> Address, uids: set<Uid>, u: Uid)
    requires Addressing(addr, uids) && Book(ips, mapping, addr, uids) && u in uids
    ensures Book(ips[u := Some(addr(u))], mapping[addr(u) := u], addr, uids)
  {
  }

  lemma BookAfterRemove(ips: map<Uid, Option<Address>>, mapping: map<Address, Uid>, addr: Uid -> Address, uids: set<Uid>, u: Uid)
    requires Addressing(addr, uids) && Book(ips, mapping, addr, uids) && u in ips
    ensures Book(ips - {u}, mapping - {addr(u)}, addr, uids)
  {
  }

  lemma CacheAfterPut(nodes: Cache, u: Uid, res: Resources)
    requires ValidCache(nodes) && res.Valid()
    ensures ValidCache(nodes.Put(u, res)) && Ips(nodes.Put(u, res)) == Ips(nodes)[u := IpIn(res)]
  {
  }

  lemma CacheAfterEdit(nodes: Cache, u: Uid, res: Resources)
    requires ValidCache(nodes) && res.Valid() && u in nodes.vals && IpIn(res) == IpIn(nodes.vals[u])
    ensures ValidCache(nodes.Put(u, res)) && Ips(nodes.Put(u, res)) == Ips(nodes)
  {
    IpsAfterEdit(nodes, u, res);
  }

  lemma IpsAfterEdit(nodes: Cache, u: Uid, res: Resources)
    requires ValidCache(nodes) && res.Valid() && u in nodes.vals && IpIn(res) == IpIn(nodes.vals[u])
    ensures Ips(nodes.Put(u, res)) == Ips(nodes)
  {
  }

  lemma CacheAfterPop(nodes: Cache, u: Uid)
    requires ValidCache(nodes) && u in nodes.vals
    ensures ValidCache(nodes.Pop(u)) && Ips(nodes.Pop(u)) == Ips(nodes) - {u}
  {
  }

  /** A uid is found among the addresses exactly when it is that of a cached node with this address. */
  lemma InBookIff(s: CoapState, addr: Uid -> Address, uids: set<Uid>, uid: Uid)
    requires Addressing(addr, uids) && Inverse(s, addr, uids) && uid in uids
    ensures uid in s.mapping <==> uid in s.gw.nodes.vals && addr(uid) == uid
  {
    if uid in s.mapping {
      var owner := s.mapping[uid];
      assert owner in Ips(s.gw.nodes) && addr(owner) == uid;
    }
    if uid in s.gw.nodes.vals && addr(uid) == uid {
      assert uid in Ips(s.gw.nodes);
    }
  }

  /** A check-in from the node's own address never fails, keeps the two dictionaries inverse, and
      counts as seen unless it is a reset of a node recognised by its address. */
  lemma InverseAfterCheck(s: CoapState, addr: Uid -> Address, uids: set<Uid>, uid: Uid, reset: bool, now: real)
    requires Addressing(addr, uids) && Inverse(s, addr, uids) && uid in uids
    ensures HandleCheck(s, uid, addr(uid), reset, now).Done?
    ensures Inverse(HandleCheck(s, uid, addr(uid), reset, now).value, addr, uids)
    ensures HandleCheck(s, uid, addr(uid), reset, now).value.lastSeen ==
            if uid in s.mapping && reset then s.lastSeen else s.lastSeen[uid := now]
  {
    if uid !in s.mapping {
      InverseAfterAdd(s, addr, uids, uid, now);
    } else {
      assert s.mapping[uid] == uid && addr(uid) == uid;
      if reset {
        InverseAfterReset(s, addr, uids, uid);
      }
    }
  }

  lemma InverseAfterAdd(s: CoapState, addr: Uid -> Address, uids: set<Uid>, uid: Uid, now: real)
    requires Addressing(addr, uids) && Inverse(s, addr, uids) && uid in uids
    ensures Inverse(s.(gw := AddNode(s.gw, uid, IpOnly(addr(uid))), mapping := s.mapping[addr(uid) := uid],
                       lastSeen := s.lastSeen[uid := now]), addr, uids)
  {
    var labelled := Labelled(s.gw.protocol, IpOnly(addr(uid)));
    assert IpIn(labelled) == Some(addr(uid));
    assert AddNode(s.gw, uid, IpOnly(addr(uid))).nodes == s.gw.nodes.Put(uid, labelled);
    CacheAfterPut(s.gw.nodes, uid, labelled);
    BookAfterAdd(Ips(s.gw.nodes), s.mapping, addr, uids, uid);
  }

  lemma InverseAfterReset(s: CoapState, addr: Uid -> Address, uids: set<Uid>, uid: Uid)
    requires Inverse(s, addr, uids) && uid in s.gw.nodes.vals
    ensures Inverse(s.(gw := ResetNode(s.gw, uid, IpOnly(addr(uid)))), addr, uids)
  {
    var res := ResetResources(s.gw.protocol, IpOnly(addr(uid)));
    ResetKeepsIp(s.gw.protocol, addr(uid));
    assert Ips(s.gw.nodes)[uid] == Some(addr(uid));
    CacheAfterEdit(s.gw.nodes, uid, res);
    NodesAfterReset(s.gw, uid, IpOnly(addr(uid)));
    InverseOfSameIps(s, ResetNode(s.gw, uid, IpOnly(addr(uid))), addr, uids, uid, res);
  }

  lemma NodesAfterReset(gw: GatewayState, uid: Uid, defaults: Resources)
    requires uid in gw.nodes.vals && defaults.Valid()
    ensures ResetNode(gw, uid, defaults).nodes == gw.nodes.Put(uid, ResetResources(gw.protocol, defaults))
  {
  }

  lemma InverseOfSameIps(s: CoapState, gw: GatewayState, addr: Uid -> Address, uids: set<Uid>, uid: Uid, res: Resources)
    requires Inverse(s, addr, uids) && uid in s.gw.nodes.vals && gw.nodes == s.gw.nodes.Put(uid, res)
    requires ValidCache(gw.nodes) && Ips(gw.nodes) == Ips(s.gw.nodes)
    ensures Inverse(s.(gw := gw), addr, uids)
  {
  }

  lemma ResetKeepsIp(protocol: string, address: Address)
    ensures IpIn(ResetResources(protocol, IpOnly(address))) == Some(address)
  {
    var d := IpOnly(address);
    var start := Empty<string, string>().Put("protocol", protocol);
    assert d.keys == ["ip"];
    assert PutFrom(start, d, 0) == PutFrom(start.Put("ip", address), d, 1) == start.Put("ip", address);
  }

  lemma InverseAfterForward(s: CoapState, addr: Uid -> Address, uids: set<Uid>, uid: Uid, endpoint: string, value: string)
    requires Inverse(s, addr, uids) && endpoint != "ip" && uid in s.gw.nodes.vals
    ensures Inverse(s.(gw := ForwardData(s.gw, uid, endpoint, value)), addr, uids)
  {
    CacheAfterEdit(s.gw.nodes, uid, s.gw.nodes.vals[uid].Put(endpoint, value));
  }

  lemma InverseAfterRemoval(s: CoapState, addr: Uid -> Address, uids: set<Uid>, u: Uid)
    requires Addressing(addr, uids) && Inverse(s, addr, uids) && u in s.gw.nodes.vals
    ensures RemoveOne(s, u).Done? && Inverse(RemoveOne(s, u).value, addr, uids)
  {
    assert Ips(s.gw.nodes)[u] == Some(addr(u));
    CacheAfterPop(s.gw.nodes, u);
    BookAfterRemove(Ips(s.gw.nodes), s.mapping, addr, uids, u);
    RemovedState(s, u, addr(u));
  }

  lemma RemovedState(s: CoapState, u: Uid, address: Address)
    requires u in s.gw.nodes.vals && IpIn(s.gw.nodes.vals[u]) == Some(address) && address in s.mapping
    ensures RemoveOne(s, u).Done?
    ensures var s' := RemoveOne(s, u).value;
      s'.gw.nodes == s.gw.nodes.Pop(u) && s'.mapping == s.mapping - {address} && s'.lastSeen == s.lastSeen - {u}
  {
  }

  /** What the removal of `dead` leaves of the rest of the state. */
  ghost predicate Evicted(s: CoapState, s': CoapState, dead: seq<Uid>) {
    && s'.lastSeen == s.lastSeen - (set u | u in dead)
    && s'.gw.phase == s.gw.phase && s'.maxTime == s.maxTime
    && s'.gw.toBroker == if s.gw.phase == Up then s.gw.toBroker + OutMessages(dead) else s.gw.toBroker
  }

  /** Removing nodes in turn never fails, keeps the dictionaries inverse, and announces each node once. */
  lemma {:induction false} InverseAfterRemovals(s: CoapState, addr: Uid -> Address, uids: set<Uid>, dead: seq<Uid>)
    requires Addressing(addr, uids) && Inverse(s, addr, uids)
    requires Distinct(dead) && forall i :: 0 <= i < |dead| ==> dead[i] in s.gw.nodes.vals
    ensures RemoveAll(s, dead).Done? && Inverse(RemoveAll(s, dead).value, addr, uids)
    ensures Evicted(s, RemoveAll(s, dead).value, dead)
    decreases |dead|
  {
    if dead != [] {
      InverseAfterRemoval(s, addr, uids, dead[0]);
      var s1 := RemoveOne(s, dead[0]).value;
      var rest := dead[1..];
      RestStillCached(s, s1, dead);
      InverseAfterRemovals(s1, addr, uids, rest);
      EvictedOneMore(s, s1, RemoveAll(s1, rest).value, dead);
    }
  }

  lemma RestStillCached(s: CoapState, s1: CoapState, dead: seq<Uid>)
    requires dead != [] && Distinct(dead) && RemoveOne(s, dead[0]) == Done(s1)
    requires forall i :: 0 <= i < |dead| ==> dead[i] in s.gw.nodes.vals
    ensures Distinct(dead[1..]) && forall i :: 0 <= i < |dead| - 1 ==> dead[1..][i] in s1.gw.nodes.vals
  {
    assert s1.gw.nodes.vals == s.gw.nodes.vals - {dead[0]};
    forall i | 0 <= i < |dead| - 1
      ensures dead[1..][i] in s1.gw.nodes.vals
    {
      assert dead[1..][i] == dead[i + 1] && dead[i + 1] != dead[0];
    }
  }

  lemma EvictedOneMore(s: CoapState, s1: CoapState, s': CoapState, dead: seq<Uid>)
    requires dead != [] && RemoveOne(s, dead[0]) == Done(s1) && Evicted(s1, s', dead[1..])
    ensures Evicted(s, s', dead)
  {
    assert OutMessages(dead) == [Out(dead[0])] + OutMessages(dead[1..]);
    assert (set u | u in dead) == {dead[0]} + (set u | u in dead[1..]);
    assert s'.lastSeen == s.lastSeen - (set u | u in dead);
  }

  /** One cleanup evicts exactly the expired nodes. */
  lemma InverseAfterCleanup(s: CoapState, addr: Uid -> Address, uids: set<Uid>, now: real)
    requires Addressing(addr, uids) && Inverse(s, addr, uids)
    ensures CheckDeadNodes(s, now).Done? && Inverse(CheckDeadNodes(s, now).value, addr, uids)
    ensures Evicted(s, CheckDeadNodes(s, now).value, ToRemove(s, now, 0))
    ensures forall u :: u in CheckDeadNodes(s, now).value.lastSeen <==> u in s.lastSeen && !Expired(s, u, now)
  {
    var dead := ToRemove(s, now, 0);
    ToRemoveDistinct(s, now, 0);
    assert s.gw.nodes.keys[0..] == s.gw.nodes.keys;
    assert forall i :: 0 <= i < |dead| ==> dead[i] in s.gw.nodes.vals;
    InverseAfterRemovals(s, addr, uids, dead);
  }

  // ---------------------------------------------------------------------------------------
  // No lookup fails

  lemma HandleKeepsInverse(s: CoapState, e: Event, addr: Uid -> Address, uids: set<Uid>)
    requires Addressing(addr, uids) && Inverse(s, addr, uids) && Conforming(e, addr, uids)
    ensures Handle(s, e).Done? && Inverse(Handle(s, e).value, addr, uids)
  {
    match e.what {
      case Check(uid, address, reset) => InverseAfterCheck(s, addr, uids, uid, reset, e.at);
      case Post(address, endpoint, value) =>
        if address in s.mapping {
          InverseAfterForward(s, addr, uids, s.mapping[address], endpoint, value);
        }
      case Answer(uid, current, endpoint, value) =>
        if uid in s.gw.nodes.vals {
          InverseAfterForward(s, addr, uids, uid, endpoint, value);
        }
      case Cleanup => InverseAfterCleanup(s, addr, uids, e.at);
      case Link(_, _) =>
    }
  }

  ghost predicate ConformingRun(es: seq<Event>, addr: Uid -> Address, uids: set<Uid>) {
    Addressing(addr, uids) && forall i :: 0 <= i < |es| ==> Conforming(es[i], addr, uids)
  }

  /** With one address per node, in every run no lookup or pop hits a missing key, and the address
      book is the inverse of the cache. */
  lemma {:induction false} AddressBookIsInverse(protocol: string, maxTime: real, es: seq<Event>, addr: Uid -> Address, uids: set<Uid>)
    requires ConformingRun(es, addr, uids)
    ensures HandleAll(Start(protocol, maxTime), es).Done?
    ensures Inverse(HandleAll(Start(protocol, maxTime), es).value, addr, uids)
    decreases |es|
  {
    if es != [] {
      var last := |es| - 1;
      AddressBookIsInverse(protocol, maxTime, es[..last], addr, uids);
      HandleKeepsInverse(HandleAll(Start(protocol, maxTime), es[..last]).value, es[last], addr, uids);
    }
  }

  /** A node that is cached is recognised at its next check-in exactly when its uid is its address: any
      other is taken for a totally new node every time, resets included. */
  lemma RecognisedIff(protocol: string, maxTime: real, es: seq<Event>, addr: Uid -> Address, uids: set<Uid>, uid: Uid, reset: bool, now: real)
    requires ConformingRun(es, addr, uids)
    requires HandleAll(Start(protocol, maxTime), es).Done?
    requires uid in HandleAll(Start(protocol, maxTime), es).value.gw.nodes.vals
    ensures var s := HandleAll(Start(protocol, maxTime), es).value; uid in s.mapping <==> addr(uid) == uid
    ensures addr(uid) != uid ==>
      var s := HandleAll(Start(protocol, maxTime), es).value;
      HandleCheck(s, uid, addr(uid), reset, now) == Done(AddedAsNew(s, uid, addr(uid), now))
  {
    AddressBookIsInverse(protocol, maxTime, es, addr, uids);
    var s := HandleAll(Start(protocol, maxTime), es).value;
    assert uid in Ips(s.gw.nodes);
    InBookIff(s, addr, uids, uid);
  }

  // ---------------------------------------------------------------------------------------
  // Eviction in time

  /** What one event does to the record of when `u` was last seen: a reset of a recognised node leaves
      it alone, any other check-in sets it. */
  ghost predicate SeenAfter(s: CoapState, e: Event, s': CoapState, u: Uid, recognised: bool) {
    if e.what.Check? && e.what.uid == u then
      u in s'.lastSeen && s'.lastSeen[u] == if e.what.reset && recognised && u in s.lastSeen then s.lastSeen[u] else e.at
    else
      && (u in s'.lastSeen <==> u in s.lastSeen && !(e.what.Cleanup? && Expired(s, u, e.at)))
      && (u in s'.lastSeen ==> s'.lastSeen[u] == s.lastSeen[u])
  }

  lemma SeenAfterCheck(s: CoapState, e: Event, addr: Uid -> Address, uids: set<Uid>, u: Uid)
    requires Addressing(addr, uids) && Inverse(s, addr, uids) && Conforming(e, addr, uids) && e.what.Check?
    ensures Handle(s, e).Done? && Handle(s, e).value.maxTime == s.maxTime
    ensures SeenAfter(s, e, Handle(s, e).value, u, addr(u) == u)
  {
    InverseAfterCheck(s, addr, uids, e.what.uid, e.what.reset, e.at);
    InBookIff(s, addr, uids, e.what.uid);
  }

  lemma LastSeenAfter(s: CoapState, e: Event, addr: Uid -> Address, uids: set<Uid>, u: Uid)
    requires Addressing(addr, uids) && Inverse(s, addr, uids) && Conforming(e, addr, uids)
    ensures Handle(s, e).Done? && Handle(s, e).value.maxTime == s.maxTime
    ensures SeenAfter(s, e, Handle(s, e).value, u, addr(u) == u)
  {
    match e.what {
      case Check(_, _, _) => SeenAfterCheck(s, e, addr, uids, u);
      case Cleanup => InverseAfterCleanup(s, addr, uids, e.at);
      case Post(_, _, _) =>
      case Answer(_, _, _, _) =>
      case Link(_, _) =>
    }
  }

  lemma {:induction false} RemovalsKeepMaxTime(s: CoapState, dead: seq<Uid>)
    ensures RemoveAll(s, dead).Done? ==> RemoveAll(s, dead).value.maxTime == s.maxTime
    decreases |dead|
  {
    if dead != [] && RemoveOne(s, dead[0]).Done? {
      RemovalsKeepMaxTime(RemoveOne(s, dead[0]).value, dead[1..]);
    }
  }

  lemma MaxTimeKept(s: CoapState, e: Event, s': CoapState)
    requires Handle(s, e) == Done(s')
    ensures s'.maxTime == s.maxTime
  {
    if e.what.Cleanup? {
      RemovalsKeepMaxTime(s, ToRemove(s, e.at, 0));
    }
  }

  lemma {:induction false} MaxTimeIsFixed(protocol: string, maxTime: real, es: seq<Event>)
    requires HandleAll(Start(protocol, maxTime), es).Done?
    ensures HandleAll(Start(protocol, maxTime), es).value.maxTime == maxTime
    decreases |es|
  {
    if es != [] {
      var last := |es| - 1;
      MaxTimeIsFixed(protocol, maxTime, es[..last]);
      MaxTimeKept(HandleAll(Start(protocol, maxTime), es[..last]).value, es[last], HandleAll(Start(protocol, maxTime), es).value);
    }
  }

  /** What is recorded of `u` over one event: `before` and `after` say when it was last seen, if it
      is cached; `evicted` whether the event evicts it. */
  ghost predicate Recorded(before: Option<real>, after: Option<real>, e: Event, u: Uid, recognised: bool, evicted: bool, maxTime: real) {
    if e.what.Check? && e.what.uid == u then
      !evicted && after == if e.what.reset && recognised && before.Some? then before else Some(e.at)
    else
      && (evicted <==> e.what.Cleanup? && before.Some? && e.at.Floor as real > before.value + maxTime)
      && after == if evicted then None else before
  }

  /** A run as one node sees it. `recognised`: its uid is its address. */
  datatype Record = Record(u: Uid, recognised: bool, maxTime: real, es: seq<Event>, seen: seq<Option<real>>, evicted: seq<bool>) {

    ghost predicate Valid() {
      && |seen| == |es| + 1 && |evicted| == |es|
      && (forall k :: 0 <= k < |es| ==> At(k))
      && forall i, j :: 0 <= i <= j < |es| ==> es[i].at <= es[j].at
    }

    ghost predicate At(k: int)
      requires 0 <= k < |es| && |seen| == |es| + 1 && |evicted| == |es|
    {
      Recorded(seen[k], seen[k + 1], es[k], u, recognised, evicted[k], maxTime)
    }

    predicate Checks(j: int)
      requires 0 <= j < |es|
    {
      es[j].what.Check? && es[j].what.uid == u
    }

    /** Event number `j` is a check by `u`, other than a reset that is recognised as one. */
    predicate Alive(j: int)
      requires 0 <= j < |es|
    {
      Checks(j) && !(es[j].what.reset && recognised)
    }

    /** Every cleanup after event `from` comes within `maxTime` of a check that `u` has made since. */
    ghost predicate ChecksInTime(from: nat) {
      forall k :: from < k < |es| && es[k].what.Cleanup? ==>
        exists j :: from <= j < k && Alive(j) && es[k].at - es[j].at <= maxTime
    }

    lemma {:induction false} KeptWhileChecking(from: nat, k: nat)
      requires Valid() && from < k <= |es| && Alive(from) && ChecksInTime(from)
      ensures seen[k].Some?
      ensures forall j :: from <= j < k && Alive(j) ==> es[j].at <= seen[k].value
    {
      assert At(k - 1);
      if k - 1 > from {
        KeptWhileChecking(from, k - 1);
        if es[k - 1].what.Cleanup? {
          var j :| from <= j < k - 1 && Alive(j) && es[k - 1].at - es[j].at <= maxTime;
          assert es[j].at <= seen[k - 1].value;
          assert es[k - 1].at.Floor as real <= es[k - 1].at;
        }
      }
    }

    /** From event `from` on, `u` sends nothing but resets that are recognised. */
    ghost predicate SilentFrom(from: nat) {
      forall k :: from <= k < |es| ==> !Alive(k)
    }

    /** From event `from` on, `u` sends nothing. */
    ghost predicate MuteFrom(from: nat) {
      forall k :: from <= k < |es| ==> !Checks(k)
    }

    /** Event number `i` is the first from `from` on to evict `u`. */
    ghost predicate FirstEviction(from: nat, i: int)
      requires |evicted| == |es|
    {
      from <= i < |es| && evicted[i] && forall j :: from <= j < i ==> !evicted[j]
    }

    /** A silent node stays with its last sighting until it is evicted. */
    lemma {:induction false} KeptUntilEvicted(from: nat, k: nat, last: real)
      requires Valid() && from <= k <= |es| && SilentFrom(from) && seen[from] == Some(last)
      requires forall i :: from <= i < k ==> !evicted[i]
      ensures seen[k] == Some(last)
    {
      if k > from {
        KeptUntilEvicted(from, k - 1, last);
        assert At(k - 1) && !Alive(k - 1);
      }
    }

    /** A mute node that is gone stays gone. */
    lemma {:induction false} GoneStaysGone(from: nat, k: nat)
      requires Valid() && from <= k <= |es| && MuteFrom(from) && seen[from] == None
      ensures seen[k] == None && forall j :: from <= j < k ==> !evicted[j]
    {
      if k > from {
        GoneStaysGone(from, k - 1);
        assert At(k - 1) && !Checks(k - 1);
      }
    }

    /** A cleanup in the interval of length `length` from `low`. */
    predicate CleansWithin(from: nat, k: int, low: real, length: real) {
      from <= k < |es| && es[k].what.Cleanup? && low <= es[k].at <= low + length
    }

    predicate Spans(from: nat, low: real, length: real)
      requires from < |es|
    {
      es[from].at <= low && low + length <= es[|es| - 1].at
    }

    /** Some cleanup happens in every stretch of `p` seconds between event `from` and the end. */
    ghost predicate CleansEvery(from: nat, p: real)
      requires from < |es|
    {
      forall low: real :: Spans(from, low, p) ==> exists k :: CleansWithin(from, k, low, p)
    }

    /** The first eviction up to event number `k`, if there is any. */
    lemma {:induction false} EarliestEviction(from: nat, k: nat) returns (i: nat)
      requires |evicted| == |es| && from <= k < |es| && exists j :: from <= j <= k && evicted[j]
      ensures FirstEviction(from, i) && i <= k
    {
      if exists j :: from <= j < k && evicted[j] {
        i := EarliestEviction(from, k - 1);
      } else {
        i := k;
      }
    }

    /** A node last seen at `last` that is silent since: there is a first eviction, in time. */
    lemma FirstEvictedInTime(from: nat, last: real, p: real) returns (i: nat)
      requires Valid() && from < |es| && SilentFrom(from) && seen[from] == Some(last)
      requires CleansEvery(from, p) && Spans(from, last + maxTime + 1.0, p)
      ensures FirstEviction(from, i) && last + maxTime < es[i].at <= last + maxTime + 1.0 + p
    {
      var k :| CleansWithin(from, k, last + maxTime + 1.0, p);
      assert es[k].at < es[k].at.Floor as real + 1.0;
      if forall j :: from <= j < k ==> !evicted[j] {
        KeptUntilEvicted(from, k, last);
        assert At(k) && evicted[k];
      }
      assert exists j :: from <= j <= k && evicted[j];
      i := EarliestEviction(from, k);
      KeptUntilEvicted(from, i, last);
      assert At(i);
      assert es[i].at.Floor as real <= es[i].at <= es[k].at;
    }

    /** A mute node is evicted no second time, and stays gone. */
    lemma NoSecondEviction(from: nat, i: nat)
      requires Valid() && MuteFrom(from) && FirstEviction(from, i)
      ensures forall j :: from <= j < |es| && j != i ==> !evicted[j]
      ensures seen[|es|] == None
    {
      assert At(i) && seen[i + 1] == None;
      GoneStaysGone(i + 1, |es|);
    }

    lemma GoneInTheEnd(from: nat, last: real, p: real)
      requires Valid() && from < |es| && MuteFrom(from) && seen[from] == Some(last)
      requires CleansEvery(from, p) && Spans(from, last + maxTime + 1.0, p)
      ensures seen[|es|] == None
    {
      var i := FirstEvictedInTime(from, last, p);
      NoSecondEviction(from, i);
    }
  }

  /** A run of one gateway, with the addresses its nodes use. */
  datatype Scenario = Scenario(protocol: string, maxTime: real, es: seq<Event>, addr: Uid -> Address, uids: set<Uid>) {

    /** The clock never goes back, and nodes behave. */
    ghost predicate Proper() {
      ConformingRun(es, addr, uids) && forall i, j :: 0 <= i <= j < |es| ==> es[i].at <= es[j].at
    }

    /** The gateway before event number `k`. */
    ghost function Before(k: nat): CoapState
      requires Proper() && k <= |es|
      ensures Inverse(Before(k), addr, uids) && HandleAll(Start(protocol, maxTime), es[..k]) == Done(Before(k))
    {
      assert forall i :: 0 <= i < k ==> es[..k][i] == es[i];
      AddressBookIsInverse(protocol, maxTime, es[..k], addr, uids);
      HandleAll(Start(protocol, maxTime), es[..k]).value
    }

    /** When the gateway last saw `u`, before event number `k`; nothing if `u` is not cached. */
    ghost function Seen(u: Uid, k: nat): Option<real>
      requires Proper() && k <= |es|
    {
      if u in Before(k).lastSeen then Some(Before(k).lastSeen[u]) else None
    }

    /** Event number `k` is a cleanup that removes `u` and announces it as gone. */
    ghost predicate Evicts(u: Uid, k: nat)
      requires Proper() && k < |es|
    {
      es[k].what.Cleanup? && u in ToRemove(Before(k), es[k].at, 0)
    }

    lemma OneStep(k: nat)
      requires Proper() && k < |es|
      ensures Handle(Before(k), es[k]) == Done(Before(k + 1))
    {
      assert es[..k + 1][..k] == es[..k] && es[..k + 1][k] == es[k];
    }

    lemma StepRecorded(u: Uid, k: nat)
      requires Proper() && k < |es|
      ensures Recorded(Seen(u, k), Seen(u, k + 1), es[k], u, addr(u) == u, Evicts(u, k), maxTime)
    {
      var s := Before(k);
      OneStep(k);
      MaxTimeIsFixed(protocol, maxTime, es[..k]);
      LastSeenAfter(s, es[k], addr, uids, u);
      assert s.gw.nodes.keys[0..] == s.gw.nodes.keys;
    }

    ghost predicate Describes(r: Record, u: Uid)
      requires Proper()
    {
      && r.u == u && r.recognised == (addr(u) == u) && r.maxTime == maxTime && r.es == es
      && |r.seen| == |es| + 1 && |r.evicted| == |es|
      && (forall k :: 0 <= k <= |es| ==> r.seen[k] == Seen(u, k))
      && (forall k :: 0 <= k < |es| ==> r.evicted[k] == Evicts(u, k))
    }

    lemma DescriptionIsValid(r: Record, u: Uid)
      requires Proper() && Describes(r, u)
      ensures r.Valid()
    {
      forall k | 0 <= k < |es| ensures r.At(k) {
        StepRecorded(u, k);
      }
    }

    /** What a run records of `u`. */
    ghost function RecordOf(u: Uid): (r: Record)
      requires Proper()
      ensures r.Valid() && Describes(r, u)
    {
      var seen := seq(|es| + 1, k requires 0 <= k <= |es| && Proper() => Seen(u, k));
      var evicted := seq(|es|, k requires 0 <= k < |es| && Proper() => Evicts(u, k));
      var r := Record(u, addr(u) == u, maxTime, es, seen, evicted);
      DescriptionIsValid(r, u);
      r
    }

    /** A node that keeps checking in is never evicted, truncation of the clock notwithstanding. */
    lemma NeverEvictedWhileChecking(u: Uid, from: nat)
      requires Proper() && from < |es| && RecordOf(u).Alive(from) && RecordOf(u).ChecksInTime(from)
      ensures forall k :: from < k <= |es| ==> u in Before(k).gw.nodes.vals
      ensures forall k :: from < k < |es| ==> !Evicts(u, k)
    {
      var r := RecordOf(u);
      forall k | from < k <= |es|
        ensures u in Before(k).gw.nodes.vals
      {
        r.KeptWhileChecking(from, k);
      }
      forall k | from < k < |es|
        ensures !Evicts(u, k)
      {
        r.KeptWhileChecking(from, k + 1);
        assert r.At(k);
      }
    }

    /** A node last seen at `last` that has sent nothing since but resets which leave that record alone
        is evicted all the same: for the first time after `last + maxTime`, and no later than
        `last + maxTime + 1 + p` when cleanups run at least every `p` seconds. */
    lemma FirstEvictedInTime(u: Uid, from: nat, last: real, p: real) returns (i: nat)
      requires Proper() && from < |es| && RecordOf(u).SilentFrom(from) && Seen(u, from) == Some(last)
      requires RecordOf(u).CleansEvery(from, p) && RecordOf(u).Spans(from, last + maxTime + 1.0, p)
      ensures from <= i < |es| && Evicts(u, i) && last + maxTime < es[i].at <= last + maxTime + 1.0 + p
      ensures forall j :: from <= j < i ==> !Evicts(u, j)
    {
      var r := RecordOf(u);
      i := r.FirstEvictedInTime(from, last, p);
      assert r.evicted[i];
      assert forall j :: from <= j < i ==> !r.evicted[j];
    }

    /** One that has sent nothing at all since is evicted exactly once. */
    lemma EvictedOnceInTime(u: Uid, from: nat, last: real, p: real) returns (i: nat)
      requires Proper() && from < |es| && RecordOf(u).MuteFrom(from) && Seen(u, from) == Some(last)
      requires RecordOf(u).CleansEvery(from, p) && RecordOf(u).Spans(from, last + maxTime + 1.0, p)
      ensures from <= i < |es| && Evicts(u, i) && last + maxTime < es[i].at <= last + maxTime + 1.0 + p
      ensures forall j :: from <= j < |es| && j != i ==> !Evicts(u, j)
    {
      var r := RecordOf(u);
      i := FirstEvictedInTime(u, from, last, p);
      r.NoSecondEviction(from, i);
      OnlyEviction(r, u, from, i);
    }

    lemma OnlyEviction(r: Record, u: Uid, from: nat, i: nat)
      requires Proper() && Describes(r, u) && forall j :: from <= j < |es| && j != i ==> !r.evicted[j]
      ensures forall j :: from <= j < |es| && j != i ==> !Evicts(u, j)
    {
    }

    /** And is not cached when the run ends. */
    lemma MuteNodeIsForgotten(u: Uid, from: nat, last: real, p: real)
      requires Proper() && from < |es| && RecordOf(u).MuteFrom(from) && Seen(u, from) == Some(last)
      requires RecordOf(u).CleansEvery(from, p) && RecordOf(u).Spans(from, last + maxTime + 1.0, p)
      ensures HandleAll(Start(protocol, maxTime), es).Done? && u !in HandleAll(Start(protocol, maxTime), es).value.gw.nodes.vals
    {
      RecordOf(u).GoneInTheEnd(from, last, p);
      assert Seen(u, |es|) == None;
      assert es[..|es|] == es;
    }

    /** An eviction is announced: while connected, the cleanup sends one `out` for each node it removes
        and nothing else. */
    lemma EvictionsAreAnnounced(k: nat)
      requires Proper() && k < |es| && es[k].what.Cleanup? && Before(k).gw.phase == Up
      ensures exists dead :: Distinct(dead) && (forall u :: u in dead <==> Evicts(u, k))
                             && Before(k + 1).gw.toBroker == Before(k).gw.toBroker + OutMessages(dead)
    {
      var s := Before(k);
      var dead := ToRemove(s, es[k].at, 0);
      OneStep(k);
      InverseAfterCleanup(s, addr, uids, es[k].at);
      ToRemoveDistinct(s, es[k].at, 0);
      assert forall u :: u in dead <==> Evicts(u, k);
    }
  }
}
