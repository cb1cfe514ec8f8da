/** The gateway: the authoritative cache of nodes and the socket to the broker. */
module Gateway {
  import opened Dicts
  import opened Messages
  import opened Wire

  type Cache = Dict<Uid, Resources>

  /** The life of one connection to the broker. `Opening`: the broker has accepted the socket, the
      gateway has not resumed yet. `Up`: both ends use it. `Lost`: the gateway has seen it fail, the
      broker has not. `Idle`: the broker has no socket for this gateway. */
  datatype Phase = Idle | Opening | Up | Lost

  datatype GatewayState = GatewayState(
    protocol: string,
    nodes: Cache,
    phase: Phase,
    toBroker: seq<Message>)

  ghost predicate ValidCache(nodes: Cache) {
    nodes.Valid() && forall u :: u in nodes.vals ==> nodes.vals[u].Valid()
  }

  /** `send_to_broker`: what is sent while there is no working connection is lost. */
  function Send(gw: GatewayState, ms: seq<Message>): GatewayState {
    if gw.phase == Up then gw.(toBroker := gw.toBroker + ms) else gw
  }

  /** The resources a new node object holds once `add_node` has labelled it. */
  function Labelled(protocol: string, res: Resources): (r: Resources)
    requires res.Valid()
    ensures r.Valid()
  {
    res.Put("protocol", protocol)
  }

  function AddNode(gw: GatewayState, uid: Uid, res: Resources): GatewayState
    requires res.Valid()
  {
    var labelled := Labelled(gw.protocol, res);
    Send(gw.(nodes := gw.nodes.Put(uid, labelled)), NodeMessages(uid, labelled, All))
  }

  function ForwardData(gw: GatewayState, uid: Uid, resource: string, value: string): GatewayState
    requires uid in gw.nodes.vals
  {
    Send(gw.(nodes := gw.nodes.Put(uid, gw.nodes.vals[uid].Put(resource, value))),
         [Update(uid, resource, value, All)])
  }

  /** What is left of a node's resources after `reset_node`. */
  function ResetResources(protocol: string, defaults: Resources): (r: Resources)
    requires defaults.Valid()
    ensures r.Valid()
    ensures r.vals.Keys == {"protocol"} + defaults.vals.Keys
  {
    var start := Empty<string, string>().Put("protocol", protocol);
    var r := PutFrom(start, defaults, 0);
    assert r.vals.Keys == {"protocol"} + defaults.vals.Keys by {
      assert defaults.keys[0..] == defaults.keys;
    }
    r
  }

  function ResetNode(gw: GatewayState, uid: Uid, defaults: Resources): GatewayState
    requires uid in gw.nodes.vals && defaults.Valid()
  {
    Send(gw.(nodes := gw.nodes.Put(uid, ResetResources(gw.protocol, defaults))), [Reset(uid)])
  }

  function RemoveNode(gw: GatewayState, uid: Uid): GatewayState
    requires uid in gw.nodes.vals
  {
    Send(gw.(nodes := gw.nodes.Pop(uid)), [Out(uid)])
  }

  /** The messages of `fetch_nodes_cache(client)`, from cached node number `from` on. */
  function Snapshot(nodes: Cache, from: nat, dst: Dst): seq<Message>
    requires ValidCache(nodes) && from <= |nodes.keys|
    decreases |nodes.keys| - from
  {
    if from == |nodes.keys| then []
    else
      NodeMessages(nodes.keys[from], nodes.vals[nodes.keys[from]], dst) + Snapshot(nodes, from + 1, dst)
  }

  function FetchCache(gw: GatewayState, dst: Dst): GatewayState
    requires ValidCache(gw.nodes)
  {
    Send(gw, Snapshot(gw.nodes, 0, dst))
  }

  function AfterReading(gw: GatewayState, read: GatewayRead): GatewayState
    requires ValidCache(gw.nodes)
  {
    if read.Fetches? then FetchCache(gw, One(read.src)) else gw
  }

  lemma SnapshotAdvances(done: seq<Message>, nodes: Cache, from: nat, dst: Dst)
    requires ValidCache(nodes) && from < |nodes.keys|
    ensures done + NodeMessages(nodes.keys[from], nodes.vals[nodes.keys[from]], dst) + Snapshot(nodes, from + 1, dst)
            == done + Snapshot(nodes, from, dst)
  {
  }

  lemma UpdatesAdvance(done: seq<Message>, uid: Uid, res: Resources, from: nat, dst: Dst)
    requires res.Valid() && from < |res.keys|
    ensures (done + [Update(uid, res.keys[from], res.vals[res.keys[from]], dst)]) + UpdateMessages(uid, res, from + 1, dst)
            == done + UpdateMessages(uid, res, from, dst)
  {
  }

  // ---------------------------------------------------------------------------------------
  // The objects

  /** A node object. The cache holds references to these, and a discovery may hold one for longer. */
  class Node {
    const uid: Uid
    var lastSeen: real
    var resources: Resources

    constructor (uid: Uid, resources: Resources, now: real)
      ensures this.uid == uid && this.resources == resources && lastSeen == now
    {
      this.uid := uid;
      this.resources := resources;
      lastSeen := now;
    }

    method UpdateLastSeen(now: real)
      modifies this`lastSeen
      ensures lastSeen == now
    {
      lastSeen := now;
    }

    method SetResourceValue(resource: string, value: string)
      modifies this`resources
      ensures resources == old(resources).Put(resource, value)
    {
      if resource !in resources.vals {
        resources := Dict(resources.keys + [resource], resources.vals[resource := value]);
      } else {
        resources := Dict(resources.keys, resources.vals[resource := value]);
      }
    }

    /** The loop `for resource, value in default_resources.items()`. */
    method SetResources(defaults: Resources)
      requires resources.Valid() && defaults.Valid()
      modifies this`resources
      ensures resources == PutFrom(old(resources), defaults, 0) && resources.Valid()
    {
      var i := 0;
      while i < |defaults.keys|
        invariant 0 <= i <= |defaults.keys| && resources.Valid()
        invariant PutFrom(resources, defaults, i) == PutFrom(old(resources), defaults, 0)
      {
        SetResourceValue(defaults.keys[i], defaults.vals[defaults.keys[i]]);
        i := i + 1;
      }
    }

    method ClearResources()
      modifies this`resources
      ensures resources == Empty()
    {
      resources := Empty();
    }

    /** What `reset_node` does to the node object. */
    method Reinitialise(protocol: string, defaults: Resources)
      requires defaults.Valid()
      modifies this`resources
      ensures resources == ResetResources(protocol, defaults)
    {
      ClearResources();
      SetResourceValue("protocol", protocol);
      SetResources(defaults);
    }
  }

  class GatewayBase {
    const protocol: string
    var nodes: Dict<Uid, Node>
    var phase: Phase
    var toBroker: seq<Message>

    ghost predicate Valid()
      reads this`nodes, nodes.vals.Values`resources
    {
      && nodes.Valid()
      && forall u :: u in nodes.vals ==> nodes.vals[u].uid == u && nodes.vals[u].resources.Valid()
    }

    ghost function Cached(): Cache
      reads this`nodes, nodes.vals.Values`resources
    {
      Dict(nodes.keys, map u | u in nodes.vals :: nodes.vals[u].resources)
    }

    ghost function State(): GatewayState
      reads this, nodes.vals.Values
    {
      GatewayState(protocol, Cached(), phase, toBroker)
    }

    constructor (protocol: string)
      ensures Valid() && State() == GatewayState(protocol, Empty(), Idle, [])
    {
      this.protocol := protocol;
      nodes, phase, toBroker := Empty(), Idle, [];
    }

    /** When one node object has been put in the cache, or changed there, the others are as before. */
    twostate lemma OneNodeChanged(node: Node)
      requires old(Valid()) && node.resources.Valid()
      requires nodes.keys == old(nodes).Put(node.uid, node).keys
      requires nodes.vals == old(nodes).vals[node.uid := node]
      requires forall u :: u in nodes.vals && u != node.uid ==> nodes.vals[u].resources == old(nodes.vals[u].resources)
      ensures Valid()
      ensures Cached() == old(Cached()).Put(node.uid, node.resources)
    {
      OneNodeValid(node);
      CachedAfterChange(node);
    }

    twostate lemma CachedAfterChange(node: Node)
      requires nodes.keys == old(nodes).Put(node.uid, node).keys
      requires nodes.vals == old(nodes).vals[node.uid := node]
      requires forall u :: u in nodes.vals && u != node.uid ==> nodes.vals[u].resources == old(nodes.vals[u].resources)
      ensures Cached() == old(Cached()).Put(node.uid, node.resources)
    {
      assert node.uid in old(Cached()).vals <==> node.uid in old(nodes).vals;
      assert Cached().vals == old(Cached()).vals[node.uid := node.resources];
    }

    twostate lemma OneNodeValid(node: Node)
      requires old(Valid()) && node.resources.Valid()
      requires nodes.keys == old(nodes).Put(node.uid, node).keys
      requires nodes.vals == old(nodes).vals[node.uid := node]
      requires forall u :: u in nodes.vals && u != node.uid ==> nodes.vals[u].resources == old(nodes.vals[u].resources)
      ensures Valid()
    {
      assert nodes == old(nodes).Put(node.uid, node);
    }

    twostate lemma CachedNodeChanged(node: Node)
      requires old(Valid()) && node.resources.Valid() && nodes == old(nodes)
      requires node.uid in nodes.vals && nodes.vals[node.uid] == node
      requires forall u :: u in nodes.vals && u != node.uid ==> nodes.vals[u].resources == old(nodes.vals[u].resources)
      ensures Valid()
      ensures Cached() == old(Cached()).Put(node.uid, node.resources)
    {
      assert nodes.vals == nodes.vals[node.uid := node];
      OneNodeChanged(node);
    }

    /** `send_to_broker`. */
    method SendToBroker(m: Message)
      modifies this`toBroker
      ensures toBroker == if phase == Up then old(toBroker) + [m] else old(toBroker)
    {
      if phase == Up {
        toBroker := toBroker + [m];
      }
    }

    /** The loop over `node.resources.items()` that announces each resource. */
    method SendNode(node: Node, dst: Dst)
      requires node.resources.Valid()
      modifies this`toBroker
      ensures toBroker == if phase == Up then old(toBroker) + NodeMessages(node.uid, node.resources, dst) else old(toBroker)
    {
      SendToBroker(New(node.uid, dst));
      var res := node.resources;
      var i := 0;
      while i < |res.keys|
        invariant 0 <= i <= |res.keys|
        invariant phase == Up ==>
          toBroker + UpdateMessages(node.uid, res, i, dst) == old(toBroker) + NodeMessages(node.uid, res, dst)
        invariant phase != Up ==> toBroker == old(toBroker)
      {
        SendUpdate(node.uid, res, i, dst);
        i := i + 1;
      }
    }

    /** One turn of that loop. */
    method SendUpdate(uid: Uid, res: Resources, i: nat, dst: Dst)
      requires res.Valid() && i < |res.keys|
      modifies this`toBroker
      ensures phase == Up ==> toBroker + UpdateMessages(uid, res, i + 1, dst) == old(toBroker) + UpdateMessages(uid, res, i, dst)
      ensures phase != Up ==> toBroker == old(toBroker)
    {
      UpdatesAdvance(toBroker, uid, res, i, dst);
      SendToBroker(Update(uid, res.keys[i], res.vals[res.keys[i]], dst));
    }

    /** `add_node`, up to the discovery it then awaits. */
    method AddNewNode(node: Node)
      requires Valid() && node.resources.Valid()
      modifies this, node`resources
      ensures Valid() && nodes == old(nodes).Put(node.uid, node)
      ensures State() == AddNode(old(State()), node.uid, old(node.resources))
    {
      node.SetResourceValue("protocol", protocol);
      nodes := nodes.Put(node.uid, node);
      OneNodeChanged(node);
      SendNode(node, All);
    }

    /** `forward_data_from_node`. When the node object is not the cached one any more, only that
        object and the socket change. */
    method ForwardDataFromNode(node: Node, resource: string, value: string)
      requires Valid() && node.resources.Valid()
      modifies this`toBroker, node`resources
      ensures Valid() && node.resources == old(node.resources).Put(resource, value)
      ensures node.uid in nodes.vals && nodes.vals[node.uid] == node ==>
                State() == ForwardData(old(State()), node.uid, resource, value)
      ensures !(node.uid in nodes.vals && nodes.vals[node.uid] == node) ==>
                State() == Send(old(State()), [Update(node.uid, resource, value, All)])
    {
      node.SetResourceValue(resource, value);
      SendToBroker(Update(node.uid, resource, value, All));
      if node.uid in nodes.vals && nodes.vals[node.uid] == node {
        CachedNodeChanged(node);
      } else {
        assert Cached().vals == old(Cached()).vals;
      }
    }

    /** `reset_node` on a cached node. The coroutine it creates at the end never runs. */
    method ResetCachedNode(node: Node, defaults: Resources)
      requires Valid() && defaults.Valid() && node.uid in nodes.vals && nodes.vals[node.uid] == node
      modifies this`toBroker, node`resources
      ensures Valid() && State() == ResetNode(old(State()), node.uid, defaults)
    {
      ResetObject(node, defaults);
      SendOnly(Reset(node.uid));
    }

    /** `send_to_broker`, which leaves the cache alone. */
    method SendOnly(m: Message)
      requires Valid()
      modifies this`toBroker
      ensures Valid() && State() == Send(old(State()), [m])
    {
      ghost var cache := Cached();
      SendToBroker(m);
      assert Cached() == cache;
    }

    method ResetObject(node: Node, defaults: Resources)
      requires Valid() && defaults.Valid() && node.uid in nodes.vals && nodes.vals[node.uid] == node
      modifies node`resources
      ensures Valid() && State() == old(State()).(nodes := old(Cached()).Put(node.uid, ResetResources(protocol, defaults)))
    {
      node.Reinitialise(protocol, defaults);
      CachedNodeChanged(node);
    }

    /** `remove_node` on a cached node. */
    method RemoveCachedNode(node: Node)
      requires Valid() && node.uid in nodes.vals
      modifies this`nodes, this`toBroker
      ensures Valid() && nodes == old(nodes).Pop(node.uid)
      ensures State() == RemoveNode(old(State()), node.uid)
    {
      DropNode(node.uid);
      SendOnly(Out(node.uid));
    }

    method DropNode(uid: Uid)
      requires Valid() && uid in nodes.vals
      modifies this`nodes
      ensures Valid() && nodes == old(nodes).Pop(uid) && State() == old(State()).(nodes := old(Cached()).Pop(uid))
    {
      nodes := nodes.Pop(uid);
      NodeDropped(uid);
    }

    twostate lemma NodeDropped(uid: Uid)
      requires old(Valid()) && uid in old(nodes).vals && nodes == old(nodes).Pop(uid)
      requires forall u :: u in nodes.vals ==> nodes.vals[u].resources == old(nodes.vals[u].resources)
      ensures Valid() && Cached() == old(Cached()).Pop(uid)
    {
      assert Cached().vals == old(Cached()).vals - {uid};
    }

    /** `fetch_nodes_cache`. */
    method FetchNodesCache(dst: Dst)
      requires Valid()
      modifies this`toBroker
      ensures Valid() && State() == FetchCache(old(State()), dst)
    {
      assert ValidCache(Cached());
      SendNodes(Cached(), dst);
    }

    method SendNodes(ghost cache: Cache, dst: Dst)
      requires Valid() && cache == Cached() && ValidCache(cache)
      modifies this`toBroker
      ensures toBroker == if phase == Up then old(toBroker) + Snapshot(cache, 0, dst) else old(toBroker)
    {
      var i := 0;
      while i < |nodes.keys|
        invariant 0 <= i <= |nodes.keys|
        invariant phase == Up ==> toBroker + Snapshot(cache, i, dst) == old(toBroker) + Snapshot(cache, 0, dst)
        invariant phase != Up ==> toBroker == old(toBroker)
      {
        SnapshotAdvances(toBroker, cache, i, dst);
        SendCachedNode(i, cache, dst);
        i := i + 1;
      }
    }

    method SendCachedNode(i: nat, ghost cache: Cache, dst: Dst)
      requires Valid() && cache == Cached() && ValidCache(cache) && i < |nodes.keys|
      modifies this`toBroker
      ensures toBroker == if phase == Up then old(toBroker) + NodeMessages(cache.keys[i], cache.vals[cache.keys[i]], dst)
                          else old(toBroker)
    {
      assert nodes.keys[i] in nodes.vals;
      SendNode(nodes.vals[nodes.keys[i]], dst);
    }

    /** The continuation of `create_broker_connection` once the socket is there. */
    method OnConnected()
      requires Valid() && phase == Opening
      modifies this
      ensures Valid() && nodes == old(nodes)
      ensures State() == FetchCache(old(State()).(phase := Up), All)
    {
      phase := Up;
      assert Cached() == old(Cached());
      FetchNodesCache(All);
    }

    /** `on_broker_message`; `ok` is false when it raises, which ends the loop that reads from the broker.
        A write leads to a CoAP request, whose answer may come back as a `ForwardDataFromNode`. */
    method OnBrokerMessage(m: ClientMessage) returns (ok: bool)
      requires Valid()
      modifies this`toBroker
      ensures Valid() && (ok <==> !Raised(ReadByGateway(m)))
      ensures State() == AfterReading(old(State()), ReadByGateway(m))
    {
      if m.kind == None {
        return false;
      }
      if m.kind == Some("new") {
        if m.src == None {
          return false;
        }
        FetchNodesCache(One(m.src.value));
        return true;
      }
      if m.data == None {
        return false;
      }
      return m.kind != Some("update") || CheckBrokerData(m.data.value) != Raises;
    }
  }
}
