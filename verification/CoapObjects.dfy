/** The CoAP gateway object: its address book beside the cache of node objects. */
module CoapObjects {
  import opened Dicts
  import opened Messages
  import opened Gateway
  import opened Coap

  class CoapGateway {
    const base: GatewayBase
    const maxTime: real
    var nodeMapping: map<Address, Uid>

    ghost predicate Valid()
      reads base`nodes, base.nodes.vals.Values`resources
    {
      base.Valid()
    }

    ghost function LastSeen(): map<Uid, real>
      reads base`nodes, base.nodes.vals.Values`lastSeen
    {
      map u | u in base.nodes.vals :: base.nodes.vals[u].lastSeen
    }

    ghost function State(): CoapState
      reads this`nodeMapping, base, base.nodes.vals.Values
    {
      CoapState(base.State(), nodeMapping, LastSeen(), maxTime)
    }

    constructor (maxTime: real)
      ensures Valid() && fresh(base) && State() == Start("CoAP", maxTime)
    {
      base := new GatewayBase("CoAP");
      this.maxTime := maxTime;
      nodeMapping := map[];
    }

    /** `handle_coap_check`; `ok` is false when a lookup raises KeyError. */
    method HandleCoapCheck(uid: Uid, address: Address, reset: bool, now: real) returns (ok: bool)
      requires Valid()
      modifies this, base, base.nodes.vals.Values
      ensures Valid()
      ensures ok <==> HandleCheck(old(State()), uid, address, reset, now).Done?
      ensures State() == if ok then HandleCheck(old(State()), uid, address, reset, now).value else old(State())
    {
      if uid !in nodeMapping {
        NewNode(uid, address, now);
        return true;
      }
      if address !in nodeMapping || nodeMapping[address] !in base.nodes.vals {
        return false;
      }
      var node := base.nodes.vals[nodeMapping[address]];
      assert node.uid == nodeMapping[address];
      if reset {
        ResetKnown(node, IpOnly(address));
      } else {
        MarkSeen(node, now);
      }
      return true;
    }

    method ResetKnown(node: Node, defaults: Resources)
      requires Valid() && node.uid in base.nodes.vals && base.nodes.vals[node.uid] == node && defaults.Valid()
      modifies base`toBroker, node`resources
      ensures Valid() && State() == old(State()).(gw := ResetNode(old(base.State()), node.uid, defaults))
    {
      base.ResetCachedNode(node, defaults);
      SeenKept();
      OnlyBaseChanged();
    }

    twostate lemma OnlyBaseChanged()
      requires base.Valid() && nodeMapping == old(nodeMapping) && LastSeen() == old(LastSeen())
      ensures Valid() && State() == old(State()).(gw := base.State())
    {
    }

    method MarkSeen(node: Node, now: real)
      requires Valid() && node.uid in base.nodes.vals && base.nodes.vals[node.uid] == node
      modifies node`lastSeen
      ensures Valid() && State() == old(State()).(lastSeen := old(LastSeen())[node.uid := now])
    {
      node.UpdateLastSeen(now);
      assert base.nodes.vals == base.nodes.vals[node.uid := node];
      SeenAfterPut(node);
      assert base.State() == old(base.State());
    }

    twostate lemma SeenKept()
      requires base.nodes == old(base.nodes)
      requires forall u :: u in base.nodes.vals ==> base.nodes.vals[u].lastSeen == old(base.nodes.vals[u].lastSeen)
      ensures LastSeen() == old(LastSeen())
    {
    }

    /** When the cache gains or loses one node object, the record of the others stays. */
    twostate lemma SeenAfterPut(new node: Node)
      requires base.nodes.vals == old(base.nodes.vals)[node.uid := node]
      requires forall u :: u in old(base.nodes.vals) && u != node.uid ==>
        old(base.nodes.vals)[u].lastSeen == old(base.nodes.vals[u].lastSeen)
      ensures LastSeen() == old(LastSeen())[node.uid := node.lastSeen]
    {
    }

    twostate lemma SeenAfterPop(uid: Uid)
      requires base.nodes.vals == old(base.nodes.vals) - {uid}
      requires forall u :: u in base.nodes.vals ==> base.nodes.vals[u].lastSeen == old(base.nodes.vals[u].lastSeen)
      ensures LastSeen() == old(LastSeen()) - {uid}
    {
    }

    method NewNode(uid: Uid, address: Address, now: real)
      requires Valid()
      modifies this, base
      ensures Valid() && nodeMapping == old(nodeMapping)[address := uid]
      ensures base.State() == AddNode(old(base.State()), uid, IpOnly(address))
      ensures LastSeen() == old(LastSeen())[uid := now]
    {
      var node := new Node(uid, IpOnly(address), now);
      nodeMapping := nodeMapping[address := uid];
      assert base.State() == old(base.State());
      base.AddNewNode(node);
      SeenAfterPut(node);
    }

    /** `handle_coap_post`. */
    method HandleCoapPost(address: Address, endpoint: string, value: string) returns (ok: bool)
      requires Valid()
      modifies base`toBroker, base.nodes.vals.Values`resources
      ensures Valid()
      ensures ok <==> HandlePost(old(State()), address, endpoint, value).Done?
      ensures State() == if ok then HandlePost(old(State()), address, endpoint, value).value else old(State())
    {
      if address !in nodeMapping {
        return true;
      }
      if nodeMapping[address] !in base.nodes.vals {
        return false;
      }
      var node := base.nodes.vals[nodeMapping[address]];
      assert node.uid == nodeMapping[address];
      base.ForwardDataFromNode(node, endpoint, value);
      SeenKept();
      return true;
    }

    lemma KeyOfNode(s: CoapState, i: nat, now: real)
      requires Valid() && s == State() && i < |base.nodes.keys|
      ensures |s.gw.nodes.keys| == |base.nodes.keys| && base.nodes.keys[i] in base.nodes.vals
      ensures var node := base.nodes.vals[base.nodes.keys[i]];
        && s.gw.nodes.keys[i] == node.uid == base.nodes.keys[i]
        && (Expired(s, node.uid, now) <==> now.Floor as real > node.lastSeen + maxTime)
    {
      assert base.nodes.keys[i] in base.nodes.vals;
    }

    /** `rest(i)` lists the expired nodes from key number `i` on. */
    static lemma Remainders(s: CoapState, now: real) returns (rest: nat -> seq<Uid>)
      ensures rest(0) == ToRemove(s, now, 0) && rest(|s.gw.nodes.keys|) == []
      ensures forall i: nat {:trigger s.gw.nodes.keys[i]} :: i < |s.gw.nodes.keys| ==>
        rest(i) == (if Expired(s, s.gw.nodes.keys[i], now) then [s.gw.nodes.keys[i]] else []) + rest(i + 1)
    {
      rest := (i: nat) => if i <= |s.gw.nodes.keys| then ToRemove(s, now, i) else [];
    }

    /** The test of `check_dead_nodes` on the i-th cached object. */
    ghost predicate Silent(i: nat, now: real)
      requires base.nodes.Valid() && i < |base.nodes.keys|
      reads base`nodes, base.nodes.vals.Values`lastSeen
    {
      now.Floor as real > base.nodes.vals[base.nodes.keys[i]].lastSeen + maxTime
    }

    /** `rest(i)` lists the uids of the silent nodes from the i-th on. */
    ghost predicate Unrolls(rest: nat -> seq<Uid>, now: real)
      requires base.nodes.Valid()
      reads base`nodes, base.nodes.vals.Values`lastSeen
    {
      && rest(|base.nodes.keys|) == []
      && forall i: nat {:trigger Silent(i, now)} :: i < |base.nodes.keys| ==>
           rest(i) == (if Silent(i, now) then [base.nodes.keys[i]] else []) + rest(i + 1)
    }

    lemma RemaindersUnroll(s: CoapState, now: real) returns (rest: nat -> seq<Uid>)
      requires Valid() && s == State()
      ensures rest(0) == ToRemove(s, now, 0) && Unrolls(rest, now)
    {
      rest := Remainders(s, now);
      forall i: nat | i < |base.nodes.keys|
        ensures rest(i) == (if Silent(i, now) then [base.nodes.keys[i]] else []) + rest(i + 1)
      {
        KeyOfNode(s, i, now);
      }
    }

    /** The list comprehension of `check_dead_nodes`. */
    method DeadNodes(now: real) returns (dead: seq<Node>)
      requires Valid()
      ensures |dead| == |ToRemove(State(), now, 0)|
      ensures forall i :: 0 <= i < |dead| ==> dead[i].uid == ToRemove(State(), now, 0)[i]
      ensures forall i :: 0 <= i < |dead| ==> dead[i].uid in base.nodes.vals && base.nodes.vals[dead[i].uid] == dead[i]
    {
      ghost var rest := RemaindersUnroll(State(), now);
      ghost var uids;
      dead, uids := Collect(now, rest);
    }

    method Collect(now: real, ghost rest: nat -> seq<Uid>) returns (dead: seq<Node>, ghost uids: seq<Uid>)
      requires Valid() && Unrolls(rest, now)
      ensures uids == rest(0) && |dead| == |uids|
      ensures forall i :: 0 <= i < |dead| ==>
        dead[i].uid == uids[i] && dead[i].uid in base.nodes.vals && base.nodes.vals[dead[i].uid] == dead[i]
    {
      dead, uids := [], [];
      var keys := base.nodes.keys;
      var i := 0;
      while i < |keys|
        invariant 0 <= i <= |keys|
        invariant uids + rest(i) == rest(0) && |uids| == |dead|
        invariant forall k :: 0 <= k < |dead| ==>
          dead[k].uid == uids[k] && dead[k].uid in base.nodes.vals && base.nodes.vals[dead[k].uid] == dead[k]
      {
        assert keys[i] in base.nodes.vals;
        var node := base.nodes.vals[keys[i]];
        Joined(uids, [node.uid], rest(i + 1));
        assert Silent(i, now) <==> now.Floor as real > node.lastSeen + maxTime;
        if now.Floor as real > node.lastSeen + maxTime {
          dead := dead + [node];
          uids := uids + [node.uid];
        }
        i := i + 1;
      }
    }

    /** One turn of the removal loop. */
    method RemoveDead(node: Node) returns (ok: bool)
      requires Valid() && (node.uid in base.nodes.vals ==> base.nodes.vals[node.uid] == node)
      modifies this, base
      ensures Valid() && base.nodes.vals == if ok then old(base.nodes.vals) - {node.uid} else old(base.nodes.vals)
      ensures ok <==> RemoveOne(old(State()), node.uid).Done?
      ensures State() == if ok then RemoveOne(old(State()), node.uid).value else old(State())
    {
      ghost var s := State();
      assert s.gw.nodes.vals.Keys == base.nodes.vals.Keys && s.mapping == nodeMapping;
      assert node.uid in base.nodes.vals ==> s.gw.nodes.vals[node.uid] == node.resources;
      if node.uid !in base.nodes.vals || "ip" !in node.resources.vals || node.resources.vals["ip"] !in nodeMapping {
        return false;
      }
      RemoveFound(node, node.resources.vals["ip"]);
      return true;
    }

    method RemoveFound(node: Node, address: Address)
      requires Valid() && node.uid in base.nodes.vals && base.nodes.vals[node.uid] == node
      modifies this, base
      ensures Valid() && base.nodes.vals == old(base.nodes.vals) - {node.uid}
      ensures State() == old(State()).(gw := RemoveNode(old(base.State()), node.uid),
                                       mapping := old(nodeMapping) - {address}, lastSeen := old(LastSeen()) - {node.uid})
    {
      nodeMapping := nodeMapping - {address};
      assert base.State() == old(base.State());
      base.RemoveCachedNode(node);
      SeenAfterPop(node.uid);
    }

    static lemma RemovalTurn(s: CoapState, uids: seq<Uid>, i: nat)
      requires i < |uids|
      ensures var one := RemoveOne(s, uids[i]);
        if one.KeyError? then RemoveAll(s, uids[i..]).KeyError? && RemoveWhile(s, uids[i..]) == s
        else RemoveAll(s, uids[i..]) == RemoveAll(one.value, uids[i + 1..]) &&
             RemoveWhile(s, uids[i..]) == RemoveWhile(one.value, uids[i + 1..])
    {
      assert uids[i..][1..] == uids[i + 1..];
    }

    /** `check_dead_nodes`; `ok` is false when a pop raises KeyError. */
    method CheckDead(now: real) returns (ok: bool)
      requires Valid()
      modifies this, base
      ensures Valid()
      ensures ok <==> CheckDeadNodes(old(State()), now).Done?
      ensures ok ==> State() == CheckDeadNodes(old(State()), now).value
      ensures State() == RemoveWhile(old(State()), ToRemove(old(State()), now, 0))
    {
      ghost var s := State();
      ok := RemoveExpired(now);
      RemoveWhileEnds(s, ToRemove(s, now, 0));
    }

    method RemoveExpired(now: real) returns (ok: bool)
      requires Valid()
      modifies this, base
      ensures Valid()
      ensures ok <==> CheckDeadNodes(old(State()), now).Done?
      ensures State() == RemoveWhile(old(State()), ToRemove(old(State()), now, 0))
    {
      var dead := DeadNodes(now);
      ghost var uids := ToRemove(State(), now, 0);
      var i := 0;
      while i < |dead|
        invariant 0 <= i <= |dead| == |uids| && Valid()
        invariant forall k :: i <= k < |dead| ==>
          dead[k].uid == uids[k] && (dead[k].uid in base.nodes.vals ==> base.nodes.vals[dead[k].uid] == dead[k])
        invariant RemoveAll(State(), uids[i..]).Done? <==> RemoveAll(old(State()), uids).Done?
        invariant RemoveWhile(State(), uids[i..]) == RemoveWhile(old(State()), uids)
      {
        RemovalTurn(State(), uids, i);
        var removed := RemoveDead(dead[i]);
        if !removed {
          return false;
        }
        i := i + 1;
      }
      return true;
    }
  }
}
