/** The broker: one ownership list per gateway socket, one socket per registered client. */
module Broker {
  import opened Dicts
  import opened Messages
  import opened Wire

  type GatewayId = string

  /** `gateways` and `clients` of the application. A socket is represented by the messages
      written to it that its peer has not read yet. */
  datatype BrokerState = BrokerState(
    gateways: map<GatewayId, seq<Uid>>,
    clients: map<ClientId, seq<Message>>,
    toGateways: map<GatewayId, seq<Request>>)

  datatype Audience = Nobody | Everybody | Only(client: ClientId)

  datatype Routing = Routing(owned: seq<Uid>, audience: Audience)

  function Own(owned: seq<Uid>, uid: Uid): seq<Uid> {
    if uid in owned then owned else owned + [uid]
  }

  function AudienceOf(dst: Dst): Audience {
    match dst
    case All => Everybody
    case One(c) => Only(c)
  }

  /** The decision `on_gateway_message` takes for a gateway that owns `owned`. */
  function Route(owned: seq<Uid>, m: Message): Routing {
    match m
    case New(uid, dst) => Routing(Own(owned, uid), AudienceOf(dst))
    case Out(uid) =>
      if uid in owned then Routing(RemoveFirst(owned, uid), Everybody) else Routing(owned, Nobody)
    case Reset(_) => Routing(owned, Everybody)
    case Update(uid, _, _, dst) => Routing(owned, if uid in owned then AudienceOf(dst) else Nobody)
    case Alive => Routing(owned, Nobody)
  }

  function SendToAll(clients: map<ClientId, seq<Message>>, ms: seq<Message>): map<ClientId, seq<Message>> {
    map c | c in clients :: clients[c] + ms
  }

  function Dispatch(clients: map<ClientId, seq<Message>>, audience: Audience, m: Message): map<ClientId, seq<Message>> {
    match audience
    case Nobody => clients
    case Everybody => SendToAll(clients, [m])
    case Only(c) => if c in clients then clients[c := clients[c] + [m]] else clients
  }

  function OnGatewayMessage(b: BrokerState, g: GatewayId, m: Message): BrokerState
    requires g in b.gateways
  {
    var r := Route(b.gateways[g], m);
    b.(gateways := b.gateways[g := r.owned], clients := Dispatch(b.clients, r.audience, m))
  }

  /** `on_message` stamps the request with the uid of the socket it came from, then
      `on_client_message` registers a joining client and forwards the request to every gateway. */
  function OnClientMessage(b: BrokerState, c: ClientId, r: Request): BrokerState {
    b.(clients := if r.Join? && c !in b.clients then b.clients[c := []] else b.clients,
       toGateways := map g | g in b.toGateways :: b.toGateways[g] + [r.(src := c)])
  }

  function OpenGateway(b: BrokerState, g: GatewayId): BrokerState {
    b.(gateways := b.gateways[g := []], toGateways := b.toGateways[g := []])
  }

  /** `remove_ws` for a gateway socket: announce every owned node as gone, then forget the list. */
  function RemoveGateway(b: BrokerState, g: GatewayId): BrokerState
    requires g in b.gateways
  {
    BrokerState(b.gateways - {g}, SendToAll(b.clients, OutMessages(b.gateways[g])), b.toGateways - {g})
  }

  /** `remove_ws` for a client uid. */
  function RemoveClient(b: BrokerState, c: ClientId): BrokerState {
    b.(clients := b.clients - {c})
  }

  // ---------------------------------------------------------------------------------------
  // The same decision on the JSON object, with the lookups that can fail.

  datatype WireRouting = Decided(routing: Routing) | KeyError(key: string)

  function WireAudience(message: Json): Audience
    requires "dst" in message
  {
    if message["dst"] == "all" then Everybody else Only(message["dst"])
  }

  /** `on_gateway_message` as written: every `message[...]` may raise KeyError, `and` is
      evaluated left to right, and the last test asks whether the type is a substring of
      "update". */
  function RouteWire(owned: seq<Uid>, message: Json): WireRouting {
    if "type" !in message then KeyError("type")
    else if message["type"] == "new" then
      if "uid" !in message then KeyError("uid")
      else if "dst" !in message then KeyError("dst")
      else Decided(Routing(Own(owned, message["uid"]), WireAudience(message)))
    else if message["type"] == "out" && "uid" !in message then KeyError("uid")
    else if message["type"] == "out" && message["uid"] in owned then
      Decided(Routing(RemoveFirst(owned, message["uid"]), Everybody))
    else if message["type"] == "reset" then Decided(Routing(owned, Everybody))
    else if !Substring(message["type"], "update") then Decided(Routing(owned, Nobody))
    else if "uid" !in message then KeyError("uid")
    else if message["uid"] !in owned then Decided(Routing(owned, Nobody))
    else if "dst" !in message then KeyError("dst")
    else Decided(Routing(owned, WireAudience(message)))
  }

  /** On the types that `check_message` lets through, the substring test is equality. */
  lemma SubstringTestIsEquality(message: Json)
    requires CheckMessage(message).Accepted?
    ensures Substring(message["type"], "update") <==> message["type"] == "update"
  {
    var kind := message["type"];
    if kind == "update" {
      assert OccursAt(kind, "update", 0);
    } else {
      forall i: nat
        ensures !OccursAt(kind, "update", i)
      {
        if i + |kind| <= |"update"| {
          assert "update"[i..i + |kind|][0] == "update"[i] && "update"[i..i + |kind|][1] == "update"[i + 1];
        }
      }
    }
  }

  /** Every message built by the constructors is accepted and routed as `Route` says, except a
      keep-alive from a gateway that owns a node called "alive": that one, and only that one,
      is looked up for a `dst` it does not carry. */
  lemma WireRefinesRoute(owned: seq<Uid>, m: Message)
    requires m.New? || m.Update? ==> m.dst != One("all")
    ensures CheckMessage(Encode(m)) == Accepted(Encode(m))
    ensures RouteWire(owned, Encode(m)) == (if m == Alive && "alive" in owned then KeyError("dst")
                                            else Decided(Route(owned, m)))
  {
    SubstringTestIsEquality(Encode(m));
  }

  // ---------------------------------------------------------------------------------------
  // The application object

  /** `Broker`: the two dictionaries, and the sockets they lead to. */
  class Application {
    var gateways: map<GatewayId, seq<Uid>>
    var clients: map<ClientId, seq<Message>>
    var toGateways: map<GatewayId, seq<Request>>

    ghost predicate Valid()
      reads this
    {
      toGateways.Keys == gateways.Keys
    }

    function State(): BrokerState
      reads this
    {
      BrokerState(gateways, clients, toGateways)
    }

    constructor ()
      ensures Valid() && State() == BrokerState(map[], map[], map[])
    {
      gateways, clients, toGateways := map[], map[], map[];
    }

    /** `send_to_client`. */
    method SendToClient(uid: ClientId, m: Message)
      requires uid in clients
      modifies this`clients
      ensures clients == old(clients)[uid := old(clients[uid]) + [m]]
    {
      clients := clients[uid := clients[uid] + [m]];
    }

    /** `broadcast`: the order in which the clients are visited makes no difference. */
    method Broadcast(m: Message)
      modifies this`clients
      ensures clients == SendToAll(old(clients), [m])
    {
      var todo := clients.Keys;
      while todo != {}
        invariant todo <= old(clients).Keys == clients.Keys
        invariant forall c :: c in clients ==>
          clients[c] == if c in todo then old(clients)[c] else old(clients)[c] + [m]
        decreases todo
      {
        var uid :| uid in todo;
        SendToClient(uid, m);
        todo := todo - {uid};
      }
    }

    /** The client handler's `on_message`, for an accepted message. */
    method HandleClientMessage(c: ClientId, r: Request)
      requires Valid()
      modifies this
      ensures Valid() && State() == OnClientMessage(old(State()), c, r)
    {
      var message := r.(src := c);
      if r.Join? && c !in clients {
        clients := clients[c := []];
      }
      var todo := gateways.Keys;
      while todo != {}
        invariant todo <= gateways.Keys == toGateways.Keys == old(toGateways).Keys
        invariant gateways == old(gateways)
        invariant clients == OnClientMessage(old(State()), c, r).clients
        invariant forall g :: g in toGateways ==>
          toGateways[g] == if g in todo then old(toGateways)[g] else old(toGateways)[g] + [message]
        decreases todo
      {
        var gw :| gw in todo;
        toGateways := toGateways[gw := toGateways[gw] + [message]];
        todo := todo - {gw};
      }
    }

    /** `on_gateway_message`, branch by branch. */
    method HandleGatewayMessage(ws: GatewayId, m: Message)
      requires Valid() && ws in gateways
      modifies this
      ensures Valid() && State() == OnGatewayMessage(old(State()), ws, m)
    {
      if m.New? {
        if m.uid !in gateways[ws] {
          gateways := gateways[ws := gateways[ws] + [m.uid]];
        }
        Answer(m.dst, m);
      } else if m.Out? && m.uid in gateways[ws] {
        gateways := gateways[ws := RemoveFirst(gateways[ws], m.uid)];
        Broadcast(m);
      } else if m.Reset? {
        Broadcast(m);
      } else if m.Update? && m.uid in gateways[ws] {
        Answer(m.dst, m);
      }
      assert gateways == OnGatewayMessage(old(State()), ws, m).gateways;
    }

    method Answer(dst: Dst, m: Message)
      modifies this`clients
      ensures clients == Dispatch(old(clients), AudienceOf(dst), m)
    {
      if dst == All {
        Broadcast(m);
      } else if dst.client in clients {
        SendToClient(dst.client, m);
      }
    }

    /** The gateway handler's `open`. */
    method Open(ws: GatewayId)
      requires Valid()
      modifies this
      ensures Valid() && State() == OpenGateway(old(State()), ws)
    {
      gateways := gateways[ws := []];
      toGateways := toGateways[ws := []];
    }

    /** `remove_ws` for a gateway socket. */
    method CloseGateway(ws: GatewayId)
      requires Valid() && ws in gateways
      modifies this
      ensures Valid() && State() == RemoveGateway(old(State()), ws)
    {
      var owned := gateways[ws];
      var i := 0;
      assert OutMessages(owned[..0]) == [];
      while i < |owned|
        invariant 0 <= i <= |owned|
        invariant clients.Keys == old(clients).Keys
        invariant forall c :: c in clients ==> clients[c] == old(clients)[c] + OutMessages(owned[..i])
        invariant gateways == old(gateways) && toGateways == old(toGateways)
      {
        Broadcast(Out(owned[i]));
        assert OutMessages(owned[..i + 1]) == OutMessages(owned[..i]) + [Out(owned[i])];
        i := i + 1;
      }
      assert owned[..|owned|] == owned;
      gateways := gateways - {ws};
      toGateways := toGateways - {ws};
    }

    /** `remove_ws` for a client uid, registered or not. */
    method CloseClient(uid: ClientId)
      requires Valid()
      modifies this
      ensures Valid() && State() == RemoveClient(old(State()), uid)
    {
      if uid in clients {
        clients := clients - {uid};
      }
    }
  }
}
