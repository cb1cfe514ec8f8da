/** The whole system as a transition system: gateways, broker and dashboards joined by FIFO links. */
module Network {
  import opened Dicts
  import opened Messages
  import Wire
  import opened Broker
  import opened Gateway
  import opened Dashboard

  datatype ClientState = ClientState(view: View, toBroker: seq<Request>)

  /** A resource that a client has not been told of: the gateway, the client, the node, the resource. */
  type Gap = (GatewayId, ClientId, Uid, string)

  /** A resource that clients may go on showing: the gateway, the node, the resource. */
  type Relic = (GatewayId, Uid, string)

  /** `gaps` and `relics` are history variables. A gap is made by a reset, which puts resources back
      without announcing them to the clients that are registered; a relic by adding a cached node again
      with fewer resources. Nothing the system does depends on them. */
  datatype Net = Net(
    broker: BrokerState,
    gateways: map<GatewayId, GatewayState>,
    clients: map<ClientId, ClientState>,
    gaps: set<Gap>,
    relics: set<Relic>)

  /** What a gateway does on its own: it changes its cache and writes to its socket.
      `StaleForward` comes from a discovery that still holds a replaced node object; `Serve` is the
      handling of one request read from the broker (a write request leads to later `Forward`s). */
  datatype Action =
    | Add(uid: Uid, res: Resources)
    | Forward(uid: Uid, resource: string, value: string)
    | StaleForward(uid: Uid, resource: string, value: string)
    | Restart(uid: Uid, res: Resources)
    | Remove(uid: Uid)
    | KeepAlive
    | Serve(request: Request)

  datatype Step =
    | Local(g: GatewayId, action: Action)
    | SocketOpen(g: GatewayId)
    | Connected(g: GatewayId)
    | ConnectionLost(g: GatewayId)
    | SocketClose(g: GatewayId)
    | ToBroker(g: GatewayId)
    | ToGateway(g: GatewayId)
    | ClientOpen(c: ClientId)
    | ClientSend(c: ClientId, request: Request)
    | FromClient(c: ClientId)
    | ToClient(c: ClientId)
    | ClientClose(c: ClientId)

  /** What the parts agree on between steps. */
  ghost predicate WellFormed(s: Net) {
    && s.broker.toGateways.Keys == s.broker.gateways.Keys
    && (forall g :: g in s.broker.gateways <==> g in s.gateways && s.gateways[g].phase != Idle)
    && (forall g :: g in s.broker.gateways ==> Distinct(s.broker.gateways[g]))
    && (forall g :: g in s.gateways ==> WellFormedGateway(s, g))
    && s.broker.clients.Keys <= s.clients.Keys
    && (forall c :: c in s.clients && c !in s.broker.clients ==> s.clients[c].view == map[])
  }

  ghost predicate WellFormedGateway(s: Net, g: GatewayId)
    requires g in s.gateways
  {
    var gw := s.gateways[g];
    && ValidCache(gw.nodes)
    && (gw.phase == Idle || gw.phase == Opening ==> gw.toBroker == [])
    && (gw.phase == Opening ==> g in s.broker.gateways && s.broker.gateways[g] == [])
  }

  /** `remove_node`, `reset_node` and `forward_data_from_node` are called on cached nodes. */
  ghost predicate CanAct(gw: GatewayState, a: Action) {
    && ValidCache(gw.nodes)
    && (a.Forward? || a.Restart? || a.Remove? ==> a.uid in gw.nodes.vals)
    && (a.Add? || a.Restart? ==> a.res.Valid())
  }

  function Act(gw: GatewayState, a: Action): GatewayState
    requires CanAct(gw, a)
  {
    match a
    case Add(uid, res) => AddNode(gw, uid, res)
    case Forward(uid, resource, value) => ForwardData(gw, uid, resource, value)
    case StaleForward(uid, resource, value) => Send(gw, [Update(uid, resource, value, All)])
    case Restart(uid, res) => ResetNode(gw, uid, res)
    case Remove(uid) => RemoveNode(gw, uid)
    case KeepAlive => Send(gw, [Alive])
    case Serve(r) => if r.Join? then FetchCache(gw, One(r.src)) else gw
  }

  /** Serving a request is what `on_broker_message` does with it. */
  lemma ServingIsReading(gw: GatewayState, r: Request)
    requires CanAct(gw, Serve(r))
    ensures Act(gw, Serve(r)) == AfterReading(gw, Wire.ReadByGateway(Wire.EncodeRequest(r)))
  {
    Wire.RequestsAreRead(r);
  }

  /** What gateway `g` does about `t`: announcing the node again, dropping it, or telling of the
      resource closes the gap, and so does answering the client's request. */
  predicate Closes(g: GatewayId, a: Action, t: Gap) {
    g == t.0 &&
    match a
    case Add(uid, _) => uid == t.2
    case Forward(uid, resource, _) => uid == t.2 && resource == t.3
    case StaleForward(_, _, _) => false
    case Restart(uid, _) => uid == t.2
    case Remove(uid) => uid == t.2
    case KeepAlive => false
    case Serve(r) => r == Join(t.1)
  }

  function GapsAfter(gaps: set<Gap>, registered: set<ClientId>, g: GatewayId, gw: GatewayState, a: Action): set<Gap>
    requires CanAct(gw, a)
  {
    (set t | t in gaps && !Closes(g, a, t))
    + if a.Restart? then (set c, r | c in registered && r in ResetResources(gw.protocol, a.res).vals :: (g, c, a.uid, r)) else {}
  }

  /** A relic is one no longer when the node is reset or removed, or has the resource again. */
  predicate Clears(g: GatewayId, a: Action, t: Relic) {
    g == t.0 &&
    match a
    case Add(uid, res) => uid == t.1 && (t.2 == "protocol" || t.2 in res.vals)
    case Forward(uid, resource, _) => uid == t.1 && resource == t.2
    case StaleForward(_, _, _) => false
    case Restart(uid, _) => uid == t.1
    case Remove(uid) => uid == t.1
    case KeepAlive => false
    case Serve(_) => false
  }

  function RelicsAfter(relics: set<Relic>, g: GatewayId, gw: GatewayState, a: Action): set<Relic>
    requires CanAct(gw, a)
  {
    (set t | t in relics && !Clears(g, a, t))
    + if a.Add? && a.uid in gw.nodes.vals
      then (set r | r in gw.nodes.vals[a.uid].vals && r !in Labelled(gw.protocol, a.res).vals :: (g, a.uid, r))
      else {}
  }

  /** When a step can happen. A gateway opens a new socket only after the broker has dealt with
      the end of the old one. */
  ghost predicate Enabled(s: Net, step: Step) {
    match step
    case Local(g, a) => g in s.gateways && !a.Serve? && CanAct(s.gateways[g], a)
    case SocketOpen(g) => g in s.gateways && s.gateways[g].phase == Idle
    case Connected(g) => g in s.gateways && s.gateways[g].phase == Opening
    case ConnectionLost(g) => g in s.gateways && s.gateways[g].phase == Up
    case SocketClose(g) => g in s.gateways && s.gateways[g].phase != Idle
    case ToBroker(g) => g in s.gateways && s.gateways[g].phase != Idle && s.gateways[g].toBroker != []
    case ToGateway(g) =>
      g in s.gateways && s.gateways[g].phase == Up && g in s.broker.toGateways && s.broker.toGateways[g] != []
    case ClientOpen(c) => c !in s.clients
    case ClientSend(c, _) => c in s.clients
    case FromClient(c) => c in s.clients && s.clients[c].toBroker != []
    case ToClient(c) => c in s.broker.clients && s.broker.clients[c] != []
    case ClientClose(c) => c in s.clients
  }

  function WithGateway(s: Net, g: GatewayId, gw: GatewayState): Net {
    s.(gateways := s.gateways[g := gw])
  }

  function GatewayActs(s: Net, g: GatewayId, a: Action): Net
    requires g in s.gateways && CanAct(s.gateways[g], a)
  {
    WithGateway(s, g, Act(s.gateways[g], a)).(
      gaps := GapsAfter(s.gaps, s.broker.clients.Keys, g, s.gateways[g], a),
      relics := RelicsAfter(s.relics, g, s.gateways[g], a))
  }

  /** The broker once gateway `g` has read the first request waiting on its socket. */
  function RequestRead(b: BrokerState, g: GatewayId): BrokerState
    requires g in b.toGateways && b.toGateways[g] != []
  {
    b.(toGateways := b.toGateways[g := b.toGateways[g][1..]])
  }

  function Apply(s: Net, step: Step): Net
    requires WellFormed(s) && Enabled(s, step)
  {
    match step
    case Local(g, a) => GatewayActs(s, g, a)
    case SocketOpen(g) =>
      WithGateway(s, g, s.gateways[g].(phase := Opening)).(broker := OpenGateway(s.broker, g))
    case Connected(g) =>
      WithGateway(s, g, FetchCache(s.gateways[g].(phase := Up), All)).(
        gaps := (set t | t in s.gaps && t.0 != g), relics := (set t | t in s.relics && t.0 != g))
    case ConnectionLost(g) => WithGateway(s, g, s.gateways[g].(phase := Lost))
    case SocketClose(g) =>
      WithGateway(s, g, s.gateways[g].(phase := Idle, toBroker := [])).(broker := RemoveGateway(s.broker, g))
    case ToBroker(g) =>
      var gw := s.gateways[g];
      WithGateway(s, g, gw.(toBroker := gw.toBroker[1..])).(broker := OnGatewayMessage(s.broker, g, gw.toBroker[0]))
    case ToGateway(g) =>
      GatewayActs(s, g, Serve(s.broker.toGateways[g][0])).(broker := RequestRead(s.broker, g))
    case ClientOpen(c) => s.(clients := s.clients[c := ClientState(map[], [])])
    case ClientSend(c, r) =>
      s.(clients := s.clients[c := s.clients[c].(toBroker := s.clients[c].toBroker + [r])])
    case FromClient(c) =>
      var cl := s.clients[c];
      s.(clients := s.clients[c := cl.(toBroker := cl.toBroker[1..])],
         broker := OnClientMessage(s.broker, c, cl.toBroker[0]))
    case ToClient(c) =>
      var m := s.broker.clients[c][0];
      s.(clients := s.clients[c := s.clients[c].(view := Receive(s.clients[c].view, m))],
         broker := s.broker.(clients := s.broker.clients[c := s.broker.clients[c][1..]]))
    case ClientClose(c) =>
      s.(clients := s.clients - {c}, broker := RemoveClient(s.broker, c), gaps := (set t | t in s.gaps && t.1 != c))
  }

  /** No client has connected, no gateway has reached the broker. */
  ghost predicate Initial(s: Net) {
    && s.broker == BrokerState(map[], map[], map[])
    && s.clients == map[]
    && s.gaps == {} && s.relics == {}
    && forall g :: g in s.gateways ==>
         s.gateways[g].phase == Idle && s.gateways[g].nodes == Empty() && s.gateways[g].toBroker == []
  }
}
