/** Which nodes the broker owns and the dashboards show, in every reachable state. */
module Presence {
  import opened Dicts
  import opened Messages
  import opened Broker
  import opened Gateway
  import opened Dashboard
  import opened Replay
  import opened Network

  /** What client `c` shows once it has read everything written to its socket. */
  function Drained(s: Net, c: ClientId): View
    requires c in s.clients && c in s.broker.clients
  {
    ReceiveAll(s.clients[c].view, s.broker.clients[c])
  }

  ghost predicate Linked(s: Net, g: GatewayId, c: ClientId) {
    g in s.gateways && g in s.broker.gateways && c in s.clients && c in s.broker.clients
  }

  function RepNow(s: Net, g: GatewayId, c: ClientId, u: Uid): Rep
    requires Linked(s, g, c)
  {
    Rep(u in s.broker.gateways[g], At(Drained(s, c), u))
  }

  /** Node `u` of gateway `g` as `c` will see it once every message now on its way has arrived. */
  function Final(s: Net, g: GatewayId, c: ClientId, u: Uid): Rep
    requires Linked(s, g, c)
  {
    ReplayAll(RepNow(s, g, c, u), s.gateways[g].toBroker, u, c)
  }

  /** Whether the broker will own `u` for `g` once the gateway's pending messages are handled. */
  function FinalOwn(s: Net, g: GatewayId, u: Uid): bool
    requires g in s.gateways && g in s.broker.gateways
  {
    ReplayAll(Rep(u in s.broker.gateways[g], None), s.gateways[g].toBroker, u, "").own
  }

  /** Replaying the pending messages over the ownership list gives exactly the cached uids. */
  ghost predicate OwnershipTracks(s: Net)
    requires WellFormed(s)
  {
    forall g, u :: g in s.gateways && s.gateways[g].phase == Up ==>
      (FinalOwn(s, g, u) <==> u in s.gateways[g].nodes.vals)
  }

  ghost predicate Owned(s: Net, u: Uid) {
    exists g :: g in s.broker.gateways && u in s.broker.gateways[g]
  }

  /** Nothing is shown, once a client has read its socket, that no gateway owns at the broker. */
  ghost predicate NoGhosts(s: Net) {
    forall c, u :: c in s.clients && c in s.broker.clients && u in Drained(s, c) ==> Owned(s, u)
  }

  ghost predicate Safe(s: Net) {
    WellFormed(s) && OwnershipTracks(s) && NoGhosts(s)
  }

  // ---------------------------------------------------------------------------------------
  // Queues

  lemma {:induction false} OutsRemove(v: View, uids: seq<Uid>, u: Uid)
    ensures At(ReceiveAll(v, OutMessages(uids)), u) == if u in uids then None else At(v, u)
    decreases |uids|
  {
    if uids != [] {
      assert OutMessages(uids)[1..] == OutMessages(uids[1..]);
      OutsRemove(v - {uids[0]}, uids[1..], u);
    }
  }

  /** What reaches a client's socket when the broker routes one message. */
  lemma DispatchReaches(clients: map<ClientId, seq<Message>>, audience: Audience, m: Message, c: ClientId, v: View)
    requires c in clients
    ensures c in Dispatch(clients, audience, m)
    ensures ReceiveAll(v, Dispatch(clients, audience, m)[c]) ==
            if audience == Everybody || audience == Only(c)
            then Receive(ReceiveAll(v, clients[c]), m) else ReceiveAll(v, clients[c])
  {
    if audience == Everybody || audience == Only(c) {
      assert Dispatch(clients, audience, m)[c] == clients[c] + [m];
      ReceiveAllAppend(v, clients[c], [m]);
      assert ReceiveAll(ReceiveAll(v, clients[c]), [m]) == Receive(ReceiveAll(v, clients[c]), m);
    }
  }

  /** Handling one gateway message has, on every node and client, the effect the replay gives it. */
  lemma DeliveryIsOneReplayStep(b: BrokerState, g: GatewayId, m: Message, c: ClientId, v: View, u: Uid)
    requires g in b.gateways && c in b.clients && Distinct(b.gateways[g])
    ensures var b' := OnGatewayMessage(b, g, m);
      && Distinct(b'.gateways[g]) && c in b'.clients
      && Rep(u in b'.gateways[g], At(ReceiveAll(v, b'.clients[c]), u)) ==
         StepRep(Rep(u in b.gateways[g], At(ReceiveAll(v, b.clients[c]), u)), m, u, c)
  {
    DispatchReaches(b.clients, Route(b.gateways[g], m).audience, m, c, v);
    if m.Out? {
      RemoveFirstErases(b.gateways[g], m.uid);
    }
  }

  // ---------------------------------------------------------------------------------------
  // Steps taken by a gateway on its own

  /** What the gateway writes to its socket. */
  function Sent(gw: GatewayState, a: Action): seq<Message>
    requires CanAct(gw, a)
  {
    match a
    case Add(uid, res) => NodeMessages(uid, Labelled(gw.protocol, res), All)
    case Forward(uid, resource, value) => [Update(uid, resource, value, All)]
    case StaleForward(uid, resource, value) => [Update(uid, resource, value, All)]
    case Restart(uid, _) => [Reset(uid)]
    case Remove(uid) => [Out(uid)]
    case KeepAlive => [Alive]
    case Serve(r) => if r.Join? then Snapshot(gw.nodes, 0, One(r.src)) else []
  }

  lemma ActSends(gw: GatewayState, a: Action)
    requires CanAct(gw, a)
    ensures var gw' := Act(gw, a);
      && gw'.phase == gw.phase && gw'.protocol == gw.protocol && ValidCache(gw'.nodes)
      && gw'.toBroker == if gw.phase == Up then gw.toBroker + Sent(gw, a) else gw.toBroker
  {
    ActKeepsCacheValid(gw, a);
  }

  lemma ActKeepsCacheValid(gw: GatewayState, a: Action)
    requires CanAct(gw, a)
    ensures ValidCache(Act(gw, a).nodes)
  {
    if a.Add? {
      CacheValidAfterPut(gw.nodes, a.uid, Labelled(gw.protocol, a.res));
    } else if a.Forward? {
      CacheValidAfterPut(gw.nodes, a.uid, gw.nodes.vals[a.uid].Put(a.resource, a.value));
    } else if a.Restart? {
      CacheValidAfterPut(gw.nodes, a.uid, ResetResources(gw.protocol, a.res));
    }
  }

  lemma CacheValidAfterPut(nodes: Cache, u: Uid, res: Resources)
    requires ValidCache(nodes) && res.Valid()
    ensures ValidCache(nodes.Put(u, res))
  {
  }

  /** The effect of what was written on one node. */
  function SentEffect(gw: GatewayState, a: Action, rep: Rep, u: Uid, c: ClientId): Rep
    requires CanAct(gw, a)
  {
    match a
    case Add(uid, res) => if uid == u then Described(rep, Labelled(gw.protocol, res), All, c) else rep
    case Forward(uid, resource, value) => StepRep(rep, Update(uid, resource, value, All), u, c)
    case StaleForward(uid, resource, value) => StepRep(rep, Update(uid, resource, value, All), u, c)
    case Restart(uid, _) => StepRep(rep, Reset(uid), u, c)
    case Remove(uid) => StepRep(rep, Out(uid), u, c)
    case KeepAlive => rep
    case Serve(r) =>
      if r.Join? && u in gw.nodes.vals then Described(rep, gw.nodes.vals[u], One(r.src), c) else rep
  }

  lemma ReplaySent(gw: GatewayState, a: Action, rep: Rep, u: Uid, c: ClientId)
    requires CanAct(gw, a)
    ensures ReplayAll(rep, Sent(gw, a), u, c) == SentEffect(gw, a, rep, u, c)
  {
    if a.Add? {
      ReplayNode(rep, a.uid, Labelled(gw.protocol, a.res), All, u, c);
    } else if a.Serve? && a.request.Join? {
      ReplaySnapshot(rep, gw.nodes, 0, One(a.request.src), u, c);
      assert gw.nodes.keys[0..] == gw.nodes.keys;
    } else if !a.Serve? {
      assert Sent(gw, a)[1..] == [];
    }
  }

  // ---------------------------------------------------------------------------------------
  // Preservation, step by step

  /** A step that touches one gateway and its link leaves the rest in order. */
  lemma OneLinkChanged(s: Net, s': Net, g: GatewayId, gw: GatewayState)
    requires WellFormed(s) && g in s.gateways
    requires s'.gateways == s.gateways[g := gw] && s'.clients == s.clients
    requires s'.broker.clients.Keys == s.broker.clients.Keys
    requires s'.broker.toGateways.Keys == s'.broker.gateways.Keys
    requires forall h :: h != g ==> (h in s'.broker.gateways <==> h in s.broker.gateways)
    requires forall h :: h != g && h in s.broker.gateways ==> s'.broker.gateways[h] == s.broker.gateways[h]
    requires g in s'.broker.gateways <==> gw.phase != Idle
    requires g in s'.broker.gateways ==> Distinct(s'.broker.gateways[g])
    requires WellFormedGateway(s', g)
    ensures WellFormed(s')
  {
    forall h | h in s'.gateways
      ensures WellFormedGateway(s', h)
      ensures h in s'.broker.gateways <==> s'.gateways[h].phase != Idle
      ensures h in s'.broker.gateways ==> Distinct(s'.broker.gateways[h])
    {
      if h != g {
        OtherGateway(s, s', h);
      }
    }
  }

  lemma OtherGateway(s: Net, s': Net, h: GatewayId)
    requires WellFormed(s) && h in s.gateways && h in s'.gateways && s'.gateways[h] == s.gateways[h]
    requires h in s'.broker.gateways <==> h in s.broker.gateways
    requires h in s.broker.gateways ==> s'.broker.gateways[h] == s.broker.gateways[h]
    ensures WellFormedGateway(s', h)
    ensures h in s'.broker.gateways <==> s'.gateways[h].phase != Idle
    ensures h in s'.broker.gateways ==> Distinct(s'.broker.gateways[h])
  {
    assert WellFormedGateway(s, h);
  }

  lemma WellFormedKept(s: Net, step: Step)
    requires WellFormed(s) && Enabled(s, step)
    ensures WellFormed(Apply(s, step))
  {
    match step {
      case Local(g, a) => WellFormedKeptByAction(s, step, g, a);
      case ToGateway(g) => WellFormedKeptByAction(s, step, g, Serve(s.broker.toGateways[g][0]));
      case ToBroker(g) => WellFormedKeptByDelivery(s, g);
      case SocketOpen(g) => WellFormedKeptByConnection(s, step);
      case Connected(g) => WellFormedKeptByConnection(s, step);
      case ConnectionLost(g) => WellFormedKeptByConnection(s, step);
      case SocketClose(g) => WellFormedKeptByConnection(s, step);
      case _ => WellFormedKeptByClients(s, step);
    }
  }

  lemma WellFormedKeptByAction(s: Net, step: Step, g: GatewayId, a: Action)
    requires WellFormed(s) && Enabled(s, step)
    requires step == Local(g, a) || (step == ToGateway(g) && a == Serve(s.broker.toGateways[g][0]))
    ensures WellFormed(Apply(s, step))
  {
    var s' := Apply(s, step);
    var gw := Act(s.gateways[g], a);
    assert ValidCache(gw.nodes) && gw.phase == s.gateways[g].phase && (gw.phase != Up ==> gw.toBroker == s.gateways[g].toBroker) by {
      ActSends(s.gateways[g], a);
    }
    assert WellFormedGateway(s, g);
    OneLinkChanged(s, s', g, gw);
  }

  lemma WellFormedKeptByDelivery(s: Net, g: GatewayId)
    requires WellFormed(s) && Enabled(s, ToBroker(g))
    ensures WellFormed(Apply(s, ToBroker(g)))
  {
    var s' := Apply(s, ToBroker(g));
    if s.gateways[g].toBroker[0].Out? {
      RemoveFirstErases(s.broker.gateways[g], s.gateways[g].toBroker[0].uid);
    }
    assert WellFormedGateway(s, g);
    DeliveryEffect(s, g);
    OneLinkChanged(s, s', g, s'.gateways[g]);
  }

  lemma DeliveryEffect(s: Net, g: GatewayId)
    requires WellFormed(s) && Enabled(s, ToBroker(g))
    ensures var s' := Apply(s, ToBroker(g));
      && s'.gateways == s.gateways[g := s.gateways[g].(toBroker := s.gateways[g].toBroker[1..])]
      && s'.clients == s.clients && s'.broker.clients.Keys == s.broker.clients.Keys
      && s'.broker.toGateways == s.broker.toGateways
      && s'.broker.gateways == s.broker.gateways[g := Route(s.broker.gateways[g], s.gateways[g].toBroker[0]).owned]
  {
  }

  lemma WellFormedKeptByConnection(s: Net, step: Step)
    requires WellFormed(s) && Enabled(s, step)
    requires step.SocketOpen? || step.Connected? || step.ConnectionLost? || step.SocketClose?
    ensures WellFormed(Apply(s, step))
  {
    var s' := Apply(s, step);
    assert WellFormedGateway(s, step.g);
    OneLinkChanged(s, s', step.g, s'.gateways[step.g]);
  }

  lemma WellFormedKeptByClients(s: Net, step: Step)
    requires WellFormed(s) && Enabled(s, step)
    requires step.ClientOpen? || step.ClientSend? || step.FromClient? || step.ToClient? || step.ClientClose?
    ensures WellFormed(Apply(s, step))
  {
    var s' := Apply(s, step);
    forall h | h in s'.gateways
      ensures WellFormedGateway(s', h)
    {
      assert WellFormedGateway(s, h);
    }
  }

  // Ownership

  /** A gateway's messages change what the broker will own exactly as the action changes the cache. */
  lemma ActKeepsOwnership(gw: GatewayState, a: Action, rep: Rep, u: Uid, c: ClientId)
    requires CanAct(gw, a)
    requires rep.own <==> u in gw.nodes.vals
    ensures SentEffect(gw, a, rep, u, c).own <==> u in Act(gw, a).nodes.vals
  {
    ActCaches(gw, a, u);
    ActOwns(gw, a, rep, u, c);
  }

  /** Which nodes are cached after an action. */
  lemma ActCaches(gw: GatewayState, a: Action, u: Uid)
    requires CanAct(gw, a)
    ensures u in Act(gw, a).nodes.vals <==>
            (a.Add? && a.uid == u) || (u in gw.nodes.vals && !(a.Remove? && a.uid == u))
  {
  }

  /** And which the broker will own. */
  lemma ActOwns(gw: GatewayState, a: Action, rep: Rep, u: Uid, c: ClientId)
    requires CanAct(gw, a) && (rep.own <==> u in gw.nodes.vals)
    ensures SentEffect(gw, a, rep, u, c).own <==>
            (a.Add? && a.uid == u) || (u in gw.nodes.vals && !(a.Remove? && a.uid == u))
  {
    if a.Add? || a.Serve? || a.KeepAlive? {
    } else if a.Remove? || a.Restart? {
    }
  }

  lemma FinalOwnAfterAction(s: Net, step: Step, g: GatewayId, a: Action, u: Uid)
    requires WellFormed(s) && Enabled(s, step)
    requires step == Local(g, a) || (step == ToGateway(g) && a == Serve(s.broker.toGateways[g][0]))
    requires s.gateways[g].phase == Up
    requires FinalOwn(s, g, u) <==> u in s.gateways[g].nodes.vals
    ensures FinalOwn(Apply(s, step), g, u) <==> u in Apply(s, step).gateways[g].nodes.vals
  {
    var gw := s.gateways[g];
    var rep := Rep(u in s.broker.gateways[g], None);
    var mid := ReplayAll(rep, gw.toBroker, u, "");
    ActSends(gw, a);
    ReplayAppend(rep, gw.toBroker, Sent(gw, a), u, "");
    ReplaySent(gw, a, mid, u, "");
    ActKeepsOwnership(gw, a, mid, u, "");
  }

  lemma FinalOwnAfterDelivery(s: Net, g: GatewayId, u: Uid)
    requires WellFormed(s) && Enabled(s, ToBroker(g))
    ensures FinalOwn(Apply(s, ToBroker(g)), g, u) == FinalOwn(s, g, u)
  {
    var m := s.gateways[g].toBroker[0];
    var owned := s.broker.gateways[g];
    if m.Out? {
      RemoveFirstErases(owned, m.uid);
    }
    var rep := StepRep(Rep(u in owned, None), m, u, "");
    OwnIgnoresShown(rep, Rep(rep.own, None), s.gateways[g].toBroker[1..], u, "", "");
  }

  lemma FinalOwnAfterConnected(s: Net, g: GatewayId, u: Uid)
    requires WellFormed(s) && Enabled(s, Connected(g))
    ensures FinalOwn(Apply(s, Connected(g)), g, u) <==> u in s.gateways[g].nodes.vals
  {
    var nodes := s.gateways[g].nodes;
    assert WellFormedGateway(s, g);
    ReplaySnapshot(Rep(false, None), nodes, 0, All, u, "");
    assert nodes.keys[0..] == nodes.keys;
    assert Apply(s, Connected(g)).gateways[g].toBroker == [] + Snapshot(nodes, 0, All) == Snapshot(nodes, 0, All);
  }

  predicate Touches(step: Step, g: GatewayId) {
    !step.ClientOpen? && !step.ClientSend? && !step.FromClient? && !step.ToClient? && !step.ClientClose? && step.g == g
  }

  lemma OtherLinksUntouched(s: Net, step: Step, g: GatewayId)
    requires WellFormed(s) && Enabled(s, step) && !Touches(step, g)
    ensures var s' := Apply(s, step);
      && (g in s'.gateways <==> g in s.gateways)
      && (g in s.gateways ==> s'.gateways[g] == s.gateways[g])
      && (g in s'.broker.gateways <==> g in s.broker.gateways)
      && (g in s.broker.gateways ==> s'.broker.gateways[g] == s.broker.gateways[g])
  {
    if step.Local? || step.ToGateway? {
      ActionTouchesOne(s, step, g);
    } else if step.ToBroker? {
      DeliveryTouchesOne(s, step.g, g);
    } else if step.SocketOpen? || step.Connected? || step.ConnectionLost? || step.SocketClose? {
      ConnectionTouchesOne(s, step, g);
    }
  }

  lemma ActionTouchesOne(s: Net, step: Step, g: GatewayId)
    requires WellFormed(s) && Enabled(s, step) && (step.Local? || step.ToGateway?) && step.g != g
    ensures var s' := Apply(s, step);
      && (g in s'.gateways <==> g in s.gateways) && (g in s.gateways ==> s'.gateways[g] == s.gateways[g])
      && s'.broker.gateways == s.broker.gateways
  {
  }

  lemma DeliveryTouchesOne(s: Net, h: GatewayId, g: GatewayId)
    requires WellFormed(s) && Enabled(s, ToBroker(h)) && h != g
    ensures var s' := Apply(s, ToBroker(h));
      && (g in s'.gateways <==> g in s.gateways)
      && (g in s.gateways ==> s'.gateways[g] == s.gateways[g])
      && (g in s'.broker.gateways <==> g in s.broker.gateways)
      && (g in s.broker.gateways ==> s'.broker.gateways[g] == s.broker.gateways[g])
  {
  }

  lemma ConnectionTouchesOne(s: Net, step: Step, g: GatewayId)
    requires WellFormed(s) && Enabled(s, step) && !Touches(step, g)
    requires step.SocketOpen? || step.Connected? || step.ConnectionLost? || step.SocketClose?
    ensures var s' := Apply(s, step);
      && (g in s'.gateways <==> g in s.gateways)
      && (g in s.gateways ==> s'.gateways[g] == s.gateways[g])
      && (g in s'.broker.gateways <==> g in s.broker.gateways)
      && (g in s.broker.gateways ==> s'.broker.gateways[g] == s.broker.gateways[g])
  {
    if step.Connected? || step.ConnectionLost? {
      assert Apply(s, step).broker == s.broker;
    } else {
      SocketTouchesOne(s, step, g);
    }
  }

  lemma SocketTouchesOne(s: Net, step: Step, g: GatewayId)
    requires WellFormed(s) && Enabled(s, step) && !Touches(step, g) && (step.SocketOpen? || step.SocketClose?)
    ensures var s' := Apply(s, step);
      && (g in s'.gateways <==> g in s.gateways)
      && (g in s.gateways ==> s'.gateways[g] == s.gateways[g])
      && (g in s'.broker.gateways <==> g in s.broker.gateways)
      && (g in s.broker.gateways ==> s'.broker.gateways[g] == s.broker.gateways[g])
  {
  }

  lemma OwnershipKept(s: Net, step: Step)
    requires WellFormed(s) && Enabled(s, step) && OwnershipTracks(s)
    ensures WellFormed(Apply(s, step)) && OwnershipTracks(Apply(s, step))
  {
    WellFormedKept(s, step);
    var s' := Apply(s, step);
    forall g, u | g in s'.gateways && s'.gateways[g].phase == Up
      ensures FinalOwn(s', g, u) <==> u in s'.gateways[g].nodes.vals
    {
      if !Touches(step, g) {
        OtherLinksUntouched(s, step, g);
      } else if step.Local? {
        ActSends(s.gateways[g], step.action);
        FinalOwnAfterAction(s, step, g, step.action, u);
      } else if step.ToGateway? {
        FinalOwnAfterAction(s, step, g, Serve(s.broker.toGateways[g][0]), u);
      } else if step.ToBroker? {
        FinalOwnAfterDelivery(s, g, u);
      } else if step.Connected? {
        FinalOwnAfterConnected(s, g, u);
      }
    }
  }

  // No ghosts

  /** `u` is shown by `c` only if some gateway owns it. */
  ghost predicate NoGhost(s: Net, c: ClientId, u: Uid) {
    c in s.clients && c in s.broker.clients && u in Drained(s, c) ==> Owned(s, u)
  }

  lemma NoGhostAfterDelivery(s: Net, g: GatewayId, c: ClientId, u: Uid)
    requires WellFormed(s) && Enabled(s, ToBroker(g)) && NoGhost(s, c, u)
    ensures NoGhost(Apply(s, ToBroker(g)), c, u)
  {
    var s' := Apply(s, ToBroker(g));
    if c in s'.clients && c in s'.broker.clients && u in Drained(s', c) {
      DeliveryIsOneReplayStep(s.broker, g, s.gateways[g].toBroker[0], c, s.clients[c].view, u);
      if u !in s'.broker.gateways[g] {
        assert u in Drained(s, c);
        OwnedByAnother(s, s', g, u);
      }
    }
  }

  /** A node that `g` does not own keeps its owner when only `g` changes. */
  lemma OwnedByAnother(s: Net, s': Net, g: GatewayId, u: Uid)
    requires Owned(s, u) && (g in s.broker.gateways ==> u !in s.broker.gateways[g])
    requires forall h :: h != g && h in s.broker.gateways ==> h in s'.broker.gateways && s'.broker.gateways[h] == s.broker.gateways[h]
    ensures Owned(s', u)
  {
    var h :| h in s.broker.gateways && u in s.broker.gateways[h];
    assert h in s'.broker.gateways && u in s'.broker.gateways[h];
  }

  lemma NoGhostAfterClose(s: Net, g: GatewayId, c: ClientId, u: Uid)
    requires WellFormed(s) && Enabled(s, SocketClose(g)) && NoGhost(s, c, u)
    ensures NoGhost(Apply(s, SocketClose(g)), c, u)
  {
    var s' := Apply(s, SocketClose(g));
    if c in s'.clients && c in s'.broker.clients && u in Drained(s', c) {
      ReceiveAllAppend(s.clients[c].view, s.broker.clients[c], OutMessages(s.broker.gateways[g]));
      OutsRemove(Drained(s, c), s.broker.gateways[g], u);
      OwnedByAnother(s, s', g, u);
    }
  }

  /** Steps that neither write to a client nor change who owns what. */
  lemma NoGhostAfterOther(s: Net, step: Step, c: ClientId, u: Uid)
    requires WellFormed(s) && Enabled(s, step) && NoGhost(s, c, u)
    requires !step.ToBroker? && !step.SocketClose?
    ensures NoGhost(Apply(s, step), c, u)
  {
    var s' := Apply(s, step);
    if c in s'.clients && c in s'.broker.clients && u in Drained(s', c) {
      DrainedOtherwiseKept(s, step, c);
      var h :| h in s.broker.gateways && u in s.broker.gateways[h];
      assert h in s'.broker.gateways && u in s'.broker.gateways[h];
    }
  }

  /** Reading a message early or late makes no difference to what a client ends up showing. */
  lemma DrainedOtherwiseKept(s: Net, step: Step, c: ClientId)
    requires WellFormed(s) && Enabled(s, step)
    requires !step.ToBroker? && !step.SocketClose?
    requires c in Apply(s, step).clients && c in Apply(s, step).broker.clients
    ensures Drained(Apply(s, step), c) == if c in s.clients && c in s.broker.clients then Drained(s, c) else map[]
  {
    if step.Local? || step.ToGateway? || step.SocketOpen? || step.Connected? || step.ConnectionLost? {
      ClientsUntouched(s, step);
    } else {
      DrainedByClients(s, step, c);
    }
  }

  lemma ClientsUntouched(s: Net, step: Step)
    requires WellFormed(s) && Enabled(s, step)
    requires step.Local? || step.ToGateway? || step.SocketOpen? || step.Connected? || step.ConnectionLost?
    ensures Apply(s, step).clients == s.clients && Apply(s, step).broker.clients == s.broker.clients
  {
  }

  lemma DrainedByClients(s: Net, step: Step, c: ClientId)
    requires WellFormed(s) && Enabled(s, step)
    requires step.ClientOpen? || step.ClientSend? || step.FromClient? || step.ToClient? || step.ClientClose?
    requires c in Apply(s, step).clients && c in Apply(s, step).broker.clients
    ensures Drained(Apply(s, step), c) == if c in s.clients && c in s.broker.clients then Drained(s, c) else map[]
  {
  }

  lemma SafeKept(s: Net, step: Step)
    requires Safe(s) && Enabled(s, step)
    ensures Safe(Apply(s, step))
  {
    OwnershipKept(s, step);
    var s' := Apply(s, step);
    forall c, u | c in s'.clients && c in s'.broker.clients && u in Drained(s', c)
      ensures Owned(s', u)
    {
      assert NoGhost(s, c, u);
      match step {
        case ToBroker(g) => NoGhostAfterDelivery(s, g, c, u);
        case SocketClose(g) => NoGhostAfterClose(s, g, c, u);
        case _ => NoGhostAfterOther(s, step, c, u);
      }
    }
  }

  // ---------------------------------------------------------------------------------------
  // Runs

  /** `s` is reached from `init` by the steps of `run`. */
  ghost predicate ReachedBy(init: Net, run: seq<Step>, s: Net)
    decreases |run|
  {
    if run == [] then s == init
    else
      var last := |run| - 1;
      exists mid :: ReachedBy(init, run[..last], mid) && WellFormed(mid) && Enabled(mid, run[last]) && s == Apply(mid, run[last])
  }

  /** The state before the last step of a run. */
  lemma LastStep(init: Net, run: seq<Step>, s: Net) returns (mid: Net)
    requires run != [] && ReachedBy(init, run, s)
    ensures ReachedBy(init, run[..|run| - 1], mid)
    ensures WellFormed(mid) && Enabled(mid, run[|run| - 1]) && s == Apply(mid, run[|run| - 1])
  {
    var last := |run| - 1;
    mid :| ReachedBy(init, run[..last], mid) && WellFormed(mid) && Enabled(mid, run[last]) && s == Apply(mid, run[last]);
  }

  /** In every reachable state the broker's lists hold no duplicates and replaying the pending
      messages over them gives the caches, and no dashboard shows a node that nobody owns. */
  lemma {:induction false} AlwaysSafe(init: Net, run: seq<Step>, s: Net)
    requires Initial(init) && ReachedBy(init, run, s)
    ensures Safe(s)
    decreases |run|
  {
    if run != [] {
      var last := |run| - 1;
      var mid := LastStep(init, run, s);
      AlwaysSafe(init, run[..last], mid);
      SafeKept(mid, run[last]);
    }
  }

  /** Closing a gateway's socket takes off every dashboard each node that only it owned. */
  lemma ClosingRemovesItsNodes(init: Net, run: seq<Step>, s: Net, g: GatewayId, c: ClientId, u: Uid)
    requires Initial(init) && ReachedBy(init, run, s) && WellFormed(s) && Enabled(s, SocketClose(g))
    requires c in s.clients && c in s.broker.clients
    requires forall h :: h in s.broker.gateways && h != g ==> u !in s.broker.gateways[h]
    ensures u !in Drained(Apply(s, SocketClose(g)), c)
  {
    AlwaysSafe(init, run, s);
    SafeKept(s, SocketClose(g));
    var s' := Apply(s, SocketClose(g));
    assert !Owned(s', u);
  }
}
