/** When no two gateways announce the same uid, every dashboard converges to the caches. */
module Convergence {
  import opened Dicts
  import opened Messages
  import opened Broker
  import opened Gateway
  import opened Dashboard
  import opened Replay
  import opened Network
  import opened Presence

  /** `home` says which gateway each uid belongs to. */
  type Homes = Uid -> GatewayId

  predicate Announces(m: Message) {
    m.New? || m.Reset?
  }

  ghost predicate HomedGateway(s: Net, g: GatewayId, home: Homes)
    requires g in s.gateways
  {
    && (forall u :: u in s.gateways[g].nodes.vals ==> home(u) == g)
    && (forall m :: m in s.gateways[g].toBroker && Announces(m) ==> home(m.uid) == g)
    && (g in s.broker.gateways ==> forall u :: u in s.broker.gateways[g] ==> home(u) == g)
  }

  ghost predicate Homed(s: Net, home: Homes) {
    forall g :: g in s.gateways ==> HomedGateway(s, g, home)
  }

  /** A gateway adds only nodes that belong to it. */
  predicate HomedStep(step: Step, home: Homes) {
    step.Local? && step.action.Add? ==> home(step.action.uid) == step.g
  }

  ghost predicate JoinPending(s: Net, g: GatewayId, c: ClientId) {
    g in s.broker.toGateways && Join(c) in s.broker.toGateways[g]
  }

  /** Once everything on its way has arrived, `c` shows exactly what `g` caches. */
  ghost predicate WillShowCache(s: Net, g: GatewayId, c: ClientId, home: Homes)
    requires Linked(s, g, c)
  {
    forall u :: home(u) == g ==> (Final(s, g, c, u).shown.Some? <==> u in s.gateways[g].nodes.vals)
  }

  ghost predicate InSync(s: Net, home: Homes) {
    forall g, c :: Linked(s, g, c) && s.gateways[g].phase == Up ==>
      JoinPending(s, g, c) || WillShowCache(s, g, c, home)
  }

  ghost predicate Converging(s: Net, home: Homes) {
    Safe(s) && Homed(s, home) && InSync(s, home)
  }

  // ---------------------------------------------------------------------------------------
  // Whose nodes the messages speak of

  lemma {:induction false} UpdatesAnnounceNothing(uid: Uid, res: Resources, from: nat, dst: Dst, m: Message)
    requires res.Valid() && from <= |res.keys| && m in UpdateMessages(uid, res, from, dst)
    ensures !Announces(m)
    decreases |res.keys| - from
  {
    if from < |res.keys| && m in UpdateMessages(uid, res, from + 1, dst) {
      UpdatesAnnounceNothing(uid, res, from + 1, dst, m);
    }
  }

  lemma {:induction false} SnapshotAnnouncesCached(nodes: Cache, from: nat, dst: Dst, m: Message)
    requires ValidCache(nodes) && from <= |nodes.keys| && m in Snapshot(nodes, from, dst) && Announces(m)
    ensures m.uid in nodes.vals
    decreases |nodes.keys| - from
  {
    if from < |nodes.keys| {
      var uid := nodes.keys[from];
      if m in UpdateMessages(uid, nodes.vals[uid], 0, dst) {
        UpdatesAnnounceNothing(uid, nodes.vals[uid], 0, dst, m);
      } else if m in Snapshot(nodes, from + 1, dst) {
        SnapshotAnnouncesCached(nodes, from + 1, dst, m);
      }
    }
  }

  lemma ActionAnnouncesOwn(gw: GatewayState, a: Action, m: Message)
    requires CanAct(gw, a) && m in Sent(gw, a) && Announces(m)
    ensures m.uid in Act(gw, a).nodes.vals
  {
    if a.Add? && m in UpdateMessages(a.uid, Labelled(gw.protocol, a.res), 0, All) {
      UpdatesAnnounceNothing(a.uid, Labelled(gw.protocol, a.res), 0, All, m);
    } else if a.Serve? && a.request.Join? {
      SnapshotAnnouncesCached(gw.nodes, 0, One(a.request.src), m);
    }
  }

  lemma HomedAfterAction(s: Net, step: Step, g: GatewayId, a: Action, home: Homes)
    requires WellFormed(s) && Enabled(s, step) && HomedStep(step, home)
    requires step == Local(g, a) || (step == ToGateway(g) && a == Serve(s.broker.toGateways[g][0]))
    requires HomedGateway(s, g, home)
    ensures HomedGateway(Apply(s, step), g, home)
  {
    var gw := s.gateways[g];
    ActSends(gw, a);
    forall u | u in Act(gw, a).nodes.vals
      ensures home(u) == g
    {
    }
    forall m | m in Act(gw, a).toBroker && Announces(m)
      ensures home(m.uid) == g
    {
      if m !in gw.toBroker {
        ActionAnnouncesOwn(gw, a, m);
      }
    }
  }

  lemma HomedAfterConnection(s: Net, step: Step, home: Homes)
    requires WellFormed(s) && Enabled(s, step)
    requires step.SocketOpen? || step.Connected? || step.ConnectionLost? || step.SocketClose?
    requires HomedGateway(s, step.g, home)
    ensures HomedGateway(Apply(s, step), step.g, home)
  {
    var s' := Apply(s, step);
    forall m | m in s'.gateways[step.g].toBroker && Announces(m)
      ensures home(m.uid) == step.g
    {
      if m !in s.gateways[step.g].toBroker {
        SnapshotAnnouncesCached(s.gateways[step.g].nodes, 0, All, m);
      }
    }
  }

  lemma HomedAfterDelivery(s: Net, g: GatewayId, home: Homes)
    requires WellFormed(s) && Enabled(s, ToBroker(g)) && HomedGateway(s, g, home)
    ensures HomedGateway(Apply(s, ToBroker(g)), g, home)
  {
    var gw := s.gateways[g];
    assert gw.toBroker[0] in gw.toBroker;
    assert forall m :: m in gw.toBroker[1..] ==> m in gw.toBroker;
  }

  lemma HomedKept(s: Net, step: Step, home: Homes)
    requires WellFormed(s) && Enabled(s, step) && HomedStep(step, home) && Homed(s, home)
    ensures Homed(Apply(s, step), home)
  {
    forall g | g in Apply(s, step).gateways
      ensures HomedGateway(Apply(s, step), g, home)
    {
      if !Touches(step, g) {
        OtherLinksUntouched(s, step, g);
        assert HomedGateway(s, g, home);
      } else {
        match step {
          case Local(_, a) => HomedAfterAction(s, step, g, a, home);
          case ToGateway(_) => HomedAfterAction(s, step, g, Serve(s.broker.toGateways[g][0]), home);
          case ToBroker(_) => HomedAfterDelivery(s, g, home);
          case _ => HomedAfterConnection(s, step, home);
        }
      }
    }
  }

  // ---------------------------------------------------------------------------------------
  // How each step changes what a client will show

  /** For a node of its own, a gateway's link ends up owning exactly what is cached, and no client
      ends up showing more than that. */
  lemma FinalIsCached(s: Net, g: GatewayId, c: ClientId, u: Uid, home: Homes)
    requires Safe(s) && Homed(s, home) && Linked(s, g, c) && home(u) == g && s.gateways[g].phase == Up
    ensures Final(s, g, c, u).own <==> u in s.gateways[g].nodes.vals
    ensures Final(s, g, c, u).shown.Some? ==> Final(s, g, c, u).own
  {
    var rep := RepNow(s, g, c, u);
    OwnIgnoresShown(rep, Rep(rep.own, None), s.gateways[g].toBroker, u, c, "");
    ShownOnlyByHome(s, g, c, u, home);
    ShownImpliesOwned(rep, s.gateways[g].toBroker, u, c);
  }

  lemma ShownOnlyByHome(s: Net, g: GatewayId, c: ClientId, u: Uid, home: Homes)
    requires Safe(s) && Homed(s, home) && c in s.clients && c in s.broker.clients && home(u) == g
    ensures u in Drained(s, c) ==> g in s.broker.gateways && u in s.broker.gateways[g]
  {
    if u in Drained(s, c) {
      assert Owned(s, u);
      var h :| h in s.broker.gateways && u in s.broker.gateways[h];
      assert HomedGateway(s, h, home);
    }
  }

  lemma FinalAfterAction(s: Net, step: Step, g: GatewayId, a: Action, c: ClientId, u: Uid)
    requires WellFormed(s) && Enabled(s, step) && Linked(s, g, c)
    requires step == Local(g, a) || (step == ToGateway(g) && a == Serve(s.broker.toGateways[g][0]))
    requires s.gateways[g].phase == Up
    ensures Linked(Apply(s, step), g, c)
    ensures Final(Apply(s, step), g, c, u) == SentEffect(s.gateways[g], a, Final(s, g, c, u), u, c)
  {
    var gw := s.gateways[g];
    ActSends(gw, a);
    ReplayAppend(RepNow(s, g, c, u), gw.toBroker, Sent(gw, a), u, c);
    ReplaySent(gw, a, Final(s, g, c, u), u, c);
  }

  lemma FinalAfterDelivery(s: Net, g: GatewayId, c: ClientId, u: Uid)
    requires WellFormed(s) && Enabled(s, ToBroker(g)) && Linked(s, g, c)
    ensures Linked(Apply(s, ToBroker(g)), g, c)
    ensures Final(Apply(s, ToBroker(g)), g, c, u) == Final(s, g, c, u)
  {
    DeliveryIsOneReplayStep(s.broker, g, s.gateways[g].toBroker[0], c, s.clients[c].view, u);
  }

  lemma FinalAfterConnected(s: Net, g: GatewayId, c: ClientId, u: Uid)
    requires WellFormed(s) && Enabled(s, Connected(g)) && Linked(s, g, c)
    ensures Linked(Apply(s, Connected(g)), g, c)
    ensures Final(Apply(s, Connected(g)), g, c, u) ==
            if u in s.gateways[g].nodes.vals then Described(RepNow(s, g, c, u), s.gateways[g].nodes.vals[u], All, c)
            else RepNow(s, g, c, u)
  {
    var nodes := s.gateways[g].nodes;
    assert WellFormedGateway(s, g);
    ReplaySnapshot(RepNow(s, g, c, u), nodes, 0, All, u, c);
    assert nodes.keys[0..] == nodes.keys;
    assert Apply(s, Connected(g)).gateways[g].toBroker == [] + Snapshot(nodes, 0, All) == Snapshot(nodes, 0, All);
  }

  lemma OthersNodesKeptByDelivery(s: Net, h: GatewayId, c: ClientId, u: Uid, home: Homes)
    requires WellFormed(s) && Homed(s, home) && Enabled(s, ToBroker(h)) && home(u) != h
    requires c in s.clients && c in s.broker.clients
    ensures var s' := Apply(s, ToBroker(h));
      c in s'.clients && c in s'.broker.clients && At(Drained(s', c), u) == At(Drained(s, c), u)
  {
    var m := s.gateways[h].toBroker[0];
    assert HomedGateway(s, h, home) && m in s.gateways[h].toBroker;
    DispatchReaches(s.broker.clients, Route(s.broker.gateways[h], m).audience, m, c, s.clients[c].view);
    OthersNodeUntouched(s.broker.gateways[h], m, u, Drained(s, c));
  }

  /** A routed message about another node leaves `u` as it is shown. */
  lemma OthersNodeUntouched(owned: seq<Uid>, m: Message, u: Uid, v: View)
    requires u !in owned && (Announces(m) ==> m.uid != u)
    ensures Route(owned, m).audience == Nobody || At(Receive(v, m), u) == At(v, u)
  {
  }

  lemma OthersNodesKeptByClose(s: Net, h: GatewayId, c: ClientId, u: Uid, home: Homes)
    requires WellFormed(s) && Homed(s, home) && Enabled(s, SocketClose(h)) && home(u) != h
    requires c in s.clients && c in s.broker.clients
    ensures var s' := Apply(s, SocketClose(h));
      c in s'.clients && c in s'.broker.clients && At(Drained(s', c), u) == At(Drained(s, c), u)
  {
    assert HomedGateway(s, h, home);
    ReceiveAllAppend(s.clients[c].view, s.broker.clients[c], OutMessages(s.broker.gateways[h]));
    OutsRemove(Drained(s, c), s.broker.gateways[h], u);
  }

  /** What one gateway does leaves the others' nodes alone. */
  lemma OthersNodesKept(s: Net, step: Step, g: GatewayId, c: ClientId, u: Uid, home: Homes)
    requires WellFormed(s) && Homed(s, home) && Enabled(s, step) && !Touches(step, g) && home(u) == g
    requires c in s.clients && c in s.broker.clients && c in Apply(s, step).clients && c in Apply(s, step).broker.clients
    ensures At(Drained(Apply(s, step), c), u) == At(Drained(s, c), u)
  {
    if step.ToBroker? {
      OthersNodesKeptByDelivery(s, step.g, c, u, home);
    } else if step.SocketClose? {
      OthersNodesKeptByClose(s, step.g, c, u, home);
    } else {
      DrainedOtherwiseKept(s, step, c);
    }
  }

  lemma FinalElsewhere(s: Net, step: Step, g: GatewayId, c: ClientId, u: Uid, home: Homes)
    requires WellFormed(s) && Homed(s, home) && Enabled(s, step) && !Touches(step, g) && home(u) == g
    requires Linked(s, g, c) && Linked(Apply(s, step), g, c)
    ensures Final(Apply(s, step), g, c, u) == Final(s, g, c, u)
    ensures Apply(s, step).gateways[g] == s.gateways[g]
  {
    OtherLinksUntouched(s, step, g);
    OthersNodesKept(s, step, g, c, u, home);
  }

  // ---------------------------------------------------------------------------------------
  // Convergence

  /** An action keeps a converging client converging; answering its request makes it so. */
  lemma ActKeepsPresence(gw: GatewayState, a: Action, rep: Rep, u: Uid, c: ClientId)
    requires CanAct(gw, a)
    requires rep.own <==> u in gw.nodes.vals
    requires rep.shown.Some? ==> rep.own
    requires a == Serve(Join(c)) || (rep.shown.Some? <==> u in gw.nodes.vals)
    ensures SentEffect(gw, a, rep, u, c).shown.Some? <==> u in Act(gw, a).nodes.vals
  {
    ActCaches(gw, a, u);
    ActShows(gw, a, rep, u, c);
  }

  lemma ActShows(gw: GatewayState, a: Action, rep: Rep, u: Uid, c: ClientId)
    requires CanAct(gw, a)
    requires rep.own <==> u in gw.nodes.vals
    requires rep.shown.Some? ==> rep.own
    requires a == Serve(Join(c)) || (rep.shown.Some? <==> u in gw.nodes.vals)
    ensures SentEffect(gw, a, rep, u, c).shown.Some? <==>
            (a.Add? && a.uid == u) || (u in gw.nodes.vals && !(a.Remove? && a.uid == u))
  {
  }

  lemma SyncAfterAction(s: Net, step: Step, g: GatewayId, a: Action, c: ClientId, home: Homes)
    requires Converging(s, home) && Enabled(s, step) && Linked(s, g, c)
    requires step == Local(g, a) || (step == ToGateway(g) && a == Serve(s.broker.toGateways[g][0]))
    requires s.gateways[g].phase == Up
    requires a == Serve(Join(c)) || WillShowCache(s, g, c, home)
    ensures Linked(Apply(s, step), g, c) && WillShowCache(Apply(s, step), g, c, home)
  {
    assert Linked(Apply(s, step), g, c);
    forall u | home(u) == g
      ensures Final(Apply(s, step), g, c, u).shown.Some? <==> u in Apply(s, step).gateways[g].nodes.vals
    {
      FinalAfterAction(s, step, g, a, c, u);
      FinalIsCached(s, g, c, u, home);
      ActKeepsPresence(s.gateways[g], a, Final(s, g, c, u), u, c);
    }
  }

  lemma SyncAfterToGateway(s: Net, g: GatewayId, c: ClientId, home: Homes)
    requires Converging(s, home) && Enabled(s, ToGateway(g)) && Linked(s, g, c)
    ensures var s' := Apply(s, ToGateway(g));
      Linked(s', g, c) && (JoinPending(s', g, c) || WillShowCache(s', g, c, home))
  {
    var s' := Apply(s, ToGateway(g));
    var queue := s.broker.toGateways[g];
    if queue[0] == Join(c) || WillShowCache(s, g, c, home) {
      SyncAfterAction(s, ToGateway(g), g, Serve(queue[0]), c, home);
    } else {
      StillWaiting(s, g, c);
    }
  }

  /** Reading another request leaves that of `c` waiting. */
  lemma StillWaiting(s: Net, g: GatewayId, c: ClientId)
    requires WellFormed(s) && Enabled(s, ToGateway(g)) && Linked(s, g, c)
    requires JoinPending(s, g, c) && s.broker.toGateways[g][0] != Join(c)
    ensures Linked(Apply(s, ToGateway(g)), g, c) && JoinPending(Apply(s, ToGateway(g)), g, c)
  {
    var queue := s.broker.toGateways[g];
    assert queue == [queue[0]] + queue[1..];
    assert Apply(s, ToGateway(g)).broker.toGateways[g] == queue[1..];
  }

  lemma ShownAfterConnected(s: Net, g: GatewayId, c: ClientId, u: Uid, home: Homes)
    requires Converging(s, home) && Enabled(s, Connected(g)) && Linked(s, g, c) && home(u) == g
    ensures Linked(Apply(s, Connected(g)), g, c)
    ensures Final(Apply(s, Connected(g)), g, c, u).shown.Some? <==> u in Apply(s, Connected(g)).gateways[g].nodes.vals
  {
    FinalAfterConnected(s, g, c, u);
    ShownOnlyByHome(s, g, c, u, home);
    assert WellFormedGateway(s, g);
  }

  lemma SyncAfterConnected(s: Net, g: GatewayId, c: ClientId, home: Homes)
    requires Converging(s, home) && Enabled(s, Connected(g)) && Linked(s, g, c)
    ensures Linked(Apply(s, Connected(g)), g, c) && WillShowCache(Apply(s, Connected(g)), g, c, home)
  {
    assert Linked(Apply(s, Connected(g)), g, c);
    forall u | home(u) == g
      ensures Final(Apply(s, Connected(g)), g, c, u).shown.Some? <==> u in Apply(s, Connected(g)).gateways[g].nodes.vals
    {
      ShownAfterConnected(s, g, c, u, home);
    }
  }

  lemma SyncAfterDelivery(s: Net, g: GatewayId, c: ClientId, home: Homes)
    requires Converging(s, home) && Enabled(s, ToBroker(g)) && Linked(s, g, c) && WillShowCache(s, g, c, home)
    ensures Linked(Apply(s, ToBroker(g)), g, c) && WillShowCache(Apply(s, ToBroker(g)), g, c, home)
  {
    assert Linked(Apply(s, ToBroker(g)), g, c);
    forall u | home(u) == g
      ensures Final(Apply(s, ToBroker(g)), g, c, u).shown.Some? <==> u in s.gateways[g].nodes.vals
    {
      FinalAfterDelivery(s, g, c, u);
    }
  }

  lemma SyncElsewhere(s: Net, step: Step, g: GatewayId, c: ClientId, home: Homes)
    requires Converging(s, home) && Enabled(s, step) && !Touches(step, g)
    requires Linked(s, g, c) && Linked(Apply(s, step), g, c) && WillShowCache(s, g, c, home)
    ensures WillShowCache(Apply(s, step), g, c, home)
  {
    forall u | home(u) == g
      ensures Final(Apply(s, step), g, c, u).shown.Some? <==> u in Apply(s, step).gateways[g].nodes.vals
    {
      FinalElsewhere(s, step, g, c, u, home);
    }
  }

  /** A request that was waiting for a gateway still waits, unless it is the one being read. */
  lemma RequestsKept(s: Net, step: Step, g: GatewayId)
    requires WellFormed(s) && Enabled(s, step) && g in s.broker.toGateways
    requires step != ToGateway(g) && step != SocketClose(g)
    ensures g in Apply(s, step).broker.toGateways && s.broker.toGateways[g] <= Apply(s, step).broker.toGateways[g]
  {
    if !step.FromClient? {
      RequestsUntouched(s, step, g);
    }
  }

  lemma RequestsUntouched(s: Net, step: Step, g: GatewayId)
    requires WellFormed(s) && Enabled(s, step) && g in s.broker.toGateways
    requires step != ToGateway(g) && step != SocketClose(g) && !step.FromClient?
    ensures g in Apply(s, step).broker.toGateways && s.broker.toGateways[g] == Apply(s, step).broker.toGateways[g]
  {
    if step.Local? || step.ToBroker? {
      assert Apply(s, step).broker.toGateways == s.broker.toGateways;
    }
  }

  /** A client is registered by its first `new`, which is forwarded to every gateway. */
  lemma RegisteredWithRequest(s: Net, step: Step, g: GatewayId, c: ClientId)
    requires WellFormed(s) && Enabled(s, step) && g in s.broker.gateways
    requires c !in s.broker.clients && c in Apply(s, step).broker.clients && g in Apply(s, step).broker.gateways
    ensures JoinPending(Apply(s, step), g, c)
  {
    RegisteredBy(s, step, c);
    var queue := Apply(s, step).broker.toGateways[g];
    assert queue[|queue| - 1] == Join(c);
  }

  lemma NobodyRegistered(s: Net, step: Step, c: ClientId)
    requires WellFormed(s) && Enabled(s, step) && !step.FromClient?
    ensures c in Apply(s, step).broker.clients ==> c in s.broker.clients
  {
  }

  lemma RegisteredBy(s: Net, step: Step, c: ClientId)
    requires WellFormed(s) && Enabled(s, step)
    requires c !in s.broker.clients && c in Apply(s, step).broker.clients
    ensures step == FromClient(c) && s.clients[c].toBroker[0].Join?
  {
    if !step.FromClient? {
      NobodyRegistered(s, step, c);
    }
  }

  lemma PendingKept(s: Net, step: Step, g: GatewayId, c: ClientId)
    requires WellFormed(s) && Enabled(s, step) && JoinPending(s, g, c)
    requires step != ToGateway(g) && step != SocketClose(g)
    ensures JoinPending(Apply(s, step), g, c)
  {
    RequestsKept(s, step, g);
    var k :| 0 <= k < |s.broker.toGateways[g]| && s.broker.toGateways[g][k] == Join(c);
    assert Apply(s, step).broker.toGateways[g][k] == Join(c);
  }

  lemma SyncKeptWhereLinked(s: Net, step: Step, g: GatewayId, c: ClientId, home: Homes)
    requires Converging(s, home) && Enabled(s, step) && HomedStep(step, home)
    requires Linked(s, g, c) && Linked(Apply(s, step), g, c)
    requires s.gateways[g].phase == Up && Apply(s, step).gateways[g].phase == Up
    ensures JoinPending(Apply(s, step), g, c) || WillShowCache(Apply(s, step), g, c, home)
  {
    if step == ToGateway(g) {
      SyncAfterToGateway(s, g, c, home);
    } else if JoinPending(s, g, c) {
      PendingKept(s, step, g, c);
    } else if !Touches(step, g) {
      SyncElsewhere(s, step, g, c, home);
    } else if step.Local? {
      SyncAfterAction(s, step, g, step.action, c, home);
    } else if step.ToBroker? {
      SyncAfterDelivery(s, g, c, home);
    }
  }

  /** Only `Connected` brings a link up, and only `FromClient` adds a client. */
  lemma LinkOrigin(s: Net, step: Step, g: GatewayId, c: ClientId)
    requires WellFormed(s) && Enabled(s, step) && Linked(Apply(s, step), g, c) && Apply(s, step).gateways[g].phase == Up
    ensures g in s.gateways && g in s.broker.gateways
    ensures s.gateways[g].phase == Up || step == Connected(g)
    ensures c in s.broker.clients ==> Linked(s, g, c)
  {
  }

  lemma ConvergingKept(s: Net, step: Step, home: Homes)
    requires Converging(s, home) && Enabled(s, step) && HomedStep(step, home)
    ensures Converging(Apply(s, step), home)
  {
    SafeKept(s, step);
    HomedKept(s, step, home);
    var s' := Apply(s, step);
    forall g, c | Linked(s', g, c) && s'.gateways[g].phase == Up
      ensures JoinPending(s', g, c) || WillShowCache(s', g, c, home)
    {
      LinkOrigin(s, step, g, c);
      if c !in s.broker.clients {
        RegisteredWithRequest(s, step, g, c);
      } else if s.gateways[g].phase == Up {
        SyncKeptWhereLinked(s, step, g, c, home);
      } else {
        SyncAfterConnected(s, g, c, home);
      }
    }
  }

  ghost predicate HomedRun(run: seq<Step>, home: Homes) {
    forall i :: 0 <= i < |run| ==> HomedStep(run[i], home)
  }

  /** In every reachable state each registered client either still has its request waiting at a
      connected gateway, or will show exactly that gateway's nodes once the messages now on their
      way have arrived. */
  lemma {:induction false} AlwaysConverging(init: Net, run: seq<Step>, s: Net, home: Homes)
    requires Initial(init) && ReachedBy(init, run, s) && HomedRun(run, home)
    ensures Converging(s, home)
    decreases |run|
  {
    if run != [] {
      var last := |run| - 1;
      var mid := LastStep(init, run, s);
      AlwaysConverging(init, run[..last], mid, home);
      ConvergingKept(mid, run[last], home);
    }
  }

  /** No message is on its way and no broken connection is left unnoticed by the broker. */
  ghost predicate Quiet(s: Net)
    requires WellFormed(s)
  {
    && (forall g :: g in s.gateways ==> s.gateways[g].phase != Lost && s.gateways[g].toBroker == [])
    && (forall g :: g in s.gateways && s.gateways[g].phase == Up ==> s.broker.toGateways[g] == [])
    && (forall c :: c in s.broker.clients ==> s.broker.clients[c] == [])
  }

  /** When the network is quiet every dashboard shows the union of the caches of the connected
      gateways, no more and no less. */
  lemma QuietDashboardsShowCaches(init: Net, run: seq<Step>, s: Net, home: Homes, c: ClientId, u: Uid)
    requires Initial(init) && ReachedBy(init, run, s) && HomedRun(run, home)
    requires WellFormed(s) && Quiet(s) && c in s.broker.clients
    ensures u in s.clients[c].view <==>
            exists g :: g in s.gateways && s.gateways[g].phase == Up && u in s.gateways[g].nodes.vals
  {
    AlwaysConverging(init, run, s, home);
    if u in s.clients[c].view {
      ShownWhenQuiet(s, home, c, u);
    }
    if g :| g in s.gateways && s.gateways[g].phase == Up && u in s.gateways[g].nodes.vals {
      assert HomedGateway(s, g, home) && home(u) == g;
      CachedWhenQuiet(s, home, g, c, u);
    }
  }

  /** With nothing on its way, a client shows of a connected gateway's nodes what is cached. */
  lemma CachedWhenQuiet(s: Net, home: Homes, g: GatewayId, c: ClientId, u: Uid)
    requires Converging(s, home) && Quiet(s) && c in s.broker.clients
    requires g in s.gateways && s.gateways[g].phase == Up && home(u) == g
    ensures u in s.clients[c].view <==> u in s.gateways[g].nodes.vals
  {
    assert Linked(s, g, c) && !JoinPending(s, g, c) && WillShowCache(s, g, c, home);
    assert Final(s, g, c, u) == RepNow(s, g, c, u);
  }

  lemma ShownWhenQuiet(s: Net, home: Homes, c: ClientId, u: Uid)
    requires Converging(s, home) && Quiet(s) && c in s.broker.clients && u in s.clients[c].view
    ensures var g := home(u); g in s.gateways && s.gateways[g].phase == Up && u in s.gateways[g].nodes.vals
  {
    var g := home(u);
    assert Drained(s, c) == s.clients[c].view;
    ShownOnlyByHome(s, g, c, u, home);
    assert WellFormedGateway(s, g);
    CachedWhenQuiet(s, home, g, c, u);
  }
}
