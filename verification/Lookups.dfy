/** No run makes the broker look up a field that a gateway's message does not carry. */
module Lookups {
  import opened Dicts
  import opened Messages
  import opened Wire
  import opened Broker
  import opened Gateway
  import opened Network
  import opened Presence

  /** A message that announces no node called "alive" and is not for a client called "all". */
  predicate Plain(m: Message) {
    (m.New? ==> m.uid != "alive") && (m.New? || m.Update? ==> m.dst != One("all"))
  }

  ghost predicate AllPlain(ms: seq<Message>) {
    forall i :: 0 <= i < |ms| ==> Plain(ms[i])
  }

  ghost predicate PlainRequests(rs: seq<Request>) {
    forall i :: 0 <= i < |rs| ==> rs[i].src != "all"
  }

  ghost predicate PlainGateway(s: Net, g: GatewayId) {
    && (g in s.gateways ==> "alive" !in s.gateways[g].nodes.vals && AllPlain(s.gateways[g].toBroker))
    && (g in s.broker.gateways ==> "alive" !in s.broker.gateways[g])
    && (g in s.broker.toGateways ==> PlainRequests(s.broker.toGateways[g]))
  }

  ghost predicate PlainNet(s: Net) {
    "all" !in s.clients && forall g :: PlainGateway(s, g)
  }

  /** No node is called "alive", no client is called "all". */
  predicate PlainStep(step: Step) {
    && (step.Local? && step.action.Add? ==> step.action.uid != "alive")
    && (step.ClientOpen? ==> step.c != "all")
  }

  lemma {:induction false} UpdatesArePlain(uid: Uid, res: Resources, from: nat, dst: Dst)
    requires res.Valid() && from <= |res.keys| && dst != One("all")
    ensures AllPlain(UpdateMessages(uid, res, from, dst))
    decreases |res.keys| - from
  {
    if from < |res.keys| {
      UpdatesArePlain(uid, res, from + 1, dst);
    }
  }

  lemma NodeIsPlain(uid: Uid, res: Resources, dst: Dst)
    requires res.Valid() && dst != One("all") && uid != "alive"
    ensures AllPlain(NodeMessages(uid, res, dst))
  {
    UpdatesArePlain(uid, res, 0, dst);
  }

  lemma {:induction false} SnapshotIsPlain(nodes: Cache, from: nat, dst: Dst)
    requires ValidCache(nodes) && from <= |nodes.keys| && dst != One("all") && "alive" !in nodes.vals
    ensures AllPlain(Snapshot(nodes, from, dst))
    decreases |nodes.keys| - from
  {
    if from < |nodes.keys| {
      NodeIsPlain(nodes.keys[from], nodes.vals[nodes.keys[from]], dst);
      SnapshotIsPlain(nodes, from + 1, dst);
    }
  }

  lemma SentIsPlain(gw: GatewayState, a: Action)
    requires CanAct(gw, a) && "alive" !in gw.nodes.vals
    requires a.Add? ==> a.uid != "alive"
    requires a.Serve? ==> a.request.src != "all"
    ensures AllPlain(Sent(gw, a)) && "alive" !in Act(gw, a).nodes.vals
  {
    ActCaches(gw, a, "alive");
    if a.Add? {
      NodeIsPlain(a.uid, Labelled(gw.protocol, a.res), All);
    } else if a.Serve? {
      SnapshotIsPlain(gw.nodes, 0, One(a.request.src));
    }
  }

  lemma PlainAfterAction(s: Net, step: Step, g: GatewayId, a: Action)
    requires WellFormed(s) && Enabled(s, step) && PlainNet(s) && PlainStep(step)
    requires step == Local(g, a) || (step == ToGateway(g) && a == Serve(s.broker.toGateways[g][0]))
    ensures PlainGateway(Apply(s, step), g)
  {
    assert PlainGateway(s, g);
    ActSends(s.gateways[g], a);
    SentIsPlain(s.gateways[g], a);
  }

  lemma PlainAfterDelivery(s: Net, g: GatewayId)
    requires WellFormed(s) && Enabled(s, ToBroker(g)) && PlainNet(s)
    ensures PlainGateway(Apply(s, ToBroker(g)), g)
  {
    assert PlainGateway(s, g);
    var m := s.gateways[g].toBroker[0];
    assert Plain(m);
  }

  lemma PlainAfterConnection(s: Net, step: Step, g: GatewayId)
    requires WellFormed(s) && Enabled(s, step) && PlainNet(s) && Touches(step, g)
    requires step.SocketOpen? || step.Connected? || step.ConnectionLost? || step.SocketClose?
    ensures PlainGateway(Apply(s, step), g)
  {
    assert PlainGateway(s, g);
    if step.Connected? {
      assert WellFormedGateway(s, g);
      SnapshotIsPlain(s.gateways[g].nodes, 0, All);
    }
  }

  lemma RequestsStayPlain(s: Net, step: Step, g: GatewayId)
    requires WellFormed(s) && Enabled(s, step) && PlainNet(s) && !Touches(step, g)
    ensures g in Apply(s, step).broker.toGateways ==> PlainRequests(Apply(s, step).broker.toGateways[g])
  {
    assert PlainGateway(s, g);
    if !step.FromClient? {
      SameRequests(s, step, g);
    }
  }

  lemma SameRequests(s: Net, step: Step, g: GatewayId)
    requires WellFormed(s) && Enabled(s, step) && !Touches(step, g) && !step.FromClient?
    ensures g in Apply(s, step).broker.toGateways ==>
      g in s.broker.toGateways && Apply(s, step).broker.toGateways[g] == s.broker.toGateways[g]
  {
  }

  lemma PlainKept(s: Net, step: Step)
    requires WellFormed(s) && Enabled(s, step) && PlainNet(s) && PlainStep(step)
    ensures PlainNet(Apply(s, step))
  {
    forall g ensures PlainGateway(Apply(s, step), g) {
      assert PlainGateway(s, g);
      if !Touches(step, g) {
        OtherLinksUntouched(s, step, g);
        RequestsStayPlain(s, step, g);
      } else if step.Local? {
        PlainAfterAction(s, step, g, step.action);
      } else if step.ToGateway? {
        PlainAfterAction(s, step, g, Serve(s.broker.toGateways[g][0]));
      } else if step.ToBroker? {
        PlainAfterDelivery(s, g);
      } else {
        PlainAfterConnection(s, step, g);
      }
    }
  }

  ghost predicate PlainRun(run: seq<Step>) {
    forall i :: 0 <= i < |run| ==> PlainStep(run[i])
  }

  lemma {:induction false} AlwaysPlain(init: Net, run: seq<Step>, s: Net)
    requires Initial(init) && ReachedBy(init, run, s) && PlainRun(run)
    ensures PlainNet(s)
    decreases |run|
  {
    if run != [] {
      var last := |run| - 1;
      var mid := LastStep(init, run, s);
      AlwaysPlain(init, run[..last], mid);
      PlainKept(mid, run[last]);
    }
  }

  /** As long as no node is called "alive" and no client "all", every message the broker ever takes
      from a gateway passes its check, and is handled without a failing lookup, as `Route` says. */
  lemma LookupsNeverFail(init: Net, run: seq<Step>, s: Net, g: GatewayId)
    requires Initial(init) && ReachedBy(init, run, s) && PlainRun(run)
    requires WellFormed(s) && Enabled(s, ToBroker(g))
    ensures var m := s.gateways[g].toBroker[0]; var owned := s.broker.gateways[g];
      CheckMessage(Encode(m)) == Accepted(Encode(m)) && RouteWire(owned, Encode(m)) == Decided(Route(owned, m))
  {
    AlwaysPlain(init, run, s);
    assert PlainGateway(s, g);
    var m := s.gateways[g].toBroker[0];
    assert Plain(m);
    WireRefinesRoute(s.broker.gateways[g], m);
  }
}
