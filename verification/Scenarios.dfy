/** Runs from the very beginning: a node comes to be shown, and two ways in which dashboards stray. */
module Scenarios {
  import opened Dicts
  import opened Messages
  import opened Wire
  import opened Broker
  import opened Gateway
  import opened Dashboard
  import opened Replay
  import opened Network
  import opened Presence
  import opened Convergence
  import opened History
  import opened Values
  import opened Draining

  /** `run` leads to `s`, and keeps to what the statements about values ask for. */
  ghost predicate Leads(init: Net, run: seq<Step>, s: Net, home: Homes) {
    Initial(init) && ReachedBy(init, run, s) && WellFormed(s) && HomedRun(run, home) && DisciplinedRun(run)
  }

  lemma Go(init: Net, run: seq<Step>, s: Net, home: Homes, step: Step) returns (run': seq<Step>)
    requires Leads(init, run, s, home) && Enabled(s, step) && HomedStep(step, home) && DisciplinedStep(step)
    ensures Leads(init, run', Apply(s, step), home)
  {
    Extended(init, run, s, step);
    run' := run + [step];
    WellFormedKept(s, step);
    OneMoreStep(run, step, home);
  }

  lemma OneMoreStep(run: seq<Step>, step: Step, home: Homes)
    requires HomedRun(run, home) && DisciplinedRun(run) && HomedStep(step, home) && DisciplinedStep(step)
    ensures HomedRun(run + [step], home) && DisciplinedRun(run + [step])
  {
  }

  /** Everything on its way is delivered. */
  lemma Deliver(init: Net, run: seq<Step>, s: Net, home: Homes) returns (run': seq<Step>, s': Net)
    requires Leads(init, run, s, home)
    ensures Leads(init, run', s', home) && Settled(s') && SameCaches(s, s') && s'.relics == s.relics && s'.gaps <= s.gaps
  {
    var steps;
    steps, s' := Settles(s);
    run' := run + steps;
    FlowKeepsCaches(s, steps, s');
    FlowIsReached(init, run, s, steps, s');
    FlowKeepsHome(run, s, steps, s', home);
    FlowKeepsHistory(s, steps, s');
  }

  // ---------------------------------------------------------------------------------------
  // A client meets a node

  lemma GatewayConnects(init: Net, g: GatewayId, home: Homes) returns (run: seq<Step>, s: Net)
    requires Initial(init) && g in init.gateways
    ensures Leads(init, run, s, home) && g in s.gateways && s.gateways[g].phase == Up
    ensures s.clients == map[] && s.gaps == {} && s.relics == {}
  {
    assert WellFormed(init);
    run := Go(init, [], init, home, SocketOpen(g));
    s := Apply(init, SocketOpen(g));
    run := Go(init, run, s, home, Connected(g));
    s := Apply(s, Connected(g));
  }

  lemma ClientAsks(init: Net, run0: seq<Step>, s0: Net, home: Homes, c: ClientId) returns (run: seq<Step>, s: Net)
    requires Leads(init, run0, s0, home) && c !in s0.clients
    ensures Leads(init, run, s, home) && s.gateways == s0.gateways && s.gaps == s0.gaps && s.relics == s0.relics
    ensures c in s.clients && s.clients[c].toBroker == [Join(c)]
  {
    run := Go(init, run0, s0, home, ClientOpen(c));
    s := Apply(s0, ClientOpen(c));
    run := Go(init, run, s, home, ClientSend(c, Join(c)));
    s := Apply(s, ClientSend(c, Join(c)));
  }

  lemma ClientJoins(init: Net, run0: seq<Step>, s0: Net, home: Homes, c: ClientId) returns (run: seq<Step>, s: Net)
    requires Leads(init, run0, s0, home) && c !in s0.clients
    ensures Leads(init, run, s, home) && s.gateways == s0.gateways && s.gaps == s0.gaps && s.relics == s0.relics
    ensures c in s.broker.clients
  {
    run, s := ClientAsks(init, run0, s0, home, c);
    run := Go(init, run, s, home, FromClient(c));
    s := Apply(s, FromClient(c));
  }

  lemma NodeIsAdded(init: Net, run0: seq<Step>, s0: Net, home: Homes, g: GatewayId, u: Uid) returns (run: seq<Step>, s: Net)
    requires Leads(init, run0, s0, home) && g in s0.gateways && s0.gateways[g].phase == Up && home(u) == g
    requires u !in s0.gateways[g].nodes.vals && s0.gaps == {} && s0.relics == {}
    ensures Leads(init, run, s, home) && s.broker == s0.broker && s.gaps == {} && s.relics == {}
    ensures g in s.gateways && s.gateways[g].phase == Up && u in s.gateways[g].nodes.vals
  {
    var step := Local(g, Add(u, Empty()));
    assert WellFormedGateway(s0, g);
    run := Go(init, run0, s0, home, step);
    s := Apply(s0, step);
    ActSends(s0.gateways[g], step.action);
    ActCaches(s0.gateways[g], step.action, u);
  }

  lemma ValueIsForwarded(init: Net, run0: seq<Step>, s0: Net, home: Homes, g: GatewayId, u: Uid, r: string, value: string)
    returns (run: seq<Step>, s: Net)
    requires Leads(init, run0, s0, home) && g in s0.gateways && s0.gateways[g].phase == Up
    requires u in s0.gateways[g].nodes.vals && Bare(r) && s0.gaps == {} && s0.relics == {}
    ensures Leads(init, run, s, home) && s.broker == s0.broker && s.gaps == {} && s.relics == {}
    ensures g in s.gateways && s.gateways[g].phase == Up
    ensures u in s.gateways[g].nodes.vals && r in s.gateways[g].nodes.vals[u].vals
  {
    var step := Local(g, Forward(u, r, value));
    assert WellFormedGateway(s0, g);
    run := Go(init, run0, s0, home, step);
    s := Apply(s0, step);
    ActSends(s0.gateways[g], step.action);
  }

  /** `c` is registered and will show, and with nothing on its way shows, just what `g` caches of `u`. */
  ghost predicate UpToDate(s: Net, g: GatewayId, c: ClientId, u: Uid) {
    && ShowsFrom(s, g, c, u) && Linked(s, g, c) && u in s.clients[c].view
    && s.clients[c].view[u] == s.gateways[g].nodes.vals[u].vals
    && Final(s, g, c, u).shown == Some(s.gateways[g].nodes.vals[u].vals)
  }

  lemma SettledIsUpToDate(init: Net, run: seq<Step>, s: Net, home: Homes, g: GatewayId, c: ClientId, u: Uid)
    requires Leads(init, run, s, home) && Settled(s) && ShowsFrom(s, g, c, u) && s.gaps == {} && s.relics == {}
    ensures UpToDate(s, g, c, u)
  {
    AlwaysMirrored(init, run, s, home);
    MirrorsWhenSettled(s, home, g, c, u);
    NothingLeftOut(s.clients[c].view[u], s.gateways[g].nodes.vals[u], g, c, u);
    SettledFinal(s, g, c, u);
  }

  lemma NothingLeftOut(shown: map<string, string>, res: Resources, g: GatewayId, c: ClientId, u: Uid)
    requires Mirrors(shown, res, {}, {}, g, c, u)
    ensures shown == res.vals
  {
    MirrorsExactly(shown, res, {}, {}, g, c, u);
    assert Without(res, {}, g, c, u) == res.vals;
  }

  lemma SettledFinal(s: Net, g: GatewayId, c: ClientId, u: Uid)
    requires WellFormed(s) && Settled(s) && ShowsFrom(s, g, c, u)
    ensures Linked(s, g, c) && Final(s, g, c, u) == RepNow(s, g, c, u)
  {
  }

  /** However it starts, there is a run in which a client comes to show a node, with a resource that the
      node has sent. */
  lemma NodesComeToBeShown(init: Net, g: GatewayId, c: ClientId, u: Uid, r: string, value: string) returns (run: seq<Step>, s: Net)
    requires Initial(init) && g in init.gateways && Bare(r)
    ensures Leads(init, run, s, v => g) && Settled(s) && s.gaps == {} && s.relics == {}
    ensures UpToDate(s, g, c, u) && r in s.gateways[g].nodes.vals[u].vals
  {
    var home: Homes := v => g;
    run, s := GatewayConnects(init, g, home);
    run, s := ClientJoins(init, run, s, home, c);
    if u !in s.gateways[g].nodes.vals {
      run, s := NodeIsAdded(init, run, s, home, g, u);
    }
    run, s := ValueIsForwarded(init, run, s, home, g, u, r, value);
    run, s := Deliver(init, run, s, home);
    SettledIsUpToDate(init, run, s, home, g, c, u);
  }

  // ---------------------------------------------------------------------------------------
  // A resource that is gone stays on show

  /** Deliveries never take a key away from what a client will show of a cached node. */
  lemma KeysGrow(s: Net, step: Step, home: Homes, g: GatewayId, c: ClientId, u: Uid)
    requires Mirrored(s, home) && Enabled(s, step) && Delivers(s, step) && home(u) == g
    requires Linked(s, g, c) && s.gateways[g].phase == Up && Final(s, g, c, u).shown.Some?
    ensures Mirrored(Apply(s, step), home) && Linked(Apply(s, step), g, c) && Apply(s, step).gateways[g].phase == Up
    ensures Final(Apply(s, step), g, c, u).shown.Some?
    ensures Final(s, g, c, u).shown.value.Keys <= Final(Apply(s, step), g, c, u).shown.value.Keys
  {
    MirroredKept(s, step, home);
    DeliveryKeepsCaches(s, step);
    LinkStays(s, step, g, c);
    if step == ToGateway(g) {
      RequestAddsKeys(s, home, g, c, u);
    } else {
      FinalKeptElsewhere(s, step, g, c, u, home);
    }
  }

  lemma LinkStays(s: Net, step: Step, g: GatewayId, c: ClientId)
    requires WellFormed(s) && Enabled(s, step) && Delivers(s, step) && Linked(s, g, c) && s.gateways[g].phase == Up
    requires SameCaches(s, Apply(s, step)) && WellFormed(Apply(s, step))
    ensures Linked(Apply(s, step), g, c)
    ensures step == ToGateway(g) || step == ToBroker(g) || !Touches(step, g)
  {
  }

  lemma RequestAddsKeys(s: Net, home: Homes, g: GatewayId, c: ClientId, u: Uid)
    requires Mirrored(s, home) && Enabled(s, ToGateway(g)) && Linked(s, g, c) && Final(s, g, c, u).shown.Some?
    ensures var s' := Apply(s, ToGateway(g));
      && Linked(s', g, c) && Final(s', g, c, u).shown.Some?
      && Final(s, g, c, u).shown.value.Keys <= Final(s', g, c, u).shown.value.Keys
  {
    var request := s.broker.toGateways[g][0];
    assert CleanCache(s.gateways[g].nodes) && WellFormedGateway(s, g);
    FinalAfterAction(s, ToGateway(g), g, Serve(request), c, u);
    ServingAddsKeys(s.gateways[g], request, Final(s, g, c, u), u, c);
  }

  lemma ServingAddsKeys(gw: GatewayState, request: Request, rep: Rep, u: Uid, c: ClientId)
    requires CanAct(gw, Serve(request)) && CleanCache(gw.nodes) && rep.shown.Some?
    ensures var shown := SentEffect(gw, Serve(request), rep, u, c).shown;
      shown.Some? && rep.shown.value.Keys <= shown.value.Keys
  {
    if request.Join? && u in gw.nodes.vals && request.src == c {
      DescribedMerges(rep, gw.nodes.vals[u], One(c), c);
    }
  }

  lemma {:induction false} FlowKeysGrow(s: Net, steps: seq<Step>, s': Net, home: Homes, g: GatewayId, c: ClientId, u: Uid)
    requires Mirrored(s, home) && Flows(s, steps, s') && home(u) == g
    requires Linked(s, g, c) && s.gateways[g].phase == Up && Final(s, g, c, u).shown.Some?
    ensures Linked(s', g, c) && Final(s', g, c, u).shown.Some?
    ensures Final(s, g, c, u).shown.value.Keys <= Final(s', g, c, u).shown.value.Keys
    decreases |steps|
  {
    if steps != [] {
      KeysGrow(s, steps[0], home, g, c, u);
      FlowKeysGrow(Apply(s, steps[0]), steps[1..], s', home, g, c, u);
    }
  }

  lemma SettledShowsFinal(s: Net, g: GatewayId, c: ClientId, u: Uid)
    requires WellFormed(s) && Settled(s) && Linked(s, g, c) && Final(s, g, c, u).shown.Some?
    ensures u in s.clients[c].view && Final(s, g, c, u).shown == Some(s.clients[c].view[u])
  {
    assert Final(s, g, c, u) == RepNow(s, g, c, u);
  }

  lemma AddedAgainWithout(s: Net, home: Homes, g: GatewayId, c: ClientId, u: Uid, r: string)
    requires Mirrored(s, home) && Linked(s, g, c) && s.gateways[g].phase == Up && home(u) == g && u in s.gateways[g].nodes.vals
    requires Final(s, g, c, u).shown == Some(s.gateways[g].nodes.vals[u].vals) && r in s.gateways[g].nodes.vals[u].vals
    ensures Enabled(s, Local(g, Add(u, Empty())))
    ensures var s' := Apply(s, Local(g, Add(u, Empty())));
      Linked(s', g, c) && Final(s', g, c, u).shown.Some? && r in Final(s', g, c, u).shown.value
  {
    ReAddMirrorsIff(s, g, u, Empty(), c, home);
  }

  lemma CachesOnlyProtocol(s: Net, g: GatewayId, u: Uid)
    requires WellFormed(s) && Enabled(s, Local(g, Add(u, Empty()))) && s.gateways[g].phase == Up
    ensures var s' := Apply(s, Local(g, Add(u, Empty())));
      && g in s'.gateways && s'.gateways[g].phase == Up && u in s'.gateways[g].nodes.vals
      && s'.gateways[g].nodes.vals[u].vals.Keys == {"protocol"}
  {
  }

  lemma StaysOnShow(s: Net, steps: seq<Step>, s': Net, home: Homes, g: GatewayId, c: ClientId, u: Uid, r: string)
    requires Mirrored(s, home) && Flows(s, steps, s') && Stuck(s') && home(u) == g
    requires Linked(s, g, c) && s.gateways[g].phase == Up && Final(s, g, c, u).shown.Some? && r in Final(s, g, c, u).shown.value
    ensures SameCaches(s, s') && c in s'.clients && u in s'.clients[c].view && r in s'.clients[c].view[u]
  {
    FlowKeepsCaches(s, steps, s');
    FlowKeysGrow(s, steps, s', home, g, c, u);
    StuckIffSettled(s');
    SettledShowsFinal(s', g, c, u);
  }

  /** There is a run after which, in whatever order the rest is delivered, a client shows a resource of a
      node that the gateway has not cached since it added the node again. */
  lemma DroppedResourceStaysOnShow(init: Net, g: GatewayId, c: ClientId, u: Uid, r: string, value: string)
    returns (run: seq<Step>, s: Net)
    requires Initial(init) && g in init.gateways && Bare(r) && r != "protocol"
    ensures Leads(init, run, s, v => g)
    ensures g in s.gateways && u in s.gateways[g].nodes.vals && r !in s.gateways[g].nodes.vals[u].vals
    ensures forall steps, s' :: Flows(s, steps, s') && Stuck(s') ==>
      SameCaches(s, s') && c in s'.clients && u in s'.clients[c].view && r in s'.clients[c].view[u]
  {
    var home: Homes := v => g;
    var run0, s0 := NodesComeToBeShown(init, g, c, u, r, value);
    var step := Local(g, Add(u, Empty()));
    AlwaysMirrored(init, run0, s0, home);
    AddedAgainWithout(s0, home, g, c, u, r);
    CachesOnlyProtocol(s0, g, u);
    MirroredKept(s0, step, home);
    run := Go(init, run0, s0, home, step);
    s := Apply(s0, step);
    forall steps, s' | Flows(s, steps, s') && Stuck(s')
      ensures SameCaches(s, s') && c in s'.clients && u in s'.clients[c].view && r in s'.clients[c].view[u]
    {
      StaysOnShow(s, steps, s', home, g, c, u, r);
    }
  }

  // ---------------------------------------------------------------------------------------
  // A resource that a reset puts back is never told of

  /** No request of `c` is on its way to `g`. */
  ghost predicate NoRequest(s: Net, g: GatewayId, c: ClientId) {
    && (c in s.clients ==> s.clients[c].toBroker == [])
    && (g in s.broker.toGateways ==> Join(c) !in s.broker.toGateways[g])
  }

  lemma NoRequestKept(s: Net, step: Step, g: GatewayId, c: ClientId)
    requires WellFormed(s) && Enabled(s, step) && Delivers(s, step) && NoRequest(s, g, c)
    ensures NoRequest(Apply(s, step), g, c)
  {
  }

  lemma GapStays(s: Net, step: Step, t: Gap)
    requires WellFormed(s) && Enabled(s, step) && Delivers(s, step) && NoRequest(s, t.0, t.1) && t in s.gaps
    ensures t in Apply(s, step).gaps
  {
    GapStep(s, step, t);
  }

  lemma {:induction false} FlowKeepsGap(s: Net, steps: seq<Step>, s': Net, t: Gap)
    requires WellFormed(s) && Flows(s, steps, s') && NoRequest(s, t.0, t.1) && t in s.gaps
    ensures t in s'.gaps
    decreases |steps|
  {
    if steps != [] {
      GapStays(s, steps[0], t);
      NoRequestKept(s, steps[0], t.0, t.1);
      WellFormedKept(s, steps[0]);
      FlowKeepsGap(Apply(s, steps[0]), steps[1..], s', t);
    }
  }

  lemma RestartOpensGap(s: Net, g: GatewayId, c: ClientId, u: Uid)
    requires WellFormed(s) && Settled(s) && UpToDate(s, g, c, u)
    ensures Enabled(s, Local(g, Restart(u, Empty())))
    ensures var s' := Apply(s, Local(g, Restart(u, Empty())));
      && NoRequest(s', g, c) && (g, c, u, "protocol") in s'.gaps && ShowsFrom(s', g, c, u)
      && "protocol" in s'.gateways[g].nodes.vals[u].vals
  {
    var step := Local(g, Restart(u, Empty()));
    assert WellFormedGateway(s, g);
    GapStep(s, step, (g, c, u, "protocol"));
    ResetsAreNotTold(s, g, u, Empty(), c);
    ActSends(s.gateways[g], step.action);
  }

  /** There is a run after which, in whatever order the rest is delivered, a client shows a node without
      its `protocol`, which the gateway has cached since it reset the node. */
  lemma ResetLeavesGap(init: Net, g: GatewayId, c: ClientId, u: Uid) returns (run: seq<Step>, s: Net)
    requires Initial(init) && g in init.gateways
    ensures Leads(init, run, s, v => g)
    ensures g in s.gateways && u in s.gateways[g].nodes.vals && "protocol" in s.gateways[g].nodes.vals[u].vals
    ensures forall steps, s' :: Flows(s, steps, s') && Stuck(s') ==>
      SameCaches(s, s') && c in s'.clients && u in s'.clients[c].view && "protocol" !in s'.clients[c].view[u]
  {
    var home: Homes := v => g;
    var run0, s0 := NodesComeToBeShown(init, g, c, u, "led", "0");
    RestartOpensGap(s0, g, c, u);
    var step := Local(g, Restart(u, Empty()));
    run := Go(init, run0, s0, home, step);
    s := Apply(s0, step);
    forall steps, s' | Flows(s, steps, s') && Stuck(s')
      ensures SameCaches(s, s') && c in s'.clients && u in s'.clients[c].view && "protocol" !in s'.clients[c].view[u]
    {
      FlowKeepsGap(s, steps, s', (g, c, u, "protocol"));
      DashboardsComeToMirror(init, run, s, home, steps, s');
      assert ShowsFrom(s', g, c, u);
    }
  }

  // ---------------------------------------------------------------------------------------
  // A keep-alive that the broker cannot read

  lemma SettledIsOwned(init: Net, run: seq<Step>, s: Net, home: Homes, g: GatewayId, u: Uid)
    requires Leads(init, run, s, home) && Settled(s) && g in s.gateways && s.gateways[g].phase == Up
    requires u in s.gateways[g].nodes.vals
    ensures g in s.broker.gateways && u in s.broker.gateways[g] && s.gateways[g].toBroker == []
  {
    AlwaysSafe(init, run, s);
    assert FinalOwn(s, g, u);
  }

  /** There is a run after which the next message that the broker takes from a gateway makes it look up a
      field that is not there: the keep-alive of a gateway that owns a node called "alive". */
  lemma KeepAliveFails(init: Net, g: GatewayId) returns (run: seq<Step>, s: Net)
    requires Initial(init) && g in init.gateways
    ensures Leads(init, run, s, v => g) && Enabled(s, ToBroker(g)) && s.gateways[g].toBroker == [Alive]
    ensures RouteWire(s.broker.gateways[g], Encode(Alive)) == KeyError("dst")
  {
    var home: Homes := v => g;
    run, s := GatewayConnects(init, g, home);
    if "alive" !in s.gateways[g].nodes.vals {
      run, s := NodeIsAdded(init, run, s, home, g, "alive");
    }
    run, s := Deliver(init, run, s, home);
    SettledIsOwned(init, run, s, home, g, "alive");
    var step := Local(g, KeepAlive);
    assert WellFormedGateway(s, g);
    ActSends(s.gateways[g], KeepAlive);
    run := Go(init, run, s, home, step);
    WireRefinesRoute(s.broker.gateways[g], Alive);
    s := Apply(s, step);
  }
}
