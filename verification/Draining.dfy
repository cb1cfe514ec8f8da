/** Delivering what is on its way always comes to an end, and leaves every dashboard showing the caches. */
module Draining {
  import opened Messages
  import opened Broker
  import opened Gateway
  import opened Network
  import opened Presence
  import opened Convergence
  import opened History
  import opened Values

  // ---------------------------------------------------------------------------------------
  // How much is on its way

  ghost function Pick<T>(links: map<string, seq<T>>): string
    requires links != map[]
    ensures Pick(links) in links
  {
    var k :| k in links; k
  }

  /** The number of messages waiting on a set of links. */
  ghost function Load<T>(links: map<string, seq<T>>): nat
    decreases |links|
  {
    if links == map[] then 0 else |links[Pick(links)]| + Load(links - {Pick(links)})
  }

  lemma {:induction false} LoadSplits<T>(links: map<string, seq<T>>, k: string)
    requires k in links
    ensures Load(links) == |links[k]| + Load(links - {k})
    decreases |links|
  {
    var j := Pick(links);
    if j != k {
      LoadSplits(links - {j}, k);
      LoadSplits(links - {k}, j);
      assert links - {j} - {k} == links - {k} - {j};
    }
  }

  lemma LoadFalls<T>(links: map<string, seq<T>>, links': map<string, seq<T>>, k: string)
    requires k in links && k in links' && links' == links[k := links'[k]] && |links'[k]| < |links[k]|
    ensures Load(links') < Load(links)
  {
    LoadSplits(links, k);
    LoadSplits(links', k);
    assert links - {k} == links' - {k};
  }

  function FromClients(s: Net): map<ClientId, seq<Request>> {
    map c | c in s.clients :: s.clients[c].toBroker
  }

  function FromGateways(s: Net): map<GatewayId, seq<Message>> {
    map g | g in s.gateways :: s.gateways[g].toBroker
  }

  function LostLinks(s: Net): set<GatewayId> {
    set g | g in s.gateways && s.gateways[g].phase == Lost
  }

  /** A step in which nobody does anything new: a message is delivered, or the broker notices the end
      of a connection. */
  ghost predicate Delivers(s: Net, step: Step) {
    IsDelivery(step) && (step.SocketClose? ==> step.g in s.gateways && s.gateways[step.g].phase == Lost)
  }

  predicate IsDelivery(step: Step) {
    step.ToBroker? || step.ToGateway? || step.FromClient? || step.ToClient? || step.SocketClose?
  }

  /** The state `s'` has less before it than `s`: a lost connection, a client's request, a request to a
      gateway, a gateway's message, or a message to a client, each weighing more than those after it. */
  ghost predicate Less(s': Net, s: Net) {
    || LostLinks(s') < LostLinks(s)
    || (LostLinks(s') == LostLinks(s)
        && (|| Load(FromClients(s')) < Load(FromClients(s))
            || (FromClients(s') == FromClients(s) && LessToGateways(s', s))))
  }

  ghost predicate LessToGateways(s': Net, s: Net) {
    || Load(s'.broker.toGateways) < Load(s.broker.toGateways)
    || (s'.broker.toGateways == s.broker.toGateways
        && (|| Load(FromGateways(s')) < Load(FromGateways(s))
            || (FromGateways(s') == FromGateways(s) && Load(s'.broker.clients) < Load(s.broker.clients))))
  }

  lemma CloseIsLess(s: Net, g: GatewayId)
    requires WellFormed(s) && Enabled(s, SocketClose(g)) && s.gateways[g].phase == Lost
    ensures Less(Apply(s, SocketClose(g)), s)
  {
    assert g in LostLinks(s) && g !in LostLinks(Apply(s, SocketClose(g)));
  }

  lemma FromClientIsLess(s: Net, c: ClientId)
    requires WellFormed(s) && Enabled(s, FromClient(c))
    ensures Less(Apply(s, FromClient(c)), s)
  {
    LoadFalls(FromClients(s), FromClients(Apply(s, FromClient(c))), c);
  }

  lemma ToGatewayIsLess(s: Net, g: GatewayId)
    requires WellFormed(s) && Enabled(s, ToGateway(g))
    ensures Less(Apply(s, ToGateway(g)), s)
  {
    RequestTaken(s, g);
    LoadFalls(s.broker.toGateways, Apply(s, ToGateway(g)).broker.toGateways, g);
  }

  lemma RequestTaken(s: Net, g: GatewayId)
    requires WellFormed(s) && Enabled(s, ToGateway(g))
    ensures var s' := Apply(s, ToGateway(g));
      && s'.clients == s.clients && LostLinks(s') == LostLinks(s)
      && s'.broker.toGateways == s.broker.toGateways[g := s.broker.toGateways[g][1..]]
  {
    ActSends(s.gateways[g], Serve(s.broker.toGateways[g][0]));
  }

  lemma ToBrokerIsLess(s: Net, g: GatewayId)
    requires WellFormed(s) && Enabled(s, ToBroker(g))
    ensures Less(Apply(s, ToBroker(g)), s)
  {
    MessageTaken(s, g);
    LoadFalls(FromGateways(s), FromGateways(Apply(s, ToBroker(g))), g);
  }

  lemma MessageTaken(s: Net, g: GatewayId)
    requires WellFormed(s) && Enabled(s, ToBroker(g))
    ensures var s' := Apply(s, ToBroker(g));
      && s'.clients == s.clients && LostLinks(s') == LostLinks(s) && s'.broker.toGateways == s.broker.toGateways
      && FromGateways(s') == FromGateways(s)[g := FromGateways(s)[g][1..]]
  {
    var s' := Apply(s, ToBroker(g));
    assert s'.gateways == s.gateways[g := s.gateways[g].(toBroker := s.gateways[g].toBroker[1..])];
    QueueShortened(s, s', g);
  }

  lemma QueueShortened(s: Net, s': Net, g: GatewayId)
    requires g in s.gateways && s.gateways[g].toBroker != []
    requires s'.gateways == s.gateways[g := s.gateways[g].(toBroker := s.gateways[g].toBroker[1..])]
    ensures LostLinks(s') == LostLinks(s) && FromGateways(s') == FromGateways(s)[g := FromGateways(s)[g][1..]]
  {
  }

  lemma ToClientIsLess(s: Net, c: ClientId)
    requires WellFormed(s) && Enabled(s, ToClient(c))
    ensures Less(Apply(s, ToClient(c)), s)
  {
    LoadFalls(s.broker.clients, Apply(s, ToClient(c)).broker.clients, c);
    assert FromClients(Apply(s, ToClient(c))) == FromClients(s);
  }

  /** Every delivery brings the end closer: none can go on for ever without something new. */
  lemma DeliveryIsLess(s: Net, step: Step)
    requires WellFormed(s) && Enabled(s, step) && Delivers(s, step)
    ensures Less(Apply(s, step), s)
  {
    match step {
      case SocketClose(g) => CloseIsLess(s, g);
      case FromClient(c) => FromClientIsLess(s, c);
      case ToGateway(g) => ToGatewayIsLess(s, g);
      case ToBroker(g) => ToBrokerIsLess(s, g);
      case ToClient(c) => ToClientIsLess(s, c);
    }
  }

  // ---------------------------------------------------------------------------------------
  // The end of the deliveries

  ghost predicate Settled(s: Net)
    requires WellFormed(s)
  {
    Quiet(s) && forall c :: c in s.clients ==> s.clients[c].toBroker == []
  }

  /** Unless everything is settled, something can be delivered. */
  lemma SomethingDelivers(s: Net) returns (step: Step)
    requires WellFormed(s) && !Settled(s)
    ensures Enabled(s, step) && Delivers(s, step)
  {
    if c :| c in s.clients && s.clients[c].toBroker != [] {
      step := FromClient(c);
    } else if g :| g in s.gateways && s.gateways[g].phase == Lost {
      step := SocketClose(g);
    } else if g :| g in s.gateways && s.gateways[g].toBroker != [] {
      assert WellFormedGateway(s, g);
      step := ToBroker(g);
    } else if g :| g in s.gateways && s.gateways[g].phase == Up && s.broker.toGateways[g] != [] {
      step := ToGateway(g);
    } else {
      var c :| c in s.broker.clients && s.broker.clients[c] != [];
      step := ToClient(c);
    }
  }

  /** Nothing can be delivered. */
  ghost predicate Stuck(s: Net) {
    forall step :: Enabled(s, step) ==> !Delivers(s, step)
  }

  /** Deliveries cannot go on exactly when everything is settled. */
  lemma StuckIffSettled(s: Net)
    requires WellFormed(s)
    ensures Stuck(s) <==> Settled(s)
  {
    if !Settled(s) {
      var step := SomethingDelivers(s);
      assert Enabled(s, step) && Delivers(s, step);
    }
  }

  /** Deliveries, one after the other, lead from `s` to `s'`. */
  ghost predicate Flows(s: Net, steps: seq<Step>, s': Net)
    decreases |steps|
  {
    if steps == [] then s' == s
    else WellFormed(s) && Enabled(s, steps[0]) && Delivers(s, steps[0]) && Flows(Apply(s, steps[0]), steps[1..], s')
  }

  lemma FlowsFirst(s: Net, step: Step, more: seq<Step>, s': Net)
    requires WellFormed(s) && Enabled(s, step) && Delivers(s, step) && Flows(Apply(s, step), more, s')
    ensures Flows(s, [step] + more, s')
  {
    assert ([step] + more)[1..] == more;
  }

  /** What deliveries leave alone: the caches, who is connected, and who is registered. */
  ghost predicate SameCaches(s: Net, s': Net) {
    && s'.gateways.Keys == s.gateways.Keys && s.broker.clients.Keys <= s'.broker.clients.Keys
    && forall g :: g in s.gateways ==>
         s'.gateways[g].nodes == s.gateways[g].nodes && (s'.gateways[g].phase == Up <==> s.gateways[g].phase == Up)
  }

  lemma DeliveryKeepsCaches(s: Net, step: Step)
    requires WellFormed(s) && Enabled(s, step) && Delivers(s, step)
    ensures SameCaches(s, Apply(s, step))
  {
    if step.ToGateway? {
      RequestKeepsCaches(s, step.g);
    } else if step.ToBroker? {
      MessageKeepsCaches(s, step.g);
    } else if step.SocketClose? {
      CloseKeepsCaches(s, step.g);
    }
  }

  lemma CloseKeepsCaches(s: Net, g: GatewayId)
    requires WellFormed(s) && Enabled(s, SocketClose(g)) && s.gateways[g].phase == Lost
    ensures SameCaches(s, Apply(s, SocketClose(g)))
  {
  }

  lemma RequestKeepsCaches(s: Net, g: GatewayId)
    requires WellFormed(s) && Enabled(s, ToGateway(g))
    ensures SameCaches(s, Apply(s, ToGateway(g)))
  {
    ActSends(s.gateways[g], Serve(s.broker.toGateways[g][0]));
  }

  lemma MessageKeepsCaches(s: Net, g: GatewayId)
    requires WellFormed(s) && Enabled(s, ToBroker(g))
    ensures SameCaches(s, Apply(s, ToBroker(g)))
  {
  }

  lemma SameCachesTwice(s: Net, s1: Net, s': Net)
    requires SameCaches(s, s1) && SameCaches(s1, s')
    ensures SameCaches(s, s')
  {
  }

  lemma Extended(init: Net, run: seq<Step>, s: Net, step: Step)
    requires ReachedBy(init, run, s) && WellFormed(s) && Enabled(s, step)
    ensures ReachedBy(init, run + [step], Apply(s, step))
  {
    assert (run + [step])[..|run|] == run;
  }

  lemma {:induction false} FlowKeepsCaches(s: Net, steps: seq<Step>, s': Net)
    requires WellFormed(s) && Flows(s, steps, s')
    ensures WellFormed(s') && SameCaches(s, s')
    decreases |steps|
  {
    if steps != [] {
      var s1 := Apply(s, steps[0]);
      WellFormedKept(s, steps[0]);
      DeliveryKeepsCaches(s, steps[0]);
      FlowKeepsCaches(s1, steps[1..], s');
      SameCachesTwice(s, s1, s');
    }
  }

  /** A run prolonged by deliveries is a run. */
  lemma {:induction false} FlowIsReached(init: Net, run: seq<Step>, s: Net, steps: seq<Step>, s': Net)
    requires ReachedBy(init, run, s) && Flows(s, steps, s')
    ensures ReachedBy(init, run + steps, s')
    decreases |steps|
  {
    if steps == [] {
      assert run + steps == run;
    } else {
      Extended(init, run, s, steps[0]);
      FlowIsReached(init, run + [steps[0]], Apply(s, steps[0]), steps[1..], s');
      FirstStepMoved(run, steps);
    }
  }

  lemma FirstStepMoved(run: seq<Step>, steps: seq<Step>)
    requires steps != []
    ensures (run + [steps[0]]) + steps[1..] == run + steps
  {
  }

  lemma {:induction false} FlowAddsNothing(s: Net, steps: seq<Step>, s': Net)
    requires Flows(s, steps, s')
    ensures forall i :: 0 <= i < |steps| ==> IsDelivery(steps[i])
    decreases |steps|
  {
    if steps != [] {
      FlowAddsNothing(Apply(s, steps[0]), steps[1..], s');
      forall i | 0 <= i < |steps| ensures IsDelivery(steps[i]) {
        assert i > 0 ==> steps[i] == steps[1..][i - 1];
      }
    }
  }

  lemma FlowKeepsHome(run: seq<Step>, s: Net, steps: seq<Step>, s': Net, home: Homes)
    requires Flows(s, steps, s') && HomedRun(run, home)
    ensures HomedRun(run + steps, home)
    ensures DisciplinedRun(run) ==> DisciplinedRun(run + steps)
  {
    FlowAddsNothing(s, steps, s');
  }

  /** From any state deliveries lead to a settled one. */
  lemma {:induction false} Settles(s: Net) returns (steps: seq<Step>, s': Net)
    requires WellFormed(s)
    ensures Flows(s, steps, s') && WellFormed(s') && Settled(s')
    decreases LostLinks(s), Load(FromClients(s)), Load(s.broker.toGateways), Load(FromGateways(s)), Load(s.broker.clients)
  {
    steps, s' := [], s;
    if !Settled(s) {
      var step, s1 := DeliverOne(s);
      var more;
      more, s' := Settles(s1);
      FlowsFirst(s, step, more, s');
      steps := [step] + more;
    }
  }

  lemma DeliverOne(s: Net) returns (step: Step, s1: Net)
    requires WellFormed(s) && !Settled(s)
    ensures Enabled(s, step) && Delivers(s, step) && s1 == Apply(s, step) && WellFormed(s1) && Less(s1, s)
  {
    step := SomethingDelivers(s);
    DeliveryIsLess(s, step);
    WellFormedKept(s, step);
    s1 := Apply(s, step);
  }

  /** From every reachable state, in whatever order what is on its way is delivered: when nothing is left
      to deliver, every client registered by then shows exactly the nodes that the connected gateways had
      cached all along. */
  lemma DashboardsCatchUp(init: Net, run: seq<Step>, s: Net, home: Homes, steps: seq<Step>, s': Net)
    requires Initial(init) && ReachedBy(init, run, s) && HomedRun(run, home)
    requires Flows(s, steps, s') && Stuck(s')
    ensures SameCaches(s, s') && WellFormed(s') && Settled(s')
    ensures forall c, u :: c in s'.broker.clients ==> (u in s'.clients[c].view <==>
              exists g :: g in s.gateways && s.gateways[g].phase == Up && u in s.gateways[g].nodes.vals)
  {
    AlwaysSafe(init, run, s);
    FlowKeepsCaches(s, steps, s');
    FlowIsReached(init, run, s, steps, s');
    FlowKeepsHome(run, s, steps, s', home);
    StuckIffSettled(s');
    forall c, u | c in s'.broker.clients
      ensures u in s'.clients[c].view <==>
              exists g :: g in s.gateways && s.gateways[g].phase == Up && u in s.gateways[g].nodes.vals
    {
      QuietDashboardsShowCaches(init, run + steps, s', home, c, u);
    }
  }

  // ---------------------------------------------------------------------------------------
  // The same for the values

  lemma DeliveryKeepsHistory(s: Net, step: Step)
    requires WellFormed(s) && Enabled(s, step) && Delivers(s, step)
    ensures Apply(s, step).relics == s.relics && Apply(s, step).gaps <= s.gaps
  {
    forall t ensures t in Apply(s, step).relics <==> t in s.relics {
      RelicStep(s, step, t);
    }
    forall t | t in Apply(s, step).gaps ensures t in s.gaps {
      GapStep(s, step, t);
    }
  }

  lemma {:induction false} FlowKeepsHistory(s: Net, steps: seq<Step>, s': Net)
    requires Flows(s, steps, s')
    ensures s'.relics == s.relics && s'.gaps <= s.gaps
    decreases |steps|
  {
    if steps != [] {
      DeliveryKeepsHistory(s, steps[0]);
      FlowKeepsHistory(Apply(s, steps[0]), steps[1..], s');
    }
  }

  lemma MirrorsWhenSettled(s: Net, home: Homes, g: GatewayId, c: ClientId, u: Uid)
    requires Mirrored(s, home) && Settled(s) && c in s.broker.clients
    requires g in s.gateways && s.gateways[g].phase == Up && u in s.gateways[g].nodes.vals
    ensures u in s.clients[c].view
    ensures Mirrors(s.clients[c].view[u], s.gateways[g].nodes.vals[u], s.gaps, s.relics, g, c, u)
  {
    assert HomedGateway(s, g, home);
    assert Linked(s, g, c) && !JoinPending(s, g, c);
    FinalMirrors(s, home, g, c, u);
    assert Final(s, g, c, u) == RepNow(s, g, c, u);
  }

  /** And with the values: when nothing is left to deliver, every registered client shows of each cached
      node exactly the resources that are not gaps, with the cached values, and nothing else but relics;
      where there are no relics, this is an equality. */
  lemma DashboardsComeToMirror(init: Net, run: seq<Step>, s: Net, home: Homes, steps: seq<Step>, s': Net)
    requires Initial(init) && ReachedBy(init, run, s) && HomedRun(run, home) && DisciplinedRun(run)
    requires Flows(s, steps, s') && Stuck(s')
    ensures SameCaches(s, s') && WellFormed(s') && Settled(s') && s'.relics == s.relics && s'.gaps <= s.gaps
    ensures forall g, c, u :: ShowsFrom(s', g, c, u) ==>
      u in s'.clients[c].view && Mirrors(s'.clients[c].view[u], s.gateways[g].nodes.vals[u], s'.gaps, s.relics, g, c, u)
    ensures forall g, c, u :: ShowsFrom(s', g, c, u) && NoRelics(s, g, u) ==>
      u in s'.clients[c].view && s'.clients[c].view[u] == Without(s.gateways[g].nodes.vals[u], s'.gaps, g, c, u)
  {
    AlwaysSafe(init, run, s);
    FlowKeepsCaches(s, steps, s');
    FlowIsReached(init, run, s, steps, s');
    FlowKeepsHome(run, s, steps, s', home);
    FlowKeepsHistory(s, steps, s');
    StuckIffSettled(s');
    AlwaysMirrored(init, run + steps, s', home);
    forall g, c, u | ShowsFrom(s', g, c, u)
      ensures u in s'.clients[c].view
      ensures Mirrors(s'.clients[c].view[u], s.gateways[g].nodes.vals[u], s'.gaps, s.relics, g, c, u)
      ensures NoRelics(s, g, u) ==> s'.clients[c].view[u] == Without(s.gateways[g].nodes.vals[u], s'.gaps, g, c, u)
    {
      MirrorsWhenSettled(s', home, g, c, u);
      if NoRelics(s, g, u) {
        MirrorsExactly(s'.clients[c].view[u], s.gateways[g].nodes.vals[u], s'.gaps, s.relics, g, c, u);
      }
    }
  }

  /** `c` is registered, and `g` is connected and caches `u`. */
  ghost predicate ShowsFrom(s: Net, g: GatewayId, c: ClientId, u: Uid) {
    c in s.broker.clients && g in s.gateways && s.gateways[g].phase == Up && u in s.gateways[g].nodes.vals
  }

  ghost predicate NoRelics(s: Net, g: GatewayId, u: Uid) {
    forall r :: (g, u, r) !in s.relics
  }
}
