/** The CoAP gateway as one gateway of the network: what its events do there, and what they do not. */
module CoapNetwork {
  import opened Dicts
  import opened Messages
  import opened Broker
  import opened Gateway
  import opened Network
  import opened Presence
  import opened Convergence
  import opened Draining
  import opened Coap

  /** The actions `acts` take the gateway from `gw` to `gw'`. */
  ghost predicate Performs(gw: GatewayState, acts: seq<Action>, gw': GatewayState)
    decreases |acts|
  {
    if acts == [] then gw' == gw
    else CanAct(gw, acts[0]) && Performs(Act(gw, acts[0]), acts[1..], gw')
  }

  function Removals(dead: seq<Uid>): seq<Action> {
    if dead == [] then [] else [Remove(dead[0])] + Removals(dead[1..])
  }

  /** What an event makes the gateway do; `Link` is not its own doing. */
  function ActionsOf(s: CoapState, e: Event): seq<Action> {
    match e.what
    case Check(uid, address, reset) =>
      if uid !in s.mapping then [Add(uid, IpOnly(address))]
      else if reset && address in s.mapping then [Restart(s.mapping[address], IpOnly(address))]
      else []
    case Post(address, endpoint, value) =>
      if address in s.mapping then [Forward(s.mapping[address], endpoint, value)] else []
    case Answer(uid, current, endpoint, value) =>
      if current && uid in s.gw.nodes.vals then [Forward(uid, endpoint, value)] else [StaleForward(uid, endpoint, value)]
    case Cleanup => Removals(ToRemove(s, e.at, 0))
    case Link(_, _) => []
  }

  lemma PerformsOne(gw: GatewayState, a: Action)
    requires CanAct(gw, a)
    ensures Performs(gw, [a], Act(gw, a))
  {
    assert [a][1..] == [];
  }

  lemma {:induction false} RemovalsPerform(s: CoapState, dead: seq<Uid>)
    requires ValidCache(s.gw.nodes) && RemoveAll(s, dead).Done?
    ensures Performs(s.gw, Removals(dead), RemoveAll(s, dead).value.gw)
    decreases |dead|
  {
    if dead != [] {
      var s1 := RemoveOneActs(s, dead[0]);
      RemovalsPerform(s1, dead[1..]);
      assert Removals(dead)[0] == Remove(dead[0]) && Removals(dead)[1..] == Removals(dead[1..]);
    }
  }

  lemma RemoveOneActs(s: CoapState, u: Uid) returns (s1: CoapState)
    requires ValidCache(s.gw.nodes) && RemoveOne(s, u).Done?
    ensures RemoveOne(s, u) == Done(s1) && CanAct(s.gw, Remove(u)) && s1.gw == Act(s.gw, Remove(u)) && ValidCache(s1.gw.nodes)
  {
    s1 := RemoveOne(s, u).value;
    ActSends(s.gw, Remove(u));
  }

  /** Every event but a `Link` is a sequence of actions of the gateway. */
  lemma EventActs(s: CoapState, e: Event)
    requires ValidCache(s.gw.nodes) && Handle(s, e).Done? && !e.what.Link?
    ensures Performs(s.gw, ActionsOf(s, e), Handle(s, e).value.gw)
  {
    if e.what.Cleanup? {
      RemovalsPerform(s, ToRemove(s, e.at, 0));
    } else if ActionsOf(s, e) != [] {
      PerformsOne(s.gw, ActionsOf(s, e)[0]);
    }
  }

  /** And every step of the network that is not an action of the gateway is a `Link` to it. */
  lemma StepIsLink(net: Net, step: Step, g: GatewayId, s: CoapState, at: real)
    requires WellFormed(net) && Enabled(net, step) && g in net.gateways && s.gw == net.gateways[g]
    requires !(step.Local? && step.g == g)
    ensures g in Apply(net, step).gateways
    ensures var gw := Apply(net, step).gateways[g];
      Handle(s, Event(at, Link(gw.phase, gw.toBroker))) == Done(s.(gw := gw))
  {
    if !Touches(step, g) {
      OtherLinksUntouched(net, step, g);
    } else if step.ToGateway? {
      ActSends(net.gateways[g], Serve(net.broker.toGateways[g][0]));
    }
  }

  // ---------------------------------------------------------------------------------------
  // In the network

  /** Gateway `g` does `acts`, and nothing else happens. */
  ghost predicate Locally(net: Net, g: GatewayId, acts: seq<Action>, net': Net)
    decreases |acts|
  {
    if acts == [] then net' == net
    else WellFormed(net) && Enabled(net, Local(g, acts[0])) && Locally(Apply(net, Local(g, acts[0])), g, acts[1..], net')
  }

  /** `run` leads from `init` to `net`, each node announced by its own gateway. */
  ghost predicate Along(init: Net, run: seq<Step>, net: Net, home: Homes) {
    ReachedBy(init, run, net) && WellFormed(net) && HomedRun(run, home)
  }

  /** An action that needs no request and keeps to the nodes of `g`. */
  predicate OwnDoing(a: Action, g: GatewayId, home: Homes) {
    !a.Serve? && (a.Add? ==> home(a.uid) == g)
  }

  lemma PerformsStep(gw: GatewayState, acts: seq<Action>, gw': GatewayState)
    requires Performs(gw, acts, gw') && acts != []
    ensures CanAct(gw, acts[0]) && Performs(Act(gw, acts[0]), acts[1..], gw')
  {
  }

  lemma LocallyStep(net: Net, g: GatewayId, acts: seq<Action>, net1: Net, net': Net)
    requires acts != [] && WellFormed(net) && Enabled(net, Local(g, acts[0])) && net1 == Apply(net, Local(g, acts[0]))
    requires Locally(net1, g, acts[1..], net')
    ensures Locally(net, g, acts, net')
  {
  }

  lemma {:induction false} PerformedInNet(init: Net, run: seq<Step>, net: Net, home: Homes, g: GatewayId, acts: seq<Action>, gw': GatewayState)
    returns (run': seq<Step>, net': Net)
    requires Along(init, run, net, home) && g in net.gateways && Performs(net.gateways[g], acts, gw')
    requires forall i :: 0 <= i < |acts| ==> OwnDoing(acts[i], g, home)
    ensures Locally(net, g, acts, net') && Along(init, run', net', home)
    ensures g in net'.gateways && net'.gateways[g] == gw'
    decreases |acts|
  {
    if acts == [] {
      run', net' := run, net;
    } else {
      PerformsStep(net.gateways[g], acts, gw');
      var run1, net1 := ActionInNet(init, run, net, home, g, acts[0]);
      run', net' := PerformedInNet(init, run1, net1, home, g, acts[1..], gw');
      LocallyStep(net, g, acts, net1, net');
    }
  }

  lemma ActionInNet(init: Net, run: seq<Step>, net: Net, home: Homes, g: GatewayId, a: Action) returns (run1: seq<Step>, net1: Net)
    requires Along(init, run, net, home) && g in net.gateways && CanAct(net.gateways[g], a) && OwnDoing(a, g, home)
    ensures WellFormed(net) && Enabled(net, Local(g, a)) && net1 == Apply(net, Local(g, a)) && Along(init, run1, net1, home)
    ensures g in net1.gateways && net1.gateways[g] == Act(net.gateways[g], a)
  {
    var step := Local(g, a);
    Extended(init, run, net, step);
    WellFormedKept(net, step);
    OneMoreHomed(run, step, home);
    run1, net1 := run + [step], Apply(net, step);
  }

  lemma OneMoreHomed(run: seq<Step>, step: Step, home: Homes)
    requires HomedRun(run, home) && HomedStep(step, home)
    ensures HomedRun(run + [step], home)
  {
  }

  lemma {:induction false} RemovalsAreOwn(dead: seq<Uid>, g: GatewayId, home: Homes)
    ensures forall i :: 0 <= i < |Removals(dead)| ==> OwnDoing(Removals(dead)[i], g, home)
    decreases |dead|
  {
    if dead != [] {
      RemovalsAreOwn(dead[1..], g, home);
    }
  }

  /** What is cached nowhere is shown nowhere, once nothing is left to deliver. */
  lemma UncachedIsHidden(init: Net, run: seq<Step>, net: Net, home: Homes, g: GatewayId, u: Uid, steps: seq<Step>, net': Net)
    requires Initial(init) && ReachedBy(init, run, net) && HomedRun(run, home) && Flows(net, steps, net') && Stuck(net')
    requires home(u) == g && (g in net.gateways ==> u !in net.gateways[g].nodes.vals)
    ensures forall c :: c in net'.broker.clients ==> c in net'.clients && u !in net'.clients[c].view
  {
    AlwaysConverging(init, run, net, home);
    DashboardsCatchUp(init, run, net, home, steps, net');
    forall h | h in net.gateways ensures u !in net.gateways[h].nodes.vals {
      assert HomedGateway(net, h, home);
    }
  }

  /** However the rest is delivered, no client ends up showing `u`. */
  ghost predicate LeavesEveryDashboard(net: Net, u: Uid) {
    forall steps, end, c :: Flows(net, steps, end) && Stuck(end) && c in end.broker.clients ==>
      c in end.clients && u !in end.clients[c].view
  }

  lemma UncachedLeaves(init: Net, run: seq<Step>, net: Net, home: Homes, u: Uid)
    requires Initial(init) && ReachedBy(init, run, net) && HomedRun(run, home)
    requires home(u) in net.gateways ==> u !in net.gateways[home(u)].nodes.vals
    ensures LeavesEveryDashboard(net, u)
  {
    forall steps, end, c | Flows(net, steps, end) && Stuck(end) && c in end.broker.clients
      ensures c in end.clients && u !in end.clients[c].view
    {
      UncachedIsHidden(init, run, net, home, home(u), u, steps, end);
    }
  }

  // ---------------------------------------------------------------------------------------
  // A CoAP gateway and the rest of the network

  /** One turn of the whole: either gateway `g` handles an event, or `step` is something else, which is a
      `Link` event to the gateway. */
  ghost predicate Turn(g: GatewayId, net: Net, s: CoapState, e: Event, step: Step, net': Net, s': CoapState) {
    && Handle(s, e) == Done(s') && g in net'.gateways && net'.gateways[g] == s'.gw
    && if e.what.Link? then WellFormed(net) && Enabled(net, step) && net' == Apply(net, step)
       else Locally(net, g, ActionsOf(s, e), net')
  }

  /** The gateway `g` of the network is the one that handles `es`; `steps[i]` counts where `es[i]` is a `Link`. */
  ghost predicate Together(init: Net, g: GatewayId, start: CoapState, es: seq<Event>, steps: seq<Step>, net: Net, s: CoapState)
    requires |steps| == |es|
    decreases |es|
  {
    if es == [] then net == init && s == start && g in net.gateways && net.gateways[g] == s.gw
    else
      var last := |es| - 1;
      exists net1, s1 :: Together(init, g, start, es[..last], steps[..last], net1, s1) && Turn(g, net1, s1, es[last], steps[last], net, s)
  }

  /** Whatever happens at the gateway or elsewhere, nodes are announced by their own gateways. */
  ghost predicate AtHome(es: seq<Event>, steps: seq<Step>, g: GatewayId, home: Homes)
    requires |steps| == |es|
  {
    forall i :: 0 <= i < |es| ==> HomedTurn(es[i], steps[i], g, home)
  }

  predicate HomedTurn(e: Event, step: Step, g: GatewayId, home: Homes) {
    (e.what.Link? ==> HomedStep(step, home)) && (e.what.Check? ==> home(e.what.uid) == g)
  }

  lemma ActionsAreOwn(s: CoapState, e: Event, step: Step, g: GatewayId, home: Homes)
    requires HomedTurn(e, step, g, home)
    ensures forall i :: 0 <= i < |ActionsOf(s, e)| ==> OwnDoing(ActionsOf(s, e)[i], g, home)
  {
    RemovalsAreOwn(ToRemove(s, e.at, 0), g, home);
  }

  lemma {:induction false} LocallyIsOne(net: Net, g: GatewayId, acts: seq<Action>, net1: Net, net2: Net)
    requires Locally(net, g, acts, net1) && Locally(net, g, acts, net2)
    ensures net1 == net2
    decreases |acts|
  {
    if acts != [] {
      LocallyIsOne(Apply(net, Local(g, acts[0])), g, acts[1..], net1, net2);
    }
  }

  /** The gateway can handle its event as part of the network, and that is a run. */
  lemma EventInNet(init: Net, run: seq<Step>, net: Net, home: Homes, g: GatewayId, s: CoapState, e: Event, step: Step)
    returns (run': seq<Step>, net': Net)
    requires Along(init, run, net, home) && g in net.gateways && net.gateways[g] == s.gw && ValidCache(s.gw.nodes)
    requires Handle(s, e).Done? && !e.what.Link? && HomedTurn(e, step, g, home)
    ensures Locally(net, g, ActionsOf(s, e), net') && Along(init, run', net', home)
    ensures Turn(g, net, s, e, step, net', Handle(s, e).value)
  {
    EventActs(s, e);
    ActionsAreOwn(s, e, step, g, home);
    run', net' := PerformedInNet(init, run, net, home, g, ActionsOf(s, e), Handle(s, e).value.gw);
  }

  lemma StepInNet(init: Net, run: seq<Step>, net: Net, home: Homes, step: Step) returns (run': seq<Step>)
    requires Along(init, run, net, home) && Enabled(net, step) && HomedStep(step, home)
    ensures Along(init, run', Apply(net, step), home)
  {
    Extended(init, run, net, step);
    WellFormedKept(net, step);
    OneMoreHomed(run, step, home);
    run' := run + [step];
  }

  lemma TurnInNet(init: Net, run: seq<Step>, net: Net, home: Homes, g: GatewayId, s: CoapState, e: Event, step: Step, net': Net, s': CoapState)
    returns (run': seq<Step>)
    requires Along(init, run, net, home) && g in net.gateways && net.gateways[g] == s.gw && ValidCache(s.gw.nodes)
    requires Turn(g, net, s, e, step, net', s') && HomedTurn(e, step, g, home)
    ensures Along(init, run', net', home)
  {
    if e.what.Link? {
      run' := StepInNet(init, run, net, home, step);
    } else {
      var net1;
      run', net1 := EventInNet(init, run, net, home, g, s, e, step);
      LocallyIsOne(net, g, ActionsOf(s, e), net1, net');
    }
  }

  lemma LastTurn(init: Net, g: GatewayId, start: CoapState, es: seq<Event>, steps: seq<Step>, net: Net, s: CoapState)
    returns (net1: Net, s1: CoapState)
    requires |steps| == |es| > 0 && Together(init, g, start, es, steps, net, s)
    ensures var last := |es| - 1;
      Together(init, g, start, es[..last], steps[..last], net1, s1) && Turn(g, net1, s1, es[last], steps[last], net, s)
  {
    var last := |es| - 1;
    net1, s1 :| Together(init, g, start, es[..last], steps[..last], net1, s1) && Turn(g, net1, s1, es[last], steps[last], net, s);
  }

  /** Seen from the gateway this is a run of its events, and seen from the network a run of its steps. */
  lemma {:induction false} TogetherIsBoth(init: Net, g: GatewayId, start: CoapState, es: seq<Event>, steps: seq<Step>,
                                          net: Net, s: CoapState, home: Homes)
    returns (run: seq<Step>)
    requires Initial(init) && |steps| == |es| && Together(init, g, start, es, steps, net, s) && AtHome(es, steps, g, home)
    ensures HandleAll(start, es) == Done(s) && g in net.gateways && net.gateways[g] == s.gw
    ensures Along(init, run, net, home)
    decreases |es|
  {
    if es == [] {
      run := [];
      AlwaysSafe(init, run, net);
    } else {
      var last := |es| - 1;
      var net1, s1 := LastTurn(init, g, start, es, steps, net, s);
      var run1 := TogetherIsBoth(init, g, start, es[..last], steps[..last], net1, s1, home);
      assert WellFormedGateway(net1, g);
      run := TurnInNet(init, run1, net1, home, g, s1, es[last], steps[last], net, s);
    }
  }

  /** The gateway's part in the network, whatever the rest of it does: a node that has sent nothing since
      it was last seen at `last` is off every dashboard, once a stretch of `maxTime + 1` seconds and one more
      interval between cleanups are over and the messages then on their way have arrived. */
  lemma MuteNodeLeavesDashboards(init: Net, g: GatewayId, sc: Scenario, steps: seq<Step>, net: Net, s: CoapState, home: Homes,
                                 u: Uid, from: nat, last: real, p: real)
    requires Initial(init) && |steps| == |sc.es| && Together(init, g, Start(sc.protocol, sc.maxTime), sc.es, steps, net, s)
    requires AtHome(sc.es, steps, g, home) && home(u) == g
    requires sc.Proper() && from < |sc.es| && sc.RecordOf(u).MuteFrom(from) && sc.Seen(u, from) == Some(last)
    requires sc.RecordOf(u).CleansEvery(from, p) && sc.RecordOf(u).Spans(from, last + sc.maxTime + 1.0, p)
    ensures LeavesEveryDashboard(net, u)
  {
    var run := TogetherIsBoth(init, g, Start(sc.protocol, sc.maxTime), sc.es, steps, net, s, home);
    sc.MuteNodeIsForgotten(u, from, last, p);
    UncachedLeaves(init, run, net, home, u);
  }
}
