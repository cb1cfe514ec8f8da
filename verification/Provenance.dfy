/** Where the values in the caches come from, over whole runs. */
module Provenance {
  import opened Dicts
  import opened Messages
  import opened Broker
  import opened Gateway
  import opened Network
  import opened Presence
  import opened History
  import opened Convergence
  import opened Values
  import opened Draining

  function Entry(res: Resources, r: string): Option<string> {
    if r in res.vals then Some(res.vals[r]) else None
  }

  /** The value last given for resource `r` of node `u` at gateway `g`, since the node was last added or
      reset: by a forward, or else by the resources it was added with or the defaults of the reset. The
      `protocol` is that of the gateway, and a reset's defaults go before it. */
  function LastGiven(run: seq<Step>, k: nat, g: GatewayId, protocol: string, u: Uid, r: string): Option<string>
    requires k <= |run|
  {
    if k == 0 then None
    else
      var before := LastGiven(run, k - 1, g, protocol, u, r);
      if OfNode(run[k - 1], g, u) then Given(run[k - 1].action, protocol, r, before) else before
  }

  /** What action `a` on a node gives for its resource `r`, which was `before`. */
  function Given(a: Action, protocol: string, r: string, before: Option<string>): Option<string> {
    match a
    case Add(_, res) => if r == "protocol" then Some(protocol) else Entry(res, r)
    case Restart(_, res) => if r == "protocol" && r !in res.vals then Some(protocol) else Entry(res, r)
    case Forward(_, resource, value) => if resource == r then Some(value) else before
    case _ => None
  }

  /** Gateway `g` adds, resets or removes node `u`, or forwards a value for it. */
  predicate OfNode(step: Step, g: GatewayId, u: Uid) {
    && step.Local? && step.g == g
    && (step.action.Add? || step.action.Restart? || step.action.Forward? || step.action.Remove?) && step.action.uid == u
  }

  /** The node has been added, and not removed since. */
  function Present(run: seq<Step>, k: nat, g: GatewayId, u: Uid): bool
    requires k <= |run|
  {
    && k > 0
    && if OfNode(run[k - 1], g, u) && run[k - 1].action.Add? then true
       else if OfNode(run[k - 1], g, u) && run[k - 1].action.Remove? then false
       else Present(run, k - 1, g, u)
  }

  // ---------------------------------------------------------------------------------------
  // One step

  lemma InTail(keys: seq<string>, from: nat, k: string)
    requires from < |keys|
    ensures k in keys[from..] <==> k == keys[from] || k in keys[from + 1..]
  {
    assert keys[from..] == [keys[from]] + keys[from + 1..];
  }

  lemma {:induction false} PutFromAt(d: Resources, more: Resources, from: nat, k: string)
    requires more.Valid() && from <= |more.keys|
    ensures Entry(PutFrom(d, more, from), k) == if k in more.keys[from..] then Some(more.vals[k]) else Entry(d, k)
    decreases |more.keys| - from
  {
    if from < |more.keys| {
      PutFromAt(d.Put(more.keys[from], more.vals[more.keys[from]]), more, from + 1, k);
      InTail(more.keys, from, k);
    }
  }

  lemma ResetAt(protocol: string, defaults: Resources, r: string)
    requires defaults.Valid()
    ensures Entry(ResetResources(protocol, defaults), r) ==
            if r == "protocol" && r !in defaults.vals then Some(protocol) else Entry(defaults, r)
  {
    PutFromAt(Empty<string, string>().Put("protocol", protocol), defaults, 0, r);
    assert defaults.keys[0..] == defaults.keys;
  }

  function EntryOf(gw: GatewayState, u: Uid, r: string): Option<string> {
    if u in gw.nodes.vals then Entry(gw.nodes.vals[u], r) else None
  }

  lemma PresenceAt(gw: GatewayState, a: Action, g: GatewayId, u: Uid)
    requires CanAct(gw, a)
    ensures u in Act(gw, a).nodes.vals <==>
      if OfNode(Local(g, a), g, u) && (a.Add? || a.Remove?) then a.Add? else u in gw.nodes.vals
  {
  }

  /** What an action at its own gateway does to the entry of one resource. */
  lemma ActionAt(gw: GatewayState, a: Action, g: GatewayId, u: Uid, r: string)
    requires CanAct(gw, a)
    ensures EntryOf(Act(gw, a), u, r) == if OfNode(Local(g, a), g, u) then Given(a, gw.protocol, r, EntryOf(gw, u, r)) else EntryOf(gw, u, r)
  {
    if !OfNode(Local(g, a), g, u) {
      OtherAt(gw, a, g, u, r);
    } else if a.Add? {
      AddAt(gw, u, a.res, r);
    } else if a.Restart? {
      RestartAt(gw, u, a.res, r);
    } else if a.Forward? {
      ForwardAt(gw, u, a.resource, a.value, r);
    }
  }

  lemma OtherAt(gw: GatewayState, a: Action, g: GatewayId, u: Uid, r: string)
    requires CanAct(gw, a) && !OfNode(Local(g, a), g, u)
    ensures EntryOf(Act(gw, a), u, r) == EntryOf(gw, u, r)
  {
  }

  lemma AddAt(gw: GatewayState, u: Uid, res: Resources, r: string)
    requires CanAct(gw, Add(u, res))
    ensures EntryOf(Act(gw, Add(u, res)), u, r) == if r == "protocol" then Some(gw.protocol) else Entry(res, r)
  {
  }

  lemma ForwardAt(gw: GatewayState, u: Uid, resource: string, value: string, r: string)
    requires CanAct(gw, Forward(u, resource, value))
    ensures EntryOf(Act(gw, Forward(u, resource, value)), u, r) == if resource == r then Some(value) else EntryOf(gw, u, r)
  {
  }

  lemma RestartAt(gw: GatewayState, u: Uid, res: Resources, r: string)
    requires CanAct(gw, Restart(u, res))
    ensures EntryOf(Act(gw, Restart(u, res)), u, r) == Given(Restart(u, res), gw.protocol, r, EntryOf(gw, u, r))
  {
    ResetAt(gw.protocol, res, r);
  }

  /** A gateway's protocol is its own for good, and only its own actions change its cache. */
  lemma ProtocolStays(s: Net, step: Step, g: GatewayId)
    requires WellFormed(s) && Enabled(s, step) && g in Apply(s, step).gateways
    ensures g in s.gateways && Apply(s, step).gateways[g].protocol == s.gateways[g].protocol
    ensures !(step.Local? && step.g == g) ==> Apply(s, step).gateways[g].nodes == s.gateways[g].nodes
  {
    if !Touches(step, g) {
      OtherLinksUntouched(s, step, g);
    } else if step.Local? {
      ActSends(s.gateways[g], step.action);
    } else if step.ToGateway? {
      ActSends(s.gateways[g], Serve(s.broker.toGateways[g][0]));
    }
  }

  // ---------------------------------------------------------------------------------------
  // Runs

  /** In every state of a run a gateway caches exactly the nodes added and not removed since, and of each
      exactly the resources given since it was last added or reset, with the values given last. */
  lemma {:induction false} CachedIsGiven(init: Net, run: seq<Step>, states: seq<Net>, k: nat, g: GatewayId, u: Uid, r: string)
    requires Trace(init, run, states) && Initial(init) && k <= |run| && g in states[k].gateways
    ensures g in init.gateways && states[k].gateways[g].protocol == init.gateways[g].protocol
    ensures u in states[k].gateways[g].nodes.vals <==> Present(run, k, g, u)
    ensures EntryOf(states[k].gateways[g], u, r) == LastGiven(run, k, g, init.gateways[g].protocol, u, r)
  {
    if k > 0 {
      assert Follows(states, run, k - 1);
      ProtocolStays(states[k - 1], run[k - 1], g);
      CachedIsGiven(init, run, states, k - 1, g, u, r);
      if run[k - 1].Local? && run[k - 1].g == g {
        PresenceAt(states[k - 1].gateways[g], run[k - 1].action, g, u);
        ActionAt(states[k - 1].gateways[g], run[k - 1].action, g, u, r);
      }
    }
  }

  /** No node gives a value for `protocol`. */
  ghost predicate LeavesProtocol(run: seq<Step>, k: nat, g: GatewayId, u: Uid)
    requires k <= |run|
  {
    forall i :: 0 <= i < k && OfNode(run[i], g, u) ==> !GivesProtocol(run[i].action)
  }

  predicate GivesProtocol(a: Action) {
    (a.Forward? && a.resource == "protocol") || (a.Restart? && "protocol" in a.res.vals)
  }

  lemma {:induction false} ProtocolIsGiven(run: seq<Step>, k: nat, g: GatewayId, protocol: string, u: Uid)
    requires k <= |run| && LeavesProtocol(run, k, g, u) && Present(run, k, g, u)
    ensures LastGiven(run, k, g, protocol, u, "protocol") == Some(protocol)
  {
    if !OfNode(run[k - 1], g, u) || !(run[k - 1].action.Add? || run[k - 1].action.Remove?) {
      ProtocolIsGiven(run, k - 1, g, protocol, u);
    }
  }

  /** Where no node publishes a `protocol` of its own, every cached node is labelled with its gateway's. */
  lemma NodesAreLabelled(init: Net, run: seq<Step>, states: seq<Net>, k: nat, g: GatewayId, u: Uid)
    requires Trace(init, run, states) && Initial(init) && k <= |run| && g in states[k].gateways
    requires LeavesProtocol(run, k, g, u) && u in states[k].gateways[g].nodes.vals
    ensures var res := states[k].gateways[g].nodes.vals[u].vals;
      "protocol" in res && res["protocol"] == states[k].gateways[g].protocol
  {
    CachedIsGiven(init, run, states, k, g, u, "protocol");
    ProtocolIsGiven(run, k, g, init.gateways[g].protocol, u);
  }

  // ---------------------------------------------------------------------------------------
  // From a node to a dashboard

  /** Once nothing is left to deliver, what a client shows of a cached node are the values last given for its
      resources: all of them but the gaps, and nothing else but relics. */
  lemma ShownIsGiven(init: Net, run: seq<Step>, s: Net, home: Homes, steps: seq<Step>, s': Net, g: GatewayId, c: ClientId, u: Uid, r: string)
    requires Initial(init) && ReachedBy(init, run, s) && HomedRun(run, home) && DisciplinedRun(run)
    requires Flows(s, steps, s') && Stuck(s')
    requires c in s'.broker.clients && g in s.gateways && s.gateways[g].phase == Up && Present(run, |run|, g, u)
    requires (g, c, u, r) !in s'.gaps && (g, u, r) !in s.relics
    ensures g in init.gateways && c in s'.clients && u in s'.clients[c].view
    ensures var shown := s'.clients[c].view[u];
      (if r in shown then Some(shown[r]) else None) == LastGiven(run, |run|, g, init.gateways[g].protocol, u, r)
  {
    var states := HasTrace(init, run, s);
    CachedIsGiven(init, run, states, |run|, g, u, r);
    DashboardsComeToMirror(init, run, s, home, steps, s');
    assert ShowsFrom(s', g, c, u);
    MirroredEntry(s'.clients[c].view[u], s.gateways[g].nodes.vals[u], s'.gaps, s.relics, g, c, u, r);
  }

  lemma MirroredEntry(shown: map<string, string>, res: Resources, gaps: set<Gap>, relics: set<Relic>, g: GatewayId, c: ClientId, u: Uid, r: string)
    requires Mirrors(shown, res, gaps, relics, g, c, u) && (g, c, u, r) !in gaps && (g, u, r) !in relics
    ensures (if r in shown then Some(shown[r]) else None) == Entry(res, r)
  {
  }
}
