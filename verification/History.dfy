/** What the history variables stand for, in terms of the steps of a run. */
module History {
  import opened Messages
  import opened Broker
  import opened Gateway
  import opened Network
  import opened Presence

  /** A reset puts resource `t.3` of node `t.2` back while client `t.1` is registered. */
  ghost predicate Opens(s: Net, step: Step, t: Gap) {
    && step.Local? && step.g == t.0 && step.action.Restart? && step.action.uid == t.2
    && t.1 in s.broker.clients && (t.3 == "protocol" || t.3 in step.action.res.vals)
  }

  /** The client is told of the resource, or has no use for it any more. */
  ghost predicate Told(s: Net, step: Step, t: Gap) {
    || (step.Local? && Closes(step.g, step.action, t))
    || (step == ToGateway(t.0) && Asks(s.broker, t.0, t.1))
    || step == Connected(t.0) || step == ClientClose(t.1)
  }

  /** The next request that `g` will read is that of `c`. */
  ghost predicate Asks(b: BrokerState, g: GatewayId, c: ClientId) {
    g in b.toGateways && b.toGateways[g] != [] && b.toGateways[g][0] == Join(c)
  }

  lemma GapStep(s: Net, step: Step, t: Gap)
    requires WellFormed(s) && Enabled(s, step)
    ensures t in Apply(s, step).gaps <==> Opens(s, step, t) || (t in s.gaps && !Told(s, step, t))
  {
    if step.Local? {
      LocalGapStep(s, step, t);
    } else if step.ToGateway? {
      ServedGapStep(s, step.g, t);
    } else {
      OtherGapStep(s, step, t);
    }
  }

  lemma OtherGapStep(s: Net, step: Step, t: Gap)
    requires WellFormed(s) && Enabled(s, step) && !step.Local? && !step.ToGateway?
    ensures t in Apply(s, step).gaps <==> t in s.gaps && step != Connected(t.0) && step != ClientClose(t.1)
  {
  }

  lemma LocalGapStep(s: Net, step: Step, t: Gap)
    requires WellFormed(s) && Enabled(s, step) && step.Local?
    ensures t in Apply(s, step).gaps <==> Opens(s, step, t) || (t in s.gaps && !Closes(step.g, step.action, t))
  {
  }

  lemma ServedGapStep(s: Net, g: GatewayId, t: Gap)
    requires WellFormed(s) && Enabled(s, ToGateway(g))
    ensures t in Apply(s, ToGateway(g)).gaps <==> t in s.gaps && !Closes(g, Serve(s.broker.toGateways[g][0]), t)
  {
  }

  /** Node `t.1`, cached with resource `t.2`, is added again without it. */
  ghost predicate Drops(s: Net, step: Step, t: Relic) {
    && step.Local? && step.g == t.0 && step.action.Add? && step.action.uid == t.1
    && t.0 in s.gateways && t.1 in s.gateways[t.0].nodes.vals && t.2 in s.gateways[t.0].nodes.vals[t.1].vals
    && t.2 != "protocol" && t.2 !in step.action.res.vals
  }

  predicate Outdone(step: Step, t: Relic) {
    (step.Local? && Clears(step.g, step.action, t)) || step == Connected(t.0)
  }

  lemma RelicStep(s: Net, step: Step, t: Relic)
    requires WellFormed(s) && Enabled(s, step)
    ensures t in Apply(s, step).relics <==> Drops(s, step, t) || (t in s.relics && !Outdone(step, t))
  {
    if step.Local? {
      LocalRelicStep(s, step, t);
    }
  }

  lemma LocalRelicStep(s: Net, step: Step, t: Relic)
    requires WellFormed(s) && Enabled(s, step) && step.Local?
    ensures t in Apply(s, step).relics <==> Drops(s, step, t) || (t in s.relics && !Clears(step.g, step.action, t))
  {
  }

  /** The states a run goes through. */
  ghost predicate Trace(init: Net, run: seq<Step>, states: seq<Net>) {
    && |states| == |run| + 1 && states[0] == init
    && forall i :: 0 <= i < |run| ==> Follows(states, run, i)
  }

  ghost predicate Follows(states: seq<Net>, run: seq<Step>, i: nat)
    requires i < |run| && |states| == |run| + 1
  {
    WellFormed(states[i]) && Enabled(states[i], run[i]) && states[i + 1] == Apply(states[i], run[i])
  }

  lemma {:induction false} HasTrace(init: Net, run: seq<Step>, s: Net) returns (states: seq<Net>)
    requires ReachedBy(init, run, s)
    ensures Trace(init, run, states) && states[|run|] == s
    decreases |run|
  {
    if run == [] {
      states := [init];
    } else {
      var last := |run| - 1;
      var mid := LastStep(init, run, s);
      var before := HasTrace(init, run[..last], mid);
      assert before[last] == mid;
      TraceGrows(init, run, before, s);
      states := before + [s];
    }
  }

  lemma {:induction false} TraceGrows(init: Net, run: seq<Step>, before: seq<Net>, s: Net)
    requires run != [] && Trace(init, run[..|run| - 1], before)
    requires WellFormed(before[|run| - 1]) && Enabled(before[|run| - 1], run[|run| - 1])
    requires s == Apply(before[|run| - 1], run[|run| - 1])
    ensures Trace(init, run, before + [s])
  {
    forall i | 0 <= i < |run| - 1 ensures Follows(before + [s], run, i) {
      assert Follows(before, run[..|run| - 1], i);
    }
  }

  lemma {:induction false} TraceIsReached(init: Net, run: seq<Step>, states: seq<Net>, k: nat)
    requires Trace(init, run, states) && k <= |run|
    ensures ReachedBy(init, run[..k], states[k])
  {
    if k > 0 {
      TraceIsReached(init, run, states, k - 1);
      assert Follows(states, run, k - 1);
      assert run[..k][..k - 1] == run[..k - 1] && run[..k][k - 1] == run[k - 1];
    }
  }

  /** Up to step `k`, some reset has opened the gap and the client has not been told since. */
  ghost predicate Missed(run: seq<Step>, states: seq<Net>, k: nat, t: Gap)
    requires k <= |run| < |states|
  {
    exists i: nat :: i < k && Opens(states[i], run[i], t) && Untold(run, states, i + 1, k, t)
  }

  ghost predicate Untold(run: seq<Step>, states: seq<Net>, from: nat, k: nat, t: Gap)
    requires k <= |run| < |states|
  {
    forall j: nat :: from <= j < k ==> !Told(states[j], run[j], t)
  }

  lemma MissedStep(run: seq<Step>, states: seq<Net>, k: nat, t: Gap)
    requires k < |run| < |states|
    ensures Missed(run, states, k + 1, t) <==> Opens(states[k], run[k], t) || (Missed(run, states, k, t) && !Told(states[k], run[k], t))
  {
    if Opens(states[k], run[k], t) {
      assert Untold(run, states, k + 1, k + 1, t);
    } else if Missed(run, states, k, t) && !Told(states[k], run[k], t) {
      var i: nat :| i < k && Opens(states[i], run[i], t) && Untold(run, states, i + 1, k, t);
      assert Untold(run, states, i + 1, k + 1, t);
    }
    if Missed(run, states, k + 1, t) {
      var i: nat :| i < k + 1 && Opens(states[i], run[i], t) && Untold(run, states, i + 1, k + 1, t);
      assert i < k ==> Untold(run, states, i + 1, k, t);
    }
  }

  /** The gaps are the resources put back by a reset that nothing has told of since. */
  lemma {:induction false} GapIff(init: Net, run: seq<Step>, states: seq<Net>, k: nat, t: Gap)
    requires Trace(init, run, states) && Initial(init) && k <= |run|
    ensures t in states[k].gaps <==> Missed(run, states, k, t)
  {
    if k > 0 {
      GapIff(init, run, states, k - 1, t);
      assert Follows(states, run, k - 1);
      GapStep(states[k - 1], run[k - 1], t);
      MissedStep(run, states, k - 1, t);
    }
  }

  /** Up to step `k`, the node has been added again without the resource, and nothing since has made up
      for it. */
  ghost predicate Dropped(run: seq<Step>, states: seq<Net>, k: nat, t: Relic)
    requires k <= |run| < |states|
  {
    exists i: nat :: i < k && Drops(states[i], run[i], t) && Standing(run, i + 1, k, t)
  }

  ghost predicate Standing(run: seq<Step>, from: nat, k: nat, t: Relic)
    requires k <= |run|
  {
    forall j: nat :: from <= j < k ==> !Outdone(run[j], t)
  }

  lemma DroppedStep(run: seq<Step>, states: seq<Net>, k: nat, t: Relic)
    requires k < |run| < |states|
    ensures Dropped(run, states, k + 1, t) <==> Drops(states[k], run[k], t) || (Dropped(run, states, k, t) && !Outdone(run[k], t))
  {
    if Drops(states[k], run[k], t) {
      assert Standing(run, k + 1, k + 1, t);
    } else if Dropped(run, states, k, t) && !Outdone(run[k], t) {
      var i: nat :| i < k && Drops(states[i], run[i], t) && Standing(run, i + 1, k, t);
      assert Standing(run, i + 1, k + 1, t);
    }
    if Dropped(run, states, k + 1, t) {
      var i: nat :| i < k + 1 && Drops(states[i], run[i], t) && Standing(run, i + 1, k + 1, t);
      assert i < k ==> Standing(run, i + 1, k, t);
    }
  }

  /** The relics are the resources that a node was added again without, and nothing has made up for since. */
  lemma {:induction false} RelicIff(init: Net, run: seq<Step>, states: seq<Net>, k: nat, t: Relic)
    requires Trace(init, run, states) && Initial(init) && k <= |run|
    ensures t in states[k].relics <==> Dropped(run, states, k, t)
  {
    if k > 0 {
      RelicIff(init, run, states, k - 1, t);
      assert Follows(states, run, k - 1);
      RelicStep(states[k - 1], run[k - 1], t);
      DroppedStep(run, states, k - 1, t);
    }
  }
}
