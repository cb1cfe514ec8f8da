/** Exactly which resources a client shows that are no longer cached. */
module Leftovers {
  import opened Dicts
  import opened Messages
  import opened Broker
  import opened Gateway
  import opened Replay
  import opened Network
  import opened Presence
  import opened Convergence
  import opened History
  import opened Values

  /** `r` is shown of a cached node that does not have it. */
  ghost predicate ExtraOf(rep: Rep, nodes: Cache, u: Uid, r: string) {
    rep.shown.Some? && r in rep.shown.value && u in nodes.vals && r !in nodes.vals[u].vals
  }

  ghost predicate Extra(s: Net, g: GatewayId, c: ClientId, u: Uid, r: string) {
    Linked(s, g, c) && ExtraOf(Final(s, g, c, u), s.gateways[g].nodes, u, r)
  }

  /** A turn of the gateway, for a client that has been told of everything but the gaps. */
  ghost predicate Served(t: Turn, g: GatewayId, c: ClientId, u: Uid) {
    t.Valid(g, c, u) && RepGaps(t.rep, t.gaps, g, c, u) && RepComplete(t.rep, t.gw.nodes, t.gaps, g, c, u)
  }

  ghost predicate DropsIn(gw: GatewayState, a: Action, u: Uid, r: string) {
    && a.Add? && a.uid == u && u in gw.nodes.vals && r in gw.nodes.vals[u].vals
    && r != "protocol" && r !in a.res.vals
  }

  ghost predicate ExtraAfter(t: Turn, g: GatewayId, c: ClientId, u: Uid, r: string)
    requires CanAct(t.gw, t.a)
  {
    ExtraOf(t.Seen(c, u), t.Nodes(), u, r) <==>
    (DropsIn(t.gw, t.a, u, r) && (g, c, u, r) !in t.gaps) || (ExtraOf(t.rep, t.gw.nodes, u, r) && !Clears(g, t.a, (g, u, r)))
  }

  lemma ExtraOnAdd(t: Turn, g: GatewayId, c: ClientId, u: Uid, r: string)
    requires Served(t, g, c, u) && t.a.Add?
    ensures ExtraAfter(t, g, c, u, r)
  {
    if t.a.uid == u {
      var res := Labelled(t.gw.protocol, t.a.res);
      assert t.Nodes().vals[u] == res;
      DescribedMerges(t.rep, res, All, c);
    } else {
      assert t.Seen(c, u) == t.rep;
    }
  }

  lemma ExtraOnForward(t: Turn, g: GatewayId, c: ClientId, u: Uid, r: string)
    requires Served(t, g, c, u) && t.a.Forward?
    ensures ExtraAfter(t, g, c, u, r)
  {
    if t.a.uid == u && t.rep.shown.Some? {
      assert t.Seen(c, u).shown == Some(t.rep.shown.value[t.a.resource := t.a.value]);
      assert t.Nodes().vals[u].vals == t.gw.nodes.vals[u].vals[t.a.resource := t.a.value];
    } else {
      assert t.Seen(c, u) == t.rep;
    }
  }

  lemma ExtraOnRestart(t: Turn, g: GatewayId, c: ClientId, u: Uid, r: string)
    requires Served(t, g, c, u) && t.a.Restart?
    ensures ExtraAfter(t, g, c, u, r)
  {
    if t.a.uid == u {
      assert t.Seen(c, u).shown == if t.rep.shown.Some? then Some(map[]) else None;
    } else {
      assert t.Seen(c, u) == t.rep;
    }
  }

  lemma ExtraOnRemove(t: Turn, g: GatewayId, c: ClientId, u: Uid, r: string)
    requires Served(t, g, c, u) && t.a.Remove?
    ensures ExtraAfter(t, g, c, u, r)
  {
  }

  lemma ExtraOnServe(t: Turn, g: GatewayId, c: ClientId, u: Uid, r: string)
    requires Served(t, g, c, u) && (t.a.Serve? || t.a.KeepAlive?)
    ensures ExtraAfter(t, g, c, u, r)
  {
    assert t.Nodes() == t.gw.nodes;
    if t.a == Serve(Join(c)) && u in t.gw.nodes.vals {
      DescribedMerges(t.rep, t.gw.nodes.vals[u], One(c), c);
    } else {
      assert t.Seen(c, u).shown == t.rep.shown;
    }
  }

  lemma ExtraOnTurn(t: Turn, g: GatewayId, c: ClientId, u: Uid, r: string)
    requires Served(t, g, c, u)
    ensures ExtraAfter(t, g, c, u, r)
  {
    match t.a {
      case Add(_, _) => ExtraOnAdd(t, g, c, u, r);
      case Forward(_, _, _) => ExtraOnForward(t, g, c, u, r);
      case Restart(_, _) => ExtraOnRestart(t, g, c, u, r);
      case Remove(_) => ExtraOnRemove(t, g, c, u, r);
      case KeepAlive => ExtraOnServe(t, g, c, u, r);
      case Serve(_) => ExtraOnServe(t, g, c, u, r);
    }
  }

  // ---------------------------------------------------------------------------------------
  // Steps

  /** `c` is registered, `g` connected, and `c` has been told of everything but the gaps. */
  ghost predicate InTouch(s: Net, g: GatewayId, c: ClientId, home: Homes) {
    Linked(s, g, c) && s.gateways[g].phase == Up && ShownComplete(s, g, c, home)
  }

  lemma ServedTurn(s: Net, g: GatewayId, a: Action, c: ClientId, u: Uid, home: Homes)
    requires Mirrored(s, home) && InTouch(s, g, c, home) && home(u) == g && CanAct(s.gateways[g], a) && Disciplined(a)
    ensures Attached(s, g) && Served(TurnOf(s, g, a, c, u), g, c, u)
  {
    assert Attached(s, g) && NoGapShown(s, g, c, home);
    TurnBefore(s, g, a, c, u, home);
  }

  lemma ExtraByAction(s: Net, step: Step, g: GatewayId, a: Action, c: ClientId, u: Uid, r: string, home: Homes)
    requires Mirrored(s, home) && InTouch(s, g, c, home) && Enabled(s, step) && home(u) == g && Disciplined(a) && Linked(Apply(s, step), g, c)
    requires step == Local(g, a) || (step == ToGateway(g) && a == Serve(s.broker.toGateways[g][0]))
    ensures Extra(Apply(s, step), g, c, u, r) <==>
            (DropsIn(s.gateways[g], a, u, r) && (g, c, u, r) !in s.gaps) || (Extra(s, g, c, u, r) && !Clears(g, a, (g, u, r)))
  {
    CanActInStep(s, step, g, a);
    ServedTurn(s, g, a, c, u, home);
    TurnAfter(s, step, g, a, c, u);
    ExtraOnTurn(TurnOf(s, g, a, c, u), g, c, u, r);
  }

  /** What one step does to the resources that `c` shows and `g` does not cache. */
  lemma ExtraStep(s: Net, step: Step, g: GatewayId, c: ClientId, u: Uid, r: string, home: Homes)
    requires Mirrored(s, home) && InTouch(s, g, c, home) && Enabled(s, step) && home(u) == g && DisciplinedStep(step)
    requires Linked(Apply(s, step), g, c) && Apply(s, step).gateways[g].phase == Up
    ensures Extra(Apply(s, step), g, c, u, r) <==>
            (Drops(s, step, (g, u, r)) && (g, c, u, r) !in s.gaps) || (Extra(s, g, c, u, r) && !Outdone(step, (g, u, r)))
  {
    AttachedOrigin(s, step, g);
    if step.Local? && step.g == g {
      ExtraByAction(s, step, g, step.action, c, u, r, home);
    } else if step == ToGateway(g) {
      ExtraByAction(s, step, g, Serve(s.broker.toGateways[g][0]), c, u, r, home);
    } else {
      ExtraElsewhere(s, step, g, c, u, r, home);
    }
  }

  lemma ExtraElsewhere(s: Net, step: Step, g: GatewayId, c: ClientId, u: Uid, r: string, home: Homes)
    requires Mirrored(s, home) && Enabled(s, step) && home(u) == g && (!Touches(step, g) || step == ToBroker(g))
    requires Linked(s, g, c) && Linked(Apply(s, step), g, c)
    ensures Extra(Apply(s, step), g, c, u, r) <==> Extra(s, g, c, u, r)
    ensures !Drops(s, step, (g, u, r)) && !Outdone(step, (g, u, r))
  {
    FinalKeptElsewhere(s, step, g, c, u, home);
    NothingElsewhere(s, step, g, (g, u, r));
  }

  lemma NothingElsewhere(s: Net, step: Step, g: GatewayId, t: Relic)
    requires WellFormed(s) && Enabled(s, step) && t.0 == g && (!Touches(step, g) || step == ToBroker(g))
    ensures !Drops(s, step, t) && !Outdone(step, t)
  {
  }

  lemma StaysInTouch(s: Net, step: Step, g: GatewayId, c: ClientId, home: Homes)
    requires Mirrored(s, home) && InTouch(s, g, c, home) && Enabled(s, step) && HomedStep(step, home) && DisciplinedStep(step)
    requires Linked(Apply(s, step), g, c) && Apply(s, step).gateways[g].phase == Up
    ensures InTouch(Apply(s, step), g, c, home)
  {
    AttachedOrigin(s, step, g);
    if step.Local? && step.g == g {
      GapsAfterAction(s, step, g, step.action, c, home);
    } else if step == ToGateway(g) {
      GapsAfterAction(s, step, g, Serve(s.broker.toGateways[g][0]), c, home);
    } else {
      GapsElsewhere(s, step, g, c, home);
    }
  }

  // ---------------------------------------------------------------------------------------
  // Runs

  /** From step `from` to `k` the client stays registered and the gateway connected. */
  ghost predicate StaysLinked(states: seq<Net>, from: nat, k: nat, g: GatewayId, c: ClientId) {
    k < |states| && forall j: nat :: from <= j <= k ==> Linked(states[j], g, c) && states[j].gateways[g].phase == Up
  }

  /** The node is added again without the resource, which is no gap. */
  ghost predicate DropsShown(s: Net, step: Step, g: GatewayId, c: ClientId, u: Uid, r: string) {
    Drops(s, step, (g, u, r)) && (g, c, u, r) !in s.gaps
  }

  /** Between `from` and `k` that has happened, and nothing since has made up for it. */
  ghost predicate DroppedSince(run: seq<Step>, states: seq<Net>, from: nat, k: nat, g: GatewayId, c: ClientId, u: Uid, r: string)
    requires k <= |run| < |states|
  {
    exists i: nat :: from <= i < k && DropsShown(states[i], run[i], g, c, u, r) && Standing(run, i + 1, k, (g, u, r))
  }

  /** A property that steps make or keep, or end, holds if and only if it held at first and nothing has
      ended it, or some step has made it hold and no later one has ended it. */
  lemma {:induction false} MadeOrKept(holds: nat -> bool, made: nat -> bool, ended: nat -> bool, from: nat, k: nat)
    requires from <= k && forall j: nat :: from <= j < k ==> MakesOrKeeps(holds, made, ended, j)
    ensures holds(k) <==> (holds(from) && Lasts(ended, from, k)) || MadeSince(made, ended, from, k)
    decreases k
  {
    if from < k {
      MadeOrKept(holds, made, ended, from, k - 1);
      assert MakesOrKeeps(holds, made, ended, k - 1);
      LastsStep(ended, from, k);
      MadeSinceStep(made, ended, from, k);
    }
  }

  ghost predicate MakesOrKeeps(holds: nat -> bool, made: nat -> bool, ended: nat -> bool, j: nat) {
    holds(j + 1) <==> made(j) || (holds(j) && !ended(j))
  }

  ghost predicate Lasts(ended: nat -> bool, from: nat, k: nat) {
    forall j: nat :: from <= j < k ==> !ended(j)
  }

  ghost predicate MadeSince(made: nat -> bool, ended: nat -> bool, from: nat, k: nat) {
    exists i: nat :: from <= i < k && made(i) && Lasts(ended, i + 1, k)
  }

  lemma LastsStep(ended: nat -> bool, from: nat, k: nat)
    requires from < k
    ensures Lasts(ended, from, k) <==> Lasts(ended, from, k - 1) && !ended(k - 1)
  {
  }

  lemma MadeSinceStep(made: nat -> bool, ended: nat -> bool, from: nat, k: nat)
    requires from < k
    ensures MadeSince(made, ended, from, k) <==> made(k - 1) || (MadeSince(made, ended, from, k - 1) && !ended(k - 1))
  {
    if made(k - 1) {
      assert Lasts(ended, k - 1 + 1, k);
    } else if MadeSince(made, ended, from, k - 1) && !ended(k - 1) {
      var i: nat :| from <= i < k - 1 && made(i) && Lasts(ended, i + 1, k - 1);
      assert Lasts(ended, i + 1, k);
    }
    if MadeSince(made, ended, from, k) {
      var i: nat :| from <= i < k && made(i) && Lasts(ended, i + 1, k);
      assert i < k - 1 ==> Lasts(ended, i + 1, k - 1);
    }
  }

  ghost predicate GoodRun(init: Net, run: seq<Step>, states: seq<Net>, home: Homes) {
    Initial(init) && Trace(init, run, states) && HomedRun(run, home) && DisciplinedRun(run)
  }

  lemma MirroredInRun(init: Net, run: seq<Step>, states: seq<Net>, home: Homes, j: nat)
    requires GoodRun(init, run, states, home) && j <= |run|
    ensures Mirrored(states[j], home)
  {
    TraceIsReached(init, run, states, j);
    AlwaysMirrored(init, run[..j], states[j], home);
  }

  lemma StepInRun(init: Net, run: seq<Step>, states: seq<Net>, home: Homes, j: nat)
    requires GoodRun(init, run, states, home) && j < |run|
    ensures WellFormed(states[j]) && Enabled(states[j], run[j]) && states[j + 1] == Apply(states[j], run[j])
    ensures HomedStep(run[j], home) && DisciplinedStep(run[j])
  {
    assert Follows(states, run, j);
  }

  lemma {:induction false} Inherited(holds: nat -> bool, from: nat, k: nat)
    requires from <= k && holds(from) && forall j: nat :: from <= j < k ==> Inherits(holds, j)
    ensures holds(k)
    decreases k
  {
    if from < k {
      Inherited(holds, from, k - 1);
      assert Inherits(holds, k - 1);
    }
  }

  ghost predicate Inherits(holds: nat -> bool, j: nat) {
    holds(j) ==> holds(j + 1)
  }

  ghost function Touching(states: seq<Net>, g: GatewayId, c: ClientId, home: Homes): nat -> bool {
    (j: nat) => j < |states| && InTouch(states[j], g, c, home)
  }

  lemma KeepsInTouch(init: Net, run: seq<Step>, states: seq<Net>, home: Homes, from: nat, k: nat, g: GatewayId, c: ClientId)
    requires GoodRun(init, run, states, home) && from <= k <= |run|
    requires StaysLinked(states, from, k, g, c) && InTouch(states[from], g, c, home)
    ensures InTouch(states[k], g, c, home)
  {
    TouchInherited(init, run, states, home, from, k, g, c);
    Inherited(Touching(states, g, c, home), from, k);
  }

  lemma TouchInherited(init: Net, run: seq<Step>, states: seq<Net>, home: Homes, from: nat, k: nat, g: GatewayId, c: ClientId)
    requires GoodRun(init, run, states, home) && from <= k <= |run| && StaysLinked(states, from, k, g, c)
    ensures forall j: nat :: from <= j < k ==> Inherits(Touching(states, g, c, home), j)
  {
    forall j: nat | from <= j < k
      ensures Inherits(Touching(states, g, c, home), j)
    {
      TouchInheritedAt(init, run, states, home, j, g, c);
    }
  }

  lemma TouchInheritedAt(init: Net, run: seq<Step>, states: seq<Net>, home: Homes, j: nat, g: GatewayId, c: ClientId)
    requires GoodRun(init, run, states, home) && j < |run| && Linked(states[j + 1], g, c) && states[j + 1].gateways[g].phase == Up
    ensures Inherits(Touching(states, g, c, home), j)
  {
    if InTouch(states[j], g, c, home) {
      TouchInRun(init, run, states, home, j, g, c);
    }
  }

  lemma TouchInRun(init: Net, run: seq<Step>, states: seq<Net>, home: Homes, j: nat, g: GatewayId, c: ClientId)
    requires GoodRun(init, run, states, home) && j < |run|
    requires InTouch(states[j], g, c, home) && Linked(states[j + 1], g, c) && states[j + 1].gateways[g].phase == Up
    ensures InTouch(states[j + 1], g, c, home)
  {
    MirroredInRun(init, run, states, home, j);
    StepInRun(init, run, states, home, j);
    StaysInTouch(states[j], run[j], g, c, home);
  }

  lemma ExtraInRun(init: Net, run: seq<Step>, states: seq<Net>, home: Homes, j: nat, g: GatewayId, c: ClientId, u: Uid, r: string)
    requires GoodRun(init, run, states, home) && j < |run| && home(u) == g
    requires InTouch(states[j], g, c, home) && Linked(states[j + 1], g, c) && states[j + 1].gateways[g].phase == Up
    ensures Extra(states[j + 1], g, c, u, r) <==>
            DropsShown(states[j], run[j], g, c, u, r) || (Extra(states[j], g, c, u, r) && !Outdone(run[j], (g, u, r)))
  {
    MirroredInRun(init, run, states, home, j);
    StepInRun(init, run, states, home, j);
    ExtraStep(states[j], run[j], g, c, u, r, home);
  }

  /** The three properties of `MadeOrKept`, of the states and steps of a run. */
  ghost predicate Describes(holds: nat -> bool, made: nat -> bool, ended: nat -> bool, run: seq<Step>, states: seq<Net>, g: GatewayId, c: ClientId, u: Uid, r: string)
    requires |run| < |states|
  {
    && (forall j: nat {:trigger states[j]} :: j <= |run| ==> (holds(j) <==> Extra(states[j], g, c, u, r)))
    && (forall j: nat {:trigger run[j]} :: j < |run| ==> (made(j) <==> DropsShown(states[j], run[j], g, c, u, r)))
    && (forall j: nat {:trigger run[j]} :: j < |run| ==> (ended(j) <==> Outdone(run[j], (g, u, r))))
  }

  lemma Described(run: seq<Step>, states: seq<Net>, g: GatewayId, c: ClientId, u: Uid, r: string)
    returns (holds: nat -> bool, made: nat -> bool, ended: nat -> bool)
    requires |run| < |states|
    ensures Describes(holds, made, ended, run, states, g, c, u, r)
  {
    holds := (j: nat) => j < |states| && Extra(states[j], g, c, u, r);
    made := (j: nat) => j < |run| && j < |states| && DropsShown(states[j], run[j], g, c, u, r);
    ended := (j: nat) => j < |run| && Outdone(run[j], (g, u, r));
  }

  lemma DescribedLasts(holds: nat -> bool, made: nat -> bool, ended: nat -> bool, run: seq<Step>, states: seq<Net>, from: nat, k: nat, g: GatewayId, c: ClientId, u: Uid, r: string)
    requires from <= k <= |run| < |states| && Describes(holds, made, ended, run, states, g, c, u, r)
    ensures Lasts(ended, from, k) <==> Standing(run, from, k, (g, u, r))
  {
    assert forall j: nat :: j < k ==> (ended(j) <==> Outdone(run[j], (g, u, r)));
  }

  lemma DescribedMade(holds: nat -> bool, made: nat -> bool, ended: nat -> bool, run: seq<Step>, states: seq<Net>, from: nat, k: nat, g: GatewayId, c: ClientId, u: Uid, r: string)
    requires from <= k <= |run| < |states| && Describes(holds, made, ended, run, states, g, c, u, r)
    ensures MadeSince(made, ended, from, k) <==> DroppedSince(run, states, from, k, g, c, u, r)
  {
    if MadeSince(made, ended, from, k) {
      var i: nat :| from <= i < k && made(i) && Lasts(ended, i + 1, k);
      DescribedLasts(holds, made, ended, run, states, i + 1, k, g, c, u, r);
      assert DropsShown(states[i], run[i], g, c, u, r);
    }
    if DroppedSince(run, states, from, k, g, c, u, r) {
      var i: nat :| from <= i < k && DropsShown(states[i], run[i], g, c, u, r) && Standing(run, i + 1, k, (g, u, r));
      DescribedLasts(holds, made, ended, run, states, i + 1, k, g, c, u, r);
      assert made(i);
    }
  }

  /** As long as a client stays registered and its gateway connected, from a point on where it has been told
      of everything but the gaps: it shows a resource that is not cached if and only if it did so then, or
      the node has been added again without it since, and nothing later has made up for it. */
  lemma ExtraIff(init: Net, run: seq<Step>, states: seq<Net>, home: Homes, from: nat, k: nat, g: GatewayId, c: ClientId, u: Uid, r: string)
    requires GoodRun(init, run, states, home) && from <= k <= |run| && home(u) == g
    requires StaysLinked(states, from, k, g, c) && InTouch(states[from], g, c, home)
    ensures Extra(states[k], g, c, u, r) <==>
            (Extra(states[from], g, c, u, r) && Standing(run, from, k, (g, u, r))) || DroppedSince(run, states, from, k, g, c, u, r)
  {
    var holds, made, ended := Described(run, states, g, c, u, r);
    forall j: nat | from <= j < k
      ensures MakesOrKeeps(holds, made, ended, j)
    {
      KeepsInTouch(init, run, states, home, from, j, g, c);
      ExtraInRun(init, run, states, home, j, g, c, u, r);
    }
    MadeOrKept(holds, made, ended, from, k);
    DescribedLasts(holds, made, ended, run, states, from, k, g, c, u, r);
    DescribedMade(holds, made, ended, run, states, from, k, g, c, u, r);
  }

  /** A client with no request pending is such a client. */
  lemma ServedIsInTouch(init: Net, run: seq<Step>, s: Net, home: Homes, g: GatewayId, c: ClientId)
    requires Initial(init) && ReachedBy(init, run, s) && HomedRun(run, home) && DisciplinedRun(run)
    requires Linked(s, g, c) && s.gateways[g].phase == Up && !JoinPending(s, g, c)
    ensures InTouch(s, g, c, home)
  {
    AlwaysMirrored(init, run, s, home);
  }
}
