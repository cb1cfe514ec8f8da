/** What the dashboards show of each node: which keys, and with which values. */
module Values {
  import opened Dicts
  import opened Messages
  import opened Broker
  import opened Gateway
  import opened Dashboard
  import opened Replay
  import opened Network
  import opened Presence
  import opened Convergence
  import opened History

  /** Every value shown is the cached one, but for relics, which are not cached at all. */
  ghost predicate Within(shown: map<string, string>, res: Resources, relics: set<Relic>, g: GatewayId, u: Uid) {
    forall r :: r in shown ==> if r in res.vals then shown[r] == res.vals[r] else (g, u, r) in relics
  }

  ghost predicate RepWithin(rep: Rep, nodes: Cache, relics: set<Relic>, g: GatewayId, u: Uid) {
    rep.shown.Some? ==> u in nodes.vals && Within(rep.shown.value, nodes.vals[u], relics, g, u)
  }

  /** No gap is shown. */
  ghost predicate RepGaps(rep: Rep, gaps: set<Gap>, g: GatewayId, c: ClientId, u: Uid) {
    rep.shown.Some? ==> forall r :: r in rep.shown.value ==> (g, c, u, r) !in gaps
  }

  /** Every cached resource is shown, or a gap. */
  ghost predicate RepComplete(rep: Rep, nodes: Cache, gaps: set<Gap>, g: GatewayId, c: ClientId, u: Uid) {
    u in nodes.vals ==>
      rep.shown.Some? && forall r :: r in nodes.vals[u].vals && (g, c, u, r) !in gaps ==> r in rep.shown.value
  }

  ghost predicate Attached(s: Net, g: GatewayId) {
    g in s.gateways && g in s.broker.gateways
  }

  /** `Final`, extended to clients that are not registered: they show nothing now, and would see
      all that is still to be sent if they registered at once. */
  ghost function Prospect(s: Net, g: GatewayId, c: ClientId, u: Uid): Rep
    requires Attached(s, g)
  {
    if Linked(s, g, c) then Final(s, g, c, u)
    else ReplayAll(Rep(u in s.broker.gateways[g], None), s.gateways[g].toBroker, u, c)
  }

  ghost predicate ShownWithin(s: Net, g: GatewayId, c: ClientId, home: Homes)
    requires Attached(s, g)
  {
    forall u :: home(u) == g ==> RepWithin(Prospect(s, g, c, u), s.gateways[g].nodes, s.relics, g, u)
  }

  ghost predicate NoGapShown(s: Net, g: GatewayId, c: ClientId, home: Homes)
    requires Linked(s, g, c)
  {
    forall u :: home(u) == g ==> RepGaps(Final(s, g, c, u), s.gaps, g, c, u)
  }

  ghost predicate ShownComplete(s: Net, g: GatewayId, c: ClientId, home: Homes)
    requires Linked(s, g, c)
  {
    forall u :: home(u) == g ==> RepComplete(Final(s, g, c, u), s.gateways[g].nodes, s.gaps, g, c, u)
  }

  ghost predicate CleanCache(nodes: Cache) {
    forall u :: u in nodes.vals ==> Clean(nodes.vals[u])
  }

  ghost predicate GapsOfRegistered(s: Net) {
    forall t :: t in s.gaps ==> t.1 in s.broker.clients
  }

  ghost predicate Faithful(s: Net, home: Homes) {
    && GapsOfRegistered(s)
    && (forall g :: g in s.gateways ==> CleanCache(s.gateways[g].nodes))
    && (forall g, c :: Attached(s, g) && s.gateways[g].phase == Up ==> ShownWithin(s, g, c, home))
    && (forall g, c :: Linked(s, g, c) && s.gateways[g].phase == Up ==>
          NoGapShown(s, g, c, home) && (JoinPending(s, g, c) || ShownComplete(s, g, c, home)))
  }

  /** Resource names carry no leading slash, and no discovery forwards for a replaced node object. */
  ghost predicate Disciplined(a: Action) {
    match a
    case Add(_, res) => Clean(res)
    case Forward(_, resource, _) => Bare(resource)
    case StaleForward(_, _, _) => false
    case Restart(_, res) => Clean(res)
    case Remove(_) => true
    case KeepAlive => true
    case Serve(_) => true
  }

  lemma {:induction false} PutFromClean(d: Resources, more: Resources, from: nat)
    requires d.Valid() && more.Valid() && from <= |more.keys| && Clean(d) && Clean(more)
    ensures Clean(PutFrom(d, more, from))
    decreases |more.keys| - from
  {
    if from < |more.keys| {
      PutFromClean(d.Put(more.keys[from], more.vals[more.keys[from]]), more, from + 1);
    }
  }

  lemma ActKeepsClean(gw: GatewayState, a: Action)
    requires CanAct(gw, a) && Disciplined(a) && CleanCache(gw.nodes)
    ensures CleanCache(Act(gw, a).nodes)
  {
    if a.Restart? {
      PutFromClean(Empty<string, string>().Put("protocol", gw.protocol), a.res, 0);
      CleanAfterPut(gw.nodes, a.uid, ResetResources(gw.protocol, a.res));
    } else if a.Add? {
      CleanAfterPut(gw.nodes, a.uid, Labelled(gw.protocol, a.res));
    } else if a.Forward? {
      CleanAfterPut(gw.nodes, a.uid, gw.nodes.vals[a.uid].Put(a.resource, a.value));
    }
  }

  lemma CleanAfterPut(nodes: Cache, uid: Uid, res: Resources)
    requires CleanCache(nodes) && Clean(res)
    ensures CleanCache(nodes.Put(uid, res))
  {
  }

  // ---------------------------------------------------------------------------------------
  // Actions

  /** What is shown once a node has been described: the description over what was shown before. */
  lemma DescribedMerges(rep: Rep, res: Resources, dst: Dst, c: ClientId)
    requires res.Valid() && Clean(res) && Messages.Reaches(dst, c)
    ensures Described(rep, res, dst, c) == Rep(true, Some((if rep.shown.Some? then rep.shown.value else map[]) + res.vals))
  {
    OverlayMerges(if rep.shown.Some? then rep.shown.value else map[], res);
  }

  /** An action seen from one client and one node: the replay, the cached resources if any, the gaps and
      the relics, before and after. */
  datatype Turn = Turn(gw: GatewayState, a: Action, rep: Rep, gaps: set<Gap>, registered: set<ClientId>, relics: set<Relic>)
  {
    ghost predicate Valid(g: GatewayId, c: ClientId, u: Uid) {
      && CanAct(gw, a) && Disciplined(a) && CleanCache(gw.nodes)
      && (rep.own <==> u in gw.nodes.vals) && RepWithin(rep, gw.nodes, relics, g, u)
    }

    function Nodes(): Cache
      requires CanAct(gw, a)
    {
      Act(gw, a).nodes
    }

    function Seen(c: ClientId, u: Uid): Rep
      requires CanAct(gw, a)
    {
      SentEffect(gw, a, rep, u, c)
    }

    function Gaps(g: GatewayId): set<Gap>
      requires CanAct(gw, a)
    {
      GapsAfter(gaps, registered, g, gw, a)
    }

    function Relics(g: GatewayId): set<Relic>
      requires CanAct(gw, a)
    {
      RelicsAfter(relics, g, gw, a)
    }

    ghost predicate KeepsWithin(g: GatewayId, c: ClientId, u: Uid)
      requires CanAct(gw, a)
    {
      RepWithin(Seen(c, u), Nodes(), Relics(g), g, u)
    }

    ghost predicate KeepsGaps(g: GatewayId, c: ClientId, u: Uid)
      requires CanAct(gw, a)
    {
      RepGaps(rep, gaps, g, c, u) ==> RepGaps(Seen(c, u), Gaps(g), g, c, u)
    }

    ghost predicate KeepsComplete(g: GatewayId, c: ClientId, u: Uid)
      requires CanAct(gw, a)
    {
      a == Serve(Join(c)) || RepComplete(rep, gw.nodes, gaps, g, c, u) ==> RepComplete(Seen(c, u), Nodes(), Gaps(g), g, c, u)
    }

    lemma OnAdd(g: GatewayId, c: ClientId, u: Uid)
      requires Valid(g, c, u) && a.Add?
      ensures KeepsWithin(g, c, u) && KeepsGaps(g, c, u) && KeepsComplete(g, c, u)
    {
      if a.uid == u {
        AddedIsShown(g, c, u);
      } else {
        assert Seen(c, u) == rep;
      }
    }

    lemma AddedIsShown(g: GatewayId, c: ClientId, u: Uid)
      requires Valid(g, c, u) && a.Add? && a.uid == u
      ensures KeepsWithin(g, c, u) && KeepsGaps(g, c, u) && KeepsComplete(g, c, u)
    {
      var res := Labelled(gw.protocol, a.res);
      assert Nodes().vals[u] == res;
      DescribedMerges(rep, res, All, c);
      var shown := if rep.shown.Some? then rep.shown.value else map[];
      assert Seen(c, u) == Rep(true, Some(shown + res.vals));
      forall r | r in shown && r !in res.vals ensures (g, u, r) in Relics(g) {
        if r in gw.nodes.vals[u].vals {
          assert (g, u, r) in Relics(g);
        }
      }
    }

    lemma OnForward(g: GatewayId, c: ClientId, u: Uid)
      requires Valid(g, c, u) && a.Forward?
      ensures KeepsWithin(g, c, u) && KeepsGaps(g, c, u) && KeepsComplete(g, c, u)
    {
      if a.uid == u && rep.shown.Some? {
        assert Seen(c, u).shown == Some(rep.shown.value[a.resource := a.value]);
        assert Nodes().vals[u].vals == gw.nodes.vals[u].vals[a.resource := a.value];
      } else {
        assert Seen(c, u) == rep;
      }
    }

    lemma OnRestart(g: GatewayId, c: ClientId, u: Uid)
      requires Valid(g, c, u) && a.Restart?
      ensures KeepsWithin(g, c, u) && KeepsGaps(g, c, u)
      ensures c in registered ==> KeepsComplete(g, c, u)
    {
      if a.uid == u {
        assert Seen(c, u).shown == if rep.shown.Some? then Some(map[]) else None;
        assert Nodes().vals[u] == ResetResources(gw.protocol, a.res);
        assert c in registered ==> forall r :: r in Nodes().vals[u].vals ==> (g, c, u, r) in Gaps(g);
      } else {
        assert Seen(c, u) == rep;
      }
    }

    lemma OnRemove(g: GatewayId, c: ClientId, u: Uid)
      requires Valid(g, c, u) && a.Remove?
      ensures KeepsWithin(g, c, u) && KeepsGaps(g, c, u) && KeepsComplete(g, c, u)
    {
    }

    lemma OnServe(g: GatewayId, c: ClientId, u: Uid)
      requires Valid(g, c, u) && (a.Serve? || a.KeepAlive?)
      ensures KeepsWithin(g, c, u) && KeepsGaps(g, c, u) && KeepsComplete(g, c, u)
    {
      assert Nodes() == gw.nodes && Relics(g) == relics;
      if a == Serve(Join(c)) {
        if u in gw.nodes.vals {
          DescribedMerges(rep, gw.nodes.vals[u], One(c), c);
        }
      } else {
        assert Seen(c, u).shown == rep.shown;
      }
    }

    /** No action lets a client show what is not cached, short of a relic; no gap comes to be shown; and
        a registered client that was told of everything but the gaps still is. */
    lemma Keeps(g: GatewayId, c: ClientId, u: Uid)
      requires Valid(g, c, u)
      ensures KeepsWithin(g, c, u) && KeepsGaps(g, c, u)
      ensures c in registered ==> KeepsComplete(g, c, u)
    {
      match a {
        case Add(_, _) => OnAdd(g, c, u);
        case Forward(_, _, _) => OnForward(g, c, u);
        case Restart(_, _) => OnRestart(g, c, u);
        case Remove(_) => OnRemove(g, c, u);
        case KeepAlive => OnServe(g, c, u);
        case Serve(_) => OnServe(g, c, u);
      }
    }
  }

  // ---------------------------------------------------------------------------------------
  // Steps

  ghost predicate DisciplinedStep(step: Step) {
    step.Local? ==> Disciplined(step.action)
  }

  /** The strong invariant: convergence of what is shown, and of what is shown about it. */
  ghost predicate Mirrored(s: Net, home: Homes) {
    Converging(s, home) && Faithful(s, home)
  }

  lemma CleanKept(s: Net, step: Step, home: Homes, g: GatewayId)
    requires Mirrored(s, home) && Enabled(s, step) && DisciplinedStep(step)
    requires g in Apply(s, step).gateways
    ensures CleanCache(Apply(s, step).gateways[g].nodes)
  {
    if !Touches(step, g) {
      OtherLinksUntouched(s, step, g);
    } else if step.Local? {
      ActKeepsClean(s.gateways[g], step.action);
    } else {
      CacheOnlyByAction(s, step, g);
    }
  }

  lemma CacheOnlyByAction(s: Net, step: Step, g: GatewayId)
    requires WellFormed(s) && Enabled(s, step) && !step.Local? && g in Apply(s, step).gateways
    ensures g in s.gateways && Apply(s, step).gateways[g].nodes == s.gateways[g].nodes
  {
    if !Touches(step, g) {
      OtherLinksUntouched(s, step, g);
    }
  }

  /** `a` shows no more than `b` does. */
  predicate Below(a: Rep, b: Rep) {
    && a.own == b.own
    && (a.shown.Some? ==> b.shown.Some? && forall r :: r in a.shown.value ==>
          r in b.shown.value && a.shown.value[r] == b.shown.value[r])
  }

  lemma {:induction false} ReplayKeepsBelow(a: Rep, b: Rep, ms: seq<Message>, u: Uid, c: ClientId)
    requires Below(a, b)
    ensures Below(ReplayAll(a, ms, u, c), ReplayAll(b, ms, u, c))
    decreases |ms|
  {
    if ms != [] {
      ReplayKeepsBelow(StepRep(a, ms[0], u, c), StepRep(b, ms[0], u, c), ms[1..], u, c);
    }
  }

  lemma ProspectAfterAction(s: Net, step: Step, g: GatewayId, a: Action, c: ClientId, u: Uid)
    requires WellFormed(s) && Enabled(s, step) && Attached(s, g)
    requires step == Local(g, a) || (step == ToGateway(g) && a == Serve(s.broker.toGateways[g][0]))
    requires s.gateways[g].phase == Up
    ensures Attached(Apply(s, step), g)
    ensures Prospect(Apply(s, step), g, c, u) == SentEffect(s.gateways[g], a, Prospect(s, g, c, u), u, c)
  {
    if Linked(s, g, c) {
      FinalAfterAction(s, step, g, a, c, u);
    } else {
      var gw := s.gateways[g];
      var rep := Rep(u in s.broker.gateways[g], None);
      ActSends(gw, a);
      ReplayAppend(rep, gw.toBroker, Sent(gw, a), u, c);
      ReplaySent(gw, a, ReplayAll(rep, gw.toBroker, u, c), u, c);
    }
  }

  lemma ProspectIsCached(s: Net, g: GatewayId, c: ClientId, u: Uid)
    requires Safe(s) && Attached(s, g) && s.gateways[g].phase == Up
    ensures Prospect(s, g, c, u).own <==> u in s.gateways[g].nodes.vals
  {
    var none := Rep(u in s.broker.gateways[g], None);
    OwnIgnoresShown(none, none, s.gateways[g].toBroker, u, c, "");
    if Linked(s, g, c) {
      OwnIgnoresShown(RepNow(s, g, c, u), none, s.gateways[g].toBroker, u, c, "");
    }
  }

  lemma ProspectShrinksByDelivery(s: Net, g: GatewayId, c: ClientId, u: Uid)
    requires WellFormed(s) && Enabled(s, ToBroker(g)) && Attached(s, g)
    ensures Attached(Apply(s, ToBroker(g)), g)
    ensures Below(Prospect(Apply(s, ToBroker(g)), g, c, u), Prospect(s, g, c, u))
  {
    if Linked(s, g, c) {
      FinalAfterDelivery(s, g, c, u);
    } else {
      UnlinkedProspectShrinks(s, g, c, u);
    }
  }

  lemma UnlinkedProspectShrinks(s: Net, g: GatewayId, c: ClientId, u: Uid)
    requires WellFormed(s) && Enabled(s, ToBroker(g)) && Attached(s, g) && !Linked(s, g, c)
    ensures Attached(Apply(s, ToBroker(g)), g)
    ensures Below(Prospect(Apply(s, ToBroker(g)), g, c, u), Prospect(s, g, c, u))
  {
    var m := s.gateways[g].toBroker[0];
    if m.Out? {
      RemoveFirstErases(s.broker.gateways[g], m.uid);
    }
    var before := StepRep(Rep(u in s.broker.gateways[g], None), m, u, c);
    assert !Linked(Apply(s, ToBroker(g)), g, c);
    ReplayKeepsBelow(Rep(before.own, None), before, s.gateways[g].toBroker[1..], u, c);
  }

  lemma ProspectShrinksElsewhere(s: Net, step: Step, g: GatewayId, c: ClientId, u: Uid, home: Homes)
    requires WellFormed(s) && Homed(s, home) && Enabled(s, step) && home(u) == g && !Touches(step, g)
    requires Attached(s, g) && Attached(Apply(s, step), g)
    ensures Below(Prospect(Apply(s, step), g, c, u), Prospect(s, g, c, u))
  {
    OtherLinksUntouched(s, step, g);
    var none := Rep(u in s.broker.gateways[g], None);
    var queue := s.gateways[g].toBroker;
    if Linked(Apply(s, step), g, c) {
      if Linked(s, g, c) {
        FinalElsewhere(s, step, g, c, u, home);
      } else {
        LateClientShowsNothing(s, step, g, c);
      }
    } else if Linked(s, g, c) {
      ReplayKeepsBelow(none, RepNow(s, g, c, u), queue, u, c);
    }
  }

  /** Moving messages along, and clients coming and going, never add to what a client may come to
      show. */
  lemma ProspectShrinks(s: Net, step: Step, g: GatewayId, c: ClientId, u: Uid, home: Homes)
    requires WellFormed(s) && Homed(s, home) && Enabled(s, step) && home(u) == g
    requires !Touches(step, g) || step == ToBroker(g)
    requires Attached(s, g) && Attached(Apply(s, step), g)
    ensures Below(Prospect(Apply(s, step), g, c, u), Prospect(s, g, c, u))
    ensures Apply(s, step).gateways[g].nodes == s.gateways[g].nodes
  {
    if step == ToBroker(g) {
      ProspectShrinksByDelivery(s, g, c, u);
    } else {
      OtherLinksUntouched(s, step, g);
      ProspectShrinksElsewhere(s, step, g, c, u, home);
    }
  }

  lemma LateClientShowsNothing(s: Net, step: Step, g: GatewayId, c: ClientId)
    requires WellFormed(s) && Enabled(s, step)
    requires Attached(s, g) && !Linked(s, g, c) && Linked(Apply(s, step), g, c)
    ensures Drained(Apply(s, step), c) == map[]
  {
  }

  lemma WithinIsDownwardClosed(a: Rep, b: Rep, nodes: Cache, relics: set<Relic>, g: GatewayId, u: Uid)
    requires Below(a, b) && RepWithin(b, nodes, relics, g, u)
    ensures RepWithin(a, nodes, relics, g, u)
  {
  }

  /** What gateway `g` does, seen from `c` and `u`. */
  ghost function TurnOf(s: Net, g: GatewayId, a: Action, c: ClientId, u: Uid): Turn
    requires Attached(s, g)
  {
    Turn(s.gateways[g], a, Prospect(s, g, c, u), s.gaps, s.broker.clients.Keys, s.relics)
  }

  /** What has become of `u` for `c`, and of the history. */
  ghost predicate TurnedInto(s': Net, g: GatewayId, turn: Turn, c: ClientId, u: Uid) {
    && CanAct(turn.gw, turn.a) && Attached(s', g) && Prospect(s', g, c, u) == turn.Seen(c, u)
    && s'.gateways[g].nodes == turn.Nodes() && s'.gaps == turn.Gaps(g) && s'.relics == turn.Relics(g)
  }

  lemma TurnIsValid(s: Net, step: Step, g: GatewayId, a: Action, c: ClientId, u: Uid, home: Homes)
    requires Mirrored(s, home) && Enabled(s, step) && Attached(s, g) && home(u) == g
    requires step == Local(g, a) || (step == ToGateway(g) && a == Serve(s.broker.toGateways[g][0]))
    requires s.gateways[g].phase == Up && Disciplined(a)
    ensures TurnOf(s, g, a, c, u).Valid(g, c, u) && TurnedInto(Apply(s, step), g, TurnOf(s, g, a, c, u), c, u)
  {
    CanActInStep(s, step, g, a);
    TurnBefore(s, g, a, c, u, home);
    TurnAfter(s, step, g, a, c, u);
  }

  lemma TurnBefore(s: Net, g: GatewayId, a: Action, c: ClientId, u: Uid, home: Homes)
    requires Mirrored(s, home) && Attached(s, g) && home(u) == g && s.gateways[g].phase == Up
    requires CanAct(s.gateways[g], a) && Disciplined(a)
    ensures TurnOf(s, g, a, c, u).Valid(g, c, u)
  {
    assert ShownWithin(s, g, c, home) && CleanCache(s.gateways[g].nodes);
    ProspectIsCached(s, g, c, u);
  }

  lemma TurnAfter(s: Net, step: Step, g: GatewayId, a: Action, c: ClientId, u: Uid)
    requires WellFormed(s) && Enabled(s, step) && Attached(s, g) && s.gateways[g].phase == Up && CanAct(s.gateways[g], a)
    requires step == Local(g, a) || (step == ToGateway(g) && a == Serve(s.broker.toGateways[g][0]))
    ensures TurnedInto(Apply(s, step), g, TurnOf(s, g, a, c, u), c, u)
  {
    ProspectAfterAction(s, step, g, a, c, u);
  }

  lemma CanActInStep(s: Net, step: Step, g: GatewayId, a: Action)
    requires WellFormed(s) && Enabled(s, step)
    requires step == Local(g, a) || (step == ToGateway(g) && a == Serve(s.broker.toGateways[g][0]))
    ensures CanAct(s.gateways[g], a)
  {
    assert WellFormedGateway(s, g);
  }

  lemma WithinAfterAction(s: Net, step: Step, g: GatewayId, a: Action, c: ClientId, home: Homes)
    requires Mirrored(s, home) && Enabled(s, step) && Attached(s, g)
    requires step == Local(g, a) || (step == ToGateway(g) && a == Serve(s.broker.toGateways[g][0]))
    requires s.gateways[g].phase == Up && Disciplined(a)
    ensures Attached(Apply(s, step), g) && ShownWithin(Apply(s, step), g, c, home)
  {
    assert Attached(Apply(s, step), g);
    forall u | home(u) == g
      ensures RepWithin(Prospect(Apply(s, step), g, c, u), Apply(s, step).gateways[g].nodes, Apply(s, step).relics, g, u)
    {
      TurnIsValid(s, step, g, a, c, u, home);
      TurnOf(s, g, a, c, u).Keeps(g, c, u);
    }
  }

  lemma GapsAfterAction(s: Net, step: Step, g: GatewayId, a: Action, c: ClientId, home: Homes)
    requires Mirrored(s, home) && Enabled(s, step) && Linked(s, g, c) && Linked(Apply(s, step), g, c)
    requires step == Local(g, a) || (step == ToGateway(g) && a == Serve(s.broker.toGateways[g][0]))
    requires s.gateways[g].phase == Up && Disciplined(a)
    ensures NoGapShown(Apply(s, step), g, c, home)
    ensures a == Serve(Join(c)) || ShownComplete(s, g, c, home) ==> ShownComplete(Apply(s, step), g, c, home)
  {
    assert NoGapShown(s, g, c, home);
    forall u | home(u) == g
      ensures RepGaps(Final(Apply(s, step), g, c, u), Apply(s, step).gaps, g, c, u)
      ensures a == Serve(Join(c)) || ShownComplete(s, g, c, home) ==>
        RepComplete(Final(Apply(s, step), g, c, u), Apply(s, step).gateways[g].nodes, Apply(s, step).gaps, g, c, u)
    {
      TurnIsValid(s, step, g, a, c, u, home);
      TurnOf(s, g, a, c, u).Keeps(g, c, u);
    }
  }

  lemma NothingShownYet(s: Net, g: GatewayId, c: ClientId, u: Uid, home: Homes)
    requires Mirrored(s, home) && Enabled(s, Connected(g)) && Attached(s, g) && home(u) == g
    ensures Linked(s, g, c) ==> RepNow(s, g, c, u) == Rep(false, None)
    ensures s.broker.gateways[g] == [] && s.gateways[g].toBroker == []
  {
    assert WellFormedGateway(s, g);
    if Linked(s, g, c) {
      ShownOnlyByHome(s, g, c, u, home);
    }
  }

  lemma UnlinkedAfterConnected(s: Net, g: GatewayId, c: ClientId, u: Uid)
    requires WellFormed(s) && Enabled(s, Connected(g)) && Attached(s, g) && !Linked(s, g, c)
    requires s.broker.gateways[g] == [] && s.gateways[g].toBroker == []
    ensures var s' := Apply(s, Connected(g)); var nodes := s.gateways[g].nodes;
      && Attached(s', g) && !Linked(s', g, c) && ValidCache(nodes)
      && Prospect(s', g, c, u) == if u in nodes.vals then Described(Rep(false, None), nodes.vals[u], All, c) else Rep(false, None)
  {
    var nodes, s' := s.gateways[g].nodes, Apply(s, Connected(g));
    assert WellFormedGateway(s, g);
    ReplaySnapshot(Rep(false, None), nodes, 0, All, u, c);
    assert nodes.keys[0..] == nodes.keys;
    assert s'.gateways[g].toBroker == [] + Snapshot(nodes, 0, All) == Snapshot(nodes, 0, All);
  }

  lemma FirstDescription(nodes: Cache, c: ClientId, u: Uid)
    requires ValidCache(nodes) && CleanCache(nodes) && u in nodes.vals
    ensures Described(Rep(false, None), nodes.vals[u], All, c) == Rep(true, Some(nodes.vals[u].vals))
  {
    DescribedMerges(Rep(false, None), nodes.vals[u], All, c);
    assert map[] + nodes.vals[u].vals == nodes.vals[u].vals;
  }

  /** A connection leaves every client to be told all there is of the gateway's nodes. */
  lemma ProspectAfterConnected(s: Net, g: GatewayId, c: ClientId, u: Uid, home: Homes)
    requires Mirrored(s, home) && Enabled(s, Connected(g)) && Attached(s, g) && home(u) == g
    ensures var s' := Apply(s, Connected(g)); var nodes := s.gateways[g].nodes;
      && Attached(s', g) && (Linked(s', g, c) <==> Linked(s, g, c))
      && Prospect(s', g, c, u) == if u in nodes.vals then Rep(true, Some(nodes.vals[u].vals)) else Rep(false, None)
  {
    var nodes := s.gateways[g].nodes;
    assert WellFormedGateway(s, g) && CleanCache(nodes);
    NothingShownYet(s, g, c, u, home);
    if u in nodes.vals {
      FirstDescription(nodes, c, u);
    }
    if Linked(s, g, c) {
      LinkedAfterConnected(s, g, c, u);
    } else {
      UnlinkedAfterConnected(s, g, c, u);
    }
  }

  lemma LinkedAfterConnected(s: Net, g: GatewayId, c: ClientId, u: Uid)
    requires WellFormed(s) && Enabled(s, Connected(g)) && Linked(s, g, c) && RepNow(s, g, c, u) == Rep(false, None)
    ensures var s' := Apply(s, Connected(g)); var nodes := s.gateways[g].nodes;
      && Attached(s', g) && Linked(s', g, c) && ValidCache(nodes)
      && Prospect(s', g, c, u) == if u in nodes.vals then Described(Rep(false, None), nodes.vals[u], All, c) else Rep(false, None)
  {
    assert WellFormedGateway(s, g);
    FinalAfterConnected(s, g, c, u);
  }

  lemma WithinAfterConnected(s: Net, g: GatewayId, c: ClientId, home: Homes)
    requires Mirrored(s, home) && Enabled(s, Connected(g)) && Attached(s, g)
    ensures Attached(Apply(s, Connected(g)), g) && ShownWithin(Apply(s, Connected(g)), g, c, home)
  {
    assert Attached(Apply(s, Connected(g)), g);
    forall u | home(u) == g
      ensures RepWithin(Prospect(Apply(s, Connected(g)), g, c, u), s.gateways[g].nodes, Apply(s, Connected(g)).relics, g, u)
    {
      ProspectAfterConnected(s, g, c, u, home);
    }
  }

  lemma GapsAfterConnected(s: Net, g: GatewayId, c: ClientId, home: Homes)
    requires Mirrored(s, home) && Enabled(s, Connected(g)) && Linked(s, g, c)
    ensures var s' := Apply(s, Connected(g));
      Linked(s', g, c) && NoGapShown(s', g, c, home) && ShownComplete(s', g, c, home)
  {
    var s' := Apply(s, Connected(g));
    assert Linked(s', g, c) && forall u, r :: (g, c, u, r) !in s'.gaps;
    forall u | home(u) == g
      ensures RepGaps(Final(s', g, c, u), s'.gaps, g, c, u)
      ensures RepComplete(Final(s', g, c, u), s'.gateways[g].nodes, s'.gaps, g, c, u)
    {
      ProspectAfterConnected(s, g, c, u, home);
    }
  }

  /** The history of one gateway is written only by itself, and by clients that leave. */
  lemma HistoryElsewhere(s: Net, step: Step, g: GatewayId)
    requires WellFormed(s) && Enabled(s, step) && (!Touches(step, g) || step == ToBroker(g))
    ensures forall u, r :: (g, u, r) in Apply(s, step).relics <==> (g, u, r) in s.relics
    ensures forall c, u, r :: (g, c, u, r) in Apply(s, step).gaps <==> (g, c, u, r) in s.gaps && step != ClientClose(c)
  {
    if step.Local? || step.ToGateway? {
      ActionHistoryElsewhere(s, step, g);
    }
  }

  lemma ActionHistoryElsewhere(s: Net, step: Step, g: GatewayId)
    requires WellFormed(s) && Enabled(s, step) && (step.Local? || step.ToGateway?) && step.g != g
    ensures forall u, r :: (g, u, r) in Apply(s, step).relics <==> (g, u, r) in s.relics
    ensures forall c, u, r :: (g, c, u, r) in Apply(s, step).gaps <==> (g, c, u, r) in s.gaps
  {
  }

  lemma WithinElsewhere(s: Net, step: Step, g: GatewayId, c: ClientId, home: Homes)
    requires Mirrored(s, home) && Enabled(s, step) && (!Touches(step, g) || step == ToBroker(g))
    requires Attached(s, g) && Attached(Apply(s, step), g) && ShownWithin(s, g, c, home)
    ensures ShownWithin(Apply(s, step), g, c, home)
  {
    var s' := Apply(s, step);
    HistoryElsewhere(s, step, g);
    forall u | home(u) == g
      ensures RepWithin(Prospect(s', g, c, u), s'.gateways[g].nodes, s'.relics, g, u)
    {
      ProspectShrinks(s, step, g, c, u, home);
      WithinIsDownwardClosed(Prospect(s', g, c, u), Prospect(s, g, c, u), s.gateways[g].nodes, s.relics, g, u);
    }
  }

  lemma FinalKeptElsewhere(s: Net, step: Step, g: GatewayId, c: ClientId, u: Uid, home: Homes)
    requires Mirrored(s, home) && Enabled(s, step) && (!Touches(step, g) || step == ToBroker(g)) && home(u) == g
    requires Linked(s, g, c) && Linked(Apply(s, step), g, c)
    ensures Final(Apply(s, step), g, c, u) == Final(s, g, c, u)
    ensures Apply(s, step).gateways[g].nodes == s.gateways[g].nodes
  {
    if step == ToBroker(g) {
      FinalAfterDelivery(s, g, c, u);
    } else {
      FinalElsewhere(s, step, g, c, u, home);
    }
  }

  lemma GapsElsewhere(s: Net, step: Step, g: GatewayId, c: ClientId, home: Homes)
    requires Mirrored(s, home) && Enabled(s, step) && (!Touches(step, g) || step == ToBroker(g))
    requires Linked(s, g, c) && Linked(Apply(s, step), g, c) && s.gateways[g].phase == Up
    ensures NoGapShown(Apply(s, step), g, c, home)
    ensures ShownComplete(s, g, c, home) ==> ShownComplete(Apply(s, step), g, c, home)
  {
    var s' := Apply(s, step);
    assert NoGapShown(s, g, c, home);
    HistoryElsewhere(s, step, g);
    forall u | home(u) == g
      ensures RepGaps(Final(s', g, c, u), s'.gaps, g, c, u)
      ensures ShownComplete(s, g, c, home) ==> RepComplete(Final(s', g, c, u), s'.gateways[g].nodes, s'.gaps, g, c, u)
    {
      FinalKeptElsewhere(s, step, g, c, u, home);
    }
  }

  lemma AttachedOrigin(s: Net, step: Step, g: GatewayId)
    requires WellFormed(s) && Enabled(s, step)
    requires Attached(Apply(s, step), g) && Apply(s, step).gateways[g].phase == Up
    ensures Attached(s, g) && (s.gateways[g].phase == Up || step == Connected(g))
    ensures Touches(step, g) ==> step.Local? || step.ToGateway? || step.ToBroker? || step.Connected?
  {
    if !Touches(step, g) {
      OtherLinksUntouched(s, step, g);
    } else if step.Local? {
      ActSends(s.gateways[g], step.action);
    } else if step.ToGateway? {
      ActSends(s.gateways[g], Serve(s.broker.toGateways[g][0]));
    }
  }

  lemma WithinKept(s: Net, step: Step, g: GatewayId, c: ClientId, home: Homes)
    requires Mirrored(s, home) && Enabled(s, step) && DisciplinedStep(step)
    requires Attached(Apply(s, step), g) && Apply(s, step).gateways[g].phase == Up
    ensures ShownWithin(Apply(s, step), g, c, home)
  {
    AttachedOrigin(s, step, g);
    if step == Connected(g) {
      WithinAfterConnected(s, g, c, home);
    } else if !Touches(step, g) || step == ToBroker(g) {
      assert ShownWithin(s, g, c, home);
      WithinElsewhere(s, step, g, c, home);
    } else if step.Local? {
      WithinAfterAction(s, step, g, step.action, c, home);
    } else {
      WithinAfterAction(s, step, g, Serve(s.broker.toGateways[g][0]), c, home);
    }
  }

  /** The part of `Faithful` that concerns one registered client. */
  ghost predicate Informed(s: Net, g: GatewayId, c: ClientId, home: Homes)
    requires Linked(s, g, c)
  {
    NoGapShown(s, g, c, home) && (JoinPending(s, g, c) || ShownComplete(s, g, c, home))
  }

  lemma InformedOnRegistration(s: Net, step: Step, g: GatewayId, c: ClientId, home: Homes)
    requires Mirrored(s, home) && Enabled(s, step) && c !in s.broker.clients && g in s.broker.gateways
    requires Linked(Apply(s, step), g, c)
    ensures Informed(Apply(s, step), g, c, home)
  {
    RegisteredWithRequest(s, step, g, c);
    NoGapsYet(s, step, g, c);
  }

  lemma NoGapsYet(s: Net, step: Step, g: GatewayId, c: ClientId)
    requires WellFormed(s) && Enabled(s, step) && GapsOfRegistered(s)
    requires c !in s.broker.clients && c in Apply(s, step).broker.clients
    ensures forall u, r :: (g, c, u, r) !in Apply(s, step).gaps
  {
    RegisteredBy(s, step, c);
    assert Apply(s, step).gaps == s.gaps;
    forall u, r ensures (g, c, u, r) !in s.gaps {
      assert (g, c, u, r) in s.gaps ==> (g, c, u, r).1 in s.broker.clients;
    }
  }

  lemma InformedAfterToGateway(s: Net, g: GatewayId, c: ClientId, home: Homes)
    requires Mirrored(s, home) && Enabled(s, ToGateway(g)) && Linked(s, g, c)
    ensures Linked(Apply(s, ToGateway(g)), g, c) && Informed(Apply(s, ToGateway(g)), g, c, home)
  {
    var queue := s.broker.toGateways[g];
    assert Linked(Apply(s, ToGateway(g)), g, c);
    GapsAfterAction(s, ToGateway(g), g, Serve(queue[0]), c, home);
    if queue[0] != Join(c) && !ShownComplete(s, g, c, home) {
      StillWaiting(s, g, c);
    }
  }

  lemma InformedAfterLocal(s: Net, step: Step, g: GatewayId, c: ClientId, home: Homes)
    requires Mirrored(s, home) && Enabled(s, step) && DisciplinedStep(step) && step.Local? && step.g == g
    requires Linked(s, g, c) && Linked(Apply(s, step), g, c) && s.gateways[g].phase == Up
    ensures Informed(Apply(s, step), g, c, home)
  {
    GapsAfterAction(s, step, g, step.action, c, home);
    if JoinPending(s, g, c) {
      PendingKept(s, step, g, c);
    }
  }

  lemma InformedElsewhere(s: Net, step: Step, g: GatewayId, c: ClientId, home: Homes)
    requires Mirrored(s, home) && Enabled(s, step) && (!Touches(step, g) || step == ToBroker(g))
    requires Linked(s, g, c) && Linked(Apply(s, step), g, c) && s.gateways[g].phase == Up
    ensures Informed(Apply(s, step), g, c, home)
  {
    GapsElsewhere(s, step, g, c, home);
    PendingElsewhere(s, step, g, c);
  }

  lemma PendingElsewhere(s: Net, step: Step, g: GatewayId, c: ClientId)
    requires WellFormed(s) && Enabled(s, step) && (!Touches(step, g) || step == ToBroker(g))
    ensures JoinPending(s, g, c) ==> JoinPending(Apply(s, step), g, c)
  {
    if JoinPending(s, g, c) {
      PendingKept(s, step, g, c);
    }
  }

  lemma InformedKept(s: Net, step: Step, g: GatewayId, c: ClientId, home: Homes)
    requires Mirrored(s, home) && Enabled(s, step) && DisciplinedStep(step)
    requires Linked(Apply(s, step), g, c) && Apply(s, step).gateways[g].phase == Up
    ensures Informed(Apply(s, step), g, c, home)
  {
    AttachedOrigin(s, step, g);
    LinkOrigin(s, step, g, c);
    if c !in s.broker.clients {
      InformedOnRegistration(s, step, g, c, home);
    } else if step == Connected(g) {
      GapsAfterConnected(s, g, c, home);
    } else if step == ToGateway(g) {
      InformedAfterToGateway(s, g, c, home);
    } else if step.Local? && step.g == g {
      InformedAfterLocal(s, step, g, c, home);
    } else {
      InformedElsewhere(s, step, g, c, home);
    }
  }

  lemma GapsOfRegisteredKept(s: Net, step: Step)
    requires WellFormed(s) && Enabled(s, step) && GapsOfRegistered(s)
    ensures GapsOfRegistered(Apply(s, step))
  {
    forall t | t in Apply(s, step).gaps
      ensures t.1 in Apply(s, step).broker.clients
    {
      GapStep(s, step, t);
      StaysRegistered(s, step, t.1);
    }
  }

  lemma StaysRegistered(s: Net, step: Step, c: ClientId)
    requires WellFormed(s) && Enabled(s, step) && c in s.broker.clients && step != ClientClose(c)
    ensures c in Apply(s, step).broker.clients
  {
    if step.ToBroker? {
      assert Apply(s, step).broker.clients.Keys == s.broker.clients.Keys;
    } else if step.Local? || step.ToGateway? || step.Connected? || step.ConnectionLost? {
      assert Apply(s, step).broker.clients == s.broker.clients;
    }
  }

  lemma MirroredKept(s: Net, step: Step, home: Homes)
    requires Mirrored(s, home) && Enabled(s, step) && HomedStep(step, home) && DisciplinedStep(step)
    ensures Mirrored(Apply(s, step), home)
  {
    ConvergingKept(s, step, home);
    GapsOfRegisteredKept(s, step);
    var s' := Apply(s, step);
    forall g | g in s'.gateways
      ensures CleanCache(s'.gateways[g].nodes)
    {
      CleanKept(s, step, home, g);
    }
    forall g, c | Attached(s', g) && s'.gateways[g].phase == Up
      ensures ShownWithin(s', g, c, home)
    {
      WithinKept(s, step, g, c, home);
    }
    forall g, c | Linked(s', g, c) && s'.gateways[g].phase == Up
      ensures NoGapShown(s', g, c, home) && (JoinPending(s', g, c) || ShownComplete(s', g, c, home))
    {
      InformedKept(s, step, g, c, home);
    }
  }

  // ---------------------------------------------------------------------------------------
  // Runs

  ghost predicate DisciplinedRun(run: seq<Step>) {
    forall i :: 0 <= i < |run| ==> DisciplinedStep(run[i])
  }

  lemma NothingMirrored(s: Net, home: Homes)
    requires Initial(s)
    ensures Mirrored(s, home)
  {
  }

  lemma {:induction false} AlwaysMirrored(init: Net, run: seq<Step>, s: Net, home: Homes)
    requires Initial(init) && ReachedBy(init, run, s) && HomedRun(run, home) && DisciplinedRun(run)
    ensures Mirrored(s, home)
    decreases |run|
  {
    if run == [] {
      NothingMirrored(s, home);
    } else {
      var last := |run| - 1;
      var mid := LastStep(init, run, s);
      AlwaysMirrored(init, run[..last], mid, home);
      MirroredKept(mid, run[last], home);
    }
  }

  /** What a client shows of a cached node: exactly the cached resources that are not gaps, as they are
      cached, and nothing else but relics. */
  ghost predicate Mirrors(shown: map<string, string>, res: Resources, gaps: set<Gap>, relics: set<Relic>, g: GatewayId, c: ClientId, u: Uid) {
    && (forall r :: r in res.vals ==> (r in shown <==> (g, c, u, r) !in gaps))
    && Within(shown, res, relics, g, u)
  }

  lemma FinalMirrors(s: Net, home: Homes, g: GatewayId, c: ClientId, u: Uid)
    requires Mirrored(s, home) && Linked(s, g, c) && s.gateways[g].phase == Up && home(u) == g
    requires !JoinPending(s, g, c) && u in s.gateways[g].nodes.vals
    ensures Final(s, g, c, u).shown.Some?
    ensures Mirrors(Final(s, g, c, u).shown.value, s.gateways[g].nodes.vals[u], s.gaps, s.relics, g, c, u)
  {
    assert Attached(s, g) && Prospect(s, g, c, u) == Final(s, g, c, u);
    assert ShownWithin(s, g, c, home) && NoGapShown(s, g, c, home) && ShownComplete(s, g, c, home);
    assert RepGaps(Final(s, g, c, u), s.gaps, g, c, u);
  }

  /** In every run, once its request is served, a client will show a cached resource if and only if no
      reset has put it back unannounced; with the cached value; and what else it will show of the node are
      resources that the node was once added again without. */
  lemma DashboardsMirrorCaches(init: Net, run: seq<Step>, states: seq<Net>, home: Homes, g: GatewayId, c: ClientId, u: Uid)
    requires Initial(init) && Trace(init, run, states) && HomedRun(run, home) && DisciplinedRun(run)
    requires Linked(states[|run|], g, c) && states[|run|].gateways[g].phase == Up && home(u) == g
    requires !JoinPending(states[|run|], g, c) && u in states[|run|].gateways[g].nodes.vals
    ensures Final(states[|run|], g, c, u).shown.Some?
    ensures var s := states[|run|]; var shown := Final(s, g, c, u).shown.value; var res := s.gateways[g].nodes.vals[u].vals;
      && (forall r :: r in res ==> (r in shown <==> !Missed(run, states, |run|, (g, c, u, r))))
      && (forall r :: r in res && r in shown ==> shown[r] == res[r])
      && (forall r :: r in shown && r !in res ==> Dropped(run, states, |run|, (g, u, r)))
  {
    var s := states[|run|];
    TraceIsReached(init, run, states, |run|);
    assert run[..|run|] == run;
    AlwaysMirrored(init, run, s, home);
    FinalMirrors(s, home, g, c, u);
    forall r ensures (g, c, u, r) in s.gaps <==> Missed(run, states, |run|, (g, c, u, r)) {
      GapIff(init, run, states, |run|, (g, c, u, r));
    }
    forall r ensures (g, u, r) in s.relics <==> Dropped(run, states, |run|, (g, u, r)) {
      RelicIff(init, run, states, |run|, (g, u, r));
    }
  }

  /** The same of any way in which a state is reached: some trace leads there, and tells. */
  lemma ReachedDashboardsMirror(init: Net, run: seq<Step>, s: Net, home: Homes, g: GatewayId, c: ClientId, u: Uid) returns (states: seq<Net>)
    requires Initial(init) && ReachedBy(init, run, s) && HomedRun(run, home) && DisciplinedRun(run)
    requires Linked(s, g, c) && s.gateways[g].phase == Up && home(u) == g
    requires !JoinPending(s, g, c) && u in s.gateways[g].nodes.vals
    ensures Trace(init, run, states) && states[|run|] == s && Final(s, g, c, u).shown.Some?
    ensures var shown := Final(s, g, c, u).shown.value; var res := s.gateways[g].nodes.vals[u].vals;
      && (forall r :: r in res ==> (r in shown <==> !Missed(run, states, |run|, (g, c, u, r))))
      && (forall r :: r in res && r in shown ==> shown[r] == res[r])
      && (forall r :: r in shown && r !in res ==> Dropped(run, states, |run|, (g, u, r)))
  {
    states := HasTrace(init, run, s);
    DashboardsMirrorCaches(init, run, states, home, g, c, u);
  }

  /** A client that shows no relic of a node shows its cached resources less the gaps: an equality. */
  lemma MirrorsExactly(shown: map<string, string>, res: Resources, gaps: set<Gap>, relics: set<Relic>, g: GatewayId, c: ClientId, u: Uid)
    requires Mirrors(shown, res, gaps, relics, g, c, u) && forall r :: (g, u, r) !in relics
    ensures shown == Without(res, gaps, g, c, u)
  {
  }

  function Without(res: Resources, gaps: set<Gap>, g: GatewayId, c: ClientId, u: Uid): map<string, string> {
    map r | r in res.vals && (g, c, u, r) !in gaps :: res.vals[r]
  }

  // ---------------------------------------------------------------------------------------
  // Two actions that dashboards are not fully told of

  /** After a reset a client that shows the node will show nothing of it, although `protocol` and the
      defaults are cached. */
  lemma ResetsAreNotTold(s: Net, g: GatewayId, uid: Uid, res: Resources, c: ClientId)
    requires WellFormed(s) && Linked(s, g, c) && s.gateways[g].phase == Up
    requires Enabled(s, Local(g, Restart(uid, res))) && Final(s, g, c, uid).shown.Some?
    ensures var s' := Apply(s, Local(g, Restart(uid, res)));
      && Linked(s', g, c) && Final(s', g, c, uid).shown == Some(map[])
      && uid in s'.gateways[g].nodes.vals && "protocol" in s'.gateways[g].nodes.vals[uid].vals
      && res.vals.Keys <= s'.gateways[g].nodes.vals[uid].vals.Keys
  {
    ResetShowsNothing(s, g, uid, res, c);
    ResetCaches(s.gateways[g], uid, res);
  }

  lemma ResetShowsNothing(s: Net, g: GatewayId, uid: Uid, res: Resources, c: ClientId)
    requires WellFormed(s) && Linked(s, g, c) && s.gateways[g].phase == Up
    requires Enabled(s, Local(g, Restart(uid, res))) && Final(s, g, c, uid).shown.Some?
    ensures var s' := Apply(s, Local(g, Restart(uid, res))); Linked(s', g, c) && Final(s', g, c, uid).shown == Some(map[])
  {
    FinalAfterAction(s, Local(g, Restart(uid, res)), g, Restart(uid, res), c, uid);
  }

  lemma ResetCaches(gw: GatewayState, uid: Uid, res: Resources)
    requires CanAct(gw, Restart(uid, res))
    ensures var nodes := Act(gw, Restart(uid, res)).nodes;
      uid in nodes.vals && "protocol" in nodes.vals[uid].vals && res.vals.Keys <= nodes.vals[uid].vals.Keys
  {
  }

  /** `add_node` on a cached uid replaces the cached resources, but dashboards only ever write over
      theirs: an up-to-date client will show nothing beyond the cache exactly when the new resources
      cover the keys cached before the call. */
  lemma ReAddMirrorsIff(s: Net, g: GatewayId, uid: Uid, res: Resources, c: ClientId, home: Homes)
    requires Mirrored(s, home) && Linked(s, g, c) && s.gateways[g].phase == Up && home(uid) == g
    requires uid in s.gateways[g].nodes.vals && res.Valid() && Clean(res)
    requires Final(s, g, c, uid).shown == Some(s.gateways[g].nodes.vals[uid].vals)
    ensures Enabled(s, Local(g, Add(uid, res)))
    ensures var s' := Apply(s, Local(g, Add(uid, res))); var was := s.gateways[g].nodes.vals[uid].vals;
      && Linked(s', g, c) && uid in s'.gateways[g].nodes.vals
      && Final(s', g, c, uid).shown == Some(was + s'.gateways[g].nodes.vals[uid].vals)
      && (Final(s', g, c, uid).shown.value.Keys <= s'.gateways[g].nodes.vals[uid].vals.Keys <==>
          was.Keys <= Labelled(s.gateways[g].protocol, res).vals.Keys)
  {
    assert WellFormedGateway(s, g);
    FinalAfterAction(s, Local(g, Add(uid, res)), g, Add(uid, res), c, uid);
    AddedAgain(s.gateways[g], uid, res, Final(s, g, c, uid), c);
  }

  lemma AddedAgain(gw: GatewayState, uid: Uid, res: Resources, rep: Rep, c: ClientId)
    requires CanAct(gw, Add(uid, res)) && Clean(res) && rep.shown.Some?
    ensures var labelled := Labelled(gw.protocol, res);
      && SentEffect(gw, Add(uid, res), rep, uid, c) == Rep(true, Some(rep.shown.value + labelled.vals))
      && uid in Act(gw, Add(uid, res)).nodes.vals && Act(gw, Add(uid, res)).nodes.vals[uid] == labelled
  {
    DescribedMerges(rep, Labelled(gw.protocol, res), All, c);
  }
}
