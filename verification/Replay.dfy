/** What a queue of pending messages will do to one node, seen from one client. */
module Replay {
  import opened Dicts
  import opened Messages
  import opened Broker
  import opened Gateway
  import opened Dashboard

  /** `own`: the broker lists the node for the gateway. `shown`: what the client will show of it
      once it has read everything already sent to it. */
  datatype Rep = Rep(own: bool, shown: Option<map<string, string>>)

  function At(v: View, u: Uid): Option<map<string, string>> {
    if u in v then Some(v[u]) else None
  }

  function StepRep(rep: Rep, m: Message, u: Uid, c: ClientId): Rep {
    match m
    case New(uid, dst) =>
      if uid != u then rep
      else Rep(true, if Reaches(dst, c) && rep.shown == None then Some(map[]) else rep.shown)
    case Out(uid) => if uid == u && rep.own then Rep(false, None) else rep
    case Reset(uid) => if uid == u && rep.shown.Some? then rep.(shown := Some(map[])) else rep
    case Update(uid, endpoint, data, dst) =>
      if uid == u && rep.own && Reaches(dst, c) && rep.shown.Some?
      then rep.(shown := Some(rep.shown.value[StripSlash(endpoint) := data]))
      else rep
    case Alive => rep
  }

  function ReplayAll(rep: Rep, ms: seq<Message>, u: Uid, c: ClientId): Rep
    decreases |ms|
  {
    if ms == [] then rep else ReplayAll(StepRep(rep, ms[0], u, c), ms[1..], u, c)
  }

  lemma {:induction false} ReplayAppend(rep: Rep, ms: seq<Message>, more: seq<Message>, u: Uid, c: ClientId)
    ensures ReplayAll(rep, ms + more, u, c) == ReplayAll(ReplayAll(rep, ms, u, c), more, u, c)
    decreases |ms|
  {
    if ms == [] {
      assert ms + more == more;
    } else {
      assert (ms + more)[0] == ms[0] && (ms + more)[1..] == ms[1..] + more;
      ReplayAppend(StepRep(rep, ms[0], u, c), ms[1..], more, u, c);
    }
  }

  /** Whether the node is owned at the end does not depend on what any client shows. */
  lemma {:induction false} OwnIgnoresShown(rep: Rep, rep': Rep, ms: seq<Message>, u: Uid, c: ClientId, c': ClientId)
    requires rep.own == rep'.own
    ensures ReplayAll(rep, ms, u, c).own == ReplayAll(rep', ms, u, c').own
    decreases |ms|
  {
    if ms != [] {
      OwnIgnoresShown(StepRep(rep, ms[0], u, c), StepRep(rep', ms[0], u, c'), ms[1..], u, c, c');
    }
  }

  /** A client never comes to show a node that the gateway does not come to own. */
  lemma {:induction false} ShownImpliesOwned(rep: Rep, ms: seq<Message>, u: Uid, c: ClientId)
    requires rep.shown.Some? ==> rep.own
    ensures ReplayAll(rep, ms, u, c).shown.Some? ==> ReplayAll(rep, ms, u, c).own
    decreases |ms|
  {
    if ms != [] {
      ShownImpliesOwned(StepRep(rep, ms[0], u, c), ms[1..], u, c);
    }
  }

  // ---------------------------------------------------------------------------------------
  // Snapshots

  ghost predicate Clean(res: Resources) {
    forall r :: r in res.vals ==> Bare(r)
  }

  /** `shown` after the resources of `res` from number `from` on have been written over it. */
  function Overlay(shown: map<string, string>, res: Resources, from: nat): map<string, string>
    requires res.Valid() && from <= |res.keys|
    decreases |res.keys| - from
  {
    if from == |res.keys| then shown
    else Overlay(shown[StripSlash(res.keys[from]) := res.vals[res.keys[from]]], res, from + 1)
  }

  lemma {:induction false} ReplayUpdates(rep: Rep, uid: Uid, res: Resources, from: nat, dst: Dst, u: Uid, c: ClientId)
    requires res.Valid() && from <= |res.keys|
    ensures ReplayAll(rep, UpdateMessages(uid, res, from, dst), u, c) ==
            if uid == u && rep.own && Reaches(dst, c) && rep.shown.Some?
            then Rep(true, Some(Overlay(rep.shown.value, res, from)))
            else rep
    decreases |res.keys| - from
  {
    if from < |res.keys| {
      var ms := UpdateMessages(uid, res, from, dst);
      ReplayUpdates(StepRep(rep, ms[0], u, c), uid, res, from + 1, dst, u, c);
      assert ms[1..] == UpdateMessages(uid, res, from + 1, dst);
    }
  }

  /** What the description of one node does to a replay of that node. */
  function Described(rep: Rep, res: Resources, dst: Dst, c: ClientId): Rep
    requires res.Valid()
  {
    Rep(true,
        if !Reaches(dst, c) then rep.shown
        else Some(Overlay(if rep.shown.Some? then rep.shown.value else map[], res, 0)))
  }

  lemma ReplayNode(rep: Rep, uid: Uid, res: Resources, dst: Dst, u: Uid, c: ClientId)
    requires res.Valid()
    ensures ReplayAll(rep, NodeMessages(uid, res, dst), u, c) == if uid == u then Described(rep, res, dst, c) else rep
  {
    var ms := NodeMessages(uid, res, dst);
    assert ms[1..] == UpdateMessages(uid, res, 0, dst);
    ReplayUpdates(StepRep(rep, ms[0], u, c), uid, res, 0, dst, u, c);
  }

  /** A snapshot describes each cached node once and says nothing of any other. */
  lemma {:induction false} ReplaySnapshot(rep: Rep, nodes: Cache, from: nat, dst: Dst, u: Uid, c: ClientId)
    requires ValidCache(nodes) && from <= |nodes.keys|
    ensures ReplayAll(rep, Snapshot(nodes, from, dst), u, c) ==
            if u in nodes.keys[from..] then Described(rep, nodes.vals[u], dst, c) else rep
    decreases |nodes.keys| - from
  {
    if from < |nodes.keys| {
      var uid := nodes.keys[from];
      var first := NodeMessages(uid, nodes.vals[uid], dst);
      ReplayAppend(rep, first, Snapshot(nodes, from + 1, dst), u, c);
      ReplayNode(rep, uid, nodes.vals[uid], dst, u, c);
      ReplaySnapshot(ReplayAll(rep, first, u, c), nodes, from + 1, dst, u, c);
      assert nodes.keys[from..] == [uid] + nodes.keys[from + 1..];
      assert uid !in nodes.keys[from + 1..];
    }
  }

  /** The resources from number `from` on. */
  function Rest(res: Resources, from: nat): map<string, string>
    requires res.Valid() && from <= |res.keys|
  {
    map k | k in res.keys[from..] :: res.vals[k]
  }

  lemma RestSplits(shown: map<string, string>, res: Resources, from: nat)
    requires res.Valid() && from < |res.keys|
    ensures shown[res.keys[from] := res.vals[res.keys[from]]] + Rest(res, from + 1) == shown + Rest(res, from)
  {
    assert res.keys[from..] == [res.keys[from]] + res.keys[from + 1..];
  }

  lemma {:induction false} OverlayFrom(shown: map<string, string>, res: Resources, from: nat)
    requires res.Valid() && from <= |res.keys| && Clean(res)
    ensures Overlay(shown, res, from) == shown + Rest(res, from)
    decreases |res.keys| - from
  {
    if from < |res.keys| {
      OverlayFrom(shown[res.keys[from] := res.vals[res.keys[from]]], res, from + 1);
      RestSplits(shown, res, from);
    }
  }

  /** Writing clean resources over what is shown merges them into it. */
  lemma OverlayMerges(shown: map<string, string>, res: Resources)
    requires res.Valid() && Clean(res)
    ensures Overlay(shown, res, 0) == shown + res.vals
  {
    OverlayFrom(shown, res, 0);
    assert Rest(res, 0) == res.vals;
  }
}
