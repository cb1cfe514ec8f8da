/** The dashboard's array of nodes, and the reducer that folds incoming messages into it. */
module Dashboard {
  import opened Messages

  /** What a dashboard shows: the uids of its nodes, each with the keys of its `data` object. */
  type View = map<Uid, map<string, string>>

  /** `endpoint.replace(/^\//g, '')`. */
  function StripSlash(endpoint: string): string {
    if endpoint != "" && endpoint[0] == '/' then endpoint[1..] else endpoint
  }

  /** The name does not begin with a slash. */
  predicate Bare(name: string) {
    name == "" || name[0] != '/'
  }

  /** Bare names stay, and a slash before any name is dropped. */
  lemma SlashIsStripped(name: string)
    ensures Bare(name) ==> StripSlash(name) == name
    ensures StripSlash("/" + name) == name
  {
    assert ("/" + name)[1..] == name;
  }

  /** `receive_message`, on the view. */
  function Receive(v: View, m: Message): View {
    match m
    case New(uid, _) => if uid in v then v else v[uid := map[]]
    case Out(uid) => v - {uid}
    case Reset(uid) => if uid in v then v[uid := map[]] else v
    case Update(uid, endpoint, data, _) =>
      if uid in v then v[uid := v[uid][StripSlash(endpoint) := data]] else v
    case Alive => v
  }

  function ReceiveAll(v: View, ms: seq<Message>): View
    decreases |ms|
  {
    if ms == [] then v else ReceiveAll(Receive(v, ms[0]), ms[1..])
  }

  lemma {:induction false} ReceiveAllAppend(v: View, ms: seq<Message>, more: seq<Message>)
    ensures ReceiveAll(v, ms + more) == ReceiveAll(ReceiveAll(v, ms), more)
    decreases |ms|
  {
    if ms == [] {
      assert ms + more == more;
    } else {
      assert (ms + more)[0] == ms[0] && (ms + more)[1..] == ms[1..] + more;
      ReceiveAllAppend(Receive(v, ms[0]), ms[1..], more);
    }
  }

  /** One entry of `vm.nodes`. */
  datatype NodeEntry = NodeEntry(uid: Uid, data: map<string, string>)

  function Shown(nodes: seq<NodeEntry>): View {
    if nodes == [] then map[]
    else Shown(nodes[1..])[nodes[0].uid := nodes[0].data]
  }

  ghost predicate DistinctUids(nodes: seq<NodeEntry>) {
    nodes != [] ==> nodes[0].uid !in Shown(nodes[1..]) && DistinctUids(nodes[1..])
  }

  lemma ShownCons(e: NodeEntry, rest: seq<NodeEntry>)
    ensures Shown([e] + rest) == Shown(rest)[e.uid := e.data]
    ensures DistinctUids([e] + rest) <==> e.uid !in Shown(rest) && DistinctUids(rest)
  {
    assert ([e] + rest)[1..] == rest;
  }

  lemma {:induction false} PushShown(nodes: seq<NodeEntry>, e: NodeEntry)
    requires DistinctUids(nodes) && e.uid !in Shown(nodes)
    ensures DistinctUids(nodes + [e]) && Shown(nodes + [e]) == Shown(nodes)[e.uid := e.data]
  {
    if nodes == [] {
      assert nodes + [e] == [e] && [e][1..] == [];
    } else {
      PushShown(nodes[1..], e);
      assert (nodes + [e])[1..] == nodes[1..] + [e];
    }
  }

  lemma {:induction false} SpliceShown(nodes: seq<NodeEntry>, i: nat)
    requires DistinctUids(nodes) && i < |nodes|
    ensures DistinctUids(nodes[..i] + nodes[i + 1..])
    ensures Shown(nodes[..i] + nodes[i + 1..]) == Shown(nodes) - {nodes[i].uid}
    ensures nodes[i].uid in Shown(nodes)
  {
    var first, rest := nodes[0], nodes[1..];
    assert nodes == [first] + rest;
    if i == 0 {
      assert nodes[..0] + nodes[1..] == rest;
    } else {
      SpliceShown(rest, i - 1);
      SpliceOfCons(first, rest, i);
      SpliceBehind(first, rest, rest[..i - 1] + rest[i..], rest[i - 1].uid);
    }
  }

  lemma SpliceOfCons(first: NodeEntry, rest: seq<NodeEntry>, i: nat)
    requires 0 < i <= |rest|
    ensures var nodes := [first] + rest;
      nodes[..i] + nodes[i + 1..] == [first] + (rest[..i - 1] + rest[i..]) && nodes[i] == rest[i - 1]
  {
  }

  lemma SpliceBehind(first: NodeEntry, rest: seq<NodeEntry>, spliced: seq<NodeEntry>, uid: Uid)
    requires DistinctUids([first] + rest) && DistinctUids(spliced)
    requires uid in Shown(rest) && Shown(spliced) == Shown(rest) - {uid}
    ensures DistinctUids([first] + spliced) && Shown([first] + spliced) == Shown([first] + rest) - {uid}
    ensures uid in Shown([first] + rest)
  {
    ShownCons(first, spliced);
    ShownCons(first, rest);
  }

  lemma {:induction false} EditShown(nodes: seq<NodeEntry>, i: nat, data: map<string, string>)
    requires DistinctUids(nodes) && i < |nodes|
    ensures DistinctUids(nodes[i := nodes[i].(data := data)])
    ensures Shown(nodes[i := nodes[i].(data := data)]) == Shown(nodes)[nodes[i].uid := data]
    ensures nodes[i].uid in Shown(nodes) && Shown(nodes)[nodes[i].uid] == nodes[i].data
  {
    var first, rest := nodes[0], nodes[1..];
    assert nodes == [first] + rest;
    if i == 0 {
      assert nodes[0 := first.(data := data)] == [first.(data := data)] + rest;
      ShownCons(first, rest);
      ShownCons(first.(data := data), rest);
    } else {
      var e := nodes[i];
      EditShown(rest, i - 1, data);
      assert nodes[i := e.(data := data)] == [first] + rest[i - 1 := e.(data := data)];
      EditBehind(first, rest, rest[i - 1 := e.(data := data)], e, data);
    }
  }

  lemma EditBehind(first: NodeEntry, rest: seq<NodeEntry>, edited: seq<NodeEntry>, e: NodeEntry, data: map<string, string>)
    requires DistinctUids([first] + rest) && DistinctUids(edited)
    requires e.uid in Shown(rest) && Shown(rest)[e.uid] == e.data && Shown(edited) == Shown(rest)[e.uid := data]
    ensures DistinctUids([first] + edited) && Shown([first] + edited) == Shown([first] + rest)[e.uid := data]
    ensures e.uid in Shown([first] + rest) && Shown([first] + rest)[e.uid] == e.data
  {
    ShownCons(first, edited);
    ShownCons(first, rest);
    UpdatesCommute(Shown(rest), e.uid, data, first.uid, first.data);
  }

  lemma UpdatesCommute(v: View, k: Uid, x: map<string, string>, l: Uid, y: map<string, string>)
    requires k != l
    ensures v[k := x][l := y] == v[l := y][k := x]
  {
  }

  class NodeList {
    var nodes: seq<NodeEntry>

    ghost predicate Valid()
      reads this
    {
      DistinctUids(nodes)
    }

    constructor ()
      ensures Valid() && Shown(nodes) == map[]
    {
      nodes := [];
    }

    /** `vm.nodes.map(e => e.uid).indexOf(node_uid)`. */
    method IndexOf(uid: Uid) returns (index: int)
      requires Valid()
      ensures -1 <= index < |nodes|
      ensures index >= 0 ==> nodes[index].uid == uid
      ensures index == -1 <==> uid !in Shown(nodes)
    {
      index := 0;
      while index < |nodes|
        invariant 0 <= index <= |nodes|
        invariant uid in Shown(nodes) <==> uid in Shown(nodes[index..])
      {
        assert nodes[index..][1..] == nodes[index + 1..];
        if nodes[index].uid == uid {
          return;
        }
        index := index + 1;
      }
      index := -1;
    }

    /** `receive_message`: pushes to, splices, or edits the entry found by `IndexOf`. */
    method ReceiveMessage(m: Message)
      requires Valid()
      modifies this
      ensures Valid()
      ensures Shown(nodes) == Receive(old(Shown(nodes)), m)
    {
      if m == Alive {
        return;
      }
      var index := IndexOf(m.uid);
      match m {
        case New(uid, _) =>
          if index == -1 {
            PushShown(nodes, NodeEntry(uid, map[]));
            nodes := nodes + [NodeEntry(uid, map[])];
          }
        case Out(uid) =>
          if index != -1 {
            SpliceShown(nodes, index);
            nodes := nodes[..index] + nodes[index + 1..];
          }
        case Reset(uid) =>
          if index != -1 {
            EditShown(nodes, index, map[]);
            nodes := nodes[index := nodes[index].(data := map[])];
          }
        case Update(_, endpoint, data, _) =>
          if index != -1 {
            EditShown(nodes, index, nodes[index].data[StripSlash(endpoint) := data]);
            nodes := nodes[index := nodes[index].(data := nodes[index].data[StripSlash(endpoint) := data])];
          }
      }
    }
  }
}
