/** What becomes of the requests of clients, over whole runs. */
module Requests {
  import opened Dicts
  import opened Messages
  import Wire
  import opened Broker
  import opened Gateway
  import opened Network
  import opened Presence
  import opened History
  import opened Lookups
  import opened Draining

  /** The request `r` with its true sender. */
  function From(c: ClientId, r: Request): Request {
    match r
    case Join(_) => Join(c)
    case Write(_, uid, endpoint, payload) => Write(c, uid, endpoint, payload)
  }

  /** The requests a client has sent in the first `k` steps, since it came. */
  function SentBy(run: seq<Step>, k: nat, c: ClientId): seq<Request>
    requires k <= |run|
  {
    if k == 0 || run[k - 1] == ClientOpen(c) || run[k - 1] == ClientClose(c) then []
    else SentBy(run, k - 1, c) + (if run[k - 1].ClientSend? && run[k - 1].c == c then [run[k - 1].request] else [])
  }

  /** The requests the broker has taken from client `c`, since it came. */
  ghost function TakenFrom(run: seq<Step>, states: seq<Net>, k: nat, c: ClientId): seq<Request>
    requires k <= |run| < |states|
  {
    if k == 0 || run[k - 1] == ClientOpen(c) || run[k - 1] == ClientClose(c) then []
    else TakenFrom(run, states, k - 1, c) + if run[k - 1] == FromClient(c) then Head(states[k - 1], c) else []
  }

  /** The next request of client `c`. */
  ghost function Head(s: Net, c: ClientId): seq<Request> {
    if c in s.clients && s.clients[c].toBroker != [] then [s.clients[c].toBroker[0]] else []
  }

  /** The requests of all clients that the broker has taken since it opened its socket to gateway `g`, each
      with its sender. */
  ghost function TakenFor(run: seq<Step>, states: seq<Net>, k: nat, g: GatewayId): seq<Request>
    requires k <= |run| < |states|
  {
    if k == 0 || run[k - 1] == SocketOpen(g) || run[k - 1] == SocketClose(g) then []
    else TakenFor(run, states, k - 1, g) + TakenBy(run[k - 1], states[k - 1])
  }

  ghost function TakenBy(step: Step, s: Net): seq<Request> {
    if step.FromClient? && Head(s, step.c) != [] then [From(step.c, Head(s, step.c)[0])] else []
  }

  /** The requests that gateway `g` has read since then. */
  ghost function ReadBy(run: seq<Step>, states: seq<Net>, k: nat, g: GatewayId): seq<Request>
    requires k <= |run| < |states|
  {
    if k == 0 || run[k - 1] == SocketOpen(g) || run[k - 1] == SocketClose(g) then []
    else ReadBy(run, states, k - 1, g) + if run[k - 1] == ToGateway(g) then Next(states[k - 1], g) else []
  }

  /** The next request that gateway `g` will read. */
  ghost function Next(s: Net, g: GatewayId): seq<Request> {
    if g in s.broker.toGateways && s.broker.toGateways[g] != [] then [s.broker.toGateways[g][0]] else []
  }

  // ---------------------------------------------------------------------------------------
  // From a client to the broker

  lemma ClientStep(s: Net, step: Step, c: ClientId)
    requires WellFormed(s) && Enabled(s, step) && c in Apply(s, step).clients
    ensures step != ClientClose(c) && (step == ClientOpen(c) ==> Apply(s, step).clients[c].toBroker == [])
    ensures step != ClientOpen(c) ==> c in s.clients
  {
  }

  lemma ClientQueueStep(s: Net, step: Step, c: ClientId)
    requires WellFormed(s) && Enabled(s, step) && c in Apply(s, step).clients && step != ClientOpen(c)
    ensures c in s.clients
    ensures (if step == FromClient(c) then Head(s, c) else []) + Apply(s, step).clients[c].toBroker
      == s.clients[c].toBroker + (if step.ClientSend? && step.c == c then [step.request] else [])
  {
    ClientStep(s, step, c);
    if step == FromClient(c) {
      RequestLeaves(s, c);
    } else if step.ClientSend? && step.c == c {
      RequestComes(s, c, step.request);
    } else {
      ClientQueueUntouched(s, step, c);
    }
  }

  lemma RequestLeaves(s: Net, c: ClientId)
    requires WellFormed(s) && Enabled(s, FromClient(c))
    ensures c in Apply(s, FromClient(c)).clients
    ensures Head(s, c) + Apply(s, FromClient(c)).clients[c].toBroker == s.clients[c].toBroker
  {
  }

  lemma RequestComes(s: Net, c: ClientId, r: Request)
    requires WellFormed(s) && Enabled(s, ClientSend(c, r))
    ensures c in Apply(s, ClientSend(c, r)).clients
    ensures Apply(s, ClientSend(c, r)).clients[c].toBroker == s.clients[c].toBroker + [r]
  {
  }

  lemma ClientQueueUntouched(s: Net, step: Step, c: ClientId)
    requires WellFormed(s) && Enabled(s, step) && c in Apply(s, step).clients && c in s.clients
    requires step != ClientOpen(c) && step != FromClient(c) && !(step.ClientSend? && step.c == c)
    ensures Apply(s, step).clients[c].toBroker == s.clients[c].toBroker
  {
  }

  /** The broker takes what a client sends, all of it and in order: what is not taken yet waits. */
  lemma {:induction false} SentIsTaken(init: Net, run: seq<Step>, states: seq<Net>, k: nat, c: ClientId)
    requires Trace(init, run, states) && Initial(init) && k <= |run| && c in states[k].clients
    ensures SentBy(run, k, c) == TakenFrom(run, states, k, c) + states[k].clients[c].toBroker
  {
    if k > 0 {
      assert Follows(states, run, k - 1);
      ClientStep(states[k - 1], run[k - 1], c);
      if run[k - 1] != ClientOpen(c) {
        ClientQueueStep(states[k - 1], run[k - 1], c);
        SentIsTaken(init, run, states, k - 1, c);
        var out := if run[k - 1] == FromClient(c) then Head(states[k - 1], c) else [];
        var added := if run[k - 1].ClientSend? && run[k - 1].c == c then [run[k - 1].request] else [];
        QueueAdvances(SentBy(run, k - 1, c), TakenFrom(run, states, k - 1, c), states[k - 1].clients[c].toBroker,
                      out, states[k].clients[c].toBroker, added);
      }
    }
  }

  // ---------------------------------------------------------------------------------------
  // From the broker to a gateway

  lemma SocketStep(s: Net, step: Step, g: GatewayId)
    requires WellFormed(s) && Enabled(s, step) && g in Apply(s, step).broker.toGateways
    ensures step != SocketClose(g) && (step == SocketOpen(g) ==> Apply(s, step).broker.toGateways[g] == [])
    ensures step != SocketOpen(g) ==> g in s.broker.toGateways
  {
  }

  lemma GatewayQueueStep(s: Net, step: Step, g: GatewayId)
    requires WellFormed(s) && Enabled(s, step) && g in Apply(s, step).broker.toGateways && step != SocketOpen(g)
    ensures g in s.broker.toGateways
    ensures (if step == ToGateway(g) then Next(s, g) else []) + Apply(s, step).broker.toGateways[g]
      == s.broker.toGateways[g] + TakenBy(step, s)
  {
    SocketStep(s, step, g);
    if step.FromClient? {
      RequestTaken(s, step.c, g);
    } else if step == ToGateway(g) {
      RequestIsRead(s, g);
    } else {
      QueueUntouched(s, step, g);
    }
  }

  lemma RequestTaken(s: Net, c: ClientId, g: GatewayId)
    requires WellFormed(s) && Enabled(s, FromClient(c)) && g in Apply(s, FromClient(c)).broker.toGateways
    ensures g in s.broker.toGateways
    ensures Apply(s, FromClient(c)).broker.toGateways[g] == s.broker.toGateways[g] + TakenBy(FromClient(c), s)
  {
  }

  lemma RequestIsRead(s: Net, g: GatewayId)
    requires WellFormed(s) && Enabled(s, ToGateway(g))
    ensures g in Apply(s, ToGateway(g)).broker.toGateways
    ensures Next(s, g) + Apply(s, ToGateway(g)).broker.toGateways[g] == s.broker.toGateways[g]
  {
  }

  lemma QueueUntouched(s: Net, step: Step, g: GatewayId)
    requires WellFormed(s) && Enabled(s, step) && g in Apply(s, step).broker.toGateways
    requires !step.FromClient? && step != ToGateway(g) && step != SocketOpen(g)
    ensures g in s.broker.toGateways && Apply(s, step).broker.toGateways[g] == s.broker.toGateways[g]
  {
    if !Touches(step, g) {
      SameRequests(s, step, g);
    }
  }

  lemma QueueAdvances<T>(taken: seq<T>, read: seq<T>, queue: seq<T>, out: seq<T>, queue': seq<T>, added: seq<T>)
    requires taken == read + queue && out + queue' == queue + added
    ensures taken + added == (read + out) + queue'
  {
    Joined(read, queue, added);
    Joined(read, out, queue');
  }

  /** A gateway reads exactly the requests that the broker has taken from clients since its socket was
      opened, writes included, each with its sender, once and in order: what is not read yet waits. */
  lemma {:induction false} TakenIsRead(init: Net, run: seq<Step>, states: seq<Net>, k: nat, g: GatewayId)
    requires Trace(init, run, states) && Initial(init) && k <= |run| && g in states[k].broker.toGateways
    ensures TakenFor(run, states, k, g) == ReadBy(run, states, k, g) + states[k].broker.toGateways[g]
  {
    if k > 0 {
      assert Follows(states, run, k - 1);
      SocketStep(states[k - 1], run[k - 1], g);
      if run[k - 1] != SocketOpen(g) {
        GatewayQueueStep(states[k - 1], run[k - 1], g);
        TakenIsRead(init, run, states, k - 1, g);
        var out := if run[k - 1] == ToGateway(g) then Next(states[k - 1], g) else [];
        QueueAdvances(TakenFor(run, states, k - 1, g), ReadBy(run, states, k - 1, g), states[k - 1].broker.toGateways[g],
                      out, states[k].broker.toGateways[g], TakenBy(run[k - 1], states[k - 1]));
      }
    }
  }

  // ---------------------------------------------------------------------------------------
  // One write

  /** The socket to `g` is neither opened nor closed from step `from` on. */
  ghost predicate StaysOpen(run: seq<Step>, from: nat, k: nat, g: GatewayId)
    requires k <= |run|
  {
    forall j: nat :: from <= j < k ==> !Reopens(run[j], g)
  }

  predicate Reopens(step: Step, g: GatewayId) {
    step == SocketOpen(g) || step == SocketClose(g)
  }

  lemma Longer<T>(a: seq<T>, b: seq<T>, more: seq<T>)
    requires a <= b
    ensures a <= b + more
  {
  }

  lemma {:induction false} TakenStays(run: seq<Step>, states: seq<Net>, from: nat, k: nat, g: GatewayId)
    requires from <= k <= |run| < |states| && StaysOpen(run, from, k, g)
    ensures TakenFor(run, states, from, g) <= TakenFor(run, states, k, g)
  {
    if from < k {
      assert !Reopens(run[k - 1], g);
      TakenStays(run, states, from, k - 1, g);
      Longer(TakenFor(run, states, from, g), TakenFor(run, states, k - 1, g), TakenBy(run[k - 1], states[k - 1]));
    }
  }

  /** A write that the broker takes from a client is read by every gateway whose socket is open and stays so,
      once the gateway has read what waits for it, in its place among all requests: with the uid, endpoint
      and payload it was sent with, and the client as its source. */
  lemma WriteIsRead(init: Net, run: seq<Step>, states: seq<Net>, i: nat, k: nat, g: GatewayId, c: ClientId)
    requires Trace(init, run, states) && Initial(init) && i < k <= |run| && run[i] == FromClient(c)
    requires g in states[i].broker.toGateways && StaysOpen(run, i, k, g)
    requires g in states[k].broker.toGateways && states[k].broker.toGateways[g] == []
    requires c in states[i].clients && states[i].clients[c].toBroker != [] && states[i].clients[c].toBroker[0].Write?
    ensures var r := states[i].clients[c].toBroker[0]; var n := |TakenFor(run, states, i, g)|;
      && n < |ReadBy(run, states, k, g)|
      && ReadBy(run, states, k, g)[n] == Write(c, r.uid, r.endpoint, r.payload)
      && Wire.ReadByGateway(Wire.EncodeRequest(ReadBy(run, states, k, g)[n])) == Wire.Writes(r.uid, r.endpoint, r.payload)
  {
    TakenIsRead(init, run, states, k, g);
    TakenAt(run, states, i, k, g, c);
    Wire.RequestsAreRead(ReadBy(run, states, k, g)[|TakenFor(run, states, i, g)|]);
  }

  /** The place of a request among those taken. */
  lemma TakenAt(run: seq<Step>, states: seq<Net>, i: nat, k: nat, g: GatewayId, c: ClientId)
    requires i < k <= |run| < |states| && run[i] == FromClient(c) && StaysOpen(run, i, k, g) && Head(states[i], c) != []
    ensures var n := |TakenFor(run, states, i, g)|;
      n < |TakenFor(run, states, k, g)| && TakenFor(run, states, k, g)[n] == From(c, Head(states[i], c)[0])
  {
    assert !Reopens(run[i], g);
    TakenStays(run, states, i + 1, k, g);
  }

  /** Where nothing is left to deliver, the broker has taken all that clients have sent, and every connected
      gateway has read all that it has taken. */
  lemma RequestsArrive(init: Net, run: seq<Step>, states: seq<Net>)
    requires Trace(init, run, states) && Initial(init) && WellFormed(states[|run|]) && Settled(states[|run|])
    ensures forall c :: c in states[|run|].clients ==> SentBy(run, |run|, c) == TakenFrom(run, states, |run|, c)
    ensures forall g :: g in states[|run|].gateways && states[|run|].gateways[g].phase == Up ==>
      TakenFor(run, states, |run|, g) == ReadBy(run, states, |run|, g)
  {
    var s := states[|run|];
    forall c | c in s.clients
      ensures SentBy(run, |run|, c) == TakenFrom(run, states, |run|, c)
    {
      SentIsTaken(init, run, states, |run|, c);
    }
    forall g | g in s.gateways && s.gateways[g].phase == Up
      ensures TakenFor(run, states, |run|, g) == ReadBy(run, states, |run|, g)
    {
      TakenIsRead(init, run, states, |run|, g);
    }
  }
}
