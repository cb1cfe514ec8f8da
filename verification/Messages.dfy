/** The service messages exchanged by gateways, broker and dashboards. */
module Messages {
  import opened Dicts

  type Uid = string
  type ClientId = string
  type Resources = Dict<string, string>

  /** The `dst` field: every client, or the one client that asked for a snapshot. */
  datatype Dst = All | One(client: ClientId)

  /** What the `Message` constructors build, one case per constructor a gateway uses. */
  datatype Message =
    | New(uid: Uid, dst: Dst)
    | Out(uid: Uid)
    | Reset(uid: Uid)
    | Update(uid: Uid, endpoint: string, data: string, dst: Dst)
    | Alive

  /** What a dashboard sends; the broker stamps `src` with the client's uid. */
  datatype Request =
    | Join(src: ClientId)
    | Write(src: ClientId, uid: Uid, endpoint: string, payload: string)

  predicate Reaches(dst: Dst, c: ClientId) {
    dst == All || dst == One(c)
  }

  /** The messages that describe one cached node: `new`, then one `update` per resource. */
  function NodeMessages(uid: Uid, res: Resources, dst: Dst): seq<Message>
    requires res.Valid()
  {
    [New(uid, dst)] + UpdateMessages(uid, res, 0, dst)
  }

  function OutMessages(uids: seq<Uid>): seq<Message> {
    seq(|uids|, i requires 0 <= i < |uids| => Out(uids[i]))
  }

  function UpdateMessages(uid: Uid, res: Resources, from: nat, dst: Dst): seq<Message>
    requires res.Valid() && from <= |res.keys|
    decreases |res.keys| - from
  {
    if from == |res.keys| then []
    else [Update(uid, res.keys[from], res.vals[res.keys[from]], dst)] + UpdateMessages(uid, res, from + 1, dst)
  }
}

/** The JSON objects on the wire, and the checks made on them before a handler sees them. */
module Wire {
  import opened Dicts
  import opened Messages

  /** A decoded JSON object. Values are kept as text. */
  type Json = map<string, string>

  datatype Checked = Accepted(message: Json) | Rejected | MissingKey(key: string)

  const KINDS: set<string> := {"new", "update", "out", "reset"}

  function EncodeDst(dst: Dst): string {
    match dst
    case All => "all"
    case One(c) => c
  }

  function Encode(m: Message): Json {
    match m
    case New(uid, dst) => map["type" := "new", "uid" := uid, "dst" := EncodeDst(dst)]
    case Out(uid) => map["type" := "out", "uid" := uid]
    case Reset(uid) => map["type" := "reset", "uid" := uid]
    case Update(uid, endpoint, data, dst) =>
      map["type" := "update", "uid" := uid, "endpoint" := endpoint, "data" := data, "dst" := EncodeDst(dst)]
    case Alive => map["type" := "update", "uid" := "alive"]
  }

  /** `Message.check_message` on text that parsed as an object. An object with `data` but no
      `type` passes the first test and then fails on the lookup of `type`. */
  function CheckMessage(message: Json): Checked {
    if "type" !in message && "data" !in message then Rejected
    else if "type" !in message then MissingKey("type")
    else if message["type"] !in KINDS then Rejected
    else Accepted(message)
  }

  predicate OccursAt(a: string, b: string, i: nat) {
    i + |a| <= |b| && b[i..i + |a|] == a
  }

  /** Python's `a in b` on strings. */
  predicate Substring(a: string, b: string) {
    exists i | 0 <= i <= |b| :: OccursAt(a, b, i)
  }

  // ---------------------------------------------------------------------------------------
  // Messages of clients, as the broker and then the gateways read them

  /** The `data` of a client's message: an object, whose values are kept as text, or something else. */
  datatype Data = Object(fields: map<string, string>) | Text(text: string) | Items(items: seq<string>) | Scalar

  /** The fields of a client's message that anybody looks at. */
  datatype ClientMessage = ClientMessage(kind: Option<string>, data: Option<Data>, src: Option<string>)

  /** What a dashboard sends, stamped by the broker. */
  function EncodeRequest(r: Request): ClientMessage {
    match r
    case Join(src) => ClientMessage(Some("new"), None, Some(src))
    case Write(src, uid, endpoint, payload) =>
      ClientMessage(Some("update"), Some(Object(map["uid" := uid, "endpoint" := endpoint, "payload" := payload])), Some(src))
  }

  /** `check_message` does not raise, and lets the message pass. */
  predicate Passes(m: ClientMessage) {
    m.kind.Some? && m.kind.value in KINDS
  }

  /** Python's `k in data`, where it is defined. */
  predicate Mentions(data: Data, k: string)
    requires !data.Scalar?
  {
    match data
    case Object(fields) => k in fields
    case Text(text) => Substring(k, text)
    case Items(items) => k in items
  }

  predicate MentionsAll(data: Data)
    requires !data.Scalar?
  {
    Mentions(data, "uid") && Mentions(data, "endpoint") && Mentions(data, "payload")
  }

  datatype Verdict = Good | Bad | Raises

  /** `check_broker_data`: `in` on a number raises, and so does `keys()` on a text or a list that
      mentions all three names. */
  function CheckBrokerData(data: Data): Verdict {
    if data.Scalar? then Raises
    else if !MentionsAll(data) then Bad
    else if !data.Object? then Raises
    else if |data.fields.Keys| > 3 then Bad
    else Good
  }

  datatype GatewayRead =
    | Fetches(src: string)
    | Writes(uid: string, endpoint: string, payload: string)
    | Ignores
    | MissingField(key: string)
    | WrongType

  /** What `on_broker_message` makes of a message: every `message[...]` may raise KeyError, that of the
      last branch included, which only wants to log. */
  function ReadByGateway(m: ClientMessage): GatewayRead {
    if m.kind == None then MissingField("type")
    else if m.kind == Some("new") then
      if m.src == None then MissingField("src") else Fetches(m.src.value)
    else if m.data == None then MissingField("data")
    else if m.kind != Some("update") then Ignores
    else
      match CheckBrokerData(m.data.value)
      case Good =>
        var fields := m.data.value.fields;
        Writes(fields["uid"], fields["endpoint"], fields["payload"])
      case Bad => Ignores
      case Raises => WrongType
  }

  predicate Raised(read: GatewayRead) {
    read.MissingField? || read.WrongType?
  }

  /** A message that the broker lets pass and stamps makes every gateway raise exactly when it is not a
      `new` and either carries no `data`, or is an `update` whose `data` is a number, or a text or a list
      that mentions the three names. */
  lemma GatewayReadFailsIff(m: ClientMessage, uid: ClientId)
    requires Passes(m)
    ensures Raised(ReadByGateway(m.(src := Some(uid)))) <==>
            m.kind != Some("new") && (m.data == None || (m.kind == Some("update") && !m.data.value.Object?
              && (m.data.value.Scalar? || MentionsAll(m.data.value))))
    ensures ReadByGateway(m.(src := Some(uid))).MissingField? <==> m.kind != Some("new") && m.data == None
  {
  }

  /** A gateway takes a message for a write if and only if it is an `update` whose `data` is an object of
      exactly the three fields. */
  lemma WritesIff(m: ClientMessage, uid: string, endpoint: string, payload: string)
    ensures ReadByGateway(m) == Writes(uid, endpoint, payload) <==>
            m.kind == Some("update") && m.data == Some(Object(map["uid" := uid, "endpoint" := endpoint, "payload" := payload]))
  {
    var three := map["uid" := uid, "endpoint" := endpoint, "payload" := payload];
    assert three.Keys == {"uid", "endpoint", "payload"};
    if ReadByGateway(m) == Writes(uid, endpoint, payload) {
      var fields := m.data.value.fields;
      OnlyThree(fields.Keys);
      assert fields == three;
    }
  }

  lemma OnlyThree(keys: set<string>)
    requires "uid" in keys && "endpoint" in keys && "payload" in keys && |keys| <= 3
    ensures keys == {"uid", "endpoint", "payload"}
  {
    var rest := keys - {"uid", "endpoint", "payload"};
    assert keys == rest + {"uid", "endpoint", "payload"};
    assert |keys| == |rest| + |{"uid", "endpoint", "payload"}|;
  }

  /** A client that says a node is out, and no more, stops every gateway. */
  lemma BareOutStopsGateways(uid: ClientId)
    ensures Passes(ClientMessage(Some("out"), None, None))
    ensures ReadByGateway(ClientMessage(Some("out"), None, Some(uid))) == MissingField("data")
  {
  }

  /** What dashboards send passes and is read as it is meant. */
  lemma RequestsAreRead(r: Request)
    ensures Passes(EncodeRequest(r))
    ensures ReadByGateway(EncodeRequest(r)) ==
            if r.Join? then Fetches(r.src) else Writes(r.uid, r.endpoint, r.payload)
  {
    if r.Write? {
      var fields := map["uid" := r.uid, "endpoint" := r.endpoint, "payload" := r.payload];
      assert fields.Keys == {"uid", "endpoint", "payload"};
    }
  }
}
