/** MQTT 3.1.1 packets as bytes, and what the client's read functions do to a stream of them. */
module MqttWire {
  import opened Dicts
  import opened Bits

  type byte = b: int | 0 <= b < 256
  type bytes = seq<byte>

  datatype Delivery = Delivery(topic: bytes, payload: bytes)

  datatype Error = OSError | IndexError | AssertionError

  datatype Result = Returned(op: Option<byte>) | Raised(error: Error)

  /** The outcome of reading from a stream: what is returned or raised, the messages handed to the
      callback, the bytes written back, and the bytes left unread. */
  datatype Effect = Effect(result: Result, delivered: seq<Delivery>, sent: bytes, rest: bytes)

  // ---------------------------------------------------------------------------------------
  // Writing

  /** `struct.pack("!H", n)`. */
  function U16(n: nat): bytes
    requires n < 65536
  {
    [n / 256, n % 256]
  }

  /** The Remaining Length field, section 2.2.3 of MQTT Version 3.1.1. */
  function EncodeLen(n: nat): (r: bytes)
    ensures r != []
  {
    if n < 128 then [n] else [n % 128 + 128] + EncodeLen(n / 128)
  }

  /** The packets a broker sends to this client, and the ones it publishes itself. */
  datatype Packet =
    | Publish(dup: bool, qos: nat, retain: bool, topic: bytes, pid: nat, payload: bytes)
    | PingResp
    | PubAck(pid: nat)
  {
    predicate WellFormed() {
      match this
      case Publish(_, qos, _, topic, pid, _) => qos <= 2 && |topic| < 65536 && pid < 65536
      case PingResp => true
      case PubAck(pid) => pid < 65536
    }
  }

  function Bit(b: bool): nat {
    if b then 1 else 0
  }

  function RemainingLength(p: Packet): nat
    requires p.Publish?
  {
    2 + |p.topic| + (if p.qos > 0 then 2 else 0) + |p.payload|
  }

  /** Sections 3.3, 3.4 and 3.13 of MQTT Version 3.1.1. */
  function Encode(p: Packet): bytes
    requires p.WellFormed()
  {
    match p
    case Publish(dup, qos, retain, topic, pid, payload) =>
      [0x30 + 8 * Bit(dup) + 2 * qos + Bit(retain)] + EncodeLen(RemainingLength(p))
      + (U16(|topic|) + topic + (if qos > 0 then U16(pid) else []) + payload)
    case PingResp => [0xd0, 0]
    case PubAck(pid) => [0x40, 2] + U16(pid)
  }

  function EncodeAll(ps: seq<Packet>): bytes
    requires forall i :: 0 <= i < |ps| ==> ps[i].WellFormed()
  {
    if ps == [] then [] else Encode(ps[0]) + EncodeAll(ps[1..])
  }

  // ---------------------------------------------------------------------------------------
  // Reading

  /** `sock.read(n)`: at the end of the stream it returns what there is. */
  function Take(s: bytes, n: nat): bytes {
    if n <= |s| then s[..n] else s
  }

  function Drop(s: bytes, n: nat): bytes {
    if n <= |s| then s[n..] else []
  }

  /** `_recv_len`. There is no limit on the number of bytes; the end of the stream is an error. */
  function RecvLen(s: bytes): (r: Option<(nat, bytes)>)
    ensures r.Some? ==> |r.value.1| < |s|
  {
    if s == [] then None
    else if s[0] < 128 then Some((s[0], s[1..]))
    else
      var more := RecvLen(s[1..]);
      if more == None then None else Some((s[0] - 128 + 128 * more.value.0, more.value.1))
  }

  function Fails(error: Error, rest: bytes): Effect {
    Effect(Raised(error), [], [], rest)
  }

  function Number(hi: byte, lo: byte): nat {
    256 * hi + lo
  }

  /** `sock.read(n)` for a size that has been computed: one below zero reads to the end. */
  function Size(s: bytes, n: int): nat {
    if n < 0 then |s| else n
  }

  /** `wait_msg` after the first byte of a PUBLISH. */
  function TakePublish(op: byte, s: bytes): Effect {
    var len := RecvLen(s);
    if len == None || |len.value.1| < 2 then Fails(IndexError, [])
    else TakeBody(op, len.value.0, len.value.1)
  }

  /** And after its length. */
  function TakeBody(op: byte, size: nat, s: bytes): Effect
    requires |s| >= 2
  {
    var topicLen := Number(s[0], s[1]);
    var topic := Take(s[2..], topicLen);
    var body := Drop(s[2..], topicLen);
    var left := size - (topicLen + 2);
    if And(op, 6) == 0 then TakePayload(op, topic, 0, left, body)
    else if |body| < 2 then Fails(IndexError, [])
    else TakePayload(op, topic, Number(body[0], body[1]), left - 2, body[2..])
  }

  function TakePayload(op: byte, topic: bytes, pid: nat, left: int, s: bytes): Effect
    requires pid < 65536
  {
    var size := Size(s, left);
    var delivered := [Delivery(topic, Take(s, size))];
    if And(op, 6) == 2 then Effect(Returned(None), delivered, [0x40, 2] + U16(pid), Drop(s, size))
    else if And(op, 6) == 4 then Effect(Raised(AssertionError), delivered, [], Drop(s, size))
    else Effect(Returned(None), delivered, [], Drop(s, size))
  }

  /** `wait_msg`. */
  function WaitMsg(s: bytes): Effect {
    if s == [] then Fails(OSError, [])
    else if s[0] == 0xd0 then
      if |s| == 1 then Fails(IndexError, [])
      else if s[1] != 0 then Fails(AssertionError, s[2..])
      else Effect(Returned(None), [], [], s[2..])
    else if And(s[0], 0xf0) != 0x30 then Effect(Returned(Some(s[0])), [], [], s[1..])
    else TakePublish(s[0], s[1..])
  }

  lemma WaitMsgReads(s: bytes)
    ensures WaitMsg(s).result.Returned? ==> |WaitMsg(s).rest| < |s|
  {
  }

  function After(before: Effect, more: Effect): Effect {
    Effect(more.result, before.delivered + more.delivered, before.sent + more.sent, more.rest)
  }

  datatype IdRead = Id(n: nat, rest: bytes) | BadId(error: Error, rest: bytes)

  /** What `publish` reads after the first byte of an acknowledgement. */
  function ReadId(s: bytes): (r: IdRead)
    ensures r.Id? ==> |r.rest| < |s|
  {
    if s == [] || s[0] != 2 then BadId(AssertionError, Drop(s, 1))
    else if |s| < 3 then BadId(IndexError, [])
    else Id(Number(s[1], s[2]), s[3..])
  }

  /** The loop at the end of `publish(qos=1)`. */
  function AwaitAck(s: bytes, pid: nat): Effect
    decreases |s|
  {
    var e := WaitMsg(s);
    if e.result.Raised? then e
    else
      WaitMsgReads(s);
      if e.result.op != Some(0x40) then After(e, AwaitAck(e.rest, pid))
      else
        var id := ReadId(e.rest);
        if id.BadId? then e.(result := Raised(id.error), rest := id.rest)
        else if id.n == pid then e.(result := Returned(None), rest := id.rest)
        else After(e, AwaitAck(id.rest, pid))
  }

  /** `wait_msg` called `n` times, for as long as it does not raise. */
  function WaitTimes(s: bytes, n: nat): Effect
    decreases n
  {
    if n == 0 then Effect(Returned(None), [], [], s)
    else
      var e := WaitMsg(s);
      if e.result.Raised? then e else After(e, WaitTimes(e.rest, n - 1))
  }

  // ---------------------------------------------------------------------------------------
  // Remaining Length

  lemma {:induction false} LengthRoundTrip(n: nat, rest: bytes)
    ensures RecvLen(EncodeLen(n) + rest) == Some((n, rest))
  {
    var s := EncodeLen(n) + rest;
    if n < 128 {
      assert s[1..] == rest;
    } else {
      LengthRoundTrip(n / 128, rest);
      assert s[1..] == EncodeLen(n / 128) + rest;
    }
  }

  /** No encoding that reads as `n` is shorter than the one written. */
  lemma {:induction false} LengthIsMinimal(s: bytes, n: nat, rest: bytes)
    requires RecvLen(s) == Some((n, rest))
    ensures |EncodeLen(n)| <= |s| - |rest|
  {
    if s[0] >= 128 {
      var more := RecvLen(s[1..]).value;
      LengthIsMinimal(s[1..], more.0, more.1);
      assert n / 128 == more.0;
    }
  }

  /** The size that `publish` accepts is the size that fits the three bytes after the first. */
  lemma LengthFits(n: nat)
    ensures |EncodeLen(n)| <= 3 <==> n < 2097152
  {
    assert n >= 128 ==> EncodeLen(n) == [n % 128 + 128] + EncodeLen(n / 128);
    assert n / 128 >= 128 ==> EncodeLen(n / 128) == [n / 128 % 128 + 128] + EncodeLen(n / 128 / 128);
    assert n / 128 / 128 >= 128 ==> |EncodeLen(n / 128 / 128)| == 1 + |EncodeLen(n / 128 / 128 / 128)|;
  }

  // ---------------------------------------------------------------------------------------
  // One packet

  function Acked(p: Packet): bytes
    requires p.WellFormed()
  {
    if p.Publish? && p.qos == 1 then Encode(PubAck(p.pid)) else []
  }

  function Delivered(p: Packet): seq<Delivery> {
    if p.Publish? then [Delivery(p.topic, p.payload)] else []
  }

  /** `op` holds the type 3 in its high four bits, `dup` in the next, then two bits of quality. */
  lemma FirstByte(op: byte, dup: nat, qos: nat, retain: nat)
    requires dup <= 1 && qos <= 2 && retain <= 1 && op == 0x30 + 8 * dup + 2 * qos + retain
    ensures And(op, 0xf0) == 0x30 && And(op, 6) == 2 * qos
  {
    var low := 8 * dup + 2 * qos + retain;
    assert op == 16 * 3 + low && low < 16;
    MaskF0(op);
    Mask6(op);
    assert op / 2 == 4 * (6 + dup) + qos;
  }

  lemma TakeDrop(a: bytes, b: bytes)
    ensures Take(a + b, |a|) == a && Drop(a + b, |a|) == b
  {
  }

  lemma ReadsU16(n: nat, rest: bytes)
    requires n < 65536
    ensures var s := U16(n) + rest; Number(s[0], s[1]) == n && s[2..] == rest
  {
  }

  /** What follows the length field, taken apart. */
  lemma BodyRoundTrip(op: byte, p: Packet, rest: bytes)
    requires p.Publish? && p.WellFormed() && And(op, 6) == 2 * p.qos
    ensures var id := if p.qos > 0 then U16(p.pid) else [];
      TakePublish(op, EncodeLen(RemainingLength(p)) + (U16(|p.topic|) + (p.topic + (id + (p.payload + rest)))))
      == TakePayload(op, p.topic, if p.qos > 0 then p.pid else 0, |p.payload|, p.payload + rest)
  {
    var id := if p.qos > 0 then U16(p.pid) else [];
    var tail := id + (p.payload + rest);
    LengthRoundTrip(RemainingLength(p), U16(|p.topic|) + (p.topic + tail));
    ReadsU16(|p.topic|, p.topic + tail);
    TakeDrop(p.topic, tail);
    if p.qos > 0 {
      ReadsU16(p.pid, p.payload + rest);
    } else {
      assert tail == p.payload + rest;
    }
  }

  lemma EncodedPublish(p: Packet, rest: bytes)
    requires p.Publish? && p.WellFormed()
    ensures var id := if p.qos > 0 then U16(p.pid) else []; var s := Encode(p) + rest;
      && s[0] == 0x30 + 8 * Bit(p.dup) + 2 * p.qos + Bit(p.retain)
      && s[1..] == EncodeLen(RemainingLength(p)) + (U16(|p.topic|) + (p.topic + (id + (p.payload + rest))))
  {
  }

  /** What is done with a payload that is all there. */
  lemma TakesPayload(op: byte, p: Packet, rest: bytes)
    requires p.Publish? && p.WellFormed() && p.qos <= 1 && And(op, 6) == 2 * p.qos
    ensures TakePayload(op, p.topic, if p.qos > 0 then p.pid else 0, |p.payload|, p.payload + rest)
         == Effect(Returned(None), Delivered(p), Acked(p), rest)
  {
    TakeDrop(p.payload, rest);
  }

  lemma WaitsForPublish(s: bytes)
    requires s != [] && s[0] != 0xd0 && And(s[0], 0xf0) == 0x30
    ensures WaitMsg(s) == TakePublish(s[0], s[1..])
  {
  }

  /** Reading one well-formed PUBLISH of quality 0 or 1 takes exactly that packet, delivers its topic
      and payload, and acknowledges it with its own identifier when it asks for it. */
  lemma PublishRoundTrip(p: Packet, rest: bytes)
    requires p.Publish? && p.WellFormed() && p.qos <= 1
    ensures WaitMsg(Encode(p) + rest) == Effect(Returned(None), Delivered(p), Acked(p), rest)
  {
    var s := Encode(p) + rest;
    EncodedPublish(p, rest);
    FirstByte(s[0], Bit(p.dup), p.qos, Bit(p.retain));
    WaitsForPublish(s);
    BodyRoundTrip(s[0], p, rest);
    TakesPayload(s[0], p, rest);
  }

  /** A PUBLISH of quality 2 is delivered, and then fails. */
  lemma QualityTwoFails(p: Packet, rest: bytes)
    requires p.Publish? && p.WellFormed() && p.qos == 2
    ensures WaitMsg(Encode(p) + rest) == Effect(Raised(AssertionError), Delivered(p), [], rest)
  {
    var s := Encode(p) + rest;
    EncodedPublish(p, rest);
    FirstByte(s[0], Bit(p.dup), p.qos, Bit(p.retain));
    WaitsForPublish(s);
    BodyRoundTrip(s[0], p, rest);
    TakeDrop(p.payload, rest);
  }

  // ---------------------------------------------------------------------------------------
  // A server's reading

  /** A PUBLISH packet as a server takes it off the wire, and what follows it. The type is in the high four
      bits of the first byte, then come the flags; section 3.3 of MQTT Version 3.1.1. */
  function DecodePublish(s: bytes): Option<(Packet, bytes)> {
    if s == [] || s[0] / 16 != 3 || s[0] / 2 % 4 == 3 then None
    else DecodeRest(s[0] / 8 % 2 == 1, s[0] / 2 % 4, s[0] % 2 == 1, s[1..])
  }

  function DecodeRest(dup: bool, qos: nat, retain: bool, s: bytes): Option<(Packet, bytes)> {
    var len := RecvLen(s);
    if len == None || |len.value.1| < len.value.0 then None
    else
      var packet := DecodeContent(dup, qos, retain, len.value.1[..len.value.0]);
      if packet == None then None else Some((packet.value, len.value.1[len.value.0..]))
  }

  /** The topic with its length, the identifier if the quality asks for one, and the payload. */
  function DecodeContent(dup: bool, qos: nat, retain: bool, s: bytes): Option<Packet> {
    if |s| < 2 || |s| < 2 + Number(s[0], s[1]) then None
    else
      var topic, more := s[2..2 + Number(s[0], s[1])], s[2 + Number(s[0], s[1])..];
      if qos == 0 then Some(Publish(dup, qos, retain, topic, 0, more))
      else if |more| < 2 then None
      else Some(Publish(dup, qos, retain, topic, Number(more[0], more[1]), more[2..]))
  }

  /** What a PUBLISH holds after its length. */
  function Content(p: Packet): bytes
    requires p.Publish? && p.WellFormed()
  {
    U16(|p.topic|) + (p.topic + ((if p.qos > 0 then U16(p.pid) else []) + p.payload))
  }

  lemma ContentDecodes(p: Packet)
    requires p.Publish? && p.WellFormed() && (p.qos == 0 ==> p.pid == 0)
    ensures DecodeContent(p.dup, p.qos, p.retain, Content(p)) == Some(p)
  {
    var more := (if p.qos > 0 then U16(p.pid) else []) + p.payload;
    ReadsU16(|p.topic|, p.topic + more);
    assert Content(p)[2..2 + |p.topic|] == p.topic && Content(p)[2 + |p.topic|..] == more;
    if p.qos > 0 {
      ReadsU16(p.pid, p.payload);
    } else {
      assert more == p.payload;
    }
  }

  lemma ContentEncoded(p: Packet, rest: bytes)
    requires p.Publish? && p.WellFormed()
    ensures |Content(p)| == RemainingLength(p)
    ensures (Encode(p) + rest)[1..] == EncodeLen(RemainingLength(p)) + (Content(p) + rest)
  {
    EncodedPublish(p, rest);
    var id := if p.qos > 0 then U16(p.pid) else [];
    Joined(id, p.payload, rest);
    Joined(p.topic, id + p.payload, rest);
    Joined(U16(|p.topic|), p.topic + (id + p.payload), rest);
  }

  lemma RestDecodes(p: Packet, rest: bytes)
    requires p.Publish? && p.WellFormed() && (p.qos == 0 ==> p.pid == 0)
    ensures DecodeRest(p.dup, p.qos, p.retain, EncodeLen(RemainingLength(p)) + (Content(p) + rest)) == Some((p, rest))
  {
    ContentEncoded(p, rest);
    LengthRoundTrip(RemainingLength(p), Content(p) + rest);
    ContentDecodes(p);
    RestIs(p, EncodeLen(RemainingLength(p)) + (Content(p) + rest), Content(p), rest);
  }

  lemma RestIs(p: Packet, s: bytes, content: bytes, rest: bytes)
    requires p.Publish? && RecvLen(s) == Some((|content|, content + rest)) && DecodeContent(p.dup, p.qos, p.retain, content) == Some(p)
    ensures DecodeRest(p.dup, p.qos, p.retain, s) == Some((p, rest))
  {
    assert (content + rest)[..|content|] == content && (content + rest)[|content|..] == rest;
  }

  lemma FlagsOf(op: byte, dup: nat, qos: nat, retain: nat)
    requires dup <= 1 && qos <= 2 && retain <= 1 && op == 0x30 + 8 * dup + 2 * qos + retain
    ensures op / 16 == 3 && op / 8 % 2 == dup && op / 2 % 4 == qos && op % 2 == retain
  {
  }

  /** A server reads back every PUBLISH packet, and what follows it stays. */
  lemma ServerReadsPublish(p: Packet, rest: bytes)
    requires p.Publish? && p.WellFormed() && (p.qos == 0 ==> p.pid == 0)
    ensures DecodePublish(Encode(p) + rest) == Some((p, rest))
  {
    EncodedPublish(p, rest);
    FlagsOf((Encode(p) + rest)[0], Bit(p.dup), p.qos, Bit(p.retain));
    ContentEncoded(p, rest);
    RestDecodes(p, rest);
  }

  /** The bytes of one packet: topic "a", payload "b", quality 0. And the length 321, as the standard
      encodes it. */
  lemma OnePublish()
    ensures Encode(Publish(false, 0, false, [0x61], 0, [0x62])) == [0x30, 4, 0, 1, 0x61, 0x62]
    ensures EncodeLen(321) == [193, 2]
  {
  }

  // ---------------------------------------------------------------------------------------
  // Streams

  ghost predicate Readable(p: Packet) {
    p.WellFormed() && (p.Publish? ==> p.qos <= 1)
  }

  ghost predicate AllReadable(ps: seq<Packet>) {
    forall i :: 0 <= i < |ps| ==> Readable(ps[i])
  }

  function Deliveries(ps: seq<Packet>): seq<Delivery> {
    if ps == [] then [] else Delivered(ps[0]) + Deliveries(ps[1..])
  }

  function Acks(ps: seq<Packet>): bytes
    requires forall i :: 0 <= i < |ps| ==> ps[i].WellFormed()
  {
    if ps == [] then [] else Acked(ps[0]) + Acks(ps[1..])
  }

  lemma WaitOnce(p: Packet, s: bytes, n: nat)
    requires p.Publish? && Readable(p)
    ensures WaitTimes(Encode(p) + s, n + 1) == After(Effect(Returned(None), Delivered(p), Acked(p), s), WaitTimes(s, n))
  {
    PublishRoundTrip(p, s);
  }

  /** What any sequence of PUBLISH packets puts on the wire is read back as exactly those topics and
      payloads, one packet a call. */
  lemma {:induction false} StreamRoundTrip(ps: seq<Packet>, rest: bytes)
    requires AllReadable(ps) && forall i :: 0 <= i < |ps| ==> ps[i].Publish?
    ensures WaitTimes(EncodeAll(ps) + rest, |ps|) == Effect(Returned(None), Deliveries(ps), Acks(ps), rest)
    decreases |ps|
  {
    if ps == [] {
      assert EncodeAll(ps) + rest == rest;
    } else {
      assert EncodeAll(ps) + rest == Encode(ps[0]) + (EncodeAll(ps[1..]) + rest);
      WaitOnce(ps[0], EncodeAll(ps[1..]) + rest, |ps| - 1);
      StreamRoundTrip(ps[1..], rest);
    }
  }

  lemma PingIsSkipped(rest: bytes)
    ensures WaitMsg(Encode(PingResp) + rest) == Effect(Returned(None), [], [], rest)
  {
    assert (Encode(PingResp) + rest)[2..] == rest;
  }

  /** An acknowledgement is left to the caller past its first byte. */
  lemma AckIsReturned(pid: nat, rest: bytes)
    requires pid < 65536
    ensures WaitMsg(Encode(PubAck(pid)) + rest) == Effect(Returned(Some(0x40)), [], [], [2] + U16(pid) + rest)
  {
    MaskF0(0x40);
    assert (Encode(PubAck(pid)) + rest)[1..] == [2] + U16(pid) + rest;
  }

  /** One turn of the acknowledgement loop. */
  lemma AwaitStep(p: Packet, rest: bytes, pid: nat)
    requires Readable(p)
    ensures AwaitAck(Encode(p) + rest, pid) ==
            if p == PubAck(pid) then Effect(Returned(None), [], [], rest)
            else After(Effect(Returned(None), Delivered(p), Acked(p), rest), AwaitAck(rest, pid))
  {
    match p {
      case Publish(_, _, _, _, _, _) => PublishRoundTrip(p, rest);
      case PingResp => PingIsSkipped(rest);
      case PubAck(other) =>
        AckIsReturned(other, rest);
        var s := [2] + U16(other) + rest;
        ReadsU16(other, rest);
        assert s[1..] == U16(other) + rest && s[3..] == rest;
    }
  }

  /** `await` goes past the packet `p` when it meets it. */
  ghost predicate Passes(await: bytes -> Effect, p: Packet)
    requires Readable(p)
  {
    forall rest :: await(Encode(p) + rest) == After(Effect(Returned(None), Delivered(p), Acked(p), rest), await(rest))
  }

  lemma {:induction false} PassesAll(await: bytes -> Effect, ps: seq<Packet>, tail: bytes)
    requires AllReadable(ps) && forall i :: 0 <= i < |ps| ==> Passes(await, ps[i])
    ensures await(EncodeAll(ps) + tail) == After(Effect(Returned(None), Deliveries(ps), Acks(ps), tail), await(tail))
    decreases |ps|
  {
    if ps == [] {
      assert EncodeAll(ps) + tail == tail;
    } else {
      Joined(Encode(ps[0]), EncodeAll(ps[1..]), tail);
      assert Passes(await, ps[0]);
      PassesAll(await, ps[1..], tail);
      Joined(Delivered(ps[0]), Deliveries(ps[1..]), await(tail).delivered);
      Joined(Acked(ps[0]), Acks(ps[1..]), await(tail).sent);
    }
  }

  /** The loop goes past packets that are not the acknowledgement it waits for. */
  lemma AwaitPast(ps: seq<Packet>, pid: nat, tail: bytes)
    requires AllReadable(ps) && PubAck(pid) !in ps
    ensures AwaitAck(EncodeAll(ps) + tail, pid) ==
            After(Effect(Returned(None), Deliveries(ps), Acks(ps), tail), AwaitAck(tail, pid))
  {
    var await := (s: bytes) => AwaitAck(s, pid);
    forall i | 0 <= i < |ps|
      ensures Passes(await, ps[i])
    {
      PassesOther(ps[i], pid);
    }
    PassesAll(await, ps, tail);
  }

  lemma PassesOther(p: Packet, pid: nat)
    requires Readable(p) && p != PubAck(pid)
    ensures Passes((s: bytes) => AwaitAck(s, pid), p)
  {
    forall rest: bytes
      ensures AwaitAck(Encode(p) + rest, pid) == After(Effect(Returned(None), Delivered(p), Acked(p), rest), AwaitAck(rest, pid))
    {
      AwaitStep(p, rest, pid);
    }
  }

  /** For any stream of well-formed packets that contains the awaited acknowledgement, the loop
      returns having consumed exactly the packets up to the first one with its own identifier, having
      delivered the PUBLISH packets among them in order, and having acknowledged each that asked. */
  lemma AwaitConsumesToItsAck(ps: seq<Packet>, pid: nat, rest: bytes)
    requires AllReadable(ps) && pid < 65536 && PubAck(pid) !in ps
    ensures AwaitAck(EncodeAll(ps) + (Encode(PubAck(pid)) + rest), pid) == Effect(Returned(None), Deliveries(ps), Acks(ps), rest)
  {
    AwaitPast(ps, pid, Encode(PubAck(pid)) + rest);
    AwaitStep(PubAck(pid), rest, pid);
  }

  /** Without its acknowledgement the loop delivers everything and then fails at the end of the stream. */
  lemma AwaitWithoutAckFails(ps: seq<Packet>, pid: nat)
    requires AllReadable(ps) && PubAck(pid) !in ps
    ensures AwaitAck(EncodeAll(ps), pid) == Effect(Raised(OSError), Deliveries(ps), Acks(ps), [])
  {
    AwaitPast(ps, pid, []);
    assert EncodeAll(ps) + [] == EncodeAll(ps);
  }

  /** Lengths that a PINGRESP or a PUBACK cannot have stop the client, after the byte that holds them. */
  lemma BadLengthsFail(n: byte, rest: bytes, pid: nat)
    ensures n != 0 ==> WaitMsg([0xd0, n] + rest) == Effect(Raised(AssertionError), [], [], rest)
    ensures n != 2 ==> AwaitAck([0x40, n] + rest, pid) == Effect(Raised(AssertionError), [], [], rest)
  {
    assert ([0xd0, n] + rest)[2..] == rest && ([0x40, n] + rest)[1..] == [n] + rest;
    MaskF0(0x40);
  }

  /** The counter of identifiers is not reduced to two bytes where it is compared: whatever the broker
      sends, no acknowledgement is that of an identifier past 65535. */
  lemma {:induction false} LateIdentifierIsNeverAcknowledged(s: bytes, pid: nat)
    requires pid >= 65536
    ensures AwaitAck(s, pid).result.Raised?
    decreases |s|
  {
    var e := WaitMsg(s);
    if e.result.Returned? {
      WaitMsgReads(s);
      if e.result.op != Some(0x40) {
        LateIdentifierIsNeverAcknowledged(e.rest, pid);
      } else if ReadId(e.rest).Id? {
        LateIdentifierIsNeverAcknowledged(ReadId(e.rest).rest, pid);
      }
    }
  }
}
