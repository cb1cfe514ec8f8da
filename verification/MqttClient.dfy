/** The client object: its packet identifier, and the two directions of its socket. */
module MqttClient {
  import opened Dicts
  import opened Bits
  import opened MqttWire

  /** `unread` is what the peer has sent and the client has not read, `written` all the client has
      sent, `delivered` the calls made to its callback. */
  class Client {
    var pid: nat
    var unread: bytes
    var written: bytes
    var delivered: seq<Delivery>

    constructor (stream: bytes)
      ensures pid == 0 && unread == stream && written == [] && delivered == []
    {
      pid, unread, written, delivered := 0, stream, [], [];
    }

    /** `sock.read(n)`. */
    method Read(n: nat) returns (r: bytes)
      modifies this`unread
      ensures r == Take(old(unread), n) && unread == Drop(old(unread), n)
    {
      r := Take(unread, n);
      unread := Drop(unread, n);
    }

    /** `sock.write(b)`. */
    method Write(b: bytes)
      modifies this`written
      ensures written == old(written) + b
    {
      written := written + b;
    }

    /** `_send_str`. */
    method SendStr(s: bytes)
      requires |s| < 65536
      modifies this`written
      ensures written == old(written) + U16(|s|) + s
    {
      Write(U16(|s|));
      Write(s);
    }

    /** `_recv_len`: the loop accumulates seven bits a turn. */
    method ReceiveLength() returns (n: nat, ok: bool)
      modifies this`unread
      ensures ok <==> RecvLen(old(unread)).Some?
      ensures ok ==> RecvLen(old(unread)).value == (n, unread)
      ensures !ok ==> unread == []
    {
      n := 0;
      var sh := 0;
      while true
        invariant Partly(old(unread), unread, n, sh)
        decreases |unread|
      {
        var r := Read(1);
        if r == [] {
          return n, false;
        }
        var b := r[0];
        SevenMoreBits(old(unread), [b] + unread, n, sh);
        n := Or(n, Shl(And(b, 0x7f), sh));
        if And(b, 0x80) == 0 {
          return n, true;
        }
        sh := sh + 7;
      }
    }

    /** Part of the length field of `start` has been read into the `sh` low bits of `n`, `s` is left. */
    static ghost predicate Partly(start: bytes, s: bytes, n: nat, sh: nat) {
      && n < Shl(1, sh)
      && (RecvLen(start).Some? <==> RecvLen(s).Some?)
      && (RecvLen(s).Some? ==>
            RecvLen(start).value == (n + Shl(RecvLen(s).value.0, sh), RecvLen(s).value.1))
    }

    static lemma SevenMoreBits(start: bytes, s: bytes, n: nat, sh: nat)
      requires Partly(start, s, n, sh) && s != []
      ensures And(s[0], 0x80) == 0 <==> s[0] < 128
      ensures var more := Or(n, Shl(And(s[0], 0x7f), sh));
        if s[0] < 128 then RecvLen(start) == Some((more, s[1..])) else Partly(start, s[1..], more, sh + 7)
    {
      TakenBits(s[0], n, sh);
      PartlyTaken(start, s, n, sh);
    }

    static lemma PartlyTaken(start: bytes, s: bytes, n: nat, sh: nat)
      requires Partly(start, s, n, sh) && s != [] && n + Shl(s[0] % 128, sh) < Shl(1, sh + 7)
      ensures var more := n + Shl(s[0] % 128, sh);
        if s[0] < 128 then RecvLen(start) == Some((more, s[1..])) else Partly(start, s[1..], more, sh + 7)
    {
      if s[0] >= 128 && RecvLen(s[1..]).Some? {
        RestIsWorth(s[0], RecvLen(s[1..]).value.0, sh);
      }
    }

    static lemma TakenBits(b: byte, n: nat, sh: nat)
      requires n < Shl(1, sh)
      ensures And(b, 0x80) == 0 <==> b < 128
      ensures Or(n, Shl(And(b, 0x7f), sh)) == n + Shl(b % 128, sh) < Shl(1, sh + 7)
    {
      Mask7f(b);
      Mask80(b);
      OrShl(n, b % 128, sh);
      FitsSevenMore(b % 128, n, sh);
    }

    static lemma FitsSevenMore(bits: nat, n: nat, sh: nat)
      requires bits < 128 && n < Shl(1, sh)
      ensures n + Shl(bits, sh) < Shl(1, sh + 7)
    {
      ShlSum(bits, 1, sh);
      ShlMonotone(bits + 1, 128, sh);
      Places(1);
      ShlTwice(1, 7, sh);
    }

    /** The bits still to come are worth 128 times as much after one more byte. */
    static lemma RestIsWorth(b: byte, v: nat, sh: nat)
      requires b >= 128
      ensures Shl(b - 128 + 128 * v, sh) == Shl(b % 128, sh) + Shl(v, sh + 7)
    {
      ShlSum(b % 128, 128 * v, sh);
      Places(v);
      ShlTwice(v, 7, sh);
    }

    /** `wait_msg` after the length field: topic, identifier, payload, callback and acknowledgement. */
    method ReceivePublish(op: byte, size: nat) returns (r: Result)
      modifies this`unread, this`written, this`delivered
      ensures |old(unread)| < 2 ==> r == Raised(IndexError) && unread == [] && written == old(written) && delivered == old(delivered)
      ensures |old(unread)| >= 2 ==> Did(TakeBody(op, size, old(unread)), r, old(written), old(delivered))
    {
      var left: int := size;
      var two := Read(2);
      if |two| < 2 {
        return Raised(IndexError);
      }
      HighLow(two[0], two[1]);
      var topicLen := Or(Shl(two[0], 8), two[1]);
      var topic := Read(topicLen);
      left := left - (topicLen + 2);
      var id := 0;
      if And(op, 6) != 0 {
        two := Read(2);
        if |two| < 2 {
          return Raised(IndexError);
        }
        HighLow(two[0], two[1]);
        id := Or(Shl(two[0], 8), two[1]);
        left := left - 2;
      }
      r := ReceivePayload(op, topic, id, left);
    }

    /** Callback and acknowledgement. */
    method ReceivePayload(op: byte, topic: bytes, id: nat, left: int) returns (r: Result)
      requires id < 65536
      modifies this`unread, this`written, this`delivered
      ensures Did(TakePayload(op, topic, id, left, old(unread)), r, old(written), old(delivered))
    {
      var payload := Read(Size(unread, left));
      delivered := delivered + [Delivery(topic, payload)];
      if And(op, 6) == 2 {
        Acknowledge(id);
      } else if And(op, 6) == 4 {
        return Raised(AssertionError);
      }
      return Returned(None);
    }

    /** The client's state once the effect `e` has happened. */
    ghost predicate Did(e: Effect, r: Result, written0: bytes, delivered0: seq<Delivery>)
      reads this
    {
      r == e.result && unread == e.rest && written == written0 + e.sent && delivered == delivered0 + e.delivered
    }

    /** `hi << 8 | lo`. */
    static lemma HighLow(hi: byte, lo: byte)
      ensures Or(Shl(hi, 8), lo) == Number(hi, lo) < 65536
    {
      Places(hi);
      Places(1);
      OrShl(lo, hi, 8);
    }

    /** The four-byte buffer of an acknowledgement. */
    method Acknowledge(id: nat)
      requires id < 65536
      modifies this`written
      ensures written == old(written) + Encode(PubAck(id))
    {
      var pkt := new byte[4];
      pkt[0], pkt[1], pkt[2], pkt[3] := 0x40, 0x02, 0, 0;
      pkt[2], pkt[3] := id / 256, id % 256;
      assert pkt[..] == [0x40, 0x02, id / 256, id % 256];
      Write(pkt[..]);
    }

    /** `wait_msg`. */
    method Wait() returns (r: Result)
      modifies this`unread, this`written, this`delivered
      ensures Did(WaitMsg(old(unread)), r, old(written), old(delivered))
    {
      ghost var start := unread;
      var res := Read(1);
      if res == [] {
        return Raised(OSError);
      }
      if res == [0xd0] {
        var sz := Read(1);
        if sz == [] {
          return Raised(IndexError);
        }
        return if sz[0] == 0 then Returned(None) else Raised(AssertionError);
      }
      var op := res[0];
      if And(op, 0xf0) != 0x30 {
        return Returned(Some(op));
      }
      r := ReceiveRest(op);
    }

    /** `wait_msg` after the first byte of a PUBLISH. */
    method ReceiveRest(op: byte) returns (r: Result)
      modifies this`unread, this`written, this`delivered
      ensures Did(TakePublish(op, old(unread)), r, old(written), old(delivered))
    {
      var size, ok := ReceiveLength();
      if !ok {
        return Raised(IndexError);
      }
      r := ReceivePublish(op, size);
    }
 
    // Publishing

    /** The length loop of `publish`, writing into `pkt` from place 1 on. */
    method PutLength(pkt: array<byte>, size: nat) returns (i: nat)
      requires pkt.Length == 4 && size < 2097152
      modifies pkt
      ensures 1 <= i <= 3 && pkt[0] == old(pkt[0]) && pkt[1..i + 1] == EncodeLen(size)
    {
      var sz := size;
      i := 1;
      while sz > 0x7f
        invariant 1 <= i <= 3
        invariant (i == 1 ==> sz < 2097152) && (i == 2 ==> sz < 16384) && (i == 3 ==> sz < 128)
        invariant pkt[0] == old(pkt[0]) && pkt[1..i] + EncodeLen(sz) == EncodeLen(size)
      {
        SevenBits(sz);
        ghost var done := pkt[1..i];
        pkt[i] := Or(And(sz, 0x7f), 0x80);
        sz := Shr(sz, 7);
        i := i + 1;
        assert pkt[1..i] == done + [pkt[i - 1]];
      }
      pkt[i] := sz;
      assert pkt[1..i + 1] == pkt[1..i] + [sz];
    }

    static lemma SevenBits(n: nat)
      ensures Or(And(n, 0x7f), 0x80) == n % 128 + 128 && Shr(n, 7) == n / 128
    {
      Mask7f(n);
      Places(1);
      OrShl(n % 128, 1, 7);
      Quotients(n);
    }

    /** `pkt[0] |= qos << 1 | retain` on a PUBLISH byte. */
    static lemma PublishFlags(qos: nat, retain: bool)
      requires qos <= 2
      ensures Or(0x30, Or(Shl(qos, 1), Bit(retain))) == 0x30 + 2 * qos + Bit(retain)
    {
      Places(1);
      Places(qos);
      OrShl(Bit(retain), qos, 1);
      Places(3);
      OrShl(2 * qos + Bit(retain), 3, 4);
    }

    /** Two bytes hold the low sixteen bits of the client's counter. */
    static function ToPublish(topic: bytes, msg: bytes, retain: bool, qos: nat, pid: nat): Packet {
      Packet.Publish(false, qos, retain, topic, if qos > 0 then pid % 65536 else 0, msg)
    }

    /** A PUBLISH up to its topic, and what follows. */
    static function Front(p: Packet): bytes
      requires p.Publish? && p.WellFormed()
    {
      ([0x30 + 8 * Bit(p.dup) + 2 * p.qos + Bit(p.retain)] + EncodeLen(RemainingLength(p))) + (U16(|p.topic|) + p.topic)
    }

    static function Back(p: Packet): bytes
      requires p.Publish? && p.WellFormed()
    {
      (if p.qos > 0 then U16(p.pid) else []) + p.payload
    }

    static lemma FrontAndBack(p: Packet, start: bytes)
      requires p.Publish? && p.WellFormed()
      ensures (start + Front(p)) + Back(p) == start + Encode(p)
    {
      assert Front(p) + Back(p) == Encode(p);
    }

    /** The bytes `s` say to a server what `publish` was asked to, and to another client what to deliver;
        `rest` is what follows. */
    static ghost predicate Says(s: bytes, topic: bytes, msg: bytes, retain: bool, qos: nat, id: nat, rest: bytes) {
      && DecodePublish(s) == Some((Packet.Publish(false, qos, retain, topic, id, msg), rest))
      && (qos <= 1 ==> WaitMsg(s).result == Returned(None) && WaitMsg(s).delivered == [Delivery(topic, msg)] && WaitMsg(s).rest == rest)
    }

    static lemma PublishSays(topic: bytes, msg: bytes, retain: bool, qos: nat, pid: nat, rest: bytes)
      requires |topic| < 65536 && qos <= 2
      ensures Says(Encode(ToPublish(topic, msg, retain, qos, pid)) + rest, topic, msg, retain, qos, if qos > 0 then pid % 65536 else 0, rest)
    {
      var p := ToPublish(topic, msg, retain, qos, pid);
      ServerReadsPublish(p, rest);
      if qos <= 1 {
        PublishRoundTrip(p, rest);
      }
    }

    /** The bytes sent before stay, and those of the packet are followed by `rest`. */
    static ghost predicate Adds(start: bytes, written: bytes, topic: bytes, msg: bytes, retain: bool, qos: nat, pid: nat, rest: bytes) {
      && |written| >= |start| && written[..|start|] == start
      && Says(written[|start|..], topic, msg, retain, qos, if qos > 0 then pid % 65536 else 0, rest)
    }

    static lemma PublishThen(start: bytes, topic: bytes, msg: bytes, retain: bool, qos: nat, pid: nat, rest: bytes)
      requires |topic| < 65536 && qos <= 2
      ensures Adds(start, start + Encode(ToPublish(topic, msg, retain, qos, pid)) + rest, topic, msg, retain, qos, pid, rest)
      ensures rest == [] ==> Adds(start, start + Encode(ToPublish(topic, msg, retain, qos, pid)), topic, msg, retain, qos, pid, rest)
    {
      var sent := Encode(ToPublish(topic, msg, retain, qos, pid));
      PublishSays(topic, msg, retain, qos, pid, rest);
      SaidAfter(start, sent + rest, topic, msg, retain, qos, pid, rest);
      Joined(start, sent, rest);
      assert rest == [] ==> sent + rest == sent;
    }

    static lemma SaidAfter(start: bytes, said: bytes, topic: bytes, msg: bytes, retain: bool, qos: nat, pid: nat, rest: bytes)
      requires Says(said, topic, msg, retain, qos, if qos > 0 then pid % 65536 else 0, rest)
      ensures Adds(start, start + said, topic, msg, retain, qos, pid, rest)
    {
      assert (start + said)[..|start|] == start && (start + said)[|start|..] == said;
    }

    /** What `publish` puts on the wire before any waiting. */
    method SendPublish(topic: bytes, msg: bytes, retain: bool, qos: nat)
      requires |topic| < 65536 && qos <= 2
      requires RemainingLength(ToPublish(topic, msg, retain, qos, pid)) < 2097152
      modifies this`written, this`pid
      ensures pid == if qos > 0 then old(pid) + 1 else old(pid)
      ensures written == old(written) + Encode(ToPublish(topic, msg, retain, qos, pid))
      ensures Adds(old(written), written, topic, msg, retain, qos, pid, [])
    {
      ghost var start := written;
      var pkt := SendFront(topic, msg, retain, qos, if qos > 0 then pid + 1 else 0);
      SendBack(pkt, topic, msg, retain, qos);
      FrontAndBack(ToPublish(topic, msg, retain, qos, pid), start);
      PublishThen(start, topic, msg, retain, qos, pid, []);
    }

    /** `pkt` with its first byte set. */
    static method StartPacket(qos: nat, retain: bool) returns (pkt: array<byte>)
      requires qos <= 2
      ensures fresh(pkt) && pkt.Length == 4 && pkt[0] == 0x30 + 2 * qos + Bit(retain)
    {
      pkt := new byte[4];
      pkt[0], pkt[1], pkt[2], pkt[3] := 0x30, 0, 0, 0;
      PublishFlags(qos, retain);
      pkt[0] := Or(pkt[0], Or(Shl(qos, 1), Bit(retain)));
    }

    method SendFront(topic: bytes, msg: bytes, retain: bool, qos: nat, ghost id: nat) returns (pkt: array<byte>)
      requires |topic| < 65536 && qos <= 2
      requires RemainingLength(ToPublish(topic, msg, retain, qos, id)) < 2097152
      modifies this`written
      ensures fresh(pkt) && pkt.Length == 4
      ensures written == old(written) + Front(ToPublish(topic, msg, retain, qos, id))
    {
      ghost var start := written;
      pkt := StartPacket(qos, retain);
      ghost var header := [pkt[0]] + EncodeLen(2 + |topic| + |msg| + (if qos > 0 then 2 else 0));
      SendHeader(pkt, 2 + |topic| + |msg| + (if qos > 0 then 2 else 0));
      SendStr(topic);
      Joined(start, header, U16(|topic|) + topic);
      Joined(start + header, U16(|topic|), topic);
    }

    method SendBack(pkt: array<byte>, topic: bytes, msg: bytes, retain: bool, qos: nat)
      requires pkt.Length == 4 && |topic| < 65536 && qos <= 2
      modifies pkt, this`written, this`pid
      ensures pid == if qos > 0 then old(pid) + 1 else old(pid)
      ensures written == old(written) + Back(ToPublish(topic, msg, retain, qos, pid))
    {
      if qos > 0 {
        pid := pid + 1;
        SendId(pkt);
      }
      Write(msg);
    }

    method SendHeader(pkt: array<byte>, size: nat)
      requires pkt.Length == 4 && size < 2097152
      modifies pkt, this`written
      ensures written == old(written) + ([old(pkt[0])] + EncodeLen(size))
    {
      var i := PutLength(pkt, size);
      assert pkt[..i + 1] == [pkt[0]] + pkt[1..i + 1];
      Write(pkt[..i + 1]);
    }

    method SendId(pkt: array<byte>)
      requires pkt.Length == 4
      modifies pkt, this`written
      ensures written == old(written) + U16(pid % 65536)
    {
      pkt[0], pkt[1] := pid / 256 % 256, pid % 256;
      LowBytes(pid);
      assert pkt[..2] == U16(pid % 65536);
      Write(pkt[..2]);
    }

    static lemma LowBytes(n: nat)
      ensures n % 65536 / 256 == n / 256 % 256 && n % 65536 % 256 == n % 256
    {
    }

    /** The rest of an acknowledgement. */
    method ReadIdentifier() returns (r: Result, id: nat)
      modifies this`unread
      ensures var read := ReadId(old(unread));
        if read.Id? then r == Returned(None) && id == read.n && unread == read.rest
        else r == Raised(read.error) && unread == read.rest
    {
      id := 0;
      var sz := Read(1);
      if sz != [2] {
        return Raised(AssertionError), id;
      }
      var two := Read(2);
      if |two| < 2 {
        return Raised(IndexError), id;
      }
      HighLow(two[0], two[1]);
      return Returned(None), Or(Shl(two[0], 8), two[1]);
    }

    /** One turn of the waiting loop of `publish`; `turn` is its part of the whole effect. */
    method AwaitTurn(expected: nat) returns (r: Result, stop: bool, ghost turn: Effect)
      modifies this`unread, this`written, this`delivered
      ensures stop ==> Did(AwaitAck(old(unread), expected), r, old(written), old(delivered))
      ensures !stop ==> |unread| < |old(unread)| && Did(turn, turn.result, old(written), old(delivered))
      ensures !stop ==> AwaitAck(old(unread), expected) == After(turn, AwaitAck(unread, expected))
    {
      WaitMsgReads(unread);
      turn := WaitMsg(unread);
      r := Wait();
      if r.Raised? {
        return r, true, turn;
      }
      if r.op != Some(0x40) {
        return r, false, turn;
      }
      var id;
      r, id := ReadIdentifier();
      stop := r.Raised? || id == expected;
      turn := turn.(rest := unread);
    }

    /** The waiting loop of `publish`. */
    method AwaitPubAck(expected: nat) returns (r: Result)
      modifies this`unread, this`written, this`delivered
      ensures Did(AwaitAck(old(unread), expected), r, old(written), old(delivered))
    {
      ghost var whole := AwaitAck(unread, expected);
      ghost var left := whole;
      while true
        invariant left == AwaitAck(unread, expected) && left.result == whole.result && left.rest == whole.rest
        invariant written + left.sent == old(written) + whole.sent
        invariant delivered + left.delivered == old(delivered) + whole.delivered
        decreases |unread|
      {
        ghost var written0, delivered0 := written, delivered;
        var stop;
        ghost var turn;
        r, stop, turn := AwaitTurn(expected);
        if stop {
          return;
        }
        left := AwaitAck(unread, expected);
        Joined(written0, turn.sent, left.sent);
        Joined(delivered0, turn.delivered, left.delivered);
      }
    }

    /** The length that `publish` announces. */
    static function Announced(topic: bytes, msg: bytes, qos: nat): nat {
      2 + |topic| + |msg| + (if qos > 0 then 2 else 0)
    }

    /** `publish`. A packet too long to announce is refused before anything is written; quality 2 is
        refused after the packet has gone out. */
    method Publish(topic: bytes, msg: bytes, retain: bool, qos: nat) returns (r: Result)
      requires |topic| < 65536 && qos <= 2
      modifies this
      ensures Announced(topic, msg, qos) >= 2097152 ==>
        r == Raised(AssertionError) && unchanged(this)
      ensures Announced(topic, msg, qos) < 2097152 ==>
        pid == if qos > 0 then old(pid) + 1 else old(pid)
      ensures Announced(topic, msg, qos) < 2097152 ==>
        var sent := old(written) + Encode(ToPublish(topic, msg, retain, qos, pid));
        if qos == 1 then Did(AwaitAck(old(unread), pid), r, sent, old(delivered))
        else Did(Effect(if qos == 2 then Raised(AssertionError) else Returned(None), [], [], old(unread)), r, sent, old(delivered))
      ensures Announced(topic, msg, qos) < 2097152 ==>
        Adds(old(written), written, topic, msg, retain, qos, pid, if qos == 1 then AwaitAck(old(unread), pid).sent else [])
    {
      if Announced(topic, msg, qos) >= 2097152 {
        return Raised(AssertionError);
      }
      SendPublish(topic, msg, retain, qos);
      if qos == 1 {
        PublishThen(old(written), topic, msg, retain, qos, pid, AwaitAck(unread, pid).sent);
        r := AwaitPubAck(pid);
      } else if qos == 2 {
        return Raised(AssertionError);
      } else {
        return Returned(None);
      }
    }
  }
}
