/** The CONNECT packet of MQTT 3.1.1: how the client builds it, and how a server takes it apart. */
module MqttConnect {
  import opened Dicts
  import opened Bits
  import opened MqttWire
  import MqttClient

  datatype Will = Will(topic: bytes, msg: bytes, qos: nat, retain: bool)

  /** What the client object holds when `connect` is called. */
  datatype Session = Session(
    clientId: bytes, clean: bool, keepalive: nat, will: Option<Will>, login: Option<(bytes, bytes)>)
  {
    /** Strings fit their length field; `set_last_will` wants a topic and a quality of at most 2. */
    predicate WellFormed() {
      && |clientId| < 65536
      && (will.Some? ==> 0 < |will.value.topic| < 65536 && |will.value.msg| < 65536 && will.value.qos <= 2)
      && (login.Some? ==> |login.value.0| < 65536 && |login.value.1| < 65536)
    }

    function Remaining(): nat {
      12 + |clientId|
      + (if login.Some? then 4 + |login.value.0| + |login.value.1| else 0)
      + (if will.Some? then 4 + |will.value.topic| + |will.value.msg| else 0)
    }

    function Flags(): byte
      requires WellFormed()
    {
      2 * Bit(clean) + (if login.Some? then 0xc0 else 0)
      + (if will.Some? then 4 + 8 * will.value.qos + 32 * Bit(will.value.retain) else 0)
    }
  }

  function Str(s: bytes): bytes
    requires |s| < 65536
  {
    U16(|s|) + s
  }

  const PROTOCOL: bytes := [0, 4, 0x4d, 0x51, 0x54, 0x54, 4]

  function WillFields(p: Session): bytes
    requires p.WellFormed()
  {
    if p.will.Some? then Str(p.will.value.topic) + Str(p.will.value.msg) else []
  }

  function LoginFields(p: Session): bytes
    requires p.WellFormed()
  {
    if p.login.Some? then Str(p.login.value.0) + Str(p.login.value.1) else []
  }

  /** The bytes `connect` writes. The length is kept in one byte, which holds its low eight bits. */
  function ConnectBytes(p: Session): bytes
    requires p.WellFormed() && p.keepalive < 65536
  {
    [0x10, p.Remaining() % 256] + (PROTOCOL + ([p.Flags()] + (U16(p.keepalive)
      + (Str(p.clientId) + (WillFields(p) + LoginFields(p))))))
  }

  // ---------------------------------------------------------------------------------------
  // A server's reading, section 3.1 of MQTT Version 3.1.1

  function ReadStr(s: bytes): Option<(bytes, bytes)> {
    if |s| < 2 || |s| - 2 < Number(s[0], s[1]) then None
    else Some((s[2..2 + Number(s[0], s[1])], s[2 + Number(s[0], s[1])..]))
  }

  function ReadTwo(s: bytes): Option<((bytes, bytes), bytes)> {
    var a := ReadStr(s);
    if a == None then None
    else
      var b := ReadStr(a.value.1);
      if b == None then None else Some(((a.value.0, b.value.0), b.value.1))
  }

  /** The payload, in the order of section 3.1.3: client, will topic and message, user and password. */
  function ReadPayload(flags: byte, keepalive: nat, s: bytes): Option<Session> {
    var id := ReadStr(s);
    if id == None then None
    else
      var will := if flags / 4 % 2 == 1 then ReadTwo(id.value.1) else Some((([], []), id.value.1));
      if will == None then None
      else
        var login := if flags / 64 == 3 then ReadTwo(will.value.1) else Some((([], []), will.value.1));
        if login == None || login.value.1 != [] then None
        else Some(Session(id.value.0, flags / 2 % 2 == 1, keepalive,
                          if flags / 4 % 2 == 1
                          then Some(Will(will.value.0.0, will.value.0.1, flags / 8 % 4, flags / 32 % 2 == 1)) else None,
                          if flags / 64 == 3 then Some(login.value.0) else None))
  }

  /** A whole packet: its length field must announce exactly the bytes that follow it. */
  function DecodeConnect(s: bytes): Option<Session> {
    if s == [] || s[0] != 0x10 then None
    else
      var len := RecvLen(s[1..]);
      if len == None || |len.value.1| != len.value.0 || |len.value.1| < 10 then None
      else
        var body := len.value.1;
        if body[..7] != PROTOCOL || body[7] % 2 != 0 then None
        else ReadPayload(body[7], Number(body[8], body[9]), body[10..])
  }

  lemma ReadStrOf(s: bytes, rest: bytes)
    requires |s| < 65536
    ensures ReadStr(Str(s) + rest) == Some((s, rest))
  {
    var all := Str(s) + rest;
    assert Number(all[0], all[1]) == |s|;
    assert all[2..2 + |s|] == s && all[2 + |s|..] == rest;
  }

  lemma ReadTwoOf(a: bytes, b: bytes, rest: bytes)
    requires |a| < 65536 && |b| < 65536
    ensures ReadTwo((Str(a) + Str(b)) + rest) == Some(((a, b), rest))
  {
    assert (Str(a) + Str(b)) + rest == Str(a) + (Str(b) + rest);
    ReadStrOf(a, Str(b) + rest);
    ReadStrOf(b, rest);
  }

  lemma FlagsDecode(p: Session)
    requires p.WellFormed()
    ensures var f := p.Flags();
      && f % 2 == 0 && (f / 2 % 2 == 1 <==> p.clean) && (f / 4 % 2 == 1 <==> p.will.Some?) && (f / 64 == 3 <==> p.login.Some?)
      && (p.will.Some? ==> f / 8 % 4 == p.will.value.qos && (f / 32 % 2 == 1 <==> p.will.value.retain))
  {
  }

  lemma PayloadDecodes(p: Session)
    requires p.WellFormed()
    ensures ReadPayload(p.Flags(), p.keepalive, Str(p.clientId) + (WillFields(p) + LoginFields(p))) == Some(p)
  {
    FlagsDecode(p);
    ReadStrOf(p.clientId, WillFields(p) + LoginFields(p));
    if p.will.Some? {
      ReadTwoOf(p.will.value.topic, p.will.value.msg, LoginFields(p));
    } else {
      assert WillFields(p) + LoginFields(p) == LoginFields(p);
    }
    if p.login.Some? {
      assert LoginFields(p) + [] == LoginFields(p);
      ReadTwoOf(p.login.value.0, p.login.value.1, []);
    }
  }

  lemma ConnectSize(p: Session)
    requires p.WellFormed() && p.keepalive < 65536
    ensures |ConnectBytes(p)| == 2 + p.Remaining()
  {
  }

  /** A server reads back every input of `connect` exactly when the remaining length is below 128. */
  lemma ConnectRoundTripIff(p: Session)
    requires p.WellFormed() && p.keepalive < 65536
    ensures DecodeConnect(ConnectBytes(p)) == (if p.Remaining() < 128 then Some(p) else None)
  {
    ConnectSize(p);
    HeaderDecodes(p);
    PayloadDecodes(p);
    FlagsDecode(p);
    ReadsBackIff(p, ConnectBytes(p));
  }

  /** A client identifier of 116 bytes is the shortest that a server cannot read back. */
  lemma LongIdentifierIsMisread(id: bytes)
    requires |id| == 116
    ensures var p := Session(id, true, 0, None, None);
      p.WellFormed() && p.Remaining() == 128 && DecodeConnect(ConnectBytes(p)) == None
  {
    ConnectRoundTripIff(Session(id, true, 0, None, None));
  }

  lemma ReadsBackIff(p: Session, s: bytes)
    requires p.WellFormed()
    requires |s| == 2 + p.Remaining() && s[0] == 0x10 && s[1] == p.Remaining() % 256 && s[2] == 0
    requires s[2..][..7] == PROTOCOL && s[2..][7] % 2 == 0
    requires ReadPayload(s[2..][7], Number(s[2..][8], s[2..][9]), s[2..][10..]) == Some(p)
    ensures DecodeConnect(s) == (if p.Remaining() < 128 then Some(p) else None)
  {
    var len := s[1..];
    assert len[0] == p.Remaining() % 256 && len[1] == 0 && len[1..] == s[2..];
    LengthByteReads(len);
    if p.Remaining() < 128 {
      DecodesFrom(s, s[2..]);
    } else {
      WrongLength(s);
    }
  }

  lemma DecodesFrom(s: bytes, body: bytes)
    requires s != [] && s[0] == 0x10 && RecvLen(s[1..]) == Some((|body|, body)) && |body| >= 10
    requires body[..7] == PROTOCOL && body[7] % 2 == 0
    ensures DecodeConnect(s) == ReadPayload(body[7], Number(body[8], body[9]), body[10..])
  {
  }

  lemma WrongLength(s: bytes)
    requires s != [] && RecvLen(s[1..]).Some? && RecvLen(s[1..]).value.0 != |RecvLen(s[1..]).value.1|
    ensures DecodeConnect(s) == None
  {
  }

  /** One length byte, followed by the zero that opens the protocol name. */
  lemma LengthByteReads(s: bytes)
    requires |s| >= 2 && s[1] == 0
    ensures RecvLen(s) == if s[0] < 128 then Some((s[0], s[1..])) else Some((s[0] - 128, s[2..]))
  {
    assert s[1..][1..] == s[2..];
    assert RecvLen(s[1..]) == Some((0, s[2..]));
  }

  lemma HeaderDecodes(p: Session)
    requires p.WellFormed() && p.keepalive < 65536
    ensures var body := ConnectBytes(p)[2..];
      && |body| >= 10 && body[..7] == PROTOCOL && body[7] == p.Flags() && Number(body[8], body[9]) == p.keepalive
      && body[10..] == Str(p.clientId) + (WillFields(p) + LoginFields(p))
  {
    var rest := Str(p.clientId) + (WillFields(p) + LoginFields(p));
    var body := PROTOCOL + ([p.Flags()] + (U16(p.keepalive) + rest));
    assert ConnectBytes(p)[2..] == body;
    assert body[..7] == PROTOCOL;
  }

  // ---------------------------------------------------------------------------------------
  // The method

  /** `0x4 | (qos & 1) << 3 | (qos & 2) << 3`. */
  lemma WillBits(qos: nat)
    requires qos <= 2
    ensures Or(Or(0x4, Shl(And(qos, 1), 3)), Shl(And(qos, 2), 3)) == 4 + 8 * qos
  {
    Mask1(qos);
    Mask2(qos);
    LowQosBit(qos % 2);
    HighQosBit(4 + 8 * (qos % 2), qos / 2 % 2);
  }

  lemma LowQosBit(b: nat)
    requires b < 2
    ensures Or(4, Shl(b, 3)) == 4 + 8 * b
  {
    Places(1);
    Places(b);
    OrShl(4, b, 3);
  }

  lemma HighQosBit(a: nat, b: nat)
    requires a < 16
    ensures Or(a, Shl(2 * b, 3)) == a + 16 * b
  {
    Places(1);
    Places(b);
    ShlTwice(b, 1, 3);
    OrShl(a, b, 4);
  }

  /** The login bits have no place in common with the session bit, nor the will bits with either. */
  lemma LoginBits(clean: bool)
    ensures Shl(Bit(clean), 1) == 2 * Bit(clean) && Or(2 * Bit(clean), 0xc0) == 2 * Bit(clean) + 0xc0
  {
    Places(3);
    Places(1);
    assert Shl(3, 6) == 2 * Shl(3, 5) && Shl(1, 6) == 2 * Shl(1, 5);
    OrShl(2 * Bit(clean), 3, 6);
  }

  /** What the flags may hold before those of a will are set: a session bit and two login bits. */
  predicate BeforeWill(f: byte) {
    f == 0 || f == 2 || f == 0xc0 || f == 0xc2
  }

  lemma FourBitsAdded(f: nat, a: nat, b: nat, c: nat)
    requires a < 4 && b < 16 && f == a + 64 * c
    ensures Or(f, 4 * b) == f + 4 * b
  {
    Places(1);
    Places(b);
    Places(c);
    OrBetween(a, b, c, 2, 4);
  }

  lemma OneBitAdded(f: nat, a: nat, b: nat, c: nat)
    requires a < 32 && b < 2 && f == a + 64 * c
    ensures Or(f, Shl(b, 5)) == f + 32 * b
  {
    Places(b);
    SixthPlace(c);
    OrBetween(a, b, c, 5, 1);
  }

  lemma SixthPlace(c: nat)
    ensures Shl(c, 5 + 1) == 64 * c && Shl(1, 5) == 32 && Shl(1, 1) == 2
  {
    Places(1);
    Places(c);
  }

  /** The fixed part of the packet, built in place. */
  method ConnectHeader(p: Session) returns (msg: array<byte>)
    requires p.WellFormed() && p.keepalive < 65536
    ensures fresh(msg)
    ensures msg[..] == [0x10, p.Remaining() % 256] + (PROTOCOL + ([p.Flags()] + U16(p.keepalive)))
  {
    msg := StartHeader(|p.clientId|, p.clean);
    if p.login.Some? {
      PutLogin(msg, p.clean, 12 + |p.clientId|, p.login.value);
    }
    PutKeepalive(msg, p.keepalive);
    if p.will.Some? {
      PutWill(msg, BeforeWillTotal(p), p.will.value);
    }
    HeaderBytes(msg[..], p);
  }

  method StartHeader(idLen: nat, clean: bool) returns (msg: array<byte>)
    ensures fresh(msg) && FixedPart(msg[..])
    ensures msg[1] == (12 + idLen) % 256 && msg[9] == 2 * Bit(clean) && msg[10] == msg[11] == 0
  {
    LoginBits(clean);
    msg := new byte[12](i requires 0 <= i < 12 => TEMPLATE[i]);
    assert msg[..] == TEMPLATE;
    SetTwo(msg, (10 + 2 + idLen) % 256, Shl(Bit(clean), 1));
  }

  const TEMPLATE: bytes := [0x10, 0, 0, 4, 0x4d, 0x51, 0x54, 0x54, 4, 2, 0, 0]

  /** `msg[1]` and `msg[9]` of the template. */
  method SetTwo(msg: array<byte>, low: byte, session: byte)
    requires msg[..] == TEMPLATE
    modifies msg
    ensures FixedPart(msg[..]) && msg[1] == low && msg[9] == session && msg[10] == msg[11] == 0
  {
    assert msg[2..9] == TEMPLATE[2..9] == PROTOCOL;
    msg[1] := low;
    msg[9] := session;
    assert msg[2..9] == PROTOCOL;
  }

  function BeforeWillTotal(p: Session): nat {
    12 + |p.clientId| + (if p.login.Some? then 4 + |p.login.value.0| + |p.login.value.1| else 0)
  }

  /** Everything but the length, the flags and the keepalive is still as it was set. */
  predicate FixedPart(s: bytes) {
    |s| == 12 && s[0] == 0x10 && s[2..9] == PROTOCOL
  }

  lemma HeaderBytes(s: bytes, p: Session)
    requires p.WellFormed() && p.keepalive < 65536
    requires FixedPart(s) && s[1] == p.Remaining() % 256 && s[9] == p.Flags() && s[10..] == U16(p.keepalive)
    ensures s == [0x10, p.Remaining() % 256] + (PROTOCOL + ([p.Flags()] + U16(p.keepalive)))
  {
    assert s == s[..2] + (s[2..9] + (s[9..10] + s[10..]));
  }

  method PutLogin(msg: array<byte>, clean: bool, ghost total: nat, login: (bytes, bytes))
    requires FixedPart(msg[..]) && msg[1] == total % 256 && msg[9] == 2 * Bit(clean)
    modifies msg
    ensures FixedPart(msg[..]) && msg[10..] == old(msg[10..])
    ensures msg[1] == (total + 4 + |login.0| + |login.1|) % 256 && msg[9] == 2 * Bit(clean) + 0xc0
  {
    LoginBits(clean);
    msg[1] := LowByte(msg[1], total, 2 + |login.0| + 2 + |login.1|);
    msg[9] := Or(msg[9], 0xc0);
    assert msg[2..9] == old(msg[2..9]);
  }

  method PutWill(msg: array<byte>, ghost total: nat, will: Will)
    requires FixedPart(msg[..]) && msg[1] == total % 256 && BeforeWill(msg[9]) && will.qos <= 2
    modifies msg
    ensures FixedPart(msg[..]) && msg[10..] == old(msg[10..])
    ensures msg[1] == (total + 4 + |will.topic| + |will.msg|) % 256
    ensures msg[9] == old(msg[9]) + 4 + 8 * will.qos + 32 * Bit(will.retain)
  {
    msg[1] := LowByte(msg[1], total, 2 + |will.topic| + 2 + |will.msg|);
    msg[9] := WithWill(msg[9], will.qos, will.retain);
    assert msg[2..9] == old(msg[2..9]);
  }

  /** `msg[1] += more`, on a byte that holds the low bits of `total`. */
  function LowByte(b: byte, ghost total: nat, more: nat): (r: byte)
    requires b == total % 256
    ensures r == (total + more) % 256
  {
    (b + more) % 256
  }

  method PutKeepalive(msg: array<byte>, keepalive: nat)
    requires FixedPart(msg[..]) && keepalive < 65536 && msg[10] == 0 && msg[11] == 0
    modifies msg
    ensures FixedPart(msg[..]) && msg[1] == old(msg[1]) && msg[9] == old(msg[9]) && msg[10..] == U16(keepalive)
  {
    if keepalive != 0 {
      KeepaliveBytes(keepalive);
      msg[10] := Or(msg[10], Shr(keepalive, 8));
      msg[11] := Or(msg[11], And(keepalive, 0xff));
    }
    assert msg[2..9] == old(msg[2..9]);
    assert msg[10..] == [msg[10], msg[11]];
  }

  function WillKind(qos: nat): (r: nat)
    requires qos <= 2
    ensures r == 4 + 8 * qos
  {
    WillBits(qos);
    Or(Or(0x4, Shl(And(qos, 1), 3)), Shl(And(qos, 2), 3))
  }

  function WithKind(f: byte, kind: nat, ghost low: nat, ghost high: nat, ghost qos: nat): (r: nat)
    requires low < 4 && kind == 4 + 8 * qos && qos <= 2 && f == low + 64 * high
    ensures r == f + kind
  {
    FourBitsAdded(f, low, 1 + 2 * qos, high);
    Or(f, kind)
  }

  /** The two assignments to the flags for a will. */
  method WithWill(flags: byte, qos: nat, retain: bool) returns (r: byte)
    requires BeforeWill(flags) && qos <= 2
    ensures r == flags + 4 + 8 * qos + 32 * Bit(retain)
  {
    ghost var high := if flags < 64 then 0 else 3;
    ghost var low := flags - 64 * high;
    r := WithKind(flags, WillKind(qos), low, high, qos);
    r := WithRetain(r, low + 4 + 8 * qos, high, retain);
  }

  function WithRetain(f: byte, ghost low: nat, ghost high: nat, retain: bool): (r: byte)
    requires low < 32 && high < 4 && f == low + 64 * high
    ensures r == f + 32 * Bit(retain)
  {
    OneBitAdded(f, low, Bit(retain), high);
    Or(f, Shl(Bit(retain), 5))
  }

  lemma KeepaliveBytes(keepalive: nat)
    requires keepalive < 65536
    ensures Or(0, Shr(keepalive, 8)) == keepalive / 256 && Or(0, And(keepalive, 0xff)) == keepalive % 256
  {
    Quotients(keepalive);
    MaskFf(keepalive);
    OrZero(Shr(keepalive, 8));
    OrZero(And(keepalive, 0xff));
  }

  lemma ConnectParts(p: Session, header: bytes)
    requires p.WellFormed() && p.keepalive < 65536
    requires header == [0x10, p.Remaining() % 256] + (PROTOCOL + ([p.Flags()] + U16(p.keepalive)))
    ensures ConnectBytes(p) == header + (Str(p.clientId) + WillFields(p) + LoginFields(p))
  {
  }

  /** The strings that follow the fixed part. */
  method SendFields(client: MqttClient.Client, p: Session)
    requires p.WellFormed()
    modifies client`written
    ensures client.written == old(client.written) + (Str(p.clientId) + WillFields(p) + LoginFields(p))
  {
    ghost var start := client.written;
    client.SendStr(p.clientId);
    Joined(start, U16(|p.clientId|), p.clientId);
    SendWill(client, p);
    SendLogin(client, p);
    FieldsJoined(start, Str(p.clientId), WillFields(p), LoginFields(p));
  }

  lemma FieldsJoined(start: bytes, a: bytes, b: bytes, c: bytes)
    ensures ((start + a) + b) + c == start + (a + b + c)
  {
  }

  method SendWill(client: MqttClient.Client, p: Session)
    requires p.WellFormed()
    modifies client`written
    ensures client.written == old(client.written) + WillFields(p)
  {
    if p.will.Some? {
      SendPair(client, p.will.value.topic, p.will.value.msg);
    }
  }

  method SendLogin(client: MqttClient.Client, p: Session)
    requires p.WellFormed()
    modifies client`written
    ensures client.written == old(client.written) + LoginFields(p)
  {
    if p.login.Some? {
      SendPair(client, p.login.value.0, p.login.value.1);
    }
  }

  method SendPair(client: MqttClient.Client, a: bytes, b: bytes)
    requires |a| < 65536 && |b| < 65536
    modifies client`written
    ensures client.written == old(client.written) + (Str(a) + Str(b))
  {
    client.SendStr(a);
    client.SendStr(b);
  }

  datatype Answer = SessionPresent(flag: nat) | Refused(code: byte) | Broken(error: Error)

  /** What `connect` makes of the four bytes of a CONNACK. */
  function ReadAnswer(resp: bytes): Answer {
    if resp == [] then Broken(IndexError)
    else if resp[0] != 0x20 then Broken(AssertionError)
    else if |resp| < 2 then Broken(IndexError)
    else if resp[1] != 2 then Broken(AssertionError)
    else if |resp| < 4 then Broken(IndexError)
    else if resp[3] != 0 then Refused(resp[3])
    else SessionPresent(And(resp[2], 1))
  }

  /** The CONNACK packet, section 3.2 of MQTT Version 3.1.1: whether the server holds a session, and its
      return code. */
  function EncodeConnAck(present: bool, code: byte): bytes {
    [0x20, 2, Bit(present), code]
  }

  /** What a server answers is what `connect` returns, or raises when it is a refusal. */
  lemma AnswerRoundTrip(present: bool, code: byte, rest: bytes)
    ensures Drop(EncodeConnAck(present, code) + rest, 4) == rest
    ensures ReadAnswer(Take(EncodeConnAck(present, code) + rest, 4)) ==
            if code == 0 then SessionPresent(Bit(present)) else Refused(code)
  {
    Mask1(Bit(present));
    assert Take(EncodeConnAck(present, code) + rest, 4) == EncodeConnAck(present, code);
  }

  lemma AnswersRoundTrip()
    ensures forall present, code, rest ::
      var s := EncodeConnAck(present, code) + rest;
      Drop(s, 4) == rest && ReadAnswer(Take(s, 4)) == if code == 0 then SessionPresent(Bit(present)) else Refused(code)
  {
    forall present: bool, code: byte, rest: bytes
      ensures var s := EncodeConnAck(present, code) + rest;
        Drop(s, 4) == rest && ReadAnswer(Take(s, 4)) == if code == 0 then SessionPresent(Bit(present)) else Refused(code)
    {
      AnswerRoundTrip(present, code, rest);
    }
  }

  /** Four bytes are an answer if and only if they announce a CONNACK of length 2, and an acceptance if and
      only if, moreover, their last is 0. */
  lemma AnswerIff(resp: bytes)
    requires |resp| == 4
    ensures ReadAnswer(resp).Broken? <==> resp[..2] != [0x20, 2]
    ensures ReadAnswer(resp).Broken? ==> ReadAnswer(resp).error == AssertionError
    ensures ReadAnswer(resp).SessionPresent? <==> resp[..2] == [0x20, 2] && resp[3] == 0
  {
  }

  /** `connect`, once the socket is open. A keepalive that does not fit stops it before anything is
      written. */
  method Connect(client: MqttClient.Client, p: Session) returns (r: Answer)
    requires p.WellFormed()
    modifies client`written, client`unread
    ensures p.keepalive >= 65536 ==> r == Broken(AssertionError) && unchanged(client)
    ensures p.keepalive < 65536 ==>
      && client.written == old(client.written) + ConnectBytes(p)
      && client.unread == Drop(old(client.unread), 4)
      && r == ReadAnswer(Take(old(client.unread), 4))
    ensures p.keepalive < 65536 ==> forall present, code, rest :: old(client.unread) == EncodeConnAck(present, code) + rest ==>
      client.unread == rest && r == if code == 0 then SessionPresent(Bit(present)) else Refused(code)
    ensures p.keepalive < 65536 && |old(client.unread)| >= 4 && old(client.unread)[..2] != [0x20, 2] ==> r == Broken(AssertionError)
  {
    if p.keepalive >= 65536 {
      return Broken(AssertionError);
    }
    var msg := ConnectHeader(p);
    ghost var header := msg[..];
    client.Write(msg[..]);
    SendFields(client, p);
    ConnectParts(p, header);
    assert old(client.written) + header + (Str(p.clientId) + WillFields(p) + LoginFields(p))
        == old(client.written) + ConnectBytes(p);
    var resp := client.Read(4);
    AnswersRoundTrip();
    if |resp| == 4 {
      AnswerIff(resp);
    }
    return ReadAnswer(resp);
  }
}
