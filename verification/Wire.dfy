/** Datagrams: how packets are laid out by one side and taken apart by the other. Numbers are little-endian. */
module Wire {
  import opened Bytes
  import opened Packets

  const CREATE_CONNECT: U32 := 1
  const RELEASE_CONNECT: U32 := 2
  const ACK_CREATE_CONNECT: U32 := 3
  const DATA_OUT: U32 := 11
  const DATA_IN: U32 := 12
  const ACK_DATA_OUT: U32 := 21
  const ACK_DATA_IN: U32 := 22
  const LIVE: U32 := 31

  const HEADER_SIZE := 20
  const CONNECT_SIZE := 28
  const DATA_SIZE := 28
  const ACK_SIZE := 24
  const BUFFER_SIZE := 1000

  // ----- 32-bit numbers

  function Put32(x: U32): Octets {
    [x % 256, x / 0x100 % 256, x / 0x1_0000 % 256, x / 0x100_0000]
  }

  function Get32(s: Octets): U32
    requires |s| == 4
  {
    var a: nat, b: nat, c: nat, d: nat := s[0], s[1], s[2], s[3];
    a + 0x100 * b + 0x1_0000 * c + 0x100_0000 * d
  }

  lemma GetPut32(x: U32)
    ensures Get32(Put32(x)) == x
  {
    assert x / 0x1_0000 == x / 0x100 / 0x100 && x / 0x100_0000 == x / 0x1_0000 / 0x100;
  }

  lemma PutGet32(s: Octets)
    requires |s| == 4
    ensures Put32(Get32(s)) == s
  {
    var x, b: nat, c: nat, d: nat := Get32(s), s[1], s[2], s[3];
    assert x / 0x100 == b + 0x100 * c + 0x1_0000 * d;
    assert x / 0x1_0000 == c + 0x100 * d;
  }

  // ----- Building and taking apart

  function Header(id: Id, cmd: U32): Octets {
    id + Put32(cmd)
  }

  function DataCommand(side: Side): U32 {
    if side.ServerSide? then DATA_IN else DATA_OUT
  }

  function AckCommand(side: Side): U32 {
    if side.ServerSide? then ACK_DATA_OUT else ACK_DATA_IN
  }

  /** A data acknowledgement is sent with the size of a bare header, so its index is not on the wire. */
  function Encode(side: Side, p: Packet): Octets
    requires p.Data? ==> |p.data| < 0x1_0000_0000
  {
    match p
    case CreateConnect(id, point, timeout) => Header(id, CREATE_CONNECT) + Put32(point) + Put32(timeout)
    case AckCreate(id) => Header(id, ACK_CREATE_CONNECT)
    case Data(id, index, data) => Header(id, DataCommand(side)) + Put32(index) + Put32(|data|) + data
    case Release(id, index) => Header(id, RELEASE_CONNECT) + Put32(index) + Put32(0)
    case AckData(id) => Header(id, AckCommand(side))
    case Live(id) => Header(id, LIVE)
  }

  /** Commands a side does not expect. */
  predicate Misdirected(side: Side, cmd: U32) {
    if side.ServerSide? then cmd == ACK_CREATE_CONNECT || cmd == DATA_IN || cmd == ACK_DATA_OUT
    else cmd == CREATE_CONNECT || cmd == DATA_OUT || cmd == ACK_DATA_IN
  }

  function Decode(side: Side, d: Octets): Option<Packet> {
    if |d| < HEADER_SIZE then None
    else
      var id: Id, cmd := d[..16], Get32(d[16..20]);
      if Misdirected(side, cmd) then None
      else if cmd == CREATE_CONNECT then
        if |d| < CONNECT_SIZE then None else Some(CreateConnect(id, Get32(d[20..24]), Get32(d[24..28])))
      else if cmd == ACK_CREATE_CONNECT then Some(AckCreate(id))
      else if cmd == DATA_OUT || cmd == DATA_IN then
        if |d| < DATA_SIZE || |d| != DATA_SIZE + Get32(d[24..28]) then None
        else Some(Data(id, Get32(d[20..24]), d[28..]))
      else if cmd == ACK_DATA_OUT || cmd == ACK_DATA_IN then
        if |d| < ACK_SIZE then None else Some(AckData(id))
      else if cmd == RELEASE_CONNECT then
        if |d| != DATA_SIZE || Get32(d[24..28]) != 0 then None else Some(Release(id, Get32(d[20..24])))
      else if cmd == LIVE then Some(Live(id))
      else None
  }

  // ----- Laws

  lemma HeaderFields(id: Id, cmd: U32, rest: Octets)
    ensures var d := Header(id, cmd) + rest;
            |d| == HEADER_SIZE + |rest| && d[..16] == id && Get32(d[16..20]) == cmd
  {
    GetPut32(cmd);
    assert (Header(id, cmd) + rest)[16..20] == Put32(cmd);
  }

  lemma BodyFields(id: Id, cmd: U32, a: U32, b: U32, rest: Octets)
    ensures var d := Header(id, cmd) + Put32(a) + Put32(b) + rest;
            && |d| == DATA_SIZE + |rest| && d[..16] == id && Get32(d[16..20]) == cmd
            && Get32(d[20..24]) == a && Get32(d[24..28]) == b && d[28..] == rest
  {
    var d := Header(id, cmd) + Put32(a) + Put32(b) + rest;
    assert d == Header(id, cmd) + (Put32(a) + Put32(b) + rest);
    HeaderFields(id, cmd, Put32(a) + Put32(b) + rest);
    GetPut32(a);
    GetPut32(b);
    assert d[20..24] == Put32(a) && d[24..28] == Put32(b);
  }

  // ----- The layout in numbers

  /** Four octets at a place are a number, the low octet first. */
  predicate Word(d: Octets, at: nat, x: U32) {
    && at + 4 <= |d|
    && var a: nat, b: nat, c: nat, e: nat := d[at], d[at + 1], d[at + 2], d[at + 3];
       x == a + 256 * b + 65536 * c + 16777216 * e
  }

  lemma WordIsGet32(d: Octets, at: nat, x: U32)
    requires at + 4 <= |d|
    ensures Word(d, at, x) <==> Get32(d[at..at + 4]) == x
  {
  }

  /** The datagrams that mean packet p to a reader. */
  predicate Means(reader: Side, d: Octets, p: Packet) {
    && |d| >= 20 && d[..16] == p.id
    && match p {
         case CreateConnect(_, point, timeout) =>
           reader.ServerSide? && Word(d, 16, 1) && Word(d, 20, point) && Word(d, 24, timeout)
         case AckCreate(_) => reader.ClientSide? && Word(d, 16, 3)
         case Data(_, index, data) =>
           Word(d, 16, if reader.ServerSide? then 11 else 12) && Word(d, 20, index)
           && |d| >= 28 && d[28..] == data && |data| < 0x1_0000_0000 && Word(d, 24, |data|)
         case Release(_, index) => Word(d, 16, 2) && Word(d, 20, index) && Word(d, 24, 0) && |d| == 28
         case AckData(_) => Word(d, 16, if reader.ServerSide? then 22 else 21) && |d| >= 24
         case Live(_) => Word(d, 16, 31)
       }
  }

  lemma MeaningIsDecoded(reader: Side, d: Octets, p: Packet)
    requires Means(reader, d, p)
    ensures Decode(reader, d) == Some(p)
  {
    hide Get32;
    WordIsGet32(d, 16, Get32(d[16..20]));
    if |d| >= 28 {
      WordIsGet32(d, 20, Get32(d[20..24]));
      WordIsGet32(d, 24, Get32(d[24..28]));
    }
  }

  lemma DecodedIsMeant(reader: Side, d: Octets)
    requires Decode(reader, d).Some?
    ensures Means(reader, d, Decode(reader, d).value)
  {
    hide Get32;
    WordIsGet32(d, 16, Get32(d[16..20]));
    if |d| >= 28 {
      WordIsGet32(d, 20, Get32(d[20..24]));
      WordIsGet32(d, 24, Get32(d[24..28]));
    }
  }

  /** Any bytes whatever: they are taken as p exactly if they are laid out like this. */
  lemma DecodedExactly(reader: Side, d: Octets, p: Packet)
    ensures Decode(reader, d) == Some(p) <==> Means(reader, d, p)
  {
    hide Decode, Means;
    if Decode(reader, d) == Some(p) {
      DecodedIsMeant(reader, d);
    }
    if Means(reader, d, p) {
      MeaningIsDecoded(reader, d, p);
    }
  }

  /** Nothing is sent beyond what the layout names; a data acknowledgement ends before its index. */
  lemma EncodedSize(side: Side, p: Packet)
    requires p.Data? ==> |p.data| < 0x1_0000_0000
    ensures |Encode(side, p)| == match p {
              case CreateConnect(_, _, _) => 28
              case Data(_, _, data) => 28 + |data|
              case Release(_, _) => 28
              case _ => 20
            }
    ensures p.AckData? ==>
              Encode(side, p)[..16] == p.id && Word(Encode(side, p), 16, if side.ServerSide? then 21 else 22)
  {
    if p.AckData? {
      HeaderFields(p.id, AckCommand(side), []);
      assert Encode(side, p) == Header(p.id, AckCommand(side)) + [];
    }
  }

  /** Packets a side sends, acknowledgements of data aside. */
  predicate SentBy(side: Side, p: Packet) {
    && (p.CreateConnect? ==> side.ClientSide?)
    && (p.AckCreate? ==> side.ServerSide?)
    && (p.Data? ==> |p.data| <= MAX_CHUNK_SIZE)
    && !p.AckData?
  }

  /** What one side builds fits the packet buffer and is understood by the other side as the same packet. */
  lemma WireRoundTrip(side: Side, p: Packet)
    requires SentBy(side, p)
    ensures |Encode(side, p)| <= BUFFER_SIZE
    ensures Decode(Other(side), Encode(side, p)) == Some(p)
  {
    hide Put32, Get32;
    match p
    case CreateConnect(id, point, timeout) =>
      BodyFields(id, CREATE_CONNECT, point, timeout, []);
      assert Encode(side, p) == Header(id, CREATE_CONNECT) + Put32(point) + Put32(timeout) + [];
    case Data(id, index, data) =>
      BodyFields(id, DataCommand(side), index, |data|, data);
    case Release(id, index) =>
      BodyFields(id, RELEASE_CONNECT, index, 0, []);
      assert Encode(side, p) == Header(id, RELEASE_CONNECT) + Put32(index) + Put32(0) + [];
    case AckCreate(id) =>
      HeaderFields(id, ACK_CREATE_CONNECT, []);
      assert Encode(side, p) == Header(id, ACK_CREATE_CONNECT) + [];
    case Live(id) =>
      HeaderFields(id, LIVE, []);
      assert Encode(side, p) == Header(id, LIVE) + [];
  }

  /** A side does not take data built for the other direction. */
  lemma OwnDataIsDropped(side: Side, id: Id, index: U32, data: Octets)
    requires |data| <= MAX_CHUNK_SIZE
    ensures Decode(side, Encode(side, Data(id, index, data))) == None
  {
    BodyFields(id, DataCommand(side), index, |data|, data);
  }

  /** Acknowledgements of data reach nobody. */
  lemma DataAcksAreInert(side: Side, reader: Side, id: Id)
    ensures Decode(reader, Encode(side, AckData(id))) == None
  {
    HeaderFields(id, AckCommand(side), []);
    assert Encode(side, AckData(id)) == Header(id, AckCommand(side)) + [];
  }

  /** The other side never takes a packet for a different one. */
  lemma DecodedOrDropped(side: Side, p: Packet)
    requires p.Data? ==> |p.data| <= MAX_CHUNK_SIZE
    ensures Decode(Other(side), Encode(side, p)) in {None, Some(p)}
  {
    if SentBy(side, p) {
      WireRoundTrip(side, p);
    } else if p.AckData? {
      DataAcksAreInert(side, Other(side), p.id);
    } else if p.AckCreate? {
      HeaderFields(p.id, ACK_CREATE_CONNECT, []);
      assert Encode(side, p) == Header(p.id, ACK_CREATE_CONNECT) + [];
    } else {
      HeaderFields(p.id, CREATE_CONNECT, Put32(p.point) + Put32(p.timeout));
      assert Encode(side, p) == Header(p.id, CREATE_CONNECT) + (Put32(p.point) + Put32(p.timeout));
    }
  }

  /** Whatever bytes arrive: a datagram is taken as data, or as a release, only if it is exactly what the other
      side would have built for that packet. */
  lemma AcceptedIsExact(side: Side, d: Octets)
    ensures var r := Decode(side, d);
            r.Some? && (r.value.Data? || r.value.Release?) ==> d == Encode(Other(side), r.value)
  {
    var r := Decode(side, d);
    if r.Some? && (r.value.Data? || r.value.Release?) {
      PutGet32(d[16..20]);
      PutGet32(d[20..24]);
      PutGet32(d[24..28]);
      assert d == d[..16] + d[16..20] + d[20..24] + d[24..28] + d[28..];
    }
  }
}
