/** DLT messages and their bytes: chapter 5.1 of the AUTOSAR PRS Diagnostic Log and Trace Protocol. */
module DltHeaders {
  import opened Options
  import opened Bytes

  type DltId = s: seq<Byte> | |s| == 4 witness [0, 0, 0, 0]

  type Word = n: nat | n < 0x1_0000_0000

  const HTYP_UEH: nat := 0x01               // extended header
  const HTYP_WEID: nat := 0x04              // with ECU id
  const HTYP_WTMS: nat := 0x10              // with timestamp
  const HTYP_VERS: nat := 0x20              // protocol version 1
  const TYPE_LOG: nat := 0
  const MSIN_VERBOSE: nat := 0x01
  const STANDARD_SIZE: nat := 4
  const NON_VERBOSE_HEADER_SIZE: nat := 16
  const VERBOSE_HEADER_SIZE: nat := 22
  const DLT_MESSAGE_SIZE: nat := 65536

  datatype Message =
    | NonVerbose(level: Byte, msgid: Word, tmsp: Word, data: seq<Byte>)
    | Verbose(level: Byte, args: Byte, app: DltId, ctx: DltId, tmsp: Word, data: seq<Byte>, file: bool)
  {
    function HeaderSize(): nat { if Verbose? then VERBOSE_HEADER_SIZE else NON_VERBOSE_HEADER_SIZE }
    function FullSize(): nat { HeaderSize() + |data| }
  }

  function BigEndian16(v: nat): (r: seq<Byte>)
    ensures |r| == 2
  {
    [(v / 256) % 256, v % 256]
  }

  function BigEndian32(v: Word): (r: seq<Byte>)
    ensures |r| == 4
  {
    [(v / 0x100_0000) % 256, (v / 0x1_0000) % 256, (v / 256) % 256, v % 256]
  }

  function StandardHeader(size: nat, mcnt: Byte, extended: bool): (r: seq<Byte>)
    ensures |r| == STANDARD_SIZE
  {
    [HTYP_WEID + HTYP_WTMS + HTYP_VERS + if extended then HTYP_UEH else 0, mcnt] + BigEndian16(size)
  }

  function StandardHeaderExtra(ecu: DltId, tmsp: Word): (r: seq<Byte>)
    ensures |r| == 8
  {
    ecu + BigEndian32(tmsp)
  }

  function ExtendedHeader(level: Byte, args: Byte, app: DltId, ctx: DltId): (r: seq<Byte>)
    ensures |r| == 10
  {
    [(level * 16 + TYPE_LOG * 2 + MSIN_VERBOSE) % 256, args] + app + ctx
  }

  /** The size written into the header: log messages, unlike file transfers, are cut to the protocol's maximum there. */
  function DeclaredSize(m: Message): nat {
    if m.Verbose? && !m.file && m.FullSize() > DLT_MESSAGE_SIZE then DLT_MESSAGE_SIZE else m.FullSize()
  }

  function Header(m: Message, ecu: DltId, mcnt: Byte): (r: seq<Byte>)
    ensures |r| == m.HeaderSize()
  {
    match m
    case NonVerbose(_, msgid, tmsp, _) =>
      StandardHeader(DeclaredSize(m), mcnt, false) + StandardHeaderExtra(ecu, tmsp) + LittleEndian(msgid, 4)
    case Verbose(level, args, app, ctx, tmsp, _, _) =>
      StandardHeader(DeclaredSize(m), mcnt, true) + StandardHeaderExtra(ecu, tmsp) + ExtendedHeader(level, args, app, ctx)
  }

  function Packet(m: Message, ecu: DltId, mcnt: Byte): (r: seq<Byte>)
    ensures |r| == m.FullSize()
  {
    Header(m, ecu, mcnt) + m.data
  }

  // ----- Splitting a datagram -----

  function LengthField(s: seq<Byte>): nat
    requires |s| >= STANDARD_SIZE
  {
    256 * (s[2] as nat) + s[3] as nat
  }

  predicate IsVerbosePacket(s: seq<Byte>)
    requires |s| >= STANDARD_SIZE
  {
    s[0] % 2 == 1
  }

  function CounterField(s: seq<Byte>): Byte
    requires |s| >= STANDARD_SIZE
  {
    s[1]
  }

  /** What a receiver sees: messages cut off one by one by following their big-endian length fields. */
  function Split(s: seq<Byte>): (packets: seq<seq<Byte>>)
    decreases |s|
  {
    if |s| < STANDARD_SIZE then []
    else
      var n := LengthField(s);
      if n < STANDARD_SIZE || n > |s| then [] else [s[..n]] + Split(s[n..])
  }

  function Concat(packets: seq<seq<Byte>>): (r: seq<Byte>) {
    if packets == [] then [] else packets[0] + Concat(packets[1..])
  }

  predicate WellFramed(p: seq<Byte>) {
    |p| >= STANDARD_SIZE && LengthField(p) == |p|
  }

  /** Splitting gives back exactly the messages that were put together. */
  lemma {:induction false} SplitConcat(packets: seq<seq<Byte>>)
    requires forall i :: 0 <= i < |packets| ==> WellFramed(packets[i])
    ensures Split(Concat(packets)) == packets
  {
    if packets != [] {
      var p, rest := packets[0], packets[1..];
      var s := Concat(packets);
      SplitConcat(rest);
      assert WellFramed(p);
      assert s[..|p|] == p && s[|p|..] == Concat(rest);
      assert LengthField(s) == LengthField(p);
    }
  }

  /** A length field says at most 65535. */
  lemma {:induction false} SplitIsShort(s: seq<Byte>)
    ensures forall k :: 0 <= k < |Split(s)| ==> |Split(s)[k]| < DLT_MESSAGE_SIZE
    decreases |s|
  {
    if |s| >= STANDARD_SIZE {
      var n := LengthField(s);
      if STANDARD_SIZE <= n <= |s| {
        SplitIsShort(s[n..]);
      }
    }
  }

  lemma ConcatEmpty()
    ensures Concat([]) == []
  {
  }

  lemma {:induction false} ConcatAppend(a: seq<seq<Byte>>, b: seq<seq<Byte>>)
    ensures Concat(a + b) == Concat(a) + Concat(b)
  {
    if a == [] {
      assert a + b == b;
    } else {
      assert (a + b)[1..] == a[1..] + b;
      ConcatAppend(a[1..], b);
    }
  }

  /** A message is framed by its own header exactly when its size fits the 16-bit length field. */
  lemma PacketFields(m: Message, ecu: DltId, mcnt: Byte)
    ensures var p := Packet(m, ecu, mcnt);
            && p[0] == (if m.Verbose? then 0x35 else 0x34) && IsVerbosePacket(p) == m.Verbose? && CounterField(p) == mcnt
            && (WellFramed(p) <==> m.FullSize() < DLT_MESSAGE_SIZE)
  {
    var p, h := Packet(m, ecu, mcnt), StandardHeader(DeclaredSize(m), mcnt, m.Verbose?);
    assert p[0] == h[0] && p[1] == h[1] && p[2] == h[2] && p[3] == h[3];
    var n := DeclaredSize(m);
    if m.FullSize() < DLT_MESSAGE_SIZE {
      assert n < 65536 && (n / 256) % 256 == n / 256;
    }
  }

  // ----- Decoding a message by the flags of its header, chapter 5.1 -----

  datatype Record =
    | NonVerboseRecord(counter: Byte, bigEndian: bool, ecu: Option<DltId>, session: Option<nat>, tmsp: Option<nat>,
                       msgid: nat, data: seq<Byte>)
    | VerboseRecord(counter: Byte, bigEndian: bool, ecu: Option<DltId>, session: Option<nat>, tmsp: Option<nat>,
                    level: nat, args: Byte, app: DltId, ctx: DltId, data: seq<Byte>)
    | Malformed

  function FromBigEndian32(s: seq<Byte>): nat
    requires |s| == 4
  {
    0x100_0000 * (s[0] as nat) + 0x1_0000 * (s[1] as nat) + 256 * (s[2] as nat) + s[3] as nat
  }

  predicate Flag(htyp: Byte, weight: nat)
    requires weight > 0
  {
    (htyp as nat / weight) % 2 == 1
  }

  /** Where the optional fields end. */
  function ExtraEnd(htyp: Byte): (n: nat)
    ensures STANDARD_SIZE <= n <= STANDARD_SIZE + 12
  {
    STANDARD_SIZE + (if Flag(htyp, 0x04) then 4 else 0) + (if Flag(htyp, 0x08) then 4 else 0)
    + (if Flag(htyp, 0x10) then 4 else 0)
  }

  function Decode(p: seq<Byte>): Record {
    if |p| < STANDARD_SIZE || p[0] / 32 != 1 || |p| < ExtraEnd(p[0]) then Malformed
    else
      var htyp := p[0];
      var sessionAt := STANDARD_SIZE + if Flag(htyp, 0x04) then 4 else 0;
      var stampAt := sessionAt + if Flag(htyp, 0x08) then 4 else 0;
      var ecu: Option<DltId> := if Flag(htyp, 0x04) then Some(p[STANDARD_SIZE..STANDARD_SIZE + 4]) else None;
      var session := if Flag(htyp, 0x08) then Some(FromBigEndian32(p[sessionAt..sessionAt + 4])) else None;
      var tmsp := if Flag(htyp, 0x10) then Some(FromBigEndian32(p[stampAt..stampAt + 4])) else None;
      DecodeBody(p[1], Flag(htyp, 0x02), ecu, session, tmsp, Flag(htyp, 0x01), p[ExtraEnd(htyp)..])
  }

  /** Behind the optional fields: extended header and arguments, or message id and data. */
  function DecodeBody(counter: Byte, bigEndian: bool, ecu: Option<DltId>, session: Option<nat>, tmsp: Option<nat>, extended: bool,
                      b: seq<Byte>): Record
  {
    if extended then
      if |b| < 10 || b[0] % 2 != 1 || (b[0] / 2) % 8 != 0 then Malformed
      else VerboseRecord(counter, bigEndian, ecu, session, tmsp, b[0] / 16, b[1], b[2..6], b[6..10], b[10..])
    else if |b| < 4 then Malformed
    else NonVerboseRecord(counter, bigEndian, ecu, session, tmsp,
                          if bigEndian then FromBigEndian32(b[..4]) else FromLittleEndian(b[..4]), b[4..])
  }

  /** What a message says, apart from its framing. */
  function RecordOf(m: Message, ecu: DltId, counter: Byte): Record {
    match m
    case NonVerbose(_, msgid, tmsp, data) => NonVerboseRecord(counter, false, Some(ecu), None, Some(tmsp), msgid, data)
    case Verbose(level, args, app, ctx, tmsp, data, _) =>
      VerboseRecord(counter, false, Some(ecu), None, Some(tmsp), level % 16, args, app, ctx, data)
  }

  lemma BigEndianRoundTrip(v: Word)
    ensures FromBigEndian32(BigEndian32(v)) == v
  {
    var a, b, c := v / 256, v / 0x1_0000, v / 0x100_0000;
    assert b == a / 256 && c == b / 256 && c % 256 == c;
  }

  lemma WordRoundTrip(v: Word)
    ensures FromLittleEndian(LittleEndian(v, 4)) == v
  {
    assert Pow256(4) == 0x1_0000_0000;
    LittleEndianRoundTrip(v, 4);
  }

  lemma MessageInfo(level: Byte)
    ensures var msin := (level * 16 + TYPE_LOG * 2 + MSIN_VERBOSE) % 256;
            msin / 16 == level % 16 && msin % 2 == 1 && (msin / 2) % 8 == 0
  {
    var n := level % 16;
    assert level * 16 + 1 == 256 * (level / 16) + (16 * n + 1);
    var msin := (level * 16 + 1) % 256;
    assert msin == 16 * n + 1;
    assert msin / 2 == 8 * n;
  }

  /** The header type byte announces what follows, and nothing else. */
  lemma HeaderType(extended: bool)
    ensures var htyp := HTYP_WEID + HTYP_WTMS + HTYP_VERS + if extended then HTYP_UEH else 0;
            && htyp < 256 && htyp / 32 == 1
            && Flag(htyp, 0x04) && Flag(htyp, 0x10) && !Flag(htyp, 0x08) && !Flag(htyp, 0x02) && (Flag(htyp, 0x01) <==> extended)
  {
  }

  lemma BodyRoundTrip(m: Message, counter: Byte, ecu: DltId, tmsp: nat)
    ensures var body := if m.Verbose? then ExtendedHeader(m.level, m.args, m.app, m.ctx) + m.data else LittleEndian(m.msgid, 4) + m.data;
            var r := DecodeBody(counter, false, Some(ecu), None, Some(tmsp), m.Verbose?, body);
            match m
            case NonVerbose(_, msgid, _, data) => r == NonVerboseRecord(counter, false, Some(ecu), None, Some(tmsp), msgid, data)
            case Verbose(level, args, app, ctx, _, data, _) =>
              r == VerboseRecord(counter, false, Some(ecu), None, Some(tmsp), level % 16, args, app, ctx, data)
  {
    hide LittleEndian; hide FromLittleEndian;
    match m
    case NonVerbose(_, msgid, _, data) =>
      WordRoundTrip(msgid);
      var body := LittleEndian(msgid, 4) + data;
      assert body[..4] == LittleEndian(msgid, 4) && body[4..] == data;
    case Verbose(level, args, app, ctx, _, data, _) =>
      MessageInfo(level);
      var ext := ExtendedHeader(level, args, app, ctx);
      var body := ext + data;
      assert body[0] == ext[0] && body[1] == ext[1] && body[2..6] == ext[2..6] == app && body[6..10] == ext[6..10] == ctx;
      assert body[10..] == data;
  }

  function Body(m: Message): seq<Byte> {
    if m.Verbose? then ExtendedHeader(m.level, m.args, m.app, m.ctx) + m.data else LittleEndian(m.msgid, 4) + m.data
  }

  lemma Regroup(a: seq<Byte>, b: seq<Byte>, c: seq<Byte>, d: seq<Byte>)
    ensures a + b + c + d == a + (b + (c + d))
  {
  }

  lemma PacketIs(m: Message, ecu: DltId, mcnt: Byte)
    ensures Packet(m, ecu, mcnt)
         == StandardHeader(DeclaredSize(m), mcnt, m.Verbose?) + (StandardHeaderExtra(ecu, m.tmsp) + Body(m))
  {
    hide StandardHeader; hide StandardHeaderExtra; hide ExtendedHeader; hide LittleEndian; hide DeclaredSize;
    var std, extra := StandardHeader(DeclaredSize(m), mcnt, m.Verbose?), StandardHeaderExtra(ecu, m.tmsp);
    if m.Verbose? {
      Regroup(std, extra, ExtendedHeader(m.level, m.args, m.app, m.ctx), m.data);
    } else {
      Regroup(std, extra, LittleEndian(m.msgid, 4), m.data);
    }
  }

  lemma Slices(std: seq<Byte>, a: seq<Byte>, b: seq<Byte>, body: seq<Byte>)
    requires |std| == |a| == |b| == 4
    ensures var p := std + ((a + b) + body);
            p[0] == std[0] && p[1] == std[1] && p[4..8] == a && p[8..12] == b && p[12..] == body
  {
  }

  lemma PacketParts(m: Message, ecu: DltId, mcnt: Byte)
    ensures var p := Packet(m, ecu, mcnt); var std := StandardHeader(DeclaredSize(m), mcnt, m.Verbose?);
            && |p| >= 16 && p[0] == std[0] && p[1] == mcnt
            && p[4..8] == ecu && p[8..12] == BigEndian32(m.tmsp) && p[12..] == Body(m)
  {
    hide Packet; hide Body; hide BigEndian32; hide DeclaredSize;
    PacketIs(m, ecu, mcnt);
    Slices(StandardHeader(DeclaredSize(m), mcnt, m.Verbose?), ecu, BigEndian32(m.tmsp), Body(m));
  }

  /** Every field of every message can be read back from its packet by following the flags of its header. */
  lemma PacketRoundTrip(m: Message, ecu: DltId, mcnt: Byte)
    ensures Decode(Packet(m, ecu, mcnt)) == RecordOf(m, ecu, mcnt)
  {
    hide LittleEndian; hide FromLittleEndian; hide BigEndian32; hide FromBigEndian32; hide Flag; hide DecodeBody; hide Packet; hide ExtendedHeader;
    HeaderType(m.Verbose?);
    BigEndianRoundTrip(m.tmsp);
    BodyRoundTrip(m, mcnt, ecu, m.tmsp);
    PacketParts(m, ecu, mcnt);
    assert ExtraEnd(Packet(m, ecu, mcnt)[0]) == 12;
  }
}
