/** Verbose arguments: section 5.1.2.2 of the AUTOSAR PRS Diagnostic Log and Trace Protocol. */
module DltFormat {
  import opened Bytes

  const U16_MAX: nat := 0xFFFF
  const SIZE_MAX: nat := 0xFFFF_FFFF_FFFF_FFFF
  const VARIABLE_HEADER: nat := 6           // type info and 16-bit length

  datatype Width = Bits8 | Bits16 | Bits32 | Bits64 {
    function Size(): nat { match this case Bits8 => 1 case Bits16 => 2 case Bits32 => 4 case Bits64 => 8 }
    function TypeLength(): nat { match this case Bits8 => 1 case Bits16 => 2 case Bits32 => 3 case Bits64 => 4 }
  }

  datatype Representation = Base10 | Base8 | Base16 | Base2 {
    function Code(): nat { match this case Base10 => 0 case Base8 => 1 case Base16 => 2 case Base2 => 3 }
  }

  datatype Argument =
    | Boolean(b: bool)
    | Unsigned(width: Width, value: nat, repr: Representation)
    | Signed(width: Width, number: int, repr: Representation)
    | Float(width: Width, image: nat)
    | Text(data: seq<Byte>)
    | Raw(data: seq<Byte>)
  {
    /** The values of the C++ types behind `Log`. */
    predicate InRange() {
      match this
      case Unsigned(w, v, _) => v < Pow256(w.Size())
      case Signed(w, v, _) => 0 <= 2 * v + Pow256(w.Size()) < 2 * Pow256(w.Size())
      case Float(w, v) => (w == Bits32 || w == Bits64) && v < Pow256(w.Size())
      case _ => true
    }

    predicate Variable() { Text? || Raw? }
  }

  // ----- Helper functions -----

  /** Sum of the part sizes, stopping at the largest `size_t`. */
  function Sum(sizes: seq<nat>): nat
    requires sizes != []
  {
    if |sizes| == 1 then sizes[0]
    else
      var partial := Sum(sizes[1..]);
      if sizes[0] > SIZE_MAX - partial then SIZE_MAX else sizes[0] + partial
  }

  function ClampTo16(v: nat): nat { if v > U16_MAX then U16_MAX else v }

  function ClampAddNullTerminator(length: nat): nat { if length < U16_MAX then length + 1 else length }

  // ----- Encoding -----

  function TypeInfo(a: Argument): nat {
    match a
    case Boolean(_) => 0x10 + 1
    case Signed(w, _, repr) => 0x20 + w.TypeLength() + 0x8000 * repr.Code()
    case Unsigned(w, _, repr) => 0x40 + w.TypeLength() + 0x8000 * repr.Code()
    case Float(w, _) => 0x80 + w.TypeLength()
    case Text(_) => 0x200 + 0x8000
    case Raw(_) => 0x400
  }

  /** The memory of a scalar. */
  function Image(a: Argument): seq<Byte>
    requires a.InRange() && !a.Variable()
  {
    match a
    case Boolean(b) => [if b then 1 else 0]
    case Unsigned(w, v, _) => LittleEndian(v, w.Size())
    case Signed(w, v, _) => LittleEndian(if v < 0 then v + Pow256(w.Size()) else v, w.Size())
    case Float(w, v) => LittleEndian(v, w.Size())
  }

  /** The argument's bytes by the standard; only what fits the 16-bit length has any. */
  function Encode(a: Argument): seq<Byte>
    requires Storable(a)
  {
    LittleEndian(TypeInfo(a), 4)
    + match a
      case Text(s) => LittleEndian(|s| + 1, 2) + s + [0]
      case Raw(s) => LittleEndian(|s|, 2) + s
      case _ => Image(a)
  }

  predicate Storable(a: Argument) {
    match a
    case Text(s) => |s| + 1 <= U16_MAX
    case Raw(s) => |s| <= U16_MAX
    case _ => a.InRange()
  }

  // ----- Reference: what is kept of an argument -----

  datatype Kept = Whole(a: Argument) | Nothing

  function Shortened(a: Argument, n: nat): Argument
    requires a.Variable() && n <= |a.data|
  {
    if a.Text? then Text(a.data[..n]) else Raw(a.data[..n])
  }

  predicate Fits(a: Argument, room: nat) { Storable(a) && |Encode(a)| <= room }

  /** The longest of the first `n` bytes that fits, or nothing. */
  function LongestPrefix(a: Argument, n: nat, room: nat): Kept
    requires a.Variable() && n <= |a.data|
  {
    if Fits(Shortened(a, n), room) then Whole(Shortened(a, n))
    else if n == 0 then Nothing
    else LongestPrefix(a, n - 1, room)
  }

  /** A scalar is kept or dropped; of a string or buffer the longest prefix is kept if more than the header fits. */
  function Keep(a: Argument, room: nat): (k: Kept)
    requires a.InRange()
    ensures k.Whole? ==> Fits(k.a, room) && k.a.InRange()
  {
    if !a.Variable() then (if Fits(a, room) then Whole(a) else Nothing)
    else if room <= VARIABLE_HEADER then Nothing
    else
      LongestPrefixFits(a, |a.data|, room);
      LongestPrefix(a, |a.data|, room)
  }

  lemma LongestPrefixFits(a: Argument, n: nat, room: nat)
    requires a.Variable() && n <= |a.data|
    ensures var k := LongestPrefix(a, n, room); k.Whole? ==> Fits(k.a, room) && k.a.InRange()
  {
  }

  lemma VariableSize(a: Argument)
    requires a.Variable() && Storable(a)
    ensures |Encode(a)| == VARIABLE_HEADER + |a.data| + (if a.Text? then 1 else 0)
  {
  }

  /** The longest prefix has the length that the code computes from the capacity and the 16-bit limit. */
  lemma {:induction false} LongestPrefixIs(a: Argument, n: nat, m: nat, room: nat)
    requires a.Variable() && m <= n <= |a.data| && room > VARIABLE_HEADER
    requires var tail := if a.Text? then 1 else 0;
             && m + tail + VARIABLE_HEADER <= room && m + tail <= U16_MAX
             && (m < n ==> m + 1 + tail + VARIABLE_HEADER > room || m + 1 + tail > U16_MAX)
    ensures LongestPrefix(a, n, room) == Whole(Shortened(a, m))
  {
    if Storable(Shortened(a, n)) {
      VariableSize(Shortened(a, n));
    }
    if m < n {
      LongestPrefixIs(a, n - 1, m, room);
    }
  }

  // ----- Decoding by the standard -----

  datatype Decoded = Item(a: Argument, rest: seq<Byte>) | Bad

  predicate Bit(t: nat, weight: nat)
    requires weight > 0
  {
    (t / weight) % 2 == 1
  }

  /** The length and coding fields of the type info have a meaning for its type. */
  predicate KnownFields(t: nat) {
    var length, coding := t % 16, (t / 0x8000) % 8;
    if Bit(t, 0x10) then length == 1
    else if Bit(t, 0x20) || Bit(t, 0x40) then 1 <= length <= 4 && coding <= 3
    else if Bit(t, 0x80) then length == 3 || length == 4
    else if Bit(t, 0x200) then length == 0 && coding == 1        // UTF-8
    else length == 0 && coding == 0
  }

  function WidthOf(t: nat): Width {
    match t % 16 case 1 => Bits8 case 2 => Bits16 case 3 => Bits32 case _ => Bits64
  }

  function RepresentationOf(t: nat): Representation {
    match (t / 0x8000) % 8 case 0 => Base10 case 1 => Base8 case 2 => Base16 case _ => Base2
  }

  function DecodeScalar(t: nat, d: seq<Byte>): (r: Decoded)
    ensures r.Item? ==> |r.rest| < |d|
  {
    var w := if Bit(t, 0x10) then Bits8 else WidthOf(t);
    if |d| < w.Size() then Bad
    else
      var v, rest := FromLittleEndian(d[..w.Size()]), d[w.Size()..];
      if Bit(t, 0x10) then Item(Boolean(v != 0), rest)
      else if Bit(t, 0x20) then
        Item(Signed(w, if 2 * v < Pow256(w.Size()) then v else v - Pow256(w.Size()), RepresentationOf(t)), rest)
      else if Bit(t, 0x40) then Item(Unsigned(w, v, RepresentationOf(t)), rest)
      else Item(Float(w, v), rest)
  }

  function DecodeVariable(t: nat, d: seq<Byte>): (r: Decoded)
    ensures r.Item? ==> |r.rest| < |d|
  {
    if |d| < 2 then Bad
    else
      var n := FromLittleEndian(d[..2]);
      if |d| < 2 + n then Bad
      else if Bit(t, 0x400) then Item(Raw(d[2..2 + n]), d[2 + n..])
      else if n == 0 || d[1 + n] != 0 then Bad
      else Item(Text(d[2..1 + n]), d[2 + n..])
  }

  function DecodeOne(s: seq<Byte>): (r: Decoded)
    ensures r.Item? ==> |r.rest| < |s|
  {
    if |s| < 4 then Bad
    else
      var t := FromLittleEndian(s[..4]);
      if !KnownFields(t) then Bad
      else if Bit(t, 0x10) || Bit(t, 0x20) || Bit(t, 0x40) || Bit(t, 0x80) then DecodeScalar(t, s[4..])
      else if Bit(t, 0x200) || Bit(t, 0x400) then DecodeVariable(t, s[4..])
      else Bad
  }

  datatype Arguments = Arguments(list: seq<Argument>) | Undecodable

  function DecodeAll(s: seq<Byte>): Arguments
    decreases |s|
  {
    if s == [] then Arguments([])
    else
      match DecodeOne(s)
      case Bad => Undecodable
      case Item(a, rest) =>
        match DecodeAll(rest)
        case Undecodable => Undecodable
        case Arguments(list) => Arguments([a] + list)
  }

  // ----- Round trip -----

  predicate IsKind(w: nat) { w == 0x10 || w == 0x20 || w == 0x40 || w == 0x80 || w == 0x200 || w == 0x400 }

  lemma BooleanBit(kind: nat, length: nat, coding: nat)
    requires IsKind(kind) && length < 16 && coding < 8
    ensures Bit(kind + length + 0x8000 * coding, 0x10) <==> kind == 0x10
  {
    assert (kind + length + 0x8000 * coding) / 0x10 == 2048 * coding + kind / 0x10;
  }

  lemma SignedBit(kind: nat, length: nat, coding: nat)
    requires IsKind(kind) && length < 16 && coding < 8
    ensures Bit(kind + length + 0x8000 * coding, 0x20) <==> kind == 0x20
  {
    assert (kind + length + 0x8000 * coding) / 0x20 == 1024 * coding + kind / 0x20;
  }

  lemma UnsignedBit(kind: nat, length: nat, coding: nat)
    requires IsKind(kind) && length < 16 && coding < 8
    ensures Bit(kind + length + 0x8000 * coding, 0x40) <==> kind == 0x40
  {
    assert (kind + length + 0x8000 * coding) / 0x40 == 512 * coding + kind / 0x40;
  }

  lemma FloatBit(kind: nat, length: nat, coding: nat)
    requires IsKind(kind) && length < 16 && coding < 8
    ensures Bit(kind + length + 0x8000 * coding, 0x80) <==> kind == 0x80
  {
    assert (kind + length + 0x8000 * coding) / 0x80 == 256 * coding + kind / 0x80;
  }

  lemma TextBit(kind: nat, length: nat, coding: nat)
    requires IsKind(kind) && length < 16 && coding < 8
    ensures Bit(kind + length + 0x8000 * coding, 0x200) <==> kind == 0x200
  {
    assert (kind + length + 0x8000 * coding) / 0x200 == 64 * coding + kind / 0x200;
  }

  lemma RawBit(kind: nat, length: nat, coding: nat)
    requires IsKind(kind) && length < 16 && coding < 8
    ensures Bit(kind + length + 0x8000 * coding, 0x400) <==> kind == 0x400
  {
    assert (kind + length + 0x8000 * coding) / 0x400 == 32 * coding + kind / 0x400;
  }

  /** Type, length and coding do not overlap. */
  lemma InfoWord(kind: nat, length: nat, coding: nat)
    requires IsKind(kind) && length < 16 && coding < 8
    ensures var t := kind + length + 0x8000 * coding;
            && t < 0x4_0000 && t % 16 == length && (t / 0x8000) % 8 == coding
            && (Bit(t, 0x10) <==> kind == 0x10) && (Bit(t, 0x20) <==> kind == 0x20) && (Bit(t, 0x40) <==> kind == 0x40)
            && (Bit(t, 0x80) <==> kind == 0x80) && (Bit(t, 0x200) <==> kind == 0x200) && (Bit(t, 0x400) <==> kind == 0x400)
  {
    hide Bit;
    BooleanBit(kind, length, coding);
    SignedBit(kind, length, coding);
    UnsignedBit(kind, length, coding);
    FloatBit(kind, length, coding);
    TextBit(kind, length, coding);
    RawBit(kind, length, coding);
  }

  function Kind(a: Argument): nat {
    match a
    case Boolean(_) => 0x10
    case Signed(_, _, _) => 0x20
    case Unsigned(_, _, _) => 0x40
    case Float(_, _) => 0x80
    case Text(_) => 0x200
    case Raw(_) => 0x400
  }

  lemma TypeInfoFields(a: Argument)
    requires Storable(a)
    ensures var t := TypeInfo(a);
            && t < Pow256(4) && KnownFields(t)
            && (Bit(t, 0x10) <==> a.Boolean?) && (Bit(t, 0x20) <==> a.Signed?) && (Bit(t, 0x40) <==> a.Unsigned?)
            && (Bit(t, 0x80) <==> a.Float?) && (Bit(t, 0x200) <==> a.Text?) && (Bit(t, 0x400) <==> a.Raw?)
            && (a.Unsigned? || a.Signed? || a.Float? ==> WidthOf(t) == a.width)
            && (a.Unsigned? || a.Signed? ==> RepresentationOf(t) == a.repr)
  {
    assert Pow256(4) == 0x1_0000_0000;
    var coding := if a.Signed? || a.Unsigned? then a.repr.Code() else if a.Text? then 1 else 0;
    var length := if a.Boolean? then 1 else if a.Variable() then 0 else a.width.TypeLength();
    InfoWord(Kind(a), length, coding);
    hide Bit; hide Pow256;
  }

  lemma ScalarRoundTrip(a: Argument, rest: seq<Byte>)
    requires Storable(a) && !a.Variable()
    ensures DecodeScalar(TypeInfo(a), Image(a) + rest) == Item(a, rest)
  {
    hide LittleEndian; hide TypeInfo; hide WidthOf; hide RepresentationOf; hide Bit; hide Pow256; hide KnownFields;
    TypeInfoFields(a);
    var d := Image(a) + rest;
    if a.Boolean? {
      assert d[..1] == Image(a) && d[1..] == rest;
      assert FromLittleEndian(d[..1]) == d[0] + 256 * FromLittleEndian([]);
    } else {
      hide FromLittleEndian;
      var n := a.width.Size();
      var v := if a.Signed? then (if a.number < 0 then a.number + Pow256(n) else a.number)
               else if a.Unsigned? then a.value else a.image;
      LittleEndianRoundTrip(v, n);
      assert d[..n] == LittleEndian(v, n) && d[n..] == rest;
    }
  }

  lemma HalfWordRoundTrip(v: nat)
    requires v <= U16_MAX
    ensures FromLittleEndian(LittleEndian(v, 2)) == v
  {
    assert Pow256(2) == 0x1_0000;
    LittleEndianRoundTrip(v, 2);
  }

  lemma VariableRoundTrip(a: Argument, rest: seq<Byte>)
    requires Storable(a) && a.Variable()
    ensures DecodeVariable(TypeInfo(a), Encode(a)[4..] + rest) == Item(a, rest)
  {
    hide LittleEndian; hide FromLittleEndian; hide TypeInfo; hide Bit; hide KnownFields;
    TypeInfoFields(a);
    var n := if a.Text? then |a.data| + 1 else |a.data|;
    HalfWordRoundTrip(n);
    var d := Encode(a)[4..] + rest;
    assert d[..2] == LittleEndian(n, 2) && d[2 + n..] == rest;
    assert d[2..2 + |a.data|] == a.data;
  }

  /** An argument in front of anything decodes to itself and leaves the rest. */
  lemma ArgumentRoundTrip(a: Argument, rest: seq<Byte>)
    requires Storable(a)
    ensures DecodeOne(Encode(a) + rest) == Item(a, rest)
  {
    hide LittleEndian; hide FromLittleEndian; hide TypeInfo; hide Bit; hide DecodeScalar; hide DecodeVariable; hide Image; hide KnownFields;
    TypeInfoFields(a);
    var s := Encode(a) + rest;
    LittleEndianRoundTrip(TypeInfo(a), 4);
    assert s[..4] == LittleEndian(TypeInfo(a), 4);
    assert s[4..] == Encode(a)[4..] + rest;
    if a.Variable() {
      VariableRoundTrip(a, rest);
    } else {
      ScalarRoundTrip(a, rest);
      assert Encode(a)[4..] == Image(a);
    }
  }

  // ----- Whole payloads -----

  predicate AllStorable(list: seq<Argument>) { forall i :: 0 <= i < |list| ==> Storable(list[i]) }

  predicate AllInRange(calls: seq<Argument>) { forall i :: 0 <= i < |calls| ==> calls[i].InRange() }

  function EncodeAll(list: seq<Argument>): seq<Byte>
    requires AllStorable(list)
  {
    if list == [] then [] else Encode(list[0]) + EncodeAll(list[1..])
  }

  lemma {:induction false} EncodeAllAppend(list: seq<Argument>, a: Argument)
    requires AllStorable(list) && Storable(a)
    ensures EncodeAll(list + [a]) == EncodeAll(list) + Encode(a)
  {
    hide Encode; hide Storable;
    if list == [] {
      assert list + [a] == [a] && [a][1..] == [];
    } else {
      EncodeAllAppend(list[1..], a);
      assert (list + [a])[1..] == list[1..] + [a];
    }
  }

  /** What is left in a payload after a series of `Log` calls, whatever their results were. */
  function KeptOf(capacity: nat, calls: seq<Argument>): (kept: seq<Argument>)
    requires AllInRange(calls)
    ensures AllStorable(kept) && |EncodeAll(kept)| <= capacity
  {
    if calls == [] then []
    else
      var before := KeptOf(capacity, calls[..|calls| - 1]);
      var k := Keep(calls[|calls| - 1], capacity - |EncodeAll(before)|);
      if k.Nothing? then before
      else
        EncodeAllAppend(before, k.a);
        before + [k.a]
  }

  lemma {:induction false} EncodedDecodes(list: seq<Argument>)
    requires AllStorable(list)
    ensures DecodeAll(EncodeAll(list)) == Arguments(list)
  {
    hide Encode; hide Storable; hide DecodeOne;
    if list != [] {
      EncodedDecodes(list[1..]);
      ArgumentRoundTrip(list[0], EncodeAll(list[1..]));
      EncodeNotEmpty(list[0]);
    }
  }

  lemma EncodeNotEmpty(a: Argument)
    requires Storable(a)
    ensures |Encode(a)| >= 4
  {
  }

  /** Every series of `Log` calls leaves a payload that decodes to exactly the kept arguments, in call order. */
  lemma PayloadDecodes(capacity: nat, calls: seq<Argument>)
    requires AllInRange(calls)
    ensures DecodeAll(EncodeAll(KeptOf(capacity, calls))) == Arguments(KeptOf(capacity, calls))
  {
    EncodedDecodes(KeptOf(capacity, calls));
  }

  /** A scalar is kept whole if and only if its type info and its value fit. */
  lemma KeepsScalarIff(a: Argument, room: nat)
    requires a.InRange() && !a.Variable()
    ensures Keep(a, room) == if 4 + (if a.Boolean? then 1 else a.width.Size()) <= room then Whole(a) else Nothing
  {
  }

  /** `kept` is a prefix of the argument, no longer prefix would fit, and it is kept whenever more than a header fits. */
  lemma KeepsLongestPrefix(a: Argument, room: nat)
    requires a.Variable()
    ensures Keep(a, room).Whole? <==> room > VARIABLE_HEADER
    ensures room > VARIABLE_HEADER ==>
              var kept := Keep(a, room).a;
              && kept.Variable() && |kept.data| <= |a.data| && kept == Shortened(a, |kept.data|) && Fits(kept, room)
              && forall n :: |kept.data| < n <= |a.data| ==> !Fits(Shortened(a, n), room)
  {
    hide Fits; hide Encode;
    if room > VARIABLE_HEADER {
      var m := CroppedLength(a, room);
      LongestPrefixIs(a, |a.data|, m, room);
      forall n | m < n <= |a.data| ensures !Fits(Shortened(a, n), room) {
        TooLong(a, n, room);
      }
    }
  }

  /** The length that the code computes. */
  function CroppedLength(a: Argument, room: nat): (m: nat)
    requires a.Variable() && room > VARIABLE_HEADER
    ensures m <= |a.data|
  {
    var most := ClampTo16(room - VARIABLE_HEADER) - if a.Text? then 1 else 0;
    if |a.data| > most then most else |a.data|
  }

  lemma TooLong(a: Argument, n: nat, room: nat)
    requires a.Variable() && room > VARIABLE_HEADER && CroppedLength(a, room) < n <= |a.data|
    ensures !Fits(Shortened(a, n), room)
  {
    if Storable(Shortened(a, n)) {
      VariableSize(Shortened(a, n));
    }
  }
}
