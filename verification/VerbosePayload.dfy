/** The formatter at work: `Log` calls that append to a bounded payload. */
module VerbosePayloads {
  import opened Bytes
  import opened DltFormat
  import DltHeaders

  function Sizes(parts: seq<seq<Byte>>): (r: seq<nat>)
    ensures |r| == |parts|
  {
    seq(|parts|, i requires 0 <= i < |parts| => |parts[i]|)
  }

  /** Below the largest `size_t` the clamped sum is the true one. */
  lemma {:induction false} SumIsExact(parts: seq<seq<Byte>>)
    requires parts != [] && |DltHeaders.Concat(parts)| <= SIZE_MAX
    ensures Sum(Sizes(parts)) == |DltHeaders.Concat(parts)|
  {
    if |parts| == 1 {
      assert parts[1..] == [];
    } else {
      SumIsExact(parts[1..]);
      assert Sizes(parts)[1..] == Sizes(parts[1..]);
    }
  }

  class VerbosePayload {
    const capacity: nat
    var bytes: seq<Byte>
    ghost var calls: seq<Argument>

    /** The payload is the encoding of what is kept of the calls so far. */
    ghost predicate Valid()
      reads this
    {
      AllInRange(calls) && bytes == EncodeAll(KeptOf(capacity, calls))
    }

    constructor (capacity: nat)
      ensures Valid() && calls == [] && this.capacity == capacity
    {
      this.capacity, bytes, calls := capacity, [], [];
    }

    function RemainingCapacity(): int
      reads this
    {
      capacity - |bytes|
    }

    /** All parts or none. */
    method Store(parts: seq<seq<Byte>>) returns (added: bool)
      requires parts != []
      modifies this`bytes
      ensures added == (Sum(Sizes(parts)) <= old(RemainingCapacity()))
      ensures bytes == if added then old(bytes) + DltHeaders.Concat(parts) else old(bytes)
    {
      added := Sum(Sizes(parts)) <= RemainingCapacity();
      if added {
        for i := 0 to |parts|
          invariant bytes == old(bytes) + DltHeaders.Concat(parts[..i])
        {
          DltHeaders.ConcatAppend(parts[..i], [parts[i]]);
          assert parts[..i] + [parts[i]] == parts[..i + 1];
          ConcatCons(parts[i], []);
          bytes := bytes + parts[i];
        }
        assert parts[..|parts|] == parts;
      }
    }

    /** Integers, floating-point numbers and booleans. */
    method LogScalar(a: Argument) returns (added: bool)
      requires Valid() && a.InRange() && !a.Variable()
      modifies this
      ensures Valid() && calls == old(calls) + [a]
      ensures added == Keep(a, old(RemainingCapacity())).Whole?
    {
      hide Encode; hide EncodeAll; hide KeptOf; hide LongestPrefix;
      var parts := [LittleEndian(TypeInfo(a), 4), Image(a)];
      ScalarParts(a);
      SumIsExact(parts);
      CallRecorded(capacity, calls, a);
      added := Store(parts);
      calls := calls + [a];
    }

    method LogText(data: seq<Byte>) returns (added: bool)
      requires Valid()
      modifies this
      ensures Valid() && calls == old(calls) + [Text(data)]
      ensures added == (old(RemainingCapacity()) > VARIABLE_HEADER)
    {
      hide Encode; hide EncodeAll; hide KeptOf; hide Keep; hide LongestPrefix; hide LittleEndian;
      var a := Text(data);
      CallRecorded(capacity, calls, a);
      KeptFits(capacity, calls);
      calls := calls + [a];
      if RemainingCapacity() <= VARIABLE_HEADER {
        NoRoom(a, RemainingCapacity());
        return false;
      }
      var room := RemainingCapacity() - VARIABLE_HEADER;
      var maxInclNull := if room < U16_MAX then room else U16_MAX;
      var maxLength := if maxInclNull > 0 then maxInclNull - 1 else 0;
      var cropped := ClampTo16(if |data| > maxLength then maxLength else |data|);
      var parts := [LittleEndian(TypeInfo(a), 4), LittleEndian(ClampAddNullTerminator(cropped), 2), data[..cropped], [0]];
      KeepsCropped(a, RemainingCapacity());
      TextParts(data[..cropped]);
      SumIsExact(parts);
      added := Store(parts);
    }

    method LogRaw(data: seq<Byte>) returns (added: bool)
      requires Valid()
      modifies this
      ensures Valid() && calls == old(calls) + [Raw(data)]
      ensures added == (old(RemainingCapacity()) > VARIABLE_HEADER)
    {
      hide Encode; hide EncodeAll; hide KeptOf; hide Keep; hide LongestPrefix; hide LittleEndian;
      var a := Raw(data);
      CallRecorded(capacity, calls, a);
      KeptFits(capacity, calls);
      calls := calls + [a];
      if RemainingCapacity() <= VARIABLE_HEADER {
        NoRoom(a, RemainingCapacity());
        return false;
      }
      var maxLength := ClampTo16(RemainingCapacity() - VARIABLE_HEADER);
      var cropped := if |data| > maxLength then maxLength else |data|;
      var parts := [LittleEndian(TypeInfo(a), 4), LittleEndian(cropped, 2), data[..cropped]];
      KeepsCropped(a, RemainingCapacity());
      RawParts(data[..cropped]);
      SumIsExact(parts);
      added := Store(parts);
    }
  }

  lemma ConcatCons(a: seq<Byte>, rest: seq<seq<Byte>>)
    ensures DltHeaders.Concat([a] + rest) == a + DltHeaders.Concat(rest)
  {
    assert ([a] + rest)[1..] == rest;
  }

  lemma TwoParts(a: seq<Byte>, b: seq<Byte>)
    ensures DltHeaders.Concat([a, b]) == a + b
  {
    hide DltHeaders.Concat;
    ConcatCons(a, [b]);
    ConcatCons(b, []);
    DltHeaders.ConcatEmpty();
    assert [a] + [b] == [a, b] && [b] + [] == [b];
  }

  lemma ThreeParts(a: seq<Byte>, b: seq<Byte>, c: seq<Byte>)
    ensures DltHeaders.Concat([a, b, c]) == a + b + c
  {
    hide DltHeaders.Concat;
    ConcatCons(a, [b, c]);
    TwoParts(b, c);
    assert [a] + [b, c] == [a, b, c];
  }

  lemma FourParts(a: seq<Byte>, b: seq<Byte>, c: seq<Byte>, d: seq<Byte>)
    ensures DltHeaders.Concat([a, b, c, d]) == a + b + c + d
  {
    hide DltHeaders.Concat;
    ConcatCons(a, [b, c, d]);
    ThreeParts(b, c, d);
    assert [a] + [b, c, d] == [a, b, c, d];
  }

  lemma Regroup(a: seq<Byte>, b: seq<Byte>, c: seq<Byte>, d: seq<Byte>)
    ensures a + (b + c + d) == a + b + c + d
  {
  }

  lemma ScalarParts(a: Argument)
    requires a.InRange() && !a.Variable()
    ensures DltHeaders.Concat([LittleEndian(TypeInfo(a), 4), Image(a)]) == Encode(a) && |Encode(a)| <= 12
  {
    hide LittleEndian; hide TypeInfo; hide DltHeaders.Concat;
    TwoParts(LittleEndian(TypeInfo(a), 4), Image(a));
  }

  lemma TextParts(data: seq<Byte>)
    requires Storable(Text(data))
    ensures DltHeaders.Concat([LittleEndian(TypeInfo(Text(data)), 4), LittleEndian(|data| + 1, 2), data, [0]]) == Encode(Text(data))
  {
    hide LittleEndian; hide TypeInfo; hide DltHeaders.Concat;
    var t, n := LittleEndian(TypeInfo(Text(data)), 4), LittleEndian(|data| + 1, 2);
    FourParts(t, n, data, [0]);
    assert Encode(Text(data)) == t + (n + data + [0]);
    hide Encode;
    Regroup(t, n, data, [0]);
  }

  lemma RawParts(data: seq<Byte>)
    requires Storable(Raw(data))
    ensures DltHeaders.Concat([LittleEndian(TypeInfo(Raw(data)), 4), LittleEndian(|data|, 2), data]) == Encode(Raw(data))
  {
    hide LittleEndian; hide TypeInfo; hide DltHeaders.Concat;
    var t, n := LittleEndian(TypeInfo(Raw(data)), 4), LittleEndian(|data|, 2);
    ThreeParts(t, n, data);
  }

  lemma KeptFits(capacity: nat, calls: seq<Argument>)
    requires AllInRange(calls)
    ensures |EncodeAll(KeptOf(capacity, calls))| <= capacity
  {
  }

  /** One more call appends the encoding of what is kept of it. */
  lemma CallRecorded(capacity: nat, calls: seq<Argument>, a: Argument)
    requires AllInRange(calls) && a.InRange()
    ensures AllInRange(calls + [a])
    ensures var s := EncodeAll(KeptOf(capacity, calls));
            |s| <= capacity &&
            var k := Keep(a, capacity - |s|);
            EncodeAll(KeptOf(capacity, calls + [a])) == if k.Whole? then s + Encode(k.a) else s
  {
    hide Encode; hide EncodeAll; hide Keep; hide Storable;
    var s := EncodeAll(KeptOf(capacity, calls));
    var k := Keep(a, capacity - |s|);
    assert (calls + [a])[..|calls|] == calls;
    if k.Whole? {
      EncodeAllAppend(KeptOf(capacity, calls), k.a);
    }
  }

  lemma NoRoom(a: Argument, room: nat)
    requires a.Variable() && room <= VARIABLE_HEADER
    ensures Keep(a, room) == Nothing
  {
  }

  lemma KeepsCropped(a: Argument, room: nat)
    requires a.Variable() && room > VARIABLE_HEADER
    ensures var kept := Shortened(a, CroppedLength(a, room));
            Keep(a, room) == Whole(kept) && Storable(kept) && |Encode(kept)| <= room && |Encode(kept)| <= VARIABLE_HEADER + U16_MAX
  {
    LongestPrefixIs(a, |a.data|, CroppedLength(a, room), room);
    VariableSize(Shortened(a, CroppedLength(a, room)));
  }
}
