/** The channel object: four fixed buffers filled in place, sent with one vectored call. */
module DltLogChannels {
  import opened Bytes
  import opened DltHeaders
  import opened DltChannel

  /** Copy `bytes` into `buffer` at `at`. */
  method CopyInto(buffer: array<Byte>, at: nat, bytes: seq<Byte>)
    requires at + |bytes| <= buffer.Length
    modifies buffer
    ensures buffer[..at] == old(buffer[..at])
    ensures buffer[at..at + |bytes|] == bytes
  {
    for i := 0 to |bytes|
      invariant buffer[..at] == old(buffer[..at])
      invariant buffer[at..at + i] == bytes[..i]
    {
      buffer[at + i] := bytes[i];
      assert buffer[at..at + i + 1] == buffer[at..at + i] + [bytes[i]];
      assert bytes[..i + 1] == bytes[..i] + [bytes[i]];
    }
  }

  /** Copy a header and the payload behind it. */
  method CopyPacket(buffer: array<Byte>, at: nat, header: seq<Byte>, data: seq<Byte>)
    requires at + |header| + |data| <= buffer.Length
    modifies buffer
    ensures buffer[..at + |header + data|] == old(buffer[..at]) + (header + data)
  {
    CopyInto(buffer, at, header);
    assert buffer[..at + |header|] == old(buffer[..at]) + header;
    CopyInto(buffer, at + |header|, data);
    assert buffer[..at + |header| + |data|] == buffer[..at + |header|] + data;
  }

  class DltLogChannel {
    const ecu: DltId
    const prebufData: seq<array<Byte>>
    var threshold: nat
    var mcnt: Byte
    var vectorIndex: nat
    var lengths: seq<nat>               // iov_len of the stored buffers
    var prebufSize: nat
    var prebufIsVerbose: bool
    var sent: seq<seq<Byte>>            // datagrams handed to the UDP socket
    ghost var spec: Channel

    ghost predicate BuffersOk() {
      && |prebufData| == VECTOR_COUNT
      && (forall i :: 0 <= i < VECTOR_COUNT ==> prebufData[i].Length == UDP_MAX_PAYLOAD)
      && (forall i, j :: 0 <= i < j < VECTOR_COUNT ==> prebufData[i] != prebufData[j])
    }

    /** The stored buffers hold `stored`; one more than `Valid` allows while a send is due. */
    ghost predicate HoldsStored(stored: seq<Datagram>)
      reads this`vectorIndex, this`lengths, prebufData
      requires BuffersOk()
    {
      && vectorIndex == |stored| <= VECTOR_COUNT == |lengths|
      && forall i :: 0 <= i < vectorIndex ==>
           lengths[i] <= UDP_MAX_PAYLOAD && prebufData[i][..lengths[i]] == Concat(stored[i])
    }

    /** The bytes in the buffers are the ones of the datagrams that were closed, and of the open one. */
    ghost predicate Holds()
      reads this`vectorIndex, this`lengths, this`prebufSize, this`spec, prebufData
      requires BuffersOk()
    {
      && HoldsStored(spec.stored) && vectorIndex < VECTOR_COUNT
      && HoldsOpen(spec.open)
    }

    ghost predicate HoldsOpen(open: Datagram)
      reads this`vectorIndex, this`prebufSize, prebufData
      requires BuffersOk() && vectorIndex < VECTOR_COUNT
    {
      prebufSize <= UDP_MAX_PAYLOAD && prebufData[vectorIndex][..prebufSize] == Concat(open)
    }

    ghost predicate Valid()
      reads this, prebufData
    {
      && BuffersOk() && Holds()
      && ChannelInv(spec)
      && spec.ecu == ecu && spec.threshold == threshold && spec.mcnt == mcnt && spec.verbose == prebufIsVerbose
      && sent == Payloads(spec.sent)
    }

    constructor (ecu: DltId, threshold: nat)
      ensures Valid() && spec == NewChannel(ecu, threshold) && fresh(prebufData)
    {
      this.ecu := ecu;
      this.threshold := threshold;
      var b0 := new Byte[UDP_MAX_PAYLOAD](_ => 0);
      var b1 := new Byte[UDP_MAX_PAYLOAD](_ => 0);
      var b2 := new Byte[UDP_MAX_PAYLOAD](_ => 0);
      var b3 := new Byte[UDP_MAX_PAYLOAD](_ => 0);
      prebufData := [b0, b1, b2, b3];
      mcnt, vectorIndex, lengths, prebufSize, prebufIsVerbose, sent := 0, 0, [0, 0, 0, 0], 0, false, [];
      spec := NewChannel(ecu, threshold);
      NewChannelInv(ecu, threshold);
    }

    /** Close the open buffer if it holds anything. */
    method CloseOpen() returns (ghost stored: seq<Datagram>)
      requires Valid()
      modifies this`vectorIndex, this`lengths, this`prebufSize
      ensures prebufSize == 0
      ensures stored == if spec.open == [] then spec.stored else spec.stored + [spec.open]
      ensures HoldsStored(stored) && vectorIndex == |stored|
    {
      OpenIsEmptyIff(spec);
      hide ChannelInv; hide Concat; hide Payloads;
      stored := spec.stored;
      if prebufSize > 0 {
        lengths := lengths[vectorIndex := prebufSize];
        vectorIndex := vectorIndex + 1;
        prebufSize := 0;
        stored := stored + [spec.open];
      }
    }

    /** Close the open buffer and, if asked to or if all four are in use, send the closed ones in order. */
    method SendUdp(flush: bool)
      requires Valid()
      modifies this`vectorIndex, this`lengths, this`prebufSize, this`sent, this`spec
      ensures Valid() && spec == DltChannel.SendUdp(old(spec), flush) && prebufSize == 0
    {
      hide ChannelInv; hide Concat; hide Payloads; hide DltChannel.SendUdp;
      hide Holds; hide HoldsStored; hide HoldsOpen; hide BuffersOk;
      SendUdpKeepsInv(spec, flush);
      SendUdpCases(spec, flush);
      ghost var stored := CloseOpen();
      HandOver(stored, flush);
      ReadyToFill();
    }

    /** Send the closed buffers if asked to or if none is left; in any case nothing is open now. */
    method HandOver(ghost stored: seq<Datagram>, flush: bool)
      requires BuffersOk() && HoldsStored(stored) && vectorIndex == |stored| && sent == Payloads(spec.sent)
      modifies this`vectorIndex, this`sent, this`spec
      ensures BuffersOk() && HoldsStored(spec.stored) && vectorIndex == |spec.stored| && sent == Payloads(spec.sent)
      ensures spec == Departed(old(spec), stored, flush)
    {
      hide Payloads; hide Concat;
      if (flush && vectorIndex > 0) || vectorIndex >= VECTOR_COUNT {
        SendStored(stored);
      }
      spec := Departed(spec, stored, flush);
    }

    /** With the buffers holding the stored datagrams and nothing open, the next buffer can be filled. */
    lemma ReadyToFill()
      requires BuffersOk() && HoldsStored(spec.stored) && vectorIndex < VECTOR_COUNT && prebufSize == 0 && spec.open == []
      ensures Holds()
    {
      ConcatEmpty();
    }

    /** The vectored send: what goes out is what the buffers contain at this moment. */
    method SendStored(ghost stored: seq<Datagram>)
      requires BuffersOk() && HoldsStored(stored)
      requires sent == Payloads(spec.sent)
      modifies this`sent, this`vectorIndex
      ensures sent == Payloads(spec.sent + stored)
      ensures vectorIndex == 0 && HoldsStored([])
    {
      hide Concat; hide Payloads;
      assert spec.sent + stored[..0] == spec.sent;
      for i := 0 to vectorIndex
        invariant sent == Payloads(spec.sent + stored[..i])
      {
        PayloadsAppend(spec.sent + stored[..i], stored[i]);
        assert spec.sent + stored[..i + 1] == spec.sent + stored[..i] + [stored[i]];
        sent := sent + [prebufData[i][..lengths[i]]];
      }
      assert stored[..|stored|] == stored;
      vectorIndex := 0;
    }

    /** Build the message in the open buffer: header first, payload behind it. */
    method Append(m: Message)
      requires Valid() && prebufSize + m.FullSize() <= UDP_MAX_PAYLOAD && m.Verbose? == prebufIsVerbose
      modifies this`prebufSize, this`mcnt, this`spec, prebufData[vectorIndex]
      ensures Valid() && spec == Accept(old(spec).(open := old(spec).open + [NextPacket(old(spec), m)]), m)
    {
      hide ChannelInv; hide Concat; hide Payloads; hide Header;
      PlaceInOpen(spec, m);
      ghost var p := NextPacket(spec, m);
      ConcatGrows(spec.open, p);
      var buffer := prebufData[vectorIndex];
      var header := Header(m, ecu, mcnt);
      CopyPacket(buffer, prebufSize, header, m.data);
      prebufSize := prebufSize + m.FullSize();
      spec := Accept(spec.(open := spec.open + [p]), m);
      mcnt := (mcnt + 1) % 256;
    }

    /** Flush, then send the message as a datagram of its own. */
    method SendDirect(m: Message)
      requires Valid()
      modifies this`vectorIndex, this`lengths, this`prebufSize, this`sent, this`mcnt, this`spec
      ensures Valid() && spec == Bypass(old(spec), m)
    {
      hide ChannelInv; hide Concat; hide Payloads; hide Packet; hide DltChannel.SendUdp;
      BypassKeepsInv(spec, m);
      ghost var after := Bypass(spec, m);
      SendUdpFrame(spec, true);
      SendUdp(true);
      ghost var p := NextPacket(spec, m);
      PayloadsAppend(spec.sent, [p]);
      SingleConcat(p);
      sent := sent + [Packet(m, ecu, mcnt)];
      mcnt := (mcnt + 1) % 256;
      spec := after;
    }

    /** Put the message into the open buffer, into a new one, or send it directly. */
    method PlaceMessage(m: Message)
      requires Valid() && m.Verbose? == prebufIsVerbose
      modifies this`vectorIndex, this`lengths, this`prebufSize, this`sent, this`mcnt, this`spec, prebufData
      ensures Valid() && spec == Place(old(spec), m)
    {
      assert prebufSize == |Concat(spec.open)|;
      hide ChannelInv; hide Concat; hide Payloads; hide Packet; hide DltChannel.SendUdp; hide Accept; hide Bypass; hide Holds;
      if prebufSize + m.FullSize() <= UDP_MAX_PAYLOAD {
        Append(m);
      } else {
        SendUdpKeepsInv(spec, false);
        SendUdp(false);
        if m.FullSize() < UDP_MAX_PAYLOAD {
          Append(m);
        } else {
          SendDirect(m);
        }
      }
    }

    /** A datagram holds messages of one kind: a change of kind closes the open buffer. */
    method ChangeKind(verbose: bool)
      requires Valid()
      modifies this`vectorIndex, this`lengths, this`prebufSize, this`prebufIsVerbose, this`sent, this`spec
      ensures Valid() && prebufIsVerbose == verbose
      ensures spec == if old(spec).verbose == verbose then old(spec) else DltChannel.SendUdp(old(spec), false).(verbose := verbose)
    {
      hide ChannelInv; hide Concat; hide Payloads; hide DltChannel.SendUdp;
      if prebufIsVerbose != verbose {
        SendUdpKeepsInv(spec, false);
        SendUdp(false);
        SwitchKind(spec, verbose);
        spec := spec.(verbose := verbose);
        prebufIsVerbose := verbose;
      }
    }

    /** `SendNonVerbose` and `SendVerbose`. */
    method SendMessage(m: Message)
      requires Valid()
      modifies this`vectorIndex, this`lengths, this`prebufSize, this`prebufIsVerbose, this`sent, this`mcnt, this`spec, prebufData
      ensures Valid() && spec == DltChannel.SendMessage(old(spec), m)
    {
      hide ChannelInv; hide Concat; hide Payloads; hide DltChannel.SendUdp; hide Place; hide Holds; hide BuffersOk;
      if m.level > threshold {
        return;
      }
      ChangeKind(m.Verbose?);
      PlaceMessage(m);
    }

    method SendFtVerbose(m: Message)
      requires Valid() && m.Verbose? && m.file
      modifies this`vectorIndex, this`lengths, this`prebufSize, this`sent, this`mcnt, this`spec
      ensures Valid() && spec == Apply(old(spec), SendFile(m))
    {
      SendDirect(m);
    }

    method FlushAll()
      requires Valid()
      modifies this`vectorIndex, this`lengths, this`prebufSize, this`sent, this`spec
      ensures Valid() && spec == Apply(old(spec), Flush) && vectorIndex == 0 && prebufSize == 0
    {
      SendUdpKeepsInv(spec, true);
      SendUdp(true);
    }
  }

  /** The bytes of a list of datagrams. */
  ghost function Payloads(ds: seq<Datagram>): seq<seq<Byte>> {
    seq(|ds|, i requires 0 <= i < |ds| => Concat(ds[i]))
  }

  function Departed(c: Channel, stored: seq<Datagram>, flush: bool): Channel {
    if (flush && stored != []) || |stored| >= VECTOR_COUNT
    then c.(sent := c.sent + stored, stored := [], open := []) else c.(stored := stored, open := [])
  }

  lemma SendUdpCases(c: Channel, flush: bool)
    ensures DltChannel.SendUdp(c, flush) == Departed(c, if c.open == [] then c.stored else c.stored + [c.open], flush)
  {
  }

  lemma PayloadsAppend(ds: seq<Datagram>, d: Datagram)
    ensures Payloads(ds + [d]) == Payloads(ds) + [Concat(d)]
  {
  }

  lemma SingleConcat(p: seq<Byte>)
    ensures Concat([p]) == p
  {
    assert [p][1..] == [];
  }

  /** `prebuf_size_ > 0` says whether the open buffer holds a message. */
  lemma OpenIsEmptyIff(c: Channel)
    requires ChannelInv(c)
    ensures |Concat(c.open)| == 0 <==> c.open == []
  {
    if c.open != [] {
      assert Framed(c.open[0]);
    }
  }
}
