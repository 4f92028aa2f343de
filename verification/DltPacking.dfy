/** Batching is greedy: messages that fit share datagrams, and datagrams leave four at a time. */
module DltPacking {
  import opened Bytes
  import opened DltHeaders
  import opened DltChannel

  /** Only log messages smaller than a datagram, and changes of the threshold. */
  predicate SmallSends(commands: seq<Command>) {
    forall i :: 0 <= i < |commands| ==> SmallSend(commands[i])
  }

  predicate SmallSend(k: Command) { k.SetThreshold? || (k.Send? && k.m.FullSize() < UDP_MAX_PAYLOAD) }

  predicate NonEmpty(d: Datagram) { d != [] && |d[0]| >= STANDARD_SIZE }

  /** `e` did not go into `d`: it is of the other kind, or its first message did not fit any more. */
  predicate Follows(d: Datagram, e: Datagram) {
    NonEmpty(d) && NonEmpty(e) ==>
      IsVerbosePacket(d[0]) != IsVerbosePacket(e[0]) || |Concat(d)| + |e[0]| > UDP_MAX_PAYLOAD
  }

  predicate Tight(ds: seq<Datagram>) { forall i :: 0 <= i < |ds| - 1 ==> Follows(ds[i], ds[i + 1]) }

  /** All datagrams so far, the open one last. */
  function Batches(c: Channel): seq<Datagram> {
    c.sent + c.stored + if c.open == [] then [] else [c.open]
  }

  predicate PackInv(c: Channel) {
    && ChannelInv(c)
    && Tight(Batches(c)) && |c.sent| % VECTOR_COUNT == 0
    && (c.open == [] ==> c.sent == [] && c.stored == [])
  }

  lemma TightAppend(ds: seq<Datagram>, e: Datagram)
    requires Tight(ds) && (ds != [] ==> Follows(ds[|ds| - 1], e))
    ensures Tight(ds + [e])
  {
    hide Follows;
    var r := ds + [e];
    forall i | 0 <= i < |r| - 1 ensures Follows(r[i], r[i + 1]) {
      if i < |ds| - 1 {
        assert Follows(ds[i], ds[i + 1]);
      }
    }
  }

  /** The last datagram grows at its end. */
  lemma TightGrow(ds: seq<Datagram>, d: Datagram, p: seq<Byte>)
    requires Tight(ds + [d]) && d != []
    ensures Tight(ds + [d + [p]])
  {
    var a, b := ds + [d], ds + [d + [p]];
    forall i | 0 <= i < |b| - 1 ensures Follows(b[i], b[i + 1]) {
      assert Follows(a[i], a[i + 1]);
    }
  }

  /** Closing the open datagram changes none, and hands over nothing or four. */
  lemma ClosingKeepsBatches(c: Channel)
    requires |c.stored| < VECTOR_COUNT
    ensures var c' := SendUdp(c, false);
            && Batches(c') == Batches(c) && c'.open == []
            && (|c'.sent| == |c.sent| || |c'.sent| == |c.sent| + VECTOR_COUNT)
  {
  }

  lemma NewKind(c: Channel, p: seq<Byte>)
    requires ChannelInv(c) && c.open != [] && IsVerbosePacketSafe(p) != c.verbose
    ensures Follows(c.open, [p])
  {
    hide Concat; hide AllPackets; hide Expected;
    assert Framed(c.open[0]) && IsVerbosePacket(c.open[0]) == c.verbose;
  }

  predicate IsVerbosePacketSafe(p: seq<Byte>) { |p| >= STANDARD_SIZE && IsVerbosePacket(p) }

  lemma FitsJoins(c: Channel, m: Message)
    requires PackInv(c) && m.Verbose? == c.verbose && |Concat(c.open)| + m.FullSize() <= UDP_MAX_PAYLOAD
    ensures Tight(Batches(Accept(c.(open := c.open + [NextPacket(c, m)]), m)))
  {
    hide Concat; hide Packet; hide ChannelInv; hide Follows;
    var p := NextPacket(c, m);
    var c' := Accept(c.(open := c.open + [p]), m);
    if c.open == [] {
      assert [] + [p] == [p];
      assert Batches(c') == [[p]];
    } else {
      TightGrow(c.sent + c.stored, c.open, p);
    }
  }

  /** A message that starts a new datagram, behind one that is full or of the other kind. */
  lemma StartsDatagram(c: Channel, c1: Channel, m: Message, p: seq<Byte>)
    requires PackInv(c) && Batches(c1) == Batches(c) && c1.open == [] && (c.open != [] ==> Follows(c.open, [p]))
    ensures Tight(Batches(Accept(c1.(open := [p]), m)))
  {
    hide ChannelInv; hide Follows;
    var ds := Batches(c);
    assert Batches(Accept(c1.(open := [p]), m)) == ds + [[p]];
    TightAppend(ds, [p]);
  }

  predicate Joins(c: Channel, m: Message) { c.verbose == m.Verbose? && |Concat(c.open)| + m.FullSize() <= UDP_MAX_PAYLOAD }

  /** A small message joins the open datagram, or starts a new one. */
  lemma SendShape(c: Channel, m: Message)
    requires m.level <= c.threshold && m.FullSize() < UDP_MAX_PAYLOAD
    ensures var p := NextPacket(c, m);
            SendMessage(c, m) == if Joins(c, m) then Accept(c.(open := c.open + [p]), m)
                                 else Accept(SendUdp(c, false).(verbose := m.Verbose?, open := [p]), m)
  {
    hide Concat; hide Packet; hide Bypass;
    ConcatEmpty();
    assert [] + [NextPacket(c, m)] == [NextPacket(c, m)];
  }

  lemma SendKeepsPacking(c: Channel, m: Message)
    requires PackInv(c) && m.FullSize() < UDP_MAX_PAYLOAD
    ensures PackInv(SendMessage(c, m))
  {
    hide SendMessage; hide Packet; hide Concat; hide ChannelInv; hide Tight; hide Follows; hide Batches; hide SendUdp;
    CommandKeepsInv(c, Send(m));
    if m.level <= c.threshold {
      var p := NextPacket(c, m);
      SendShape(c, m);
      if Joins(c, m) {
        FitsJoins(c, m);
      } else {
        FewStored(c);
        ClosingKeepsBatches(c);
        DoesNotJoin(c, m);
        var c1 := SendUdp(c, false).(verbose := m.Verbose?);
        SameBatches(SendUdp(c, false), m.Verbose?);
        StartsDatagram(c, c1, m, p);
      }
    } else {
      NotAccepted(c, m);
    }
  }

  lemma NotAccepted(c: Channel, m: Message)
    requires m.level > c.threshold
    ensures SendMessage(c, m) == c
  {
  }

  lemma FewStored(c: Channel)
    requires ChannelInv(c)
    ensures |c.stored| < VECTOR_COUNT
  {
  }

  lemma SameBatches(c: Channel, verbose: bool)
    ensures Batches(c.(verbose := verbose)) == Batches(c)
  {
  }

  lemma DoesNotJoin(c: Channel, m: Message)
    requires ChannelInv(c) && !Joins(c, m)
    ensures c.open != [] ==> Follows(c.open, [NextPacket(c, m)])
  {
    PacketFields(m, c.ecu, c.mcnt);
    if c.open != [] && c.verbose != m.Verbose? {
      NewKind(c, NextPacket(c, m));
    }
    hide Concat; hide Packet; hide AllPackets; hide Expected;
  }

  lemma {:induction false} PackingRun(c: Channel, commands: seq<Command>)
    requires PackInv(c) && SmallSends(commands)
    ensures PackInv(Run(c, commands))
  {
    hide PackInv; hide SendMessage;
    if commands != [] {
      var n := |commands| - 1;
      PackingRun(c, commands[..n]);
      var d := Run(c, commands[..n]);
      assert SmallSend(commands[n]);
      if commands[n].Send? {
        SendKeepsPacking(d, commands[n].m);
      } else {
        ThresholdKeepsPacking(d, commands[n].level);
      }
    }
  }

  lemma ThresholdKeepsPacking(c: Channel, level: nat)
    requires PackInv(c)
    ensures PackInv(c.(threshold := level))
  {
    CommandKeepsInv(c, SetThreshold(level));
    hide ChannelInv; hide Tight;
    assert Batches(c.(threshold := level)) == Batches(c);
  }

  /**
   * For every sequence of small messages, without a flush: no message leaves alone, because datagrams leave four at a
   * time; and packing is greedy, because each datagram starts with a message that did not fit into the one before,
   * or is of the other kind.
   */
  lemma PackingIsGreedy(ecu: DltId, threshold: nat, commands: seq<Command>)
    requires SmallSends(commands)
    ensures var c := Run(NewChannel(ecu, threshold), commands);
            && |c.sent| % VECTOR_COUNT == 0 && |c.stored| < VECTOR_COUNT
            && forall i :: 0 <= i < |Batches(c)| - 1 ==> Follows(Batches(c)[i], Batches(c)[i + 1])
  {
    hide Run; hide Batches; hide Follows;
    FreshPacking(ecu, threshold);
    PackingRun(NewChannel(ecu, threshold), commands);
  }

  lemma FreshPacking(ecu: DltId, threshold: nat)
    ensures PackInv(NewChannel(ecu, threshold))
  {
    NewChannelInv(ecu, threshold);
  }
}
