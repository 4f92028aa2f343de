/** Batching of DLT messages into UDP datagrams, on values. */
module DltChannel {
  import opened Bytes
  import opened DltHeaders

  const UDP_MAX_PAYLOAD: nat := 1500 - (20 + 8)
  const VECTOR_COUNT: nat := 4

  /** A datagram as the list of messages in it. */
  type Datagram = seq<seq<Byte>>

  datatype Channel = Channel(
    ecu: DltId,
    threshold: nat,
    mcnt: Byte,
    sent: seq<Datagram>,        // handed to UDP
    stored: seq<Datagram>,      // finished, waiting for the next vectored send
    open: Datagram,             // the buffer being filled
    verbose: bool,              // prebuf_is_verbose_
    accepted: seq<Message>)     // history: messages that passed the threshold, in call order

  datatype Command = Send(m: Message) | SendFile(m: Message) | Flush | SetThreshold(level: nat)

  function NewChannel(ecu: DltId, threshold: nat): Channel {
    Channel(ecu, threshold, 0, [], [], [], false, [])
  }

  /** `SendUdp`: close the open buffer; hand over all closed ones if asked to or if none is left. */
  function SendUdp(c: Channel, flush: bool): Channel {
    var c1 := if c.open == [] then c else c.(stored := c.stored + [c.open], open := []);
    if (flush && c1.stored != []) || |c1.stored| >= VECTOR_COUNT
    then c1.(sent := c1.sent + c1.stored, stored := [])
    else c1
  }

  function NextPacket(c: Channel, m: Message): seq<Byte> { Packet(m, c.ecu, c.mcnt) }

  /** The message counts as accepted and the 8-bit counter moves on. */
  function Accept(c: Channel, m: Message): Channel {
    c.(mcnt := (c.mcnt + 1) % 256, accepted := c.accepted + [m])
  }

  /** `SendNonVerbose` and `SendVerbose`. */
  function SendMessage(c: Channel, m: Message): Channel {
    if m.level > c.threshold then c
    else
      var c1 := if c.verbose == m.Verbose? then c else SendUdp(c, false).(verbose := m.Verbose?);
      Place(c1, m)
  }

  function Place(c: Channel, m: Message): Channel {
    var p := NextPacket(c, m);
    if |Concat(c.open)| + |p| <= UDP_MAX_PAYLOAD then Accept(c.(open := c.open + [p]), m)
    else
      var c1 := SendUdp(c, false);
      if |p| < UDP_MAX_PAYLOAD then Accept(c1.(open := c1.open + [p]), m)
      else Bypass(c1, m)
  }

  /** Too big for a buffer: flush, then send it as a datagram of its own. */
  function Bypass(c: Channel, m: Message): Channel {
    var c1 := SendUdp(c, true);
    Accept(c1.(sent := c1.sent + [[NextPacket(c, m)]]), m)
  }

  function Apply(c: Channel, k: Command): Channel {
    match k
    case Send(m) => SendMessage(c, m)
    case SendFile(m) => Bypass(c, m)
    case Flush => SendUdp(c, true)
    case SetThreshold(level) => c.(threshold := level)
  }

  function Run(c: Channel, commands: seq<Command>): Channel {
    if commands == [] then c else Apply(Run(c, commands[..|commands| - 1]), commands[|commands| - 1])
  }

  // ----- Reference: which messages pass -----

  function ThresholdAfter(threshold: nat, commands: seq<Command>): nat {
    if commands == [] then threshold
    else
      var k := commands[|commands| - 1];
      if k.SetThreshold? then k.level else ThresholdAfter(threshold, commands[..|commands| - 1])
  }

  /** The messages that are not above the threshold in force when they are sent, and all file transfers. */
  function Passing(threshold: nat, commands: seq<Command>): seq<Message> {
    if commands == [] then []
    else
      var before := commands[..|commands| - 1];
      var k := commands[|commands| - 1];
      Passing(threshold, before)
      + (if k.SendFile? || (k.Send? && k.m.level <= ThresholdAfter(threshold, before)) then [k.m] else [])
  }

  // ----- Invariant -----

  /** All messages that left or will leave the channel, in order. */
  function AllPackets(c: Channel): seq<seq<Byte>> {
    Join(c.sent) + Join(c.stored) + c.open
  }

  function Join(ds: seq<Datagram>): seq<seq<Byte>> {
    if ds == [] then [] else Join(ds[..|ds| - 1]) + ds[|ds| - 1]
  }

  /** The reference: the accepted messages, each with its own number as counter. */
  function Expected(ecu: DltId, accepted: seq<Message>): seq<seq<Byte>> {
    if accepted == [] then []
    else
      var n := |accepted| - 1;
      Expected(ecu, accepted[..n]) + [Packet(accepted[n], ecu, n % 256)]
  }

  predicate Framed(p: seq<Byte>) { |p| >= STANDARD_SIZE }

  predicate Homogeneous(d: Datagram, verbose: bool) {
    forall i :: 0 <= i < |d| ==> Framed(d[i]) && IsVerbosePacket(d[i]) == verbose
  }

  /** A datagram assembled in a buffer. */
  predicate Buffered(d: Datagram) {
    d != [] && |Concat(d)| <= UDP_MAX_PAYLOAD && (Homogeneous(d, true) || Homogeneous(d, false))
  }

  predicate SentOk(d: Datagram) {
    Buffered(d) || (|d| == 1 && Framed(d[0]))
  }

  predicate ChannelInv(c: Channel) {
    && c.mcnt == |c.accepted| % 256
    && AllPackets(c) == Expected(c.ecu, c.accepted)
    && |c.stored| < VECTOR_COUNT
    && (forall i :: 0 <= i < |c.stored| ==> Buffered(c.stored[i]))
    && (forall i :: 0 <= i < |c.sent| ==> SentOk(c.sent[i]))
    && Homogeneous(c.open, c.verbose) && |Concat(c.open)| <= UDP_MAX_PAYLOAD
  }

  lemma JoinAppend(ds: seq<Datagram>, d: Datagram)
    ensures Join(ds + [d]) == Join(ds) + d
  {
    assert (ds + [d])[..|ds|] == ds;
  }

  lemma {:induction false} JoinConcat(a: seq<Datagram>, b: seq<Datagram>)
    ensures Join(a + b) == Join(a) + Join(b)
  {
    if b == [] {
      assert a + b == a;
    } else {
      var n := |b| - 1;
      assert (a + b)[..|a + b| - 1] == a + b[..n];
      JoinConcat(a, b[..n]);
    }
  }

  lemma ClosePackets(c: Channel)
    ensures var c1 := c.(stored := c.stored + [c.open], open := []); AllPackets(c1) == AllPackets(c)
  {
    JoinAppend(c.stored, c.open);
  }

  lemma HandOverPackets(c: Channel)
    requires c.open == []
    ensures var c1 := c.(sent := c.sent + c.stored, stored := []); AllPackets(c1) == AllPackets(c)
  {
    JoinConcat(c.sent, c.stored);
  }

  /** `SendUdp` moves messages towards UDP without reordering, repeating or losing any. */
  lemma SendUdpKeepsInv(c: Channel, flush: bool)
    requires ChannelInv(c)
    ensures var c' := SendUdp(c, flush);
            && ChannelInv(c') && c'.open == [] && AllPackets(c') == AllPackets(c)
            && (flush ==> c'.stored == [])
            && c' == c.(sent := c'.sent, stored := c'.stored, open := [])
  {
    hide Concat; hide Join; hide Expected; hide AllPackets;
    var c1 := if c.open == [] then c else c.(stored := c.stored + [c.open], open := []);
    if c.open != [] {
      ClosePackets(c);
      assert Buffered(c.open);
    }
    ConcatEmpty();
    HandOverPackets(c1);
  }

  /** After a flush everything has been handed over, in order. */
  lemma FlushHandsOver(c: Channel)
    requires ChannelInv(c)
    ensures var c' := Apply(c, Flush); c'.stored == [] && c'.open == [] && Join(c'.sent) == AllPackets(c)
  {
    SendUdpKeepsInv(c, true);
    EmptyJoin();
  }

  lemma AcceptKeepsPackets(c: Channel, m: Message, c': Channel)
    requires ChannelInv(c) && AllPackets(c') == AllPackets(c) + [NextPacket(c, m)]
    requires c'.ecu == c.ecu && c'.accepted == c.accepted
    ensures AllPackets(Accept(c', m)) == Expected(c.ecu, c.accepted + [m])
  {
    var accepted := c.accepted + [m];
    assert accepted[..|c.accepted|] == c.accepted;
  }

  lemma HomogeneousAppend(d: Datagram, p: seq<Byte>, verbose: bool)
    requires Homogeneous(d, verbose) && Framed(p) && IsVerbosePacket(p) == verbose
    ensures Homogeneous(d + [p], verbose)
  {
  }

  lemma ConcatGrows(d: Datagram, p: seq<Byte>)
    ensures Concat(d + [p]) == Concat(d) + p
  {
    ConcatAppend(d, [p]);
    assert Concat([p]) == p + Concat([]) == p;
  }

  lemma PlaceInOpen(c: Channel, m: Message)
    requires ChannelInv(c) && m.Verbose? == c.verbose && |Concat(c.open)| + m.FullSize() <= UDP_MAX_PAYLOAD
    ensures ChannelInv(Accept(c.(open := c.open + [NextPacket(c, m)]), m))
  {
    hide Concat; hide Expected; hide Packet; hide Join; hide Homogeneous; hide Buffered; hide SentOk;
    var p := NextPacket(c, m);
    var c1 := c.(open := c.open + [p]);
    PacketFields(m, c.ecu, c.mcnt);
    ConcatGrows(c.open, p);
    assert AllPackets(c1) == AllPackets(c) + [p];
    AcceptKeepsPackets(c, m, c1);
    HomogeneousAppend(c.open, p, c.verbose);
  }

  lemma BypassKeepsInv(c: Channel, m: Message)
    requires ChannelInv(c)
    ensures ChannelInv(Bypass(c, m))
  {
    hide Concat; hide Expected; hide SendUdp; hide Packet; hide Join;
    SendUdpKeepsInv(c, true);
    var c1 := SendUdp(c, true);
    var p := NextPacket(c, m);
    var c2 := c1.(sent := c1.sent + [[p]]);
    JoinAppend(c1.sent, [p]);
    EmptyJoin();
    assert AllPackets(c2) == AllPackets(c1) + [p];
    PacketFields(m, c.ecu, c.mcnt);
    AcceptKeepsPackets(c1, m, c2);
    ConcatEmpty();
  }

  lemma EmptyJoin()
    ensures Join([]) == []
  {
  }

  lemma PlaceKeepsInv(c: Channel, m: Message)
    requires ChannelInv(c) && m.Verbose? == c.verbose
    ensures ChannelInv(Place(c, m))
  {
    hide ChannelInv; hide SendUdp; hide Bypass; hide Packet; hide Accept; hide Concat;
    if |Concat(c.open)| + m.FullSize() <= UDP_MAX_PAYLOAD {
      PlaceInOpen(c, m);
    } else {
      SendUdpKeepsInv(c, false);
      var c1 := SendUdp(c, false);
      ConcatEmpty();
      if m.FullSize() < UDP_MAX_PAYLOAD {
        PlaceInOpen(c1, m);
      } else {
        BypassKeepsInv(c1, m);
      }
    }
  }

  lemma SwitchKind(c: Channel, verbose: bool)
    requires ChannelInv(c) && c.open == []
    ensures ChannelInv(c.(verbose := verbose))
  {
    assert AllPackets(c.(verbose := verbose)) == AllPackets(c);
  }

  lemma CommandKeepsInv(c: Channel, k: Command)
    requires ChannelInv(c)
    ensures ChannelInv(Apply(c, k))
  {
    hide SendUdp; hide Place; hide Bypass;
    match k
    case Send(m) =>
      if m.level <= c.threshold {
        hide ChannelInv;
        if c.verbose == m.Verbose? {
          PlaceKeepsInv(c, m);
        } else {
          SendUdpKeepsInv(c, false);
          SwitchKind(SendUdp(c, false), m.Verbose?);
          PlaceKeepsInv(SendUdp(c, false).(verbose := m.Verbose?), m);
        }
      }
    case SendFile(m) => BypassKeepsInv(c, m);
    case Flush => SendUdpKeepsInv(c, true);
    case SetThreshold(level) => assert AllPackets(c.(threshold := level)) == AllPackets(c);
  }

  lemma {:induction false} RunKeepsInv(c: Channel, commands: seq<Command>)
    requires ChannelInv(c)
    ensures ChannelInv(Run(c, commands))
  {
    hide ChannelInv;
    if commands != [] {
      RunKeepsInv(c, commands[..|commands| - 1]);
      CommandKeepsInv(Run(c, commands[..|commands| - 1]), commands[|commands| - 1]);
    }
  }

  lemma SendUdpFrame(c: Channel, flush: bool)
    ensures var c' := SendUdp(c, flush);
            c'.accepted == c.accepted && c'.threshold == c.threshold && c'.ecu == c.ecu && c'.mcnt == c.mcnt
  {
  }

  lemma CommandAccepts(c: Channel, k: Command)
    ensures var c' := Apply(c, k);
            && c'.ecu == c.ecu
            && c'.threshold == (if k.SetThreshold? then k.level else c.threshold)
            && c'.accepted == c.accepted + (if k.SendFile? || (k.Send? && k.m.level <= c.threshold) then [k.m] else [])
  {
    hide SendUdp; hide Concat; hide Packet;
    SendUdpFrame(c, false);
    SendUdpFrame(c, true);
    if k.Send? {
      var c1 := if c.verbose == k.m.Verbose? then c else SendUdp(c, false).(verbose := k.m.Verbose?);
      SendUdpFrame(c1, false);
      SendUdpFrame(SendUdp(c1, false), true);
    }
  }

  lemma {:induction false} AcceptedArePassing(ecu: DltId, threshold: nat, commands: seq<Command>)
    ensures var c := Run(NewChannel(ecu, threshold), commands);
            c.ecu == ecu && c.threshold == ThresholdAfter(threshold, commands) && c.accepted == Passing(threshold, commands)
  {
    hide Apply;
    if commands != [] {
      var n := |commands| - 1;
      AcceptedArePassing(ecu, threshold, commands[..n]);
      CommandAccepts(Run(NewChannel(ecu, threshold), commands[..n]), commands[n]);
    }
  }

  // ----- What a receiver gets -----

  /** The messages of all datagrams, split by a receiver that follows the length fields. */
  function Received(ds: seq<Datagram>): seq<seq<Byte>> {
    if ds == [] then [] else Received(ds[..|ds| - 1]) + Split(Concat(ds[|ds| - 1]))
  }

  lemma {:induction false} ExpectedCounters(ecu: DltId, accepted: seq<Message>, k: nat)
    requires k < |accepted|
    ensures |Expected(ecu, accepted)| == |accepted|
    ensures Expected(ecu, accepted)[k] == Packet(accepted[k], ecu, k % 256)
  {
    hide Packet;
    var n := |accepted| - 1;
    var before := accepted[..n];
    ExpectedLength(ecu, accepted);
    ExpectedLength(ecu, before);
    assert Expected(ecu, accepted) == Expected(ecu, before) + [Packet(accepted[n], ecu, n % 256)];
    hide Expected;
    if k < n {
      ExpectedCounters(ecu, before, k);
    }
  }

  lemma {:induction false} ExpectedLength(ecu: DltId, accepted: seq<Message>)
    ensures |Expected(ecu, accepted)| == |accepted|
  {
    if accepted != [] {
      ExpectedLength(ecu, accepted[..|accepted| - 1]);
    }
  }

  lemma {:induction false} ReceivedIsJoin(ds: seq<Datagram>)
    requires forall i, j :: 0 <= i < |ds| && 0 <= j < |ds[i]| ==> WellFramed(ds[i][j])
    ensures Received(ds) == Join(ds)
  {
    if ds != [] {
      var n := |ds| - 1;
      ReceivedIsJoin(ds[..n]);
      SplitConcat(ds[n]);
    }
  }

  lemma NewChannelInv(ecu: DltId, threshold: nat)
    ensures ChannelInv(NewChannel(ecu, threshold))
  {
  }

  /**
   * For every sequence of commands: the messages sent, stored and buffered are exactly the ones that
   * pass the threshold in force, in call order, the k-th carrying counter k modulo 256; at most three datagrams are stored;
   * every datagram is of 1 to 1472 bytes and of one kind, or a single bypassed message.
   */
  lemma ChannelDelivers(ecu: DltId, threshold: nat, commands: seq<Command>)
    ensures var c := Run(NewChannel(ecu, threshold), commands);
            && AllPackets(c) == Expected(ecu, Passing(threshold, commands))
            && |c.stored| < VECTOR_COUNT
            && (forall i :: 0 <= i < |c.stored| ==> Buffered(c.stored[i]))
            && (forall i :: 0 <= i < |c.sent| ==> SentOk(c.sent[i]))
  {
    hide AllPackets; hide Expected; hide Buffered; hide SentOk; hide Passing;
    AcceptedArePassing(ecu, threshold, commands);
    NewChannelInv(ecu, threshold);
    RunKeepsInv(NewChannel(ecu, threshold), commands);
  }

  lemma {:induction false} JoinedAreFramed(ds: seq<Datagram>)
    requires forall k :: 0 <= k < |Join(ds)| ==> WellFramed(Join(ds)[k])
    ensures forall i, j :: 0 <= i < |ds| && 0 <= j < |ds[i]| ==> WellFramed(ds[i][j])
  {
    if ds != [] {
      var n := |ds| - 1;
      var head := Join(ds[..n]);
      forall k | 0 <= k < |head| ensures WellFramed(head[k]) {
        assert Join(ds)[k] == head[k];
      }
      JoinedAreFramed(ds[..n]);
      forall j | 0 <= j < |ds[n]| ensures WellFramed(ds[n][j]) {
        assert Join(ds)[|head| + j] == ds[n][j];
      }
      hide WellFramed;
      forall i, j | 0 <= i < |ds| && 0 <= j < |ds[i]| ensures WellFramed(ds[i][j]) {
        if i < n {
          assert ds[..n][i] == ds[i];
        }
      }
    }
  }

  /** What a receiver will have seen once everything now in the channel has been sent. */
  function Datagrams(c: Channel): seq<Datagram> {
    c.sent + c.stored + [c.open]
  }

  lemma DatagramsJoin(c: Channel)
    ensures Join(Datagrams(c)) == AllPackets(c)
  {
    JoinConcat(c.sent, c.stored);
    JoinAppend(c.sent + c.stored, c.open);
  }

  predicate AllFit(messages: seq<Message>) { forall k :: 0 <= k < |messages| ==> messages[k].FullSize() < DLT_MESSAGE_SIZE }

  lemma {:induction false} ReceivedAreShort(ds: seq<Datagram>)
    ensures forall k :: 0 <= k < |Received(ds)| ==> |Received(ds)[k]| < DLT_MESSAGE_SIZE
  {
    if ds != [] {
      ReceivedAreShort(ds[..|ds| - 1]);
      SplitIsShort(Concat(ds[|ds| - 1]));
    }
  }

  /** What a receiver sees of messages that all fit the length field: exactly the messages. */
  lemma FittingAreReceived(c: Channel)
    requires ChannelInv(c) && AllFit(c.accepted)
    ensures Received(Datagrams(c)) == Expected(c.ecu, c.accepted)
  {
    hide Join; hide Received; hide Expected; hide Buffered; hide SentOk; hide WellFramed; hide AllPackets; hide Homogeneous;
    var expected := Expected(c.ecu, c.accepted);
    ExpectedLength(c.ecu, c.accepted);
    forall k | 0 <= k < |expected| ensures WellFramed(expected[k]) {
      ExpectedCounters(c.ecu, c.accepted, k);
      PacketFields(c.accepted[k], c.ecu, k % 256);
    }
    DatagramsJoin(c);
    JoinedAreFramed(Datagrams(c));
    ReceivedIsJoin(Datagrams(c));
  }

  /** A message that does not fit is never received. */
  lemma LongIsNotReceived(c: Channel, k: nat)
    requires k < |c.accepted| && c.accepted[k].FullSize() >= DLT_MESSAGE_SIZE
    ensures Received(Datagrams(c)) != Expected(c.ecu, c.accepted)
  {
    hide Received; hide Expected;
    ExpectedCounters(c.ecu, c.accepted, k);
    ReceivedAreShort(Datagrams(c));
  }

  /**
   * For every sequence of commands, a receiver that splits the datagrams by their length fields gets back exactly
   * the accepted messages, each once, in call order, with successive counters modulo 256, if and only if each
   * of them stays below the 16-bit length limit.
   */
  lemma ReceiverGetsMessages(ecu: DltId, threshold: nat, commands: seq<Command>)
    ensures Received(Datagrams(Run(NewChannel(ecu, threshold), commands))) == Expected(ecu, Passing(threshold, commands))
            <==> AllFit(Passing(threshold, commands))
  {
    hide Run; hide Received; hide Expected; hide Passing; hide ChannelInv;
    AcceptedArePassing(ecu, threshold, commands);
    NewChannelInv(ecu, threshold);
    RunKeepsInv(NewChannel(ecu, threshold), commands);
    var c := Run(NewChannel(ecu, threshold), commands);
    if AllFit(c.accepted) {
      FittingAreReceived(c);
    } else {
      var k :| 0 <= k < |c.accepted| && c.accepted[k].FullSize() >= DLT_MESSAGE_SIZE;
      LongIsNotReceived(c, k);
    }
  }

  /** ... and then decoding them by the protocol's offsets gives back every field of every accepted message. */
  lemma ReceiverDecodesMessages(ecu: DltId, threshold: nat, commands: seq<Command>)
    ensures var received := Received(Datagrams(Run(NewChannel(ecu, threshold), commands)));
            var passing := Passing(threshold, commands);
            AllFit(passing) ==>
              && |received| == |passing|
              && forall k :: 0 <= k < |passing| ==> Decode(received[k]) == RecordOf(passing[k], ecu, k % 256)
  {
    hide Run; hide Received; hide Expected; hide Passing; hide Decode; hide RecordOf; hide AllFit;
    ReceiverGetsMessages(ecu, threshold, commands);
    var passing := Passing(threshold, commands);
    ExpectedLength(ecu, passing);
    forall k | 0 <= k < |passing| ensures Decode(Expected(ecu, passing)[k]) == RecordOf(passing[k], ecu, k % 256) {
      ExpectedCounters(ecu, passing, k);
      PacketRoundTrip(passing[k], ecu, k % 256);
    }
  }
}
