/** Reading a retired linear block back, entry by entry. */
module LinearReading {
  import opened Options
  import opened Bytes
  import opened LinearBuffer

  /** What one `Read` call returns and where it leaves the read index. */
  datatype ReadResult = ReadResult(entry: Option<Entry>, next: nat)

  /** The length prefix stored at `index`. */
  function LengthAt(data: seq<Byte>, index: nat): (length: nat)
    requires Fits(|data|, index, PREFIX)
  {
    FromLittleEndian(data[index..index + PREFIX])
  }

  function ReadAt(data: seq<Byte>, index: nat): (r: ReadResult)
    ensures r.entry.Some? ==> index < r.next <= |data|
  {
    if !Fits(|data|, index, PREFIX) then ReadResult(None, index)
    else
      var length := LengthAt(data, index);
      if length > MAX_LENGTH then ReadResult(None, |data|)
      else if !Fits(|data|, index, PREFIX + length) then ReadResult(None, index + length + PREFIX)
      else ReadResult(Some(data[index + PREFIX..index + PREFIX + length]), index + length + PREFIX)
  }

  /** All entries that repeated reading from `index` yields before the first empty result. */
  function DrainFrom(data: seq<Byte>, index: nat): (entries: seq<Entry>)
    decreases |data| - index
  {
    var r := ReadAt(data, index);
    if r.entry.None? then [] else [r.entry.value] + DrainFrom(data, r.next)
  }

  /** `CreateLinearReaderFromDataAndLength`: only the written part of the buffer is visible. */
  function Cropped(data: seq<Byte>, written: nat): (d: seq<Byte>)
    ensures |d| == if written < |data| then written else |data|
  {
    if written < |data| then data[..written] else data
  }

  /** Once a read comes back empty, every later read does. */
  lemma EmptyStaysEmpty(data: seq<Byte>, index: nat)
    requires ReadAt(data, index).entry.None?
    ensures ReadAt(data, ReadAt(data, index).next).entry.None?
    ensures DrainFrom(data, ReadAt(data, index).next) == []
  {
  }

  // ----- What an entry says -----

  const HEADER: nat := 16                     // sizeof(BufferEntryHeader): time stamp, type identifier, padding
  const TYPE_OFFSET: nat := 8
  const TYPE_SIZE: nat := 2
  const REGISTER_TYPE: nat := 0xFFFF

  const STAMP_SIZE: nat := 8
  const PADDING_SIZE: nat := 6

  /** What the drain loop hands to its callbacks. */
  datatype Record =
    | Registration(typeId: nat, info: seq<Byte>)
    | LogRecord(stamp: nat, typeId: nat, payload: seq<Byte>)

  /** Entries too short for a header, and registrations too short for a type id, are skipped. */
  function Parse(e: Entry): Option<Record> {
    if |e| < HEADER then None
    else
      var header, payload := e[..HEADER], e[HEADER..];
      var typeId := FromLittleEndian(header[TYPE_OFFSET..TYPE_OFFSET + TYPE_SIZE]);
      if typeId != REGISTER_TYPE then Some(LogRecord(FromLittleEndian(header[..STAMP_SIZE]), typeId, payload))
      else if |payload| < TYPE_SIZE then None
      else Some(Registration(FromLittleEndian(payload[..TYPE_SIZE]), payload[TYPE_SIZE..]))
  }

  function Parsed(es: seq<Entry>): seq<Record> {
    if es == [] then []
    else
      var n := |es| - 1;
      Parsed(es[..n]) + if Parse(es[n]).Some? then [Parse(es[n]).value] else []
  }

  lemma ParsedAppend(es: seq<Entry>, e: Entry)
    ensures Parsed(es + [e]) == Parsed(es) + if Parse(e).Some? then [Parse(e).value] else []
  {
    assert (es + [e])[..|es|] == es;
  }

  lemma {:induction false} ParsedConcat(a: seq<Entry>, b: seq<Entry>)
    ensures Parsed(a + b) == Parsed(a) + Parsed(b)
  {
    if b == [] {
      assert a + b == a;
    } else {
      var n := |b| - 1;
      ParsedConcat(a, b[..n]);
      ParsedAppend(a + b[..n], b[n]);
      assert a + b == a + b[..n] + [b[n]];
    }
  }

  // ----- What the writer puts into an entry -----

  /** `AllocAndWrite`: time stamp, type identifier, the padding of the header, payload. */
  function WriteEntry(stamp: nat, typeId: nat, padding: seq<Byte>, payload: seq<Byte>): Entry {
    LittleEndian(stamp, STAMP_SIZE) + LittleEndian(typeId, TYPE_SIZE) + padding + payload
  }

  /** What the shared-memory writer was asked to write, and the padding that came with it. */
  datatype Writing = Writing(record: Record, stamp: nat, padding: seq<Byte>) {
    predicate Valid() {
      && |padding| == PADDING_SIZE && stamp < Pow256(STAMP_SIZE) && record.typeId < Pow256(TYPE_SIZE)
      && (record.LogRecord? ==> record.stamp == stamp && record.typeId != REGISTER_TYPE)
    }

    /** `AllocAndWrite` for a record, `TryRegisterType` for a registration. */
    function Bytes(): Entry {
      if record.LogRecord? then WriteEntry(stamp, record.typeId, padding, record.payload)
      else WriteEntry(stamp, REGISTER_TYPE, padding, LittleEndian(record.typeId, TYPE_SIZE) + record.info)
    }
  }

  lemma EntryFields(stamp: nat, typeId: nat, padding: seq<Byte>, payload: seq<Byte>)
    requires stamp < Pow256(STAMP_SIZE) && typeId < Pow256(TYPE_SIZE) && |padding| == PADDING_SIZE
    ensures var e := WriteEntry(stamp, typeId, padding, payload);
            && |e| == HEADER + |payload| && e[HEADER..] == payload
            && FromLittleEndian(e[..HEADER][..STAMP_SIZE]) == stamp
            && FromLittleEndian(e[..HEADER][TYPE_OFFSET..TYPE_OFFSET + TYPE_SIZE]) == typeId
  {
    hide LittleEndian; hide FromLittleEndian; hide Pow256;
    LittleEndianRoundTrip(stamp, STAMP_SIZE);
    LittleEndianRoundTrip(typeId, TYPE_SIZE);
    var e := WriteEntry(stamp, typeId, padding, payload);
    assert e[..HEADER][..STAMP_SIZE] == LittleEndian(stamp, STAMP_SIZE);
    assert e[..HEADER][TYPE_OFFSET..TYPE_OFFSET + TYPE_SIZE] == LittleEndian(typeId, TYPE_SIZE);
  }

  /** Every record and every registration that was written is parsed as what it was. */
  lemma ParseWritten(w: Writing)
    requires w.Valid()
    ensures Parse(w.Bytes()) == Some(w.record)
  {
    hide LittleEndian; hide FromLittleEndian; hide WriteEntry;
    assert Pow256(TYPE_SIZE) == 0x1_0000;
    if w.record.LogRecord? {
      EntryFields(w.stamp, w.record.typeId, w.padding, w.record.payload);
    } else {
      var id, info := w.record.typeId, w.record.info;
      var payload := LittleEndian(id, TYPE_SIZE) + info;
      EntryFields(w.stamp, REGISTER_TYPE, w.padding, payload);
      LittleEndianRoundTrip(id, TYPE_SIZE);
      assert payload[..TYPE_SIZE] == LittleEndian(id, TYPE_SIZE) && payload[TYPE_SIZE..] == info;
    }
  }

  function AllBytes(ws: seq<Writing>): seq<Entry> { seq(|ws|, i requires 0 <= i < |ws| => ws[i].Bytes()) }

  function AllRecords(ws: seq<Writing>): seq<Record> { seq(|ws|, i requires 0 <= i < |ws| => ws[i].record) }

  /** What was written comes out of the drain loop, record by record and in order. */
  lemma {:induction false} ParsedWritten(ws: seq<Writing>)
    requires forall i :: 0 <= i < |ws| ==> ws[i].Valid()
    ensures Parsed(AllBytes(ws)) == AllRecords(ws)
  {
    hide Parse;
    if ws != [] {
      var n := |ws| - 1;
      ParsedWritten(ws[..n]);
      ParseWritten(ws[n]);
      LastWriting(ws);
      hide AllBytes; hide AllRecords; hide Parsed;
      ParsedAppend(AllBytes(ws[..n]), ws[n].Bytes());
    }
  }

  lemma LastWriting(ws: seq<Writing>)
    requires ws != []
    ensures var n := |ws| - 1;
            AllBytes(ws) == AllBytes(ws[..n]) + [ws[n].Bytes()] && AllRecords(ws) == AllRecords(ws[..n]) + [ws[n].record]
  {
    hide WriteEntry;
  }

  /** Nothing else is skipped: a header must fit, and after the registration token a type id. */
  lemma SkippedIff(e: Entry)
    ensures Parse(e).None? <==>
              |e| < HEADER || (e[TYPE_OFFSET] == 0xFF && e[TYPE_OFFSET + 1] == 0xFF && |e| < HEADER + TYPE_SIZE)
  {
    if |e| >= HEADER {
      var t := e[..HEADER][TYPE_OFFSET..TYPE_OFFSET + TYPE_SIZE];
      assert t == [e[TYPE_OFFSET], e[TYPE_OFFSET + 1]];
      TwoBytes(e[TYPE_OFFSET], e[TYPE_OFFSET + 1]);
    }
  }

  class LinearReader {
    const data: seq<Byte>
    var readIndex: nat

    constructor (data: seq<Byte>, written: nat)
      ensures this.data == Cropped(data, written) && readIndex == 0
    {
      this.data := Cropped(data, written);
      this.readIndex := 0;
    }

    method Read() returns (entry: Option<Entry>)
      modifies this
      ensures ReadResult(entry, readIndex) == ReadAt(data, old(readIndex))
    {
      var offset := readIndex;
      if !Fits(|data|, offset, PREFIX) {
        return None;
      }
      var length := LengthAt(data, offset);
      if length > MAX_LENGTH {
        readIndex := |data|;
        return None;
      }
      readIndex := readIndex + length + PREFIX;
      if !Fits(|data|, offset, PREFIX + length) {
        return None;
      }
      return Some(data[offset + PREFIX..offset + PREFIX + length]);
    }

    /** The drain loop: parse entries and hand over records until the first empty read. */
    method ReadLinearBuffer() returns (records: seq<Record>, length: nat, ghost entries: seq<Entry>)
      modifies this
      ensures entries == DrainFrom(data, old(readIndex)) && records == Parsed(entries)
      ensures length == |data|
      ensures ReadAt(data, readIndex).entry.None?
    {
      hide ReadAt; hide Parse;
      length := |data|;
      records, entries := [], [];
      while true
        invariant entries + DrainFrom(data, readIndex) == DrainFrom(data, old(readIndex))
        invariant records == Parsed(entries)
        decreases |data| - readIndex
      {
        ghost var index := readIndex;
        var entry := Read();
        if entry.None? {
          EmptyStaysEmpty(data, index);
          return;
        }
        assert DrainFrom(data, index) == [entry.value] + DrainFrom(data, readIndex);
        ParsedAppend(entries, entry.value);
        entries := entries + [entry.value];
        var record := Parse(entry.value);
        if record.Some? {
          records := records + [record.value];
        }
      }
    }
  }

  // ----- Quiescent read-back -----

  /** The payloads of the granted reservations, in `fetch_add` order. */
  function Entries(size: nat, log: seq<Reservation>): (entries: seq<Entry>) {
    if log == [] then []
    else
      var n := |log| - 1;
      Entries(size, log[..n]) + (if Granted(size, log[n]) then [log[n].payload] else [])
  }

  /** Granted reservations form a prefix of the log: nothing fits after the first overrun. */
  lemma {:induction false} GrantedFormPrefix(size: nat, log: seq<Reservation>, acquired: nat)
    requires Tiled(log, acquired)
    ensures var k := |Entries(size, log)|;
            && k <= |log|
            && (forall j :: 0 <= j < k ==> Granted(size, log[j]) && Entries(size, log)[j] == log[j].payload)
            && (forall j :: k <= j < |log| ==> !Granted(size, log[j]))
  {
    if log != [] {
      var n := |log| - 1;
      TiledPrefix(log, acquired);
      GrantedFormPrefix(size, log[..n], log[n].offset);
      if Granted(size, log[n]) {
        forall j | 0 <= j < n ensures Granted(size, log[j]) {
          assert log[j].End() <= log[n].offset;
        }
      }
    }
  }

  lemma TiledPrefix(log: seq<Reservation>, acquired: nat)
    requires Tiled(log, acquired) && log != []
    ensures Tiled(log[..|log| - 1], log[|log| - 1].offset)
  {
    var n := |log| - 1;
    assert Adjacent(log, n);
    forall j | 0 <= j < n ensures Adjacent(log[..n], j) {
      assert Adjacent(log, j);
    }
  }

  lemma LengthReadBack(b: Block, k: nat)
    requires BlockInv(b) && AllPublished(b.log) && k < |b.log| && b.log[k].offset + PREFIX <= b.Size()
    ensures var d := Cropped(b.data, b.written);
            Fits(|d|, b.log[k].offset, PREFIX) && LengthAt(d, b.log[k].offset) == b.log[k].length
  {
    OutstandingAllPublished(b.log);
    var r := b.log[k];
    var d := Cropped(b.data, b.written);
    assert r.End() <= b.acquired == b.written;
    assert Stored(b.data, r);
    var field := LittleEndian(r.length, PREFIX);
    assert d[r.offset..r.offset + PREFIX] == b.data[r.offset..r.offset + PREFIX] == field[..PREFIX] == field;
    LengthFieldRoundTrip(r.length);
  }

  /** In a quiescent block the reader, standing at the start of granted reservation `k`, reads exactly it. */
  lemma ReadGranted(b: Block, k: nat)
    requires BlockInv(b) && AllPublished(b.log) && k < |b.log| && Granted(b.Size(), b.log[k])
    ensures ReadAt(Cropped(b.data, b.written), StartAt(b.log, k))
         == ReadResult(Some(b.log[k].payload), StartAt(b.log, k + 1))
  {
    hide LengthAt; hide LittleEndian; hide Outstanding; hide Stored;
    LengthReadBack(b, k);
    OutstandingAllPublished(b.log);
    PayloadReadBack(b, k);
    assert Adjacent(b.log, k);
    assert b.log[k].End() <= b.acquired == b.written;
  }

  lemma PayloadReadBack(b: Block, k: nat)
    requires BlockInv(b) && k < |b.log| && Granted(b.Size(), b.log[k]) && b.log[k].End() <= b.written
    ensures var r := b.log[k];
            r.End() <= |Cropped(b.data, b.written)| && Cropped(b.data, b.written)[r.offset + PREFIX..r.End()] == r.payload
  {
    hide LittleEndian; hide Outstanding; hide Tiled;
    var d, r := Cropped(b.data, b.written), b.log[k];
    assert Stored(b.data, r);
    assert d[r.offset + PREFIX..r.End()] == b.data[r.offset + PREFIX..r.End()];
  }

  /** Past the granted reservations it reads nothing, terminated overruns included. */
  lemma ReadPastGranted(b: Block, k: nat)
    requires BlockInv(b) && AllPublished(b.log) && k <= |b.log|
    requires k < |b.log| ==> !Granted(b.Size(), b.log[k])
    ensures ReadAt(Cropped(b.data, b.written), StartAt(b.log, k)).entry.None?
  {
    OutstandingAllPublished(b.log);
    if k < |b.log| {
      assert Adjacent(b.log, k);
      if b.log[k].offset + PREFIX <= b.Size() {
        LengthReadBack(b, k);
      }
    }
  }

  /** Reading that moves along `starts` entry by entry and then finds nothing drains the entries. */
  lemma {:induction false} DrainChain(data: seq<Byte>, es: seq<Entry>, starts: seq<nat>, k: nat)
    requires |starts| == |es| + 1 && k <= |es|
    requires forall j :: 0 <= j < |es| ==> ReadAt(data, starts[j]) == ReadResult(Some(es[j]), starts[j + 1])
    requires ReadAt(data, starts[|es|]).entry.None?
    ensures DrainFrom(data, starts[k]) == es[k..]
    decreases |es| - k
  {
    if k < |es| {
      assert ReadAt(data, starts[k]) == ReadResult(Some(es[k]), starts[k + 1]);
      DrainChain(data, es, starts, k + 1);
      assert es[k..] == [es[k]] + es[k + 1..];
    }
  }

  /**
   * Quiescent read-back: when every reservation is published, draining the written part of the
   * block from the start of entry `k` yields exactly the remaining granted payloads in order.
   */
  lemma ReadBack(b: Block, k: nat)
    requires BlockInv(b) && AllPublished(b.log) && k <= |Entries(b.Size(), b.log)|
    ensures k <= |b.log|
    ensures DrainFrom(Cropped(b.data, b.written), StartAt(b.log, k)) == Entries(b.Size(), b.log)[k..]
  {
    hide ReadAt; hide DrainFrom; hide Cropped; hide StartAt; hide Granted; hide Tiled; hide Outstanding; hide AllStored;
    var d := Cropped(b.data, b.written);
    var es := Entries(b.Size(), b.log);
    GrantedFormPrefix(b.Size(), b.log, b.acquired);
    hide Entries;
    var starts := seq(|es| + 1, j requires 0 <= j <= |es| => StartAt(b.log, j));
    forall j | 0 <= j < |es| ensures ReadAt(d, starts[j]) == ReadResult(Some(es[j]), starts[j + 1]) {
      ReadGranted(b, j);
    }
    ReadPastGranted(b, |es|);
    DrainChain(d, es, starts, k);
  }
}
