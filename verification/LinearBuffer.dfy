/**
 * One linear block of the wait-free queue: its indices, its bytes and the history of the
 * reservations made in the current epoch. The operations below are the effects of the
 * single atomic operations and byte stores of the writers.
 */
module LinearBuffer {
  import opened Bytes

  const PREFIX: nat := 8
  const MAX_LENGTH: nat := 128 * 1024 * 1024
  const MAX_CONCURRENT_WRITERS: nat := 64
  const MAX_SPAN: nat := MAX_LENGTH + PREFIX
  const UINT64_RANGE: nat := 0x1_0000_0000_0000_0000
  const MAX_CAPACITY: nat := UINT64_RANGE - 1 - MAX_CONCURRENT_WRITERS * MAX_SPAN

  type Entry = seq<Byte>

  /** Do `n` bytes fit in a buffer of `size` bytes at `offset`? */
  predicate Fits(size: nat, offset: nat, n: nat) {
    offset <= size && n <= size - offset
  }

  /**
   * The effect of one `fetch_add` on `acquired_index`. `prefixBytes` counts the bytes of the
   * length field stored so far, `payload` is the present content of a granted span, and
   * `published` says that `written_index` has been advanced over it.
   */
  datatype Reservation = Reservation(
    owner: nat, offset: nat, length: nat, prefixBytes: nat, payload: Entry, published: bool)
  {
    function Span(): nat { length + PREFIX }
    function End(): nat { offset + Span() }
  }

  predicate Granted(size: nat, r: Reservation) {
    r.End() <= size
  }

  /** `log` is a history variable: the reservations of this epoch in `fetch_add` order. */
  datatype Block = Block(
    data: seq<Byte>, acquired: nat, written: nat, writers: nat, log: seq<Reservation>)
  {
    function Size(): nat { |data| }
  }

  // ----- Invariant of a block -----

  /** Where reservation `i` of a gap-free log starts; the value at `|log|` is the next free offset. */
  function StartAt(log: seq<Reservation>, i: nat): nat
    requires i <= |log|
  {
    if i == 0 then 0 else log[i - 1].End()
  }

  predicate Adjacent(log: seq<Reservation>, i: nat)
    requires i < |log|
  {
    log[i].offset == StartAt(log, i)
  }

  predicate Tiled(log: seq<Reservation>, acquired: nat) {
    && acquired == StartAt(log, |log|)
    && (forall i :: 0 <= i < |log| ==> Adjacent(log, i))
    && (forall i :: 0 <= i < |log| ==> log[i].length <= MAX_LENGTH && log[i].End() <= acquired)
    && (forall i, j :: 0 <= i < j < |log| ==> log[i].End() <= log[j].offset)
  }

  /** Bytes reserved but not yet published. */
  function Outstanding(log: seq<Reservation>): nat {
    if log == [] then 0
    else
      var n := |log| - 1;
      Outstanding(log[..n]) + (if log[n].published then 0 else log[n].Span())
  }

  /** The bytes that reservation `r` has stored are the ones now in the buffer. */
  predicate Stored(data: seq<Byte>, r: Reservation) {
    && r.prefixBytes <= PREFIX
    && (r.offset + PREFIX <= |data| ==>
          && data[r.offset..r.offset + r.prefixBytes] == LittleEndian(r.length, PREFIX)[..r.prefixBytes]
          && (r.published ==> r.prefixBytes == PREFIX))
    && (Granted(|data|, r) ==> data[r.offset + PREFIX..r.End()] == r.payload)
  }

  predicate AllStored(data: seq<Byte>, log: seq<Reservation>) {
    forall i :: 0 <= i < |log| ==> Stored(data, log[i])
  }

  predicate BlockInv(b: Block) {
    && Tiled(b.log, b.acquired)
    && b.written + Outstanding(b.log) == b.acquired
    && AllStored(b.data, b.log)
  }

  predicate AllPublished(log: seq<Reservation>) {
    forall i :: 0 <= i < |log| ==> log[i].published
  }

  // ----- Effects -----

  /** `acquired_index.fetch_add(length + 8)`. */
  function Reserve(b: Block, owner: nat, length: nat): (b': Block) {
    var off := b.acquired;
    var span := if Fits(b.Size(), off, length + PREFIX) then b.data[off + PREFIX..off + PREFIX + length] else [];
    b.(acquired := b.acquired + length + PREFIX,
       log := b.log + [Reservation(owner, off, length, 0, span, false)])
  }

  /** Store the next byte of the length field of reservation `i`. */
  function PutPrefixByte(b: Block, i: nat): (b': Block)
    requires i < |b.log| && b.log[i].prefixBytes < PREFIX && b.log[i].offset + PREFIX <= b.Size()
  {
    var r := b.log[i];
    b.(data := b.data[r.offset + r.prefixBytes := LittleEndian(r.length, PREFIX)[r.prefixBytes]],
       log := b.log[i := r.(prefixBytes := r.prefixBytes + 1)])
  }

  /** The holder of granted reservation `i` stores `v` at position `k` of its payload span. */
  function PutPayloadByte(b: Block, i: nat, k: nat, v: Byte): (b': Block)
    requires i < |b.log| && Granted(b.Size(), b.log[i]) && k < b.log[i].length == |b.log[i].payload|
  {
    var r := b.log[i];
    b.(data := b.data[r.offset + PREFIX + k := v],
       log := b.log[i := r.(payload := r.payload[k := v])])
  }

  /** `written_index.fetch_add(length + 8)`. */
  function Publish(b: Block, i: nat): (b': Block)
    requires i < |b.log|
  {
    b.(written := b.written + b.log[i].Span(), log := b.log[i := b.log[i].(published := true)])
  }

  // ----- The effects keep the invariant -----

  lemma {:induction false} OutstandingUpdate(log: seq<Reservation>, i: nat, r: Reservation)
    requires i < |log| && r.length == log[i].length && !log[i].published
    ensures Outstanding(log[i := r]) + (if r.published then r.Span() else 0) == Outstanding(log)
  {
    var n := |log| - 1;
    if i == n {
      assert log[i := r][..n] == log[..n];
    } else {
      assert log[i := r][..n] == log[..n][i := r];
      OutstandingUpdate(log[..n], i, r);
    }
  }

  lemma {:induction false} OutstandingAllPublished(log: seq<Reservation>)
    requires AllPublished(log)
    ensures Outstanding(log) == 0
  {
    if log != [] {
      OutstandingAllPublished(log[..|log| - 1]);
    }
  }

  lemma TiledUpdate(log: seq<Reservation>, acquired: nat, i: nat, r: Reservation)
    requires Tiled(log, acquired) && i < |log| && r.offset == log[i].offset && r.length == log[i].length
    ensures Tiled(log[i := r], acquired)
  {
    var log' := log[i := r];
    forall j | 0 <= j < |log| ensures Adjacent(log', j) {
      assert Adjacent(log, j);
    }
  }

  lemma TiledAppend(log: seq<Reservation>, acquired: nat, r: Reservation)
    requires Tiled(log, acquired) && r.offset == acquired && r.length <= MAX_LENGTH
    ensures Tiled(log + [r], r.End())
  {
    var log' := log + [r];
    forall j | 0 <= j < |log'| ensures Adjacent(log', j) {
      if j < |log| {
        assert Adjacent(log, j);
      }
    }
  }

  lemma AllStoredAppend(data: seq<Byte>, log: seq<Reservation>, r: Reservation)
    requires AllStored(data, log) && Stored(data, r)
    ensures AllStored(data, log + [r])
  {
  }

  lemma ReserveKeepsInv(b: Block, owner: nat, length: nat)
    requires BlockInv(b) && length <= MAX_LENGTH
    ensures BlockInv(Reserve(b, owner, length))
  {
    var b' := Reserve(b, owner, length);
    var r := b'.log[|b.log|];
    TiledAppend(b.log, b.acquired, r);
    assert b'.log[..|b.log|] == b.log;
    AllStoredAppend(b.data, b.log, r);
  }

  /** A store inside the span of reservation `i` leaves what the others stored untouched. */
  lemma StoreElsewhere(b: Block, i: nat, p: nat, v: Byte)
    requires Tiled(b.log, b.acquired) && AllStored(b.data, b.log)
    requires i < |b.log| && b.log[i].offset <= p < b.log[i].End() && p < b.Size()
    ensures forall j :: 0 <= j < |b.log| && j != i ==> Stored(b.data[p := v], b.log[j])
  {
    var d := b.data[p := v];
    forall j | 0 <= j < |b.log| && j != i ensures Stored(d, b.log[j]) {
      var r := b.log[j];
      assert r.End() <= b.log[i].offset || b.log[i].End() <= r.offset by {
        if j < i { assert b.log[j].End() <= b.log[i].offset; } else { assert b.log[i].End() <= b.log[j].offset; }
      }
      assert Stored(b.data, r);
      if r.offset + PREFIX <= |d| {
        assert d[r.offset..r.offset + r.prefixBytes] == b.data[r.offset..r.offset + r.prefixBytes];
      }
      if Granted(|d|, r) {
        assert d[r.offset + PREFIX..r.End()] == b.data[r.offset + PREFIX..r.End()];
      }
    }
  }

  lemma PrefixStored(data: seq<Byte>, r: Reservation)
    requires Stored(data, r) && r.prefixBytes < PREFIX && r.offset + PREFIX <= |data| && !r.published
    ensures Stored(data[r.offset + r.prefixBytes := LittleEndian(r.length, PREFIX)[r.prefixBytes]],
                   r.(prefixBytes := r.prefixBytes + 1))
  {
    var k := r.prefixBytes;
    var p := r.offset + k;
    var field := LittleEndian(r.length, PREFIX);
    var d := data[p := field[k]];
    assert d[r.offset..p + 1] == data[r.offset..p] + [field[k]];
    assert field[..k + 1] == field[..k] + [field[k]];
    if Granted(|data|, r) {
      assert d[r.offset + PREFIX..r.End()] == data[r.offset + PREFIX..r.End()];
    }
  }

  lemma PutPrefixByteKeepsInv(b: Block, i: nat)
    requires BlockInv(b) && i < |b.log| && !b.log[i].published
    requires b.log[i].prefixBytes < PREFIX && b.log[i].offset + PREFIX <= b.Size()
    ensures BlockInv(PutPrefixByte(b, i))
  {
    var r := b.log[i];
    var b' := PutPrefixByte(b, i);
    var r' := b'.log[i];
    TiledUpdate(b.log, b.acquired, i, r');
    OutstandingUpdate(b.log, i, r');
    StoreElsewhere(b, i, r.offset + r.prefixBytes, LittleEndian(r.length, PREFIX)[r.prefixBytes]);
    assert Stored(b.data, r);
    PrefixStored(b.data, r);
  }

  lemma PayloadStored(data: seq<Byte>, r: Reservation, k: nat, v: Byte)
    requires Stored(data, r) && Granted(|data|, r) && k < r.length == |r.payload|
    ensures Stored(data[r.offset + PREFIX + k := v], r.(payload := r.payload[k := v]))
  {
    var d := data[r.offset + PREFIX + k := v];
    assert d[r.offset..r.offset + r.prefixBytes] == data[r.offset..r.offset + r.prefixBytes];
    assert d[r.offset + PREFIX..r.End()] == data[r.offset + PREFIX..r.End()][k := v];
  }

  lemma PutPayloadByteKeepsInv(b: Block, i: nat, k: nat, v: Byte)
    requires BlockInv(b) && i < |b.log| && !b.log[i].published
    requires Granted(b.Size(), b.log[i]) && k < b.log[i].length == |b.log[i].payload|
    ensures BlockInv(PutPayloadByte(b, i, k, v))
  {
    hide Tiled; hide Outstanding; hide Stored; hide LittleEndian;
    var r := b.log[i];
    var b' := PutPayloadByte(b, i, k, v);
    var r' := b'.log[i];
    TiledUpdate(b.log, b.acquired, i, r');
    OutstandingUpdate(b.log, i, r');
    StoreElsewhere(b, i, r.offset + PREFIX + k, v);
    assert Stored(b.data, r);
    PayloadStored(b.data, r, k, v);
  }

  lemma PublishKeepsInv(b: Block, i: nat)
    requires BlockInv(b) && i < |b.log| && !b.log[i].published
    requires b.log[i].offset + PREFIX <= b.Size() ==> b.log[i].prefixBytes == PREFIX
    ensures BlockInv(Publish(b, i))
  {
    var r := b.log[i];
    var r' := Publish(b, i).log[i];
    TiledUpdate(b.log, b.acquired, i, r');
    OutstandingUpdate(b.log, i, r');
    assert Stored(b.data, r);
    assert Stored(b.data, r');
  }
}
