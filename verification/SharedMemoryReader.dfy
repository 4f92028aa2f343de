/** The reader object of a session: one linear reader at a time, and the final detached read. */
module SharedMemoryReading {
  import opened Options
  import opened Bytes
  import opened LinearBuffer
  import opened LinearReading
  import opened WaitFreeQueue

  predicate IsBlockReleasedByWriters(m: Memory, c: Counter) {
    var b := At(m, Select(c));
    b.writers == 0 && b.written == b.acquired
  }

  /** What a linear reader created now on the block of `c` would deliver. */
  function BlockContent(m: Memory, c: Counter): seq<Entry> {
    var b := At(m, Select(c));
    DrainFrom(Cropped(b.data, b.written), 0)
  }

  function VisibleBytes(m: Memory, c: Counter): nat {
    var b := At(m, Select(c));
    |Cropped(b.data, b.written)|
  }

  class SharedMemoryReader {
    var linearReader: LinearReader?
    var finishedReadingAfterDetach: bool
    var bufferExpectedToReadNext: Counter
    var writerDetached: bool

    constructor (m: Memory)
      ensures linearReader == null && !finishedReadingAfterDetach && !writerDetached
      ensures bufferExpectedToReadNext == m.counter
    {
      linearReader := null;
      finishedReadingAfterDetach := false;
      bufferExpectedToReadNext := m.counter;
      writerDetached := false;
    }

    /** The entries that an accepted but not yet drained linear reader still holds. */
    function Held(): seq<Entry>
      reads this, linearReader
    {
      if linearReader == null then [] else DrainFrom(linearReader.data, linearReader.readIndex)
    }

    method NotifyAcquisitionSetReader(m: Memory, acquired: Counter) returns (bytes: Option<nat>)
      modifies this
      ensures bytes.Some? <==> IsBlockReleasedByWriters(m, acquired)
      ensures bytes.None? ==> unchanged(this)
      ensures bytes.Some? ==>
                && bytes.value == VisibleBytes(m, acquired)
                && linearReader != null && fresh(linearReader) && Held() == BlockContent(m, acquired)
                && bufferExpectedToReadNext == Next(acquired)
                && finishedReadingAfterDetach == old(finishedReadingAfterDetach) && writerDetached == old(writerDetached)
    {
      if !IsBlockReleasedByWriters(m, acquired) {
        return None;
      }
      var b := At(m, Select(acquired));
      var reader := new LinearReader(b.data, b.written);
      linearReader := reader;
      bufferExpectedToReadNext := Next(acquired);
      return Some(|reader.data|);
    }

    /** What a read delivers: the accepted block, then, once the writer has detached, the block expected next. */
    function Due(m: Memory, detached: bool): seq<Entry>
      reads this, linearReader
    {
      if finishedReadingAfterDetach then []
      else Held() + (if detached then BlockContent(m, bufferExpectedToReadNext) else [])
    }

    /** The sizes of the buffers that a read goes through. */
    function DueBytes(m: Memory, detached: bool): Option<nat>
      reads this, linearReader
    {
      var held := if linearReader == null then 0 else |linearReader.data|;
      if finishedReadingAfterDetach || (linearReader == null && !detached) then None
      else Some(held + if detached then VisibleBytes(m, bufferExpectedToReadNext) else 0)
    }

    /** After the one detached read, every read delivers nothing. */
    method Read(m: Memory, sharedDetached: bool) returns (records: seq<Record>, bytes: Option<nat>, ghost entries: seq<Entry>)
      modifies this, linearReader
      ensures var detached := sharedDetached || old(writerDetached);
              && entries == old(Due(m, detached)) && records == Parsed(entries) && bytes == old(DueBytes(m, detached))
              && finishedReadingAfterDetach == (old(finishedReadingAfterDetach) || detached)
      ensures !old(finishedReadingAfterDetach) ==> linearReader == null
      ensures bufferExpectedToReadNext == old(bufferExpectedToReadNext) && writerDetached == old(writerDetached)
    {
      hide DrainFrom; hide Parsed; hide Cropped;
      EmptyParsed();
      records, entries, bytes := [], [], None;
      if finishedReadingAfterDetach {
        return;
      }
      if linearReader != null {
        var length;
        records, length, entries := linearReader.ReadLinearBuffer();
        bytes := Some(length);
        linearReader := null;
      }
      if writerDetached || sharedDetached {
        var b := At(m, Select(bufferExpectedToReadNext));
        var reader := new LinearReader(b.data, b.written);
        var more, length;
        ghost var rest;
        more, length, rest := reader.ReadLinearBuffer();
        ParsedConcat(entries, rest);
        records, entries := records + more, entries + rest;
        bytes := Some(length + if bytes.Some? then bytes.value else 0);
        finishedReadingAfterDetach := true;
      }
    }

    method ReadDetached(m: Memory) returns (records: seq<Record>, bytes: Option<nat>, ghost entries: seq<Entry>)
      modifies this, linearReader
      ensures finishedReadingAfterDetach && writerDetached
      ensures entries == old(Due(m, true)) && records == Parsed(entries) && bytes == old(DueBytes(m, true))
    {
      writerDetached := true;
      records, bytes, entries := Read(m, false);
    }
  }

  lemma EmptyParsed()
    ensures Parsed([]) == []
  {
  }
}
