/**
 The writer's side of the journal file: the chunked backward read, the mend of
 a torn tail and the batch append, as they work on the bytes in place.
 */
module JournalWriter {
  import opened Wrappers
  import opened JournalText
  import opened JournalTail
  import opened JournalAppend

  /** A journal on disk, opened by one writer at a time. */
  class JournalFile<B> {
    const codec: Codec<B>
    var bytes: seq<Byte>

    constructor (codec: Codec<B>)
      ensures this.codec == codec && bytes == []
    {
      this.codec := codec;
      bytes := [];
    }

    /** One chunk, filled by reads that may each return fewer bytes than asked for. */
    method ReadChunk(start: nat, end: nat) returns (chunk: array<Byte>)
      requires start <= end <= |bytes|
      ensures fresh(chunk) && chunk[..] == bytes[start..end]
    {
      chunk := new Byte[end - start];
      var offset := 0;
      while offset < chunk.Length
        invariant 0 <= offset <= chunk.Length
        invariant chunk[..offset] == bytes[start..start + offset]
      {
        var bytesRead :| 1 <= bytesRead <= chunk.Length - offset;
        forall i | offset <= i < offset + bytesRead {
          chunk[i] := bytes[start + i];
        }
        offset := offset + bytesRead;
      }
      assert chunk[..] == chunk[..offset];
    }

    /** The chunked scan from `upTo` towards the start, for any chunk size. */
    method ReadLastLine(upTo: nat, chunkSize: nat) returns (line: Option<Line>)
      requires upTo <= |bytes| && 0 < chunkSize
      ensures line == LastLine(bytes[..upTo])
    {
      ghost var s := bytes[..upTo];
      var end: nat, chunks: seq<seq<Byte>>, lineEnd: Option<nat> := upTo, [], None;
      while end > 0
        invariant end <= upTo && Scanned(s, end, chunks, lineEnd)
      {
        var start := if end < chunkSize then 0 else end - chunkSize;
        var buffer := ReadChunk(start, end);
        var chunk := buffer[..];
        assert chunk == s[start..end];
        var until, found := |chunk|, lineEnd;
        if lineEnd.None? {
          until := TrimNewlines(chunk);
          if until > 0 {
            found := Some(start + until);
          }
        }
        if found.Some? {
          var separator := LastNewline(chunk, until);
          var piece := chunk[separator + 1..until];
          ScanPiece(s, end, chunks, lineEnd, start, until, separator, found.value);
          chunks := chunks + [piece];
          if separator >= 0 {
            return Some(Line(JoinReversed(chunks), start + separator + 1, found.value));
          }
        } else {
          ScanBlank(s, end, chunks, start);
        }
        lineEnd := found;
        end := start;
      }
      ScanDone(s, chunks, lineEnd);
      line := if lineEnd.None? then None else Some(Line(JoinReversed(chunks), 0, lineEnd.value));
    }

    /** readJournalTailCursor. `applied` is false when the process stops before its one repairing write. */
    method MendTail(applied: bool) returns (r: Result<nat, TailError>)
      modifies this
      ensures var m := Mend(codec, old(bytes));
              && r == (if m.Ok? then Ok(m.value.cursor) else Err(m.error))
              && bytes == (if m.Ok? && applied then m.value.bytes else old(bytes))
    {
      var size := |bytes|;
      var line := ReadLastLine(size, CHUNK);
      assert bytes[..size] == bytes;
      if line.None? {
        return Ok(0);
      }
      var event := codec.decode(line.value.text);
      if event.None? {
        if line.value.end != size {
          return Err(MalformedTail);
        }
        var prior := ReadLastLine(line.value.start, CHUNK);
        var cursor := 0;
        if prior.Some? {
          var before := codec.decode(prior.value.text);
          if before.None? {
            return Err(MalformedPrior);
          }
          cursor := before.value.cursor;
        }
        if applied {
          bytes := bytes[..line.value.start];
        }
        return Ok(cursor);
      }
      if line.value.end == size && applied {
        bytes := bytes + [NEWLINE];
      }
      r := Ok(event.value.cursor);
    }

    /** writeJournalBytes: partial writes until all of `data` is out, or until `limit` bytes are. */
    method WriteBytes(data: seq<Byte>, limit: Option<nat>) returns (ok: bool)
      modifies this
      ensures bytes == old(bytes) + data[..Reached(limit, |data|)]
      ensures ok <==> limit.None? || |data| <= limit.value
    {
      var offset := 0;
      while offset < |data|
        invariant 0 <= offset <= Reached(limit, |data|)
        invariant bytes == old(bytes) + data[..offset]
      {
        if limit.Some? && offset == limit.value {
          return false;
        }
        var bytesWritten :| 1 <= bytesWritten <= Reached(limit, |data|) - offset;
        bytes := bytes + data[offset..offset + bytesWritten];
        offset := offset + bytesWritten;
      }
      ok := true;
    }

    /** appendTeamEvents under the journal's lock, with the place where the process stops, if it does. */
    method AppendEvents(inputs: seq<B>, fault: Fault) returns (outcome: Result<seq<Event<B>>, AppendError>)
      modifies this
      ensures Appended(bytes, outcome) == Append(codec, old(bytes), inputs, fault)
    {
      hide Mend, Image;
      if inputs == [] {
        return Ok([]);
      }
      var head := MendTail(fault != RepairStops(false));
      if head.Err? {
        return Err(TailUnreadable(head.error));
      }
      if fault.RepairStops? {
        return Err(Stopped);
      }
      var cursor, events := head.value, [];
      for i := 0 to |inputs|
        invariant cursor == head.value + i
        invariant events == Number(inputs, head.value)[..i]
        invariant forall k | 0 <= k < i :: codec.decode(codec.encode(events[k])).Some?
      {
        cursor := cursor + 1;
        var event := Event(cursor, inputs[i]);
        if codec.decode(codec.encode(event)).None? {
          assert Number(inputs, head.value)[i] == event;
          return Err(Rejected);
        }
        events := events + [event];
      }
      assert events == Number(inputs, head.value);
      var start := |bytes|;
      var before := bytes;
      var written := WriteBytes(Image(codec, events), if fault.WriteStops? then Some(fault.written) else None);
      if !written {
        return Err(Stopped);
      }
      if fault.SyncFails? {
        if fault.rolledBack {
          bytes := bytes[..start];
          assert bytes == before;
        }
        return Err(Stopped);
      }
      if fault.ProjectionFails? || fault.WriteStops? {
        return Err(Stopped);
      }
      outcome := Ok(events);
    }
  }
}
