/**
 Finding the last line of the journal from its end, and mending a torn tail
 before the next append (readLastJournalLine, readJournalTailCursor).
 */
module JournalTail {
  import opened Wrappers
  import opened JournalText

  datatype Line = Line(text: seq<Byte>, start: nat, end: nat)

  predicate NewlinesFrom(s: seq<Byte>, from: nat) {
    forall i | from <= i < |s| :: s[i] == NEWLINE
  }

  predicate NoNewlineIn(s: seq<Byte>, from: nat, to: nat)
    requires to <= |s|
  {
    forall i | from <= i < to :: s[i] != NEWLINE
  }

  /** `line` is the last nonempty line of `s`, at its exact place. */
  predicate IsLastLine(s: seq<Byte>, line: Line) {
    && line.start < line.end <= |s|
    && line.text == s[line.start..line.end]
    && NoNewlineIn(s, line.start, line.end)
    && (line.start == 0 || s[line.start - 1] == NEWLINE)
    && NewlinesFrom(s, line.end)
  }

  lemma NewlineKeepsLine(front: seq<Byte>, line: Line)
    requires IsLastLine(front, line)
    ensures IsLastLine(front + [NEWLINE], line)
  {
    assert (front + [NEWLINE])[line.start..line.end] == front[line.start..line.end];
  }

  lemma ByteExtendsLine(front: seq<Byte>, line: Line, last: Byte)
    requires IsLastLine(front, line) && line.end == |front| && last != NEWLINE
    ensures IsLastLine(front + [last], Line(line.text + [last], line.start, |front| + 1))
  {
    assert (front + [last])[line.start..] == front[line.start..] + [last];
  }

  lemma ByteStartsLine(front: seq<Byte>, last: Byte)
    requires last != NEWLINE && (front == [] || front[|front| - 1] == NEWLINE)
    ensures IsLastLine(front + [last], Line([last], |front|, |front| + 1))
  {
    assert (front + [last])[|front|..] == [last];
  }

  /** The last nonempty line, if any; by IsLastLine there is at most one. */
  function LastLine(s: seq<Byte>): (r: Option<Line>)
    ensures r.Some? ==> IsLastLine(s, r.value)
    ensures r.None? ==> NewlinesFrom(s, 0)
    decreases |s|
  {
    if s == [] then None
    else
      var front, last := s[..|s| - 1], s[|s| - 1];
      var before := LastLine(front);
      assert s == front + [last];
      if last == NEWLINE then
        if before.Some? then
          NewlineKeepsLine(front, before.value);
          before
        else None
      else if before.Some? && before.value.end == |front| then
        ByteExtendsLine(front, before.value, last);
        Some(Line(before.value.text + [last], before.value.start, |s|))
      else
        ByteStartsLine(front, last);
        Some(Line([last], |front|, |s|))
  }

  lemma LastLineIsUnique(s: seq<Byte>, a: Line, b: Line)
    requires IsLastLine(s, a) && IsLastLine(s, b)
    ensures a == b
  {
    assert s[a.end - 1] != NEWLINE && s[b.end - 1] != NEWLINE;
    assert a.end == b.end;
    assert a.start == b.start;
  }

  lemma LastLineFound(s: seq<Byte>, line: Line)
    requires IsLastLine(s, line)
    ensures LastLine(s) == Some(line)
  {
    assert s[line.start] != NEWLINE;
    LastLineIsUnique(s, LastLine(s).value, line);
  }

  /** The reader's answer agrees with cutting the whole text into lines: it is the last of them. */
  lemma LastLineEndsLines(s: seq<Byte>)
    ensures LastLine(s).None? ==> Lines(s) == []
    ensures LastLine(s).Some? ==>
              var l := LastLine(s).value;
              Lines(s) == Lines(s[..l.start]) + [l.text]
  {
    match LastLine(s)
    case None => NewlinesHoldNoLine(s, []);
    case Some(l) =>
      var rest := s[l.end..];
      assert s == s[..l.start] + (l.text + rest);
      assert EndsLine(s[..l.start]);
      LinesConcat(s[..l.start], l.text + rest);
      NewlinesHoldNoLine(rest, l.text);
      SplitPending(l.text, rest, []);
      assert [] + l.text == l.text;
  }

  lemma {:induction false} NewlinesHoldNoLine(s: seq<Byte>, pending: seq<Byte>)
    requires NewlinesFrom(s, 0)
    ensures Split(s, pending) == if pending == [] then [] else [pending]
    decreases |s|
  {
    if s != [] {
      NewlinesHoldNoLine(s[1..], []);
    }
  }

  lemma {:induction false} SplitPending(a: seq<Byte>, b: seq<Byte>, pending: seq<Byte>)
    requires NoNewlineIn(a, 0, |a|)
    ensures Split(a + b, pending) == Split(b, pending + a)
    decreases |a|
  {
    if a == [] {
      assert a + b == b && pending + a == pending;
    } else {
      assert (a + b)[1..] == a[1..] + b;
      SplitPending(a[1..], b, pending + [a[0]]);
      assert pending + [a[0]] + a[1..] == pending + a;
    }
  }

  /** `line.text + [NEWLINE]` put after whole lines is the last line. */
  lemma LastLineAfter(front: seq<Byte>, text: seq<Byte>, newline: bool)
    requires EndsLine(front) && text != [] && NEWLINE !in text
    ensures var s := front + text + if newline then [NEWLINE] else [];
            LastLine(s) == Some(Line(text, |front|, |front| + |text|))
  {
    LastLineFound(front + text + if newline then [NEWLINE] else [], Line(text, |front|, |front| + |text|));
  }

  datatype TailError = MalformedTail | MalformedPrior

  datatype Mended = Mended(cursor: nat, bytes: seq<Byte>)

  /**
   What the writer finds before it appends. The last line gives the cursor; an
   unterminated one that decodes gains its newline; an unterminated one that
   does not decode is cut off once the line before it has been checked.
   */
  function Mend<B>(c: Codec<B>, file: seq<Byte>): Result<Mended, TailError> {
    match LastLine(file)
    case None => Ok(Mended(0, file))
    case Some(line) =>
      match c.decode(line.text)
      case Some(e) => Ok(Mended(e.cursor, if line.end == |file| then file + [NEWLINE] else file))
      case None =>
        if line.end != |file| then Err(MalformedTail)
        else match LastLine(file[..line.start])
          case None => Ok(Mended(0, file[..line.start]))
          case Some(prior) =>
            match c.decode(prior.text)
            case None => Err(MalformedPrior)
            case Some(e) => Ok(Mended(e.cursor, file[..line.start]))
  }

  /** A readable journal is mended to one that reads the same, ends its last line, and gives its head cursor. */
  lemma MendKeepsReadable<B>(c: Codec<B>, file: seq<Byte>, events: seq<Event<B>>)
    requires Parse(c, file) == Ok(events)
    ensures Mend(c, file).Ok?
    ensures var m := Mend(c, file).value;
            && m.cursor == LastCursor(events)
            && Parse(c, m.bytes) == Ok(events)
            && (Lines(file) != [] ==> EndsLine(m.bytes))
            && file <= m.bytes
  {
    ParseMeaning(c, file, events);
    LastLineEndsLines(file);
    if LastLine(file).Some? {
      var line := LastLine(file).value;
      var lines := Lines(file);
      assert c.decode(lines[|lines| - 1]) == Some(events[|events| - 1]);
      if line.end == |file| {
        SplitAtNewline(file, [], []);
        assert file + [NEWLINE] + [] == file + [NEWLINE];
        ParseMeaning(c, file + [NEWLINE], events);
      }
    }
  }

  /** Joining in reverse what was pushed from the end of the file towards its start. */
  function JoinReversed(chunks: seq<seq<Byte>>): seq<Byte> {
    if chunks == [] then [] else chunks[|chunks| - 1] + JoinReversed(chunks[..|chunks| - 1])
  }

  /** What the scan knows once it has read down to `end`. */
  ghost predicate Scanned(s: seq<Byte>, end: nat, chunks: seq<seq<Byte>>, lineEnd: Option<nat>) {
    && end <= |s|
    && match lineEnd
       case None => NewlinesFrom(s, end) && chunks == []
       case Some(le) =>
         && end < le <= |s|
         && s[le - 1] != NEWLINE
         && NewlinesFrom(s, le)
         && NoNewlineIn(s, end, le)
         && JoinReversed(chunks) == s[end..le]
  }

  lemma ScanBlank(s: seq<Byte>, end: nat, chunks: seq<seq<Byte>>, start: nat)
    requires Scanned(s, end, chunks, None) && start <= end
    requires NewlinesFrom(s[start..end], 0)
    ensures Scanned(s, start, chunks, None)
  {
    assert forall i | start <= i < end :: s[i] == s[start..end][i - start];
  }

  /** One more chunk: what it holds of the line joins on in front, and a newline in it closes the line. */
  lemma ScanPiece(s: seq<Byte>, end: nat, chunks: seq<seq<Byte>>, lineEnd: Option<nat>,
                  start: nat, until: nat, separator: int, le: nat)
    requires Scanned(s, end, chunks, lineEnd) && start < end && 0 < until <= end - start
    requires match lineEnd
             case None => le == start + until && NewlinesFrom(s[start..end], until) && s[start + until - 1] != NEWLINE
             case Some(l) => le == l && until == end - start
    requires -1 <= separator < until && (0 <= separator ==> s[start + separator] == NEWLINE)
    requires NoNewlineIn(s[start..end], separator + 1, until)
    ensures var joined := chunks + [s[start..end][separator + 1..until]];
            && (separator < 0 ==> Scanned(s, start, joined, Some(le)))
            && (0 <= separator ==> LastLine(s) == Some(Line(JoinReversed(joined), start + separator + 1, le)))
  {
    hide LastLine, JoinReversed, NoNewlineIn, NewlinesFrom, Scanned;
    TailKnown(s, end, chunks, lineEnd, start, until, le);
    PieceBytes(s, start, end, separator + 1, until);
    PieceJoins(s, start + separator + 1, start + until, le, chunks, s[start..end][separator + 1..until]);
  }

  lemma PieceJoins(s: seq<Byte>, from: nat, mid: nat, le: nat, chunks: seq<seq<Byte>>, piece: seq<Byte>)
    requires from <= mid <= le <= |s| && from < le && s[le - 1] != NEWLINE && NewlinesFrom(s, le)
    requires NoNewlineIn(s, from, mid) && NoNewlineIn(s, mid, le)
    requires JoinReversed(chunks) == s[mid..le] && piece == s[from..mid]
    ensures Scanned(s, from, chunks + [piece], Some(le))
    ensures 0 < from && s[from - 1] == NEWLINE ==> LastLine(s) == Some(Line(JoinReversed(chunks + [piece]), from, le))
  {
    hide LastLine, JoinReversed, NoNewlineIn, NewlinesFrom, Scanned;
    JoinPiece(chunks, s, from, mid, le);
    ScannedHere(s, from, mid, le, chunks + [piece]);
    if 0 < from && s[from - 1] == NEWLINE {
      LineHere(s, from, mid, le);
      LastLineFound(s, Line(s[from..le], from, le));
    }
  }

  /** Behind the piece everything is settled, be the end of the line found in this chunk or before. */
  lemma TailKnown(s: seq<Byte>, end: nat, chunks: seq<seq<Byte>>, lineEnd: Option<nat>, start: nat, until: nat, le: nat)
    requires Scanned(s, end, chunks, lineEnd) && start < end && 0 < until <= end - start
    requires match lineEnd
             case None => le == start + until && NewlinesFrom(s[start..end], until) && s[start + until - 1] != NEWLINE
             case Some(l) => le == l && until == end - start
    ensures end <= |s| && start + until <= le <= |s| && s[le - 1] != NEWLINE && NewlinesFrom(s, le)
    ensures NoNewlineIn(s, start + until, le) && JoinReversed(chunks) == s[start + until..le]
  {
    assert forall i | start <= i < end :: s[i] == s[start..end][i - start];
  }

  lemma PieceBytes(s: seq<Byte>, start: nat, end: nat, a: nat, b: nat)
    requires start <= end <= |s| && a <= b <= end - start && NoNewlineIn(s[start..end], a, b)
    ensures s[start..end][a..b] == s[start + a..start + b] && NoNewlineIn(s, start + a, start + b)
  {
    assert forall i | start <= i < end :: s[i] == s[start..end][i - start];
  }

  lemma LineHere(s: seq<Byte>, from: nat, mid: nat, le: nat)
    requires 0 < from <= mid <= le <= |s| && from < le && s[from - 1] == NEWLINE && s[le - 1] != NEWLINE && NewlinesFrom(s, le)
    requires NoNewlineIn(s, from, mid) && NoNewlineIn(s, mid, le)
    ensures IsLastLine(s, Line(s[from..le], from, le))
  {
  }

  lemma ScannedHere(s: seq<Byte>, start: nat, mid: nat, le: nat, joined: seq<seq<Byte>>)
    requires start <= mid <= le <= |s| && start < le && s[le - 1] != NEWLINE && NewlinesFrom(s, le)
    requires NoNewlineIn(s, start, mid) && NoNewlineIn(s, mid, le) && JoinReversed(joined) == s[start..le]
    ensures Scanned(s, start, joined, Some(le))
  {
  }

  lemma JoinPiece(chunks: seq<seq<Byte>>, s: seq<Byte>, from: nat, mid: nat, to: nat)
    requires from <= mid <= to <= |s| && JoinReversed(chunks) == s[mid..to]
    ensures JoinReversed(chunks + [s[from..mid]]) == s[from..to]
  {
    assert (chunks + [s[from..mid]])[..|chunks|] == chunks;
    assert s[from..to] == s[from..mid] + s[mid..to];
  }

  lemma LineHasText(s: seq<Byte>)
    requires LastLine(s).Some?
    ensures !NewlinesFrom(s, 0)
  {
    assert s[LastLine(s).value.start] != NEWLINE;
  }

  lemma ScanDone(s: seq<Byte>, chunks: seq<seq<Byte>>, lineEnd: Option<nat>)
    requires Scanned(s, 0, chunks, lineEnd)
    ensures LastLine(s) == if lineEnd.None? then None else Some(Line(JoinReversed(chunks), 0, lineEnd.value))
  {
    if lineEnd.Some? {
      LastLineFound(s, Line(JoinReversed(chunks), 0, lineEnd.value));
    } else if LastLine(s).Some? {
      LineHasText(s);
    }
  }

  const CHUNK: nat := 4096

  /** The chunk up to its trailing newlines. */
  method TrimNewlines(chunk: seq<Byte>) returns (until: nat)
    ensures until <= |chunk| && NewlinesFrom(chunk, until)
    ensures 0 < until ==> chunk[until - 1] != NEWLINE
  {
    until := |chunk|;
    while until > 0 && chunk[until - 1] == NEWLINE
      invariant until <= |chunk| && NewlinesFrom(chunk, until)
    {
      until := until - 1;
    }
  }

  /** Buffer.lastIndexOf(10). */
  method LastNewline(s: seq<Byte>, until: nat) returns (at: int)
    requires until <= |s|
    ensures -1 <= at < until
    ensures 0 <= at ==> s[at] == NEWLINE
    ensures NoNewlineIn(s, at + 1, until)
  {
    at := until - 1;
    while at >= 0 && s[at] != NEWLINE
      invariant -1 <= at < until
      invariant NoNewlineIn(s, at + 1, until)
    {
      at := at - 1;
    }
  }
}
