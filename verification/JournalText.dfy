/**
 The journal as text: bytes cut into lines, lines decoded into events whose
 cursors must increase (src/coordination/event-journal.ts).
 */
module JournalText {
  import opened Wrappers

  newtype Byte = x: int | 0 <= x < 256

  const NEWLINE: Byte := 10

  /** A journal record: a decimal cursor, read as a natural number, and the rest of the record. */
  datatype Event<+B> = Event(cursor: nat, body: B)

  /** JSON.stringify on one side; JSON.parse followed by the shape checks of parseEvent on the other. */
  datatype Codec<!B> = Codec(encode: Event<B> -> seq<Byte>, decode: seq<Byte> -> Option<Event<B>>)

  /**
   What the journal needs of its codec. An accepted text stands for the event it
   came from; control characters are escaped, so no newline is ever printed
   (section 7 of RFC 8259); an object ends at its own right brace, so no proper
   prefix is a text (section 4 of RFC 8259); and the empty text is no value.
   */
  ghost predicate Lawful<B(!new)>(c: Codec<B>) {
    && (forall e :: c.decode(c.encode(e)).Some? ==> c.decode(c.encode(e)).value == e)
    && (forall e :: NEWLINE !in c.encode(e))
    && (forall e, k | 0 <= k < |c.encode(e)| :: c.decode(c.encode(e)[..k]) == None)
    && c.decode([]) == None
  }

  /** appendTeamEvents decodes each record it is about to write; only these reach the file. */
  predicate Accepts<B(==)>(c: Codec<B>, e: Event<B>) {
    c.decode(c.encode(e)) == Some(e)
  }

  /** The pieces of `pending + raw` between newlines, empty pieces dropped; `pending` holds no newline. */
  function Split(raw: seq<Byte>, pending: seq<Byte>): seq<seq<Byte>>
    decreases |raw|
  {
    var whole := if pending == [] then [] else [pending];
    if raw == [] then whole
    else if raw[0] == NEWLINE then whole + Split(raw[1..], [])
    else Split(raw[1..], pending + [raw[0]])
  }

  function Lines(raw: seq<Byte>): seq<seq<Byte>> {
    Split(raw, [])
  }

  lemma {:induction false} SplitAtNewline(a: seq<Byte>, b: seq<Byte>, pending: seq<Byte>)
    ensures Split(a + [NEWLINE] + b, pending) == Split(a, pending) + Split(b, [])
    decreases |a|
  {
    var all := a + [NEWLINE] + b;
    if a == [] {
      assert all[1..] == b;
    } else {
      assert all[1..] == a[1..] + [NEWLINE] + b;
      if a[0] == NEWLINE {
        SplitAtNewline(a[1..], b, []);
      } else {
        SplitAtNewline(a[1..], b, pending + [a[0]]);
      }
    }
  }

  lemma {:induction false} SplitWithoutNewline(a: seq<Byte>, pending: seq<Byte>)
    requires NEWLINE !in a
    ensures Split(a, pending) == if pending + a == [] then [] else [pending + a]
    decreases |a|
  {
    if a != [] {
      SplitWithoutNewline(a[1..], pending + [a[0]]);
      assert pending + [a[0]] + a[1..] == pending + a;
    } else {
      assert pending + a == pending;
    }
  }

  predicate EndsLine(raw: seq<Byte>) {
    raw == [] || raw[|raw| - 1] == NEWLINE
  }

  /** Lines of a text that is cut right after a newline are the lines of its two parts. */
  lemma LinesConcat(a: seq<Byte>, b: seq<Byte>)
    requires EndsLine(a)
    ensures Lines(a + b) == Lines(a) + Lines(b)
  {
    if a == [] {
      assert a + b == b;
    } else {
      var front := a[..|a| - 1];
      assert a == front + [NEWLINE] + [] && a + b == front + [NEWLINE] + b;
      SplitAtNewline(front, b, []);
      SplitAtNewline(front, [], []);
    }
  }

  datatype JournalError = MalformedLine(line: nat) | CursorNotIncreasing(line: nat)

  function LastCursor<B>(events: seq<Event<B>>): nat {
    if events == [] then 0 else events[|events| - 1].cursor
  }

  function ParseLines<B>(c: Codec<B>, lines: seq<seq<Byte>>, prior: seq<Event<B>>, previous: nat)
    : Result<seq<Event<B>>, JournalError>
    decreases |lines|
  {
    if lines == [] then Ok(prior)
    else match c.decode(lines[0])
      case None => Err(MalformedLine(|prior| + 1))
      case Some(e) =>
        if e.cursor <= previous then Err(CursorNotIncreasing(|prior| + 1))
        else ParseLines(c, lines[1..], prior + [e], e.cursor)
  }

  function Parse<B>(c: Codec<B>, raw: seq<Byte>): Result<seq<Event<B>>, JournalError> {
    ParseLines(c, Lines(raw), [], 0)
  }

  /** Cursors rise strictly, all above `floor`. */
  predicate Increasing<B>(events: seq<Event<B>>, floor: nat) {
    && (forall i | 0 <= i < |events| :: floor < events[i].cursor)
    && (forall i, j | 0 <= i < j < |events| :: events[i].cursor < events[j].cursor)
  }

  lemma IncreasingFromHead<B>(events: seq<Event<B>>, floor: nat)
    requires events != []
    ensures Increasing(events, floor) <==> floor < events[0].cursor && Increasing(events[1..], events[0].cursor)
  {
    var rest := events[1..];
    assert forall i | 0 < i < |events| :: events[i] == rest[i - 1];
    if floor < events[0].cursor && Increasing(rest, events[0].cursor) {
      forall i, j | 0 <= i < j < |events|
        ensures events[i].cursor < events[j].cursor
      {
        assert rest[j - 1].cursor == events[j].cursor;
        if 0 < i {
          assert rest[i - 1].cursor == events[i].cursor;
        }
      }
    }
  }

  /** A parse succeeds exactly when the lines decode one by one to increasing cursors, and then it is those events. */
  lemma {:induction false} ParseLinesMeaning<B>(c: Codec<B>, lines: seq<seq<Byte>>, prior: seq<Event<B>>, previous: nat, found: seq<Event<B>>)
    ensures ParseLines(c, lines, prior, previous) == Ok(prior + found) <==>
            && |found| == |lines|
            && (forall i | 0 <= i < |lines| :: c.decode(lines[i]) == Some(found[i]))
            && Increasing(found, previous)
    decreases |lines|
  {
    if lines == [] {
      assert prior + found == prior <==> found == [];
    } else if c.decode(lines[0]).Some? && previous < c.decode(lines[0]).value.cursor {
      var e := c.decode(lines[0]).value;
      ParseExtendsPrior(c, lines[1..], prior + [e], e.cursor);
      var r := ParseLines(c, lines, prior, previous);
      assert r.Ok? ==> r.value[..|prior| + 1][|prior|] == e;
      if found != [] && found[0] == e {
        ParseLinesMeaning(c, lines[1..], prior + [e], e.cursor, found[1..]);
        assert prior + [e] + found[1..] == prior + found;
        IncreasingFromHead(found, previous);
        assert forall i | 0 < i < |found| :: found[i] == found[1..][i - 1];
        assert forall i | 0 < i < |lines| :: lines[i] == lines[1..][i - 1];
      }
    }
  }

  /** Parsing keeps the events it started from. */
  lemma {:induction false} ParseExtendsPrior<B>(c: Codec<B>, lines: seq<seq<Byte>>, prior: seq<Event<B>>, previous: nat)
    ensures var r := ParseLines(c, lines, prior, previous);
            r.Ok? ==> |r.value| == |prior| + |lines| && r.value[..|prior|] == prior
    decreases |lines|
  {
    if lines != [] && c.decode(lines[0]).Some? {
      var e := c.decode(lines[0]).value;
      ParseExtendsPrior(c, lines[1..], prior + [e], e.cursor);
    }
  }

  lemma ParseMeaning<B>(c: Codec<B>, raw: seq<Byte>, found: seq<Event<B>>)
    ensures Parse(c, raw) == Ok(found) <==>
            && |found| == |Lines(raw)|
            && (forall i | 0 <= i < |found| :: c.decode(Lines(raw)[i]) == Some(found[i]))
            && Increasing(found, 0)
  {
    ParseLinesMeaning(c, Lines(raw), [], 0, found);
    assert [] + found == found;
  }

  /** The cut the cache relies on: the rest of the lines can be parsed on top of the earlier events, errors included. */
  lemma {:induction false} ParseResumes<B>(c: Codec<B>, a: seq<seq<Byte>>, b: seq<seq<Byte>>, prior: seq<Event<B>>, previous: nat)
    requires previous == LastCursor(prior)
    ensures var r := ParseLines(c, a, prior, previous);
            ParseLines(c, a + b, prior, previous) ==
            if r.Ok? then ParseLines(c, b, r.value, LastCursor(r.value)) else r
    decreases |a|
  {
    if a == [] {
      assert a + b == b;
    } else {
      assert (a + b)[1..] == a[1..] + b;
      if c.decode(a[0]).Some? {
        var e := c.decode(a[0]).value;
        ParseResumes(c, a[1..], b, prior + [e], e.cursor);
      }
    }
  }

  /** parseJournalLines on its loop. */
  method ParseJournalLines<B>(c: Codec<B>, raw: seq<Byte>, prior: seq<Event<B>>, priorCursor: Option<nat>)
    returns (r: Result<seq<Event<B>>, JournalError>)
    ensures r == ParseLines(c, Lines(raw), prior, priorCursor.GetOr(LastCursor(prior)))
  {
    var events := prior;
    var previous := priorCursor.GetOr(LastCursor(prior));
    var lines := Lines(raw);
    for i := 0 to |lines|
      invariant ParseLines(c, lines[i..], events, previous) == ParseLines(c, lines, prior, priorCursor.GetOr(LastCursor(prior)))
    {
      assert lines[i..][1..] == lines[i + 1..];
      match c.decode(lines[i]) {
        case None =>
          return Err(MalformedLine(|events| + 1));
        case Some(e) =>
          if e.cursor <= previous {
            return Err(CursorNotIncreasing(|events| + 1));
          }
          previous := e.cursor;
          events := events + [e];
      }
    }
    r := Ok(events);
  }

  // ---- one concrete codec: the hypotheses can be met ----

  /** A record is its cursor and its body in unary, each closed by its own mark. */
  function Strokes(n: nat, mark: Byte): seq<Byte>
  {
    if n == 0 then [mark] else [1] + Strokes(n - 1, mark)
  }

  function CountStrokes(s: seq<Byte>): nat {
    if s == [] || s[0] != 1 then 0 else 1 + CountStrokes(s[1..])
  }

  function UnaryDecode(s: seq<Byte>): Option<Event<nat>> {
    var n := CountStrokes(s);
    if n < |s| && s[n] == 2 then
      var m := CountStrokes(s[n + 1..]);
      if s == Strokes(n, 2) + Strokes(m, 3) then Some(Event(n, m)) else None
    else None
  }

  const UNARY_CODEC: Codec<nat> := Codec(
    (e: Event<nat>) => Strokes(e.cursor, 2) + Strokes(e.body, 3), s => UnaryDecode(s))

  lemma {:induction false} StrokesShape(n: nat, mark: Byte, rest: seq<Byte>)
    requires mark != 1
    ensures |Strokes(n, mark)| == n + 1
    ensures forall i | 0 <= i <= n :: Strokes(n, mark)[i] == if i == n then mark else 1
    ensures CountStrokes(Strokes(n, mark) + rest) == n
  {
    if n > 0 {
      StrokesShape(n - 1, mark, rest);
      assert (Strokes(n, mark) + rest)[1..] == Strokes(n - 1, mark) + rest;
    }
  }

  lemma MarkOnlyAtEnd(d: Event<nat>, e: Event<nat>, s: seq<Byte>)
    requires s == UNARY_CODEC.encode(d) && s <= UNARY_CODEC.encode(e)
    ensures s == UNARY_CODEC.encode(e)
  {
    StrokesShape(d.cursor, 2, []);
    StrokesShape(d.body, 3, []);
    StrokesShape(e.cursor, 2, []);
    StrokesShape(e.body, 3, []);
    assert s[|s| - 1] == 3;
  }

  lemma UnaryCodecIsLawful()
    ensures Lawful(UNARY_CODEC)
    ensures forall e: Event<nat> :: Accepts(UNARY_CODEC, e)
  {
    var c := UNARY_CODEC;
    forall e: Event<nat>
      ensures c.decode(c.encode(e)) == Some(e) && NEWLINE !in c.encode(e)
    {
      var s := c.encode(e);
      StrokesShape(e.cursor, 2, Strokes(e.body, 3));
      StrokesShape(e.body, 3, []);
      assert Strokes(e.body, 3) + [] == Strokes(e.body, 3);
      assert s[e.cursor + 1..] == Strokes(e.body, 3);
    }
    forall e: Event<nat>, k | 0 <= k < |c.encode(e)|
      ensures c.decode(c.encode(e)[..k]) == None
    {
      var s := c.encode(e)[..k];
      StrokesShape(e.cursor, 2, Strokes(e.body, 3));
      StrokesShape(e.body, 3, []);
      if c.decode(s) != None {
        var d := UnaryDecode(s).value;
        StrokesShape(d.cursor, 2, Strokes(d.body, 3));
        StrokesShape(d.body, 3, []);
        MarkOnlyAtEnd(d, e, s);
        assert false;
      }
    }
  }
}
