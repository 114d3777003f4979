/**
 What one append leaves in the file, for every place where it can stop, and what
 that means over whole runs of appends (appendTeamEvents).
 */
module JournalAppend {
  import opened Wrappers
  import opened JournalText
  import opened JournalTail

  function Image<B>(c: Codec<B>, events: seq<Event<B>>): seq<Byte> {
    if events == [] then [] else c.encode(events[0]) + [NEWLINE] + Image(c, events[1..])
  }

  /** The batch takes the cursors right after `head`. */
  function Number<B>(inputs: seq<B>, head: nat): seq<Event<B>> {
    seq(|inputs|, i requires 0 <= i < |inputs| => Event(head + 1 + i, inputs[i]))
  }

  /** Where an append can stop, by error or by crash. */
  datatype Fault =
    | NoFault
    | RepairStops(applied: bool)    // around the one write that mends the tail
    | WriteStops(written: nat)      // after this many bytes of the batch, if the batch has more
    | SyncFails(rolledBack: bool)   // fsync fails; the truncation that follows works or not
    | ProjectionFails               // the batch is durable, the cursor view is not written

  datatype AppendError = TailUnreadable(error: TailError) | Rejected | Stopped

  datatype Appended<B> = Appended(file: seq<Byte>, outcome: Result<seq<Event<B>>, AppendError>)

  function Reached(limit: Option<nat>, size: nat): (n: nat)
    ensures n <= size
  {
    if limit.Some? && limit.value < size then limit.value else size
  }

  /** Every record of a batch is checked before any part of it is written. */
  predicate Writable<B>(c: Codec<B>, batch: seq<Event<B>>) {
    forall i | 0 <= i < |batch| :: c.decode(c.encode(batch[i])).Some?
  }

  function Append<B>(c: Codec<B>, file: seq<Byte>, inputs: seq<B>, fault: Fault): Appended<B> {
    if inputs == [] then Appended(file, Ok([]))
    else
      var mended := Mend(c, file);
      if mended.Err? then Appended(file, Err(TailUnreadable(mended.error)))
      else if fault == RepairStops(false) then Appended(file, Err(Stopped))
      else
        var ready, batch := mended.value.bytes, Number(inputs, mended.value.cursor);
        if fault.RepairStops? then Appended(ready, Err(Stopped))
        else if !Writable(c, batch) then Appended(ready, Err(Rejected))
        else
          var data := Image(c, batch);
          match fault
          case NoFault => Appended(ready + data, Ok(batch))
          case WriteStops(k) => Appended(ready + data[..Reached(Some(k), |data|)], Err(Stopped))
          case SyncFails(rolledBack) => Appended(if rolledBack then ready else ready + data, Err(Stopped))
          case _ => Appended(ready + data, Err(Stopped))
  }

  // ---- what an image reads as ----

  predicate AcceptsAll<B(==)>(c: Codec<B>, events: seq<Event<B>>) {
    forall i | 0 <= i < |events| :: Accepts(c, events[i])
  }

  /** The i-th event carries cursor i + 1: no gap, no repeat. */
  predicate Numbered<B>(events: seq<Event<B>>) {
    forall i | 0 <= i < |events| :: events[i].cursor == i + 1
  }

  lemma {:induction false} ImageConcat<B>(c: Codec<B>, a: seq<Event<B>>, b: seq<Event<B>>)
    ensures Image(c, a + b) == Image(c, a) + Image(c, b)
    decreases |a|
  {
    if a == [] {
      assert a + b == b;
    } else {
      assert (a + b)[1..] == a[1..] + b;
      ImageConcat(c, a[1..], b);
    }
  }

  lemma {:induction false} ImageEndsLine<B>(c: Codec<B>, events: seq<Event<B>>)
    ensures EndsLine(Image(c, events))
  {
    if events != [] {
      ImageEndsLine(c, events[1..]);
    }
  }

  lemma {:induction false} LinesOfImage<B(!new)>(c: Codec<B>, events: seq<Event<B>>)
    requires Lawful(c) && AcceptsAll(c, events)
    ensures |Lines(Image(c, events))| == |events|
    ensures forall i | 0 <= i < |events| :: Lines(Image(c, events))[i] == c.encode(events[i])
  {
    if events != [] {
      var first := c.encode(events[0]);
      assert first != [] by {
        assert Accepts(c, events[0]);
      }
      SplitAtNewline(first, Image(c, events[1..]), []);
      SplitWithoutNewline(first, []);
      assert [] + first == first;
      LinesOfImage(c, events[1..]);
    }
  }

  /** Text that ends its last line and reads as `events`, followed by the image of `batch`, reads as both. */
  lemma ImageReadsOn<B(!new)>(c: Codec<B>, file: seq<Byte>, events: seq<Event<B>>, batch: seq<Event<B>>)
    requires Lawful(c) && AcceptsAll(c, batch) && EndsLine(file)
    requires Parse(c, file) == Ok(events) && Increasing(batch, LastCursor(events))
    ensures Parse(c, file + Image(c, batch)) == Ok(events + batch)
  {
    LinesConcat(file, Image(c, batch));
    LinesOfImage(c, batch);
    ParseMeaning(c, file, events);
    assert forall i | 0 <= i < |batch| :: Accepts(c, batch[i]);
    ParseMeaning(c, file + Image(c, batch), events + batch);
  }

  lemma NumberIsIncreasing<B>(inputs: seq<B>, head: nat)
    ensures Increasing(Number(inputs, head), head)
  {
  }

  /** On any readable journal, whoever wrote it, a finished append adds exactly the batch, numbered from the head. */
  lemma AppendOnReadable<B(!new)>(c: Codec<B>, file: seq<Byte>, events: seq<Event<B>>, inputs: seq<B>)
    requires Lawful(c) && Parse(c, file) == Ok(events) && inputs != []
    requires AcceptsAll(c, Number(inputs, LastCursor(events)))
    ensures var batch := Number(inputs, LastCursor(events));
            var r := Append(c, file, inputs, NoFault);
            r.outcome == Ok(batch) && Parse(c, r.file) == Ok(events + batch)
  {
    MendKeepsReadable(c, file, events);
    var ready := Mend(c, file).value.bytes;
    var batch := Number(inputs, LastCursor(events));
    NumberIsIncreasing(inputs, LastCursor(events));
    assert forall i | 0 <= i < |batch| :: Accepts(c, batch[i]);
    if EndsLine(ready) {
      ImageReadsOn(c, ready, events, batch);
    }
  }

  // ---- what a run leaves ----

  /** Whole records, and then a prefix of one more that was cut. */
  datatype Ledger<B> = Ledger(whole: seq<Event<B>>, torn: seq<Byte>, cut: Option<Event<B>>)

  ghost predicate Holds<B>(c: Codec<B>, file: seq<Byte>, l: Ledger<B>) {
    && file == Image(c, l.whole) + l.torn
    && AcceptsAll(c, l.whole)
    && Numbered(l.whole)
    && (l.torn != [] ==> l.cut.Some? && Accepts(c, l.cut.value) && l.cut.value.cursor == |l.whole| + 1
                         && l.torn <= c.encode(l.cut.value))
  }

  /** A record whose text is complete counts, even without its newline. */
  function Recovered<B>(c: Codec<B>, l: Ledger<B>): seq<Event<B>> {
    if l.cut.Some? && l.torn != [] && l.torn == c.encode(l.cut.value) then l.whole + [l.cut.value] else l.whole
  }

  lemma ImageOfNumbered<B(!new)>(c: Codec<B>, events: seq<Event<B>>)
    requires Lawful(c) && AcceptsAll(c, events) && Numbered(events)
    ensures Parse(c, Image(c, events)) == Ok(events)
  {
    LinesOfImage(c, events);
    assert forall i | 0 <= i < |events| :: Accepts(c, events[i]);
    ParseMeaning(c, Image(c, events), events);
  }

  lemma LastOfImage<B(!new)>(c: Codec<B>, events: seq<Event<B>>)
    requires Lawful(c) && AcceptsAll(c, events)
    ensures var line := LastLine(Image(c, events));
            if events == [] then line.None? else line.Some? && line.value.text == c.encode(events[|events| - 1])
  {
    if events != [] {
      var front, last := events[..|events| - 1], events[|events| - 1];
      ImageConcat(c, front, [last]);
      ImageEndsLine(c, front);
      assert front + [last] == events && Accepts(c, last);
      assert Image(c, [last]) == c.encode(last) + [NEWLINE];
      assert Image(c, events) == Image(c, front) + c.encode(last) + [NEWLINE];
      LastLineAfter(Image(c, front), c.encode(last), true);
    }
  }

  /** A mended journal is exactly the image of what can be recovered, and the writer learns its length. */
  lemma MendRecovers<B(!new)>(c: Codec<B>, file: seq<Byte>, l: Ledger<B>)
    requires Lawful(c) && Holds(c, file, l)
    ensures var events := Recovered(c, l);
            && Mend(c, file) == Ok(Mended(|events|, Image(c, events)))
            && AcceptsAll(c, events) && Numbered(events)
  {
    if l.torn == [] {
      LastOfImage(c, l.whole);
      assert l.whole != [] ==> Accepts(c, l.whole[|l.whole| - 1]);
      assert file == Image(c, l.whole);
      if l.whole != [] {
        EndsWithNewline(c, l.whole);
      }
    } else {
      MendTorn(c, file, l);
    }
  }

  lemma MendTorn<B(!new)>(c: Codec<B>, file: seq<Byte>, l: Ledger<B>)
    requires Lawful(c) && Holds(c, file, l) && l.torn != []
    ensures var events := Recovered(c, l);
            && Mend(c, file) == Ok(Mended(|events|, Image(c, events)))
            && AcceptsAll(c, events) && Numbered(events)
  {
    var cut := c.encode(l.cut.value);
    TornLine(c, file, l);
    LastOfImage(c, l.whole);
    assert l.whole != [] ==> Accepts(c, l.whole[|l.whole| - 1]);
    if l.torn == cut {
      ImageConcat(c, l.whole, [l.cut.value]);
      assert Image(c, [l.cut.value]) == cut + [NEWLINE];
      assert Image(c, l.whole) + (cut + [NEWLINE]) == file + [NEWLINE];
    } else {
      assert l.torn == cut[..|l.torn|];
    }
  }

  lemma TornLine<B(!new)>(c: Codec<B>, file: seq<Byte>, l: Ledger<B>)
    requires Lawful(c) && Holds(c, file, l) && l.torn != []
    ensures LastLine(file) == Some(Line(l.torn, |Image(c, l.whole)|, |file|))
    ensures file[..|Image(c, l.whole)|] == Image(c, l.whole)
  {
    ImageEndsLine(c, l.whole);
    var cut := c.encode(l.cut.value);
    assert forall i | 0 <= i < |l.torn| :: l.torn[i] == cut[i];
    LastLineAfter(Image(c, l.whole), l.torn, false);
    assert file == Image(c, l.whole) + l.torn + [];
  }

  lemma EndsWithNewline<B(!new)>(c: Codec<B>, events: seq<Event<B>>)
    requires Lawful(c) && AcceptsAll(c, events) && events != []
    ensures var file := Image(c, events);
            LastLine(file).Some? && LastLine(file).value.end != |file|
  {
    LastOfImage(c, events);
    ImageEndsLine(c, events);
    assert Image(c, events) != [];
  }

  /** Until it is mended, a cut journal reads exactly when the cut fell on a record boundary. */
  lemma CutJournalReads<B(!new)>(c: Codec<B>, file: seq<Byte>, l: Ledger<B>)
    requires Lawful(c) && Holds(c, file, l)
    ensures var complete := l.torn == [] || l.torn == c.encode(l.cut.value);
            Parse(c, file) == if complete then Ok(Recovered(c, l)) else Err(MalformedLine(|l.whole| + 1))
  {
    ImageEndsLine(c, l.whole);
    LinesConcat(Image(c, l.whole), l.torn);
    ImageOfNumbered(c, l.whole);
    ParseResumes(c, Lines(Image(c, l.whole)), Lines(l.torn), [], 0);
    if l.torn == [] {
      assert Lines(l.torn) == [];
    } else {
      var cut := c.encode(l.cut.value);
      assert forall i | 0 <= i < |l.torn| :: l.torn[i] == cut[i];
      SplitWithoutNewline(l.torn, []);
      assert [] + l.torn == l.torn && l.torn == cut[..|l.torn|];
      assert Lines(l.torn) == [l.torn];
      assert cut[..|cut|] == cut;
    }
  }

  /** How many records of the batch are complete once `k` bytes of its image are out. */
  function Survivors<B>(c: Codec<B>, batch: seq<Event<B>>, k: nat): (n: nat)
    ensures n <= |batch|
  {
    if batch == [] || k < |c.encode(batch[0])| then 0
    else if k == |c.encode(batch[0])| then 1
    else 1 + Survivors(c, batch[1..], k - |c.encode(batch[0])| - 1)
  }

  /** Cutting the image of a batch leaves whole records and a prefix of the next one. */
  lemma {:induction false} CutImage<B(!new)>(c: Codec<B>, batch: seq<Event<B>>, k: nat) returns (n: nat, torn: seq<Byte>)
    requires Lawful(c) && AcceptsAll(c, batch) && k <= |Image(c, batch)|
    ensures n <= |batch| && Image(c, batch)[..k] == Image(c, batch[..n]) + torn
    ensures torn != [] ==> n < |batch| && torn <= c.encode(batch[n])
    ensures Survivors(c, batch, k) == if torn != [] && torn == c.encode(batch[n]) then n + 1 else n
    decreases |batch|
  {
    if batch == [] {
      n, torn := 0, [];
    } else {
      var first := c.encode(batch[0]);
      assert Accepts(c, batch[0]);
      if k <= |first| {
        n, torn := 0, first[..k];
        assert Image(c, batch)[..k] == torn;
      } else {
        var rest := k - |first| - 1;
        var m, t := CutImage(c, batch[1..], rest);
        n, torn := m + 1, t;
        assert batch[..n][1..] == batch[1..][..m];
        assert Image(c, batch)[..k] == first + [NEWLINE] + Image(c, batch[1..])[..rest];
      }
    }
  }

  /** How many events of the batch an append has put on record for good. */
  function Kept<B>(c: Codec<B>, batch: seq<Event<B>>, fault: Fault): nat {
    if !Writable(c, batch) || fault.RepairStops? || fault == SyncFails(true) then 0
    else if fault.WriteStops? then Survivors(c, batch, Reached(Some(fault.written), |Image(c, batch)|))
    else |batch|
  }

  /** One append, stopped anywhere: afterwards the earlier events and a known prefix of the batch can be recovered. */
  lemma AppendStep<B(!new)>(c: Codec<B>, file: seq<Byte>, l: Ledger<B>, inputs: seq<B>, fault: Fault) returns (after: Ledger<B>)
    requires Lawful(c) && Holds(c, file, l)
    ensures var events := Recovered(c, l);
            var batch := Number(inputs, |events|);
            && Holds(c, Append(c, file, inputs, fault).file, after)
            && Kept(c, batch, fault) <= |batch|
            && Recovered(c, after) == events + batch[..Kept(c, batch, fault)]
  {
    var events := Recovered(c, l);
    var batch := Number(inputs, |events|);
    MendRecovers(c, file, l);
    var ready := Ledger(events, [], None);
    assert Holds(c, Image(c, events), ready) by {
      assert Image(c, events) + [] == Image(c, events);
    }
    var kept := Kept(c, batch, fault);
    if inputs == [] || fault == RepairStops(false) {
      after := l;
      assert batch[..kept] == [];
    } else if fault.RepairStops? || fault == SyncFails(true) || !Writable(c, batch) {
      after := ready;
    } else {
      var data := Image(c, batch);
      var k := if fault.WriteStops? then Reached(Some(fault.written), |data|) else |data|;
      WholeBatchSurvives(c, batch);
      assert data[..|data|] == data;
      after := WriteStep(c, events, batch, k);
    }
  }

  /** The bytes that got out, put after the mended file. */
  lemma WriteStep<B(!new)>(c: Codec<B>, events: seq<Event<B>>, batch: seq<Event<B>>, k: nat) returns (after: Ledger<B>)
    requires Lawful(c) && AcceptsAll(c, events) && Numbered(events)
    requires Writable(c, batch) && (forall i | 0 <= i < |batch| :: batch[i].cursor == |events| + i + 1)
    requires k <= |Image(c, batch)|
    ensures Holds(c, Image(c, events) + Image(c, batch)[..k], after)
    ensures Recovered(c, after) == events + batch[..Survivors(c, batch, k)]
  {
    assert AcceptsAll(c, batch);
    var n, torn := CutImage(c, batch, k);
    ImageConcat(c, events, batch[..n]);
    after := Ledger(events + batch[..n], torn, if torn == [] then None else Some(batch[n]));
    assert Image(c, events) + (Image(c, batch[..n]) + torn) == Image(c, events) + Image(c, batch[..n]) + torn;
    assert torn != [] ==> Accepts(c, batch[n]);
    if torn != [] && torn == c.encode(batch[n]) {
      assert events + batch[..n] + [batch[n]] == events + batch[..n + 1];
    }
  }

  lemma {:induction false} WholeBatchSurvives<B>(c: Codec<B>, batch: seq<Event<B>>)
    ensures Survivors(c, batch, |Image(c, batch)|) == |batch|
  {
    if batch != [] {
      WholeBatchSurvives(c, batch[1..]);
    }
  }

  /**
   What one append reports, on any journal a stop may have left: a torn tail is
   mended and never refused, and success means that nothing stopped the append
   and every record can be read back.
   */
  lemma AppendReports<B(!new)>(c: Codec<B>, file: seq<Byte>, l: Ledger<B>, inputs: seq<B>, fault: Fault)
    requires Lawful(c) && Holds(c, file, l)
    ensures var batch := Number(inputs, |Recovered(c, l)|);
            var outcome := Append(c, file, inputs, fault).outcome;
            && (outcome.Ok? <==> inputs == [] || (Writable(c, batch) && fault == NoFault))
            && (outcome.Ok? ==> outcome.value == batch)
            && (outcome == Err(Rejected) <==> inputs != [] && !fault.RepairStops? && !Writable(c, batch))
            && (outcome == Err(Stopped) <==> inputs != [] && (fault.RepairStops? || (Writable(c, batch) && fault != NoFault)))
            && !(outcome.Err? && outcome.error.TailUnreadable?)
  {
    hide Lawful, Holds, Mend, Image, Recovered, Writable;
    MendRecovers(c, file, l);
    assert inputs == [] ==> Number(inputs, |Recovered(c, l)|) == [];
  }

  /** Every input, with the cursor it would take, has a text that decodes. */
  predicate ReadsBack<B>(c: Codec<B>, inputs: seq<B>, head: nat) {
    forall k | 0 <= k < |inputs| :: c.decode(c.encode(Event(head + 1 + k, inputs[k]))).Some?
  }

  lemma WritableMeaning<B>(c: Codec<B>, inputs: seq<B>, head: nat)
    ensures Writable(c, Number(inputs, head)) <==> ReadsBack(c, inputs, head)
  {
    assert forall k | 0 <= k < |inputs| :: Number(inputs, head)[k] == Event(head + 1 + k, inputs[k]);
  }

  datatype Attempt<B> = Attempt(inputs: seq<B>, fault: Fault)

  /** The file after a run that started empty. */
  function FileAfter<B>(c: Codec<B>, run: seq<Attempt<B>>): seq<Byte> {
    if run == [] then []
    else
      var last := run[|run| - 1];
      Append(c, FileAfter(c, run[..|run| - 1]), last.inputs, last.fault).file
  }

  /** The events on record after the run: each attempt adds a prefix of its own batch. */
  function Record<B>(c: Codec<B>, run: seq<Attempt<B>>): seq<Event<B>> {
    if run == [] then []
    else
      var last, before := run[|run| - 1], Record(c, run[..|run| - 1]);
      var batch := Number(last.inputs, |before|);
      var kept := Kept(c, batch, last.fault);
      before + batch[..if kept <= |batch| then kept else |batch|]
  }

  lemma {:induction false} RunHolds<B(!new)>(c: Codec<B>, run: seq<Attempt<B>>) returns (l: Ledger<B>)
    requires Lawful(c)
    ensures Holds(c, FileAfter(c, run), l) && Recovered(c, l) == Record(c, run)
    decreases |run|
  {
    if run == [] {
      l := Ledger([], [], None);
    } else {
      var last := run[|run| - 1];
      var before := RunHolds(c, run[..|run| - 1]);
      l := AppendStep(c, FileAfter(c, run[..|run| - 1]), before, last.inputs, last.fault);
    }
  }

  /**
   Crash recovery. After any run of appends stopped anywhere, the next writer
   finds every event on record, numbered without gap from 1, and the mended
   file reads as exactly those events.
   */
  lemma CrashRecovery<B(!new)>(c: Codec<B>, run: seq<Attempt<B>>)
    requires Lawful(c)
    ensures var events := Record(c, run);
            && Mend(c, FileAfter(c, run)) == Ok(Mended(|events|, Image(c, events)))
            && Parse(c, Image(c, events)) == Ok(events)
            && Numbered(events)
  {
    var l := RunHolds(c, run);
    MendRecovers(c, FileAfter(c, run), l);
    ImageOfNumbered(c, Recovered(c, l));
  }

  /**
   Over every run, whatever stopped the appends before: an attempt reports success
   exactly when it was given nothing to write, or nothing stopped it and each of its
   records, numbered after those on record, can be read back; and then it reports these.
   */
  lemma {:induction false} RunReports<B(!new)>(c: Codec<B>, run: seq<Attempt<B>>, i: nat)
    requires Lawful(c) && i < |run|
    ensures var inputs, head := run[i].inputs, |Record(c, run[..i])|;
            var batch := Number(inputs, head);
            var outcome := Append(c, FileAfter(c, run[..i]), inputs, run[i].fault).outcome;
            && (outcome.Ok? <==> inputs == [] || (run[i].fault == NoFault && ReadsBack(c, inputs, head)))
            && (outcome.Ok? ==> outcome.value == batch && Record(c, run[..i + 1]) == Record(c, run[..i]) + batch)
            && (outcome == Err(Rejected) ==> Record(c, run[..i + 1]) == Record(c, run[..i]))
            && !(outcome.Err? && outcome.error.TailUnreadable?)
  {
    hide Lawful, Holds, Append, Image, Recovered, Writable, ReadsBack;
    var l := RunHolds(c, run[..i]);
    WritableMeaning(c, run[i].inputs, |Record(c, run[..i])|);
    AppendReports(c, FileAfter(c, run[..i]), l, run[i].inputs, run[i].fault);
    ReportedAppendIsDurable(c, run, i);
    assert run[..i + 1][..i] == run[..i];
  }

  /** An append that reports success is on record from then on, whatever happens later. */
  lemma {:induction false} ReportedAppendIsDurable<B(!new)>(c: Codec<B>, run: seq<Attempt<B>>, i: nat)
    requires Lawful(c) && i < |run|
    ensures Record(c, run[..i]) <= Record(c, run[..i + 1]) <= Record(c, run)
    ensures var r := Append(c, FileAfter(c, run[..i]), run[i].inputs, run[i].fault);
            r.outcome.Ok? ==> Record(c, run[..i + 1]) == Record(c, run[..i]) + r.outcome.value
    decreases |run|
  {
    hide Lawful, Holds, Mend, Image;
    if i + 1 == |run| {
      assert run[..i + 1] == run;
      var l := RunHolds(c, run[..i]);
      MendRecovers(c, FileAfter(c, run[..i]), l);
      var batch := Number(run[i].inputs, |Record(c, run[..i])|);
      assert batch[..|batch|] == batch;
    } else {
      var front := run[..|run| - 1];
      ReportedAppendIsDurable(c, front, i);
      assert front[..i] == run[..i] && front[..i + 1] == run[..i + 1];
    }
  }
}
