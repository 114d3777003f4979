/**
 The text an Alert travels as, its reading back, and the list of recent Alerts
 (src/alert-authority/alerts.ts).
 */
module AlertEnvelope {
  import opened Wrappers
  import opened TeamEvents

  datatype Kind = Clarification | AttentionKind | Announcement

  datatype Alert = Alert(alertId: string, kind: Kind, text: string, taskRef: Option<AlertTaskRef>)

  /** The fixed words of the envelope. */
  datatype Words = Words(open: string, clarification: string, attention: string, announcement: string, alert: string,
                         forTask: string, plain: string, task: string, at: string, trailer: string)

  const WORDS := Words("[PiTeams ", "clarification", "attention", "announcement", " Alert ", " for Task ", " Alert", "Task: ", " @ ",
    "This Alert is exceptional coordination only. It does not assign, advance, block, or complete a Task.")

  /** All that reading back needs of them. */
  predicate GoodWords(w: Words) {
    && 2 <= |w.clarification| && 2 <= |w.attention| && 2 <= |w.announcement|
    && w.clarification[..2] != w.attention[..2] && w.attention[..2] != w.announcement[..2] && w.clarification[..2] != w.announcement[..2]
    && '\n' !in w.open && '\n' !in w.clarification && '\n' !in w.attention && '\n' !in w.announcement && '\n' !in w.alert
    && 2 <= |w.plain| && 2 <= |w.forTask| && w.plain[1] != w.forTask[1]
    && |w.at| == 3 && w.at[0] != '\n'
  }

  lemma {:induction false} WordsAreGood()
    ensures GoodWords(WORDS)
  {
    assert WORDS.clarification[1] == 'l' && WORDS.attention[1] == 't' && WORDS.announcement[1] == 'n';
    assert WORDS.clarification[..2][1] == 'l' && WORDS.attention[..2][1] == 't' && WORDS.announcement[..2][1] == 'n';
  }

  function KindText(w: Words, k: Kind): string {
    match k
    case Clarification => w.clarification
    case AttentionKind => w.attention
    case Announcement => w.announcement
  }

  /** White space and line terminators of ECMAScript: `\s`, and what trim removes. */
  predicate IsSpace(c: char) {
    || '\U{9}' <= c <= '\U{D}' || c == ' ' || c == '\U{A0}' || c == '\U{1680}'
    || '\U{2000}' <= c <= '\U{200A}' || c == '\U{2028}' || c == '\U{2029}' || c == '\U{202F}'
    || c == '\U{205F}' || c == '\U{3000}' || c == '\U{FEFF}'
  }

  predicate Blank(s: string) {
    forall i | 0 <= i < |s| :: IsSpace(s[i])
  }

  /** `alert_[^\s\]]+` */
  predicate IsAlertId(s: string) {
    "alert_" < s && forall i | 6 <= i < |s| :: !IsSpace(s[i]) && s[i] != ']'
  }

  /** `v_[0-9a-f]{16}` */
  predicate IsVersion(s: string) {
    |s| == 18 && s[0] == 'v' && s[1] == '_' && forall i | 2 <= i < 18 :: '0' <= s[i] <= '9' || 'a' <= s[i] <= 'f'
  }

  /** What sendAlert lets through. */
  predicate IsAlert(a: Alert) {
    IsAlertId(a.alertId) && !Blank(a.text) && (a.taskRef.Some? ==> IsTaskRef(a.taskRef.value))
  }

  predicate IsTaskRef(ref: AlertTaskRef) {
    ref.taskId != "" && (ref.version.Some? ==> IsVersion(ref.version.value))
  }

  // ---- printing ----

  function Prefix(w: Words, k: Kind): string {
    w.open + KindText(w, k) + w.alert
  }

  function Header(w: Words, a: Alert): string {
    Prefix(w, a.kind) + a.alertId + "]"
  }

  function VersionText(w: Words, ref: AlertTaskRef): string {
    if ref.version.Some? then w.at + ref.version.value else ""
  }

  function TaskLine(w: Words, ref: Option<AlertTaskRef>): string {
    if ref.Some? then w.task + ref.value.taskId + VersionText(w, ref.value) + "\n" else ""
  }

  /** deliveryText */
  function Print(w: Words, a: Alert): string {
    Header(w, a) + "\n" + TaskLine(w, a.taskRef) + a.text + "\n" + w.trailer
  }

  function SummaryPrefix(w: Words, k: Kind): string {
    KindText(w, k) + w.forTask
  }

  /** deliverySummary */
  function SummaryOf(w: Words, kind: Kind, ref: Option<AlertTaskRef>): string {
    if ref.Some? then SummaryPrefix(w, kind) + ref.value.taskId else KindText(w, kind) + w.plain
  }

  function Summary(w: Words, a: Alert): string {
    SummaryOf(w, a.kind, a.taskRef)
  }

  // ---- reading ----

  function IndexOf(s: string, c: char): (r: Option<nat>)
    ensures r.Some? ==> r.value < |s| && s[r.value] == c && c !in s[..r.value]
    ensures r.None? ==> c !in s
  {
    if s == "" then None
    else if s[0] == c then Some(0)
    else
      var rest := IndexOf(s[1..], c);
      if rest.Some? then
        assert s[..rest.value + 1] == [s[0]] + s[1..][..rest.value];
        Some(rest.value + 1)
      else None
  }

  predicate StartsAt(s: string, part: string, at: nat) {
    at + |part| <= |s| && s[at..at + |part|] == part
  }

  /** String.slice: an empty range where the start is past the end. */
  function Slice(s: string, from: nat, to: nat): string
    requires to <= |s|
  {
    if from <= to then s[from..to] else ""
  }

  function ReadHeaderAs(w: Words, line: string, k: Kind): Option<string> {
    var prefix := Prefix(w, k);
    if !StartsAt(line, prefix, 0) || |line| < |prefix| + 1 || line[|line| - 1] != ']' then None
    else
      var id := line[|prefix|..|line| - 1];
      if IsAlertId(id) then Some(id) else None
  }

  /** The regular expression of the header line; the three kinds exclude each other. */
  function ReadHeader(w: Words, line: string): Option<(Kind, string)> {
    if ReadHeaderAs(w, line, Clarification).Some? then Some((Clarification, ReadHeaderAs(w, line, Clarification).value))
    else if ReadHeaderAs(w, line, AttentionKind).Some? then Some((AttentionKind, ReadHeaderAs(w, line, AttentionKind).value))
    else if ReadHeaderAs(w, line, Announcement).Some? then Some((Announcement, ReadHeaderAs(w, line, Announcement).value))
    else None
  }

  /** `^ @ (v_[0-9a-f]{16})\n` */
  function ReadVersion(w: Words, suffix: string): Option<string> {
    var n := |w.at|;
    if n + 19 <= |suffix| && StartsAt(suffix, w.at, 0) && IsVersion(suffix[n..n + 18]) && suffix[n + 18] == '\n'
    then Some(suffix[n..n + 18]) else None
  }

  predicate EndsWith(s: string, part: string) {
    |part| <= |s| && s[|s| - |part|..] == part
  }

  /** The Task reference at the start of the body, where the summary names the Task, and where the text begins. */
  function ReadTask(w: Words, value: string, summary: Option<string>, kind: Kind, bodyStart: nat, bodyEnd: nat): (Option<AlertTaskRef>, nat)
    requires bodyEnd <= |value|
  {
    var named := SummaryPrefix(w, kind);
    if summary.None? || !StartsAt(summary.value, named, 0) then (None, bodyStart)
    else
      var taskId := summary.value[|named|..];
      var marker := w.task + taskId;
      if taskId == "" || !StartsAt(value, marker, bodyStart) then (None, bodyStart)
      else
        var rest := bodyStart + |marker|;
        var version := ReadVersion(w, Slice(value, rest, bodyEnd));
        if version.Some? then (Some(AlertTaskRef(taskId, version)), rest + |w.at| + 19)
        else if StartsAt(value, "\n", rest) then (Some(AlertTaskRef(taskId, None)), rest + 1)
        else (None, bodyStart)
  }

  function Read(w: Words, value: string, summary: Option<string>): Option<Alert> {
    var headerEnd := IndexOf(value, '\n');
    var header := ReadHeader(w, if headerEnd.Some? then value[..headerEnd.value] else value);
    if header.None? || !EndsWith(value, "\n" + w.trailer) then None
    else
      ReadBody(w, value, summary, header.value.0, header.value.1, if headerEnd.Some? then headerEnd.value + 1 else |value|)
  }

  /** What follows the header line, up to the trailer. */
  function ReadBody(w: Words, value: string, summary: Option<string>, kind: Kind, alertId: string, bodyStart: nat): Option<Alert>
    requires |w.trailer| + 1 <= |value|
  {
    var bodyEnd := |value| - |w.trailer| - 1;
    var (ref, textStart) := ReadTask(w, value, summary, kind, bodyStart, bodyEnd);
    var text := Slice(value, textStart, bodyEnd);
    if Blank(text) then None else Some(Alert(alertId, kind, text, ref))
  }

  /** parseAlertDeliveryText, with the variables it updates on the way. */
  method ParseAlertDeliveryText(w: Words, value: string, summary: Option<string>) returns (r: Option<Alert>)
    ensures r == Read(w, value, summary)
  {
    var headerEnd := IndexOf(value, '\n');
    var headerLine := if headerEnd.Some? then value[..headerEnd.value] else value;
    var header := ReadHeader(w, headerLine);
    if header.None? || !EndsWith(value, "\n" + w.trailer) {
      return None;
    }
    r := ParseBody(w, value, summary, header.value.0, header.value.1, if headerEnd.Some? then headerEnd.value + 1 else |value|);
  }

  method ParseBody(w: Words, value: string, summary: Option<string>, kind: Kind, alertId: string, bodyStart: nat) returns (r: Option<Alert>)
    requires |w.trailer| + 1 <= |value|
    ensures r == ReadBody(w, value, summary, kind, alertId, bodyStart)
  {
    var bodyEnd := |value| - |w.trailer| - 1;
    var taskRef, textStart := FindTask(w, value, summary, kind, bodyStart, bodyEnd);
    var text := Slice(value, textStart, bodyEnd);
    if Blank(text) {
      return None;
    }
    r := Some(Alert(alertId, kind, text, taskRef));
  }

  /** The part of parseAlertDeliveryText that moves the start of the text past a Task line. */
  method FindTask(w: Words, value: string, summary: Option<string>, kind: Kind, bodyStart: nat, bodyEnd: nat)
      returns (taskRef: Option<AlertTaskRef>, textStart: nat)
    requires bodyEnd <= |value|
    ensures (taskRef, textStart) == ReadTask(w, value, summary, kind, bodyStart, bodyEnd)
  {
    hide ReadVersion, Slice;
    textStart := bodyStart;
    taskRef := None;
    var named := SummaryPrefix(w, kind);
    if summary.Some? && StartsAt(summary.value, named, 0) {
      var taskId := summary.value[|named|..];
      var marker := w.task + taskId;
      if taskId != "" && StartsAt(value, marker, bodyStart) {
        var remainderStart := bodyStart + |marker|;
        var version := ReadVersion(w, Slice(value, remainderStart, bodyEnd));
        if version.Some? {
          taskRef := Some(AlertTaskRef(taskId, version));
          textStart := remainderStart + |w.at| + 19;
        } else if StartsAt(value, "\n", remainderStart) {
          taskRef := Some(AlertTaskRef(taskId, None));
          textStart := remainderStart + 1;
        }
      }
    }
  }

  // ---- the two directions ----

  lemma {:induction false} OtherKindsRefuse(w: Words, a: Alert, k: Kind)
    requires GoodWords(w) && k != a.kind
    ensures ReadHeaderAs(w, Header(w, a), k).None?
  {
    var mine, other := KindText(w, a.kind), KindText(w, k);
    var n := |w.open|;
    var i := FirstDifference(mine, other);
    assert Prefix(w, k)[n + i] == other[i] && Header(w, a)[n + i] == mine[i];
    DifferentStart(Header(w, a), Prefix(w, k), n + i);
  }

  lemma {:induction false} FirstDifference(a: string, b: string) returns (i: nat)
    requires 2 <= |a| && 2 <= |b| && a[..2] != b[..2]
    ensures i < 2 && a[i] != b[i]
  {
    i := if a[0] != b[0] then 0 else 1;
    assert a[..2] == [a[0], a[1]] && b[..2] == [b[0], b[1]];
  }

  lemma {:induction false} DifferentStart(s: string, part: string, i: nat)
    requires i < |s| && i < |part| && s[i] != part[i]
    ensures !StartsAt(s, part, 0)
  {
    assert |part| <= |s| ==> s[..|part|][i] == s[i];
  }

  lemma {:induction false} HeaderReadsBack(w: Words, a: Alert)
    requires GoodWords(w) && IsAlertId(a.alertId)
    ensures ReadHeader(w, Header(w, a)) == Some((a.kind, a.alertId))
    ensures '\n' !in Header(w, a)
  {
    var line := Header(w, a);
    assert line[|Prefix(w, a.kind)|..|line| - 1] == a.alertId;
    assert line[..|Prefix(w, a.kind)|] == Prefix(w, a.kind);
    forall k | k != a.kind {
      OtherKindsRefuse(w, a, k);
    }
    IdHasNoNewline(a.alertId);
  }

  lemma {:induction false} IdHasNoNewline(id: string)
    requires IsAlertId(id)
    ensures '\n' !in id
  {
    assert id[..6] == "alert_";
    assert forall i | 0 <= i < 6 :: id[i] == "alert_"[i];
  }

  lemma {:induction false} FirstNewline(front: string, back: string)
    requires '\n' !in front
    ensures IndexOf(front + "\n" + back, '\n') == Some(|front|)
  {
    var value := front + "\n" + back;
    assert value[|front|] == '\n';
    var i := IndexOf(value, '\n').value;
    assert forall k | 0 <= k < |front| :: value[k] == front[k];
    assert forall k | 0 <= k < i :: value[k] == value[..i][k];
  }

  lemma {:induction false} AlertReadsBack(w: Words, a: Alert)
    requires GoodWords(w) && IsAlert(a)
    ensures Read(w, Print(w, a), Some(Summary(w, a))) == Some(a)
  {
    hide Read, ReadHeader, ReadTask, Header, TaskLine;
    var value, h, line := Print(w, a), Header(w, a), TaskLine(w, a.taskRef);
    HeaderReadsBack(w, a);
    PiecesOf(h, line, a.text, w.trailer);
    TaskReadsBack(w, a.kind, a.taskRef, a.text, value, |h| + 1, |value| - |w.trailer| - 1);
    PiecesReadBack(w, a, value, Some(Summary(w, a)), |h|, |h| + 1 + |line|);
  }

  lemma {:induction false} PiecesReadBack(w: Words, a: Alert, value: string, summary: Option<string>, headerEnd: nat, textStart: nat)
    requires IndexOf(value, '\n') == Some(headerEnd) && ReadHeader(w, value[..headerEnd]) == Some((a.kind, a.alertId))
    requires EndsWith(value, "\n" + w.trailer)
    requires ReadTask(w, value, summary, a.kind, headerEnd + 1, |value| - |w.trailer| - 1) == (a.taskRef, textStart)
    requires Slice(value, textStart, |value| - |w.trailer| - 1) == a.text && !Blank(a.text)
    ensures Read(w, value, summary) == Some(a)
  {
    hide IndexOf, ReadHeader, ReadTask, Blank, Slice;
  }

  /** Where the pieces of a printed Alert lie. */
  lemma {:induction false} PiecesOf(h: string, line: string, text: string, trailer: string)
    requires '\n' !in h
    ensures var value := h + "\n" + line + text + "\n" + trailer;
            var bodyStart, bodyEnd := |h| + 1, |value| - |trailer| - 1;
            && IndexOf(value, '\n') == Some(|h|) && value[..|h|] == h && bodyStart + |line| <= bodyEnd
            && value[bodyEnd..] == "\n" + trailer && value[bodyStart..bodyEnd] == line + text
            && Slice(value, bodyStart + |line|, bodyEnd) == text && EndsWith(value, "\n" + trailer)
  {
    var back := line + text + "\n" + trailer;
    var value := h + "\n" + line + text + "\n" + trailer;
    var bodyStart, bodyEnd := |h| + 1, |value| - |trailer| - 1;
    assert value == h + "\n" + back by {
      assert h + "\n" + line + text + "\n" + trailer == h + "\n" + (line + text + "\n" + trailer);
    }
    FirstNewline(h, back);
    assert value[bodyEnd..] == "\n" + trailer;
    assert value[bodyStart..bodyEnd] == line + text;
    assert value[bodyStart + |line|..bodyEnd] == text;
  }

  lemma {:induction false} TaskReadsBack(w: Words, kind: Kind, ref: Option<AlertTaskRef>, text: string, value: string, bodyStart: nat, bodyEnd: nat)
    requires GoodWords(w) && (ref.Some? ==> IsTaskRef(ref.value)) && bodyStart <= bodyEnd <= |value|
    requires value[bodyStart..bodyEnd] == TaskLine(w, ref) + text
    ensures ReadTask(w, value, Some(SummaryOf(w, kind, ref)), kind, bodyStart, bodyEnd) == (ref, bodyStart + |TaskLine(w, ref)|)
  {
    hide ReadTask, ReadVersion, VersionText, Slice;
    if ref.None? {
      UnnamedTask(w, kind, value, bodyStart, bodyEnd);
    } else {
      var summary, named := SummaryOf(w, kind, ref), SummaryPrefix(w, kind);
      assert summary[..|named|] == named && summary[|named|..] == ref.value.taskId;
      TaskLineReadsBack(w, ref.value, text, value, bodyStart, bodyEnd);
      VersionReadsBack(w, ref.value, text);
      NamedTask(w, kind, ref.value, text, value, summary, bodyStart, bodyEnd);
    }
  }

  lemma {:induction false} UnnamedTask(w: Words, kind: Kind, value: string, bodyStart: nat, bodyEnd: nat)
    requires GoodWords(w) && bodyEnd <= |value|
    ensures ReadTask(w, value, Some(SummaryOf(w, kind, None)), kind, bodyStart, bodyEnd) == (None, bodyStart)
  {
    var summary, named := SummaryOf(w, kind, None), SummaryPrefix(w, kind);
    var n := |KindText(w, kind)|;
    assert summary[n + 1] == w.plain[1] && named[n + 1] == w.forTask[1];
    DifferentStart(summary, named, n + 1);
  }

  lemma {:induction false} NamedTask(w: Words, kind: Kind, ref: AlertTaskRef, text: string, value: string, summary: string, bodyStart: nat, bodyEnd: nat)
    requires |w.at| == 3 && ref.taskId != "" && bodyStart <= bodyEnd <= |value|
    requires StartsAt(summary, SummaryPrefix(w, kind), 0) && summary[|SummaryPrefix(w, kind)|..] == ref.taskId
    requires StartsAt(value, w.task + ref.taskId, bodyStart)
    requires var tail := Slice(value, bodyStart + |w.task + ref.taskId|, bodyEnd); ReadVersion(w, tail) == ref.version
    requires ref.version.None? ==> StartsAt(value, "\n", bodyStart + |w.task + ref.taskId|)
    ensures ReadTask(w, value, Some(summary), kind, bodyStart, bodyEnd) == (Some(ref), bodyStart + |TaskLine(w, Some(ref))|)
  {
    if ref.version.Some? {
      assert |ref.version.value| == 18;
    }
  }

  lemma {:induction false} TaskLineReadsBack(w: Words, ref: AlertTaskRef, text: string, value: string, bodyStart: nat, bodyEnd: nat)
    requires bodyStart <= bodyEnd <= |value|
    requires value[bodyStart..bodyEnd] == TaskLine(w, Some(ref)) + text
    ensures var marker, tail := w.task + ref.taskId, VersionText(w, ref) + "\n" + text;
            var rest := bodyStart + |marker|;
            && StartsAt(value, marker, bodyStart) && rest < bodyEnd && Slice(value, rest, bodyEnd) == tail
            && (tail[0] == '\n' ==> StartsAt(value, "\n", rest))
  {
    var marker, tail := w.task + ref.taskId, VersionText(w, ref) + "\n" + text;
    var rest := bodyStart + |marker|;
    assert value[bodyStart..bodyEnd] == marker + tail;
    assert value[bodyStart..rest] == value[bodyStart..bodyEnd][..|marker|];
    assert value[rest..bodyEnd] == value[bodyStart..bodyEnd][|marker|..];
    assert value[rest] == value[rest..bodyEnd][0];
    assert value[rest..rest + 1] == [value[rest]];
  }

  lemma {:induction false} VersionReadsBack(w: Words, ref: AlertTaskRef, text: string)
    requires GoodWords(w) && (ref.version.Some? ==> IsVersion(ref.version.value))
    ensures var tail := VersionText(w, ref) + "\n" + text;
            ReadVersion(w, tail) == ref.version && (ref.version.None? ==> tail[0] == '\n')
  {
    var tail := VersionText(w, ref) + "\n" + text;
    if ref.version.Some? {
      assert tail[..3] == w.at && tail[3..21] == ref.version.value && tail[21] == '\n';
    } else {
      assert tail[0] == '\n';
      DifferentStart(tail, w.at, 0);
    }
  }

  lemma {:induction false} AlertPrintsBack(w: Words, value: string, summary: Option<string>)
    requires Read(w, value, summary).Some?
    ensures Print(w, Read(w, value, summary).value) == value
  {
    hide Read, ReadBody, ReadHeader, ReadTask, Header, TaskLine, IndexOf;
    var a := Read(w, value, summary).value;
    var headerEnd, textStart := ReadParts(w, value, summary);
    var bodyEnd := |value| - |w.trailer| - 1;
    HeaderPrintsBack(w, value[..headerEnd], a);
    TaskPrintsBack(w, value, summary, a.kind, headerEnd + 1, bodyEnd);
    FivePieces(value, headerEnd, textStart, bodyEnd, w.trailer);
  }

  lemma {:induction false} ReadParts(w: Words, value: string, summary: Option<string>) returns (headerEnd: nat, textStart: nat)
    requires Read(w, value, summary).Some?
    ensures var a, bodyEnd := Read(w, value, summary).value, |value| - |w.trailer| - 1;
            && headerEnd + 1 <= textStart <= bodyEnd && value[headerEnd] == '\n' && value[bodyEnd..] == "\n" + w.trailer
            && ReadHeader(w, value[..headerEnd]) == Some((a.kind, a.alertId))
            && ReadTask(w, value, summary, a.kind, headerEnd + 1, bodyEnd) == (a.taskRef, textStart)
            && a.text == value[textStart..bodyEnd]
  {
    hide ReadHeader, ReadTask, Blank, IndexOf;
    var a, end := Read(w, value, summary).value, IndexOf(value, '\n');
    var bodyStart, bodyEnd := if end.Some? then end.value + 1 else |value|, |value| - |w.trailer| - 1;
    TaskStartsInBody(w, value, summary, a.kind, bodyStart, bodyEnd);
    BodyParts(w, value, summary, a.kind, a.alertId, bodyStart);
    headerEnd, textStart := end.value, ReadTask(w, value, summary, a.kind, bodyStart, bodyEnd).1;
  }

  lemma {:induction false} BodyParts(w: Words, value: string, summary: Option<string>, kind: Kind, alertId: string, bodyStart: nat)
    requires |w.trailer| + 1 <= |value|
    requires ReadBody(w, value, summary, kind, alertId, bodyStart).Some?
    ensures var a, bodyEnd := ReadBody(w, value, summary, kind, alertId, bodyStart).value, |value| - |w.trailer| - 1;
            var (ref, textStart) := ReadTask(w, value, summary, kind, bodyStart, bodyEnd);
            && a.kind == kind && a.alertId == alertId && a.taskRef == ref
            && textStart < bodyEnd && a.text == value[textStart..bodyEnd]
  {
    hide ReadTask;
    var bodyEnd := |value| - |w.trailer| - 1;
    var (ref, textStart) := ReadTask(w, value, summary, kind, bodyStart, bodyEnd);
    assert Slice(value, textStart, bodyEnd) != "";
  }

  lemma {:induction false} FivePieces(value: string, headerEnd: nat, textStart: nat, bodyEnd: nat, trailer: string)
    requires headerEnd + 1 <= textStart <= bodyEnd <= |value| && value[headerEnd] == '\n' && value[bodyEnd..] == "\n" + trailer
    ensures value == value[..headerEnd] + "\n" + value[headerEnd + 1..textStart] + value[textStart..bodyEnd] + "\n" + trailer
  {
    var front := value[..headerEnd] + "\n" + value[headerEnd + 1..textStart] + value[textStart..bodyEnd];
    assert front == value[..bodyEnd];
    assert front + "\n" + trailer == front + ("\n" + trailer);
  }

  lemma {:induction false} HeaderPrintsBack(w: Words, line: string, a: Alert)
    requires ReadHeader(w, line) == Some((a.kind, a.alertId))
    ensures Header(w, a) == line
  {
    var prefix := Prefix(w, a.kind);
    assert line == line[..|prefix|] + line[|prefix|..|line| - 1] + line[|line| - 1..];
  }

  lemma {:induction false} TaskStartsInBody(w: Words, value: string, summary: Option<string>, kind: Kind, bodyStart: nat, bodyEnd: nat)
    requires bodyEnd <= |value|
    ensures bodyStart <= ReadTask(w, value, summary, kind, bodyStart, bodyEnd).1
  {
  }

  lemma {:induction false} TaskPrintsBack(w: Words, value: string, summary: Option<string>, kind: Kind, bodyStart: nat, bodyEnd: nat)
    requires bodyStart <= bodyEnd <= |value|
    requires bodyStart <= ReadTask(w, value, summary, kind, bodyStart, bodyEnd).1 <= bodyEnd
    ensures var (ref, textStart) := ReadTask(w, value, summary, kind, bodyStart, bodyEnd);
            TaskLine(w, ref) == value[bodyStart..textStart]
  {
    hide ReadVersion, SummaryPrefix, IsVersion;
    var (ref, textStart) := ReadTask(w, value, summary, kind, bodyStart, bodyEnd);
    if ref.Some? {
      var marker := w.task + ref.value.taskId;
      var rest := bodyStart + |marker|;
      assert value[bodyStart..rest] == marker;
      assert value[bodyStart..textStart] == value[bodyStart..rest] + value[rest..textStart];
      if ref.value.version.Some? {
        VersionPrintsBack(w, Slice(value, rest, bodyEnd));
        assert value[rest..textStart] == Slice(value, rest, bodyEnd)[..|w.at| + 19];
      }
    }
  }

  lemma {:induction false} VersionPrintsBack(w: Words, suffix: string)
    requires ReadVersion(w, suffix).Some?
    ensures suffix[..|w.at| + 19] == w.at + ReadVersion(w, suffix).value + "\n"
  {
    var n := |w.at|;
    assert suffix[..n + 19] == suffix[0..n] + suffix[n..n + 18] + [suffix[n + 18]];
  }

  /** Every Alert reads back as it was printed, whatever its text or Task id imitate. */
  lemma {:induction false} PrintedAlertReadsBack(a: Alert)
    requires IsAlert(a)
    ensures Read(WORDS, Print(WORDS, a), Some(Summary(WORDS, a))) == Some(a)
  {
    WordsAreGood();
    AlertReadsBack(WORDS, a);
  }

  /** Whatever reads as an Alert prints back to the same text. */
  lemma {:induction false} ReadAlertPrintsBack(value: string, summary: Option<string>)
    requires Read(WORDS, value, summary).Some?
    ensures Print(WORDS, Read(WORDS, value, summary).value) == value
  {
    AlertPrintsBack(WORDS, value, summary);
  }

  // ---- recent Alerts ----

  /** A stored row of this Membership that has an id. */
  datatype Stored = Stored(sender: Option<string>, timestamp: Option<string>, text: Option<string>, summary: Option<string>)

  const PREVIEW: nat := 2000

  datatype Received = Received(alert: Alert, sender: string, receivedAt: string, text: string, textLength: Option<nat>)

  function ReceivedFrom(w: Words, m: Stored): Option<Received> {
    if m.sender.None? || m.timestamp.None? || m.text.None? then None
    else
      var a := Read(w, m.text.value, m.summary);
      if a.None? then None
      else
        var text := a.value.text;
        Some(Received(a.value, m.sender.value, m.timestamp.value, if PREVIEW < |text| then text[..PREVIEW] else text,
                      if PREVIEW < |text| then Some(|text|) else None))
  }

  /** Newest first: inbox order read from the end. */
  function NewestFirst(w: Words, inbox: seq<Stored>): seq<Received> {
    if inbox == [] then []
    else
      var last := ReceivedFrom(w, inbox[|inbox| - 1]);
      (if last.Some? then [last.value] else []) + NewestFirst(w, inbox[..|inbox| - 1])
  }

  datatype Recent = Recent(alerts: seq<Received>, omitted: nat)

  /** readRecentReceivedAlerts: filter in order, reverse, cut. */
  method ReadRecent(w: Words, inbox: seq<Stored>, limit: nat) returns (r: Recent)
    ensures var all := NewestFirst(w, inbox);
            r == if |all| <= limit then Recent(all, 0) else Recent(all[..limit], |all| - limit)
  {
    var eligible := [];
    for i := 0 to |inbox|
      invariant eligible == NewestFirst(w, inbox[..i])
    {
      assert inbox[..i + 1][..i] == inbox[..i];
      var received := ReceivedFrom(w, inbox[i]);
      if received.Some? {
        eligible := [received.value] + eligible;
      }
    }
    assert inbox[..|inbox|] == inbox;
    r := if |eligible| <= limit then Recent(eligible, 0) else Recent(eligible[..limit], |eligible| - limit);
  }

  /** An Alert delivered now is the first one listed, and nothing before it is lost from the count. */
  lemma {:induction false} DeliveredAlertIsNewest(w: Words, inbox: seq<Stored>, a: Alert, sender: string, at: string)
    requires GoodWords(w) && IsAlert(a)
    ensures var grown := NewestFirst(w, inbox + [Stored(Some(sender), Some(at), Some(Print(w, a)), Some(Summary(w, a)))]);
            && |grown| == |NewestFirst(w, inbox)| + 1 && grown[1..] == NewestFirst(w, inbox)
            && grown[0].alert == a && grown[0].sender == sender
            && (if |a.text| <= PREVIEW then grown[0].text == a.text && grown[0].textLength.None?
                else grown[0].text == a.text[..PREVIEW] && grown[0].textLength == Some(|a.text|))
  {
    AlertReadsBack(w, a);
    var m := Stored(Some(sender), Some(at), Some(Print(w, a)), Some(Summary(w, a)));
    assert (inbox + [m])[..|inbox|] == inbox;
  }
}
