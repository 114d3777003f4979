/**
 Reading the journal in bounded pages, and the bounded pages of a snapshot
 (readTeamEvents, readTeamEventPages, pageTeamCurrentProjection).
 */
module JournalPages {
  import opened Wrappers
  import opened JournalText
  import opened TeamEvents

  const DEFAULT_LIMIT: nat := 50
  const MAX_LIMIT: nat := 100

  datatype Filter = Filter(types: Option<set<EventType>>, taskIds: Option<set<string>>)

  const NO_FILTER := Filter(None, None)

  predicate Matches(e: TeamEvent, f: Filter) {
    && (f.types.Some? ==> TypeOf(e) in f.types.value)
    && (f.taskIds.Some? ==>
          match e.body
          case TaskBody(_, taskId, _, _, _, _) => taskId in f.taskIds.value
          case AlertBody(_, _, _, _, ref, _, _) => ref.Some? && ref.value.taskId in f.taskIds.value
          case WorkerBody(_, _, _, _, _) => false)
  }

  datatype Batch = Batch(cursor: nat, head: nat, events: seq<TeamEvent>, truncated: bool, remaining: nat)

  datatype ReadError = CursorAhead(requested: nat, head: nat) | BadLimit

  function ValidLimit(limit: Option<int>): Result<nat, ReadError> {
    var n := limit.GetOr(DEFAULT_LIMIT);
    if n < 1 || MAX_LIMIT < n then Err(BadLimit) else Ok(n)
  }

  /** The matching events with a cursor above `low` and at most `high`, in journal order. */
  function Window(events: seq<TeamEvent>, low: nat, high: nat, f: Filter): seq<TeamEvent> {
    if events == [] then []
    else
      var rest := Window(events[1..], low, high, f);
      if low < events[0].cursor <= high && Matches(events[0], f) then [events[0]] + rest else rest
  }

  /** What passes a filter, record by record: its type is asked for, and so is the Task it names. */
  lemma FilterDecides(e: TeamEvent, types: set<EventType>, taskIds: set<string>)
    ensures Matches(e, NO_FILTER)
    ensures Matches(e, Filter(Some(types), None)) <==> (e.body.TaskBody? && TaskType in types) || (e.body.WorkerBody? && WorkerType in types)
                                                       || (e.body.AlertBody? && AlertType in types)
    ensures Matches(e, Filter(None, Some(taskIds))) <==> (e.body.TaskBody? && e.body.taskId in taskIds)
                                                         || (e.body.AlertBody? && e.body.taskRef.Some? && e.body.taskRef.value.taskId in taskIds)
    ensures Matches(e, Filter(Some(types), Some(taskIds)))
            <==> Matches(e, Filter(Some(types), None)) && Matches(e, Filter(None, Some(taskIds)))
  {
  }

  function ReadEvents(journal: seq<TeamEvent>, after: nat, f: Filter, limit: Option<int>): Result<Batch, ReadError> {
    var head := LastCursor(journal);
    if head < after then Err(CursorAhead(after, head))
    else if ValidLimit(limit).Err? then Err(BadLimit)
    else
      var unseen, n := Window(journal, after, head, f), ValidLimit(limit).value;
      if n < |unseen| then Ok(Batch(unseen[n - 1].cursor, head, unseen[..n], true, |unseen| - n))
      else Ok(Batch(head, head, unseen, false, 0))
  }

  // ---- windows ----

  lemma {:induction false} WindowConcat(a: seq<TeamEvent>, b: seq<TeamEvent>, low: nat, high: nat, f: Filter)
    ensures Window(a + b, low, high, f) == Window(a, low, high, f) + Window(b, low, high, f)
    decreases |a|
  {
    if a == [] {
      assert a + b == b;
    } else {
      assert (a + b)[1..] == a[1..] + b;
      WindowConcat(a[1..], b, low, high, f);
    }
  }

  lemma {:induction false} WindowAbove(events: seq<TeamEvent>, floor: nat, low: nat, high: nat, f: Filter)
    requires Increasing(events, floor) && high <= floor
    ensures Window(events, low, high, f) == []
  {
    if events != [] {
      IncreasingFromHead(events, floor);
      WindowAbove(events[1..], events[0].cursor, low, high, f);
    }
  }

  /** Two windows side by side make the whole window. */
  lemma {:induction false} WindowSplit(events: seq<TeamEvent>, floor: nat, low: nat, mid: nat, high: nat, f: Filter)
    requires Increasing(events, floor) && low <= mid <= high
    ensures Window(events, low, high, f) == Window(events, low, mid, f) + Window(events, mid, high, f)
  {
    if events != [] {
      IncreasingFromHead(events, floor);
      WindowSplit(events[1..], events[0].cursor, low, mid, high, f);
      if mid < events[0].cursor {
        WindowAbove(events[1..], events[0].cursor, low, mid, f);
      }
    }
  }

  /** Appends never change a window below the head. */
  lemma WindowStable(events: seq<TeamEvent>, grown: seq<TeamEvent>, low: nat, high: nat, f: Filter)
    requires events <= grown && Increasing(grown, 0) && high <= LastCursor(events)
    ensures Window(grown, low, high, f) == Window(events, low, high, f)
  {
    var more := grown[|events|..];
    assert grown == events + more;
    WindowConcat(events, more, low, high, f);
    assert Increasing(more, LastCursor(events));
    WindowAbove(more, LastCursor(events), low, high, f);
  }

  /** A window is ordered, inside its bounds, and holds exactly the matching events there. */
  lemma {:induction false} WindowMeaning(events: seq<TeamEvent>, floor: nat, low: nat, high: nat, f: Filter)
    requires Increasing(events, floor)
    ensures var w := Window(events, low, high, f);
            && Increasing(w, if low < floor then floor else low)
            && (forall e :: e in w <==> e in events && low < e.cursor <= high && Matches(e, f))
  {
    if events != [] {
      hide Matches;
      IncreasingFromHead(events, floor);
      WindowMeaning(events[1..], events[0].cursor, low, high, f);
      assert events == [events[0]] + events[1..];
      var w, rest := Window(events, low, high, f), Window(events[1..], low, high, f);
      if low < events[0].cursor <= high && Matches(events[0], f) {
        assert w[1..] == rest;
        IncreasingFromHead(w, if low < floor then floor else low);
      }
    }
  }

  /** The first k events of a window are the window up to the k-th cursor. */
  lemma {:induction false} WindowPrefix(events: seq<TeamEvent>, floor: nat, low: nat, high: nat, f: Filter, k: nat)
    requires Increasing(events, floor)
    requires 0 < k <= |Window(events, low, high, f)|
    ensures var w := Window(events, low, high, f);
            low < w[k - 1].cursor <= high && Window(events, low, w[k - 1].cursor, f) == w[..k]
  {
    var w := Window(events, low, high, f);
    IncreasingFromHead(events, floor);
    var rest := Window(events[1..], low, high, f);
    if low < events[0].cursor <= high && Matches(events[0], f) {
      assert w == [events[0]] + rest;
      if k == 1 {
        WindowAbove(events[1..], events[0].cursor, low, events[0].cursor, f);
      } else {
        WindowPrefix(events[1..], events[0].cursor, low, high, f, k - 1);
        WindowMeaning(events[1..], events[0].cursor, low, high, f);
        var cursor := rest[k - 2].cursor;
        assert w[k - 1] == rest[k - 2] && rest[k - 2] in events[1..];
        assert Window(events, low, cursor, f) == [events[0]] + Window(events[1..], low, cursor, f);
        assert w[..k] == [events[0]] + rest[..k - 1];
      }
    } else {
      WindowPrefix(events[1..], events[0].cursor, low, high, f, k);
      WindowMeaning(events[1..], events[0].cursor, low, high, f);
    }
  }

  lemma {:induction false} EmptyWindow(events: seq<TeamEvent>, at: nat, f: Filter)
    ensures Window(events, at, at, f) == []
  {
    if events != [] {
      EmptyWindow(events[1..], at, f);
    }
  }

  // ---- one page ----

  /** A page is the window from the reader's cursor to the page's own cursor, and what it says is left is left. */
  lemma PageIsWindow(journal: seq<TeamEvent>, after: nat, f: Filter, limit: Option<int>)
    requires Increasing(journal, 0)
    ensures var r := ReadEvents(journal, after, f, limit);
            && (r.Ok? <==> after <= LastCursor(journal) && ValidLimit(limit).Ok?)
            && (r.Ok? ==>
                  var page := r.value;
                  && after <= page.cursor <= page.head == LastCursor(journal)
                  && page.events == Window(journal, after, page.cursor, f)
                  && |page.events| <= ValidLimit(limit).value
                  && page.remaining == |Window(journal, page.cursor, page.head, f)|
                  && (page.truncated <==> 0 < page.remaining)
                  && (page.truncated ==> after < page.cursor && |page.events| == ValidLimit(limit).value)
                  && (!page.truncated ==> page.cursor == page.head))
  {
    var head := LastCursor(journal);
    if after <= head && ValidLimit(limit).Ok? {
      var unseen, n := Window(journal, after, head, f), ValidLimit(limit).value;
      if n < |unseen| {
        WindowPrefix(journal, 0, after, head, f, n);
        var cursor := unseen[n - 1].cursor;
        WindowSplit(journal, 0, after, cursor, head, f);
      } else {
        WindowSplit(journal, 0, after, head, head, f);
        EmptyWindow(journal, head, f);
      }
    }
  }

  // ---- following cursors while the journal grows ----

  ghost predicate Growing(journals: seq<seq<TeamEvent>>) {
    && (forall i | 0 <= i < |journals| :: Increasing(journals[i], 0))
    && (forall i, j | 0 <= i < j < |journals| :: journals[i] <= journals[j])
  }

  /** The i-th page is read from the i-th state of the journal, at the cursor of the page before. */
  function Follow(journals: seq<seq<TeamEvent>>, after: nat, f: Filter, limit: Option<int>): Result<seq<Batch>, ReadError> {
    if journals == [] then Ok([])
    else match ReadEvents(journals[0], after, f, limit)
      case Err(e) => Err(e)
      case Ok(page) =>
        match Follow(journals[1..], page.cursor, f, limit)
        case Err(e) => Err(e)
        case Ok(pages) => Ok([page] + pages)
  }

  function AllEvents(pages: seq<Batch>): seq<TeamEvent> {
    if pages == [] then [] else pages[0].events + AllEvents(pages[1..])
  }

  lemma FollowsOn(journals: seq<seq<TeamEvent>>, after: nat, f: Filter, limit: Option<int>)
    requires journals != [] && ReadEvents(journals[0], after, f, limit).Ok?
    ensures var page := ReadEvents(journals[0], after, f, limit).value;
            var rest := Follow(journals[1..], page.cursor, f, limit);
            && (rest.Ok? ==> Follow(journals, after, f, limit) == Ok([page] + rest.value))
            && (journals[1..] == [] ==> rest == Ok([]))
  {
    hide ReadEvents;
  }

  lemma EventsFirst(page: Batch, pages: seq<Batch>)
    ensures AllEvents([page] + pages) == page.events + AllEvents(pages)
    ensures pages == [] ==> AllEvents([page] + pages) == page.events
  {
    assert ([page] + pages)[1..] == pages;
  }

  /** Every matching event after the start, up to the last cursor, exactly once and in order. */
  lemma {:induction false} FollowIsExact(journals: seq<seq<TeamEvent>>, after: nat, f: Filter, limit: Option<int>)
    requires journals != [] && Growing(journals) && after <= LastCursor(journals[0]) && ValidLimit(limit).Ok?
    ensures var r := Follow(journals, after, f, limit);
            && r.Ok? && |r.value| == |journals|
            && var last := r.value[|journals| - 1];
            && after <= last.cursor
            && AllEvents(r.value) == Window(journals[|journals| - 1], after, last.cursor, f)
            && last.remaining == |Window(journals[|journals| - 1], last.cursor, last.head, f)|
            && (!last.truncated ==> last.cursor == LastCursor(journals[|journals| - 1]))
    decreases |journals|
  {
    hide ReadEvents, Window, Increasing, ValidLimit, Matches, AllEvents, Follow;
    PageIsWindow(journals[0], after, f, limit);
    var page := ReadEvents(journals[0], after, f, limit).value;
    var n := |journals|;
    FollowsOn(journals, after, f, limit);
    if n == 1 {
      assert journals[1..] == [];
      EventsFirst(page, []);
    } else {
      HeadsGrow(journals[0], journals[1]);
      assert forall i | 0 <= i < n - 1 :: journals[1..][i] == journals[i + 1];
      FollowIsExact(journals[1..], page.cursor, f, limit);
      var pages := Follow(journals[1..], page.cursor, f, limit).value;
      EventsFirst(page, pages);
      WindowStable(journals[0], journals[n - 1], after, page.cursor, f);
      WindowSplit(journals[n - 1], 0, after, page.cursor, pages[n - 2].cursor, f);
    }
  }

  lemma HeadsGrow(a: seq<TeamEvent>, b: seq<TeamEvent>)
    requires a <= b && Increasing(b, 0)
    ensures LastCursor(a) <= LastCursor(b)
  {
    if a != [] {
      assert a[|a| - 1] == b[|a| - 1];
    }
  }

  // ---- binary search ----

  /** firstEventAfter: the index where the events above `cursor` begin. */
  method FirstEventAfter(events: seq<TeamEvent>, cursor: nat) returns (low: nat)
    requires Increasing(events, 0)
    ensures low <= |events|
    ensures forall i | 0 <= i < low :: events[i].cursor <= cursor
    ensures forall i | low <= i < |events| :: cursor < events[i].cursor
  {
    low := 0;
    var high: nat := |events|;
    while low < high
      invariant low <= high <= |events|
      invariant forall i | 0 <= i < low :: events[i].cursor <= cursor
      invariant forall i | high <= i < |events| :: cursor < events[i].cursor
    {
      var middle := low + (high - low) / 2;
      if events[middle].cursor <= cursor {
        low := middle + 1;
      } else {
        high := middle;
      }
    }
  }

  function Select(events: seq<TeamEvent>, f: Filter): seq<TeamEvent> {
    if events == [] then []
    else if Matches(events[0], f) then [events[0]] + Select(events[1..], f)
    else Select(events[1..], f)
  }

  /** The slice after the search holds what the linear filter over all cursors keeps. */
  lemma {:induction false} SliceIsWindow(events: seq<TeamEvent>, floor: nat, after: nat, start: nat, f: Filter)
    requires Increasing(events, floor) && start <= |events|
    requires forall i | 0 <= i < start :: events[i].cursor <= after
    requires forall i | start <= i < |events| :: after < events[i].cursor
    ensures Select(events[start..], f) == Window(events, after, LastCursor(events), f)
    decreases |events|
  {
    if events != [] {
      IncreasingFromHead(events, floor);
      var rest := events[1..];
      assert forall i | 0 <= i < |rest| :: rest[i] == events[i + 1];
      SliceIsWindow(rest, events[0].cursor, after, if start == 0 then 0 else start - 1, f);
      if rest == [] {
        assert Window(rest, after, LastCursor(events), f) == [];
      }
      if start == 0 {
        assert events[0..] == events && rest[0..] == rest;
      } else {
        assert events[start..] == rest[start - 1..];
      }
    }
  }

  lemma {:induction false} SelectAll(events: seq<TeamEvent>)
    ensures Select(events, NO_FILTER) == events
  {
    if events != [] {
      SelectAll(events[1..]);
    }
  }

  /** The events past the cursor, found by binary search; an absent filter skips the selection. */
  method Unseen(journal: seq<TeamEvent>, after: nat, f: Filter) returns (matching: seq<TeamEvent>)
    requires Increasing(journal, 0) && after <= LastCursor(journal)
    ensures matching == Window(journal, after, LastCursor(journal), f)
  {
    var start := FirstEventAfter(journal, after);
    SliceIsWindow(journal, 0, after, start, f);
    SelectAll(journal[start..]);
    matching := if f == NO_FILTER then journal[start..] else Select(journal[start..], f);
  }

  method ReadTeamEvents(journal: seq<TeamEvent>, after: nat, f: Filter, limit: Option<int>) returns (r: Result<Batch, ReadError>)
    requires Increasing(journal, 0)
    ensures r == ReadEvents(journal, after, f, limit)
  {
    var head := LastCursor(journal);
    if head < after {
      return Err(CursorAhead(after, head));
    }
    var checked := ValidLimit(limit);
    if checked.Err? {
      return Err(BadLimit);
    }
    var n := checked.value;
    var matching := Unseen(journal, after, f);
    var page := if n < |matching| then matching[..n] else matching;
    var remaining := |matching| - |page|;
    r := Ok(Batch(if remaining > 0 then page[|page| - 1].cursor else head, head, page, remaining > 0, remaining));
  }

  // ---- all pages of one image ----

  function Pages(unseen: seq<TeamEvent>, n: nat, head: nat): seq<Batch>
    requires 0 < n
    decreases |unseen|
  {
    if |unseen| <= n then [Batch(head, head, unseen, false, 0)]
    else [Batch(unseen[n - 1].cursor, head, unseen[..n], true, |unseen| - n)] + Pages(unseen[n..], n, head)
  }

  lemma PagesStep(before: seq<Batch>, rest: seq<TeamEvent>, n: nat, head: nat, page: Batch)
    requires 0 < n
    requires page == if n < |rest| then Batch(rest[n - 1].cursor, head, rest[..n], true, |rest| - n) else Batch(head, head, rest, false, 0)
    ensures n < |rest| ==> before + Pages(rest, n, head) == before + [page] + Pages(rest[n..], n, head)
    ensures |rest| <= n ==> before + Pages(rest, n, head) == before + [page]
  {
    if n < |rest| {
      var after := Pages(rest[n..], n, head);
      assert Pages(rest, n, head) == [page] + after;
      hide Pages;
      assert before + ([page] + after) == before + [page] + after;
    }
  }

  /** The loop of readTeamEventPages over the unseen events. */
  method CutPages(unseen: seq<TeamEvent>, n: nat, head: nat) returns (pages: seq<Batch>)
    requires 0 < n && unseen != []
    ensures pages == Pages(unseen, n, head)
  {
    hide Pages;
    pages := [];
    var offset := 0;
    assert unseen[0..] == unseen && pages + Pages(unseen, n, head) == Pages(unseen, n, head);
    while offset < |unseen|
      invariant 0 <= offset
      invariant if offset < |unseen| then pages + Pages(unseen[offset..], n, head) == Pages(unseen, n, head)
                else pages == Pages(unseen, n, head)
    {
      ghost var rest := unseen[offset..];
      var selected := if offset + n < |unseen| then unseen[offset..offset + n] else unseen[offset..];
      var remaining := |unseen| - offset - |selected|;
      var page := Batch(if remaining > 0 then selected[|selected| - 1].cursor else head, head, selected, remaining > 0, remaining);
      assert remaining > 0 ==> rest[n..] == unseen[offset + n..] && rest[..n] == selected;
      PagesStep(pages, rest, n, head, page);
      pages := pages + [page];
      offset := offset + n;
    }
  }

  /** readTeamEventPages */
  method ReadTeamEventPages(journal: seq<TeamEvent>, after: nat, limit: Option<int>) returns (r: Result<seq<Batch>, ReadError>)
    requires Increasing(journal, 0)
    ensures r == if LastCursor(journal) < after then Err(CursorAhead(after, LastCursor(journal)))
                 else if ValidLimit(limit).Err? then Err(BadLimit)
                 else Ok(Pages(Window(journal, after, LastCursor(journal), NO_FILTER), ValidLimit(limit).value, LastCursor(journal)))
  {
    var head := LastCursor(journal);
    if head < after {
      return Err(CursorAhead(after, head));
    }
    if ValidLimit(limit).Err? {
      return Err(BadLimit);
    }
    var unseen := Window(journal, after, head, NO_FILTER);
    if unseen == [] {
      return Ok([Batch(head, head, [], false, 0)]);
    }
    var pages := CutPages(unseen, ValidLimit(limit).value, head);
    r := Ok(pages);
  }

  /** Asking for one page after another until none is left, on a journal that does not change. */
  function Iterate(journal: seq<TeamEvent>, after: nat, limit: Option<int>): seq<Batch>
    requires Increasing(journal, 0) && after <= LastCursor(journal) && ValidLimit(limit).Ok?
    decreases LastCursor(journal) - after
  {
    PageIsWindow(journal, after, NO_FILTER, limit);
    var page := ReadEvents(journal, after, NO_FILTER, limit).value;
    if page.truncated then [page] + Iterate(journal, page.cursor, limit) else [page]
  }

  lemma {:induction false} PagesAreIteration(journal: seq<TeamEvent>, after: nat, limit: Option<int>)
    requires Increasing(journal, 0) && after <= LastCursor(journal) && ValidLimit(limit).Ok?
    ensures var head := LastCursor(journal);
            Pages(Window(journal, after, head, NO_FILTER), ValidLimit(limit).value, head) == Iterate(journal, after, limit)
    decreases LastCursor(journal) - after
  {
    PageIsWindow(journal, after, NO_FILTER, limit);
    var head := LastCursor(journal);
    var page := ReadEvents(journal, after, NO_FILTER, limit).value;
    if page.truncated {
      var n, unseen := ValidLimit(limit).value, Window(journal, after, head, NO_FILTER);
      WindowSplit(journal, 0, after, page.cursor, head, NO_FILTER);
      assert unseen[n..] == Window(journal, page.cursor, head, NO_FILTER);
      PagesAreIteration(journal, page.cursor, limit);
    }
  }

  // ---- snapshot pages ----

  datatype Projection<W, T> = Projection(team: string, workers: seq<W>, tasks: seq<T>)

  /** A continuation as it decodes: something else, or the payload it was made from. */
  datatype Token = Garbage | Payload(team: string, head: nat, offset: int)

  datatype SnapshotError = LimitRefused | ContinuationRefused

  datatype SnapshotPage<W, T> = SnapshotPage(workers: seq<W>, tasks: seq<T>, offset: nat, limit: nat, totalItems: nat,
                                             continuation: Option<Token>)

  datatype Row<W, T> = WorkerRow(worker: W) | TaskRow(task: T)

  function Rows<W, T>(p: Projection<W, T>): seq<Row<W, T>> {
    seq(|p.workers|, i requires 0 <= i < |p.workers| => WorkerRow(p.workers[i]))
    + seq(|p.tasks|, i requires 0 <= i < |p.tasks| => TaskRow(p.tasks[i]))
  }

  function WorkersOf<W, T>(rows: seq<Row<W, T>>): seq<W> {
    if rows == [] then [] else (if rows[0].WorkerRow? then [rows[0].worker] else []) + WorkersOf(rows[1..])
  }

  function TasksOf<W, T>(rows: seq<Row<W, T>>): seq<T> {
    if rows == [] then [] else (if rows[0].TaskRow? then [rows[0].task] else []) + TasksOf(rows[1..])
  }

  function PageProjection<W, T>(p: Projection<W, T>, head: nat, limit: Option<int>, continuation: Option<Token>)
    : Result<SnapshotPage<W, T>, SnapshotError>
  {
    if ValidLimit(limit).Err? then Err(LimitRefused)
    else if continuation.Some? && !(continuation.value.Payload? && continuation.value.team == p.team
                                    && continuation.value.head == head && 0 <= continuation.value.offset) then Err(ContinuationRefused)
    else
      var rows, n := Rows(p), ValidLimit(limit).value;
      var offset: nat := if continuation.Some? then continuation.value.offset else 0;
      if |rows| < offset then Err(ContinuationRefused)
      else
        var next := if offset + n < |rows| then offset + n else |rows|;
        var page := rows[offset..next];
        Ok(SnapshotPage(WorkersOf(page), TasksOf(page), offset, n, |rows|,
                        if next < |rows| then Some(Payload(p.team, head, next)) else None))
  }

  /** Following continuations at one head. */
  function SnapshotPages<W, T>(p: Projection<W, T>, head: nat, limit: Option<int>, continuation: Option<Token>): seq<SnapshotPage<W, T>>
    requires PageProjection(p, head, limit, continuation).Ok?
    decreases |Rows(p)| - PageProjection(p, head, limit, continuation).value.offset
  {
    var page := PageProjection(p, head, limit, continuation).value;
    if page.continuation.None? then [page] else [page] + SnapshotPages(p, head, limit, page.continuation)
  }

  function AllWorkers<W, T>(pages: seq<SnapshotPage<W, T>>): seq<W> {
    if pages == [] then [] else pages[0].workers + AllWorkers(pages[1..])
  }

  function AllTasks<W, T>(pages: seq<SnapshotPage<W, T>>): seq<T> {
    if pages == [] then [] else pages[0].tasks + AllTasks(pages[1..])
  }

  lemma RowsConcat<W, T>(a: seq<Row<W, T>>, b: seq<Row<W, T>>)
    ensures WorkersOf(a + b) == WorkersOf(a) + WorkersOf(b) && TasksOf(a + b) == TasksOf(a) + TasksOf(b)
  {
    WorkersConcat(a, b);
    TasksConcat(a, b);
  }

  lemma {:induction false} WorkersConcat<W, T>(a: seq<Row<W, T>>, b: seq<Row<W, T>>)
    ensures WorkersOf(a + b) == WorkersOf(a) + WorkersOf(b)
    decreases |a|
  {
    if a == [] {
      assert a + b == b;
    } else {
      WorkersConcat(a[1..], b);
      assert (a + b)[0] == a[0] && (a + b)[1..] == a[1..] + b;
      FirstWorker(a);
      FirstWorker(a + b);
      hide WorkersOf;
      if a[0].WorkerRow? {
        Regroup(a[0].worker, WorkersOf(a[1..]), WorkersOf(b));
      }
    }
  }

  lemma {:induction false} TasksConcat<W, T>(a: seq<Row<W, T>>, b: seq<Row<W, T>>)
    ensures TasksOf(a + b) == TasksOf(a) + TasksOf(b)
    decreases |a|
  {
    if a == [] {
      assert a + b == b;
    } else {
      TasksConcat(a[1..], b);
      assert (a + b)[0] == a[0] && (a + b)[1..] == a[1..] + b;
      FirstTask(a);
      FirstTask(a + b);
      hide TasksOf;
      if a[0].TaskRow? {
        Regroup(a[0].task, TasksOf(a[1..]), TasksOf(b));
      }
    }
  }

  lemma Regroup<X>(x: X, a: seq<X>, b: seq<X>)
    ensures [x] + (a + b) == [x] + a + b
  {
  }

  lemma FirstWorker<W, T>(rows: seq<Row<W, T>>)
    requires rows != []
    ensures WorkersOf(rows) == if rows[0].WorkerRow? then [rows[0].worker] + WorkersOf(rows[1..]) else WorkersOf(rows[1..])
  {
  }

  lemma FirstTask<W, T>(rows: seq<Row<W, T>>)
    requires rows != []
    ensures TasksOf(rows) == if rows[0].TaskRow? then [rows[0].task] + TasksOf(rows[1..]) else TasksOf(rows[1..])
  {
  }

  lemma {:induction false} SnapshotTail<W, T>(p: Projection<W, T>, head: nat, limit: Option<int>, continuation: Option<Token>)
    requires PageProjection(p, head, limit, continuation).Ok?
    ensures var offset := PageProjection(p, head, limit, continuation).value.offset;
            var pages := SnapshotPages(p, head, limit, continuation);
            && AllWorkers(pages) == WorkersOf(Rows(p)[offset..])
            && AllTasks(pages) == TasksOf(Rows(p)[offset..])
            && (forall i | 0 <= i < |pages| :: |pages[i].workers| + |pages[i].tasks| <= ValidLimit(limit).value)
    decreases |Rows(p)| - PageProjection(p, head, limit, continuation).value.offset
  {
    var page := PageProjection(p, head, limit, continuation).value;
    var rows, pages := Rows(p), SnapshotPages(p, head, limit, continuation);
    var next := PageRows(p, head, limit, continuation);
    if page.continuation.Some? {
      SnapshotTail(p, head, limit, page.continuation);
      assert pages[1..] == SnapshotPages(p, head, limit, page.continuation);
    } else {
      assert rows[next..] == [] && pages[1..] == [];
    }
  }

  /** One page holds the rows from its offset to where the next page starts. */
  lemma PageRows<W, T>(p: Projection<W, T>, head: nat, limit: Option<int>, continuation: Option<Token>) returns (next: nat)
    requires PageProjection(p, head, limit, continuation).Ok?
    ensures var page := PageProjection(p, head, limit, continuation).value;
            var rows := Rows(p);
            && page.offset <= next <= |rows| && |page.workers| + |page.tasks| == next - page.offset <= ValidLimit(limit).value
            && WorkersOf(rows[page.offset..]) == page.workers + WorkersOf(rows[next..])
            && TasksOf(rows[page.offset..]) == page.tasks + TasksOf(rows[next..])
            && (page.continuation.None? ==> next == |rows|)
            && (page.continuation.Some? ==>
                  && PageProjection(p, head, limit, page.continuation).Ok?
                  && PageProjection(p, head, limit, page.continuation).value.offset == next)
  {
    hide Rows, WorkersOf, TasksOf;
    var page := PageProjection(p, head, limit, continuation).value;
    var rows, offset, n := Rows(p), page.offset, ValidLimit(limit).value;
    next := if offset + n < |rows| then offset + n else |rows|;
    RowsConcat(rows[offset..next], rows[next..]);
    assert rows[offset..next] + rows[next..] == rows[offset..];
    RowCounts(rows[offset..next]);
  }

  lemma {:induction false} RowCounts<W, T>(rows: seq<Row<W, T>>)
    ensures |WorkersOf(rows)| + |TasksOf(rows)| == |rows|
  {
    if rows != [] {
      RowCounts(rows[1..]);
    }
  }

  lemma {:induction false} RowsOfKind<W, T>(workers: seq<W>, tasks: seq<T>)
    ensures var rows := Rows(Projection("", workers, tasks));
            WorkersOf(rows) == workers && TasksOf(rows) == tasks
    decreases |workers| + |tasks|
  {
    var rows := Rows(Projection("", workers, tasks));
    if workers != [] {
      RowsOfKind(workers[1..], tasks);
      assert rows[1..] == Rows(Projection("", workers[1..], tasks));
    } else if tasks != [] {
      RowsOfKind(workers, tasks[1..]);
      assert rows[1..] == Rows(Projection("", workers, tasks[1..]));
    }
  }

  /** A snapshot read page by page at one head covers every Worker and every Task once, in order. */
  lemma SnapshotCoversAll<W, T>(p: Projection<W, T>, head: nat, limit: Option<int>)
    requires ValidLimit(limit).Ok?
    ensures PageProjection(p, head, limit, None).Ok?
    ensures var pages := SnapshotPages(p, head, limit, None);
            && AllWorkers(pages) == p.workers && AllTasks(pages) == p.tasks
            && (forall i | 0 <= i < |pages| :: |pages[i].workers| + |pages[i].tasks| <= ValidLimit(limit).value)
  {
    SnapshotTail(p, head, limit, None);
    RowsOfKind(p.workers, p.tasks);
    assert Rows(p) == Rows(Projection("", p.workers, p.tasks));
    assert Rows(p)[0..] == Rows(p);
  }

  /** A continuation made at one head is refused at another. */
  lemma ContinuationIsPinned<W, T>(p: Projection<W, T>, later: Projection<W, T>, head: nat, other: nat, limit: Option<int>, continuation: Option<Token>)
    requires PageProjection(p, head, limit, continuation).Ok? && other != head
    ensures var next := PageProjection(p, head, limit, continuation).value.continuation;
            next.Some? ==> PageProjection(later, other, limit, next) == Err(ContinuationRefused)
  {
  }
}
