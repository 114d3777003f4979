/**
 The carrier events an observer publishes and the baseline it keeps of the
 journal (class CarrierPublication in src/carrier-observation.ts).
 */
module CarrierPublication {
  import opened Wrappers
  import opened JournalText
  import opened JournalPages
  import opened TeamEvents
  import opened JournalAppend

  /** Coordinates isolate independent histories; the JSON text of the array tells these apart. */
  datatype Key = Key(membership: string, generation: Option<Generation>, launchId: Option<string>, field: Field,
                     target: Option<TerminalTarget>)

  function KeyOf(c: CarrierEvent): Key {
    Key(c.membership, c.generation, c.launchId, c.field, c.terminalTarget)
  }

  function CarrierIn(body: Body): Option<CarrierEvent> {
    if body.WorkerBody? then body.carrier else None
  }

  predicate HasKey(e: TeamEvent, key: Key) {
    CarrierIn(e.body).Some? && KeyOf(CarrierIn(e.body).value) == key
  }

  predicate TaskBy(e: TeamEvent, worker: string) {
    e.body.TaskBody? && e.body.actor == worker
  }

  // ---- the baseline ----

  /** journalCursor, taskCursors, lastEvents. */
  datatype Baseline = Baseline(cursor: nat, tasks: map<string, nat>, last: map<Key, TeamEvent>)

  const EMPTY := Baseline(0, map[], map[])

  function Consume(b: Baseline, e: TeamEvent): Baseline {
    if e.body.TaskBody? then b.(tasks := b.tasks[e.body.actor := e.cursor])
    else if CarrierIn(e.body).Some? then b.(last := b.last[KeyOf(CarrierIn(e.body).value) := e])
    else b
  }

  function Fold(events: seq<TeamEvent>): Baseline {
    if events == [] then EMPTY
    else Consume(Fold(events[..|events| - 1]), events[|events| - 1]).(cursor := events[|events| - 1].cursor)
  }

  lemma {:induction false} FoldStep(events: seq<TeamEvent>, e: TeamEvent)
    ensures Fold(events + [e]) == Consume(Fold(events), e).(cursor := e.cursor)
  {
    assert (events + [e])[..|events|] == events;
  }

  /** What the maps hold, without the fold: the last event of a key, and the last Task event of an actor. */
  lemma {:induction false} FoldMeaning(events: seq<TeamEvent>, key: Key, worker: string)
    ensures Fold(events).cursor == LastCursor(events)
    ensures if key in Fold(events).last
            then exists i | 0 <= i < |events| :: Fold(events).last[key] == events[i] && HasKey(events[i], key)
                                               && (forall j | i < j < |events| :: !HasKey(events[j], key))
            else forall i | 0 <= i < |events| :: !HasKey(events[i], key)
    ensures if worker in Fold(events).tasks
            then exists i | 0 <= i < |events| :: Fold(events).tasks[worker] == events[i].cursor && TaskBy(events[i], worker)
                                               && (forall j | i < j < |events| :: !TaskBy(events[j], worker))
            else forall i | 0 <= i < |events| :: !TaskBy(events[i], worker)
  {
    if events != [] {
      var n := |events| - 1;
      var front, e := events[..n], events[n];
      FoldMeaning(front, key, worker);
      assert forall i | 0 <= i < n :: front[i] == events[i];
      if !HasKey(e, key) && key in Fold(front).last {
        var i :| 0 <= i < n && Fold(front).last[key] == front[i] && HasKey(front[i], key)
                 && (forall j | i < j < n :: !HasKey(front[j], key));
        assert Fold(events).last[key] == events[i];
      }
      if !TaskBy(e, worker) && worker in Fold(front).tasks {
        var i :| 0 <= i < n && Fold(front).tasks[worker] == front[i].cursor && TaskBy(front[i], worker)
                 && (forall j | i < j < n :: !TaskBy(front[j], worker));
        assert Fold(events).tasks[worker] == events[i].cursor;
      }
    }
  }

  function ConsumeAll(b: Baseline, events: seq<TeamEvent>): Baseline {
    if events == [] then b else Consume(ConsumeAll(b, events[..|events| - 1]), events[|events| - 1])
  }

  lemma ConsumeStep(b: Baseline, events: seq<TeamEvent>, e: TeamEvent)
    ensures ConsumeAll(b, events + [e]) == Consume(ConsumeAll(b, events), e)
  {
    assert (events + [e])[..|events|] == events;
  }

  /** What a baseline has not seen of a journal: the events above its cursor. */
  function Unread(b: Baseline, journal: seq<TeamEvent>): seq<TeamEvent> {
    Window(journal, b.cursor, LastCursor(journal), NO_FILTER)
  }

  /** read: from its own cursor to the head; a baseline ahead of the journal is refused and stays. */
  function CatchUp(b: Baseline, journal: seq<TeamEvent>): Baseline {
    if LastCursor(journal) < b.cursor then b else ConsumeAll(b, Unread(b, journal)).(cursor := LastCursor(journal))
  }

  lemma {:induction false} FoldOn(seen: seq<TeamEvent>, more: seq<TeamEvent>)
    ensures Fold(seen + more) == ConsumeAll(Fold(seen), more).(cursor := LastCursor(seen + more))
    decreases |more|
  {
    FoldMeaning(seen + more, Key("", None, None, BindingField, None), "");
    if more == [] {
      assert seen + more == seen;
    } else {
      var n := |more| - 1;
      FoldOn(seen, more[..n]);
      assert seen + more == seen + more[..n] + [more[n]];
      FoldStep(seen + more[..n], more[n]);
    }
  }

  /** The head is the last event above any cursor below it. */
  lemma UnreadEnds(journal: seq<TeamEvent>, cursor: nat)
    requires Increasing(journal, 0) && cursor <= LastCursor(journal)
    ensures var unread := Window(journal, cursor, LastCursor(journal), NO_FILTER);
            if unread == [] then cursor == LastCursor(journal) else LastCursor(unread) == LastCursor(journal)
  {
    WindowMeaning(journal, 0, cursor, LastCursor(journal), NO_FILTER);
    var unread := Window(journal, cursor, LastCursor(journal), NO_FILTER);
    if journal != [] && cursor < LastCursor(journal) {
      var e := journal[|journal| - 1];
      assert e in unread;
      var i :| 0 <= i < |unread| && unread[i] == e;
      assert unread[|unread| - 1] in unread;
    }
  }

  /** Whatever was seen, reading on adds what now stands above the cursor. */
  lemma {:induction false} CatchUpMeaning(seen: seq<TeamEvent>, journal: seq<TeamEvent>)
    requires Increasing(journal, 0) && LastCursor(seen) <= LastCursor(journal)
    ensures CatchUp(Fold(seen), journal) == Fold(seen + Window(journal, LastCursor(seen), LastCursor(journal), NO_FILTER))
  {
    hide Window, Fold, ConsumeAll;
    FoldMeaning(seen, Key("", None, None, BindingField, None), "");
    UnreadEnds(journal, LastCursor(seen));
    var unread := Window(journal, LastCursor(seen), LastCursor(journal), NO_FILTER);
    FoldOn(seen, unread);
    if unread != [] {
      assert (seen + unread)[|seen + unread| - 1] == unread[|unread| - 1];
    } else {
      assert seen + unread == seen;
    }
  }

  /** A journal that only grew since is read whole. */
  lemma {:induction false} CatchUpIsFold(seen: seq<TeamEvent>, journal: seq<TeamEvent>)
    requires Increasing(journal, 0) && seen <= journal
    ensures CatchUp(Fold(seen), journal) == Fold(journal) && LastCursor(seen) <= LastCursor(journal)
  {
    hide Window, Fold, CatchUp;
    HeadsGrow(seen, journal);
    CatchUpMeaning(seen, journal);
    SeenWindow(journal, seen);
    WholeWindow(journal, 0);
    WindowSplit(journal, 0, 0, LastCursor(seen), LastCursor(journal), NO_FILTER);
  }

  predicate SameLast(a: Baseline, b: Baseline, key: Key) {
    (key in a.last <==> key in b.last) && (key in a.last ==> a.last[key] == b.last[key])
  }

  predicate SameTask(a: Baseline, b: Baseline, worker: string) {
    (worker in a.tasks <==> worker in b.tasks) && (worker in a.tasks ==> a.tasks[worker] == b.tasks[worker])
  }

  predicate Speaks(events: seq<TeamEvent>, key: Key) {
    exists i | 0 <= i < |events| :: HasKey(events[i], key)
  }

  predicate TaskSpeaks(events: seq<TeamEvent>, worker: string) {
    exists i | 0 <= i < |events| :: TaskBy(events[i], worker)
  }

  /** An entry of the maps comes from the events consumed, if any of them is about it, and otherwise from before. */
  lemma {:induction false} ConsumeMeaning(a: Baseline, b: Baseline, events: seq<TeamEvent>, key: Key, worker: string)
    ensures SameLast(ConsumeAll(a, events), ConsumeAll(b, events), key) <==> SameLast(a, b, key) || Speaks(events, key)
    ensures SameTask(ConsumeAll(a, events), ConsumeAll(b, events), worker) <==> SameTask(a, b, worker) || TaskSpeaks(events, worker)
  {
    if events != [] {
      var n := |events| - 1;
      ConsumeMeaning(a, b, events[..n], key, worker);
      SpeaksStep(events[..n], events[n], key, worker);
      assert events == events[..n] + [events[n]];
      hide Speaks, TaskSpeaks;
    }
  }

  lemma SpeaksStep(events: seq<TeamEvent>, e: TeamEvent, key: Key, worker: string)
    ensures Speaks(events + [e], key) <==> Speaks(events, key) || HasKey(e, key)
    ensures TaskSpeaks(events + [e], worker) <==> TaskSpeaks(events, worker) || TaskBy(e, worker)
  {
    hide HasKey, TaskBy;
    var n := |events|;
    assert (events + [e])[n] == e;
    if Speaks(events, key) {
      var i :| 0 <= i < n && HasKey(events[i], key);
      assert (events + [e])[i] == events[i];
    }
    if TaskSpeaks(events, worker) {
      var i :| 0 <= i < n && TaskBy(events[i], worker);
      assert (events + [e])[i] == events[i];
    }
  }

  /**
   A rollback may have taken back events that were seen, and the journal may have
   grown past the cursor since. The baseline is then that of the journal exactly
   when, wherever no unread event speaks, the journal up to the cursor says what
   was seen.
   */
  lemma {:induction false} CatchUpAfterRollback(seen: seq<TeamEvent>, journal: seq<TeamEvent>)
    requires Increasing(journal, 0) && LastCursor(seen) <= LastCursor(journal)
    ensures var kept, unread := Window(journal, 0, LastCursor(seen), NO_FILTER), Unread(Fold(seen), journal);
            CatchUp(Fold(seen), journal) == Fold(journal)
            <==> (forall key :: SameLast(Fold(seen), Fold(kept), key) || Speaks(unread, key))
                 && (forall worker :: SameTask(Fold(seen), Fold(kept), worker) || TaskSpeaks(unread, worker))
  {
    hide Window, Fold, ConsumeAll, Speaks, TaskSpeaks, SameLast, SameTask;
    FoldMeaning(seen, Key("", None, None, BindingField, None), "");
    FoldMeaning(journal, Key("", None, None, BindingField, None), "");
    var kept, unread := Window(journal, 0, LastCursor(seen), NO_FILTER), Unread(Fold(seen), journal);
    WholeWindow(journal, 0);
    WindowSplit(journal, 0, 0, LastCursor(seen), LastCursor(journal), NO_FILTER);
    FoldOn(kept, unread);
    forall key
      ensures SameLast(ConsumeAll(Fold(seen), unread), ConsumeAll(Fold(kept), unread), key)
              <==> SameLast(Fold(seen), Fold(kept), key) || Speaks(unread, key)
    {
      ConsumeMeaning(Fold(seen), Fold(kept), unread, key, "");
    }
    forall worker
      ensures SameTask(ConsumeAll(Fold(seen), unread), ConsumeAll(Fold(kept), unread), worker)
              <==> SameTask(Fold(seen), Fold(kept), worker) || TaskSpeaks(unread, worker)
    {
      ConsumeMeaning(Fold(seen), Fold(kept), unread, Key("", None, None, BindingField, None), worker);
    }
    SameMaps(ConsumeAll(Fold(seen), unread), ConsumeAll(Fold(kept), unread));
  }

  lemma SameMaps(a: Baseline, b: Baseline)
    ensures a.tasks == b.tasks && a.last == b.last
            <==> (forall key :: SameLast(a, b, key)) && (forall worker :: SameTask(a, b, worker))
  {
    if (forall key :: SameLast(a, b, key)) && (forall worker :: SameTask(a, b, worker)) {
      assert forall key :: key in a.last <==> key in b.last by {
        forall key ensures key in a.last <==> key in b.last {
          assert SameLast(a, b, key);
        }
      }
      assert forall key | key in a.last :: a.last[key] == b.last[key] by {
        forall key | key in a.last ensures a.last[key] == b.last[key] {
          assert SameLast(a, b, key);
        }
      }
      assert forall worker :: worker in a.tasks <==> worker in b.tasks by {
        forall worker ensures worker in a.tasks <==> worker in b.tasks {
          assert SameTask(a, b, worker);
        }
      }
      assert forall worker | worker in a.tasks :: a.tasks[worker] == b.tasks[worker] by {
        forall worker | worker in a.tasks ensures a.tasks[worker] == b.tasks[worker] {
          assert SameTask(a, b, worker);
        }
      }
    }
  }

  /** A concrete journal: the only event seen was taken back, two others came, and the reader keeps what it saw. */
  lemma TakenBackIsKept(c: CarrierEvent, body: Body)
    requires CarrierIn(body).None? && !body.TaskBody?
    ensures var seen := [Event(1, WorkerBody("", "w", c.membership, "carrier", Some(c)))];
            var journal := [Event(1, body), Event(2, body)];
            Increasing(journal, 0) && CatchUp(Fold(seen), journal) != Fold(journal)
            && KeyOf(c) in CatchUp(Fold(seen), journal).last && KeyOf(c) !in Fold(journal).last
  {
    hide Window;
    var seen := [Event(1, WorkerBody("", "w", c.membership, "carrier", Some(c)))];
    var journal := [Event(1, body), Event(2, body)];
    CatchUpMeaning(seen, journal);
    WindowMeaning(journal, 0, 1, 2, NO_FILTER);
    var unread := Window(journal, 1, 2, NO_FILTER);
    FoldMeaning(seen + unread, KeyOf(c), "");
    FoldMeaning(journal, KeyOf(c), "");
    assert HasKey((seen + unread)[0], KeyOf(c));
  }

  // ---- one decision ----

  datatype Stop = Stop(piReason: string, observedAt: int, suspectedHumanStop: bool)

  datatype Status = Status(lastStop: Option<Stop>, stopRequested: Option<bool>)

  datatype Item = Item(source: string, fact: string, observedAt: int)

  datatype CarrierView = CarrierView(worker: string, membership: string, launchId: Option<string>, generation: Option<Generation>,
                       sessionFile: Option<string>, terminal: string, lastStop: Option<Stop>, target: Option<TerminalTarget>,
                       attention: Option<Attention>, evidence: seq<Item>)

  /** The Member and runtime record found under the lease. */
  datatype Found = Found(membership: string, launchId: Option<string>, generation: Option<Generation>, sessionFile: Option<string>,
                         target: Option<TerminalTarget>, status: Option<Status>)

  datatype Fact = ReloadHung | LaunchStalled

  datatype Request = Request(view: CarrierView, field: Field, to: string, status: Option<Status>, fact: Option<Fact>, stopped: bool,
                             found: Found, now: int)

  datatype Decision = Changed | Unchanged | Fails | Emit(carrier: CarrierEvent)

  const RELOAD_HUNG_MS := 15000

  const UNKNOWN := "unknown"
  const LIVE := "live"
  const STOPPING := "stopping"

  function FactText(f: Fact): string {
    match f case ReloadHung => "reload_hung" case LaunchStalled => "launch_stalled"
  }

  function ViewKey(v: CarrierView, field: Field): Key {
    Key(v.membership, v.generation, v.launchId, field, v.target)
  }

  function StopIn(s: Option<Status>): Option<Stop> {
    if s.Some? then s.value.lastStop else None
  }

  function RequestedIn(s: Option<Status>): Option<bool> {
    if s.Some? then s.value.stopRequested else None
  }

  /** The view still describes what is found under the lease. */
  predicate StillHolds(r: Request) {
    && !r.stopped && r.found.sessionFile == r.view.sessionFile
    && Key(r.found.membership, r.found.generation, r.found.launchId, r.field, r.found.target) == ViewKey(r.view, r.field)
    && StopIn(r.found.status) == StopIn(r.status) && RequestedIn(r.found.status) == RequestedIn(r.status)
  }

  predicate LiveOrStopping(s: string) {
    s == LIVE || s == STOPPING
  }

  /** Nothing to append: the journal already says so. */
  predicate AlreadySaid(b: Baseline, r: Request, before: Option<CarrierEvent>) {
    var key := ViewKey(r.view, r.field);
    var from := if before.Some? then before.value.to else UNKNOWN;
    if r.fact == Some(ReloadHung) then
      before.Some? && before.value.cause.fact == FactText(ReloadHung)
      && r.view.lastStop.Some? && r.view.lastStop.value.observedAt + RELOAD_HUNG_MS <= before.value.observedAt
    else if r.fact == Some(LaunchStalled) then
      before.Some? && before.value.cause.fact == FactText(LaunchStalled)
    else if r.field == BlockedField then
      (if r.view.worker in b.tasks then b.tasks[r.view.worker] else 0) < (if key in b.last then b.last[key].cursor else 0)
    else
      || (from == r.to && (r.field != ProcessField || (if before.Some? then before.value.attention else None) == r.view.attention))
      || (r.field == ProcessField && LiveOrStopping(from) && LiveOrStopping(r.to)
          && r.view.lastStop.Some? && r.view.lastStop.value.piReason == "reload")
  }

  function SourceOf(field: Field): string {
    match field
    case TerminalField => "herdr_panes"
    case BlockedField | ActivityField => "herdr_agents"
    case ProcessField => "process_generation"
    case LaunchField => "launch"
    case BindingField => "membership"
  }

  function FindItem(evidence: seq<Item>, source: string): Option<Item> {
    if evidence == [] then None else if evidence[0].source == source then Some(evidence[0]) else FindItem(evidence[1..], source)
  }

  function Compose(r: Request, from: string): CarrierEvent {
    var v := r.view;
    var quiet := r.field == ActivityField || (r.field == TerminalField && r.to != "absent");
    var asked := RequestedIn(r.status) == Some(true);
    var human := !quiet && !asked && ((v.lastStop.Some? && v.lastStop.value.suspectedHumanStop) || v.terminal == "absent");
    var item := FindItem(v.evidence, SourceOf(r.field));
    var shutdown := r.field == ProcessField && v.lastStop.Some? && r.to == STOPPING;
    var attention := if r.field == ProcessField then v.attention else None;
    var fact := if r.fact.Some? then FactText(r.fact.value) else if attention.Some? then attention.value.reason
                else if shutdown then v.lastStop.value.piReason else if item.Some? then item.value.fact else r.to;
    var observedAt := if r.fact.Some? then r.now else if shutdown then v.lastStop.value.observedAt
                      else if item.Some? then item.value.observedAt else r.now;
    var hint := if quiet then Wait
                else if attention.Some? || r.fact.Some? || human || r.field == BlockedField || r.to == STOPPING then AskHuman
                else if r.to == "gone" || r.to == "refused" then EnsureWorker else Wait;
    CarrierEvent(v.membership, v.launchId, v.generation, r.field, from, r.to,
                 Cause(if shutdown then "session_shutdown" else SourceOf(r.field), fact),
                 observedAt, v.target, human, hint, attention)
  }

  /** publishUnderLease past its checks, on the baseline just read. */
  function Decide(b: Baseline, r: Request): Decision {
    var key := ViewKey(r.view, r.field);
    var before := if key in b.last then CarrierIn(b.last[key].body) else None;
    if r.fact == Some(ReloadHung) && before.Some? && before.value.cause.fact == FactText(ReloadHung) && r.view.lastStop.None? then Fails
    else if AlreadySaid(b, r, before) then Unchanged
    else Emit(Compose(r, if before.Some? then before.value.to else UNKNOWN))
  }

  // ---- exactly when something is published ----

  /** Where the last event of the key stands in the journal. */
  function LastPlace(journal: seq<TeamEvent>, key: Key): (p: Option<nat>)
    ensures p.Some? ==> p.value < |journal| && HasKey(journal[p.value], key)
    ensures forall i | 0 <= i < |journal| && (p.Some? ==> p.value < i) :: !HasKey(journal[i], key)
  {
    if journal == [] then None
    else if HasKey(journal[|journal| - 1], key) then Some(|journal| - 1)
    else LastPlace(journal[..|journal| - 1], key)
  }

  /** A Task event by the Worker stands behind that place. */
  predicate TaskSince(journal: seq<TeamEvent>, place: nat, worker: string) {
    exists i | place < i < |journal| :: TaskBy(journal[i], worker)
  }

  lemma {:induction false} PlaceIsLast(journal: seq<TeamEvent>, key: Key)
    ensures var p, b := LastPlace(journal, key), Fold(journal);
            && (p.Some? <==> key in b.last)
            && (p.Some? ==> b.last[key] == journal[p.value])
  {
    FoldMeaning(journal, key, "");
  }

  lemma {:induction false} TaskSinceMeaning(journal: seq<TeamEvent>, key: Key, worker: string)
    requires Numbered(journal)
    ensures var p, b := LastPlace(journal, key), Fold(journal);
            (if worker in b.tasks then b.tasks[worker] else 0) < (if key in b.last then b.last[key].cursor else 0)
            <==> p.Some? && !TaskSince(journal, p.value, worker)
  {
    var p, b := LastPlace(journal, key), Fold(journal);
    FoldMeaning(journal, key, worker);
    PlaceIsLast(journal, key);
    if worker in b.tasks {
      var k :| 0 <= k < |journal| && b.tasks[worker] == journal[k].cursor && TaskBy(journal[k], worker)
               && (forall j | k < j < |journal| :: !TaskBy(journal[j], worker));
      if p.Some? {
        assert journal[p.value].cursor == p.value + 1 && !HasKey(journal[k], key);
      }
    }
  }

  /** What the view says that the journal does not: the attention of a process, or another value. */
  predicate SaysOther(r: Request, last: Option<CarrierEvent>) {
    || r.to != (if last.Some? then last.value.to else "unknown")
    || (r.field == ProcessField && r.view.attention != (if last.Some? then last.value.attention else None))
  }

  /** The Worker is reloading: it was live or stopping, and it is stopping or live again. */
  predicate Reloads(r: Request, last: Option<CarrierEvent>) {
    && r.field == ProcessField && last.Some? && {last.value.to, r.to} <= {"live", "stopping"}
    && r.view.lastStop.Some? && r.view.lastStop.value.piReason == "reload"
  }

  /**
   The publication, decided on the last event of its key and on the Task events
   behind it. A view without a fact is published exactly when it says something
   other than the last event and the Worker is not just reloading; a block, when
   there was none or a Task event came since; a stalled launch, when the last event
   is not that report; a hung reload, when the last event is not a report made after
   its fifteen seconds. The only failure is a hung reload reported before of which
   no stop is known.
   */
  lemma {:induction false} PublicationIsDecided(journal: seq<TeamEvent>, r: Request)
    requires Numbered(journal)
    ensures var place := LastPlace(journal, ViewKey(r.view, r.field));
            var last := if place.Some? then CarrierIn(journal[place.value].body) else None;
            var hung := last.Some? && last.value.cause.fact == "reload_hung";
            var d := Decide(Fold(journal), r);
            && (r.fact.None? && r.field != BlockedField ==>
                  (d.Emit? <==> SaysOther(r, last) && !Reloads(r, last)) && (d == Unchanged <==> !d.Emit?))
            && (r.fact.None? && r.field == BlockedField ==>
                  (d.Emit? <==> place.None? || TaskSince(journal, place.value, r.view.worker)) && (d == Unchanged <==> !d.Emit?))
            && (r.fact == Some(LaunchStalled) ==>
                  (d.Emit? <==> !(last.Some? && last.value.cause.fact == "launch_stalled")) && (d == Unchanged <==> !d.Emit?))
            && (r.fact == Some(ReloadHung) ==>
                  && (d == Fails <==> hung && r.view.lastStop.None?)
                  && (d == Unchanged <==> hung && r.view.lastStop.Some? && r.view.lastStop.value.observedAt + 15000 <= last.value.observedAt)
                  && (d.Emit? <==> d != Fails && d != Unchanged))
  {
    hide Fold, LastPlace, TaskSince, Compose;
    PlaceIsLast(journal, ViewKey(r.view, r.field));
    TaskSinceMeaning(journal, ViewKey(r.view, r.field), r.view.worker);
  }

  /** What an event let out says: the view's own coordinates, value and attention, which are those found under the lease. */
  lemma {:induction false} EmittedIsTheView(b: Baseline, r: Request)
    requires Decide(b, r).Emit?
    ensures var e := Decide(b, r).carrier;
            && e.membership == r.view.membership && e.launchId == r.view.launchId && e.generation == r.view.generation
            && e.terminalTarget == r.view.target && e.field == r.field && e.to == r.to
            && (r.field == ProcessField ==> e.attention == r.view.attention)
            && (r.fact.Some? ==> e.cause.fact == FactText(r.fact.value) && e.observedAt == r.now)
            && (r.fact.None? && r.field == ProcessField && r.to == STOPPING && r.view.lastStop.Some? ==>
                  e.observedAt == r.view.lastStop.value.observedAt
                  && (r.view.attention.None? ==> e.cause == Cause("session_shutdown", r.view.lastStop.value.piReason)))
            && (StillHolds(r) ==> e.membership == r.found.membership && e.generation == r.found.generation
                                  && e.launchId == r.found.launchId && e.terminalTarget == r.found.target)
  {
  }

  /**
   Advice to start a Worker again is given exactly for an end or a refusal that nobody
   seems to have asked for and that nobody has to attend to; quiet facts advise
   nothing; and a human stop is suspected exactly of what was not requested.
   */
  lemma HintIsSafe(b: Baseline, r: Request)
    requires Decide(b, r).Emit?
    ensures var c := Decide(b, r).carrier;
            && (c.hint == EnsureWorker ==> (c.to == "gone" || c.to == "refused") && !c.suspectedHumanStop && c.attention.None? && r.fact.None?)
            && (c.field == ActivityField || (c.field == TerminalField && c.to != "absent") ==> c.hint == Wait && !c.suspectedHumanStop)
            && (c.suspectedHumanStop ==> RequestedIn(r.status) != Some(true) && c.hint == AskHuman)
            && (c.attention.Some? ==> c.field == ProcessField && c.hint == AskHuman)
            && (c.field in {ProcessField, LaunchField, BindingField} ==>
                  && (c.suspectedHumanStop <==> RequestedIn(r.status) != Some(true)
                                                && ((r.view.lastStop.Some? && r.view.lastStop.value.suspectedHumanStop) || r.view.terminal == "absent"))
                  && (c.hint == EnsureWorker <==> c.to in {"gone", "refused"} && !c.suspectedHumanStop && c.attention.None? && r.fact.None?)
                  && (c.hint == Wait <==> c.to !in {"gone", "refused", "stopping"} && !c.suspectedHumanStop && c.attention.None? && r.fact.None?))
            && (c.field == BlockedField ==> c.hint == AskHuman)
  {
  }

  // ---- the class ----

  class CarrierPublication {
    var journalCursor: nat
    var taskCursors: map<string, nat>
    var lastEvents: map<Key, TeamEvent>

    function View(): Baseline
      reads this
    {
      Baseline(journalCursor, taskCursors, lastEvents)
    }

    constructor ()
      ensures View() == EMPTY
    {
      journalCursor, taskCursors, lastEvents := 0, map[], map[];
    }

    /** Page by page to the head. */
    method Read(journal: seq<TeamEvent>) returns (ok: bool)
      requires Increasing(journal, 0)
      modifies this
      ensures ok <==> old(journalCursor) <= LastCursor(journal)
      ensures View() == CatchUp(old(View()), journal)
    {
      hide ConsumeAll, Window, ReadEvents;
      if LastCursor(journal) < journalCursor {
        var refused := ReadTeamEvents(journal, journalCursor, NO_FILTER, Some(100));
        PageIsWindow(journal, journalCursor, NO_FILTER, Some(100));
        assert refused.Err?;
        return false;
      }
      ghost var before := View();
      EmptyWindow(journal, journalCursor, NO_FILTER);
      NothingConsumed(before);
      while true
        invariant before.cursor <= journalCursor <= LastCursor(journal)
        invariant View() == ConsumeAll(before, Window(journal, before.cursor, journalCursor, NO_FILTER)).(cursor := journalCursor)
        decreases LastCursor(journal) - journalCursor
      {
        PageIsWindow(journal, journalCursor, NO_FILTER, Some(100));
        var read := ReadTeamEvents(journal, journalCursor, NO_FILTER, Some(100));
        var page := read.value;
        WindowSplit(journal, 0, before.cursor, journalCursor, page.cursor, NO_FILTER);
        ConsumePage(page.events, before, Window(journal, before.cursor, journalCursor, NO_FILTER));
        journalCursor := page.cursor;
        if !page.truncated {
          UnreadEnds(journal, page.cursor);
          return true;
        }
      }
    }

    method ConsumePage(events: seq<TeamEvent>, ghost before: Baseline, ghost consumed: seq<TeamEvent>)
      requires View() == ConsumeAll(before, consumed).(cursor := journalCursor)
      modifies this`taskCursors, this`lastEvents
      ensures View() == ConsumeAll(before, consumed + events).(cursor := journalCursor)
    {
      hide ConsumeAll;
      assert consumed + events[..0] == consumed;
      for i := 0 to |events|
        invariant View() == ConsumeAll(before, consumed + events[..i]).(cursor := journalCursor)
      {
        var event := events[i];
        if event.body.TaskBody? {
          taskCursors := taskCursors[event.body.actor := event.cursor];
        }
        if event.body.WorkerBody? && event.body.carrier.Some? {
          lastEvents := lastEvents[KeyOf(event.body.carrier.value) := event];
        }
        ConsumeStep(before, consumed + events[..i], event);
        assert consumed + events[..i] + [event] == consumed + events[..i + 1];
      }
      assert events[..|events|] == events;
    }

    method PublishUnderLease(journal: seq<TeamEvent>, r: Request) returns (d: Decision)
      requires Increasing(journal, 0)
      modifies this
      ensures d == if !StillHolds(r) then Changed else if LastCursor(journal) < old(journalCursor) then Fails
                   else Decide(CatchUp(old(View()), journal), r)
      ensures View() == if StillHolds(r) then CatchUp(old(View()), journal) else old(View())
    {
      if !StillHolds(r) {
        return Changed;
      }
      var ok := Read(journal);
      if !ok {
        return Fails;
      }
      d := Decide(View(), r);
    }
  }

  lemma NothingConsumed(b: Baseline)
    ensures ConsumeAll(b, []) == b
  {
  }

  lemma {:induction false} WholeWindow(events: seq<TeamEvent>, floor: nat)
    requires Increasing(events, floor)
    ensures Window(events, floor, LastCursor(events), NO_FILTER) == events
  {
    SliceIsWindow(events, floor, floor, 0, NO_FILTER);
    SelectAll(events);
    assert events[0..] == events;
  }

  lemma SeenWindow(journal: seq<TeamEvent>, seen: seq<TeamEvent>)
    requires Increasing(journal, 0) && seen <= journal
    ensures seen == Window(journal, 0, LastCursor(seen), NO_FILTER)
  {
    WholeWindow(seen, 0);
    WindowStable(seen, journal, 0, LastCursor(seen), NO_FILTER);
  }

  // ---- all publishers of one journal ----

  datatype Pending = Pending(worker: string, carrier: CarrierEvent)

  /** Each observer's baseline, and the append in flight under each Membership's lease. */
  datatype World = World(journal: seq<TeamEvent>, observers: seq<Baseline>, leases: map<string, Pending>)

  datatype Step =
    | Other(body: Body)             // any Task, Alert or plain Worker event
    | Join                          // a new CarrierPublication
    | Refresh(i: nat)               // read() while polling
    | Begin(i: nat, r: Request)     // lease taken, journal read, append decided
    | Commit(membership: string)    // the append lands and the lease is released
    | Abandon(membership: string)   // the append fails or the process ends

  /** The repeated attention facts are only asked for in their own field. */
  predicate WellCalled(r: Request) {
    (r.fact == Some(ReloadHung) ==> r.field == ProcessField) && (r.fact == Some(LaunchStalled) ==> r.field == LaunchField)
  }

  function Appended(journal: seq<TeamEvent>, body: Body): seq<TeamEvent> {
    journal + [Event(|journal| + 1, body)]
  }

  function Next(w: World, s: Step): World {
    match s
    case Other(body) => if CarrierIn(body).Some? then w else w.(journal := Appended(w.journal, body))
    case Join => w.(observers := w.observers + [EMPTY])
    case Refresh(i) => if |w.observers| <= i then w else w.(observers := w.observers[i := CatchUp(w.observers[i], w.journal)])
    case Begin(i, r) =>
      if |w.observers| <= i || r.view.membership in w.leases || !WellCalled(r) || !StillHolds(r) then w
      else
        var read := CatchUp(w.observers[i], w.journal);
        var d := if LastCursor(w.journal) < w.observers[i].cursor then Fails else Decide(read, r);
        w.(observers := w.observers[i := read],
           leases := if d.Emit? then w.leases[r.view.membership := Pending(r.view.worker, d.carrier)] else w.leases)
    case Commit(membership) =>
      if membership !in w.leases then w
      else
        var p := w.leases[membership];
        w.(journal := Appended(w.journal, WorkerBody("", p.worker, membership, "carrier", Some(p.carrier))), leases := w.leases - {membership})
    case Abandon(membership) => w.(leases := w.leases - {membership})
  }

  function LastOf(journal: seq<TeamEvent>, key: Key): Option<CarrierEvent> {
    if key in Fold(journal).last then CarrierIn(Fold(journal).last[key].body) else None
  }

  predicate TaskAfter(journal: seq<TeamEvent>, from: nat, worker: string) {
    exists k | from <= k < |journal| :: TaskBy(journal[k], worker)
  }

  /** The event goes on from the last of its key, says something new, and a repeated block has a Task event in between. */
  predicate Follows(journal: seq<TeamEvent>, worker: string, c: CarrierEvent) {
    var last := LastOf(journal, KeyOf(c));
    && c.from == (if last.Some? then last.value.to else UNKNOWN)
    && (c.field == BlockedField && last.Some? ==> TaskAfter(journal, Fold(journal).last[KeyOf(c)].cursor, worker))
    && (c.field != BlockedField && c.cause.fact != FactText(ReloadHung) && c.cause.fact != FactText(LaunchStalled) ==>
          c.from != c.to || (c.field == ProcessField && c.attention != if last.Some? then last.value.attention else None))
  }

  predicate EventFollows(journal: seq<TeamEvent>, e: TeamEvent) {
    CarrierIn(e.body).Some? ==> Follows(journal, e.body.worker, CarrierIn(e.body).value)
  }

  ghost predicate Inv(w: World) {
    && Numbered(w.journal)
    && (forall i | 0 <= i < |w.journal| :: EventFollows(w.journal[..i], w.journal[i]))
    && (forall i | 0 <= i < |w.observers| ::
          w.observers[i].cursor <= |w.journal| && w.observers[i] == Fold(w.journal[..w.observers[i].cursor]))
    && (forall m | m in w.leases :: w.leases[m].carrier.membership == m && Follows(w.journal, w.leases[m].worker, w.leases[m].carrier))
  }

  /** What Decide lets out continues the journal it was decided on. */
  lemma {:induction false} DecisionFollows(journal: seq<TeamEvent>, r: Request)
    requires Numbered(journal) && WellCalled(r) && Decide(Fold(journal), r).Emit?
    ensures Follows(journal, r.view.worker, Decide(Fold(journal), r).carrier)
    ensures KeyOf(Decide(Fold(journal), r).carrier) == ViewKey(r.view, r.field)
  {
    var b, key, worker := Fold(journal), ViewKey(r.view, r.field), r.view.worker;
    FoldMeaning(journal, key, worker);
    if r.field == BlockedField && key in b.last {
      var i :| 0 <= i < |journal| && b.last[key] == journal[i] && HasKey(journal[i], key);
      var k :| 0 <= k < |journal| && b.tasks[worker] == journal[k].cursor && TaskBy(journal[k], worker);
      assert i < k;
    }
  }

  /** An event of another key leaves a pending append as good as it was. */
  lemma {:induction false} StillFollows(journal: seq<TeamEvent>, e: TeamEvent, worker: string, c: CarrierEvent)
    requires Follows(journal, worker, c) && !HasKey(e, KeyOf(c))
    ensures Follows(journal + [e], worker, c)
  {
    FoldStep(journal, e);
    if c.field == BlockedField && LastOf(journal, KeyOf(c)).Some? {
      var from := Fold(journal).last[KeyOf(c)].cursor;
      var k :| from <= k < |journal| && TaskBy(journal[k], worker);
      assert (journal + [e])[k] == journal[k];
    }
  }

  lemma {:induction false} AppendKeepsInv(w: World, body: Body, leases: map<string, Pending>)
    requires Inv(w) && EventFollows(w.journal, Event(|w.journal| + 1, body))
    requires forall m | m in leases :: m in w.leases && leases[m] == w.leases[m]
    requires CarrierIn(body).Some? ==> CarrierIn(body).value.membership !in leases
    ensures Inv(w.(journal := Appended(w.journal, body), leases := leases))
  {
    var n, grown := |w.journal|, Appended(w.journal, body);
    assert grown[..n] == w.journal;
    forall i | 0 <= i < |grown| ensures EventFollows(grown[..i], grown[i]) {
      if i < n {
        assert grown[..i] == w.journal[..i];
      }
    }
    forall i | 0 <= i < |w.observers| ensures w.observers[i] == Fold(grown[..w.observers[i].cursor]) {
      assert grown[..w.observers[i].cursor] == w.journal[..w.observers[i].cursor];
    }
    forall m | m in leases ensures Follows(grown, leases[m].worker, leases[m].carrier) {
      StillFollows(w.journal, grown[n], leases[m].worker, leases[m].carrier);
    }
  }

  lemma {:induction false} ReadKeepsInv(w: World, i: nat)
    requires Inv(w) && i < |w.observers|
    ensures CatchUp(w.observers[i], w.journal) == Fold(w.journal) && w.observers[i].cursor <= LastCursor(w.journal)
    ensures Inv(w.(observers := w.observers[i := Fold(w.journal)]))
  {
    hide CatchUp, Fold, EventFollows, Follows;
    CatchUpIsFold(w.journal[..w.observers[i].cursor], w.journal);
    FoldMeaning(w.journal[..w.observers[i].cursor], Key("", None, None, BindingField, None), "");
    FoldMeaning(w.journal, Key("", None, None, BindingField, None), "");
    assert w.journal[..|w.journal|] == w.journal;
  }

  lemma {:induction false} NextKeepsInv(w: World, s: Step)
    requires Inv(w)
    ensures Inv(Next(w, s)) && w.journal <= Next(w, s).journal
  {
    match s
    case Other(body) =>
      if CarrierIn(body).None? {
        AppendKeepsInv(w, body, w.leases);
      }
    case Join =>
      assert w.journal[..0] == [];
    case Refresh(i) =>
      if i < |w.observers| {
        ReadKeepsInv(w, i);
      }
    case Begin(i, r) =>
      if i < |w.observers| && r.view.membership !in w.leases && WellCalled(r) && StillHolds(r) {
        ReadKeepsInv(w, i);
        if Decide(Fold(w.journal), r).Emit? {
          DecisionFollows(w.journal, r);
        }
      }
    case Commit(membership) =>
      if membership in w.leases {
        var p := w.leases[membership];
        AppendKeepsInv(w, WorkerBody("", p.worker, membership, "carrier", Some(p.carrier)), w.leases - {membership});
      }
    case Abandon(_) =>
  }

  function Run(w: World, steps: seq<Step>): World
    decreases |steps|
  {
    if steps == [] then w else Run(Next(w, steps[0]), steps[1..])
  }

  lemma {:induction false} RunKeepsInv(w: World, steps: seq<Step>)
    requires Inv(w)
    ensures Inv(Run(w, steps)) && w.journal <= Run(w, steps).journal
    decreases |steps|
  {
    if steps != [] {
      NextKeepsInv(w, steps[0]);
      RunKeepsInv(Next(w, steps[0]), steps[1..]);
    }
  }

  const START := World([], [], map[])

  /** Two events of one key with none of that key between them: the later goes on from where the earlier ended. */
  lemma {:induction false} Chained(steps: seq<Step>, i: nat, j: nat, key: Key)
    requires var journal := Run(START, steps).journal;
             i < j < |journal| && HasKey(journal[i], key) && HasKey(journal[j], key)
             && forall k | i < k < j :: !HasKey(journal[k], key)
    ensures var journal := Run(START, steps).journal;
            CarrierIn(journal[j].body).value.from == CarrierIn(journal[i].body).value.to
  {
    hide Run, Next, Fold;
    RunKeepsInv(START, steps);
    var journal := Run(START, steps).journal;
    var before := journal[..j];
    assert before[i] == journal[i] && forall k | 0 <= k < j :: before[k] == journal[k];
    FoldMeaning(before, key, "");
    assert Fold(before).last[key] == journal[i];
    assert EventFollows(before, journal[j]);
  }

  /** The first event of a key starts from "unknown". */
  lemma {:induction false} StartsUnknown(steps: seq<Step>, j: nat, key: Key)
    requires var journal := Run(START, steps).journal;
             j < |journal| && HasKey(journal[j], key) && forall k | 0 <= k < j :: !HasKey(journal[k], key)
    ensures CarrierIn(Run(START, steps).journal[j].body).value.from == UNKNOWN
  {
    RunKeepsInv(START, steps);
    var journal := Run(START, steps).journal;
    var before := journal[..j];
    assert forall k | 0 <= k < j :: before[k] == journal[k];
    FoldMeaning(before, key, "");
    assert EventFollows(before, journal[j]);
  }

  /** Between two blocked events of one key lies a Task event by the Worker the later one names. */
  lemma {:induction false} BlockedAgainAfterTask(steps: seq<Step>, i: nat, j: nat, key: Key) returns (k: nat)
    requires var journal := Run(START, steps).journal;
             i < j < |journal| && HasKey(journal[i], key) && HasKey(journal[j], key) && key.field == BlockedField
    ensures var journal := Run(START, steps).journal;
            i < k < j && TaskBy(journal[k], journal[j].body.worker)
  {
    RunKeepsInv(START, steps);
    var journal := Run(START, steps).journal;
    var before := journal[..j];
    assert before[i] == journal[i];
    FoldMeaning(before, key, "");
    var l :| 0 <= l < |before| && Fold(before).last[key] == before[l] && (forall m | l < m < |before| :: !HasKey(before[m], key));
    assert i <= l && before[l].cursor == l + 1;
    assert EventFollows(before, journal[j]);
    k :| l + 1 <= k < |before| && TaskBy(before[k], journal[j].body.worker);
  }

  /** Every observer's maps are the fold of the journal up to its cursor. */
  lemma {:induction false} BaselineIsFold(steps: seq<Step>, i: nat)
    requires i < |Run(START, steps).observers|
    ensures var w := Run(START, steps);
            w.observers[i].cursor <= |w.journal| && w.observers[i] == Fold(w.journal[..w.observers[i].cursor])
  {
    RunKeepsInv(START, steps);
  }

  /** What is decided under a free lease and then committed stands in the journal, as the next event. */
  lemma {:induction false} DecidedIsJournaled(w: World, i: nat, r: Request)
    requires Inv(w) && i < |w.observers| && r.view.membership !in w.leases && WellCalled(r) && StillHolds(r)
    ensures var d, n := Decide(Fold(w.journal), r), Next(Next(w, Begin(i, r)), Commit(r.view.membership));
            && n.journal == (if d.Emit?
                             then w.journal + [Event(|w.journal| + 1, WorkerBody("", r.view.worker, r.view.membership, "carrier", Some(d.carrier)))]
                             else w.journal)
            && n.leases == w.leases
            && Next(Next(w, Begin(i, r)), Abandon(r.view.membership)).journal == w.journal
  {
    hide Fold, CatchUp, Decide;
    ReadKeepsInv(w, i);
    assert w.leases - {r.view.membership} == w.leases;
  }

  // ---- saying the same again ----

  lemma {:induction false} LastStays(journal: seq<TeamEvent>, later: seq<TeamEvent>, key: Key)
    requires forall i | 0 <= i < |later| :: !HasKey(later[i], key)
    ensures var b := Fold(journal + later).last;
            (key in b <==> key in Fold(journal).last) && (key in b ==> b[key] == Fold(journal).last[key])
    decreases |later|
  {
    if later == [] {
      assert journal + later == journal;
    } else {
      var n := |later| - 1;
      LastStays(journal, later[..n], key);
      assert journal + later == journal + later[..n] + [later[n]];
      FoldStep(journal + later[..n], later[n]);
    }
  }

  /**
   An accepted publication repeated unchanged appends nothing, whatever others
   published since; a hung reload is repeated exactly while the first report
   came before its fifteen seconds were over.
   */
  lemma {:induction false} SaidOnce(journal: seq<TeamEvent>, later: seq<TeamEvent>, r: Request, again: Request)
    requires Numbered(journal) && WellCalled(r) && Decide(Fold(journal), r).Emit?
    requires again == r.(now := again.now)
    requires forall i | 0 <= i < |later| :: !HasKey(later[i], ViewKey(r.view, r.field))
    requires r.field == BlockedField ==> forall i | 0 <= i < |later| :: !TaskBy(later[i], r.view.worker)
    ensures var e := Event(|journal| + 1, WorkerBody("", r.view.worker, r.view.membership, "carrier", Some(Decide(Fold(journal), r).carrier)));
            var stop := r.view.lastStop;
            Decide(Fold(journal + [e] + later), again) == Unchanged <==>
            (r.fact == Some(ReloadHung) ==> stop.Some? && stop.value.observedAt + RELOAD_HUNG_MS <= r.now)
  {
    var key, c := ViewKey(r.view, r.field), Decide(Fold(journal), r).carrier;
    var e := Event(|journal| + 1, WorkerBody("", r.view.worker, r.view.membership, "carrier", Some(c)));
    var grown := journal + [e] + later;
    DecisionFollows(journal, r);
    FoldStep(journal, e);
    LastStays(journal + [e], later, key);
    assert Fold(grown).last[key] == e;
    if r.field == BlockedField {
      FoldMeaning(grown, key, r.view.worker);
      TasksBefore(journal, e, later, r.view.worker);
    }
  }

  lemma {:induction false} TasksBefore(journal: seq<TeamEvent>, e: TeamEvent, later: seq<TeamEvent>, worker: string)
    requires Numbered(journal) && !e.body.TaskBody?
    requires forall i | 0 <= i < |later| :: !TaskBy(later[i], worker)
    ensures var t := Fold(journal + [e] + later).tasks; worker in t ==> t[worker] <= |journal|
  {
    var grown := journal + [e] + later;
    FoldMeaning(grown, Key("", None, None, BindingField, None), worker);
    assert forall k | |journal| < k < |grown| :: grown[k] == later[k - |journal| - 1];
    if worker in Fold(grown).tasks {
      var i :| 0 <= i < |grown| && Fold(grown).tasks[worker] == grown[i].cursor && TaskBy(grown[i], worker);
      assert i < |journal| && grown[i] == journal[i];
    }
  }
}
