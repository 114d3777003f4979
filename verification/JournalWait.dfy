/**
 The check-register-check wait on the journal, with other processes appending
 at any moment (waitForTeamEvents).
 */
module JournalWait {
  import opened Wrappers
  import opened JournalText
  import opened TeamEvents
  import opened JournalPages

  datatype Query = Query(after: nat, filter: Filter, limit: Option<int>, waits: bool)

  /** Fresh: not called. Looked: the first read found nothing. Armed: watcher and timer are on. */
  datatype Phase = Fresh | Looked | Armed

  /** A scan is one synchronous call; its read is a step of its own, since other processes may append around it. */
  datatype Scan = Idle | BeforeRead | AfterRead

  datatype Outcome = Resolved(batch: Batch, timedOut: bool) | Rejected

  datatype Waiting = Waiting(
    query: Query,
    journal: seq<TeamEvent>,
    phase: Phase,
    firstScan: bool,        // the scan right after registration has not begun
    hints: set<nat>,        // cursors whose directory notification is still to be delivered
    scan: Scan,
    rescan: bool,
    microtask: bool,        // queueMicrotask(scan) is pending
    outcomes: seq<Outcome>)

  datatype Step =
    | Append(event: TeamEvent)      // some process, possibly another one
    | FirstRead(fails: bool)
    | Register
    | BeginFirstScan
    | Hint(cursor: nat)
    | Read(fails: bool)
    | EndScan
    | Microtask
    | TimerFires(fails: bool)
    | AbortOrWatchError

  predicate Settled(w: Waiting) {
    w.outcomes != []
  }

  function Look(w: Waiting): Result<Batch, ReadError> {
    ReadEvents(w.journal, w.query.after, w.query.filter, w.query.limit)
  }

  /** finish: only the first caller settles; it also closes the watcher and the timer. */
  function Finish(w: Waiting, outcome: Outcome): Waiting {
    if Settled(w) then w else w.(outcomes := w.outcomes + [outcome], hints := {})
  }

  function CallScan(w: Waiting): Waiting {
    if Settled(w) then w
    else if w.scan != Idle then w.(rescan := true)
    else w.(scan := BeforeRead)
  }

  function Next(w: Waiting, s: Step): Waiting {
    match s
    case Append(e) =>
      if e.cursor <= LastCursor(w.journal) then w
      else w.(journal := w.journal + [e], hints := if w.phase == Armed && !Settled(w) then w.hints + {e.cursor} else w.hints)
    case FirstRead(fails) =>
      if w.phase != Fresh || Settled(w) then w
      else if fails || Look(w).Err? then w.(outcomes := [Rejected])
      else if Look(w).value.events != [] || !w.query.waits then w.(outcomes := [Resolved(Look(w).value, false)])
      else w.(phase := Looked)
    case Register => if w.phase != Looked then w else w.(phase := Armed, firstScan := true)
    case BeginFirstScan => if !w.firstScan then w else CallScan(w.(firstScan := false))
    case Hint(cursor) => if cursor !in w.hints then w else CallScan(w.(hints := w.hints - {cursor}))
    case Read(fails) =>
      if w.scan != BeforeRead then w
      else
        var looked := w.(scan := AfterRead);
        if fails || Look(w).Err? then Finish(looked, Rejected)
        else if Look(w).value.events != [] then Finish(looked, Resolved(Look(w).value, false))
        else looked
    case EndScan =>
      if w.scan != AfterRead then w
      else if w.rescan && !Settled(w) then w.(scan := Idle, rescan := false, microtask := true)
      else w.(scan := Idle)
    case Microtask => if !w.microtask then w else CallScan(w.(microtask := false))
    case TimerFires(fails) =>
      if w.phase != Armed then w
      else if fails || Look(w).Err? then Finish(w, Rejected)
      else Finish(w, Resolved(Look(w).value, true))
    case AbortOrWatchError => if w.phase != Armed then w else Finish(w, Rejected)
  }

  function Unseen(w: Waiting): seq<TeamEvent> {
    Window(w.journal, w.query.after, LastCursor(w.journal), w.query.filter)
  }

  /** A scan that has not read yet is sure to come without any further notification. */
  predicate ScanDue(w: Waiting) {
    w.firstScan || w.scan == BeforeRead || w.rescan || w.microtask
  }

  /** An answer is a page of the journal as it is from then on; one given early is never empty. */
  predicate Faithful(w: Waiting, o: Outcome) {
    o.Resolved? ==>
      && o.batch.cursor <= LastCursor(w.journal)
      && o.batch.events == Window(w.journal, w.query.after, o.batch.cursor, w.query.filter)
      && (!o.timedOut && w.query.waits ==> o.batch.events != [])
  }

  ghost predicate Inv(w: Waiting) {
    && Increasing(w.journal, 0)
    && |w.outcomes| <= 1
    && (forall i | 0 <= i < |w.outcomes| :: Faithful(w, w.outcomes[i]))
    && (w.phase != Armed ==> !w.firstScan && w.scan == Idle && !w.rescan && !w.microtask)
    && (w.rescan && !Settled(w) ==> w.scan != Idle)
    && (w.hints != {} ==> w.phase == Armed && !Settled(w))
    && (w.phase == Armed && !Settled(w) && !ScanDue(w) ==> forall e | e in Unseen(w) :: e.cursor in w.hints)
  }

  function Start(query: Query, journal: seq<TeamEvent>): Waiting {
    Waiting(query, journal, Fresh, false, {}, Idle, false, false, [])
  }

  /** The first read answers at once if it finds events, fails, or was not to wait; otherwise the wait goes on to register. */
  lemma FirstReadIsDecided(query: Query, journal: seq<TeamEvent>, fails: bool)
    requires Increasing(journal, 0)
    ensures var n, look := Next(Start(query, journal), FirstRead(fails)), ReadEvents(journal, query.after, query.filter, query.limit);
            && (fails || look.Err? ==> n.outcomes == [Rejected])
            && (!fails && look.Ok? && (look.value.events != [] || !query.waits) ==> n.outcomes == [Resolved(look.value, false)])
            && (!fails && look.Ok? && look.value.events == [] && query.waits ==>
                  !Settled(n) && Next(n, Register).phase == Armed && Next(n, Register).firstScan)
  {
  }

  /** The time limit settles the wait with one last read, an abort or a watcher's error without one. */
  lemma LimitsSettle(w: Waiting, fails: bool)
    requires w.phase == Armed && !Settled(w)
    ensures Next(w, TimerFires(fails)).outcomes == [if fails || Look(w).Err? then Rejected else Resolved(Look(w).value, true)]
    ensures Next(w, AbortOrWatchError).outcomes == [Rejected]
    ensures Next(w, TimerFires(fails)).hints == Next(w, AbortOrWatchError).hints == {}
  {
  }

  /** What a read sees when it finds nothing: there is nothing to see. */
  lemma EmptyLook(w: Waiting)
    requires Increasing(w.journal, 0) && Look(w).Ok? && Look(w).value.events == []
    ensures Unseen(w) == []
  {
    PageIsWindow(w.journal, w.query.after, w.query.filter, w.query.limit);
  }

  lemma LookIsFaithful(w: Waiting, timedOut: bool)
    requires Increasing(w.journal, 0) && Look(w).Ok?
    requires timedOut || !w.query.waits || Look(w).value.events != []
    ensures Faithful(w, Resolved(Look(w).value, timedOut))
  {
    PageIsWindow(w.journal, w.query.after, w.query.filter, w.query.limit);
  }

  lemma AppendKeepsOrder(journal: seq<TeamEvent>, e: TeamEvent)
    requires Increasing(journal, 0) && LastCursor(journal) < e.cursor
    ensures Increasing(journal + [e], 0)
  {
  }

  lemma AppendKeepsInv(w: Waiting, e: TeamEvent)
    requires Inv(w)
    ensures Inv(Next(w, Append(e)))
  {
    hide Window, Increasing, Matches;
    if LastCursor(w.journal) < e.cursor {
      var n := Next(w, Append(e));
      var q, head := w.query, LastCursor(w.journal);
      AppendKeepsOrder(w.journal, e);
      forall i | 0 <= i < |n.outcomes| ensures Faithful(n, n.outcomes[i]) {
        if n.outcomes[i].Resolved? {
          WindowStable(w.journal, n.journal, q.after, n.outcomes[i].batch.cursor, q.filter);
        }
      }
      WindowMeaning(w.journal, 0, q.after, head, q.filter);
      WindowMeaning(n.journal, 0, q.after, e.cursor, q.filter);
    }
  }

  lemma ReadKeepsInv(w: Waiting, fails: bool)
    requires Inv(w)
    ensures Inv(Next(w, Read(fails)))
  {
    if w.scan == BeforeRead && !fails && Look(w).Ok? {
      if Look(w).value.events == [] {
        EmptyLook(w);
      } else {
        LookIsFaithful(w, false);
      }
    }
  }

  lemma OtherReadsKeepInv(w: Waiting, fails: bool)
    requires Inv(w)
    ensures Inv(Next(w, FirstRead(fails)))
    ensures Inv(Next(w, TimerFires(fails)))
  {
    if Look(w).Ok? {
      LookIsFaithful(w, true);
      if Look(w).value.events != [] || !w.query.waits {
        LookIsFaithful(w, false);
      }
    }
  }

  lemma NextKeepsInv(w: Waiting, s: Step)
    requires Inv(w)
    ensures Inv(Next(w, s))
  {
    match s
    case Append(e) => AppendKeepsInv(w, e);
    case Read(fails) => ReadKeepsInv(w, fails);
    case FirstRead(fails) => OtherReadsKeepInv(w, fails);
    case TimerFires(fails) => OtherReadsKeepInv(w, fails);
    case _ =>
  }

  function Run(w: Waiting, steps: seq<Step>): Waiting {
    if steps == [] then w else Next(Run(w, steps[..|steps| - 1]), steps[|steps| - 1])
  }

  lemma {:induction false} RunKeepsInv(w: Waiting, steps: seq<Step>)
    requires Inv(w)
    ensures Inv(Run(w, steps))
    decreases |steps|
  {
    if steps != [] {
      RunKeepsInv(w, steps[..|steps| - 1]);
      NextKeepsInv(Run(w, steps[..|steps| - 1]), steps[|steps| - 1]);
    }
  }

  /**
   No lost wakeup, in every interleaving: the wait settles at most once, with a
   page of the journal, and while it is open every unseen matching event has its
   notification still to come unless a read is already on its way.
   */
  lemma NoLostWakeup(query: Query, journal: seq<TeamEvent>, steps: seq<Step>)
    requires Increasing(journal, 0)
    ensures var w := Run(Start(query, journal), steps);
            && |w.outcomes| <= 1
            && (forall i | 0 <= i < |w.outcomes| :: Faithful(w, w.outcomes[i]))
            && (w.phase == Armed && w.outcomes == [] && !ScanDue(w) ==> forall e | e in Unseen(w) :: e.cursor in w.hints)
  {
    RunKeepsInv(Start(query, journal), steps);
  }

  /** Settled is final: no later step adds or changes an outcome. */
  lemma SettledIsFinal(w: Waiting, s: Step)
    requires Settled(w) && Inv(w)
    ensures Next(w, s).outcomes == w.outcomes
  {
  }

  /** The steps that bring a due read about, from wherever the scan stands. */
  function DueSteps(w: Waiting): seq<Step> {
    var begin := if w.firstScan then BeginFirstScan else Microtask;
    match w.scan
    case BeforeRead => [Read(false)]
    case Idle => [begin, Read(false)]
    case AfterRead => [EndScan, begin, Read(false)]
  }

  /** Nothing is missed for good: with an unseen event, either a due read or the event's own notification settles the wait. */
  lemma UnseenEventSettles(w: Waiting, e: TeamEvent)
    requires Inv(w) && w.phase == Armed && !Settled(w) && e in Unseen(w) && Look(w).Ok?
    ensures var ready := if ScanDue(w) then w else Next(w, Hint(e.cursor));
            var done := Run(ready, DueSteps(ready));
            Settled(done) && done.outcomes[0] == Resolved(Look(w).value, false)
  {
    var ready := if ScanDue(w) then w else Next(w, Hint(e.cursor));
    assert ScanDue(ready) && Look(ready) == Look(w);
    if Look(w).value.events == [] {
      EmptyLook(w);
      assert false;
    }
    DueReadSettles(ready);
  }

  lemma ReadSettles(w: Waiting)
    requires w.scan == BeforeRead && !Settled(w) && Look(w).Ok? && Look(w).value.events != []
    ensures Next(w, Read(false)).outcomes == [Resolved(Look(w).value, false)]
  {
  }

  /** From a due scan that is idle, one step begins it. */
  lemma BeginSettles(w: Waiting, begin: Step)
    requires w.scan == Idle && !Settled(w) && Look(w).Ok? && Look(w).value.events != []
    requires (begin == BeginFirstScan && w.firstScan) || (begin == Microtask && w.microtask)
    ensures Run(w, [begin, Read(false)]).outcomes == [Resolved(Look(w).value, false)]
  {
    RunTwo(w, begin, Read(false));
    ReadSettles(Next(w, begin));
  }

  lemma EndSettles(w: Waiting, begin: Step)
    requires w.scan == AfterRead && !Settled(w) && Look(w).Ok? && Look(w).value.events != []
    requires (begin == BeginFirstScan && w.firstScan) || (begin == Microtask && (w.microtask || w.rescan))
    ensures Run(w, [EndScan, begin, Read(false)]).outcomes == [Resolved(Look(w).value, false)]
  {
    RunThree(w, EndScan, begin, Read(false));
    RunTwo(Next(w, EndScan), begin, Read(false));
    BeginSettles(Next(w, EndScan), begin);
  }

  lemma DueReadSettles(w: Waiting)
    requires Inv(w) && w.phase == Armed && !Settled(w) && ScanDue(w)
    requires Look(w).Ok? && Look(w).value.events != []
    ensures Run(w, DueSteps(w)).outcomes == [Resolved(Look(w).value, false)]
  {
    if w.scan == BeforeRead {
      RunOne(w, Read(false));
      ReadSettles(w);
    } else {
      var begin := if w.firstScan then BeginFirstScan else Microtask;
      if w.scan == Idle {
        BeginSettles(w, begin);
      } else {
        EndSettles(w, begin);
      }
    }
  }

  lemma RunOne(w: Waiting, a: Step)
    ensures Run(w, [a]) == Next(w, a)
  {
    assert [a][..0] == [];
  }

  lemma RunTwo(w: Waiting, a: Step, b: Step)
    ensures Run(w, [a, b]) == Next(Next(w, a), b)
  {
    assert [a, b][..1] == [a];
    RunOne(w, a);
  }

  lemma RunThree(w: Waiting, a: Step, b: Step, c: Step)
    ensures Run(w, [a, b, c]) == Next(Next(Next(w, a), b), c)
  {
    assert [a, b, c][..2] == [a, b];
    RunTwo(w, a, b);
  }

  // ---- the variables of the wait, changed in place ----

  class EventWait {
    const query: Query
    var journal: seq<TeamEvent>  // the file, as other processes leave it
    var phase: Phase
    var firstScan: bool
    var hints: set<nat>
    var scanning: Scan
    var rescan: bool
    var microtask: bool
    var outcomes: seq<Outcome>

    function View(): Waiting
      reads this
    {
      Waiting(query, journal, phase, firstScan, hints, scanning, rescan, microtask, outcomes)
    }

    constructor (query: Query, journal: seq<TeamEvent>)
      ensures View() == Start(query, journal)
    {
      this.query, this.journal := query, journal;
      phase, firstScan, hints, scanning, rescan, microtask, outcomes := Fresh, false, {}, Idle, false, false, [];
    }

    method LookNow(fails: bool) returns (page: Option<Batch>)
      requires Increasing(journal, 0)
      ensures page == if fails || Look(View()).Err? then None else Some(Look(View()).value)
    {
      var read := ReadTeamEvents(journal, query.after, query.filter, query.limit);
      page := if fails || read.Err? then None else Some(read.value);
    }

    /** The read before anything is registered. */
    method LookFirst(fails: bool)
      requires Increasing(journal, 0) && phase == Fresh && outcomes == []
      modifies this
      ensures View() == Next(old(View()), FirstRead(fails))
    {
      var initial := LookNow(fails);
      if initial.None? {
        outcomes := [Rejected];
      } else if |initial.value.events| > 0 || !query.waits {
        outcomes := [Resolved(initial.value, false)];
      } else {
        phase := Looked;
      }
    }

    method RegisterWatcher()
      requires phase == Looked
      modifies this
      ensures View() == Next(old(View()), Register)
    {
      phase, firstScan := Armed, true;
    }

    method FinishWith(outcome: Outcome)
      modifies this
      ensures View() == Finish(old(View()), outcome)
    {
      if outcomes != [] {
        return;
      }
      outcomes, hints := [outcome], {};
    }

    method ScanNow()
      modifies this
      ensures View() == CallScan(old(View()))
    {
      if outcomes != [] {
        return;
      }
      if scanning != Idle {
        rescan := true;
        return;
      }
      scanning := BeforeRead;
    }

    method ReadOnce(fails: bool)
      requires Increasing(journal, 0) && scanning == BeforeRead
      modifies this
      ensures View() == Next(old(View()), Read(fails))
    {
      var batch := LookNow(fails);
      scanning := AfterRead;
      if batch.None? {
        FinishWith(Rejected);
      } else if |batch.value.events| > 0 {
        FinishWith(Resolved(batch.value, false));
      }
    }

    /** The finally block of the scan. */
    method ScanReturns()
      requires scanning == AfterRead
      modifies this
      ensures View() == Next(old(View()), EndScan)
    {
      scanning := Idle;
      if rescan && outcomes == [] {
        rescan, microtask := false, true;
      }
    }

    method MicrotaskRuns()
      requires microtask
      modifies this
      ensures View() == Next(old(View()), Microtask)
    {
      microtask := false;
      ScanNow();
    }

    method Notified(cursor: nat)
      requires cursor in hints
      modifies this
      ensures View() == Next(old(View()), Hint(cursor))
    {
      hints := hints - {cursor};
      ScanNow();
    }

    method FirstScanRuns()
      requires firstScan
      modifies this
      ensures View() == Next(old(View()), BeginFirstScan)
    {
      firstScan := false;
      ScanNow();
    }

    method TimeRunsOut(fails: bool)
      requires Increasing(journal, 0) && phase == Armed
      modifies this
      ensures View() == Next(old(View()), TimerFires(fails))
    {
      var batch := LookNow(fails);
      if batch.None? {
        FinishWith(Rejected);
      } else {
        FinishWith(Resolved(batch.value, true));
      }
    }
  }
}
