/**
 Pages that land on a branch which may be moved back and extended again, and the
 executable check that no page appears twice (p9NoDuplicatePage in
 sim/monitors/safety.ts). A landed page is stamped as the observation service
 stamps it (selected and observe in src/coordination/observation-service.ts).
 */
module BranchPages {
  import opened Wrappers
  import opened JournalText
  import opened JournalPages
  import opened TeamEvents
  import B = BranchObservation

  type Stamp = B.Stamp

  // ---- the check ----

  predicate Overlap(a: Stamp, b: Stamp) {
    a.scope == b.scope && a.from < a.through && b.from < b.through && a.from < b.through && b.from < a.through
  }

  predicate NoOverlap(stamps: seq<Stamp>) {
    forall i, j | 0 <= i < j < |stamps| :: !Overlap(stamps[i], stamps[j])
  }

  datatype Verdict = NotApplicable | Pass | Violation(at: nat)

  method P9NoDuplicatePage(stamps: seq<Stamp>) returns (v: Verdict)
    ensures v == NotApplicable <==> stamps == []
    ensures v == Pass <==> stamps != [] && NoOverlap(stamps)
    ensures v.Violation? ==> v.at < |stamps| && exists i | 0 <= i < v.at :: Overlap(stamps[i], stamps[v.at])
  {
    if |stamps| == 0 {
      return NotApplicable;
    }
    for i := 0 to |stamps|
      invariant forall k, j | 0 <= k < i && k < j < |stamps| :: !Overlap(stamps[k], stamps[j])
    {
      for j := i + 1 to |stamps|
        invariant forall m | i < m < j :: !Overlap(stamps[i], stamps[m])
      {
        var a, b := stamps[i], stamps[j];
        if a.scope != b.scope {
          continue;
        }
        if a.through <= a.from || b.through <= b.from {
          continue;
        }
        if a.from < b.through && b.from < a.through {
          assert Overlap(stamps[i], stamps[j]);
          return Violation(j);
        }
      }
    }
    v := Pass;
  }

  // ---- chains ----

  function InScope(branch: seq<B.Entry>, scope: B.Scope): seq<Stamp> {
    if branch == [] then []
    else
      var rest, stamp := InScope(branch[..|branch| - 1], scope), B.StampIn(branch[|branch| - 1], scope);
      if stamp.Some? then rest + [stamp.value] else rest
  }

  function End(stamps: seq<Stamp>): nat {
    if stamps == [] then 0 else stamps[|stamps| - 1].through
  }

  /** Each page starts where the one before ended, the first at zero. */
  predicate Chained(stamps: seq<Stamp>) {
    forall i | 0 <= i < |stamps| :: stamps[i].from == End(stamps[..i]) && stamps[i].from <= stamps[i].through
  }

  lemma {:induction false} ChainRises(stamps: seq<Stamp>, i: nat, j: nat)
    requires Chained(stamps) && i < j < |stamps|
    ensures stamps[i].through <= stamps[j].from
    decreases j
  {
    if i < j - 1 {
      ChainRises(stamps, i, j - 1);
    }
  }

  /** A chain never shows a page twice. */
  lemma {:induction false} ChainPassesCheck(stamps: seq<Stamp>)
    requires Chained(stamps)
    ensures NoOverlap(stamps)
  {
    forall i, j | 0 <= i < j < |stamps| ensures !Overlap(stamps[i], stamps[j]) {
      ChainRises(stamps, i, j);
    }
  }

  /** Along a chained branch every stamp in scope is accepted, and the rebuilt cursor is the chain's end. */
  lemma {:induction false} CursorIsChainEnd(branch: seq<B.Entry>, scope: B.Scope)
    requires Chained(InScope(branch, scope))
    ensures B.Read(branch, scope).cursor == End(InScope(branch, scope))
    ensures B.Read(branch, scope).last.None? <==> InScope(branch, scope) == []
  {
    if branch != [] {
      var front, e := branch[..|branch| - 1], branch[|branch| - 1];
      var before := InScope(front, scope);
      assert before == InScope(branch, scope)[..|before|];
      ChainPrefix(InScope(branch, scope), |before|);
      CursorIsChainEnd(front, scope);
      hide B.Absorb, B.StampIn;
      assert B.Read(branch, scope) == B.Absorb(B.Read(front, scope), |front|, e, scope);
      AbsorbNext(B.Read(front, scope), |front|, e, scope);
      if B.StampIn(e, scope).Some? {
        assert InScope(branch, scope)[|before|].from == End(before);
      }
    }
  }

  lemma AbsorbNext(r: B.Reading, index: nat, e: B.Entry, scope: B.Scope)
    ensures var next := B.Absorb(r, index, e, scope);
            match B.StampIn(e, scope)
            case None => next == r
            case Some(stamp) => r.cursor <= stamp.through ==> next.cursor == stamp.through && next.last == Some(index)
  {
  }

  lemma {:induction false} InScopePrefix(branch: seq<B.Entry>, scope: B.Scope, k: nat)
    requires k <= |branch|
    ensures InScope(branch[..k], scope) <= InScope(branch, scope)
    decreases |branch|
  {
    if k == |branch| {
      assert branch[..k] == branch;
    } else {
      InScopePrefix(branch[..|branch| - 1], scope, k);
      assert branch[..|branch| - 1][..k] == branch[..k];
    }
  }

  lemma ChainPrefix(stamps: seq<Stamp>, k: nat)
    requires Chained(stamps) && k <= |stamps|
    ensures Chained(stamps[..k])
  {
    assert forall i | 0 <= i < k :: stamps[..k][..i] == stamps[..i];
  }

  // ---- the pages hold each event once ----

  function Shown(journal: seq<TeamEvent>, stamps: seq<Stamp>): seq<TeamEvent> {
    if stamps == [] then []
    else
      var last := stamps[|stamps| - 1];
      Shown(journal, stamps[..|stamps| - 1]) + Window(journal, last.from, last.through, NO_FILTER)
  }

  /** The ranges of a chain together are everything up to its end: no event twice, none left out. */
  lemma {:induction false} ChainShowsAll(journal: seq<TeamEvent>, stamps: seq<Stamp>)
    requires Increasing(journal, 0) && Chained(stamps)
    ensures Shown(journal, stamps) == Window(journal, 0, End(stamps), NO_FILTER)
  {
    if stamps == [] {
      EmptyWindow(journal, 0, NO_FILTER);
    } else {
      var n := |stamps| - 1;
      ChainPrefix(stamps, n);
      ChainShowsAll(journal, stamps[..n]);
      WindowSplit(journal, 0, 0, End(stamps[..n]), End(stamps), NO_FILTER);
    }
  }

  // ---- branches that move ----

  /** The branch now selected, those left behind, the journal, and every page that landed, on whatever branch. */
  datatype Session = Session(branch: seq<B.Entry>, left: seq<seq<B.Entry>>, journal: seq<TeamEvent>, landed: seq<Stamp>)

  datatype Step =
    | Foreign(e: B.Entry)                                             // anything that does not bind the scope
    | Land(e: B.Entry, page: Option<nat>)                             // updates up to one of the unseen pages, or a snapshot
    | MoveBack(k: nat)                                                // an ancestor is selected
    | Select(i: nat, k: nat)                                          // an entry of a branch left behind is selected
    | Grow(bodies: seq<Body>)

  function Numbered(n: nat, bodies: seq<Body>): seq<TeamEvent> {
    seq(|bodies|, i requires 0 <= i < |bodies| => Event(n + i + 1, bodies[i]))
  }

  /** The pages of the journal past a cursor. */
  function UnseenPages(journal: seq<TeamEvent>, cursor: nat): seq<Batch> {
    var head := LastCursor(journal);
    Pages(Window(journal, cursor, head, NO_FILTER), DEFAULT_LIMIT, head)
  }

  /** From the branch cursor, zero if there is none, to the cursor of the page that was projected, or to the head. */
  predicate Lands(s: Session, scope: B.Scope, stamp: Stamp, page: Option<nat>) {
    var cursor := B.Read(s.branch, scope).cursor;
    && stamp.from == cursor <= LastCursor(s.journal)
    && match page
       case None => stamp.through == LastCursor(s.journal)
       case Some(k) => k < |UnseenPages(s.journal, cursor)| && stamp.through == UnseenPages(s.journal, cursor)[k].cursor
  }

  lemma {:induction false} PageCursors(unseen: seq<TeamEvent>, n: nat, head: nat, after: nat)
    requires 0 < n && Increasing(unseen, after) && after <= head && forall e | e in unseen :: e.cursor <= head
    ensures forall k | 0 <= k < |Pages(unseen, n, head)| :: after <= Pages(unseen, n, head)[k].cursor <= head
    decreases |unseen|
  {
    if n < |unseen| {
      assert unseen[n - 1] in unseen;
      PageCursors(unseen[n..], n, head, unseen[n - 1].cursor);
    }
  }

  function Next(s: Session, scope: B.Scope, step: Step): Session {
    match step
    case Foreign(e) => if B.StampIn(e, scope).Some? then s else s.(branch := s.branch + [e])
    case Land(e, page) =>
      var stamp := B.StampIn(e, scope);
      if stamp.None? || !Lands(s, scope, stamp.value, page) then s
      else s.(branch := s.branch + [e], landed := s.landed + [stamp.value])
    case MoveBack(k) => if |s.branch| < k then s else s.(branch := s.branch[..k], left := s.left + [s.branch])
    case Select(i, k) =>
      if |s.left| <= i || |s.left[i]| < k then s else s.(branch := s.left[i][..k], left := s.left + [s.branch])
    case Grow(bodies) => s.(journal := s.journal + Numbered(LastCursor(s.journal), bodies))
  }

  function High(landed: seq<Stamp>): nat {
    if landed == [] then 0
    else
      var rest, last := High(landed[..|landed| - 1]), landed[|landed| - 1].through;
      if rest < last then last else rest
  }

  /** Every page starts within what was shown before it, and all belong to the scope. */
  predicate Grounded(landed: seq<Stamp>, scope: B.Scope) {
    forall i | 0 <= i < |landed| :: landed[i].scope == scope && landed[i].from <= High(landed[..i]) && landed[i].from <= landed[i].through
  }

  predicate BranchOk(branch: seq<B.Entry>, scope: B.Scope, high: nat) {
    Chained(InScope(branch, scope)) && forall i | 0 <= i < |InScope(branch, scope)| :: InScope(branch, scope)[i].through <= high
  }

  ghost predicate Inv(s: Session, scope: B.Scope) {
    && Increasing(s.journal, 0) && Grounded(s.landed, scope) && High(s.landed) <= LastCursor(s.journal)
    && BranchOk(s.branch, scope, High(s.landed)) && forall i | 0 <= i < |s.left| :: BranchOk(s.left[i], scope, High(s.landed))
  }

  lemma {:induction false} PartIsOk(branch: seq<B.Entry>, scope: B.Scope, high: nat, k: nat)
    requires BranchOk(branch, scope, high) && k <= |branch|
    ensures BranchOk(branch[..k], scope, high)
  {
    InScopePrefix(branch, scope, k);
    var all, kept := InScope(branch, scope), InScope(branch[..k], scope);
    ChainPrefix(all, |kept|);
    assert kept == all[..|kept|];
  }

  lemma {:induction false} ExtendedIsOk(branch: seq<B.Entry>, scope: B.Scope, high: nat, e: B.Entry)
    requires BranchOk(branch, scope, high) && B.StampIn(e, scope).Some?
    requires B.StampIn(e, scope).value.from == B.Read(branch, scope).cursor <= B.StampIn(e, scope).value.through <= high
    ensures BranchOk(branch + [e], scope, high)
  {
    var stamp, before := B.StampIn(e, scope).value, InScope(branch, scope);
    CursorIsChainEnd(branch, scope);
    assert (branch + [e])[..|branch|] == branch;
    var after := before + [stamp];
    assert InScope(branch + [e], scope) == after && after[..|before|] == before;
    assert forall i | 0 <= i < |before| :: after[..i] == before[..i] && after[i] == before[i];
  }

  lemma {:induction false} LandedIsGrounded(landed: seq<Stamp>, scope: B.Scope, stamp: Stamp)
    requires Grounded(landed, scope) && stamp.scope == scope && stamp.from <= High(landed) && stamp.from <= stamp.through
    ensures Grounded(landed + [stamp], scope)
    ensures High(landed + [stamp]) == if High(landed) < stamp.through then stamp.through else High(landed)
  {
    var more := landed + [stamp];
    assert more[..|landed|] == landed;
    assert forall i | 0 <= i < |landed| :: more[..i] == landed[..i] && more[i] == landed[i];
  }

  lemma {:induction false} LandKeepsInv(s: Session, scope: B.Scope, e: B.Entry, page: Option<nat>)
    requires Inv(s, scope) && B.StampIn(e, scope).Some? && Lands(s, scope, B.StampIn(e, scope).value, page)
    ensures Inv(Next(s, scope, Land(e, page)), scope)
  {
    hide B.Read, B.StampIn, InScope, Chained, Grounded, High, Lands, Increasing, LastCursor, BranchOk;
    var stamp := B.StampIn(e, scope).value;
    var landed := s.landed + [stamp];
    StampIsScoped(e, scope);
    LandBounds(s, scope, stamp, page);
    CursorWithin(s.branch, scope, High(s.landed));
    LandedIsGrounded(s.landed, scope, stamp);
    HigherIsOk(s.branch, scope, High(s.landed), High(landed));
    ExtendedIsOk(s.branch, scope, High(landed), e);
    forall i | 0 <= i < |s.left| ensures BranchOk(s.left[i], scope, High(landed)) {
      HigherIsOk(s.left[i], scope, High(s.landed), High(landed));
    }
  }

  lemma StampIsScoped(e: B.Entry, scope: B.Scope)
    requires B.StampIn(e, scope).Some?
    ensures B.StampIn(e, scope).value.scope == scope
  {
  }

  lemma {:induction false} LandBounds(s: Session, scope: B.Scope, stamp: Stamp, page: Option<nat>)
    requires Increasing(s.journal, 0) && Lands(s, scope, stamp, page)
    ensures B.Read(s.branch, scope).cursor == stamp.from <= stamp.through <= LastCursor(s.journal)
  {
    hide B.Read, Window, Pages;
    var head := LastCursor(s.journal);
    var unseen := Window(s.journal, stamp.from, head, NO_FILTER);
    WindowMeaning(s.journal, 0, stamp.from, head, NO_FILTER);
    PageCursors(unseen, DEFAULT_LIMIT, head, stamp.from);
  }

  lemma {:induction false} CursorWithin(branch: seq<B.Entry>, scope: B.Scope, high: nat)
    requires BranchOk(branch, scope, high)
    ensures B.Read(branch, scope).cursor <= high
  {
    hide B.Read, Chained;
    CursorIsChainEnd(branch, scope);
  }

  lemma HigherIsOk(branch: seq<B.Entry>, scope: B.Scope, high: nat, higher: nat)
    requires BranchOk(branch, scope, high) && high <= higher
    ensures BranchOk(branch, scope, higher)
  {
    hide InScope, Chained;
  }

  lemma {:induction false} NextKeepsInv(s: Session, scope: B.Scope, step: Step)
    requires Inv(s, scope)
    ensures Inv(Next(s, scope, step), scope)
  {
    hide High, Chained, Grounded, B.Read, B.StampIn, Lands;
    match step
    case Foreign(e) =>
      assert (s.branch + [e])[..|s.branch|] == s.branch;
    case Land(e, page) =>
      if B.StampIn(e, scope).Some? && Lands(s, scope, B.StampIn(e, scope).value, page) {
        LandKeepsInv(s, scope, e, page);
      }
    case MoveBack(k) =>
      if k <= |s.branch| {
        PartIsOk(s.branch, scope, High(s.landed), k);
      }
    case Select(i, k) =>
      if i < |s.left| && k <= |s.left[i]| {
        PartIsOk(s.left[i], scope, High(s.landed), k);
      }
    case Grow(bodies) =>
  }

  function Run(s: Session, scope: B.Scope, steps: seq<Step>): Session
    decreases |steps|
  {
    if steps == [] then s else Run(Next(s, scope, steps[0]), scope, steps[1..])
  }

  lemma {:induction false} RunKeepsInv(s: Session, scope: B.Scope, steps: seq<Step>)
    requires Inv(s, scope)
    ensures Inv(Run(s, scope, steps), scope)
    decreases |steps|
  {
    if steps != [] {
      NextKeepsInv(s, scope, steps[0]);
      RunKeepsInv(Next(s, scope, steps[0]), scope, steps[1..]);
    }
  }

  /** An entry stamped from the branch cursor to the head, or to the end of an unseen page, lands, and then the cursor is there. */
  lemma {:induction false} StampedPageLands(s: Session, scope: B.Scope, e: B.Entry, page: Option<nat>, through: nat)
    requires Inv(s, scope)
    requires var cursor := B.Read(s.branch, scope).cursor;
             && B.StampIn(e, scope) == Some(B.Stamp(scope, cursor, through))
             && (page.None? ==> through == LastCursor(s.journal))
             && (page.Some? ==> page.value < |UnseenPages(s.journal, cursor)| && through == UnseenPages(s.journal, cursor)[page.value].cursor)
    ensures var n := Next(s, scope, Land(e, page));
            n.branch == s.branch + [e] && n.landed == s.landed + [B.Stamp(scope, B.Read(s.branch, scope).cursor, through)]
            && B.Read(n.branch, scope).cursor == through
  {
    var cursor := B.Read(s.branch, scope).cursor;
    CursorWithin(s.branch, scope, High(s.landed));
    LandBounds(s, scope, B.Stamp(scope, cursor, through), page);
    var n := s.branch + [e];
    assert n[..|n| - 1] == s.branch;
  }

  const START := Session([], [], [], [])

  /**
   Along the selected branch of every run, be it left and selected again: pages
   chain end to end, the cursor is their end, each event is shown once, and the
   monitor passes.
   */
  lemma {:induction false} BranchPagesChain(scope: B.Scope, steps: seq<Step>)
    ensures var s := Run(START, scope, steps);
            var stamps := InScope(s.branch, scope);
            && Chained(stamps) && B.Read(s.branch, scope).cursor == End(stamps) && NoOverlap(stamps)
            && Shown(s.journal, stamps) == Window(s.journal, 0, End(stamps), NO_FILTER)
  {
    RunKeepsInv(START, scope, steps);
    var s := Run(START, scope, steps);
    var stamps := InScope(s.branch, scope);
    CursorIsChainEnd(s.branch, scope);
    ChainPassesCheck(stamps);
    ChainShowsAll(s.journal, stamps);
  }

  // ---- the check over the whole history ----

  /** The pages landed so far leave no gap below their high water mark. */
  lemma {:induction false} NoGap(landed: seq<Stamp>, scope: B.Scope, event: nat) returns (i: nat)
    requires Grounded(landed, scope) && 0 < event <= High(landed)
    ensures i < |landed| && landed[i].from < event <= landed[i].through
    decreases |landed|
  {
    var n := |landed| - 1;
    if event <= High(landed[..n]) {
      assert forall k | 0 <= k < n :: landed[..n][..k] == landed[..k];
      i := NoGap(landed[..n], scope, event);
    } else {
      i := n;
    }
  }

  /** Every page that holds events starts at the high water mark of all pages before it. */
  predicate AlwaysAhead(landed: seq<Stamp>) {
    forall j | 0 <= j < |landed| :: landed[j].from < landed[j].through ==> High(landed[..j]) <= landed[j].from
  }

  lemma {:induction false} HighIsMax(landed: seq<Stamp>, i: nat)
    requires i < |landed|
    ensures landed[i].through <= High(landed)
  {
    if i < |landed| - 1 {
      HighIsMax(landed[..|landed| - 1], i);
    }
  }

  /**
   The check does not know branches: over everything that landed it passes
   exactly when no page with events was taken from a branch moved back behind
   an earlier page.
   */
  lemma {:induction false} HistoryPassesIffAhead(landed: seq<Stamp>, scope: B.Scope)
    requires Grounded(landed, scope)
    ensures NoOverlap(landed) <==> AlwaysAhead(landed)
  {
    if AlwaysAhead(landed) {
      forall i, j | 0 <= i < j < |landed| ensures !Overlap(landed[i], landed[j]) {
        HighIsMax(landed[..j], i);
      }
    }
    if NoOverlap(landed) {
      forall j | 0 <= j < |landed| && landed[j].from < landed[j].through ensures High(landed[..j]) <= landed[j].from {
        if landed[j].from < High(landed[..j]) {
          AheadOrOverlap(landed, scope, j);
        }
      }
    }
  }

  lemma {:induction false} AheadOrOverlap(landed: seq<Stamp>, scope: B.Scope, j: nat)
    requires Grounded(landed, scope) && j < |landed| && landed[j].from < landed[j].through && landed[j].from < High(landed[..j])
    ensures !NoOverlap(landed)
  {
    assert forall k | 0 <= k < j :: landed[..j][..k] == landed[..k];
    var i := NoGap(landed[..j], scope, landed[j].from + 1);
    assert Overlap(landed[i], landed[j]);
  }

  /** In every run, the history passes the check exactly when every page was ahead. */
  lemma {:induction false} RunHistoryPasses(scope: B.Scope, steps: seq<Step>)
    ensures var landed := Run(START, scope, steps).landed;
            NoOverlap(landed) <==> AlwaysAhead(landed)
  {
    RunKeepsInv(START, scope, steps);
    HistoryPassesIffAhead(Run(START, scope, steps).landed, scope);
  }

  /** And such a page is possible: moved back to the root, the same page lands again. */
  lemma {:induction false} MovedBackIsFlagged(scope: B.Scope, e: B.Entry, body: Body)
    requires B.StampIn(e, scope) == Some(B.Stamp(scope, 0, 1))
    ensures var landed := Run(START, scope, [Grow([body]), Land(e, Some(0)), MoveBack(0), Land(e, Some(0))]).landed;
            landed == [B.Stamp(scope, 0, 1), B.Stamp(scope, 0, 1)] && !NoOverlap(landed)
  {
    var stamp, land := B.Stamp(scope, 0, 1), Land(e, Some(0));
    var grown := Next(START, scope, Grow([body]));
    assert grown.journal == [Event(1, body)];
    WholePage(body);
    var one := Next(grown, scope, land);
    assert one == Session([e], [], grown.journal, [stamp]);
    var back := Next(one, scope, MoveBack(0));
    assert back == Session([], [[e]], grown.journal, [stamp]);
    var two := Next(back, scope, land);
    assert two.landed == [stamp, stamp] && Overlap(two.landed[0], two.landed[1]);
    var steps := [Grow([body]), land, MoveBack(0), land];
    assert steps[1..] == [land, MoveBack(0), land] && steps[1..][1..] == [MoveBack(0), land]
        && steps[1..][1..][1..] == [land] && steps[1..][1..][1..][1..] == [];
    assert Run(START, scope, steps) == Run(grown, scope, steps[1..]);
    assert Run(grown, scope, steps[1..]) == Run(one, scope, steps[1..][1..]);
    assert Run(one, scope, steps[1..][1..]) == Run(back, scope, steps[1..][1..][1..]);
    assert Run(back, scope, [land]) == Run(two, scope, []);
  }

  lemma WholePage(body: Body)
    ensures UnseenPages([Event(1, body)], 0) == [Batch(1, 1, [Event(1, body)], false, 0)]
  {
    var journal := [Event(1, body)];
    assert journal[1..] == [] && Window(journal[1..], 0, 1, NO_FILTER) == [];
    assert Matches(journal[0], NO_FILTER) && Window(journal, 0, 1, NO_FILTER) == journal;
  }
}
