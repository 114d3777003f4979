/**
 Where the next Worker pane goes and what its split does to the rectangles
 (adaptive placement in src/adapters/herdr-adapter.ts, `pane split` in sim/herdr.ts).
 Shares and ratios are exact rationals.
 */
module PaneGeometry {
  import opened TextOrder
  import opened Wrappers
  import opened Arithmetic

  const MIN_WIDTH: nat := 20
  const MIN_HEIGHT: nat := 5

  datatype Rect = Rect(x: int, y: int, width: int, height: int)

  datatype Share = Share(num: nat, den: nat)

  type PaneId = string

  datatype Pane = Pane(id: PaneId, rect: Rect)

  datatype Direction = Right | Down

  function Area(r: Rect): int {
    r.width * r.height
  }

  predicate Holds(r: Rect, x: int, y: int) {
    r.x <= x < r.x + r.width && r.y <= y < r.y + r.height
  }

  predicate Inside(r: Rect, region: Rect) {
    && region.x <= r.x && r.x + r.width <= region.x + region.width
    && region.y <= r.y && r.y + r.height <= region.y + region.height
  }

  predicate Usable(r: Rect) {
    MIN_WIDTH <= r.width && MIN_HEIGHT <= r.height
  }

  /** The split of one pane: the existing pane keeps the floor of its share, the child takes the rest. */
  function Split(r: Rect, direction: Direction, ratio: Share): (Rect, Rect)
    requires 0 < ratio.den
  {
    match direction
    case Right =>
      var kept := r.width * ratio.num / ratio.den;
      (r.(width := kept), r.(x := r.x + kept, width := r.width - kept))
    case Down =>
      var kept := r.height * ratio.num / ratio.den;
      (r.(height := kept), r.(y := r.y + kept, height := r.height - kept))
  }

  const HALF := Share(1, 2)

  // ---- choosing the pane to split ----

  /** Both halves stay usable. */
  predicate Viable(r: Rect, direction: Direction) {
    match direction
    case Right => MIN_WIDTH <= r.width / 2 && MIN_HEIGHT <= r.height
    case Down => MIN_HEIGHT <= r.height / 2 && MIN_WIDTH <= r.width
  }

  function Preferred(r: Rect, columns: nat): Direction {
    if r.height * columns <= r.width then Right else Down
  }

  function Other(d: Direction): Direction {
    if d == Right then Down else Right
  }

  function Choose(r: Rect, columns: nat): Option<Direction> {
    var first := Preferred(r, columns);
    if Viable(r, first) then Some(first) else if Viable(r, Other(first)) then Some(Other(first)) else None
  }

  /** The score is multiplied by the column count, so that it stays an integer. */
  datatype Candidate = Candidate(id: PaneId, fallback: bool, score: int, direction: Direction)

  function CandidateFor(p: Pane, columns: nat): Candidate
    requires Choose(p.rect, columns).Some?
  {
    var direction := Choose(p.rect, columns).value;
    var byHeight := p.rect.height * columns;
    Candidate(p.id, direction != Preferred(p.rect, columns), if byHeight < p.rect.width then p.rect.width else byHeight, direction)
  }

  /** Preferred axes first, then the higher score, then the smaller id. */
  predicate Before(a: Candidate, b: Candidate) {
    if a.fallback != b.fallback then !a.fallback
    else if a.score != b.score then b.score < a.score
    else TextBefore(a.id, b.id)
  }

  lemma BeforeIsTransitive(a: Candidate, b: Candidate, c: Candidate)
    requires Before(a, b) && Before(b, c)
    ensures Before(a, c)
  {
    if a.fallback == b.fallback == c.fallback && a.score == b.score == c.score {
      TextOrderIsTransitive(a.id, b.id, c.id);
    }
  }

  /** A pane is cut along the axis in which it is the longer, a row counting as `columns` columns. */
  predicate CutAcross(r: Rect, columns: nat) {
    columns * r.height <= r.width
  }

  /** Its own axis leaves both halves at least 20 wide and 5 high. */
  predicate CutsWell(r: Rect, columns: nat) {
    if CutAcross(r, columns) then 40 <= r.width && 5 <= r.height else 10 <= r.height && 20 <= r.width
  }

  function LongSide(r: Rect, columns: nat): int {
    if CutAcross(r, columns) then r.width else columns * r.height
  }

  /**
   Where the next pane goes: a pane is cut along its longer axis if that leaves both
   halves usable, else along the other if that does; of two panes the one cut along
   its longer axis is preferred, then the longer, then the smaller id.
   */
  lemma PlacementIsDecided(a: Pane, b: Pane, columns: nat)
    ensures Choose(a.rect, columns) == Some(Right)
            <==> 40 <= a.rect.width && 5 <= a.rect.height && (CutAcross(a.rect, columns) || !CutsWell(a.rect, columns))
    ensures Choose(a.rect, columns) == Some(Down)
            <==> 10 <= a.rect.height && 20 <= a.rect.width && (!CutAcross(a.rect, columns) || !CutsWell(a.rect, columns))
    ensures Choose(a.rect, columns).Some? && Choose(b.rect, columns).Some? ==>
              (Before(CandidateFor(a, columns), CandidateFor(b, columns)) <==>
                 var wellA, wellB := CutsWell(a.rect, columns), CutsWell(b.rect, columns);
                 var longA, longB := LongSide(a.rect, columns), LongSide(b.rect, columns);
                 || (wellA && !wellB)
                 || (wellA == wellB && longB < longA)
                 || (wellA == wellB && longA == longB && TextBefore(a.id, b.id)))
  {
    hide TextBefore;
    assert forall r: Rect :: r.height * columns == columns * r.height;
  }

  predicate RightOf(r: Rect, leader: Rect) {
    leader.x + leader.width <= r.x && leader.y <= r.y && r.y + r.height <= leader.y + leader.height
  }

  predicate Eligible(p: Pane, leader: Rect, columns: nat) {
    RightOf(p.rect, leader) && Choose(p.rect, columns).Some?
  }

  predicate Distinct(panes: seq<Pane>) {
    forall i, j | 0 <= i < j < |panes| :: panes[i].id != panes[j].id
  }

  /** `at` is the eligible pane that comes before every other eligible pane. */
  predicate IsTarget(panes: seq<Pane>, leader: Rect, columns: nat, at: nat) {
    && at < |panes| && Eligible(panes[at], leader, columns)
    && forall i | 0 <= i < |panes| && i != at && Eligible(panes[i], leader, columns) ::
         Before(CandidateFor(panes[at], columns), CandidateFor(panes[i], columns))
  }

  lemma TargetIsUnique(panes: seq<Pane>, leader: Rect, columns: nat, a: nat, b: nat)
    requires IsTarget(panes, leader, columns, a) && IsTarget(panes, leader, columns, b)
    ensures a == b
  {
    if a != b {
      TextOrderIsTotal(panes[a].id, panes[b].id);
    }
  }

  /** adaptiveSplit: collect the candidates, then take the first in order. */
  method AdaptiveSplit(panes: seq<Pane>, leader: Rect, columns: nat) returns (target: Option<(nat, Direction)>)
    requires Distinct(panes)
    ensures target.None? <==> forall i | 0 <= i < |panes| :: !Eligible(panes[i], leader, columns)
    ensures target.Some? ==> IsTarget(panes, leader, columns, target.value.0)
                             && Choose(panes[target.value.0].rect, columns) == Some(target.value.1)
  {
    var best: Option<Candidate> := None;
    var at := 0;
    for i := 0 to |panes|
      invariant best.None? ==> forall k | 0 <= k < i :: !Eligible(panes[k], leader, columns)
      invariant best.Some? ==> at < i && Eligible(panes[at], leader, columns) && best.value == CandidateFor(panes[at], columns)
      invariant best.Some? ==> forall k | 0 <= k < i && k != at && Eligible(panes[k], leader, columns) ::
                                 Before(best.value, CandidateFor(panes[k], columns))
    {
      if Eligible(panes[i], leader, columns) {
        var candidate := CandidateFor(panes[i], columns);
        if best.None? || Before(candidate, best.value) {
          if best.Some? {
            forall k | 0 <= k < i && k != at && Eligible(panes[k], leader, columns)
              ensures Before(candidate, CandidateFor(panes[k], columns))
            {
              BeforeIsTransitive(candidate, best.value, CandidateFor(panes[k], columns));
            }
          }
          best, at := Some(candidate), i;
        } else {
          TextOrderIsTotal(candidate.id, best.value.id);
        }
      }
    }
    target := if best.None? then None else Some((at, best.value.direction));
  }

  // ---- a tab: the leader and its Workers ----

  datatype Tab = Tab(leader: Rect, workers: seq<Pane>)

  datatype Layout = Layout(share: Share, columns: nat, limit: Option<nat>)

  datatype Refusal = LimitReached | ShareLeavesNothing | FirstTooSmall | NoRoom

  predicate ValidLayout(l: Layout) {
    0 < l.share.num < l.share.den && l.share.den < 10 * l.share.num && 1 <= l.columns
  }

  function LeaderWidth(width: int, share: Share): int
    requires 0 < share.den
  {
    (width * share.num + share.den - 1) / share.den
  }

  ghost predicate Refused(t: Tab, l: Layout, why: Refusal)
    requires ValidLayout(l)
  {
    if l.limit.Some? && l.limit.value <= |t.workers| then why == LimitReached
    else if t.workers == [] then
      var kept := LeaderWidth(t.leader.width, l.share);
      if t.leader.width <= kept then why == ShareLeavesNothing
      else (kept < MIN_WIDTH || t.leader.width - kept < MIN_WIDTH || t.leader.height < MIN_HEIGHT) && why == FirstTooSmall
    else (forall i | 0 <= i < |t.workers| :: !Eligible(t.workers[i], t.leader, l.columns)) && why == NoRoom
  }

  /** What one accepted spawn does. */
  ghost predicate Spawned(t: Tab, l: Layout, id: PaneId, n: Tab)
    requires ValidLayout(l)
  {
    && !(exists why :: Refused(t, l, why))
    && if t.workers == [] then
         var kept := LeaderWidth(t.leader.width, l.share);
         n == Tab(t.leader.(width := kept),
                  [Pane(id, t.leader.(x := t.leader.x + kept, width := t.leader.width - kept))])
       else
         exists at :: IsTarget(t.workers, t.leader, l.columns, at) && n == t.(workers := SplitAt(t.workers, at, l.columns, id))
  }

  function SplitAt(panes: seq<Pane>, at: nat, columns: nat, id: PaneId): seq<Pane>
    requires at < |panes| && Choose(panes[at].rect, columns).Some?
  {
    var (kept, child) := Split(panes[at].rect, Choose(panes[at].rect, columns).value, HALF);
    panes[at := panes[at].(rect := kept)] + [Pane(id, child)]
  }

  // ---- the terminal ----

  /** The panes of one tab as the terminal server keeps them, changed in place. */
  class Terminal {
    var leader: Rect
    var workers: seq<Pane>

    ghost function View(): Tab
      reads this
    {
      Tab(leader, workers)
    }

    constructor (leader: Rect)
      ensures View() == Tab(leader, [])
    {
      this.leader, workers := leader, [];
    }

    /** `pane split` on the leader, for the first Worker. */
    method SplitLeader(id: PaneId, ratio: Share)
      requires 0 < ratio.den && workers == []
      modifies this
      ensures var s := Split(old(leader), Right, ratio);
              leader == s.0 && workers == [Pane(id, s.1)]
    {
      var child := leader;
      leader := leader.(width := leader.width * ratio.num / ratio.den);
      child := child.(x := child.x + leader.width);
      child := child.(width := child.width - leader.width);
      workers := [Pane(id, child)];
    }

    method SplitWorker(at: nat, direction: Direction, ratio: Share, id: PaneId)
      requires at < |workers| && 0 < ratio.den
      modifies this`workers
      ensures var s := Split(old(workers)[at].rect, direction, ratio);
              workers == old(workers)[at := old(workers)[at].(rect := s.0)] + [Pane(id, s.1)]
    {
      var pane, child := workers[at].rect, workers[at].rect;
      match direction {
        case Right =>
          pane := pane.(width := pane.width * ratio.num / ratio.den);
          child := child.(x := child.x + pane.width, width := child.width - pane.width);
        case Down =>
          pane := pane.(height := pane.height * ratio.num / ratio.den);
          child := child.(y := child.y + pane.height, height := child.height - pane.height);
      }
      workers := workers[at := workers[at].(rect := pane)] + [Pane(id, child)];
    }

    /** splitArgs with adaptive tiling, then the split it asks for. */
    method Spawn(layout: Layout, id: PaneId) returns (r: Option<Refusal>)
      requires ValidLayout(layout) && 0 < leader.width
      requires Distinct(workers) && forall i | 0 <= i < |workers| :: workers[i].id != id
      modifies this
      ensures r.Some? ==> Refused(old(View()), layout, r.value) && View() == old(View())
      ensures r.None? ==> Spawned(old(View()), layout, id, View())
    {
      if layout.limit.Some? && |workers| >= layout.limit.value {
        return Some(LimitReached);
      }
      if workers == [] {
        var width := leader.width;
        var requested := LeaderWidth(width, layout.share);
        if requested >= width {
          return Some(ShareLeavesNothing);
        }
        if requested < MIN_WIDTH || width - requested < MIN_WIDTH || leader.height < MIN_HEIGHT {
          return Some(FirstTooSmall);
        }
        ExactShare(width, requested);
        SplitLeader(id, Share(requested, width));
        return None;
      }
      var target := AdaptiveSplit(workers, leader, layout.columns);
      if target.None? {
        return Some(NoRoom);
      }
      ghost var before := View();
      SplitWorker(target.value.0, target.value.1, HALF, id);
      assert IsTarget(before.workers, before.leader, layout.columns, target.value.0);
      return None;
    }
  }

  lemma ExactShare(width: int, part: int)
    requires 0 < width
    ensures width * part / width == part
  {
    RemainderIsUnique(width * part, part, width, 0);
  }

  // ---- tiling ----

  predicate Apart(a: Rect, b: Rect) {
    a.x + a.width <= b.x || b.x + b.width <= a.x || a.y + a.height <= b.y || b.y + b.height <= a.y
  }

  /** The panes cover the region exactly and do not overlap. */
  ghost predicate Tiles(panes: seq<Pane>, region: Rect) {
    && (forall i | 0 <= i < |panes| :: Inside(panes[i].rect, region))
    && (forall i, j | 0 <= i < j < |panes| :: Apart(panes[i].rect, panes[j].rect))
    && (forall x, y | Holds(region, x, y) :: exists i :: 0 <= i < |panes| && Holds(panes[i].rect, x, y))
  }

  function TotalArea(panes: seq<Pane>): int {
    if panes == [] then 0 else TotalArea(panes[..|panes| - 1]) + Area(panes[|panes| - 1].rect)
  }

  lemma {:induction false} AreaAfterUpdate(panes: seq<Pane>, at: nat, p: Pane)
    requires at < |panes|
    ensures TotalArea(panes[at := p]) == TotalArea(panes) - Area(panes[at].rect) + Area(p.rect)
    decreases |panes|
  {
    var last := |panes| - 1;
    if at == last {
      assert panes[at := p][..last] == panes[..last];
    } else {
      AreaAfterUpdate(panes[..last], at, p);
      assert panes[at := p][..last] == panes[..last][at := p];
    }
  }

  lemma SplitShares(r: Rect, d: Direction)
    requires Viable(r, d)
    ensures var (a, b) := Split(r, d, HALF);
            && Usable(a) && Usable(b) && Apart(a, b) && Inside(a, r) && Inside(b, r)
            && Area(a) + Area(b) == Area(r)
            && (forall x, y :: Holds(r, x, y) <==> Holds(a, x, y) || Holds(b, x, y))
  {
    var (a, b) := Split(r, d, HALF);
    if d == Right {
      assert a.width + b.width == r.width;
      assert a.width * r.height + b.width * r.height == (a.width + b.width) * r.height;
    } else {
      assert a.height + b.height == r.height;
      assert r.width * a.height + r.width * b.height == r.width * (a.height + b.height);
    }
  }

  /** Splitting one pane of a tiling leaves a tiling. */
  lemma SplitKeepsTiling(panes: seq<Pane>, region: Rect, at: nat, columns: nat, id: PaneId)
    requires at < |panes| && Choose(panes[at].rect, columns).Some? && Tiles(panes, region)
    ensures Tiles(SplitAt(panes, at, columns, id), region)
  {
    var r := panes[at].rect;
    var d := Choose(r, columns).value;
    var (a, b) := Split(r, d, HALF);
    SplitShares(r, d);
    var after := SplitAt(panes, at, columns, id);
    forall x, y | Holds(region, x, y)
      ensures exists i :: 0 <= i < |after| && Holds(after[i].rect, x, y)
    {
      var i :| 0 <= i < |panes| && Holds(panes[i].rect, x, y);
      if i == at && !Holds(a, x, y) {
        assert Holds(after[|panes|].rect, x, y);
      } else {
        assert Holds(after[i].rect, x, y);
      }
    }
  }

  lemma SplitKeepsArea(panes: seq<Pane>, at: nat, columns: nat, id: PaneId)
    requires at < |panes| && Choose(panes[at].rect, columns).Some?
    ensures TotalArea(SplitAt(panes, at, columns, id)) == TotalArea(panes)
  {
    var r := panes[at].rect;
    var d := Choose(r, columns).value;
    SplitShares(r, d);
    var kept := panes[at].(rect := Split(r, d, HALF).0);
    AreaAfterUpdate(panes, at, kept);
    var after := SplitAt(panes, at, columns, id);
    assert after[..|panes|] == panes[at := kept];
  }

  /** What every tab that only ever split keeps. `whole` is the leader before the first Worker. */
  ghost predicate Inv(t: Tab, whole: Rect, l: Layout)
    requires ValidLayout(l)
  {
    if t.workers == [] then t.leader == whole
    else
      var kept := LeaderWidth(whole.width, l.share);
      && t.leader == whole.(width := kept)
      && MIN_WIDTH <= kept < whole.width
      && Tiles(t.workers, WorkerRegion(whole, l))
      && TotalArea(t.workers) == Area(WorkerRegion(whole, l))
      && (forall i | 0 <= i < |t.workers| :: Usable(t.workers[i].rect))
  }

  /** The region right of the leader. */
  function WorkerRegion(whole: Rect, l: Layout): Rect
    requires ValidLayout(l)
  {
    var kept := LeaderWidth(whole.width, l.share);
    whole.(x := whole.x + kept, width := whole.width - kept)
  }

  lemma OnePaneTiles(p: Pane)
    ensures Tiles([p], p.rect) && TotalArea([p]) == Area(p.rect)
  {
    assert [p][..0] == [];
    forall x, y | Holds(p.rect, x, y)
      ensures exists i :: 0 <= i < |[p]| && Holds([p][i].rect, x, y)
    {
      assert Holds([p][0].rect, x, y);
    }
  }

  lemma FirstSpawnKeepsInv(t: Tab, whole: Rect, l: Layout, id: PaneId, n: Tab)
    requires ValidLayout(l) && Inv(t, whole, l) && Spawned(t, l, id, n) && t.workers == []
    ensures Inv(n, whole, l) && |n.workers| == 1
  {
    assert !Refused(t, l, ShareLeavesNothing) && !Refused(t, l, FirstTooSmall) && !Refused(t, l, LimitReached);
    OnePaneTiles(n.workers[0]);
  }

  lemma LaterSpawnKeepsInv(t: Tab, whole: Rect, l: Layout, id: PaneId, at: nat)
    requires ValidLayout(l) && Inv(t, whole, l) && t.workers != []
    requires at < |t.workers| && Choose(t.workers[at].rect, l.columns).Some?
    ensures Inv(t.(workers := SplitAt(t.workers, at, l.columns, id)), whole, l)
  {
    SplitKeepsTiling(t.workers, WorkerRegion(whole, l), at, l.columns, id);
    SplitKeepsArea(t.workers, at, l.columns, id);
    SplitShares(t.workers[at].rect, Choose(t.workers[at].rect, l.columns).value);
  }

  lemma SpawnKeepsInv(t: Tab, whole: Rect, l: Layout, id: PaneId, n: Tab)
    requires ValidLayout(l) && Inv(t, whole, l) && Spawned(t, l, id, n)
    ensures Inv(n, whole, l) && |n.workers| == |t.workers| + 1
  {
    if t.workers == [] {
      FirstSpawnKeepsInv(t, whole, l, id, n);
    } else {
      var at: nat :| IsTarget(t.workers, t.leader, l.columns, at) && n == t.(workers := SplitAt(t.workers, at, l.columns, id));
      LaterSpawnKeepsInv(t, whole, l, id, at);
    }
  }

  /** A run of accepted spawns, with the ids the terminal gave. */
  ghost predicate IsRun(tabs: seq<Tab>, ids: seq<PaneId>, whole: Rect, l: Layout)
    requires ValidLayout(l)
  {
    && |tabs| == |ids| + 1
    && tabs[0] == Tab(whole, [])
    && forall i | 0 <= i < |ids| :: Spawned(tabs[i], l, ids[i], tabs[i + 1])
  }

  lemma {:induction false} RunKeepsInv(tabs: seq<Tab>, ids: seq<PaneId>, whole: Rect, l: Layout, k: nat)
    requires ValidLayout(l) && IsRun(tabs, ids, whole, l) && k < |tabs|
    ensures Inv(tabs[k], whole, l) && |tabs[k].workers| == k
  {
    if k > 0 {
      RunKeepsInv(tabs, ids, whole, l, k - 1);
      SpawnKeepsInv(tabs[k - 1], whole, l, ids[k - 1], tabs[k]);
    }
  }

  lemma UsableArea(r: Rect)
    requires Usable(r)
    ensures 100 <= Area(r)
  {
    assert 5 * r.width <= r.height * r.width;
  }

  lemma SmallArea(r: Rect)
    requires Usable(r) && r.width < 40 && r.height < 10
    ensures Area(r) <= 351
  {
    assert r.width * r.height <= r.width * 9;
  }

  lemma {:induction false} AreaBounds(panes: seq<Pane>)
    requires forall i | 0 <= i < |panes| :: Usable(panes[i].rect)
    ensures 100 * |panes| <= TotalArea(panes)
    ensures (forall i | 0 <= i < |panes| :: panes[i].rect.width < 40 && panes[i].rect.height < 10) ==> TotalArea(panes) <= 351 * |panes|
    decreases |panes|
  {
    if panes != [] {
      var last := panes[|panes| - 1].rect;
      AreaBounds(panes[..|panes| - 1]);
      UsableArea(last);
      if last.width < 40 && last.height < 10 {
        SmallArea(last);
      }
    }
  }

  lemma ShareIsKept(width: int, share: Share)
    requires 0 < share.den
    ensures width * share.num <= LeaderWidth(width, share) * share.den < width * share.num + share.den
  {
  }

  /** After any run of splits: an exact tiling of usable panes, as many as fit at 20x5 each, beside a leader with its share. */
  lemma AdaptiveTiling(tabs: seq<Tab>, ids: seq<PaneId>, whole: Rect, l: Layout, k: nat)
    requires ValidLayout(l) && IsRun(tabs, ids, whole, l) && 0 < k < |tabs|
    ensures var t, region := tabs[k], WorkerRegion(whole, l);
            && Tiles(t.workers, region) && |t.workers| == k
            && (forall i | 0 <= i < k :: Usable(t.workers[i].rect))
            && 100 * k <= Area(region)
            && whole.width * l.share.num <= t.leader.width * l.share.den
            && t.leader.width + region.width == whole.width && t.leader.height == region.height == whole.height
  {
    RunKeepsInv(tabs, ids, whole, l, k);
    AreaBounds(tabs[k].workers);
    ShareIsKept(whole.width, l.share);
  }

  /** A later spawn is refused for room exactly when every pane is narrower than 40 and lower than 10, and then the region is nearly full. */
  lemma RefusedOnlyWhenFull(tabs: seq<Tab>, ids: seq<PaneId>, whole: Rect, l: Layout, k: nat)
    requires ValidLayout(l) && IsRun(tabs, ids, whole, l) && 0 < k < |tabs|
    requires l.limit.Some? ==> k < l.limit.value
    ensures var t := tabs[k];
            && |t.workers| == k
            && (Refused(t, l, NoRoom) <==> forall i | 0 <= i < k :: t.workers[i].rect.width < 40 && t.workers[i].rect.height < 10)
            && (Refused(t, l, NoRoom) ==> Area(WorkerRegion(whole, l)) <= 351 * k)
  {
    RunKeepsInv(tabs, ids, whole, l, k);
    var t := tabs[k];
    AreaBounds(t.workers);
    forall i | 0 <= i < k
      ensures Eligible(t.workers[i], t.leader, l.columns) <==> 40 <= t.workers[i].rect.width || 10 <= t.workers[i].rect.height
    {
      assert Inside(t.workers[i].rect, WorkerRegion(whole, l));
    }
  }
}
