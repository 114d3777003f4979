/**
 What a Session branch has observed of a Team: its cursor and Tasks, rebuilt from
 the stamped entries (src/coordination/branch-observation.ts), and the pages that
 land on it.
 */
module BranchObservation {
  import opened Wrappers
  import opened JournalText
  import opened JournalPages
  import opened TeamEvents
  import opened TaskRevision

  datatype Scope = Scope(team: string, epoch: string, binding: string)

  datatype Stamp = Stamp(scope: Scope, from: nat, through: nat)

  /** Details as found; a member of another type reads as None. */
  datatype Details = NoDetails | Details(team: Option<string>, epoch: Option<string>, binding: Option<string>,
                                         from: Option<int>, through: Option<int>)

  datatype Content = Snapshot(tasks: seq<Json>) | Updates(changes: seq<Option<Json>>) | OtherContent

  datatype Kind = Update | Sync(isError: bool) | OtherKind

  datatype Entry = Entry(id: string, kind: Kind, details: Details, content: Content)

  const MAX_SAFE: int := 0x1F_FFFF_FFFF_FFFF

  predicate IsName(s: Option<string>) {
    s.Some? && s.value != ""
  }

  predicate IsSafe(n: Option<int>) {
    n.Some? && -MAX_SAFE <= n.value <= MAX_SAFE
  }

  /** observationStamp */
  function ObservationStamp(d: Details): Option<Stamp> {
    if !d.Details? || !IsName(d.team) || !IsName(d.epoch) || !IsName(d.binding)
       || !IsSafe(d.from) || !IsSafe(d.through) || d.from.value < 0 || d.through.value < d.from.value then None
    else Some(Stamp(Scope(d.team.value, d.epoch.value, d.binding.value), d.from.value, d.through.value))
  }

  /** The stamp of an entry that binds this scope; all other entries are foreign. */
  function StampIn(e: Entry, scope: Scope): Option<Stamp> {
    if e.kind == OtherKind || e.kind == Sync(true) then None
    else
      var stamp := ObservationStamp(e.details);
      if stamp.Some? && stamp.value.scope == scope then stamp else None
  }

  // ---- the Tasks, a map in insertion order ----

  function SetTask(tasks: seq<Json>, task: Json): seq<Json> {
    if tasks == [] then [task]
    else if IdOf(tasks[0]) == IdOf(task) then [task] + tasks[1..]
    else [tasks[0]] + SetTask(tasks[1..], task)
  }

  function SetAll(tasks: seq<Json>, more: seq<Json>): seq<Json>
    decreases |more|
  {
    if more == [] then tasks else SetTask(SetAll(tasks, more[..|more| - 1]), more[|more| - 1])
  }

  function Current(changes: seq<Option<Json>>): seq<Json> {
    if changes == [] then []
    else
      var rest, last := Current(changes[..|changes| - 1]), changes[|changes| - 1];
      if last.Some? then rest + [last.value] else rest
  }

  lemma {:induction false} SetTaskKeepsIds(tasks: seq<Json>, task: Json)
    requires DistinctIds(tasks)
    ensures DistinctIds(SetTask(tasks, task))
    ensures forall x :: x in SetTask(tasks, task) ==> x in tasks || x == task
    ensures task in SetTask(tasks, task)
  {
    hide IdOf;
    if tasks != [] && IdOf(tasks[0]) != IdOf(task) {
      var rest := tasks[1..];
      assert tasks == [tasks[0]] + rest;
      assert forall i | 0 <= i < |rest| :: rest[i] == tasks[i + 1];
      SetTaskKeepsIds(rest, task);
      PrependKeepsIds(tasks[0], SetTask(rest, task));
    } else if tasks != [] {
      assert tasks == [tasks[0]] + tasks[1..];
    }
  }

  lemma PrependKeepsIds(task: Json, tasks: seq<Json>)
    requires DistinctIds(tasks) && forall x | x in tasks :: IdOf(x) != IdOf(task)
    ensures DistinctIds([task] + tasks)
  {
    hide IdOf;
    assert forall i | 0 <= i < |tasks| :: ([task] + tasks)[i + 1] == tasks[i] && tasks[i] in tasks;
  }

  lemma {:induction false} SetAllKeepsIds(tasks: seq<Json>, more: seq<Json>)
    requires DistinctIds(tasks)
    ensures DistinctIds(SetAll(tasks, more))
    ensures forall x :: x in SetAll(tasks, more) ==> x in tasks || x in more
    decreases |more|
  {
    if more != [] {
      SetAllKeepsIds(tasks, more[..|more| - 1]);
      SetTaskKeepsIds(SetAll(tasks, more[..|more| - 1]), more[|more| - 1]);
    }
  }

  // ---- reading a branch ----

  /** The variables of the scan. */
  datatype Reading = Reading(last: Option<nat>, cursor: nat, tasks: seq<Json>, complete: bool)

  const UNREAD := Reading(None, 0, [], false)

  function Absorb(r: Reading, index: nat, e: Entry, scope: Scope): Reading {
    var stamp := StampIn(e, scope);
    if stamp.None? || (r.last.Some? && stamp.value.through < r.cursor) then r
    else
      var tasks := match e.content
                   case Snapshot(tasks) => SetAll([], tasks)
                   case Updates(changes) => SetAll(r.tasks, Current(changes))
                   case OtherContent => r.tasks;
      Reading(Some(index), stamp.value.through, tasks, r.complete || e.content.Snapshot?)
  }

  function Read(branch: seq<Entry>, scope: Scope): (r: Reading)
    ensures r.last.Some? ==> r.last.value < |branch|
  {
    if branch == [] then UNREAD
    else Absorb(Read(branch[..|branch| - 1], scope), |branch| - 1, branch[|branch| - 1], scope)
  }

  datatype Observation<D> = Observation(entryId: string, lineage: seq<string>, cursor: nat, revision: Option<D>, taskIds: seq<string>)

  function Ids(branch: seq<Entry>): seq<string> {
    seq(|branch|, i requires 0 <= i < |branch| => branch[i].id)
  }

  function TaskIds(tasks: seq<Json>): seq<string> {
    seq(|tasks|, i requires 0 <= i < |tasks| => IdOf(tasks[i]))
  }

  function Warnings(warningsOf: Json -> seq<Json>, tasks: seq<Json>): seq<Json> {
    if tasks == [] then [] else warningsOf(tasks[0]) + Warnings(warningsOf, tasks[1..])
  }

  function Observe<D>(env: Env<D>, warningsOf: Json -> seq<Json>, branch: seq<Entry>, scope: Scope): Option<Observation<D>> {
    var r := Read(branch, scope);
    if r.last.None? then None
    else
      Some(Observation(branch[r.last.value].id, Ids(branch[..r.last.value + 1]), r.cursor,
                       if r.complete then Some(Revision(env, r.tasks, Warnings(warningsOf, r.tasks))) else None,
                       TaskIds(r.tasks)))
  }

  method ReadBranchObservation<D>(env: Env<D>, warningsOf: Json -> seq<Json>, branch: seq<Entry>, scope: Scope) returns (r: Option<Observation<D>>)
    ensures r == Observe(env, warningsOf, branch, scope)
  {
    hide StampIn, SetAll, Current, Revision, Warnings;
    var last: Option<nat> := None;
    var cursor: nat := 0;
    var tasks: seq<Json> := [];
    var complete := false;
    for index := 0 to |branch|
      invariant Reading(last, cursor, tasks, complete) == Read(branch[..index], scope)
    {
      var entry := branch[index];
      assert branch[..index + 1][..index] == branch[..index];
      var stamp := StampIn(entry, scope);
      if stamp.None? {
        continue;
      }
      if last.Some? && stamp.value.through < cursor {
        continue;
      }
      match entry.content {
        case Snapshot(found) =>
          tasks := SetEach([], found);
          complete := true;
        case Updates(changes) =>
          tasks := SetChanged(tasks, changes);
        case OtherContent =>
      }
      last, cursor := Some(index), stamp.value.through;
    }
    assert branch[..|branch|] == branch;
    if last.None? {
      return None;
    }
    r := Some(Observation(branch[last.value].id, Ids(branch[..last.value + 1]), cursor,
                          if complete then Some(Revision(env, tasks, Warnings(warningsOf, tasks))) else None, TaskIds(tasks)));
  }

  method SetEach(before: seq<Json>, more: seq<Json>) returns (tasks: seq<Json>)
    ensures tasks == SetAll(before, more)
  {
    tasks := before;
    for i := 0 to |more|
      invariant tasks == SetAll(before, more[..i])
    {
      assert more[..i + 1][..i] == more[..i];
      tasks := SetTask(tasks, more[i]);
    }
    assert more[..|more|] == more;
  }

  method SetChanged(before: seq<Json>, changes: seq<Option<Json>>) returns (tasks: seq<Json>)
    ensures tasks == SetAll(before, Current(changes))
  {
    tasks := before;
    for i := 0 to |changes|
      invariant tasks == SetAll(before, Current(changes[..i]))
    {
      assert changes[..i + 1][..i] == changes[..i];
      ghost var current := Current(changes[..i]);
      if changes[i].Some? {
        assert (current + [changes[i].value])[..|current|] == current;
        tasks := SetTask(tasks, changes[i].value);
      }
    }
    assert changes[..|changes|] == changes;
  }

  // ---- what the reading means ----

  /** The cursor is the greatest `through` in scope, and the last entry that reaches it is the one named. */
  lemma {:induction false} CursorIsMax(branch: seq<Entry>, scope: Scope)
    ensures var r := Read(branch, scope);
            && (r.last.None? <==> forall i | 0 <= i < |branch| :: StampIn(branch[i], scope).None?)
            && (r.last.None? ==> r == UNREAD)
            && (forall i | 0 <= i < |branch| && StampIn(branch[i], scope).Some? :: StampIn(branch[i], scope).value.through <= r.cursor)
            && (r.last.Some? ==>
                  && StampIn(branch[r.last.value], scope).Some? && StampIn(branch[r.last.value], scope).value.through == r.cursor
                  && forall i | r.last.value < i < |branch| && StampIn(branch[i], scope).Some? :: StampIn(branch[i], scope).value.through < r.cursor)
  {
    if branch != [] {
      var front := branch[..|branch| - 1];
      CursorIsMax(front, scope);
      assert forall i | 0 <= i < |front| :: branch[i] == front[i];
    }
  }

  /** A foreign entry anywhere changes neither the cursor nor the Tasks. */
  lemma {:induction false} ForeignChangesNothing(a: seq<Entry>, e: Entry, b: seq<Entry>, scope: Scope)
    requires StampIn(e, scope).None?
    ensures var without, with := Read(a + b, scope), Read(a + [e] + b, scope);
            && with.cursor == without.cursor && with.tasks == without.tasks && with.complete == without.complete
            && (with.last.Some? <==> without.last.Some?)
            && (with.last.Some? ==> (a + [e] + b)[with.last.value] == (a + b)[without.last.value])
    decreases |b|
  {
    hide Absorb, StampIn;
    if b == [] {
      assert a + b == a && a + [e] + b == a + [e] && (a + [e])[..|a|] == a;
      ForeignIsSkipped(Read(a, scope), |a|, e, scope);
    } else {
      var n := |b| - 1;
      assert (a + b)[..|a| + n] == a + b[..n] && (a + [e] + b)[..|a| + 1 + n] == a + [e] + b[..n];
      assert (a + b)[|a| + n] == b[n] == (a + [e] + b)[|a| + 1 + n];
      ForeignChangesNothing(a, e, b[..n], scope);
      var with, without := Read(a + [e] + b[..n], scope), Read(a + b[..n], scope);
      AbsorbAlike(with, without, |a| + 1 + n, |a| + n, b[n], scope);
      assert Read(a + [e] + b, scope) == Absorb(with, |a| + 1 + n, b[n], scope);
      assert Read(a + b, scope) == Absorb(without, |a| + n, b[n], scope);
      if with.last.Some? {
        assert (a + [e] + b)[with.last.value] == (a + [e] + b[..n])[with.last.value];
        assert (a + b)[without.last.value] == (a + b[..n])[without.last.value];
      }
    }
  }

  lemma ForeignIsSkipped(r: Reading, index: nat, e: Entry, scope: Scope)
    requires StampIn(e, scope).None?
    ensures Absorb(r, index, e, scope) == r
  {
  }

  lemma AbsorbAlike(with: Reading, without: Reading, i: nat, k: nat, e: Entry, scope: Scope)
    requires with.cursor == without.cursor && with.tasks == without.tasks && with.complete == without.complete
    requires with.last.Some? <==> without.last.Some?
    ensures var a, b := Absorb(with, i, e, scope), Absorb(without, k, e, scope);
            && a.cursor == b.cursor && a.tasks == b.tasks && a.complete == b.complete
            && ((a.last == with.last && b.last == without.last) || (a.last == Some(i) && b.last == Some(k)))
  {
  }

  // ---- which cards the reading holds, by position on the branch ----

  predicate InScope(branch: seq<Entry>, scope: Scope, i: nat)
    requires i < |branch|
  {
    StampIn(branch[i], scope).Some?
  }

  /** No entry in scope before it reaches further. */
  ghost predicate Taken(branch: seq<Entry>, scope: Scope, i: nat)
    requires i < |branch|
  {
    && InScope(branch, scope, i)
    && forall j | 0 <= j < i && InScope(branch, scope, j) ::
         StampIn(branch[j], scope).value.through <= StampIn(branch[i], scope).value.through
  }

  /** The k-th card an entry brings. */
  function CardAt(e: Entry, k: nat): Option<Json> {
    match e.content
    case Snapshot(tasks) => if k < |tasks| then Some(tasks[k]) else None
    case Updates(changes) => if k < |changes| then changes[k] else None
    case OtherContent => None
  }

  predicate IsCardFor(e: Entry, k: nat, id: string) {
    CardAt(e, k).Some? && IdOf(CardAt(e, k).value) == id
  }

  /** The k-th card of entry i is for this id, and no snapshot was taken after it. */
  ghost predicate Brings(branch: seq<Entry>, scope: Scope, id: string, i: nat, k: nat)
    requires i < |branch|
  {
    && Taken(branch, scope, i) && IsCardFor(branch[i], k, id)
    && forall j | i < j < |branch| && Taken(branch, scope, j) :: !branch[j].content.Snapshot?
  }

  /** Nothing brought behind it is for this id. */
  ghost predicate BringsLast(branch: seq<Entry>, scope: Scope, id: string, i: nat, k: nat)
    requires i < |branch|
  {
    && Brings(branch, scope, id, i, k)
    && (forall l | k < l :: !IsCardFor(branch[i], l, id))
    && forall j, l | i < j < |branch| && Taken(branch, scope, j) :: !IsCardFor(branch[j], l, id)
  }

  /** The card that a list of cards holds under an id. */
  function CardUnder(tasks: seq<Json>, id: string): (r: Option<Json>)
    ensures r.Some? ==> r.value in tasks && IdOf(r.value) == id
    ensures r.None? ==> forall x | x in tasks :: IdOf(x) != id
  {
    if tasks == [] then None else if IdOf(tasks[0]) == id then Some(tasks[0]) else CardUnder(tasks[1..], id)
  }

  function Width(e: Entry): nat {
    match e.content
    case Snapshot(tasks) => |tasks|
    case Updates(changes) => |changes|
    case OtherContent => 0
  }

  /** The last of the first n cards of an entry that is for this id. */
  function LastGiven(e: Entry, n: nat, id: string): (k: Option<nat>)
    ensures k.Some? ==> k.value < n && IsCardFor(e, k.value, id)
    ensures forall l | 0 <= l < n && (k.Some? ==> k.value < l) :: !IsCardFor(e, l, id)
  {
    if n == 0 then None else if IsCardFor(e, n - 1, id) then Some(n - 1) else LastGiven(e, n - 1, id)
  }

  function GivenOr(e: Entry, n: nat, id: string, otherwise: Option<Json>): Option<Json> {
    var k := LastGiven(e, n, id);
    if k.Some? then CardAt(e, k.value) else otherwise
  }

  lemma {:induction false} SetTaskMeaning(tasks: seq<Json>, task: Json, id: string)
    ensures CardUnder(SetTask(tasks, task), id) == if IdOf(task) == id then Some(task) else CardUnder(tasks, id)
  {
    hide IdOf;
    if tasks != [] && IdOf(tasks[0]) != IdOf(task) {
      SetTaskMeaning(tasks[1..], task, id);
    }
  }

  lemma FirstId(task: Json, rest: seq<Json>)
    ensures TaskIds([task] + rest) == [IdOf(task)] + TaskIds(rest)
  {
    hide IdOf;
  }

  /** A card for a known id takes the place of the one before; a new one goes last. */
  lemma {:induction false} SetTaskOrder(tasks: seq<Json>, task: Json)
    ensures TaskIds(SetTask(tasks, task)) == TaskIds(tasks) + if IdOf(task) in TaskIds(tasks) then [] else [IdOf(task)]
  {
    hide IdOf, TaskIds;
    if tasks == [] {
      FirstId(task, []);
      assert [task] + [] == [task] && TaskIds([]) == [] by {
        NoIds();
      }
    } else {
      var rest := tasks[1..];
      assert tasks == [tasks[0]] + rest;
      FirstId(tasks[0], rest);
      if IdOf(tasks[0]) == IdOf(task) {
        FirstId(task, rest);
      } else {
        SetTaskOrder(rest, task);
        FirstId(tasks[0], SetTask(rest, task));
      }
    }
  }

  lemma NoIds()
    ensures TaskIds([]) == []
  {
  }

  lemma NoneGiven(e: Entry, id: string, otherwise: Option<Json>)
    ensures GivenOr(e, 0, id, otherwise) == otherwise
  {
  }

  lemma GivenStep(e: Entry, n: nat, id: string, otherwise: Option<Json>)
    requires 0 < n
    ensures GivenOr(e, n, id, otherwise) == if IsCardFor(e, n - 1, id) then CardAt(e, n - 1) else GivenOr(e, n - 1, id, otherwise)
  {
    hide IsCardFor, CardAt;
  }

  lemma {:induction false} SnapshotCards(e: Entry, n: nat, before: seq<Json>, id: string)
    requires e.content.Snapshot? && n <= |e.content.tasks|
    ensures CardUnder(SetAll(before, e.content.tasks[..n]), id) == GivenOr(e, n, id, CardUnder(before, id))
  {
    hide IdOf, CardUnder, SetTask, GivenOr, LastGiven;
    if n == 0 {
      NoneGiven(e, id, CardUnder(before, id));
    } else {
      GivenStep(e, n, id, CardUnder(before, id));
      assert e.content.tasks[..n][..n - 1] == e.content.tasks[..n - 1];
      SnapshotCards(e, n - 1, before, id);
      SetTaskMeaning(SetAll(before, e.content.tasks[..n - 1]), e.content.tasks[n - 1], id);
    }
  }

  lemma {:induction false} UpdateCards(e: Entry, n: nat, before: seq<Json>, id: string)
    requires e.content.Updates? && n <= |e.content.changes|
    ensures CardUnder(SetAll(before, Current(e.content.changes[..n])), id) == GivenOr(e, n, id, CardUnder(before, id))
  {
    hide IdOf, CardUnder, SetTask, GivenOr, LastGiven;
    if n == 0 {
      NoneGiven(e, id, CardUnder(before, id));
    } else {
      GivenStep(e, n, id, CardUnder(before, id));
      var last, current := e.content.changes[n - 1], Current(e.content.changes[..n - 1]);
      assert e.content.changes[..n][..n - 1] == e.content.changes[..n - 1];
      UpdateCards(e, n - 1, before, id);
      if last.Some? {
        assert (current + [last.value])[..|current|] == current;
        SetTaskMeaning(SetAll(before, current), last.value, id);
      }
    }
  }

  /** What one taken entry leaves under an id. */
  lemma {:induction false} AbsorbCards(r: Reading, index: nat, e: Entry, scope: Scope, id: string)
    requires StampIn(e, scope).Some? && (r.last.Some? ==> r.cursor <= StampIn(e, scope).value.through)
    ensures CardUnder(Absorb(r, index, e, scope).tasks, id)
            == GivenOr(e, Width(e), id, if e.content.Snapshot? then None else CardUnder(r.tasks, id))
    ensures Absorb(r, index, e, scope).complete == (r.complete || e.content.Snapshot?)
  {
    hide IdOf, StampIn, SetAll, Current;
    match e.content
    case Snapshot(tasks) =>
      assert tasks[..|tasks|] == tasks;
      SnapshotCards(e, |tasks|, [], id);
    case Updates(changes) =>
      assert changes[..|changes|] == changes;
      UpdateCards(e, |changes|, r.tasks, id);
    case OtherContent =>
  }

  /** An entry is taken exactly if the scan does not pass it over. */
  lemma {:induction false} TakenMeaning(branch: seq<Entry>, scope: Scope, n: nat)
    requires n < |branch|
    ensures var r := Read(branch[..n], scope);
            Taken(branch, scope, n)
            <==> StampIn(branch[n], scope).Some? && (r.last.Some? ==> r.cursor <= StampIn(branch[n], scope).value.through)
  {
    hide StampIn, Read;
    CursorIsMax(branch[..n], scope);
    assert forall j | 0 <= j < n :: branch[..n][j] == branch[j];
  }

  lemma TakenBefore(branch: seq<Entry>, scope: Scope, n: nat, i: nat)
    requires i < n <= |branch|
    ensures Taken(branch[..n], scope, i) <==> Taken(branch, scope, i)
  {
    hide StampIn;
    assert forall j | 0 <= j < n :: branch[..n][j] == branch[j];
  }

  lemma {:induction false} FindCard(branch: seq<Entry>, scope: Scope, id: string) returns (i: nat, k: nat)
    ensures var card := CardUnder(Read(branch, scope).tasks, id);
            if card.Some? then i < |branch| && BringsLast(branch, scope, id, i, k) && CardAt(branch[i], k) == card
            else forall j, l | 0 <= j < |branch| :: !Brings(branch, scope, id, j, l)
    decreases |branch|
  {
    hide StampIn, IdOf, Absorb, CardUnder, CardAt, LastGiven, Taken;
    i, k := 0, 0;
    if branch != [] {
      var n := |branch| - 1;
      var front, e := branch[..n], branch[n];
      assert Read(branch, scope) == Absorb(Read(front, scope), n, e, scope);
      i, k := FindCard(front, scope, id);
      TakenMeaning(branch, scope, n);
      assert forall j | 0 <= j < n :: front[j] == branch[j];
      forall j | 0 <= j < n ensures Taken(front, scope, j) <==> Taken(branch, scope, j) {
        TakenBefore(branch, scope, n, j);
      }
      forall j, l | 0 <= j < n
        ensures Brings(branch, scope, id, j, l)
                <==> Brings(front, scope, id, j, l) && !(Taken(branch, scope, n) && e.content.Snapshot?)
      {
        BringsBefore(branch, scope, id, j, l);
      }
      if Taken(branch, scope, n) {
        AbsorbCards(Read(front, scope), n, e, scope, id);
        var g := LastGiven(e, Width(e), id);
        NothingBeyond(e, id);
        if g.Some? {
          i, k := n, g.value;
        } else {
          assert forall l: nat :: !IsCardFor(e, l, id);
        }
      } else {
        PassedOver(Read(front, scope), n, e, scope);
      }
      if CardUnder(Read(branch, scope).tasks, id).None? {
        forall j, l | 0 <= j < |branch| ensures !Brings(branch, scope, id, j, l) {
        }
      }
    }
  }

  lemma BringsBefore(branch: seq<Entry>, scope: Scope, id: string, j: nat, l: nat)
    requires j + 1 < |branch|
    ensures var n := |branch| - 1;
            Brings(branch, scope, id, j, l)
            <==> Brings(branch[..n], scope, id, j, l) && !(Taken(branch, scope, n) && branch[n].content.Snapshot?)
  {
    hide StampIn, IsCardFor, Taken;
    var n := |branch| - 1;
    assert forall i | 0 <= i < n :: branch[..n][i] == branch[i];
    forall i | 0 <= i < n ensures Taken(branch[..n], scope, i) <==> Taken(branch, scope, i) {
      TakenBefore(branch, scope, n, i);
    }
  }

  lemma NothingBeyond(e: Entry, id: string)
    ensures forall l | Width(e) <= l :: !IsCardFor(e, l, id)
  {
  }

  lemma PassedOver(r: Reading, index: nat, e: Entry, scope: Scope)
    requires !(StampIn(e, scope).Some? && (r.last.Some? ==> r.cursor <= StampIn(e, scope).value.through))
    ensures Absorb(r, index, e, scope) == r
  {
    hide StampIn;
  }

  lemma {:induction false} CompleteMeaning(branch: seq<Entry>, scope: Scope)
    ensures Read(branch, scope).complete <==> exists i :: 0 <= i < |branch| && Taken(branch, scope, i) && branch[i].content.Snapshot?
    decreases |branch|
  {
    hide StampIn, Absorb, Taken;
    if branch != [] {
      var n := |branch| - 1;
      CompleteMeaning(branch[..n], scope);
      TakenMeaning(branch, scope, n);
      assert forall j | 0 <= j < n :: branch[..n][j] == branch[j];
      forall j | 0 <= j < n ensures Taken(branch[..n], scope, j) <==> Taken(branch, scope, j) {
        TakenBefore(branch, scope, n, j);
      }
      if Taken(branch, scope, n) {
        AbsorbCards(Read(branch[..n], scope), n, branch[n], scope, "");
      } else {
        PassedOver(Read(branch[..n], scope), n, branch[n], scope);
      }
    }
  }

  /**
   Under each id the reading holds the last card that a taken entry brought for it
   since the last snapshot taken, that snapshot included; an id is absent exactly if
   none did; and the reading is complete exactly if a snapshot was taken.
   */
  lemma {:induction false} CardsAreLatest(branch: seq<Entry>, scope: Scope, id: string)
    ensures var r := Read(branch, scope);
            && ((exists x :: x in r.tasks && IdOf(x) == id) <==> exists i, k :: 0 <= i < |branch| && 0 <= k && Brings(branch, scope, id, i, k))
            && (forall x, i, k | x in r.tasks && IdOf(x) == id && 0 <= i < |branch| && 0 <= k && BringsLast(branch, scope, id, i, k) ::
                  CardAt(branch[i], k) == Some(x))
            && ((exists x :: x in r.tasks && IdOf(x) == id) ==> exists i, k :: 0 <= i < |branch| && 0 <= k && BringsLast(branch, scope, id, i, k))
            && (r.complete <==> exists i :: 0 <= i < |branch| && Taken(branch, scope, i) && branch[i].content.Snapshot?)
  {
    hide StampIn, IdOf, Absorb, Taken, CardAt;
    var r := Read(branch, scope);
    var i, k := FindCard(branch, scope, id);
    CompleteMeaning(branch, scope);
    ReadIsDistinct(branch, scope);
    OneUnder(r.tasks, id);
  }

  lemma {:induction false} ReadIsDistinct(branch: seq<Entry>, scope: Scope)
    ensures DistinctIds(Read(branch, scope).tasks)
  {
    hide IdOf, StampIn;
    if branch != [] {
      var front, e := branch[..|branch| - 1], branch[|branch| - 1];
      ReadIsDistinct(front, scope);
      match e.content
      case Snapshot(found) => SetAllKeepsIds([], found);
      case Updates(changes) => SetAllKeepsIds(Read(front, scope).tasks, Current(changes));
      case OtherContent =>
    }
  }

  lemma {:induction false} OneUnder(tasks: seq<Json>, id: string)
    requires DistinctIds(tasks)
    ensures forall x | x in tasks && IdOf(x) == id :: CardUnder(tasks, id) == Some(x)
  {
    hide IdOf;
    if tasks != [] {
      assert forall i | 0 <= i < |tasks[1..]| :: tasks[1..][i] == tasks[i + 1];
      OneUnder(tasks[1..], id);
      forall x | x in tasks && IdOf(x) == id ensures CardUnder(tasks, id) == Some(x) {
        var p :| 0 <= p < |tasks| && tasks[p] == x;
        if p > 0 {
          assert tasks[1..][p - 1] == x;
        }
      }
    }
  }

  predicate CardsWellFormed(branch: seq<Entry>) {
    forall i | 0 <= i < |branch| ::
      match branch[i].content
      case Snapshot(tasks) => AllWellFormed(tasks)
      case Updates(changes) => AllWellFormed(Current(changes))
      case OtherContent => true
  }

  lemma {:induction false} TasksAreDistinct(branch: seq<Entry>, scope: Scope)
    requires CardsWellFormed(branch)
    ensures DistinctIds(Read(branch, scope).tasks) && AllWellFormed(Read(branch, scope).tasks)
  {
    hide IdOf, WellFormed;
    if branch != [] {
      var front, e := branch[..|branch| - 1], branch[|branch| - 1];
      assert forall i | 0 <= i < |front| :: front[i] == branch[i];
      TasksAreDistinct(front, scope);
      var tasks := Read(front, scope).tasks;
      match e.content
      case Snapshot(found) => SetAllStays([], found);
      case Updates(changes) => SetAllStays(tasks, Current(changes));
      case OtherContent =>
    }
  }

  lemma {:induction false} SetAllStays(tasks: seq<Json>, more: seq<Json>)
    requires DistinctIds(tasks) && AllWellFormed(tasks) && AllWellFormed(more)
    ensures DistinctIds(SetAll(tasks, more)) && AllWellFormed(SetAll(tasks, more))
  {
    hide IdOf, WellFormed;
    SetAllKeepsIds(tasks, more);
    var all := SetAll(tasks, more);
    forall i | 0 <= i < |all| ensures WellFormed(all[i]) {
      assert all[i] in all;
      if all[i] in tasks {
        var k :| 0 <= k < |tasks| && tasks[k] == all[i];
      } else {
        var k :| 0 <= k < |more| && more[k] == all[i];
      }
    }
  }

  /** These are the cards the branch rebuilds, in whatever order: under each id, the last one brought. */
  ghost predicate Rebuilds(branch: seq<Entry>, scope: Scope, mine: seq<Json>) {
    && DistinctIds(mine)
    && forall x :: x in mine
                   <==> exists i, k :: 0 <= i < |branch| && 0 <= k && BringsLast(branch, scope, IdOf(x), i, k) && CardAt(branch[i], k) == Some(x)
  }

  ghost predicate TakesSnapshot(branch: seq<Entry>, scope: Scope) {
    exists i :: 0 <= i < |branch| && Taken(branch, scope, i) && branch[i].content.Snapshot?
  }

  /** The reading itself is one such list of cards, and any other is a rearrangement of it. */
  lemma {:induction false} ReadRebuilds(branch: seq<Entry>, scope: Scope)
    ensures Rebuilds(branch, scope, Read(branch, scope).tasks)
    ensures forall mine | Rebuilds(branch, scope, mine) :: multiset(mine) == multiset(Read(branch, scope).tasks)
  {
    hide StampIn, IdOf, Taken, CardAt, BringsLast, Read;
    var tasks := Read(branch, scope).tasks;
    ReadIsDistinct(branch, scope);
    forall x ensures x in tasks
                     <==> exists i, k :: 0 <= i < |branch| && 0 <= k && BringsLast(branch, scope, IdOf(x), i, k) && CardAt(branch[i], k) == Some(x) {
      LatestIsRead(branch, scope, x);
    }
    forall mine | Rebuilds(branch, scope, mine) ensures multiset(mine) == multiset(tasks) {
      SameDistinct(mine, tasks);
    }
  }

  lemma {:induction false} LatestIsRead(branch: seq<Entry>, scope: Scope, x: Json)
    ensures x in Read(branch, scope).tasks
            <==> exists i, k :: 0 <= i < |branch| && 0 <= k && BringsLast(branch, scope, IdOf(x), i, k) && CardAt(branch[i], k) == Some(x)
  {
    hide StampIn, IdOf, Taken, CardAt, Read, BringsLast, Brings, CardUnder;
    var tasks, id := Read(branch, scope).tasks, IdOf(x);
    var i, k := FindCard(branch, scope, id);
    ReadIsDistinct(branch, scope);
    OneUnder(tasks, id);
    if i', k' :| 0 <= i' < |branch| && 0 <= k' && BringsLast(branch, scope, id, i', k') && CardAt(branch[i'], k') == Some(x) {
      LastBrings(branch, scope, id, i', k');
      LatestIsOne(branch, scope, id, i, k, i', k');
    }
  }

  lemma LastBrings(branch: seq<Entry>, scope: Scope, id: string, i: nat, k: nat)
    requires i < |branch| && BringsLast(branch, scope, id, i, k)
    ensures Brings(branch, scope, id, i, k)
  {
    hide Brings;
  }

  lemma LatestIsOne(branch: seq<Entry>, scope: Scope, id: string, i: nat, k: nat, i': nat, k': nat)
    requires i < |branch| && BringsLast(branch, scope, id, i, k) && i' < |branch| && BringsLast(branch, scope, id, i', k')
    ensures i == i' && k == k'
  {
    hide Taken, IsCardFor;
  }

  lemma {:induction false} SameDistinct(a: seq<Json>, b: seq<Json>)
    requires DistinctIds(a) && DistinctIds(b) && forall x :: x in a <==> x in b
    ensures multiset(a) == multiset(b)
  {
    hide IdOf;
    forall x ensures multiset(a)[x] == multiset(b)[x] {
      CountsOnce(a, x);
      CountsOnce(b, x);
    }
  }

  lemma {:induction false} CountsOnce(tasks: seq<Json>, x: Json)
    requires DistinctIds(tasks)
    ensures multiset(tasks)[x] == if x in tasks then 1 else 0
  {
    hide IdOf;
    if tasks != [] {
      var rest := tasks[1..];
      assert tasks == [tasks[0]] + rest;
      assert forall i | 0 <= i < |rest| :: rest[i] == tasks[i + 1];
      CountsOnce(rest, x);
    }
  }

  lemma {:induction false} WarningsConcat(warningsOf: Json -> seq<Json>, a: seq<Json>, b: seq<Json>)
    ensures Warnings(warningsOf, a + b) == Warnings(warningsOf, a) + Warnings(warningsOf, b)
  {
    if a == [] {
      assert a + b == b;
    } else {
      assert (a + b)[1..] == a[1..] + b;
      WarningsConcat(warningsOf, a[1..], b);
    }
  }

  lemma {:induction false} WarningsBag(warningsOf: Json -> seq<Json>, a: seq<Json>, b: seq<Json>)
    requires multiset(a) == multiset(b)
    ensures multiset(Warnings(warningsOf, a)) == multiset(Warnings(warningsOf, b))
    decreases |a|
  {
    hide Warnings;
    if a == [] {
      assert |multiset(b)| == 0;
    } else {
      var k := PlaceOf(b, a[0], multiset(a));
      WarningsWithout(warningsOf, a, 0);
      WarningsWithout(warningsOf, b, k);
      SameRest(a[0], multiset(a[..0] + a[1..]), multiset(b[..k] + b[k + 1..]));
      WarningsBag(warningsOf, a[..0] + a[1..], b[..k] + b[k + 1..]);
    }
  }

  lemma WarningsWithout(warningsOf: Json -> seq<Json>, tasks: seq<Json>, k: nat)
    requires k < |tasks|
    ensures multiset(tasks) == multiset{tasks[k]} + multiset(tasks[..k] + tasks[k + 1..])
    ensures multiset(Warnings(warningsOf, tasks))
            == multiset(warningsOf(tasks[k])) + multiset(Warnings(warningsOf, tasks[..k] + tasks[k + 1..]))
  {
    hide Warnings;
    var front, one, back := tasks[..k], [tasks[k]], tasks[k + 1..];
    assert tasks == front + (one + back);
    WarningsConcat(warningsOf, front, one + back);
    WarningsConcat(warningsOf, one, back);
    WarningsConcat(warningsOf, front, back);
    WarningsOfOne(warningsOf, tasks[k]);
  }

  lemma WarningsOfOne(warningsOf: Json -> seq<Json>, task: Json)
    ensures Warnings(warningsOf, [task]) == warningsOf(task)
  {
    assert [task][1..] == [];
  }

  /** The named entry, its lineage and its cursor; and a revision exactly if a snapshot was taken. */
  lemma {:induction false} ObservationMeaning<D>(env: Env<D>, warningsOf: Json -> seq<Json>, branch: seq<Entry>, scope: Scope)
    ensures var o := Observe(env, warningsOf, branch, scope);
            && (o.Some? <==> exists i :: 0 <= i < |branch| && InScope(branch, scope, i))
            && (o.Some? ==>
                  && (o.value.revision.Some? <==> TakesSnapshot(branch, scope))
                  && |o.value.taskIds| == |Read(branch, scope).tasks|
                  && exists i :: 0 <= i < |branch| && Taken(branch, scope, i) && o.value.entryId == branch[i].id
                                 && o.value.cursor == StampIn(branch[i], scope).value.through
                                 && (forall j | i < j < |branch| :: !Taken(branch, scope, j))
                                 && |o.value.lineage| == i + 1 && forall j | 0 <= j <= i :: o.value.lineage[j] == branch[j].id)
  {
    hide StampIn, Read, Revision, Warnings;
    CursorIsMax(branch, scope);
    CompleteMeaning(branch, scope);
    var r := Read(branch, scope);
    if r.last.Some? {
      assert Taken(branch, scope, r.last.value);
    }
  }

  /**
   A branch that took a snapshot, and whose rebuilt cards and warnings are not tied,
   has the revision of an authority read exactly when both hold the same cards and
   warnings.
   */
  lemma {:induction false} RevisionMatchesAuthority<D(!new)>(env: Env<D>, warningsOf: Json -> seq<Json>, branch: seq<Entry>, scope: Scope,
                                                     mine: seq<Json>, tasks: seq<Json>, warnings: seq<Json>)
    requires Faithful(env) && CardsWellFormed(branch) && AllWellFormed(tasks) && AllWellFormed(warnings)
    requires Rebuilds(branch, scope, mine) && TakesSnapshot(branch, scope)
    requires AllWellFormed(Warnings(warningsOf, mine)) && TellsApart(env, mine, Warnings(warningsOf, mine))
    ensures var o := Observe(env, warningsOf, branch, scope);
            && o.Some?
            && (o.value.revision == Some(Revision(env, tasks, warnings))
                <==> SameRows(mine, tasks) && SameRows(Warnings(warningsOf, mine), warnings))
  {
    hide WellFormed, SameRows, Revision, Read, Warnings, TellsApart, Rebuilds, StampIn;
    var found := Read(branch, scope).tasks;
    ObservationMeaning(env, warningsOf, branch, scope);
    TasksAreDistinct(branch, scope);
    ReadRebuilds(branch, scope);
    WarningsBag(warningsOf, mine, found);
    PermutedRows(found, mine);
    PermutedRows(mine, found);
    PermutedRows(Warnings(warningsOf, mine), Warnings(warningsOf, found));
    SameRevision(env, mine, Warnings(warningsOf, mine), found, Warnings(warningsOf, found));
    SameRevision(env, mine, Warnings(warningsOf, mine), tasks, warnings);
  }
}
