/**
 Grouping journal events into the changes of each known Task
 (src/coordination/task-change-projection.ts).
 */
module TaskChanges {
  import opened Wrappers
  import opened JournalText
  import opened TeamEvents

  /** A Task card; only its id matters here. */
  datatype Card = Card(id: string, facts: string)

  datatype Kind = Created | Goal | Assignment | Progress | Status | Relation

  /** The id `task-event-<cursor>` is kept as its cursor. */
  datatype JournalEntry = JournalEntry(cursor: nat, at: string, actor: string, kind: EvidenceKind, text: string)

  datatype Group = Group(taskId: string, changeKinds: seq<Kind>, journalEntries: seq<JournalEntry>)

  datatype Change = Change(group: Group, current: Card)

  datatype Outcome = Projected(changes: seq<Change>) | ContractGap(taskId: string, cursor: nat)

  function CardOf(cards: seq<Card>, id: string): Option<Card> {
    if cards == [] then None
    else if cards[|cards| - 1].id == id then Some(cards[|cards| - 1]) else CardOf(cards[..|cards| - 1], id)
  }

  predicate IsJournalKind(k: EvidenceKind) {
    k in {ProgressEvidence, DecisionEvidence, BlockerEvidence, ResultEvidence, NoteEvidence}
  }

  /** changeKind */
  function KindOf(e: TeamEvent): Option<Kind> {
    if !e.body.TaskBody? then None
    else if e.body.evidence.Some? then
      match e.body.evidence.value.kind
      case CreatedEvidence => Some(Created)
      case GoalEvidence => Some(Goal)
      case AssignmentEvidence => Some(Assignment)
      case StatusEvidence => Some(Status)
      case RelationEvidence => Some(Relation)
      case ProgressEvidence | DecisionEvidence | BlockerEvidence | ResultEvidence | NoteEvidence => Some(Progress)
    else
      match e.body.change
      case CreatedChange => Some(Created)
      case AssignedChange => Some(Assignment)
      case StatusChange => Some(Status)
      case RelationChange => Some(Relation)
      case GoalChange | NoteChange => None
  }

  /** projectTaskJournalEntry */
  function EntryOf(e: TeamEvent): Option<JournalEntry> {
    if e.body.TaskBody? && e.body.evidence.Some? && IsJournalKind(e.body.evidence.value.kind)
    then Some(JournalEntry(e.cursor, e.body.at, e.body.actor, e.body.evidence.value.kind, e.body.evidence.value.text))
    else None
  }

  predicate IsKnown(e: TeamEvent, cards: seq<Card>) {
    e.body.TaskBody? && CardOf(cards, e.body.taskId).Some?
  }

  predicate IsGap(e: TeamEvent, cards: seq<Card>) {
    IsKnown(e, cards) && e.body.evidence.None? && e.body.change == NoteChange
  }

  // ---- what the groups hold, event by event ----

  predicate IsOf(e: TeamEvent, id: string) {
    e.body.TaskBody? && e.body.taskId == id
  }

  function EntriesOf(events: seq<TeamEvent>, id: string): seq<JournalEntry> {
    if events == [] then []
    else
      var rest, last := EntriesOf(events[..|events| - 1], id), events[|events| - 1];
      if IsOf(last, id) && EntryOf(last).Some? then rest + [EntryOf(last).value] else rest
  }

  function KindsOf(events: seq<TeamEvent>, id: string): seq<Kind> {
    if events == [] then []
    else
      var rest, last := KindsOf(events[..|events| - 1], id), events[|events| - 1];
      if IsOf(last, id) && KindOf(last).Some? then rest + [KindOf(last).value] else rest
  }

  /** The known Tasks of the events that say a kind of change, repeats and all. */
  function Touched(events: seq<TeamEvent>, cards: seq<Card>): seq<string> {
    if events == [] then []
    else
      var rest, last := Touched(events[..|events| - 1], cards), events[|events| - 1];
      if IsKnown(last, cards) && KindOf(last).Some? then rest + [last.body.taskId] else rest
  }

  /** Without repeats, in the order of first occurrence. */
  function Firsts<T(==)>(s: seq<T>): seq<T> {
    if s == [] then []
    else
      var rest, last := Firsts(s[..|s| - 1]), s[|s| - 1];
      if last in rest then rest else rest + [last]
  }

  lemma {:induction false} FirstsMeaning<T>(s: seq<T>)
    ensures forall x :: x in Firsts(s) <==> x in s
    ensures forall i, j | 0 <= i < j < |Firsts(s)| :: Firsts(s)[i] != Firsts(s)[j]
  {
    if s != [] {
      FirstsMeaning(s[..|s| - 1]);
      assert s == s[..|s| - 1] + [s[|s| - 1]];
    }
  }

  function GroupOf(events: seq<TeamEvent>, id: string): Group {
    Group(id, Firsts(KindsOf(events, id)), EntriesOf(events, id))
  }

  function Changes(events: seq<TeamEvent>, cards: seq<Card>): seq<Change> {
    var ids := Firsts(Touched(events, cards));
    seq(|ids|, i requires 0 <= i < |ids| => Change(GroupOf(events, ids[i]), CardOf(cards, ids[i]).GetOr(Card("", ""))))
  }

  /** The map of the loop: its keys in order, and each group as the events so far make it. */
  ghost predicate Groups(order: seq<string>, grouped: map<string, Group>, events: seq<TeamEvent>, cards: seq<Card>) {
    && order == Firsts(Touched(events, cards))
    && (forall id | id in grouped :: id in order)
    && (forall id | id in order :: id in grouped && grouped[id] == GroupOf(events, id) && CardOf(cards, id).Some?)
  }

  /**
   A gap exactly when a known Task has a note without evidence, the first one
   named; otherwise the groups are those of the events, in first-occurrence order.
   */
  method ProjectTaskChanges(events: seq<TeamEvent>, cards: seq<Card>) returns (r: Outcome)
    ensures r.Projected? ==> (forall i | 0 <= i < |events| :: !IsGap(events[i], cards)) && r.changes == Changes(events, cards)
    ensures r.ContractGap? ==> exists i | 0 <= i < |events| ::
              && IsGap(events[i], cards) && r == ContractGap(events[i].body.taskId, events[i].cursor)
              && forall j | 0 <= j < i :: !IsGap(events[j], cards)
  {
    var order: seq<string> := [];
    var grouped: map<string, Group> := map[];
    for n := 0 to |events|
      invariant forall i | 0 <= i < n :: !IsGap(events[i], cards)
      invariant Groups(order, grouped, events[..n], cards)
    {
      var event := events[n];
      ghost var seen := events[..n];
      assert events[..n + 1] == seen + [event];
      if IsGap(event, cards) {
        return ContractGap(event.body.taskId, event.cursor);
      }
      if !IsKnown(event, cards) || (event.body.evidence.None? && KindOf(event).None?) {
        PassedOver(order, grouped, seen, cards, event);
        continue;
      }
      order, grouped := Include(order, grouped, event, seen, cards);
    }
    assert events[..|events|] == events;
    var changes := CloseGroups(order, grouped, events, cards);
    r := Projected(changes);
  }

  /** One event joins its group, which may be new. */
  method Include(order: seq<string>, grouped: map<string, Group>, event: TeamEvent, ghost seen: seq<TeamEvent>, cards: seq<Card>)
      returns (order': seq<string>, grouped': map<string, Group>)
    requires Groups(order, grouped, seen, cards) && IsKnown(event, cards) && KindOf(event).Some?
    ensures Groups(order', grouped', seen + [event], cards)
  {
    hide Firsts, Touched, KindsOf, EntriesOf, KindOf;
    var taskId := event.body.taskId;
    var group := if taskId in grouped then grouped[taskId] else Group(taskId, [], []);
    if taskId !in order {
      FirstsMeaning(Touched(seen, cards));
      FirstGroup(seen, cards, taskId);
    }
    group := Grow(group, event, seen, cards);
    order' := if taskId in grouped then order else order + [taskId];
    grouped' := grouped[taskId := group];
    OwnGroup(seen, event, cards);
    forall id | id in order && id != taskId ensures GroupOf(seen + [event], id) == GroupOf(seen, id) {
      OtherGroup(seen, event, id);
    }
  }

  method Grow(before: Group, event: TeamEvent, ghost seen: seq<TeamEvent>, cards: seq<Card>) returns (group: Group)
    requires IsKnown(event, cards) && KindOf(event).Some? && before == GroupOf(seen, event.body.taskId)
    ensures group == GroupOf(seen + [event], event.body.taskId)
  {
    hide Firsts, KindsOf, EntriesOf;
    group := before;
    OwnGroup(seen, event, cards);
    var kind := KindOf(event);
    if kind.Some? && kind.value !in group.changeKinds {
      group := group.(changeKinds := group.changeKinds + [kind.value]);
    }
    var entry := EntryOf(event);
    if entry.Some? {
      group := group.(journalEntries := group.journalEntries + [entry.value]);
    }
  }

  method CloseGroups(order: seq<string>, grouped: map<string, Group>, events: seq<TeamEvent>, cards: seq<Card>) returns (changes: seq<Change>)
    requires Groups(order, grouped, events, cards)
    ensures changes == Changes(events, cards)
  {
    FirstsMeaning(Touched(events, cards));
    hide Touched;
    changes := [];
    for k := 0 to |order|
      invariant changes == Changes(events, cards)[..k]
    {
      var group := grouped[order[k]];
      KindsNeverEmpty(events, cards, order[k]);
      var task := CardOf(cards, group.taskId);
      if task.Some? && |group.changeKinds| > 0 {
        changes := changes + [Change(group, task.value)];
      }
    }
  }

  lemma OwnGroup(seen: seq<TeamEvent>, event: TeamEvent, cards: seq<Card>)
    requires IsKnown(event, cards) && KindOf(event).Some?
    ensures var before, after := GroupOf(seen, event.body.taskId), GroupOf(seen + [event], event.body.taskId);
            && after.taskId == before.taskId == event.body.taskId
            && after.changeKinds == (if KindOf(event).value in before.changeKinds then before.changeKinds
                                     else before.changeKinds + [KindOf(event).value])
            && after.journalEntries == (if EntryOf(event).Some? then before.journalEntries + [EntryOf(event).value] else before.journalEntries)
    ensures var before, after := Firsts(Touched(seen, cards)), Firsts(Touched(seen + [event], cards));
            after == if event.body.taskId in before then before else before + [event.body.taskId]
  {
    assert (seen + [event])[..|seen|] == seen;
    KindsStep(seen + [event], event.body.taskId);
    var touched := Touched(seen, cards);
    assert (touched + [event.body.taskId])[..|touched|] == touched;
  }

  lemma OtherGroup(seen: seq<TeamEvent>, event: TeamEvent, id: string)
    requires !IsOf(event, id)
    ensures GroupOf(seen + [event], id) == GroupOf(seen, id)
  {
    assert (seen + [event])[..|seen|] == seen;
  }

  /** An event of no known Task, or one that says no kind of change, leaves every group alone. */
  lemma PassedOver(order: seq<string>, grouped: map<string, Group>, seen: seq<TeamEvent>, cards: seq<Card>, event: TeamEvent)
    requires Groups(order, grouped, seen, cards)
    requires !IsKnown(event, cards) || (event.body.evidence.None? && KindOf(event).None?)
    ensures Groups(order, grouped, seen + [event], cards)
  {
    assert (seen + [event])[..|seen|] == seen;
    forall id | id in order ensures GroupOf(seen + [event], id) == GroupOf(seen, id) {
      if !IsOf(event, id) {
        OtherGroup(seen, event, id);
      }
    }
  }

  lemma KindsStep(events: seq<TeamEvent>, id: string)
    requires events != [] && IsOf(events[|events| - 1], id) && KindOf(events[|events| - 1]).Some?
    ensures var kinds, kind := Firsts(KindsOf(events[..|events| - 1], id)), KindOf(events[|events| - 1]).value;
            Firsts(KindsOf(events, id)) == if kind in kinds then kinds else kinds + [kind]
  {
    var kinds := KindsOf(events[..|events| - 1], id);
    assert (kinds + [KindOf(events[|events| - 1]).value])[..|kinds|] == kinds;
  }

  /** A known Task that was not touched has no group yet. */
  lemma {:induction false} FirstGroup(events: seq<TeamEvent>, cards: seq<Card>, id: string)
    requires CardOf(cards, id).Some? && id !in Touched(events, cards)
    ensures KindsOf(events, id) == [] && EntriesOf(events, id) == [] && GroupOf(events, id) == Group(id, [], [])
  {
    if events != [] {
      FirstGroup(events[..|events| - 1], cards, id);
    }
  }

  /** No group ends up without a kind of change: the last filter drops nothing. */
  lemma {:induction false} KindsNeverEmpty(events: seq<TeamEvent>, cards: seq<Card>, id: string)
    requires id in Touched(events, cards)
    ensures KindsOf(events, id) != [] && Firsts(KindsOf(events, id)) != []
  {
    var front, last := events[..|events| - 1], events[|events| - 1];
    if id in Touched(front, cards) {
      KindsNeverEmpty(front, cards, id);
    }
    FirstsMeaning(KindsOf(events, id));
    assert KindsOf(events, id)[0] in KindsOf(events, id);
  }

  lemma {:induction false} EntriesConcat(a: seq<TeamEvent>, b: seq<TeamEvent>, id: string)
    ensures EntriesOf(a + b, id) == EntriesOf(a, id) + EntriesOf(b, id)
    decreases |b|
  {
    if b == [] {
      assert a + b == a;
    } else {
      var n := |b| - 1;
      assert (a + b)[..|a| + n] == a + b[..n];
      EntriesConcat(a, b[..n], id);
      var e := b[n];
      if IsOf(e, id) && EntryOf(e).Some? {
        assert EntriesOf(a, id) + (EntriesOf(b[..n], id) + [EntryOf(e).value]) == EntriesOf(a, id) + EntriesOf(b[..n], id) + [EntryOf(e).value];
      }
    }
  }

  /** Each journal entry of a known Task stands exactly once, under that Task, between those before and after it. */
  lemma {:induction false} EntryKept(events: seq<TeamEvent>, cards: seq<Card>, i: nat, id: string)
    requires i < |events| && IsKnown(events[i], cards) && EntryOf(events[i]).Some?
    ensures events[i].body.taskId in Firsts(Touched(events, cards))
    ensures EntriesOf(events, id) == EntriesOf(events[..i], id)
                                     + (if events[i].body.taskId == id then [EntryOf(events[i]).value] else [])
                                     + EntriesOf(events[i + 1..], id)
  {
    var one := [events[i]];
    assert events == events[..i] + one + events[i + 1..];
    assert one[..0] == [];
    EntriesConcat(events[..i], one, id);
    EntriesConcat(events[..i] + one, events[i + 1..], id);
    TouchedHas(events, cards, i);
    FirstsMeaning(Touched(events, cards));
  }

  lemma {:induction false} TouchedHas(events: seq<TeamEvent>, cards: seq<Card>, i: nat)
    requires i < |events| && IsKnown(events[i], cards) && KindOf(events[i]).Some?
    ensures events[i].body.taskId in Touched(events, cards)
  {
    if i < |events| - 1 {
      TouchedHas(events[..|events| - 1], cards, i);
    }
  }

  // ---- the whole is conserved ----

  function EntriesKept(events: seq<TeamEvent>, cards: seq<Card>): nat {
    if events == [] then 0
    else
      var last := events[|events| - 1];
      EntriesKept(events[..|events| - 1], cards) + if IsKnown(last, cards) && EntryOf(last).Some? then 1 else 0
  }

  function EntriesUnder(events: seq<TeamEvent>, ids: seq<string>): nat {
    if ids == [] then 0 else |EntriesOf(events, ids[0])| + EntriesUnder(events, ids[1..])
  }

  /** The groups together hold as many entries as the known Tasks have in the journal: none twice, none lost. */
  lemma {:induction false} EntriesAreConserved(events: seq<TeamEvent>, cards: seq<Card>)
    ensures EntriesUnder(events, Firsts(Touched(events, cards))) == EntriesKept(events, cards)
  {
    var ids := Firsts(Touched(events, cards));
    FirstsMeaning(Touched(events, cards));
    forall id | id in ids ensures CardOf(cards, id).Some? {
      TouchedKnown(events, cards, id);
    }
    forall i | 0 <= i < |events| && IsKnown(events[i], cards) && EntryOf(events[i]).Some? ensures events[i].body.taskId in ids {
      TouchedHas(events, cards, i);
    }
    CountUnder(events, cards, ids);
  }

  lemma {:induction false} TouchedKnown(events: seq<TeamEvent>, cards: seq<Card>, id: string)
    requires id in Touched(events, cards)
    ensures CardOf(cards, id).Some?
  {
    if id in Touched(events[..|events| - 1], cards) {
      TouchedKnown(events[..|events| - 1], cards, id);
    }
  }

  lemma {:induction false} CountUnder(events: seq<TeamEvent>, cards: seq<Card>, ids: seq<string>)
    requires forall i, j | 0 <= i < j < |ids| :: ids[i] != ids[j]
    requires forall id | id in ids :: CardOf(cards, id).Some?
    requires forall i | 0 <= i < |events| && IsKnown(events[i], cards) && EntryOf(events[i]).Some? :: events[i].body.taskId in ids
    ensures EntriesUnder(events, ids) == EntriesKept(events, cards)
    decreases |events|
  {
    if events == [] {
      NothingUnder(ids);
    } else {
      CountUnder(events[..|events| - 1], cards, ids);
      UnderStep(events, ids);
    }
  }

  lemma {:induction false} NothingUnder(ids: seq<string>)
    ensures EntriesUnder([], ids) == 0
  {
    if ids != [] {
      NothingUnder(ids[1..]);
    }
  }

  lemma {:induction false} UnderStep(events: seq<TeamEvent>, ids: seq<string>)
    requires events != [] && forall i, j | 0 <= i < j < |ids| :: ids[i] != ids[j]
    ensures var last := events[|events| - 1];
            EntriesUnder(events, ids) == EntriesUnder(events[..|events| - 1], ids)
                                         + if EntryOf(last).Some? && last.body.taskId in ids then 1 else 0
    decreases |ids|
  {
    if ids != [] {
      UnderStep(events, ids[1..]);
      assert ids == [ids[0]] + ids[1..];
    }
  }

  // ---- what a reader is told, by what each event says ----

  /** The evidence of the event is of this kind. */
  predicate Attests(e: TeamEvent, kind: EvidenceKind) {
    e.body.TaskBody? && e.body.evidence.Some? && e.body.evidence.value.kind == kind
  }

  /** The event has no evidence, and its change is this one. */
  predicate Plainly(e: TeamEvent, change: TaskChange) {
    e.body.TaskBody? && e.body.evidence.None? && e.body.change == change
  }

  /** What the event says of its Task: by its evidence, or without any by its change. */
  predicate Says(e: TeamEvent, k: Kind) {
    match k
    case Created => Attests(e, CreatedEvidence) || Plainly(e, CreatedChange)
    case Goal => Attests(e, GoalEvidence)
    case Assignment => Attests(e, AssignmentEvidence) || Plainly(e, AssignedChange)
    case Status => Attests(e, StatusEvidence) || Plainly(e, StatusChange)
    case Relation => Attests(e, RelationEvidence) || Plainly(e, RelationChange)
    case Progress => Narrates(e)
  }

  /** The evidence is a narrative that a reader is to see. */
  predicate Narrates(e: TeamEvent) {
    || Attests(e, ProgressEvidence) || Attests(e, DecisionEvidence) || Attests(e, BlockerEvidence)
    || Attests(e, ResultEvidence) || Attests(e, NoteEvidence)
  }

  /** The journal entry carries this narrative. */
  predicate Carries(entry: JournalEntry, e: TeamEvent) {
    && Narrates(e)
    && entry.cursor == e.cursor && entry.at == e.body.at && entry.actor == e.body.actor
    && entry.kind == e.body.evidence.value.kind && entry.text == e.body.evidence.value.text
  }

  lemma {:induction false} CardMeaning(cards: seq<Card>, id: string)
    ensures CardOf(cards, id).Some? ==> CardOf(cards, id).value in cards && CardOf(cards, id).value.id == id
    ensures CardOf(cards, id).None? ==> forall c | c in cards :: c.id != id
  {
    if cards != [] {
      CardMeaning(cards[..|cards| - 1], id);
    }
  }

  lemma KindIsSaid(e: TeamEvent)
    ensures forall k :: Says(e, k) <==> KindOf(e) == Some(k)
    ensures Narrates(e) <==> EntryOf(e).Some?
    ensures forall entry :: Carries(entry, e) <==> EntryOf(e) == Some(entry)
  {
  }

  lemma {:induction false} KindsAre(events: seq<TeamEvent>, id: string)
    ensures forall k :: k in KindsOf(events, id) <==> exists i | 0 <= i < |events| :: IsOf(events[i], id) && KindOf(events[i]) == Some(k)
  {
    hide KindOf;
    if events != [] {
      var n := |events| - 1;
      KindsAre(events[..n], id);
      assert forall i | 0 <= i < n :: events[..n][i] == events[i];
    }
  }

  lemma {:induction false} EntriesAre(events: seq<TeamEvent>, id: string)
    ensures forall e :: e in EntriesOf(events, id) <==> exists i | 0 <= i < |events| :: IsOf(events[i], id) && EntryOf(events[i]) == Some(e)
  {
    hide EntryOf;
    if events != [] {
      var n := |events| - 1;
      EntriesAre(events[..n], id);
      assert forall i | 0 <= i < n :: events[..n][i] == events[i];
    }
  }

  lemma {:induction false} TouchedMeaning(events: seq<TeamEvent>, cards: seq<Card>, id: string)
    ensures id in Touched(events, cards)
            <==> CardOf(cards, id).Some? && exists i | 0 <= i < |events| :: IsOf(events[i], id) && KindOf(events[i]).Some?
  {
    hide KindOf, CardOf;
    if events != [] {
      var n := |events| - 1;
      TouchedMeaning(events[..n], cards, id);
      assert forall i | 0 <= i < n :: events[..n][i] == events[i];
    }
  }

  /**
   A Task is among the changes exactly if it is known and some event says something
   of it; then, once, with its card, with exactly the kinds of change its events say,
   each once, and with exactly the narratives its events carry.
   */
  lemma {:induction false} ChangesSayExactly(events: seq<TeamEvent>, cards: seq<Card>, id: string)
    ensures (exists c :: c in Changes(events, cards) && c.group.taskId == id)
            <==> (exists card :: card in cards && card.id == id)
                 && exists i, k :: 0 <= i < |events| && IsOf(events[i], id) && Says(events[i], k)
    ensures forall c | c in Changes(events, cards) && c.group.taskId == id ::
              && c.current in cards && c.current.id == id
              && (forall k :: k in c.group.changeKinds <==> exists i :: 0 <= i < |events| && IsOf(events[i], id) && Says(events[i], k))
              && (forall p, q | 0 <= p < q < |c.group.changeKinds| :: c.group.changeKinds[p] != c.group.changeKinds[q])
              && (forall e :: e in c.group.journalEntries <==> exists i :: 0 <= i < |events| && IsOf(events[i], id) && Carries(e, events[i]))
    ensures forall p, q | 0 <= p < q < |Changes(events, cards)| ::
              Changes(events, cards)[p].group.taskId != Changes(events, cards)[q].group.taskId
  {
    hide KindOf, EntryOf, Says, Carries, CardOf;
    var changes, ids := Changes(events, cards), Firsts(Touched(events, cards));
    FirstsMeaning(Touched(events, cards));
    FirstsMeaning(KindsOf(events, id));
    TouchedMeaning(events, cards, id);
    CardMeaning(cards, id);
    KindsAre(events, id);
    EntriesAre(events, id);
    forall i | 0 <= i < |events|
      ensures (forall k :: Says(events[i], k) <==> KindOf(events[i]) == Some(k))
              && (forall e :: Carries(e, events[i]) <==> EntryOf(events[i]) == Some(e))
    {
      KindIsSaid(events[i]);
    }
    if id in ids {
      var p :| 0 <= p < |ids| && ids[p] == id;
      assert changes[p].group.taskId == id;
    }
    forall c | c in changes && c.group.taskId == id ensures c.group == GroupOf(events, id) && id in ids && CardOf(cards, id) == Some(c.current) {
      var p :| 0 <= p < |changes| && changes[p] == c;
      assert ids[p] == id && ids[p] in ids;
    }
  }
}
