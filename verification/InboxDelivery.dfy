/**
 The inbox file of one Agent: records are appended, given ids, and marked read,
 each under the file's lock (src/alert-authority/inbox-delivery.ts).
 */
module InboxDelivery {
  import opened Wrappers

  datatype Content = Content(sender: string, text: string, timestamp: string, summary: Option<string>, color: Option<string>)

  /** An empty id stands for a record written before ids existed. */
  datatype Message = Message(id: string, membership: Option<string>, content: Content, read: bool, interrupt: bool)

  /** The digest of a record without an id, and of its place. */
  type Legacy = (Content, nat) -> string

  ghost predicate GoodLegacy(legacy: Legacy) {
    forall c, i :: legacy(c, i) != ""
  }

  function Identified(legacy: Legacy, m: Message, i: nat): Message {
    if m.id != "" then m else m.(id := legacy(m.content, i))
  }

  function Identify(legacy: Legacy, messages: seq<Message>): seq<Message> {
    seq(|messages|, i requires 0 <= i < |messages| => Identified(legacy, messages[i], i))
  }

  predicate IsFor(m: Message, membership: string) {
    m.membership == Some(membership)
  }

  predicate Wanted(m: Message, membership: string, unreadOnly: bool) {
    IsFor(m, membership) && (unreadOnly ==> !m.read)
  }

  /** The record once its Membership has marked these ids. */
  function Marked(m: Message, membership: string, ids: set<string>): Message {
    if IsFor(m, membership) && m.id in ids then m.(read := true) else m
  }

  function MarkAll(messages: seq<Message>, membership: string, ids: set<string>): seq<Message> {
    seq(|messages|, i requires 0 <= i < |messages| => Marked(messages[i], membership, ids))
  }

  function Select(messages: seq<Message>, membership: string, unreadOnly: bool): seq<Message> {
    if messages == [] then []
    else (if Wanted(messages[0], membership, unreadOnly) then [messages[0]] else []) + Select(messages[1..], membership, unreadOnly)
  }

  function Ids(messages: seq<Message>): set<string> {
    set m | m in messages :: m.id
  }

  /** How many records are unread in the first text and read in the second. */
  function Raised(before: seq<Message>, after: seq<Message>): nat
    requires |before| == |after|
  {
    if before == [] then 0
    else (if !before[0].read && after[0].read then 1 else 0) + Raised(before[1..], after[1..])
  }

  // ---- the file ----

  /** readInboxForMembership: what it returns, and what it leaves. The returned records are the ones just marked. */
  function ReadFor(legacy: Legacy, file: Option<seq<Message>>, membership: string, unreadOnly: bool, mark: bool)
    : (seq<Message>, Option<seq<Message>>)
  {
    if file.None? then ([], None)
    else
      var all := Identify(legacy, file.value);
      var result := Select(all, membership, unreadOnly);
      if mark then (MarkAll(result, membership, Ids(result)), Some(MarkAll(all, membership, Ids(result)))) else (result, Some(all))
  }

  /** markMessagesReadForMembership */
  function MarkFor(legacy: Legacy, file: Option<seq<Message>>, membership: string, ids: set<string>): (nat, Option<seq<Message>>) {
    if file.None? || ids == {} then (0, file)
    else
      var all := Identify(legacy, file.value);
      var marked := MarkAll(all, membership, ids);
      (Raised(all, marked), Some(marked))
  }

  function Append(file: Option<seq<Message>>, m: Message, newId: string): (Message, Option<seq<Message>>) {
    var sent := if m.id != "" then m else m.(id := newId);
    (sent, Some(file.GetOr([]) + [sent]))
  }

  class Inbox {
    const legacy: Legacy
    var file: Option<seq<Message>>

    constructor (legacy: Legacy)
      ensures this.legacy == legacy && file == None
    {
      this.legacy, file := legacy, None;
    }

    method AppendMessage(message: Message, newId: string) returns (sent: Message)
      modifies this
      ensures (sent, file) == Append(old(file), message, newId)
    {
      var messages := [];
      if file.Some? {
        messages := file.value;
      }
      sent := if message.id != "" then message else message.(id := newId);
      messages := messages + [sent];
      file := Some(messages);
    }

    /** identifyMessages */
    method IdentifyMessages(messages: seq<Message>) returns (identified: seq<Message>, changed: bool)
      ensures identified == Identify(legacy, messages)
      ensures changed <==> exists i | 0 <= i < |messages| :: messages[i].id == ""
    {
      identified, changed := [], false;
      for i := 0 to |messages|
        invariant |identified| == i
        invariant forall k | 0 <= k < i :: identified[k] == Identified(legacy, messages[k], k)
        invariant changed <==> exists k | 0 <= k < i :: messages[k].id == ""
      {
        if messages[i].id != "" {
          identified := identified + [messages[i]];
        } else {
          changed := true;
          identified := identified + [messages[i].(id := legacy(messages[i].content, i))];
        }
      }
    }

    method ReadInboxForMembership(membership: string, unreadOnly: bool, mark: bool) returns (result: seq<Message>)
      modifies this
      ensures (result, file) == ReadFor(legacy, old(file), membership, unreadOnly, mark)
    {
      if file.None? {
        return [];
      }
      var messages, changed := IdentifyMessages(file.value);
      ghost var all := messages;
      assert !changed ==> all == file.value;
      result := Select(messages, membership, unreadOnly);
      if mark && |result| > 0 {
        var selected := Ids(result);
        for i := 0 to |messages|
          invariant file == old(file) && |messages| == |all|
          invariant forall k | 0 <= k < |all| :: messages[k] == if k < i then Marked(all[k], membership, selected) else all[k]
          invariant changed || messages == all == file.value
        {
          if IsFor(messages[i], membership) && messages[i].id in selected && !messages[i].read {
            messages := messages[i := messages[i].(read := true)];
            changed := true;
          }
        }
        assert messages == MarkAll(all, membership, selected);
        result := MarkAll(result, membership, selected);
      } else {
        assert mark ==> Ids(result) == {} && MarkAll(result, membership, {}) == result && MarkAll(all, membership, {}) == all;
      }
      if changed {
        file := Some(messages);
      } else {
        assert messages == file.value;
      }
    }

    method MarkMessagesReadForMembership(membership: string, ids: set<string>) returns (marked: nat)
      modifies this
      ensures (marked, file) == MarkFor(legacy, old(file), membership, ids)
    {
      if file.None? || |ids| == 0 {
        return 0;
      }
      var messages, changed := IdentifyMessages(file.value);
      ghost var all := messages;
      marked := 0;
      for i := 0 to |messages|
        invariant file == old(file) && |messages| == |all|
        invariant forall k | 0 <= k < |all| :: messages[k] == if k < i then Marked(all[k], membership, ids) else all[k]
        invariant marked == Raised(all[..i], messages[..i])
        invariant marked == 0 ==> messages == all
      {
        ghost var before := messages;
        if IsFor(messages[i], membership) && messages[i].id in ids && !messages[i].read {
          messages := messages[i := messages[i].(read := true)];
          marked := marked + 1;
        }
        assert messages[..i] == before[..i];
        RaisedStep(all, messages, i);
      }
      assert all[..|all|] == all && messages[..|all|] == messages == MarkAll(all, membership, ids);
      if changed || marked > 0 {
        file := Some(messages);
      } else {
        assert all == file.value;
      }
    }
  }

  lemma {:induction false} RaisedStep(before: seq<Message>, after: seq<Message>, n: nat)
    requires n < |before| == |after|
    ensures Raised(before[..n + 1], after[..n + 1])
            == Raised(before[..n], after[..n]) + if !before[n].read && after[n].read then 1 else 0
    decreases n
  {
    if n > 0 {
      assert before[..n + 1][1..] == before[1..][..n] && after[..n + 1][1..] == after[1..][..n];
      assert before[..n][1..] == before[1..][..n - 1] && after[..n][1..] == after[1..][..n - 1];
      RaisedStep(before[1..], after[1..], n - 1);
    }
  }

  // ---- what no operation does ----

  /** One record after any number of operations: same place, same text, same reader, same id; read stays read. */
  predicate Grown(legacy: Legacy, before: Message, after: Message, i: nat) {
    && after.content == before.content && after.membership == before.membership
    && (after.id == before.id || (before.id == "" && after.id == legacy(before.content, i)))
    && (before.read ==> after.read)
  }

  /** Nothing is dropped, moved or rewritten. */
  predicate Evolves(legacy: Legacy, before: Option<seq<Message>>, after: Option<seq<Message>>) {
    before.Some? ==>
      && after.Some? && |before.value| <= |after.value|
      && forall i | 0 <= i < |before.value| :: Grown(legacy, before.value[i], after.value[i], i)
  }

  datatype Operation =
    | Deliver(message: Message, newId: string)
    | Look(membership: string, unreadOnly: bool, mark: bool)
    | Mark(membership: string, ids: set<string>)

  function After(legacy: Legacy, file: Option<seq<Message>>, s: Operation): Option<seq<Message>> {
    match s
    case Deliver(m, newId) => Append(file, m, newId).1
    case Look(membership, unreadOnly, mark) => ReadFor(legacy, file, membership, unreadOnly, mark).1
    case Mark(membership, ids) => MarkFor(legacy, file, membership, ids).1
  }

  /** The operation gives this record up to its reader: it asks for its Membership, by id or by a marking read. */
  predicate Names(legacy: Legacy, s: Operation, m: Message, i: nat) {
    match s
    case Deliver(_, _) => false
    case Look(membership, _, mark) => mark && IsFor(m, membership)
    case Mark(membership, ids) => IsFor(m, membership) && Identified(legacy, m, i).id in ids
  }

  /** Each operation lets the file evolve, and it leaves exactly those records read that were read before or that it names. */
  lemma {:induction false} StepEvolves(legacy: Legacy, file: Option<seq<Message>>, s: Operation)
    ensures Evolves(legacy, file, After(legacy, file, s))
    ensures file.Some? ==>
              forall i | 0 <= i < |file.value| ::
                After(legacy, file, s).value[i].read <==> file.value[i].read || Names(legacy, s, file.value[i], i)
  {
    if file.Some? && s.Look? && s.mark {
      var all := Identify(legacy, file.value);
      forall i | 0 <= i < |file.value| && Names(legacy, s, file.value[i], i) ensures After(legacy, file, s).value[i].read {
        SelectMeaning(all, s.membership, s.unreadOnly, all[i]);
      }
    }
  }

  function Run(legacy: Legacy, file: Option<seq<Message>>, steps: seq<Operation>): Option<seq<Message>>
    decreases |steps|
  {
    if steps == [] then file else Run(legacy, After(legacy, file, steps[0]), steps[1..])
  }

  lemma {:induction false} RunEvolves(legacy: Legacy, file: Option<seq<Message>>, steps: seq<Operation>)
    ensures Evolves(legacy, file, Run(legacy, file, steps))
    decreases |steps|
  {
    if steps != [] {
      StepEvolves(legacy, file, steps[0]);
      RunEvolves(legacy, After(legacy, file, steps[0]), steps[1..]);
    }
  }

  /** A record that turned read did so in an operation that named it. */
  lemma {:induction false} ReadByName(legacy: Legacy, file: Option<seq<Message>>, steps: seq<Operation>, i: nat) returns (k: nat)
    requires file.Some? && i < |file.value| && !file.value[i].read
    ensures var found := Run(legacy, file, steps);
            && found.Some? && i < |found.value|
            && (found.value[i].read ==>
                  && k < |steps|
                  && var there := Run(legacy, file, steps[..k]);
                     there.Some? && i < |there.value| && !there.value[i].read && Names(legacy, steps[k], there.value[i], i))
    decreases |steps|
  {
    k := 0;
    RunEvolves(legacy, file, steps);
    if Run(legacy, file, steps).value[i].read {
      var next := After(legacy, file, steps[0]);
      StepEvolves(legacy, file, steps[0]);
      if next.value[i].read {
        assert steps[..0] == [];
      } else {
        k := ReadByName(legacy, next, steps[1..], i);
        assert steps[..k + 1][1..] == steps[1..][..k];
        k := k + 1;
      }
    }
  }

  /** What readers are offered: exactly the unread records of the Membership, in file order. */
  lemma {:induction false} SelectMeaning(messages: seq<Message>, membership: string, unreadOnly: bool, m: Message)
    ensures m in Select(messages, membership, unreadOnly)
            <==> m in messages && m.membership == Some(membership) && (unreadOnly ==> !m.read)
  {
    if messages != [] {
      SelectMeaning(messages[1..], membership, unreadOnly, m);
    }
  }
}
