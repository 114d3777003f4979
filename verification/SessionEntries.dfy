/**
 What a recipient recovers from its Session: which records were presented and
 which acknowledged (the entry extractors of src/alert-authority/direct-delivery.ts).
 */
module SessionEntries {
  import opened Wrappers

  datatype Scope = Scope(team: string, recipient: string, membership: string, sessionFile: string)

  /** The details of a well formed observation; anything else reads as None. */
  datatype Details = Details(scope: Scope, ids: set<string>)

  datatype CustomType = MessageType | LegacyMessageType | ResumeType | LegacyResumeType | AckType | LegacyAckType | OtherType

  datatype Entry =
    | Custom(customType: CustomType, data: Option<Details>)
    | CustomMessage(customType: CustomType, details: Option<Details>)
    | OtherEntry

  datatype ContextMessage = ContextMessage(isCustom: bool, customType: CustomType, details: Option<Details>)

  function InScope(details: Option<Details>, scope: Scope): set<string> {
    if details.Some? && details.value.scope == scope then details.value.ids else {}
  }

  function AckedBy(e: Entry, scope: Scope): set<string> {
    if e.Custom? && e.customType in {AckType, LegacyAckType} then InScope(e.data, scope) else {}
  }

  /** observedIdsFromCustom */
  function ObservedIn(customType: CustomType, details: Option<Details>, scope: Scope): set<string> {
    if customType in {MessageType, LegacyMessageType} then InScope(details, scope) else {}
  }

  function ShownBy(e: Entry, scope: Scope): set<string> {
    if e.CustomMessage? then ObservedIn(e.customType, e.details, scope) else {}
  }

  function Acked(entries: seq<Entry>, scope: Scope): set<string> {
    set e, id | e in entries && id in AckedBy(e, scope) :: id
  }

  function Shown(entries: seq<Entry>, scope: Scope): set<string> {
    set e, id | e in entries && id in ShownBy(e, scope) :: id
  }

  /** Presented in full before, and not yet acknowledged. */
  function Pending(entries: seq<Entry>, scope: Scope): set<string> {
    Shown(entries, scope) - Acked(entries, scope)
  }

  function Observed(messages: seq<ContextMessage>, scope: Scope): set<string> {
    set m, id | m in messages && m.isCustom && id in ObservedIn(m.customType, m.details, scope) :: id
  }

  method AcknowledgedMessageIdsFromEntries(entries: seq<Entry>, scope: Scope) returns (ids: set<string>)
    ensures ids == Acked(entries, scope)
  {
    ids := {};
    for i := 0 to |entries|
      invariant ids == Acked(entries[..i], scope)
    {
      var e := entries[i];
      assert entries[..i + 1] == entries[..i] + [e];
      AckedGrows(entries[..i], [e], scope);
      if !e.Custom? || (e.customType != AckType && e.customType != LegacyAckType) {
        continue;
      }
      if e.data.None? || e.data.value.scope != scope {
        continue;
      }
      ids := ids + e.data.value.ids;
    }
    assert entries[..|entries|] == entries;
  }

  method PendingPresentedMessageIdsFromEntries(entries: seq<Entry>, scope: Scope) returns (pending: set<string>)
    ensures pending == Pending(entries, scope)
  {
    var observed := AcknowledgedMessageIdsFromEntries(entries, scope);
    pending := {};
    for i := 0 to |entries|
      invariant pending == Shown(entries[..i], scope) - observed
    {
      var e := entries[i];
      assert entries[..i + 1] == entries[..i] + [e];
      ShownGrows(entries[..i], e, scope);
      if !e.CustomMessage? {
        continue;
      }
      pending := pending + (ObservedIn(e.customType, e.details, scope) - observed);
    }
    assert entries[..|entries|] == entries;
  }

  method ObservedMessageIdsFromContext(messages: seq<ContextMessage>, scope: Scope) returns (ids: set<string>)
    ensures ids == Observed(messages, scope)
  {
    ids := {};
    for i := 0 to |messages|
      invariant ids == Observed(messages[..i], scope)
    {
      var m := messages[i];
      assert messages[..i + 1] == messages[..i] + [m];
      assert Observed(messages[..i + 1], scope)
          == Observed(messages[..i], scope) + if m.isCustom then ObservedIn(m.customType, m.details, scope) else {};
      if m.isCustom {
        ids := ids + ObservedIn(m.customType, m.details, scope);
      }
    }
    assert messages[..|messages|] == messages;
  }

  /** Well formed details of this very scope that name the id. */
  predicate NamesIn(details: Option<Details>, scope: Scope, id: string) {
    details.Some? && details.value.scope == scope && id in details.value.ids
  }

  /** Which entries and messages count: by their kind, one of the two names of their type, and their scope. */
  lemma {:induction false} ScopeDecides(entries: seq<Entry>, messages: seq<ContextMessage>, scope: Scope, id: string)
    ensures id in Acked(entries, scope)
            <==> exists i :: 0 <= i < |entries| && entries[i].Custom? && NamesIn(entries[i].data, scope, id)
                             && (entries[i].customType == AckType || entries[i].customType == LegacyAckType)
    ensures id in Shown(entries, scope)
            <==> exists i :: 0 <= i < |entries| && entries[i].CustomMessage? && NamesIn(entries[i].details, scope, id)
                             && (entries[i].customType == MessageType || entries[i].customType == LegacyMessageType)
    ensures id in Observed(messages, scope)
            <==> exists i :: 0 <= i < |messages| && messages[i].isCustom && NamesIn(messages[i].details, scope, id)
                             && (messages[i].customType == MessageType || messages[i].customType == LegacyMessageType)
  {
    forall i | 0 <= i < |entries|
      ensures id in AckedBy(entries[i], scope) ==> id in Acked(entries, scope)
      ensures id in ShownBy(entries[i], scope) ==> id in Shown(entries, scope)
    {
      assert entries[i] in entries;
    }
    forall i | 0 <= i < |messages| && messages[i].isCustom && id in ObservedIn(messages[i].customType, messages[i].details, scope)
      ensures id in Observed(messages, scope)
    {
      assert messages[i] in messages;
    }
    if id in Acked(entries, scope) {
      var e :| e in entries && id in AckedBy(e, scope);
      var i :| 0 <= i < |entries| && entries[i] == e;
    }
    if id in Shown(entries, scope) {
      var e :| e in entries && id in ShownBy(e, scope);
      var i :| 0 <= i < |entries| && entries[i] == e;
    }
    if id in Observed(messages, scope) {
      var m :| m in messages && m.isCustom && id in ObservedIn(m.customType, m.details, scope);
      var i :| 0 <= i < |messages| && messages[i] == m;
    }
  }

  /** Entries are only added, so what is acknowledged stays acknowledged. */
  lemma AckedGrows(entries: seq<Entry>, more: seq<Entry>, scope: Scope)
    ensures Acked(entries + more, scope) == Acked(entries, scope) + Acked(more, scope)
    ensures |more| == 1 ==> Acked(more, scope) == AckedBy(more[0], scope)
  {
    if |more| == 1 {
      assert more == [more[0]];
    }
  }

  lemma ShownGrows(entries: seq<Entry>, e: Entry, scope: Scope)
    ensures Shown(entries + [e], scope) == Shown(entries, scope) + ShownBy(e, scope)
  {
  }

  lemma AckedWithin(part: seq<Entry>, entries: seq<Entry>, scope: Scope)
    requires forall e | e in part :: e in entries
    ensures Acked(part, scope) <= Acked(entries, scope)
  {
  }
}
