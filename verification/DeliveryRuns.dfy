/** What holds of every run of the recipient's delivery. */
module DeliveryRuns {
  import opened Wrappers
  import opened InboxDelivery
  import opened DirectDelivery
  import E = SessionEntries

  // ---- records turn read after their acknowledgement ----

  predicate ReadAcked(c: Config, inbox: Option<seq<Message>>, acked: set<string>) {
    inbox.Some? ==>
      forall i | 0 <= i < |inbox.value| && inbox.value[i].read && IsFor(inbox.value[i], c.scope.membership) ::
        Identified(c.legacy, inbox.value[i], i).id in acked
  }

  /** No two records go by one id. */
  predicate NoTwin(messages: seq<Message>) {
    forall i, j | 0 <= i < j < |messages| :: messages[i].id != messages[j].id
  }

  predicate InboxSafe(c: Config, inbox: Option<seq<Message>>, acked: set<string>) {
    ReadAcked(c, inbox, acked) && NoTwin(Identify(c.legacy, inbox.GetOr([])))
  }

  predicate Within(entries: seq<E.Entry>, session: seq<E.Entry>) {
    forall e | e in entries :: e in session
  }

  predicate PointSafe(session: seq<E.Entry>, acked: set<string>, p: Point) {
    && (IsStart(p) ==> Within(p.entries, session))
    && (p.StartMark? || p.CommitMark? ==> p.ids <= acked)
    && (p.ScanRead? && p.found.Some? ==> NoTwin(p.found.value))
    && (p.ScanRecheck? || p.ScanInterrupt? ==> NoTwin(p.pending))
  }

  predicate LogSafe(log: seq<Effect>) {
    forall i | 0 <= i < |log| && log[i].Presented? :: NoTwin(log[i].batch)
  }

  /** A mark that is under way is for acknowledged records only, and every batch names a record once. */
  ghost predicate Safe(c: Config, s: State) {
    var acked := E.Acked(s.session, c.scope);
    && InboxSafe(c, s.inbox, acked) && LogSafe(s.log)
    && forall t | t in s.threads :: PointSafe(s.session, acked, s.threads[t].at)
  }

  /** The id a record goes by never changes. */
  lemma IdStays(legacy: Legacy, before: Message, after: Message, i: nat)
    requires GoodLegacy(legacy) && Grown(legacy, before, after, i)
    ensures Identified(legacy, after, i).id == Identified(legacy, before, i).id
  {
  }

  lemma OperationKeepsSafe(c: Config, inbox: Option<seq<Message>>, step: Operation, acked: set<string>)
    requires GoodLegacy(c.legacy) && InboxSafe(c, inbox, acked)
    requires step == Look(c.scope.membership, true, false) || (step.Mark? && step.membership == c.scope.membership && step.ids <= acked)
    ensures InboxSafe(c, After(c.legacy, inbox, step), acked)
  {
    StepEvolves(c.legacy, inbox, step);
    if inbox.Some? {
      var after := After(c.legacy, inbox, step).value;
      forall i | 0 <= i < |after| ensures Identified(c.legacy, after[i], i).id == Identified(c.legacy, inbox.value[i], i).id {
        IdStays(c.legacy, inbox.value[i], after[i], i);
      }
      var earlier, later := Identify(c.legacy, inbox.value), Identify(c.legacy, after);
      assert forall i | 0 <= i < |after| :: later[i].id == earlier[i].id;
    }
  }

  lemma DeliverKeepsSafe(c: Config, inbox: Option<seq<Message>>, m: Message, acked: set<string>)
    requires InboxSafe(c, inbox, acked) && IdIsNew(c, inbox, m.id) && !m.read
    ensures InboxSafe(c, Append(inbox, m, "").1, acked)
  {
    var before, after := Identify(c.legacy, inbox.GetOr([])), Identify(c.legacy, Append(inbox, m, "").1.value);
    assert forall i | 0 <= i < |before| :: after[i] == before[i] && before[i] in before;
  }

  lemma {:induction false} SelectKeepsIds(messages: seq<Message>, membership: string, unreadOnly: bool)
    requires NoTwin(messages)
    ensures NoTwin(Select(messages, membership, unreadOnly))
  {
    if messages != [] {
      var rest := messages[1..];
      SelectKeepsIds(rest, membership, unreadOnly);
      forall m | m in Select(rest, membership, unreadOnly) ensures m.id != messages[0].id {
        SelectMeaning(rest, membership, unreadOnly, m);
      }
    }
  }

  lemma {:induction false} FreshKeepsIds(unread: seq<Message>, membership: string, attempted: set<string>)
    requires NoTwin(unread)
    ensures NoTwin(Fresh(unread, membership, attempted))
  {
    if unread != [] {
      FreshKeepsIds(unread[1..], membership, attempted);
      FreshMeaning(unread[1..], membership, attempted);
    }
  }

  lemma SessionKeepsSafe(c: Config, s: State, e: E.Entry)
    requires Safe(c, s)
    ensures Safe(c, s.(session := s.session + [e]))
    ensures E.AckedBy(e, c.scope) <= E.Acked(s.session + [e], c.scope)
  {
    E.AckedGrows(s.session, [e], c.scope);
    var acked, more := E.Acked(s.session, c.scope), E.Acked(s.session + [e], c.scope);
    assert acked <= more;
    forall t | t in s.threads ensures PointSafe(s.session + [e], more, s.threads[t].at) {
      assert PointSafe(s.session, acked, s.threads[t].at);
    }
  }

  lemma AtKeepsSafe(c: Config, s: State, t: nat, p: Point)
    requires Safe(c, s) && t in s.threads && PointSafe(s.session, E.Acked(s.session, c.scope), p)
    ensures Safe(c, At(s, t, p))
  {
  }

  lemma LandKeepsSafe(c: Config, s: State, t: nat)
    requires GoodLegacy(c.legacy) && Safe(c, s) && t in s.threads
    ensures Safe(c, LandAt(c, s, t))
  {
    hide MarkFor, E.Acked;
    var acked, membership := E.Acked(s.session, c.scope), c.scope.membership;
    assert PointSafe(s.session, acked, s.threads[t].at);
    match s.threads[t].at
    case StartMark(entries, ids, false) =>
      OperationKeepsSafe(c, s.inbox, Mark(membership, ids), acked);
      AtKeepsSafe(c, s, t, StartMark(entries, ids, true));
    case CommitMark(ids, false) =>
      OperationKeepsSafe(c, s.inbox, Mark(membership, ids), acked);
      AtKeepsSafe(c, s, t, CommitMark(ids, true));
    case ScanRead(None) =>
      OperationKeepsSafe(c, s.inbox, Look(membership, true, false), acked);
      SelectKeepsIds(Identify(c.legacy, s.inbox.GetOr([])), membership, true);
      AtKeepsSafe(c, s, t, ScanRead(Some(ReadFor(c.legacy, s.inbox, membership, true, false).0)));
    case _ =>
  }

  lemma AfterKeepsSafe(c: Config, s: State, t: nat)
    requires Safe(c, s) && t in s.threads
    ensures Safe(c, End(s, t)) && Safe(c, EndScan(s, t)) && Safe(c, AfterOnce(s, t))
    ensures Safe(c, Stopped(s)) && Safe(c, End(Stopped(s), t)) && Safe(c, AfterOnce(Stopped(s), t))
  {
  }

  /** Sets and log do not matter here. */
  lemma OthersKeepSafe(c: Config, s: State, other: State)
    requires Safe(c, s) && other.inbox == s.inbox && other.session == s.session && other.threads == s.threads && LogSafe(other.log)
    ensures Safe(c, other)
  {
  }

  lemma OpenKeepsSafe(c: Config, s: State, t: nat, entries: seq<E.Entry>, sends: bool)
    requires Safe(c, s) && t in s.threads
    ensures Safe(c, Open(c, s, t, entries, sends))
  {
    AfterKeepsSafe(c, s, t);
    var g, shown := s.threads[t].generation, E.Pending(entries, c.scope);
    var open := End(s, t).(attempted := s.attempted + shown, watching := true);
    var logged := open.(log := open.log + [Resumed(s.life, g, shown)]);
    OthersKeepSafe(c, End(s, t), open);
    OthersKeepSafe(c, End(s, t), logged);
    EnterKeepsSafe(c, open);
    EnterKeepsSafe(c, logged);
  }

  lemma EnterKeepsSafe(c: Config, s: State)
    requires Safe(c, s)
    ensures Safe(c, EnterScan(s))
  {
  }

  lemma StartKeepsSafe(c: Config, s: State, t: nat, answer: Answer, sends: bool)
    requires Safe(c, s) && t in s.threads && IsStart(s.threads[t].at)
    ensures Safe(c, ResumeStart(c, s, t, answer, sends))
  {
    var entries := s.threads[t].at.entries;
    assert PointSafe(s.session, E.Acked(s.session, c.scope), s.threads[t].at);
    E.AckedWithin(entries, s.session, c.scope);
    AfterKeepsSafe(c, s, t);
    var acked := E.Acked(entries, c.scope);
    var known := s.(acknowledged := s.acknowledged + acked, attempted := s.attempted + acked);
    OthersKeepSafe(c, s, known);
    OpenKeepsSafe(c, known, t, entries, sends);
    OpenKeepsSafe(c, s, t, entries, sends);
    AtKeepsSafe(c, known, t, StartMark(entries, acked, false));
  }

  lemma PresentKeepsSafe(c: Config, s: State, t: nat, pending: seq<Message>, sends: bool)
    requires Safe(c, s) && t in s.threads && NoTwin(pending)
    ensures Safe(c, Present(s, t, pending, sends))
  {
    var sent := s.(log := s.log + [Presented(s.life, s.threads[t].generation, pending)]);
    var dropped := s.(attempted := s.attempted - IdsOf(pending));
    OthersKeepSafe(c, s, sent);
    OthersKeepSafe(c, s, dropped);
    AfterKeepsSafe(c, sent, t);
    AfterKeepsSafe(c, dropped, t);
  }

  lemma ScanKeepsSafe(c: Config, s: State, t: nat, answer: Answer, sends: bool)
    requires Safe(c, s) && t in s.threads && IsScan(s.threads[t].at)
    ensures Safe(c, ResumeScan(c, s, t, answer, sends))
  {
    AfterKeepsSafe(c, s, t);
    assert PointSafe(s.session, E.Acked(s.session, c.scope), s.threads[t].at);
    match s.threads[t].at
    case ScanBinding => AtKeepsSafe(c, s, t, ScanRead(None));
    case ScanRead(found) =>
      if found.Some? {
        FreshKeepsIds(found.value, c.scope.membership, s.attempted);
        AtKeepsSafe(c, s, t, ScanRecheck(found.value, Fresh(found.value, c.scope.membership, s.attempted)));
      }
    case ScanRecheck(unread, pending) =>
      var tried := s.(attempted := s.attempted + IdsOf(pending));
      OthersKeepSafe(c, s, tried);
      AtKeepsSafe(c, tried, t, ScanInterrupt(unread, pending));
      PresentKeepsSafe(c, tried, t, pending, sends);
    case ScanInterrupt(_, pending) =>
      PresentKeepsSafe(c, s, t, pending, sends);
  }

  lemma CommitKeepsSafe(c: Config, s: State, t: nat, answer: Answer, sends: bool)
    requires Safe(c, s) && t in s.threads && (s.threads[t].at.CommitBinding? || s.threads[t].at.CommitMark?)
    ensures Safe(c, ResumeCommit(c, s, t, answer, sends))
  {
    AfterKeepsSafe(c, s, t);
    var after := ResumeCommit(c, s, t, answer, sends);
    match s.threads[t].at
    case CommitBinding =>
      var ids := s.staged - s.acknowledged;
      var e := E.Custom(E.AckType, Some(E.Details(c.scope, ids)));
      SessionKeepsSafe(c, s, e);
      var written := s.(session := s.session + [e]);
      AtKeepsSafe(c, written, t, CommitMark(ids, false));
      if after.session != s.session {
        OthersKeepSafe(c, At(written, t, CommitMark(ids, false)), after);
      }
    case CommitMark(ids, landed) =>
      OthersKeepSafe(c, End(s, t), End(s, t).(staged := s.staged - ids));
  }

  lemma NextKeepsSafe(c: Config, s: State, step: Step)
    requires GoodLegacy(c.legacy) && Safe(c, s)
    ensures Safe(c, Next(c, s, step))
  {
    match step
    case Land(t) =>
      if t in s.threads {
        LandKeepsSafe(c, s, t);
      }
    case Resume(t, answer, sends) =>
      if t in s.threads {
        if IsStart(s.threads[t].at) {
          StartKeepsSafe(c, s, t, answer, sends);
        } else if IsScan(s.threads[t].at) {
          ScanKeepsSafe(c, s, t, answer, sends);
        } else {
          CommitKeepsSafe(c, s, t, answer, sends);
        }
      }
    case Persist(i) =>
      if i < |s.log| && s.log[i].Presented? {
        SessionKeepsSafe(c, s, E.CustomMessage(E.MessageType, Some(E.Details(c.scope, IdsOf(s.log[i].batch)))));
      }
    case Deliver(m) =>
      if IdIsNew(c, s.inbox, m.id) && !m.read {
        DeliverKeepsSafe(c, s.inbox, m, E.Acked(s.session, c.scope));
      }
    case _ =>
  }

  // ---- nothing is lost ----

  predicate Accounted(c: Config, s: State, id: string) {
    || id in Recovered(c, s.given)
    || id in s.observed
    || (exists i | 0 <= i < |s.log| :: IsOf(s.log[i], s.life, s.generation) && id in IdsOf(s.log[i].batch))
    || (s.scan.Some? && s.scan.value in s.threads && s.threads[s.scan.value].at.ScanInterrupt?
        && id in IdsOf(s.threads[s.scan.value].at.pending))
  }

  /** All unread records of the Membership found by a scan are tried, or are about to be. */
  predicate PointCovers(membership: string, attempted: set<string>, p: Point) {
    && (p.ScanRecheck? ==> forall m | m in p.unread && IsFor(m, membership) :: m.id in attempted || m in p.pending)
    && (p.ScanInterrupt? ==> forall m | m in p.unread && IsFor(m, membership) :: m.id in attempted)
  }

  /** Nothing is taken for tried without a reason, and no unread record found is passed over. */
  ghost predicate Lossless(c: Config, s: State) {
    && (!s.stopped ==> forall id | id in s.attempted :: Accounted(c, s, id))
    && (forall t | t in s.threads && s.threads[t].generation == s.generation ::
          PointCovers(c.scope.membership, s.attempted, s.threads[t].at))
  }

  lemma LosslessEnd(c: Config, s: State, t: nat)
    requires Lossless(c, s) && t in s.threads && (s.threads[t].at.ScanInterrupt? && s.scan == Some(t) ==> s.stopped)
    ensures Lossless(c, End(s, t)) && Lossless(c, EndScan(s, t)) && Lossless(c, AfterOnce(s, t))
  {
    forall id | id in s.attempted && !s.stopped
      ensures Accounted(c, End(s, t), id) && Accounted(c, EndScan(s, t), id) && Accounted(c, AfterOnce(s, t), id)
    {
      assert Accounted(c, s, id);
    }
  }

  lemma LosslessStop(c: Config, s: State, t: nat)
    requires Fenced(s) && Lossless(c, s)
    ensures Lossless(c, Stopped(s))
    ensures t in s.threads ==> Lossless(c, End(Stopped(s), t)) && Lossless(c, EndScan(Stopped(s), t)) && Lossless(c, AfterOnce(Stopped(s), t))
  {
    if t in s.threads {
      LosslessEnd(c, Stopped(s), t);
    }
  }

  lemma LosslessAt(c: Config, s: State, t: nat, p: Point)
    requires Lossless(c, s) && t in s.threads
    requires s.threads[t].generation == s.generation ==> PointCovers(c.scope.membership, s.attempted, p)
    requires s.threads[t].at.ScanInterrupt? ==> p == s.threads[t].at
    ensures Lossless(c, At(s, t, p))
  {
    forall id | id in s.attempted && !s.stopped ensures Accounted(c, At(s, t, p), id) {
      assert Accounted(c, s, id);
    }
  }

  /** New reasons, and ids that have one. */
  lemma LosslessTry(c: Config, s: State, more: State)
    requires Lossless(c, s) && s.attempted <= more.attempted
    requires more.threads == s.threads && more.scan == s.scan && more.stopped == s.stopped && more.log == s.log
    requires more.life == s.life && more.generation == s.generation && more.given == s.given && s.observed <= more.observed
    requires forall id | id in more.attempted - s.attempted :: Accounted(c, more, id)
    ensures Lossless(c, more)
  {
    forall id | id in more.attempted && !s.stopped ensures Accounted(c, more, id) {
      if id in s.attempted {
        assert Accounted(c, s, id);
      }
    }
    forall t | t in more.threads && more.threads[t].generation == more.generation
      ensures PointCovers(c.scope.membership, more.attempted, more.threads[t].at)
    {
      assert PointCovers(c.scope.membership, s.attempted, s.threads[t].at);
    }
  }

  lemma LosslessEnter(c: Config, s: State)
    requires Fenced(s) && Lossless(c, s)
    ensures Lossless(c, EnterScan(s))
  {
    forall id | id in s.attempted && !s.stopped ensures Accounted(c, EnterScan(s), id) {
      assert Accounted(c, s, id);
    }
  }

  lemma LosslessLog(c: Config, s: State, e: Effect)
    requires Lossless(c, s)
    ensures Lossless(c, s.(log := s.log + [e]))
  {
    var logged := s.(log := s.log + [e]);
    assert forall i | 0 <= i < |s.log| :: logged.log[i] == s.log[i];
    forall id | id in s.attempted && !s.stopped ensures Accounted(c, logged, id) {
      assert Accounted(c, s, id);
    }
  }

  /** The batch becomes a presentation, or is taken back to be tried again. */
  lemma LosslessPresent(c: Config, s: State, t: nat, pending: seq<Message>, sends: bool)
    requires Fenced(s) && t in s.threads && IsScan(s.threads[t].at) && s.threads[t].generation == s.generation
    requires forall id | id in s.attempted :: Accounted(c, s, id) || id in IdsOf(pending)
    requires s.threads[t].at.ScanInterrupt? ==> s.threads[t].at.pending == pending
    requires forall u | u in s.threads && s.threads[u].generation == s.generation && u != t ::
               !s.threads[u].at.ScanRecheck? && !s.threads[u].at.ScanInterrupt?
    ensures Lossless(c, Present(s, t, pending, sends))
  {
    var after := Present(s, t, pending, sends);
    if sends {
      var e := Presented(s.life, s.generation, pending);
      assert after.log == s.log + [e] && after.log[|s.log|] == e;
      assert forall i | 0 <= i < |s.log| :: after.log[i] == s.log[i];
    }
    forall id | id in after.attempted ensures Accounted(c, after, id) {
      assert Accounted(c, s, id) || id in IdsOf(pending);
    }
  }

  lemma LosslessOpen(c: Config, s: State, t: nat, sends: bool)
    requires Fenced(s) && Lossless(c, s) && t in s.threads && IsStart(s.threads[t].at)
    ensures Lossless(c, Open(c, s, t, s.threads[t].at.entries, sends))
  {
    var g := s.threads[t].generation;
    LosslessEnd(c, s, t);
    if IsCurrent(s, g) {
      var shown := E.Pending(s.given, c.scope);
      var ended := End(s, t);
      var tried := ended.(attempted := s.attempted + shown);
      LosslessTry(c, ended, tried);
      var open := tried.(watching := true);
      assert Lossless(c, open);
      OpenKeepsFence(c, s, t, sends);
      LosslessLog(c, open, Resumed(s.life, g, shown));
      assert Fenced(open);
      LosslessEnter(c, open);
      LosslessEnter(c, open.(log := open.log + [Resumed(s.life, g, shown)]));
    }
  }

  lemma StartIsLossless(c: Config, s: State, t: nat, answer: Answer, sends: bool)
    requires Fenced(s) && Lossless(c, s) && t in s.threads && IsStart(s.threads[t].at)
    ensures Lossless(c, ResumeStart(c, s, t, answer, sends))
  {
    LosslessEnd(c, s, t);
    LosslessStop(c, s, t);
    var entries := s.threads[t].at.entries;
    if s.threads[t].at.StartMark? {
      LosslessOpen(c, s, t, sends);
    } else if IsCurrent(s, s.threads[t].generation) {
      var acked := E.Acked(entries, c.scope);
      var known := s.(acknowledged := s.acknowledged + acked, attempted := s.attempted + acked);
      LosslessTry(c, s, known);
      LosslessOpen(c, known, t, sends);
      LosslessAt(c, known, t, StartMark(entries, acked, false));
    }
  }

  lemma ScanIsLossless(c: Config, s: State, t: nat, answer: Answer, sends: bool)
    requires Fenced(s) && Lossless(c, s) && t in s.threads && IsScan(s.threads[t].at)
    ensures Lossless(c, ResumeScan(c, s, t, answer, sends))
  {
    LosslessStop(c, s, t);
    var membership := c.scope.membership;
    if s.threads[t].generation == s.generation {
      match s.threads[t].at
      case ScanBinding =>
        LosslessEnd(c, s, t);
        LosslessAt(c, s, t, ScanRead(None));
      case ScanRead(found) =>
        LosslessEnd(c, s, t);
        if found.Some? {
          FreshMeaning(found.value, membership, s.attempted);
          LosslessAt(c, s, t, ScanRecheck(found.value, Fresh(found.value, membership, s.attempted)));
        }
      case ScanRecheck(unread, pending) =>
        LosslessEnd(c, s, t);
        assert PointCovers(membership, s.attempted, s.threads[t].at);
        LosslessTried(c, s, t, unread, pending);
        LosslessPresent(c, s.(attempted := s.attempted + IdsOf(pending)), t, pending, sends);
      case ScanInterrupt(_, pending) =>
        LosslessPresent(c, s, t, pending, sends);
    } else {
      LosslessEnd(c, s, t);
    }
  }

  lemma LosslessTried(c: Config, s: State, t: nat, unread: seq<Message>, pending: seq<Message>)
    requires Fenced(s) && Lossless(c, s) && t in s.threads && s.threads[t].at == ScanRecheck(unread, pending)
    requires s.threads[t].generation == s.generation
    ensures var tried := s.(attempted := s.attempted + IdsOf(pending));
            && Lossless(c, At(tried, t, ScanInterrupt(unread, pending)))
            && (forall id | id in tried.attempted :: Accounted(c, tried, id) || id in IdsOf(pending))
  {
    var tried := s.(attempted := s.attempted + IdsOf(pending));
    var after := At(tried, t, ScanInterrupt(unread, pending));
    assert PointCovers(c.scope.membership, s.attempted, s.threads[t].at);
    forall id | id in tried.attempted
      ensures Accounted(c, after, id) && (Accounted(c, tried, id) || id in IdsOf(pending))
    {
      if id in s.attempted {
        assert Accounted(c, s, id);
      }
    }
    forall u | u in after.threads && u != t && after.threads[u].generation == s.generation
      ensures PointCovers(c.scope.membership, after.attempted, after.threads[u].at)
    {
      assert PointCovers(c.scope.membership, s.attempted, s.threads[u].at);
    }
  }

  lemma CommitIsLossless(c: Config, s: State, t: nat, answer: Answer, sends: bool)
    requires Fenced(s) && Lossless(c, s) && t in s.threads && (s.threads[t].at.CommitBinding? || s.threads[t].at.CommitMark?)
    ensures Lossless(c, ResumeCommit(c, s, t, answer, sends))
  {
    LosslessEnd(c, s, t);
    LosslessStop(c, s, t);
    var ids := s.staged - s.acknowledged;
    var e := AckWritten(s.life, s.threads[t].generation, ids);
    LosslessLog(c, s, e);
    LosslessAt(c, s.(log := s.log + [e]), t, CommitMark(ids, false));
    var after := ResumeCommit(c, s, t, answer, sends);
    if after.log != s.log {
      LosslessTry(c, At(s.(log := s.log + [e]), t, CommitMark(ids, false)), after);
    } else if s.threads[t].at.CommitMark? && answer.Yes? {
      LosslessTry(c, End(s, t), End(s, t).(staged := s.staged - ids));
    }
  }

  lemma LandIsLossless(c: Config, s: State, t: nat)
    requires Fenced(s) && Lossless(c, s) && t in s.threads
    ensures Lossless(c, LandAt(c, s, t))
  {
    match s.threads[t].at {
      case StartMark(entries, ids, false) => LosslessAt(c, s, t, StartMark(entries, ids, true));
      case CommitMark(ids, false) => LosslessAt(c, s, t, CommitMark(ids, true));
      case ScanRead(None) => LosslessAt(c, s, t, ScanRead(Some(ReadFor(c.legacy, s.inbox, c.scope.membership, true, false).0)));
      case _ =>
    }
    if LandAt(c, s, t) != s {
      LosslessTry(c, LandAt(c, s, t).(inbox := s.inbox), LandAt(c, s, t));
    }
  }

  lemma BeginIsLossless(c: Config, s: State, step: Step)
    requires Fenced(s) && Lossless(c, s) && (step.Start? || step.Commit? || step.Crash?)
    ensures Lossless(c, Next(c, s, step))
  {
    if step.Commit? {
      forall id | id in s.attempted && !s.stopped ensures Accounted(c, Next(c, s, step), id) {
        assert Accounted(c, s, id);
      }
    }
  }

  lemma NextIsLossless(c: Config, s: State, step: Step)
    requires Fenced(s) && Lossless(c, s)
    ensures Lossless(c, Next(c, s, step))
  {
    match step
    case Start(_) => BeginIsLossless(c, s, step);
    case Commit(_) => BeginIsLossless(c, s, step);
    case Crash => BeginIsLossless(c, s, step);
    case StopNow => LosslessStop(c, s, s.nextThread);
    case HintArrives | ObserveContext(_) | Deliver(_) | Persist(_) => LosslessTry(c, s, Next(c, s, step));
    case HintFires =>
      LosslessTry(c, s, s.(hintTimer := false));
      LosslessEnter(c, s.(hintTimer := false));
    case IntervalFires => LosslessEnter(c, s);
    case Land(t) =>
      if t in s.threads {
        LandIsLossless(c, s, t);
      }
    case Resume(t, answer, sends) =>
      if t in s.threads {
        if IsStart(s.threads[t].at) {
          StartIsLossless(c, s, t, answer, sends);
        } else if IsScan(s.threads[t].at) {
          ScanIsLossless(c, s, t, answer, sends);
        } else {
          CommitIsLossless(c, s, t, answer, sends);
        }
      }
  }

  // ---- every run ----

  ghost predicate Inv(c: Config, s: State) {
    Fenced(s) && Once(c, s) && Safe(c, s) && Lossless(c, s)
  }

  lemma NextKeepsInv(c: Config, s: State, step: Step)
    requires GoodLegacy(c.legacy) && Inv(c, s)
    ensures Inv(c, Next(c, s, step))
  {
    NextKeepsFence(c, s, step);
    NextKeepsOnce(c, s, step);
    NextKeepsSafe(c, s, step);
    NextIsLossless(c, s, step);
  }

  function Run(c: Config, s: State, steps: seq<Step>): State
    decreases |steps|
  {
    if steps == [] then s else Run(c, Next(c, s, steps[0]), steps[1..])
  }

  lemma {:induction false} RunKeepsInv(c: Config, s: State, steps: seq<Step>)
    requires GoodLegacy(c.legacy) && Inv(c, s)
    ensures Inv(c, Run(c, s, steps))
    decreases |steps|
  {
    if steps != [] {
      NextKeepsInv(c, s, steps[0]);
      RunKeepsInv(c, Next(c, s, steps[0]), steps[1..]);
    }
  }

  /** In every run: a record of the Membership that is read has its acknowledgement in the Session. */
  lemma {:induction false} ReadOnlyAfterAck(c: Config, inbox: Option<seq<Message>>, session: seq<E.Entry>, steps: seq<Step>, i: nat)
    requires GoodLegacy(c.legacy) && InboxSafe(c, inbox, E.Acked(session, c.scope))
    requires var s := Run(c, Init(inbox, session), steps);
             s.inbox.Some? && i < |s.inbox.value| && s.inbox.value[i].read && IsFor(s.inbox.value[i], c.scope.membership)
    ensures var s := Run(c, Init(inbox, session), steps);
            Identified(c.legacy, s.inbox.value[i], i).id in E.Acked(s.session, c.scope)
  {
    RunKeepsInv(c, Init(inbox, session), steps);
  }

  /** In every run: no activation presents a record twice, be it in two batches or in one. */
  lemma {:induction false} PresentedOnce(c: Config, inbox: Option<seq<Message>>, session: seq<E.Entry>, steps: seq<Step>, i: nat, j: nat)
    requires GoodLegacy(c.legacy) && InboxSafe(c, inbox, E.Acked(session, c.scope))
    requires var log := Run(c, Init(inbox, session), steps).log;
             i < |log| && j < |log| && SameActivation(log[i], log[j])
    ensures var log := Run(c, Init(inbox, session), steps).log;
            NoTwin(log[i].batch) && (i != j ==> IdsOf(log[i].batch) !! IdsOf(log[j].batch))
  {
    RunKeepsInv(c, Init(inbox, session), steps);
  }

  lemma {:induction false} StartEffect(c: Config, s: State, t: nat, answer: Answer, sends: bool)
    requires t in s.threads && IsStart(s.threads[t].at)
    ensures var after := ResumeStart(c, s, t, answer, sends);
            after.log == s.log
            || exists ids :: after.log == s.log + [Resumed(s.life, s.generation, ids)] && IsCurrent(s, s.threads[t].generation)
  {
    var p := s.threads[t].at;
    var shown := E.Pending(p.entries, c.scope);
    assert ResumeStart(c, s, t, answer, sends).log in
        {s.log, s.log + [Resumed(s.life, s.threads[t].generation, shown)]};
  }

  lemma {:induction false} ScanEffect(c: Config, s: State, t: nat, answer: Answer, sends: bool)
    requires t in s.threads && IsScan(s.threads[t].at)
    ensures var after, p := ResumeScan(c, s, t, answer, sends), s.threads[t].at;
            after.log == s.log
            || (IsCurrent(s, s.threads[t].generation) && (p.ScanRecheck? || p.ScanInterrupt?)
                && after.log == s.log + [Presented(s.life, s.generation, p.pending)])
  {
  }

  lemma {:induction false} CommitEffect(c: Config, s: State, t: nat, answer: Answer, sends: bool)
    requires t in s.threads && (s.threads[t].at.CommitBinding? || s.threads[t].at.CommitMark?)
    ensures var after := ResumeCommit(c, s, t, answer, sends);
            after.log == s.log
            || (IsCurrent(s, s.threads[t].generation)
                && after.log == s.log + [AckWritten(s.life, s.generation, s.staged - s.acknowledged)])
  {
  }

  /** Every effect is made by the generation that is current, and a presentation is of records neither recovered nor presented before. */
  lemma {:induction false} EffectsAreCurrent(c: Config, s: State, step: Step, i: nat)
    requires Inv(c, s) && |s.log| <= i < |Next(c, s, step).log|
    ensures var e := Next(c, s, step).log[i];
            && e.life == s.life && e.generation == s.generation && !s.stopped
            && (e.Presented? ==> IsNew(c, s.log, s.life, s.generation, s.given, e.batch))
  {
    if step.Resume? && step.t in s.threads {
      var t := step.t;
      if IsStart(s.threads[t].at) {
        StartEffect(c, s, t, step.answer, step.sends);
      } else if IsScan(s.threads[t].at) {
        ScanEffect(c, s, t, step.answer, step.sends);
        assert s.threads[t].generation == s.generation ==>
            PointOnce(c, s.log, s.life, s.generation, s.given, s.attempted, s.threads[t].at);
      } else {
        CommitEffect(c, s, t, step.answer, step.sends);
      }
    }
  }

  /** At most one scan of the current generation is under way. */
  lemma OneScan(s: State, t: nat, u: nat)
    requires Fenced(s) && t in s.threads && u in s.threads && IsScan(s.threads[t].at) && IsScan(s.threads[u].at)
    requires s.threads[t].generation == s.threads[u].generation == s.generation
    ensures t == u
  {
  }

  /** The inbox keeps every record at its place through any run. */
  lemma {:induction false} RunKeepsInbox(c: Config, s: State, steps: seq<Step>)
    ensures Evolves(c.legacy, s.inbox, Run(c, s, steps).inbox)
    decreases |steps|
  {
    if steps != [] {
      InboxEvolves(c, s, steps[0]);
      RunKeepsInbox(c, Next(c, s, steps[0]), steps[1..]);
    }
  }

  lemma {:induction false} InboxEvolves(c: Config, s: State, step: Step)
    ensures Evolves(c.legacy, s.inbox, Next(c, s, step).inbox)
  {
    match step
    case Land(t) =>
      if t in s.threads {
        LandEvolves(c, s, t);
      }
    case _ =>
  }

  lemma {:induction false} LandEvolves(c: Config, s: State, t: nat)
    requires t in s.threads
    ensures Evolves(c.legacy, s.inbox, LandAt(c, s, t).inbox)
  {
    match s.threads[t].at
    case StartMark(_, ids, _) => StepEvolves(c.legacy, s.inbox, Mark(c.scope.membership, ids));
    case CommitMark(ids, _) => StepEvolves(c.legacy, s.inbox, Mark(c.scope.membership, ids));
    case ScanRead(_) => StepEvolves(c.legacy, s.inbox, Look(c.scope.membership, true, false));
    case _ =>
  }

  /** A scan's turn that ends without failing, its generation still current, has tried every unread record it found. */
  lemma {:induction false} CompletedScanCovers(c: Config, s: State, t: nat, answer: Answer, sends: bool, m: Message)
    requires Inv(c, s) && t in s.threads && s.threads[t].generation == s.generation && !answer.Throws? && sends
    requires var p := s.threads[t].at;
             || (p.ScanRead? && p.found.Some? && m in p.found.value)
             || ((p.ScanRecheck? || p.ScanInterrupt?) && m in p.unread)
    requires IsFor(m, c.scope.membership)
    requires var after := Next(c, s, Resume(t, answer, sends));
             after.generation == s.generation && (t in after.threads ==> after.threads[t].at.ScanBinding?)
    ensures m.id in Next(c, s, Resume(t, answer, sends)).attempted
  {
    assert PointCovers(c.scope.membership, s.attempted, s.threads[t].at);
    if s.threads[t].at.ScanRead? {
      FreshMeaning(s.threads[t].at.found.value, c.scope.membership, s.attempted);
    }
  }

  // ---- a scan that nothing disturbs ----

  function Unread(c: Config, inbox: Option<seq<Message>>): seq<Message> {
    Select(Identify(c.legacy, inbox.GetOr([])), c.scope.membership, true)
  }

  /** From its first await to its end; a step for a call that has ended does nothing. */
  function ScanSteps(t: nat): seq<Step> {
    [Resume(t, Yes, true), Land(t), Resume(t, Yes, true), Resume(t, Yes, true), Resume(t, Yes, true)]
  }

  predicate ScanBegins(s: State, t: nat) {
    t in s.threads && s.threads[t] == Thread(s.generation, ScanBinding) && s.scan == Some(t) && !s.stopped && !s.rescan
  }

  /** It presents, in inbox order, exactly the unread records that were not tried yet, and then all are tried. */
  lemma {:induction false} QuietScanPresents(c: Config, s: State, t: nat)
    requires ScanBegins(s, t)
    ensures var after, batch := Run(c, s, ScanSteps(t)), Fresh(Unread(c, s.inbox), c.scope.membership, s.attempted);
            && after.log == s.log + (if batch == [] then [] else [Presented(s.life, s.generation, batch)])
            && after.attempted == s.attempted + IdsOf(batch)
            && (forall m | m in Unread(c, s.inbox) :: m.id in after.attempted)
            && after.scan == None && t !in after.threads && after.session == s.session && after.nextThread == s.nextThread
            && after.life == s.life && after.generation == s.generation
            && after.inbox == ReadFor(c.legacy, s.inbox, c.scope.membership, true, false).1
  {
    var unread, membership := Unread(c, s.inbox), c.scope.membership;
    var batch := Fresh(unread, membership, s.attempted);
    FreshMeaning(unread, membership, s.attempted);
    forall m | m in unread ensures m.id in s.attempted + IdsOf(batch) {
      SelectMeaning(Identify(c.legacy, s.inbox.GetOr([])), membership, true, m);
    }
    var read := TurnReads(c, s, t);
    var done := TurnPresents(c, read, t, unread);
    RunFive(c, s, t, read, done);
  }

  lemma {:induction false} TurnReads(c: Config, s: State, t: nat) returns (read: State)
    requires ScanBegins(s, t)
    ensures read == Next(c, Next(c, s, Resume(t, Yes, true)), Land(t))
    ensures t in read.threads && read.threads[t] == Thread(s.generation, ScanRead(Some(Unread(c, s.inbox))))
    ensures read.log == s.log && read.attempted == s.attempted && read.life == s.life && read.generation == s.generation
    ensures read.scan == s.scan && read.stopped == s.stopped && read.rescan == s.rescan && read.session == s.session
    ensures read.nextThread == s.nextThread && read.inbox == ReadFor(c.legacy, s.inbox, c.scope.membership, true, false).1
  {
    var asked := Next(c, s, Resume(t, Yes, true));
    assert asked == At(s, t, ScanRead(None));
    read := Next(c, asked, Land(t));
  }

  lemma {:induction false} TurnPresents(c: Config, s: State, t: nat, unread: seq<Message>) returns (done: State)
    requires t in s.threads && s.threads[t] == Thread(s.generation, ScanRead(Some(unread))) && s.scan == Some(t) && !s.stopped && !s.rescan
    ensures var batch := Fresh(unread, c.scope.membership, s.attempted);
            && done.log == s.log + (if batch == [] then [] else [Presented(s.life, s.generation, batch)])
            && done.attempted == s.attempted + IdsOf(batch)
            && done.scan == None && t !in done.threads && done.session == s.session && done.nextThread == s.nextThread
            && done.inbox == s.inbox && done.life == s.life && done.generation == s.generation
    ensures var one := Next(c, s, Resume(t, Yes, true));
            done == Next(c, Next(c, one, Resume(t, Yes, true)), Resume(t, Yes, true))
  {
    var batch := Fresh(unread, c.scope.membership, s.attempted);
    var one := Next(c, s, Resume(t, Yes, true));
    var two := Next(c, one, Resume(t, Yes, true));
    done := Next(c, two, Resume(t, Yes, true));
    if batch == [] {
      assert one == EndScan(s, t) && two == one && done == one;
    } else {
      assert one == At(s, t, ScanRecheck(unread, batch));
      var tried := one.(attempted := s.attempted + IdsOf(batch));
      if Interrupts(batch) {
        assert two == At(tried, t, ScanInterrupt(unread, batch));
        assert done == Present(two, t, batch, true);
      } else {
        assert two == Present(tried, t, batch, true) && done == two;
      }
    }
  }

  lemma {:induction false} RunFive(c: Config, s: State, t: nat, read: State, done: State)
    requires read == Next(c, Next(c, s, Resume(t, Yes, true)), Land(t))
    requires done == Next(c, Next(c, Next(c, read, Resume(t, Yes, true)),
                                                               Resume(t, Yes, true)), Resume(t, Yes, true))
    ensures Run(c, s, ScanSteps(t)) == done
  {
    hide Next;
    var r := Resume(t, Yes, true);
    RunTwo(c, s, r, Land(t), [r, r, r]);
    RunTwo(c, read, r, r, [r]);
    RunTwo(c, Next(c, Next(c, read, r), r), r, r, []);
    assert ScanSteps(t) == [r, Land(t)] + [r, r, r];
    assert [r, r, r] == [r, r] + [r];
    assert [r][1..] == [];
  }

  lemma {:induction false} RunTwo(c: Config, s: State, a: Step, b: Step, rest: seq<Step>)
    ensures Run(c, s, [a, b] + rest) == Run(c, Next(c, Next(c, s, a), b), rest)
  {
    hide Next;
    var all := [a, b] + rest;
    assert all[1..] == [b] + rest && ([b] + rest)[1..] == rest;
    assert Run(c, s, all) == Run(c, Next(c, s, a), all[1..]);
    assert Run(c, Next(c, s, a), [b] + rest) == Run(c, Next(c, Next(c, s, a), b), rest);
  }

  /** Set to scan: a new scan begins, or the one under way goes round once more. */
  predicate ScanAsked(s: State, n: State) {
    && n.inbox == s.inbox && n.log == s.log && n.attempted == s.attempted
    && if s.scan.None? then ScanBegins(n, s.nextThread) else n.scan == s.scan && n.rescan && n.threads == s.threads
  }

  /** While the watch is set, the interval and a hint with its timer each ask for a scan. */
  lemma {:induction false} WatchAsksForScan(c: Config, s: State)
    requires Fenced(s) && s.watching
    ensures ScanAsked(s, Next(c, s, IntervalFires))
    ensures ScanAsked(s, Next(c, Next(c, s, HintArrives), HintFires))
  {
  }

  /** A scan that was asked to goes round again from its first await, and then owes no further round. */
  lemma RescanGoesRound(s: State, t: nat)
    requires Fenced(s) && s.scan == Some(t) && s.rescan
    ensures ScanBegins(AfterOnce(s, t), t)
  {
  }

  /**
   At the second binding read of a scan that is still current, a batch with an
   interrupting record waits for the interrupt first, and any other is handed on at
   once; either way all of it counts as tried.
   */
  lemma InterruptComesFirst(c: Config, s: State, t: nat, unread: seq<Message>, pending: seq<Message>)
    requires ScanPoint(s, t, ScanRecheck(unread, pending)) && s.scan == Some(t) && !s.stopped
    ensures var n := Next(c, s, Resume(t, Yes, true));
            && ((exists m :: m in pending && m.interrupt) ==>
                  n.log == s.log && ScanPoint(n, t, ScanInterrupt(unread, pending)))
            && (!(exists m :: m in pending && m.interrupt) ==> n.log == s.log + [Presented(s.life, s.generation, pending)])
            && n.attempted == s.attempted + IdsOf(pending)
  {
  }

  predicate ScanPoint(s: State, t: nat, p: Point) {
    t in s.threads && s.threads[t] == Thread(s.generation, p)
  }

  // ---- a restart ----

  /** start with these entries; the presentation `i` of an earlier activation may reach the Session only after they were taken. */
  function StartSteps(t: nat, entries: seq<E.Entry>, i: nat): seq<Step> {
    [Start(entries), Persist(i), Resume(t, Yes, true), Land(t), Resume(t, Yes, true)]
  }

  function Opened(c: Config, inbox: Option<seq<Message>>, entries: seq<E.Entry>): Option<seq<Message>> {
    var acked := E.Acked(entries, c.scope);
    if acked == {} then inbox else MarkFor(c.legacy, inbox, c.scope.membership, acked).1
  }

  lemma {:induction false} RestartOpens(c: Config, s: State, entries: seq<E.Entry>, i: nat) returns (open: State)
    requires Within(entries, s.session)
    ensures open == Run(c, s, StartSteps(s.nextThread, entries, i))
    ensures ScanBegins(open, s.nextThread + 1) && open.attempted == Recovered(c, entries)
    ensures open.inbox == Opened(c, s.inbox, entries) && open.session == Next(c, s, Persist(i)).session
    ensures open.life == s.life && open.generation == s.generation + 1 && open.nextThread == s.nextThread + 2
    ensures E.Pending(entries, c.scope) == {} ==> open.log == s.log
    ensures s.log <= open.log && forall k | |s.log| <= k < |open.log| :: open.log[k].Resumed?
  {
    hide Run, ResumeStart, ResumeScan, ResumeCommit, LandAt, EnterScan, MarkFor, E.Acked, E.Shown;
    var t := s.nextThread;
    var begun := Next(c, Next(c, s, Start(entries)), Persist(i));
    assert begun.threads == s.threads[t := Thread(begun.generation, StartBinding(entries))];
    open := StartOpens(c, begun, t, entries);
    RunStart(c, s, t, entries, i, begun);
  }

  lemma {:induction false} RunStart(c: Config, s: State, t: nat, entries: seq<E.Entry>, i: nat, begun: State)
    requires begun == Next(c, Next(c, s, Start(entries)), Persist(i))
    ensures var r := Resume(t, Yes, true);
            Run(c, s, StartSteps(t, entries, i))
            == Next(c, Next(c, Next(c, begun, r), Land(t)), r)
  {
    hide Next;
    var r, l := Resume(t, Yes, true), Land(t);
    RunTwo(c, s, Start(entries), Persist(i), [r, l, r]);
    RunTwo(c, begun, r, l, [r]);
    assert StartSteps(t, entries, i) == [Start(entries), Persist(i)] + [r, l, r];
    assert [r, l, r] == [r, l] + [r] && [r][1..] == [];
  }

  lemma {:induction false} StartOpens(c: Config, s: State, t: nat, entries: seq<E.Entry>) returns (open: State)
    requires t in s.threads && s.threads[t] == Thread(s.generation, StartBinding(entries)) && t < s.nextThread
    requires !s.stopped && s.scan.None? && s.attempted == {} && !s.rescan
    ensures var r := Resume(t, Yes, true);
            open == Next(c, Next(c, Next(c, s, r), Land(t)), r)
    ensures ScanBegins(open, s.nextThread) && open.attempted == Recovered(c, entries)
    ensures open.inbox == Opened(c, s.inbox, entries) && open.session == s.session
    ensures open.life == s.life && open.generation == s.generation && open.nextThread == s.nextThread + 1
    ensures E.Pending(entries, c.scope) == {} ==> open.log == s.log
    ensures s.log <= open.log && forall k | |s.log| <= k < |open.log| :: open.log[k].Resumed?
  {
    var r := Resume(t, Yes, true);
    var one := Next(c, s, r);
    var two := Next(c, one, Land(t));
    open := Next(c, two, r);
    var acked := E.Acked(entries, c.scope);
    var known := s.(acknowledged := s.acknowledged + acked, attempted := s.attempted + acked);
    if acked == {} {
      assert one == Open(c, known, t, entries, true) && t !in one.threads;
    } else {
      assert one == At(known, t, StartMark(entries, acked, false));
      assert two == LandAt(c, one, t) && open == Open(c, two, t, entries, true);
    }
  }

  /**
   After a restart an unread record is presented in full, again or for the first
   time, exactly when the entries given to the start show neither a presentation
   nor an acknowledgement of it.
   */
  lemma {:induction false} RestartPresents(c: Config, s: State, entries: seq<E.Entry>, i: nat, m: Message)
    requires Within(entries, s.session)
    requires m in Unread(c, Opened(c, s.inbox, entries))
    ensures var after := Run(c, Run(c, s, StartSteps(s.nextThread, entries, i)), ScanSteps(s.nextThread + 1));
            (exists k :: |s.log| <= k < |after.log| && IsOf(after.log[k], s.life, s.generation + 1) && m in after.log[k].batch)
            <==> m.id !in E.Acked(entries, c.scope) + E.Shown(entries, c.scope)
  {
    var open := RestartOpens(c, s, entries, i);
    QuietScanPresents(c, open, s.nextThread + 1);
    var after := Run(c, open, ScanSteps(s.nextThread + 1));
    var unread := Unread(c, open.inbox);
    var batch := Fresh(unread, c.scope.membership, open.attempted);
    FreshMeaning(unread, c.scope.membership, open.attempted);
    SelectMeaning(Identify(c.legacy, open.inbox.GetOr([])), c.scope.membership, true, m);
    if m in batch {
      assert after.log[|open.log|] == Presented(s.life, s.generation + 1, batch);
    }
    assert |after.log| <= |open.log| + 1;
  }

  lemma {:induction false} RunConcat(c: Config, s: State, a: seq<Step>, b: seq<Step>)
    ensures Run(c, s, a + b) == Run(c, Run(c, s, a), b)
    decreases |a|
  {
    if a == [] {
      assert a + b == b;
    } else {
      assert (a + b)[1..] == a[1..] + b;
      RunConcat(c, Next(c, s, a[0]), a[1..], b);
    }
  }

  lemma UnreadOne(c: Config, m: Message)
    requires m.id != "" && IsFor(m, c.scope.membership) && !m.read
    ensures Unread(c, Some([m])) == [m] == Fresh([m], c.scope.membership, {})
    ensures ReadFor(c.legacy, Some([m]), c.scope.membership, true, false).1 == Some([m])
  {
    var one := [m];
    assert Some(one).GetOr([]) == one && Identify(c.legacy, one) == one && one[1..] == [];
    assert Select(one, c.scope.membership, true) == [m] + Select([], c.scope.membership, true);
    assert Fresh(one, c.scope.membership, {}) == [m] + Fresh([], c.scope.membership, {});
  }

  /** One restart and one scan with nothing recovered, over an inbox of one unread record. */
  lemma {:induction false} RestartOfOne(c: Config, s: State, m: Message) returns (open: State, done: State)
    requires s.inbox == Some([m]) && m.id != "" && IsFor(m, c.scope.membership) && !m.read
    ensures open == Run(c, s, StartSteps(s.nextThread, [], 0)) && done == Run(c, open, ScanSteps(s.nextThread + 1))
    ensures open.session == Next(c, s, Persist(0)).session && open.log == s.log
    ensures done.log == s.log + [Presented(s.life, s.generation + 1, [m])]
    ensures done.inbox == s.inbox && done.session == open.session && done.nextThread == s.nextThread + 2
    ensures open.inbox == s.inbox && open.nextThread == s.nextThread + 2
  {
    assert E.Acked([], c.scope) == {} && E.Shown([], c.scope) == {};
    open := RestartOpens(c, s, [], 0);
    UnreadOne(c, m);
    QuietScanPresents(c, open, s.nextThread + 1);
    done := Run(c, open, ScanSteps(s.nextThread + 1));
  }

  /** The snapshot matters: a presentation that reaches the Session after it was taken is repeated. */
  lemma {:induction false} PersistedLateIsRepeated(c: Config)
    ensures var m := Message("m1", Some(c.scope.membership), Content("a", "b", "c", None, None), false, false);
            var steps := StartSteps(0, [], 0) + ScanSteps(1) + StartSteps(2, [], 0);
            var before := Run(c, Init(Some([m]), []), steps);
            var after := Run(c, before, ScanSteps(3));
            && m.id in E.Shown(before.session, c.scope)
            && |after.log| == 2 && |before.log| == 1 && before.log <= after.log
            && after.log[0].Presented? && after.log[1].Presented? && m in after.log[0].batch && m in after.log[1].batch
  {
    hide Run, StartSteps, ScanSteps, E.Shown;
    var m := Message("m1", Some(c.scope.membership), Content("a", "b", "c", None, None), false, false);
    var start := Init(Some([m]), []);
    var first, quiet := RestartOfOne(c, start, m);
    var second, last := RestartOfOne(c, quiet, m);
    RunConcat(c, start, StartSteps(0, [], 0), ScanSteps(1));
    RunConcat(c, start, StartSteps(0, [], 0) + ScanSteps(1), StartSteps(2, [], 0));
    assert quiet.log[0] == Presented(0, 1, [m]);
    LatePersist(c, quiet, m);
  }

  lemma LatePersist(c: Config, s: State, m: Message)
    requires s.log == [Presented(0, 1, [m])]
    ensures m.id in E.Shown(Next(c, s, Persist(0)).session, c.scope)
  {
    var e := E.CustomMessage(E.MessageType, Some(E.Details(c.scope, IdsOf([m]))));
    E.ShownGrows(s.session, e, c.scope);
    assert m in [m] && m.id in IdsOf([m]);
  }
}
