/**
 The recipient's delivery from the inbox into its Session, as a machine: every
 await ends a step, and stops, starts, crashes, other processes and the lock of
 the inbox may come between (class DirectMessageDelivery in
 src/alert-authority/direct-delivery.ts).
 */
module DirectDelivery {
  import opened Wrappers
  import opened InboxDelivery
  import E = SessionEntries

  datatype Config = Config(scope: E.Scope, legacy: Legacy)

  /** Where a suspended call waits. A mark or a read may have happened before its promise is resumed. */
  datatype Point =
    | StartBinding(entries: seq<E.Entry>)
    | StartMark(entries: seq<E.Entry>, ids: set<string>, landed: bool)
    | ScanBinding
    | ScanRead(found: Option<seq<Message>>)
    | ScanRecheck(unread: seq<Message>, pending: seq<Message>)
    | ScanInterrupt(unread: seq<Message>, pending: seq<Message>)
    | CommitBinding
    | CommitMark(ids: set<string>, landed: bool)

  datatype Thread = Thread(generation: nat, at: Point)

  datatype Effect =
    | Presented(life: nat, generation: nat, batch: seq<Message>)
    | Resumed(life: nat, generation: nat, ids: set<string>)
    | AckWritten(life: nat, generation: nat, ids: set<string>)

  datatype State = State(
    attempted: set<string>, acknowledged: set<string>, staged: set<string>,
    stopped: bool, watching: bool, hintTimer: bool,      // watching: the interval and the file watch are set
    scan: Option<nat>, rescan: bool, generation: nat,
    threads: map<nat, Thread>, nextThread: nat,          // suspended calls
    inbox: Option<seq<Message>>, session: seq<E.Entry>,  // what survives a crash
    life: nat, log: seq<Effect>, given: seq<E.Entry>, observed: set<string>)  // history

  datatype Answer = Yes | No | Throws

  datatype Step =
    | Start(entries: seq<E.Entry>)
    | StopNow
    | HintArrives
    | HintFires
    | IntervalFires
    | ObserveContext(messages: seq<E.ContextMessage>)
    | Commit(succeeded: bool)
    | Land(t: nat)                                       // the locked inbox operation a call waits for
    | Resume(t: nat, answer: Answer, sends: bool)        // an awaited promise settles; whether the Session takes a send
    | Deliver(message: Message)                          // another process appends a record
    | Persist(i: nat)                                    // a presentation reaches the Session file
    | Crash

  function IdsOf(batch: seq<Message>): set<string> {
    set m | m in batch :: m.id
  }

  function Fresh(unread: seq<Message>, membership: string, attempted: set<string>): seq<Message> {
    if unread == [] then []
    else (if IsFor(unread[0], membership) && unread[0].id !in attempted then [unread[0]] else [])
         + Fresh(unread[1..], membership, attempted)
  }

  predicate Interrupts(batch: seq<Message>) {
    exists m | m in batch :: m.interrupt
  }

  predicate IsScan(p: Point) {
    p.ScanBinding? || p.ScanRead? || p.ScanRecheck? || p.ScanInterrupt?
  }

  predicate IsStart(p: Point) {
    p.StartBinding? || p.StartMark?
  }

  // ---- pieces of the class ----

  predicate IsCurrent(s: State, generation: nat) {
    !s.stopped && s.generation == generation
  }

  function Stopped(s: State): State {
    s.(generation := s.generation + 1, stopped := true, watching := false, hintTimer := false,
       scan := None, rescan := false, staged := {})
  }

  function StopIfCurrent(s: State, generation: nat): State {
    if IsCurrent(s, generation) then Stopped(s) else s
  }

  function End(s: State, t: nat): State {
    s.(threads := s.threads - {t})
  }

  function At(s: State, t: nat, p: Point): State
    requires t in s.threads
  {
    s.(threads := s.threads[t := s.threads[t].(at := p)])
  }

  /** scan */
  function EnterScan(s: State): State {
    if s.stopped then s
    else if s.scan.Some? then s.(rescan := true)
    else s.(rescan := false, scan := Some(s.nextThread), nextThread := s.nextThread + 1,
            threads := s.threads[s.nextThread := Thread(s.generation, ScanBinding)])
  }

  /** The loop ends and its promise is cleared before any timer can fire. */
  function EndScan(s: State, t: nat): State {
    End(s, t).(scan := if s.scan == Some(t) then None else s.scan)
  }

  /** scanOnce has returned: go round again, or end. */
  function AfterOnce(s: State, t: nat): (r: State)
    requires t in s.threads
    ensures r.inbox == s.inbox && r.log == s.log
  {
    if IsCurrent(s, s.threads[t].generation) && s.rescan then At(s, t, ScanBinding).(rescan := false) else EndScan(s, t)
  }

  function Present(s: State, t: nat, pending: seq<Message>, sends: bool): (r: State)
    requires t in s.threads
    ensures r.inbox == s.inbox
  {
    if sends then AfterOnce(s.(log := s.log + [Presented(s.life, s.threads[t].generation, pending)]), t)
    else EndScan(s.(attempted := s.attempted - IdsOf(pending)), t)
  }

  /** start, from where the acknowledged records are marked. */
  function Open(c: Config, s: State, t: nat, entries: seq<E.Entry>, sends: bool): State
    requires t in s.threads
  {
    var g := s.threads[t].generation;
    if !IsCurrent(s, g) then End(s, t)
    else
      var shown := E.Pending(entries, c.scope);
      var open := End(s, t).(attempted := s.attempted + shown, watching := true);
      if shown == {} then EnterScan(open)
      else if sends then EnterScan(open.(log := open.log + [Resumed(s.life, g, shown)]))
      else open
  }

  /** observeContext */
  function Observing(s: State, contextIds: set<string>): State {
    if s.stopped then s
    else
      var added := contextIds - s.acknowledged - s.staged;
      s.(staged := s.staged + added, attempted := s.attempted + added, observed := s.observed + added)
  }

  // ---- the machine ----

  function ResumeStart(c: Config, s: State, t: nat, answer: Answer, sends: bool): (r: State)
    requires t in s.threads && IsStart(s.threads[t].at)
    ensures r.inbox == s.inbox
  {
    var g := s.threads[t].generation;
    match s.threads[t].at
    case StartBinding(entries) =>
      if answer.Throws? then End(s, t)
      else if answer.No? then End(StopIfCurrent(s, g), t)
      else if !IsCurrent(s, g) then End(s, t)
      else
        var acked := E.Acked(entries, c.scope);
        var known := s.(acknowledged := s.acknowledged + acked, attempted := s.attempted + acked);
        if acked == {} then Open(c, known, t, entries, sends) else At(known, t, StartMark(entries, acked, false))
    case StartMark(entries, _, landed) =>
      if answer.Throws? then End(s, t) else if !landed then s else Open(c, s, t, entries, sends)
  }

  function ResumeScan(c: Config, s: State, t: nat, answer: Answer, sends: bool): (r: State)
    requires t in s.threads && IsScan(s.threads[t].at)
    ensures r.inbox == s.inbox
  {
    var g := s.threads[t].generation;
    match s.threads[t].at
    case ScanBinding =>
      if answer.Throws? then EndScan(s, t)
      else if answer.No? then AfterOnce(StopIfCurrent(s, g), t)
      else if !IsCurrent(s, g) then AfterOnce(s, t)
      else At(s, t, ScanRead(None))
    case ScanRead(found) =>
      if answer.Throws? then EndScan(s, t)
      else if found.None? then s
      else if !IsCurrent(s, g) then AfterOnce(s, t)
      else
        var pending := Fresh(found.value, c.scope.membership, s.attempted);
        if pending == [] then AfterOnce(s, t) else At(s, t, ScanRecheck(found.value, pending))
    case ScanRecheck(unread, pending) =>
      if answer.Throws? then EndScan(s, t)
      else if answer.No? then AfterOnce(StopIfCurrent(s, g), t)
      else if !IsCurrent(s, g) then AfterOnce(s, t)
      else
        var tried := s.(attempted := s.attempted + IdsOf(pending));
        if Interrupts(pending) then At(tried, t, ScanInterrupt(unread, pending)) else Present(tried, t, pending, sends)
    case ScanInterrupt(_, pending) =>
      if !IsCurrent(s, g) then AfterOnce(s, t) else Present(s, t, pending, sends)
  }

  function ResumeCommit(c: Config, s: State, t: nat, answer: Answer, sends: bool): (r: State)
    requires t in s.threads && (s.threads[t].at.CommitBinding? || s.threads[t].at.CommitMark?)
    ensures r.inbox == s.inbox
  {
    var g := s.threads[t].generation;
    match s.threads[t].at
    case CommitBinding =>
      var ids := s.staged - s.acknowledged;
      if answer.Throws? then End(s, t)
      else if answer.No? then End(StopIfCurrent(s, g), t)
      else if !IsCurrent(s, g) || ids == {} || !sends then End(s, t)
      else
        At(s, t, CommitMark(ids, false)).(
          session := s.session + [E.Custom(E.AckType, Some(E.Details(c.scope, ids)))],
          acknowledged := s.acknowledged + ids, log := s.log + [AckWritten(s.life, g, ids)])
    case CommitMark(ids, landed) =>
      if answer.Throws? then End(s, t)
      else if !landed then s
      else if !IsCurrent(s, g) then End(s, t)
      else End(s, t).(staged := s.staged - ids)
  }

  /** The inbox operation a call waits for takes effect, whoever is current by then. */
  function LandAt(c: Config, s: State, t: nat): State
    requires t in s.threads
  {
    var membership := c.scope.membership;
    match s.threads[t].at
    case StartMark(entries, ids, false) =>
      At(s, t, StartMark(entries, ids, true)).(inbox := MarkFor(c.legacy, s.inbox, membership, ids).1)
    case CommitMark(ids, false) =>
      At(s, t, CommitMark(ids, true)).(inbox := MarkFor(c.legacy, s.inbox, membership, ids).1)
    case ScanRead(None) =>
      var (unread, inbox) := ReadFor(c.legacy, s.inbox, membership, true, false);
      At(s, t, ScanRead(Some(unread))).(inbox := inbox)
    case _ => s
  }

  predicate IdIsNew(c: Config, inbox: Option<seq<Message>>, id: string) {
    id != "" && id !in IdsOf(Identify(c.legacy, inbox.GetOr([])))
  }

  function Next(c: Config, s: State, step: Step): State {
    match step
    case Start(entries) =>
      if exists e | e in entries :: e !in s.session then s
      else
        var begun := Stopped(s);
        begun.(attempted := {}, acknowledged := {}, staged := {}, stopped := false, given := entries, observed := {},
               threads := begun.threads[s.nextThread := Thread(begun.generation, StartBinding(entries))],
               nextThread := s.nextThread + 1)
    case StopNow => Stopped(s)
    case HintArrives => if !s.watching || s.stopped then s else s.(hintTimer := true)
    case HintFires => if !s.hintTimer then s else EnterScan(s.(hintTimer := false))
    case IntervalFires => if !s.watching then s else EnterScan(s)
    case ObserveContext(messages) => Observing(s, E.Observed(messages, c.scope))
    case Commit(succeeded) =>
      if s.stopped || !succeeded then s
      else s.(threads := s.threads[s.nextThread := Thread(s.generation, CommitBinding)], nextThread := s.nextThread + 1)
    case Land(t) => if t in s.threads then LandAt(c, s, t) else s
    case Resume(t, answer, sends) =>
      if t !in s.threads then s
      else if IsStart(s.threads[t].at) then ResumeStart(c, s, t, answer, sends)
      else if IsScan(s.threads[t].at) then ResumeScan(c, s, t, answer, sends)
      else ResumeCommit(c, s, t, answer, sends)
    case Deliver(m) => if !IdIsNew(c, s.inbox, m.id) || m.read then s else s.(inbox := Append(s.inbox, m, "").1)
    case Persist(i) =>
      if i < |s.log| && s.log[i].Presented?
      then s.(session := s.session + [E.CustomMessage(E.MessageType, Some(E.Details(c.scope, IdsOf(s.log[i].batch))))])
      else s
    case Crash =>
      State({}, {}, {}, true, false, false, None, false, 0, map[], 0, s.inbox, s.session, s.life + 1, s.log, [], {})
  }

  function Init(inbox: Option<seq<Message>>, session: seq<E.Entry>): State {
    State({}, {}, {}, true, false, false, None, false, 0, map[], 0, inbox, session, 0, [], [], {})
  }

  // ---- what every step keeps ----

  function Recovered(c: Config, given: seq<E.Entry>): set<string> {
    E.Acked(given, c.scope) + E.Pending(given, c.scope)
  }

  /** A presentation made in one activation. */
  predicate IsOf(e: Effect, life: nat, generation: nat) {
    e.Presented? && e.life == life && e.generation == generation
  }

  /** The generation of each suspended call, and which of them may still act. */
  ghost predicate Fenced(s: State) {
    && (forall t | t in s.threads :: t < s.nextThread && s.threads[t].generation <= s.generation)
    && (forall t | t in s.threads && s.threads[t].generation == s.generation ::
          && !s.stopped
          && (IsScan(s.threads[t].at) ==> s.scan == Some(t) && s.watching)
          && (IsStart(s.threads[t].at) ==> !s.watching && s.threads[t].at.entries == s.given))
    && (forall t, u | t in s.threads && u in s.threads && IsStart(s.threads[t].at) && IsStart(s.threads[u].at) ::
          s.threads[t].generation == s.threads[u].generation == s.generation ==> t == u)
    && (s.scan.Some? ==> s.scan.value in s.threads && IsScan(s.threads[s.scan.value].at)
                         && s.threads[s.scan.value].generation == s.generation)
    && (s.watching ==> !s.stopped) && (s.hintTimer ==> s.watching)
  }

  predicate SameActivation(a: Effect, b: Effect) {
    a.Presented? && b.Presented? && a.life == b.life && a.generation == b.generation
  }

  /** Not recovered by the start, and not yet presented in the activation. */
  predicate IsNew(c: Config, log: seq<Effect>, life: nat, generation: nat, given: seq<E.Entry>, batch: seq<Message>) {
    && IdsOf(batch) !! Recovered(c, given)
    && forall i | 0 <= i < |log| && IsOf(log[i], life, generation) :: IdsOf(batch) !! IdsOf(log[i].batch)
  }

  predicate LogOnce(log: seq<Effect>, life: nat, generation: nat) {
    && (forall i | 0 <= i < |log| :: log[i].life < life || (log[i].life == life && log[i].generation <= generation))
    && (forall i, j | 0 <= i < j < |log| && SameActivation(log[i], log[j]) :: IdsOf(log[i].batch) !! IdsOf(log[j].batch))
  }

  /** What this activation has recovered or presented, it has tried. */
  predicate Tried(c: Config, log: seq<Effect>, life: nat, generation: nat, given: seq<E.Entry>, watching: bool, attempted: set<string>) {
    && (forall i | 0 <= i < |log| && IsOf(log[i], life, generation) ::
          watching && IdsOf(log[i].batch) <= attempted && IdsOf(log[i].batch) !! Recovered(c, given))
    && (watching ==> Recovered(c, given) <= attempted)
  }

  predicate PointOnce(c: Config, log: seq<Effect>, life: nat, generation: nat, given: seq<E.Entry>, attempted: set<string>, p: Point) {
    && (p.StartMark? ==> E.Acked(given, c.scope) <= attempted)
    && (p.ScanRecheck? || p.ScanInterrupt? ==> IsNew(c, log, life, generation, given, p.pending))
    && (p.ScanInterrupt? ==> IdsOf(p.pending) <= attempted)
  }

  /** No record is presented in full twice in one activation, nor one that the start recovered. */
  ghost predicate Once(c: Config, s: State) {
    && LogOnce(s.log, s.life, s.generation)
    && Tried(c, s.log, s.life, s.generation, s.given, s.watching, s.attempted)
    && (forall t | t in s.threads && s.threads[t].generation == s.generation ::
          PointOnce(c, s.log, s.life, s.generation, s.given, s.attempted, s.threads[t].at))
  }

  // ---- the fence ----

  lemma StopKeepsFence(s: State)
    requires Fenced(s)
    ensures Fenced(Stopped(s))
  {
  }

  lemma EnterKeepsFence(s: State)
    requires Fenced(s)
    ensures s.watching || s.stopped ==> Fenced(EnterScan(s))
  {
  }

  lemma OnceKeepsFence(s: State, t: nat)
    requires Fenced(s) && t in s.threads && IsScan(s.threads[t].at)
    ensures Fenced(AfterOnce(s, t)) && Fenced(EndScan(s, t))
  {
  }

  /** The fence looks at the calls, the timers and the generation alone. */
  lemma SameFence(s: State, like: State)
    requires Fenced(s)
    requires like.threads == s.threads && like.nextThread == s.nextThread && like.generation == s.generation && like.given == s.given
    requires like.stopped == s.stopped && like.watching == s.watching && like.hintTimer == s.hintTimer && like.scan == s.scan
    ensures Fenced(like)
  {
  }

  /** The start of the current generation ends and the watch is set. */
  lemma WatchKeepsFence(s: State, t: nat)
    requires Fenced(s) && t in s.threads && IsStart(s.threads[t].at)
    ensures Fenced(End(s, t))
    ensures IsCurrent(s, s.threads[t].generation) ==> Fenced(End(s, t).(watching := true))
  {
  }

  lemma OpenKeepsFence(c: Config, s: State, t: nat, sends: bool)
    requires Fenced(s) && t in s.threads && IsStart(s.threads[t].at)
    ensures Fenced(Open(c, s, t, s.threads[t].at.entries, sends))
  {
    hide Fenced, EnterScan, E.Pending;
    var g, shown := s.threads[t].generation, E.Pending(s.threads[t].at.entries, c.scope);
    WatchKeepsFence(s, t);
    if IsCurrent(s, g) {
      var open := End(s, t).(attempted := s.attempted + shown, watching := true);
      var sent := open.(log := open.log + [Resumed(s.life, g, shown)]);
      SameFence(End(s, t).(watching := true), open);
      SameFence(open, sent);
      EnterKeepsFence(open);
      EnterKeepsFence(sent);
    }
  }

  /** Once stopped, no call is of the current generation, so that the first of the next activation is alone. */
  lemma FirstKeepsFence(s: State, entries: seq<E.Entry>)
    requires Fenced(s)
    ensures var begun := Stopped(s);
            Fenced(begun.(stopped := false, given := entries, nextThread := s.nextThread + 1,
                          threads := s.threads[s.nextThread := Thread(begun.generation, StartBinding(entries))]))
  {
  }

  lemma StartsFence(c: Config, s: State, entries: seq<E.Entry>)
    requires Fenced(s)
    ensures Fenced(Next(c, s, Start(entries)))
  {
    hide Fenced;
    FirstKeepsFence(s, entries);
    var begun := Stopped(s);
    SameFence(begun.(stopped := false, given := entries, nextThread := s.nextThread + 1,
                     threads := s.threads[s.nextThread := Thread(begun.generation, StartBinding(entries))]),
              begun.(attempted := {}, acknowledged := {}, staged := {}, stopped := false, given := entries, observed := {},
                     threads := begun.threads[s.nextThread := Thread(begun.generation, StartBinding(entries))],
                     nextThread := s.nextThread + 1));
  }

  lemma BeginKeepsFence(c: Config, s: State, succeeded: bool)
    requires Fenced(s)
    ensures Fenced(Next(c, s, Commit(succeeded)))
  {
  }

  /** A call that moves on stays the kind of call it was. */
  lemma AtKeepsFence(s: State, t: nat, p: Point)
    requires Fenced(s) && t in s.threads && IsScan(p) == IsScan(s.threads[t].at) && IsStart(p) == IsStart(s.threads[t].at)
    requires IsStart(p) ==> p.entries == s.threads[t].at.entries
    ensures Fenced(At(s, t, p))
  {
  }

  lemma LandKeepsFence(c: Config, s: State, t: nat)
    requires Fenced(s) && t in s.threads
    ensures Fenced(LandAt(c, s, t))
  {
    var p := s.threads[t].at;
    match p
    case StartMark(entries, ids, false) => AtKeepsFence(s, t, StartMark(entries, ids, true));
    case CommitMark(ids, false) => AtKeepsFence(s, t, CommitMark(ids, true));
    case ScanRead(None) => AtKeepsFence(s, t, ScanRead(Some(ReadFor(c.legacy, s.inbox, c.scope.membership, true, false).0)));
    case _ =>
  }

  lemma CommitKeepsFence(c: Config, s: State, t: nat, answer: Answer, sends: bool)
    requires Fenced(s) && t in s.threads && (s.threads[t].at.CommitBinding? || s.threads[t].at.CommitMark?)
    ensures Fenced(ResumeCommit(c, s, t, answer, sends))
  {
    EndKeepsFence(s, t);
    StopKeepsFence(s);
    EndKeepsFence(Stopped(s), t);
    if s.threads[t].at.CommitBinding? {
      AtKeepsFence(s, t, CommitMark(s.staged - s.acknowledged, false));
    }
  }

  lemma EndKeepsFence(s: State, t: nat)
    requires Fenced(s) && s.scan != Some(t)
    ensures Fenced(End(s, t))
  {
  }

  lemma NextKeepsFence(c: Config, s: State, step: Step)
    requires Fenced(s)
    ensures Fenced(Next(c, s, step))
  {
    match step
    case Start(entries) => StartsFence(c, s, entries);
    case StopNow => StopKeepsFence(s);
    case HintArrives | ObserveContext(_) | Deliver(_) | Persist(_) =>
    case HintFires => EnterKeepsFence(s.(hintTimer := false));
    case IntervalFires => EnterKeepsFence(s);
    case Commit(succeeded) => BeginKeepsFence(c, s, succeeded);
    case Crash =>
    case Land(t) =>
      if t in s.threads {
        LandKeepsFence(c, s, t);
      }
    case Resume(t, answer, sends) =>
      if t in s.threads {
        if IsStart(s.threads[t].at) {
          StartKeepsFence(c, s, t, answer, sends);
        } else if IsScan(s.threads[t].at) {
          ScanKeepsFence(c, s, t, answer, sends);
        } else {
          CommitKeepsFence(c, s, t, answer, sends);
        }
      }
  }

  lemma StartKeepsFence(c: Config, s: State, t: nat, answer: Answer, sends: bool)
    requires Fenced(s) && t in s.threads && IsStart(s.threads[t].at)
    ensures Fenced(ResumeStart(c, s, t, answer, sends))
  {
    hide Fenced, Open, E.Acked;
    WatchKeepsFence(s, t);
    StopKeepsFence(s);
    WatchKeepsFence(Stopped(s), t);
    if s.threads[t].at.StartMark? {
      OpenKeepsFence(c, s, t, sends);
    } else {
      var entries := s.threads[t].at.entries;
      var acked := E.Acked(entries, c.scope);
      var known := s.(acknowledged := s.acknowledged + acked, attempted := s.attempted + acked);
      SameFence(s, known);
      OpenKeepsFence(c, known, t, sends);
      AtKeepsFence(known, t, StartMark(entries, acked, false));
    }
  }

  lemma ScanKeepsFence(c: Config, s: State, t: nat, answer: Answer, sends: bool)
    requires Fenced(s) && t in s.threads && IsScan(s.threads[t].at)
    ensures Fenced(ResumeScan(c, s, t, answer, sends))
  {
    hide Fenced, AfterOnce, Present, EndScan, Fresh, IdsOf, Interrupts;
    OnceKeepsFence(s, t);
    StopKeepsFence(s);
    OnceKeepsFence(Stopped(s), t);
    match s.threads[t].at
    case ScanBinding => AtKeepsFence(s, t, ScanRead(None));
    case ScanRead(found) =>
      if found.Some? {
        AtKeepsFence(s, t, ScanRecheck(found.value, Fresh(found.value, c.scope.membership, s.attempted)));
      }
    case ScanRecheck(unread, pending) =>
      var tried := s.(attempted := s.attempted + IdsOf(pending));
      SameFence(s, tried);
      AtKeepsFence(tried, t, ScanInterrupt(unread, pending));
      TryKeepsFence(s, t, tried.attempted, pending, sends);
    case ScanInterrupt(_, pending) =>
      TryKeepsFence(s, t, s.attempted, pending, sends);
  }

  lemma TryKeepsFence(s: State, t: nat, attempted: set<string>, pending: seq<Message>, sends: bool)
    requires Fenced(s) && t in s.threads && IsScan(s.threads[t].at)
    ensures Fenced(Present(s.(attempted := attempted), t, pending, sends))
  {
    hide Fenced, AfterOnce, IdsOf, EndScan;
    var sent := s.(attempted := attempted, log := s.log + [Presented(s.life, s.threads[t].generation, pending)]);
    var dropped := s.(attempted := attempted - IdsOf(pending));
    SameFence(s, sent);
    SameFence(s, dropped);
    OnceKeepsFence(sent, t);
    OnceKeepsFence(dropped, t);
  }

  // ---- nothing twice ----

  /** Trying more, and what the fence does not look at, changes nothing here. */
  lemma TryKeepsOnce(c: Config, s: State, more: State)
    requires Once(c, s) && s.attempted <= more.attempted
    requires more.log == s.log && more.life == s.life && more.generation == s.generation && more.threads == s.threads
    requires more.given == s.given && more.watching == s.watching
    ensures Once(c, more)
  {
  }

  lemma StopKeepsOnce(c: Config, s: State)
    requires Fenced(s) && Once(c, s)
    ensures Once(c, Stopped(s))
  {
  }

  lemma EnterKeepsOnce(c: Config, s: State)
    requires Once(c, s)
    ensures Once(c, EnterScan(s))
  {
  }

  lemma EndKeepsOnce(c: Config, s: State, t: nat)
    requires Once(c, s) && t in s.threads
    ensures Once(c, End(s, t)) && Once(c, EndScan(s, t)) && Once(c, AfterOnce(s, t))
  {
  }

  lemma AtKeepsOnce(c: Config, s: State, t: nat, p: Point)
    requires Once(c, s) && t in s.threads
    requires s.threads[t].generation == s.generation ==> PointOnce(c, s.log, s.life, s.generation, s.given, s.attempted, p)
    ensures Once(c, At(s, t, p))
  {
  }

  /** Other effects are no presentations. */
  lemma LogKeepsOnce(c: Config, s: State, e: Effect)
    requires Once(c, s) && !e.Presented? && e.life == s.life && e.generation == s.generation
    ensures Once(c, s.(log := s.log + [e]))
  {
    var grown := s.log + [e];
    assert forall i | 0 <= i < |s.log| :: grown[i] == s.log[i];
    forall t | t in s.threads && s.threads[t].generation == s.generation
      ensures PointOnce(c, grown, s.life, s.generation, s.given, s.attempted, s.threads[t].at)
    {
      assert PointOnce(c, s.log, s.life, s.generation, s.given, s.attempted, s.threads[t].at);
    }
  }

  /** No call of the activation holds a batch, or anything else to be kept. */
  ghost predicate Free(s: State) {
    forall t | t in s.threads && s.threads[t].generation == s.generation ::
      !s.threads[t].at.ScanRecheck? && !s.threads[t].at.ScanInterrupt? && !s.threads[t].at.StartMark?
  }

  lemma PresentationKeepsOnce(c: Config, s: State, batch: seq<Message>)
    requires Once(c, s) && Free(s) && s.watching
    requires IsNew(c, s.log, s.life, s.generation, s.given, batch) && IdsOf(batch) <= s.attempted
    ensures Once(c, s.(log := s.log + [Presented(s.life, s.generation, batch)]))
  {
    var grown := s.log + [Presented(s.life, s.generation, batch)];
    assert forall i | 0 <= i < |s.log| :: grown[i] == s.log[i];
  }

  /** Taking back a batch that was not presented. */
  lemma DropKeepsOnce(c: Config, s: State, batch: seq<Message>)
    requires Once(c, s) && Free(s) && IsNew(c, s.log, s.life, s.generation, s.given, batch)
    ensures Once(c, s.(attempted := s.attempted - IdsOf(batch)))
  {
  }

  /** A batch that was new, presented by the one scan of the activation. */
  lemma PresentKeepsOnce(c: Config, s: State, t: nat, pending: seq<Message>, sends: bool)
    requires Fenced(s) && Once(c, s) && t in s.threads && IsScan(s.threads[t].at) && s.threads[t].generation == s.generation
    requires IsNew(c, s.log, s.life, s.generation, s.given, pending) && IdsOf(pending) <= s.attempted
    ensures Once(c, Present(s, t, pending, sends))
  {
    var free := At(s, t, ScanBinding);
    AtKeepsOnce(c, s, t, ScanBinding);
    if sends {
      PresentationKeepsOnce(c, free, pending);
      var sent := free.(log := s.log + [Presented(s.life, s.generation, pending)]);
      EndKeepsOnce(c, sent, t);
      SameAfterOnce(s.(log := sent.log), t);
    } else {
      DropKeepsOnce(c, free, pending);
      var dropped := free.(attempted := s.attempted - IdsOf(pending));
      EndKeepsOnce(c, dropped, t);
      SameAfterOnce(s.(attempted := dropped.attempted), t);
    }
  }

  /** Where the call stood does not matter once it ends or starts over. */
  lemma SameAfterOnce(s: State, t: nat)
    requires t in s.threads
    ensures AfterOnce(At(s, t, ScanBinding), t) == AfterOnce(s, t) && EndScan(At(s, t, ScanBinding), t) == EndScan(s, t)
  {
    assert At(s, t, ScanBinding).threads - {t} == s.threads - {t};
  }

  lemma OpenKeepsOnce(c: Config, s: State, t: nat, sends: bool)
    requires Fenced(s) && Once(c, s) && t in s.threads && IsStart(s.threads[t].at)
    requires s.threads[t].generation == s.generation ==> E.Acked(s.given, c.scope) <= s.attempted
    ensures Once(c, Open(c, s, t, s.threads[t].at.entries, sends))
  {
    EndKeepsOnce(c, s, t);
    var g := s.threads[t].generation;
    if IsCurrent(s, g) {
      var shown := E.Pending(s.given, c.scope);
      var open := End(s, t).(attempted := s.attempted + shown, watching := true);
      assert Once(c, open);
      LogKeepsOnce(c, open, Resumed(s.life, g, shown));
      EnterKeepsOnce(c, open);
      EnterKeepsOnce(c, open.(log := open.log + [Resumed(s.life, g, shown)]));
    }
  }

  lemma StartKeepsOnce(c: Config, s: State, t: nat, answer: Answer, sends: bool)
    requires Fenced(s) && Once(c, s) && t in s.threads && IsStart(s.threads[t].at)
    ensures Once(c, ResumeStart(c, s, t, answer, sends))
  {
    EndKeepsOnce(c, s, t);
    StopKeepsOnce(c, s);
    EndKeepsOnce(c, Stopped(s), t);
    var entries := s.threads[t].at.entries;
    if s.threads[t].at.StartMark? {
      OpenKeepsOnce(c, s, t, sends);
    } else if IsCurrent(s, s.threads[t].generation) {
      var acked := E.Acked(entries, c.scope);
      var known := s.(acknowledged := s.acknowledged + acked, attempted := s.attempted + acked);
      TryKeepsOnce(c, s, known);
      OpenKeepsOnce(c, known, t, sends);
      AtKeepsOnce(c, known, t, StartMark(entries, acked, false));
    }
  }

  lemma {:induction false} FreshMeaning(unread: seq<Message>, membership: string, attempted: set<string>)
    ensures IdsOf(Fresh(unread, membership, attempted)) !! attempted
    ensures forall m :: m in Fresh(unread, membership, attempted) <==> m in unread && IsFor(m, membership) && m.id !in attempted
  {
    if unread != [] {
      FreshMeaning(unread[1..], membership, attempted);
      assert unread == [unread[0]] + unread[1..];
    }
  }

  lemma ScanKeepsOnce(c: Config, s: State, t: nat, answer: Answer, sends: bool)
    requires Fenced(s) && Once(c, s) && t in s.threads && IsScan(s.threads[t].at)
    ensures Once(c, ResumeScan(c, s, t, answer, sends))
  {
    EndKeepsOnce(c, s, t);
    StopKeepsOnce(c, s);
    EndKeepsOnce(c, Stopped(s), t);
    if IsCurrent(s, s.threads[t].generation) {
      match s.threads[t].at
      case ScanBinding => AtKeepsOnce(c, s, t, ScanRead(None));
      case ScanRead(found) =>
        if found.Some? {
          var pending := Fresh(found.value, c.scope.membership, s.attempted);
          FreshMeaning(found.value, c.scope.membership, s.attempted);
          AtKeepsOnce(c, s, t, ScanRecheck(found.value, pending));
        }
      case ScanRecheck(unread, pending) =>
        var tried := s.(attempted := s.attempted + IdsOf(pending));
        TryKeepsOnce(c, s, tried);
        AtKeepsOnce(c, tried, t, ScanInterrupt(unread, pending));
        PresentKeepsOnce(c, tried, t, pending, sends);
      case ScanInterrupt(_, pending) =>
        PresentKeepsOnce(c, s, t, pending, sends);
    }
  }

  lemma CommitKeepsOnce(c: Config, s: State, t: nat, answer: Answer, sends: bool)
    requires Fenced(s) && Once(c, s) && t in s.threads && (s.threads[t].at.CommitBinding? || s.threads[t].at.CommitMark?)
    ensures Once(c, ResumeCommit(c, s, t, answer, sends))
  {
    EndKeepsOnce(c, s, t);
    StopKeepsOnce(c, s);
    EndKeepsOnce(c, Stopped(s), t);
    if s.threads[t].generation == s.generation {
      var ids := s.staged - s.acknowledged;
      LogKeepsOnce(c, s, AckWritten(s.life, s.generation, ids));
      AtKeepsOnce(c, s.(log := s.log + [AckWritten(s.life, s.generation, ids)]), t, CommitMark(ids, false));
    }
  }

  lemma LandKeepsOnce(c: Config, s: State, t: nat)
    requires Once(c, s) && t in s.threads
    ensures Once(c, LandAt(c, s, t))
  {
    assert s.threads[t].generation == s.generation ==> PointOnce(c, s.log, s.life, s.generation, s.given, s.attempted, s.threads[t].at);
    match s.threads[t].at
    case StartMark(entries, ids, false) => AtKeepsOnce(c, s, t, StartMark(entries, ids, true));
    case CommitMark(ids, false) => AtKeepsOnce(c, s, t, CommitMark(ids, true));
    case ScanRead(None) => AtKeepsOnce(c, s, t, ScanRead(Some(ReadFor(c.legacy, s.inbox, c.scope.membership, true, false).0)));
    case _ =>
  }

  lemma BeginKeepsOnce(c: Config, s: State, step: Step)
    requires Fenced(s) && Once(c, s) && (step.Start? || step.Commit? || step.Crash?)
    ensures Once(c, Next(c, s, step))
  {
    StopKeepsOnce(c, s);
  }

  lemma NextKeepsOnce(c: Config, s: State, step: Step)
    requires Fenced(s) && Once(c, s)
    ensures Once(c, Next(c, s, step))
  {
    match step
    case Start(_) => BeginKeepsOnce(c, s, step);
    case StopNow => StopKeepsOnce(c, s);
    case ObserveContext(_) => TryKeepsOnce(c, s, Next(c, s, step));
    case HintArrives | Deliver(_) | Persist(_) => TryKeepsOnce(c, s, Next(c, s, step));
    case HintFires => EnterKeepsOnce(c, s.(hintTimer := false));
    case IntervalFires => EnterKeepsOnce(c, s);
    case Commit(_) => BeginKeepsOnce(c, s, step);
    case Crash => BeginKeepsOnce(c, s, step);
    case Land(t) =>
      if t in s.threads {
        LandKeepsOnce(c, s, t);
      }
    case Resume(t, answer, sends) =>
      if t in s.threads {
        if IsStart(s.threads[t].at) {
          StartKeepsOnce(c, s, t, answer, sends);
        } else if IsScan(s.threads[t].at) {
          ScanKeepsOnce(c, s, t, answer, sends);
        } else {
          CommitKeepsOnce(c, s, t, answer, sends);
        }
      }
  }
}
