/**
 When the recipient acknowledges: only after a turn that succeeded, only what was
 in that activation's context, and then all of it
 (observeContext and commitPresentedAfterSuccessfulTurn).
 */
module DeliveryAcks {
  import opened Wrappers
  import opened InboxDelivery
  import opened DirectDelivery
  import R = DeliveryRuns
  import E = SessionEntries

  // ---- no acknowledgement without a successful turn ----

  /** What one step can do to commits under way, to staged ids and to the acknowledgements on the log. */
  ghost predicate StepTraces(c: Config, s: State, step: Step, n: State) {
    && s.log <= n.log
    && (forall t | t in n.threads && n.threads[t].at.CommitBinding? ::
          && n.life == s.life
          && ((t in s.threads && s.threads[t] == n.threads[t])
              || (step == Commit(true) && !s.stopped && n.threads[t].generation == s.generation)))
    && (forall id | id in n.staged ::
          && n.life == s.life && n.generation == s.generation
          && (id in s.staged || (step.ObserveContext? && !s.stopped && id in E.Observed(step.messages, c.scope))))
    && (forall k | |s.log| <= k < |n.log| && n.log[k].AckWritten? :: AckOf(s, n.log[k]))
  }

  /** A commit of the current generation was waiting, and these ids were staged. */
  ghost predicate AckOf(s: State, e: Effect) {
    && e.AckWritten? && e.life == s.life && e.generation == s.generation && e.ids <= s.staged
    && exists t :: t in s.threads && s.threads[t].at.CommitBinding? && s.threads[t].generation == s.generation
  }

  /** No commit begins, nothing is staged, and nothing is acknowledged. */
  ghost predicate Quiet(s: State, n: State) {
    && n.life == s.life && s.log <= n.log
    && (n.staged == {} || (n.generation == s.generation && n.staged <= s.staged))
    && (forall t | t in n.threads && n.threads[t].at.CommitBinding? :: t in s.threads && s.threads[t] == n.threads[t])
    && (forall k | |s.log| <= k < |n.log| :: !n.log[k].AckWritten?)
  }

  lemma QuietThen(a: State, b: State, d: State)
    requires Quiet(a, b) && Quiet(b, d)
    ensures Quiet(a, d)
  {
    assert forall k | |a.log| <= k < |d.log| :: k < |b.log| ==> d.log[k] == b.log[k];
  }

  lemma QuietTraces(c: Config, s: State, step: Step, n: State)
    requires Quiet(s, n)
    ensures StepTraces(c, s, step, n)
  {
  }

  lemma PiecesAreQuiet(s: State, t: nat)
    requires t in s.threads
    ensures Quiet(s, s) && Quiet(s, Stopped(s)) && Quiet(s, End(s, t)) && Quiet(s, EndScan(s, t))
  {
  }

  lemma StopIsQuiet(s: State)
    ensures Quiet(s, Stopped(s))
  {
  }

  lemma EnterIsQuiet(s: State)
    ensures Quiet(s, EnterScan(s))
  {
  }

  lemma AtIsQuiet(s: State, t: nat, p: Point)
    requires t in s.threads && !p.CommitBinding?
    ensures Quiet(s, At(s, t, p))
  {
  }

  lemma AfterIsQuiet(s: State, t: nat)
    requires t in s.threads
    ensures Quiet(s, AfterOnce(s, t))
  {
    PiecesAreQuiet(s, t);
    AtIsQuiet(s, t, ScanBinding);
  }

  /** What only tries, sends or opens is quiet. */
  lemma OthersAreQuiet(s: State, n: State)
    requires n.threads == s.threads && n.staged == s.staged && n.life == s.life && n.generation == s.generation
    requires s.log <= n.log && forall k | |s.log| <= k < |n.log| :: !n.log[k].AckWritten?
    ensures Quiet(s, n)
  {
  }

  lemma OpenIsQuiet(c: Config, s: State, t: nat, entries: seq<E.Entry>, sends: bool)
    requires t in s.threads
    ensures Quiet(s, Open(c, s, t, entries, sends))
  {
    hide Quiet, EnterScan, E.Pending;
    var ended, shown := End(s, t), E.Pending(entries, c.scope);
    var open := ended.(attempted := s.attempted + shown, watching := true);
    var sent := open.(log := open.log + [Resumed(s.life, s.threads[t].generation, shown)]);
    PiecesAreQuiet(s, t);
    OthersAreQuiet(ended, open);
    OthersAreQuiet(ended, sent);
    QuietThen(s, ended, open);
    QuietThen(s, ended, sent);
    EnterIsQuiet(open);
    EnterIsQuiet(sent);
    QuietThen(s, open, EnterScan(open));
    QuietThen(s, sent, EnterScan(sent));
  }

  lemma StartIsQuiet(c: Config, s: State, t: nat, answer: Answer, sends: bool)
    requires t in s.threads && IsStart(s.threads[t].at)
    ensures Quiet(s, ResumeStart(c, s, t, answer, sends))
  {
    hide Quiet, Open, E.Acked;
    PiecesAreQuiet(s, t);
    PiecesAreQuiet(Stopped(s), t);
    QuietThen(s, Stopped(s), End(Stopped(s), t));
    var entries := s.threads[t].at.entries;
    var acked := E.Acked(entries, c.scope);
    var known := s.(acknowledged := s.acknowledged + acked, attempted := s.attempted + acked);
    OthersAreQuiet(s, known);
    OpenIsQuiet(c, s, t, entries, sends);
    OpenIsQuiet(c, known, t, entries, sends);
    QuietThen(s, known, Open(c, known, t, entries, sends));
    AtIsQuiet(known, t, StartMark(entries, acked, false));
    QuietThen(s, known, At(known, t, StartMark(entries, acked, false)));
  }

  lemma PresentIsQuiet(s: State, t: nat, attempted: set<string>, pending: seq<Message>, sends: bool)
    requires t in s.threads
    ensures Quiet(s, Present(s.(attempted := attempted), t, pending, sends))
  {
    hide Quiet, AfterOnce, EndScan, IdsOf;
    var sent := s.(attempted := attempted, log := s.log + [Presented(s.life, s.threads[t].generation, pending)]);
    var dropped := s.(attempted := attempted - IdsOf(pending));
    OthersAreQuiet(s, sent);
    OthersAreQuiet(s, dropped);
    AfterIsQuiet(sent, t);
    PiecesAreQuiet(dropped, t);
    QuietThen(s, sent, AfterOnce(sent, t));
    QuietThen(s, dropped, EndScan(dropped, t));
  }

  lemma ScanIsQuiet(c: Config, s: State, t: nat, answer: Answer, sends: bool)
    requires t in s.threads && IsScan(s.threads[t].at)
    ensures Quiet(s, ResumeScan(c, s, t, answer, sends))
  {
    hide Quiet, AfterOnce, EndScan, Present, Fresh, Interrupts, IdsOf;
    PiecesAreQuiet(s, t);
    AfterIsQuiet(s, t);
    AfterIsQuiet(Stopped(s), t);
    QuietThen(s, Stopped(s), AfterOnce(Stopped(s), t));
    match s.threads[t].at
    case ScanBinding => AtIsQuiet(s, t, ScanRead(None));
    case ScanRead(found) =>
      if found.Some? {
        AtIsQuiet(s, t, ScanRecheck(found.value, Fresh(found.value, c.scope.membership, s.attempted)));
      }
    case ScanRecheck(unread, pending) =>
      var tried := s.(attempted := s.attempted + IdsOf(pending));
      OthersAreQuiet(s, tried);
      AtIsQuiet(tried, t, ScanInterrupt(unread, pending));
      QuietThen(s, tried, At(tried, t, ScanInterrupt(unread, pending)));
      PresentIsQuiet(s, t, tried.attempted, pending, sends);
    case ScanInterrupt(_, pending) => PresentIsQuiet(s, t, s.attempted, pending, sends);
  }

  lemma LandMoves(c: Config, s: State, t: nat)
    requires t in s.threads
    ensures var n := LandAt(c, s, t);
            && (n.threads == s.threads
                || (t in n.threads && !n.threads[t].at.CommitBinding? && n.threads == At(s, t, n.threads[t].at).threads))
            && n.staged == s.staged && n.life == s.life && n.generation == s.generation && n.log == s.log
  {
    hide MarkFor, ReadFor, Identify, Select;
    match s.threads[t].at
    case StartMark(_, _, false) =>
    case CommitMark(_, false) =>
    case ScanRead(None) =>
    case _ => assert LandAt(c, s, t) == s;
  }

  lemma LandIsQuiet(c: Config, s: State, t: nat)
    requires t in s.threads
    ensures Quiet(s, LandAt(c, s, t))
  {
    hide Quiet, LandAt;
    LandMoves(c, s, t);
    var n := LandAt(c, s, t);
    if n.threads == s.threads {
      OthersAreQuiet(s, n);
    } else {
      AtIsQuiet(s, t, n.threads[t].at);
      OthersAreQuiet(At(s, t, n.threads[t].at), n);
      QuietThen(s, At(s, t, n.threads[t].at), n);
    }
  }

  lemma CommitTraces(c: Config, s: State, t: nat, answer: Answer, sends: bool)
    requires t in s.threads && (s.threads[t].at.CommitBinding? || s.threads[t].at.CommitMark?)
    ensures StepTraces(c, s, Resume(t, answer, sends), ResumeCommit(c, s, t, answer, sends))
  {
    var n := ResumeCommit(c, s, t, answer, sends);
    if n.log == s.log {
      assert Quiet(s, n);
    } else {
      assert IsCurrent(s, s.threads[t].generation) && n.log == s.log + [AckWritten(s.life, s.generation, s.staged - s.acknowledged)];
      assert AckOf(s, n.log[|s.log|]);
    }
  }

  lemma NextTraces(c: Config, s: State, step: Step)
    ensures StepTraces(c, s, step, Next(c, s, step))
  {
    hide StepTraces, Quiet;
    if step.Start? || step.Crash? || step.Commit? || step.ObserveContext? {
      BeginTraces(c, s, step);
    } else if step.Resume? && step.t in s.threads && !IsStart(s.threads[step.t].at) && !IsScan(s.threads[step.t].at) {
      CommitTraces(c, s, step.t, step.answer, step.sends);
    } else {
      MostAreQuiet(c, s, step);
      QuietTraces(c, s, step, Next(c, s, step));
    }
  }

  lemma MostAreQuiet(c: Config, s: State, step: Step)
    requires !(step.Start? || step.Crash? || step.Commit? || step.ObserveContext?)
    requires step.Resume? && step.t in s.threads ==> IsStart(s.threads[step.t].at) || IsScan(s.threads[step.t].at)
    ensures Quiet(s, Next(c, s, step))
  {
    hide Quiet, EnterScan, Stopped, ResumeStart, ResumeScan, ResumeCommit, LandAt, E.Observed, IdIsNew;
    OthersAreQuiet(s, s);
    match step
    case HintArrives | Deliver(_) | Persist(_) => OthersAreQuiet(s, Next(c, s, step));
    case StopNow => StopIsQuiet(s);
    case HintFires =>
      var fired := s.(hintTimer := false);
      OthersAreQuiet(s, fired);
      EnterIsQuiet(fired);
      QuietThen(s, fired, EnterScan(fired));
    case IntervalFires => EnterIsQuiet(s);
    case Land(t) =>
      if t in s.threads {
        LandIsQuiet(c, s, t);
      }
    case Resume(t, answer, sends) =>
      if t in s.threads {
        if IsStart(s.threads[t].at) {
          StartIsQuiet(c, s, t, answer, sends);
        } else {
          ScanIsQuiet(c, s, t, answer, sends);
        }
      }
  }

  lemma BeginTraces(c: Config, s: State, step: Step)
    requires step.Start? || step.Crash? || step.Commit? || step.ObserveContext?
    ensures StepTraces(c, s, step, Next(c, s, step))
  {
    hide E.Observed;
  }

  function StateAt(c: Config, from: State, steps: seq<Step>, j: nat): State
    requires j <= |steps|
  {
    R.Run(c, from, steps[..j])
  }

  predicate In(s: State, life: nat, generation: nat, bound: nat) {
    !s.stopped && s.life == life && s.generation == generation && |s.log| <= bound
  }

  /** In this activation, before the `bound`-th effect, a turn ended successfully. */
  ghost predicate Succeeded(c: Config, from: State, steps: seq<Step>, n: nat, life: nat, generation: nat, bound: nat)
    requires n <= |steps|
  {
    exists j :: 0 <= j < n && steps[j] == Commit(true) && In(StateAt(c, from, steps, j), life, generation, bound)
  }

  /** In this activation, before the `bound`-th effect, the id was observed in a context. */
  ghost predicate Noticed(c: Config, from: State, steps: seq<Step>, n: nat, life: nat, generation: nat, bound: nat, id: string)
    requires n <= |steps|
  {
    exists j :: 0 <= j < n && steps[j].ObserveContext? && id in E.Observed(steps[j].messages, c.scope)
                && In(StateAt(c, from, steps, j), life, generation, bound)
  }

  /** Whatever is under way, staged or acknowledged has its reason among the first n steps. */
  ghost predicate Traced(c: Config, from: State, steps: seq<Step>, n: nat)
    requires n <= |steps|
  {
    var s := StateAt(c, from, steps, n);
    && (forall t | t in s.threads && s.threads[t].at.CommitBinding? ::
          Succeeded(c, from, steps, n, s.life, s.threads[t].generation, |s.log|))
    && (forall id | id in s.staged :: Noticed(c, from, steps, n, s.life, s.generation, |s.log|, id))
    && (forall k | 0 <= k < |s.log| && s.log[k].AckWritten? :: AckTraced(c, from, steps, n, s.log[k], k))
  }

  ghost predicate AckTraced(c: Config, from: State, steps: seq<Step>, n: nat, e: Effect, k: nat)
    requires n <= |steps| && e.AckWritten?
  {
    && Succeeded(c, from, steps, n, e.life, e.generation, k)
    && forall id | id in e.ids :: Noticed(c, from, steps, n, e.life, e.generation, k, id)
  }

  lemma StateStep(c: Config, from: State, steps: seq<Step>, n: nat)
    requires n < |steps|
    ensures StateAt(c, from, steps, n + 1) == Next(c, StateAt(c, from, steps, n), steps[n])
  {
    hide Next;
    assert steps[..n + 1] == steps[..n] + [steps[n]];
    R.RunConcat(c, from, steps[..n], [steps[n]]);
    assert [steps[n]][1..] == [];
  }

  lemma LaterSucceeded(c: Config, from: State, steps: seq<Step>, n: nat, more: nat, life: nat, generation: nat, bound: nat, later: nat)
    requires n <= more <= |steps| && bound <= later && Succeeded(c, from, steps, n, life, generation, bound)
    ensures Succeeded(c, from, steps, more, life, generation, later)
  {
    hide StateAt;
  }

  lemma LaterNoticed(c: Config, from: State, steps: seq<Step>, n: nat, more: nat, life: nat, generation: nat, bound: nat, later: nat, id: string)
    requires n <= more <= |steps| && bound <= later && Noticed(c, from, steps, n, life, generation, bound, id)
    ensures Noticed(c, from, steps, more, life, generation, later, id)
  {
    hide StateAt;
  }

  lemma {:induction false} TracedStep(c: Config, from: State, steps: seq<Step>, n: nat)
    requires n < |steps| && Traced(c, from, steps, n)
    ensures Traced(c, from, steps, n + 1)
  {
    hide Next, StateAt, Succeeded, Noticed, AckTraced, E.Observed;
    var s, after := StateAt(c, from, steps, n), StateAt(c, from, steps, n + 1);
    StateStep(c, from, steps, n);
    NextTraces(c, s, steps[n]);
    forall t | t in after.threads && after.threads[t].at.CommitBinding?
      ensures Succeeded(c, from, steps, n + 1, after.life, after.threads[t].generation, |after.log|)
    {
      if t in s.threads && s.threads[t] == after.threads[t] {
        LaterSucceeded(c, from, steps, n, n + 1, s.life, s.threads[t].generation, |s.log|, |after.log|);
      } else {
        SucceededNow(c, from, steps, n, |after.log|);
      }
    }
    forall id | id in after.staged ensures Noticed(c, from, steps, n + 1, after.life, after.generation, |after.log|, id) {
      if id in s.staged {
        LaterNoticed(c, from, steps, n, n + 1, s.life, s.generation, |s.log|, |after.log|, id);
      } else {
        NoticedNow(c, from, steps, n, |after.log|, id);
      }
    }
    forall k | 0 <= k < |after.log| && after.log[k].AckWritten? ensures AckTraced(c, from, steps, n + 1, after.log[k], k) {
      if k < |s.log| {
        assert after.log[k] == s.log[k];
        AckStaysTraced(c, from, steps, n, s.log[k], k);
      } else {
        AckIsTraced(c, from, steps, n, after.log[k], k);
      }
    }
  }

  lemma SucceededNow(c: Config, from: State, steps: seq<Step>, n: nat, bound: nat)
    requires n < |steps| && steps[n] == Commit(true)
    requires var s := StateAt(c, from, steps, n); !s.stopped && |s.log| <= bound
    ensures var s := StateAt(c, from, steps, n); Succeeded(c, from, steps, n + 1, s.life, s.generation, bound)
  {
    hide StateAt;
  }

  lemma NoticedNow(c: Config, from: State, steps: seq<Step>, n: nat, bound: nat, id: string)
    requires n < |steps| && steps[n].ObserveContext? && id in E.Observed(steps[n].messages, c.scope)
    requires var s := StateAt(c, from, steps, n); !s.stopped && |s.log| <= bound
    ensures var s := StateAt(c, from, steps, n); Noticed(c, from, steps, n + 1, s.life, s.generation, bound, id)
  {
    hide StateAt, E.Observed;
  }

  lemma AckStaysTraced(c: Config, from: State, steps: seq<Step>, n: nat, e: Effect, k: nat)
    requires n < |steps| && e.AckWritten? && AckTraced(c, from, steps, n, e, k)
    ensures AckTraced(c, from, steps, n + 1, e, k)
  {
    hide Succeeded, Noticed;
    LaterSucceeded(c, from, steps, n, n + 1, e.life, e.generation, k, k);
    forall id | id in e.ids ensures Noticed(c, from, steps, n + 1, e.life, e.generation, k, id) {
      LaterNoticed(c, from, steps, n, n + 1, e.life, e.generation, k, k, id);
    }
  }

  lemma AckIsTraced(c: Config, from: State, steps: seq<Step>, n: nat, e: Effect, k: nat)
    requires n < |steps| && Traced(c, from, steps, n)
    requires var s := StateAt(c, from, steps, n); |s.log| <= k && AckOf(s, e)
    ensures AckTraced(c, from, steps, n + 1, e, k)
  {
    hide StateAt, Succeeded, Noticed;
    var s := StateAt(c, from, steps, n);
    LaterSucceeded(c, from, steps, n, n + 1, e.life, e.generation, |s.log|, k);
    forall id | id in e.ids ensures Noticed(c, from, steps, n + 1, e.life, e.generation, k, id) {
      LaterNoticed(c, from, steps, n, n + 1, e.life, e.generation, |s.log|, k, id);
    }
  }

  lemma {:induction false} RunTraced(c: Config, inbox: Option<seq<Message>>, session: seq<E.Entry>, steps: seq<Step>, n: nat)
    requires n <= |steps|
    ensures Traced(c, Init(inbox, session), steps, n)
  {
    hide Next, Succeeded, Noticed, AckTraced;
    if n == 0 {
      assert steps[..0] == [];
    } else {
      RunTraced(c, inbox, session, steps, n - 1);
      TracedStep(c, Init(inbox, session), steps, n - 1);
    }
  }

  /**
   In every run: an acknowledgement is preceded, in its own activation, by a turn
   that ended successfully, and by a context that showed each of its ids.
   */
  lemma {:induction false} AckFollowsSuccess(c: Config, inbox: Option<seq<Message>>, session: seq<E.Entry>, steps: seq<Step>, k: nat)
    requires var log := R.Run(c, Init(inbox, session), steps).log; k < |log| && log[k].AckWritten?
    ensures var from, e := Init(inbox, session), R.Run(c, Init(inbox, session), steps).log[k];
            && Succeeded(c, from, steps, |steps|, e.life, e.generation, k)
            && forall id | id in e.ids :: Noticed(c, from, steps, |steps|, e.life, e.generation, k, id)
  {
    hide R.Run, Next, Succeeded, Noticed;
    RunTraced(c, inbox, session, steps, |steps|);
    assert steps[..|steps|] == steps;
  }

  // ---- a turn that nothing disturbs ----

  /** In every run only calls of the current generation may act, so that what follows holds of every state reached. */
  lemma {:induction false} RunIsFenced(c: Config, s: State, steps: seq<Step>)
    requires Fenced(s)
    ensures Fenced(R.Run(c, s, steps))
    decreases |steps|
  {
    hide Fenced, Next;
    if steps != [] {
      NextKeepsFence(c, s, steps[0]);
      RunIsFenced(c, Next(c, s, steps[0]), steps[1..]);
    }
  }

  /** A context is observed, the turn ends, and what that starts runs to its end. */
  function TurnSteps(t: nat, messages: seq<E.ContextMessage>, succeeded: bool): seq<Step> {
    [ObserveContext(messages), Commit(succeeded), Resume(t, Yes, true), Land(t), Resume(t, Yes, true)]
  }

  /** The ids that wait for an acknowledgement once the context has been observed. */
  function Unacknowledged(c: Config, s: State, messages: seq<E.ContextMessage>): set<string> {
    s.staged + E.Observed(messages, c.scope) - s.acknowledged
  }

  /** The record after these ids of the Membership were acknowledged. */
  predicate ReadBy(c: Config, before: Message, after: Message, i: nat, ids: set<string>) {
    && Grown(c.legacy, before, after, i)
    && (after.read <==> before.read || (IsFor(before, c.scope.membership) && Identified(c.legacy, before, i).id in ids))
  }

  /**
   After a successful turn exactly the ids observed and not acknowledged before are
   added to those the Session acknowledges, exactly their records of this Membership
   turn read, and none of them stays staged. After any other turn nothing of this
   happens.
   */
  lemma {:induction false} TurnAcknowledges(c: Config, s: State, messages: seq<E.ContextMessage>, succeeded: bool)
    requires Fenced(s) && !s.stopped
    ensures Fenced(R.Run(c, s, TurnSteps(s.nextThread, messages, succeeded)))
    ensures var ids := if succeeded then Unacknowledged(c, s, messages) else {};
            var after := R.Run(c, s, TurnSteps(s.nextThread, messages, succeeded));
            && E.Acked(after.session, c.scope) == E.Acked(s.session, c.scope) + ids
            && after.acknowledged == s.acknowledged + ids
            && after.log == s.log + (if ids == {} then [] else [AckWritten(s.life, s.generation, ids)])
            && (after.inbox.Some? <==> s.inbox.Some?)
            && (s.inbox.Some? ==>
                  && |after.inbox.value| == |s.inbox.value|
                  && forall i | 0 <= i < |s.inbox.value| :: ReadBy(c, s.inbox.value[i], after.inbox.value[i], i, ids))
            && (succeeded ==> ids !! after.staged)
            && (!succeeded ==> after.staged == s.staged + (E.Observed(messages, c.scope) - s.acknowledged))
  {
    var t := s.nextThread;
    var ids := Unacknowledged(c, s, messages);
    assert t !in s.threads;
    var seen := Next(c, s, ObserveContext(messages));
    var begun := Next(c, seen, Commit(succeeded));
    assert seen.staged - seen.acknowledged == ids;
    hide E.Acked, E.Observed;
    RunIsFenced(c, s, TurnSteps(t, messages, succeeded));
    RunTurn(c, s, t, messages, succeeded, begun);
    if succeeded && ids != {} {
      Acknowledges(c, begun, t, ids);
    } else {
      AcknowledgesNothing(c, begun, t);
    }
  }

  lemma AcknowledgesNothing(c: Config, s: State, t: nat)
    requires t in s.threads ==> s.threads[t] == Thread(s.generation, CommitBinding) && s.staged - s.acknowledged == {} && !s.stopped
    ensures var r := Resume(t, Yes, true);
            var after := Next(c, Next(c, Next(c, s, r), Land(t)), r);
            && after.session == s.session && after.acknowledged == s.acknowledged && after.staged == s.staged
            && after.log == s.log && after.inbox == s.inbox
    ensures s.inbox.Some? ==> forall i | 0 <= i < |s.inbox.value| :: ReadBy(c, s.inbox.value[i], s.inbox.value[i], i, {})
  {
    hide MarkFor, ReadFor;
    if t in s.threads {
      assert s.staged - s.acknowledged == {};
      assert Next(c, s, Resume(t, Yes, true)) == End(s, t);
    }
  }

  lemma {:induction false} RunTurn(c: Config, s: State, t: nat, messages: seq<E.ContextMessage>, succeeded: bool, begun: State)
    requires begun == Next(c, Next(c, s, ObserveContext(messages)), Commit(succeeded))
    ensures var r := Resume(t, Yes, true);
            R.Run(c, s, TurnSteps(t, messages, succeeded)) == Next(c, Next(c, Next(c, begun, r), Land(t)), r)
  {
    hide Next;
    var r, l := Resume(t, Yes, true), Land(t);
    R.RunTwo(c, s, ObserveContext(messages), Commit(succeeded), [r, l, r]);
    R.RunTwo(c, begun, r, l, [r]);
    assert TurnSteps(t, messages, succeeded) == [ObserveContext(messages), Commit(succeeded)] + [r, l, r];
    assert [r, l, r] == [r, l] + [r] && [r][1..] == [];
  }

  lemma {:induction false} Acknowledges(c: Config, s: State, t: nat, ids: set<string>)
    requires t in s.threads && s.threads[t] == Thread(s.generation, CommitBinding) && !s.stopped
    requires ids == s.staged - s.acknowledged && ids != {}
    ensures var r := Resume(t, Yes, true);
            var after := Next(c, Next(c, Next(c, s, r), Land(t)), r);
            && E.Acked(after.session, c.scope) == E.Acked(s.session, c.scope) + ids
            && after.acknowledged == s.acknowledged + ids && after.staged == s.staged - ids
            && after.log == s.log + [AckWritten(s.life, s.generation, ids)]
            && (after.inbox.Some? <==> s.inbox.Some?)
            && (s.inbox.Some? ==>
                  && |after.inbox.value| == |s.inbox.value|
                  && forall i | 0 <= i < |s.inbox.value| :: ReadBy(c, s.inbox.value[i], after.inbox.value[i], i, ids))
  {
    hide E.Acked, MarkFor, ReadFor, Evolves, Fresh, Identify;
    var r := Resume(t, Yes, true);
    var e := E.Custom(E.AckType, Some(E.Details(c.scope, ids)));
    E.AckedGrows(s.session, [e], c.scope);
    var written := Next(c, s, r);
    assert written.threads[t] == Thread(s.generation, CommitMark(ids, false)) && written.session == s.session + [e];
    var landed := Next(c, written, Land(t));
    assert landed.inbox == MarkFor(c.legacy, s.inbox, c.scope.membership, ids).1;
    MarkReads(c, s.inbox, ids);
  }

  lemma {:induction false} MarkReads(c: Config, inbox: Option<seq<Message>>, ids: set<string>)
    ensures var after := MarkFor(c.legacy, inbox, c.scope.membership, ids).1;
            && (after.Some? <==> inbox.Some?)
            && (inbox.Some? ==>
                  && |after.value| == |inbox.value|
                  && forall i | 0 <= i < |inbox.value| :: ReadBy(c, inbox.value[i], after.value[i], i, ids))
  {
    StepEvolves(c.legacy, inbox, Mark(c.scope.membership, ids));
  }
}
