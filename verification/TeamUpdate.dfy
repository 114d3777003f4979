/**
 The idle publisher of Team updates: one execution at a time, fenced by a
 generation, a branch and a Team binding across its awaits (extensions/team-update.ts).
 */
module TeamUpdate {
  import opened Wrappers

  datatype Context = Context(sessionId: string, sessionFile: string, branch: seq<string>)

  datatype Key = Key(team: string, context: Context)

  datatype Binding = Binding(epochId: string, membershipId: string)

  datatype Stamp = Stamp(team: string, epoch: string, binding: string, from: int, through: int)

  datatype Pending = Pending(call: string, stamp: Option<Stamp>)

  datatype Source = Command | Automatic

  datatype Result = Quiet | Page | Unavailable

  datatype Exit = Published | QuietExit | Skipped | Failed

  /** Where an execution waits: for the first binding, for the observation, for the second binding. */
  datatype Stage =
    | AwaitBinding
    | AwaitResult(binding: Binding)
    | AwaitSecondBinding(binding: Binding, result: Result)

  datatype Frame = Frame(team: string, source: Source, start: Context, generation: nat, stage: Stage)

  datatype Entry =
    | Started(call: string, source: Source, context: Context)
    | Invalidated
    | Sent(call: string, context: Context, first: Binding, second: Binding, stamp: Stamp)
    | Cleared(session: string, call: string)
    | Exited(call: string, exit: Exit)

  datatype Controller = Controller(
    running: bool,
    generation: nat,
    failedBranch: Option<Key>,
    active: Option<(string, string)>,   // session and call
    frames: map<string, Frame>,         // executions suspended at an await, by call id
    log: seq<Entry>)

  /** What the surroundings show when an execution resumes. */
  datatype Now = Now(context: Option<Context>, busy: bool)

  /** What an awaited call came back with; None when it threw. */
  datatype Step =
    | Execute(team: string, source: Source, now: Now, call: string)
    | Invalidate
    | BindingRead(call: string, binding: Option<Option<Binding>>, now: Now)
    | Observed(call: string, result: Option<Result>)
    | SecondBindingRead(call: string, second: Option<Option<Binding>>, now: Now, pending: Option<Pending>, sendThrows: bool)

  predicate IsCurrent(c: Controller, f: Frame, now: Now) {
    f.generation == c.generation && now.context == Some(f.start) && !now.busy
  }

  /** The finally block, and the catch block before it. */
  function Leave(c: Controller, call: string, f: Frame, exit: Exit): Controller {
    c.(running := false,
       failedBranch := if exit == Failed && f.source == Automatic then Some(Key(f.team, f.start)) else c.failedBranch,
       frames := c.frames - {call},
       log := c.log + (if exit == Published then [] else [Cleared(f.start.sessionId, call)]) + [Exited(call, exit)])
  }

  function AtStage(c: Controller, call: string, stage: Stage): Controller
    requires call in c.frames
  {
    c.(frames := c.frames[call := c.frames[call].(stage := stage)])
  }

  predicate StampFits(pending: Option<Pending>, call: string, f: Frame, binding: Binding) {
    && pending.Some? && pending.value.call == call && pending.value.stamp.Some?
    && var stamp := pending.value.stamp.value;
       stamp.team == f.team && stamp.epoch == binding.epochId && stamp.binding == binding.membershipId
  }

  function Next(c: Controller, s: Step): Controller {
    match s
    case Execute(team, source, now, call) =>
      if now.context.None? || c.running || now.busy then c
      else
        var key := Key(team, now.context.value);
        var seen := c.(failedBranch := if c.failedBranch == Some(key) then c.failedBranch else None);
        if source == Automatic && seen.failedBranch == Some(key) then seen
        else seen.(running := true, active := Some((key.context.sessionId, call)),
                   frames := c.frames[call := Frame(team, source, key.context, c.generation, AwaitBinding)],
                   log := c.log + [Started(call, source, key.context)])
    case Invalidate =>
      c.(generation := c.generation + 1, active := None,
         log := c.log + [Invalidated] + if c.active.Some? then [Cleared(c.active.value.0, c.active.value.1)] else [])
    case BindingRead(call, binding, now) =>
      if call !in c.frames || !c.frames[call].stage.AwaitBinding? then c
      else
        var f := c.frames[call];
        if binding.None? then Leave(c, call, f, Failed)
        else if binding.value.None? || !IsCurrent(c, f, now) then Leave(c, call, f, Skipped)
        else AtStage(c, call, AwaitResult(binding.value.value))
    case Observed(call, result) =>
      if call !in c.frames || !c.frames[call].stage.AwaitResult? then c
      else
        var f := c.frames[call];
        if result.None? then Leave(c, call, f, Failed)
        else AtStage(c, call, AwaitSecondBinding(f.stage.binding, result.value))
    case SecondBindingRead(call, second, now, pending, sendThrows) =>
      if call !in c.frames || !c.frames[call].stage.AwaitSecondBinding? then c
      else
        var f := c.frames[call];
        var binding := f.stage.binding;
        if second.None? then Leave(c, call, f, Failed)
        else if !IsCurrent(c, f, now) || second.value != Some(binding) then Leave(c, call, f, Skipped)
        else match f.stage.result
          case Quiet => Leave(c, call, f, QuietExit)
          case Unavailable => Leave(c, call, f, Failed)
          case Page =>
            if !StampFits(pending, call, f, binding) then Leave(c, call, f, Skipped)
            else if sendThrows then Leave(c, call, f, Failed)
            else
              var sent := Sent(call, now.context.value, binding, second.value.value, pending.value.stamp.value);
              Leave(c.(log := c.log + [sent]), call, f, Published)
  }

  // ---- what the log shows ----

  /** The n-th entry may stand where it stands. */
  ghost predicate EntryOk(log: seq<Entry>, n: nat)
    requires n < |log|
  {
    match log[n]
    case Sent(call, context, first, second, stamp) =>
      // the Session and the branch are those of the start, and nothing was invalidated since
      && first == second && stamp.epoch == first.epochId && stamp.binding == first.membershipId
      && exists k :: 0 <= k < n && StartsAt(log, k, call, context) && Undisturbed(log, k, n)
    case Exited(call, exit) =>
      0 < n && if exit == Published then log[n - 1].Sent? && log[n - 1].call == call
               else log[n - 1].Cleared? && log[n - 1].call == call
    case Cleared(session, call) =>
      // what is released was reserved by the execution that started last
      Reserved(log, n, session, call)
    case _ => true
  }

  ghost predicate Reserved(log: seq<Entry>, to: nat, session: string, call: string)
    requires to <= |log|
  {
    exists k :: 0 <= k < to && LastStart(log, k, to, session, call)
  }

  predicate LastStart(log: seq<Entry>, k: nat, to: nat, session: string, call: string)
    requires k < to <= |log|
  {
    && log[k].Started? && log[k].call == call && log[k].context.sessionId == session
    && forall i | k < i < to :: !log[i].Started?
  }

  predicate StartsAt(log: seq<Entry>, k: nat, call: string, context: Context)
    requires k < |log|
  {
    log[k].Started? && log[k].call == call && log[k].context == context
  }

  predicate Undisturbed(log: seq<Entry>, from: nat, to: nat)
    requires to <= |log|
  {
    forall i | from <= i < to :: log[i] != Invalidated
  }

  ghost predicate LogOk(log: seq<Entry>) {
    forall n | 0 <= n < |log| :: EntryOk(log, n)
  }

  /** A suspended execution of this generation has its start on the log with nothing invalidated after it. */
  ghost predicate FrameOk(c: Controller, call: string)
    requires call in c.frames
  {
    var f := c.frames[call];
    && f.generation <= c.generation && Reserved(c.log, |c.log|, f.start.sessionId, call)
    && (f.generation == c.generation ==>
          exists k :: 0 <= k < |c.log| && StartsAt(c.log, k, call, f.start) && Undisturbed(c.log, k, |c.log|))
  }

  ghost predicate Inv(c: Controller) {
    && LogOk(c.log)
    // at most one execution is in progress
    && (forall a, b | a in c.frames && b in c.frames :: a == b)
    && (c.running <==> c.frames != map[])
    && (forall call | call in c.frames :: FrameOk(c, call))
    && (c.active.Some? ==> Reserved(c.log, |c.log|, c.active.value.0, c.active.value.1))
  }

  const IDLE := Controller(false, 0, None, None, map[], [])

  lemma LogGrows(log: seq<Entry>, more: seq<Entry>)
    requires LogOk(log)
    ensures forall n | 0 <= n < |log| :: EntryOk(log + more, n)
  {
    var all := log + more;
    forall n | 0 <= n < |log| ensures EntryOk(all, n) {
      assert EntryOk(log, n) && all[n] == log[n];
      if log[n].Sent? {
        var k :| 0 <= k < n && StartsAt(log, k, log[n].call, log[n].context) && Undisturbed(log, k, n);
        assert StartsAt(all, k, log[n].call, log[n].context) && Undisturbed(all, k, n);
      }
      if log[n].Cleared? {
        StaysReserved(log, all, n, n, log[n].session, log[n].call);
      }
    }
  }

  /** A reservation stands until another execution starts. */
  lemma StaysReserved(log: seq<Entry>, grown: seq<Entry>, to: nat, later: nat, session: string, call: string)
    requires log <= grown && to <= later <= |grown| && to <= |log| && Reserved(log, to, session, call)
    requires forall i | to <= i < later :: !grown[i].Started?
    ensures Reserved(grown, later, session, call)
  {
    var k :| 0 <= k < to && LastStart(log, k, to, session, call);
    assert LastStart(grown, k, later, session, call);
  }

  lemma LeaveKeepsInv(c: Controller, call: string, f: Frame, exit: Exit)
    requires LogOk(c.log) && call in c.frames && (forall b | b in c.frames :: b == call)
    requires Reserved(c.log, |c.log|, f.start.sessionId, call)
    requires c.active.Some? ==> Reserved(c.log, |c.log|, c.active.value.0, c.active.value.1)
    requires exit == Published ==> c.log != [] && c.log[|c.log| - 1].Sent? && c.log[|c.log| - 1].call == call
    ensures Inv(Leave(c, call, f, exit))
  {
    hide Reserved;
    var n := Leave(c, call, f, exit);
    var more := (if exit == Published then [] else [Cleared(f.start.sessionId, call)]) + [Exited(call, exit)];
    LogGrows(c.log, more);
    assert n.log == c.log + more;
    StaysReserved(c.log, n.log, |c.log|, |c.log|, f.start.sessionId, call);
    if c.active.Some? {
      StaysReserved(c.log, n.log, |c.log|, |n.log|, c.active.value.0, c.active.value.1);
    }
  }

  lemma SendKeepsLog(c: Controller, call: string, now: Now, sent: Entry)
    requires Inv(c) && call in c.frames && IsCurrent(c, c.frames[call], now)
    requires sent.Sent? && sent.call == call && now.context == Some(sent.context) && sent.first == sent.second
    requires sent.stamp.epoch == sent.first.epochId && sent.stamp.binding == sent.first.membershipId
    ensures LogOk(c.log + [sent])
  {
    var all := c.log + [sent];
    LogGrows(c.log, [sent]);
    assert FrameOk(c, call);
    var k :| 0 <= k < |c.log| && StartsAt(c.log, k, call, c.frames[call].start) && Undisturbed(c.log, k, |c.log|);
    assert StartsAt(all, k, call, sent.context) && Undisturbed(all, k, |c.log|);
  }

  lemma FramesSurvive(c: Controller, n: Controller)
    requires Inv(c) && c.log <= n.log && c.generation <= n.generation
    requires c.generation == n.generation ==> Undisturbed(n.log, |c.log|, |n.log|)
    requires forall i | |c.log| <= i < |n.log| :: !n.log[i].Started?
    requires forall call | call in n.frames :: call in c.frames && n.frames[call].generation == c.frames[call].generation
                                               && n.frames[call].start == c.frames[call].start
    ensures forall call | call in n.frames :: FrameOk(n, call)
  {
    forall call | call in n.frames ensures FrameOk(n, call) {
      assert FrameOk(c, call);
      StaysReserved(c.log, n.log, |c.log|, |n.log|, n.frames[call].start.sessionId, call);
      if n.frames[call].generation == n.generation {
        var k :| 0 <= k < |c.log| && StartsAt(c.log, k, call, c.frames[call].start) && Undisturbed(c.log, k, |c.log|);
        assert StartsAt(n.log, k, call, n.frames[call].start) && Undisturbed(n.log, k, |n.log|);
      }
    }
  }

  lemma ExecuteKeepsInv(c: Controller, team: string, source: Source, now: Now, call: string)
    requires Inv(c)
    ensures Inv(Next(c, Execute(team, source, now, call)))
  {
    var n := Next(c, Execute(team, source, now, call));
    if n.running && !c.running {
      LogGrows(c.log, [Started(call, source, now.context.value)]);
      assert StartsAt(n.log, |c.log|, call, now.context.value) && Undisturbed(n.log, |c.log|, |n.log|);
      assert LastStart(n.log, |c.log|, |n.log|, now.context.value.sessionId, call);
      assert FrameOk(n, call);
    } else {
      FramesSurvive(c, n);
    }
  }

  lemma InvalidateKeepsLog(c: Controller)
    requires LogOk(c.log)
    requires c.active.Some? ==> Reserved(c.log, |c.log|, c.active.value.0, c.active.value.1)
    ensures LogOk(Next(c, Invalidate).log)
  {
    hide Reserved;
    var n := |c.log|;
    var more := [Invalidated] + if c.active.Some? then [Cleared(c.active.value.0, c.active.value.1)] else [];
    var all := c.log + more;
    LogGrows(c.log, more);
    assert Next(c, Invalidate).log == all && all[n] == Invalidated;
    if c.active.Some? {
      StaysReserved(c.log, all, n, n + 1, c.active.value.0, c.active.value.1);
      assert all[n + 1] == Cleared(c.active.value.0, c.active.value.1);
    }
  }

  lemma InvalidateKeepsInv(c: Controller)
    requires Inv(c)
    ensures Inv(Next(c, Invalidate))
  {
    hide Reserved, LogOk, EntryOk, Undisturbed, StartsAt;
    var n := Next(c, Invalidate);
    InvalidateKeepsLog(c);
    forall call | call in n.frames ensures FrameOk(n, call) {
      assert FrameOk(c, call);
      StaysReserved(c.log, n.log, |c.log|, |n.log|, n.frames[call].start.sessionId, call);
    }
  }

  lemma SendKeepsReserved(c: Controller, call: string, sent: Entry)
    requires Inv(c) && call in c.frames && sent.Sent?
    ensures var log := c.log + [sent];
            && Reserved(log, |log|, c.frames[call].start.sessionId, call)
            && (c.active.Some? ==> Reserved(log, |log|, c.active.value.0, c.active.value.1))
  {
    hide Reserved;
    assert FrameOk(c, call);
    var log := c.log + [sent];
    StaysReserved(c.log, log, |c.log|, |log|, c.frames[call].start.sessionId, call);
    if c.active.Some? {
      StaysReserved(c.log, log, |c.log|, |log|, c.active.value.0, c.active.value.1);
    }
  }

  lemma ResumeKeepsInv(c: Controller, s: Step)
    requires Inv(c) && (s.BindingRead? || s.Observed? || s.SecondBindingRead?)
    ensures Inv(Next(c, s))
  {
    hide LogOk, Reserved, Undisturbed, StartsAt;
    if s.call in c.frames {
      var f, n := c.frames[s.call], Next(c, s);
      if s.call in n.frames {
        FramesSurvive(c, n);
      } else if s.SecondBindingRead? && |n.log| > |c.log| && n.log[|c.log|].Sent? {
        SendKeepsLog(c, s.call, s.now, n.log[|c.log|]);
        SendKeepsReserved(c, s.call, n.log[|c.log|]);
        LeaveKeepsInv(c.(log := c.log + [n.log[|c.log|]]), s.call, f, Published);
      } else {
        LeaveKeepsInv(c, s.call, f, QuietExit);
        LeaveKeepsInv(c, s.call, f, Skipped);
        LeaveKeepsInv(c, s.call, f, Failed);
      }
    }
  }

  lemma NextKeepsInv(c: Controller, s: Step)
    requires Inv(c)
    ensures Inv(Next(c, s))
  {
    match s
    case Execute(team, source, now, call) => ExecuteKeepsInv(c, team, source, now, call);
    case Invalidate => InvalidateKeepsInv(c);
    case _ => ResumeKeepsInv(c, s);
  }

  function Run(c: Controller, steps: seq<Step>): Controller
    decreases |steps|
  {
    if steps == [] then c else Run(Next(c, steps[0]), steps[1..])
  }

  lemma {:induction false} RunKeepsInv(c: Controller, steps: seq<Step>)
    requires Inv(c)
    ensures Inv(Run(c, steps))
    decreases |steps|
  {
    if steps != [] {
      NextKeepsInv(c, steps[0]);
      RunKeepsInv(Next(c, steps[0]), steps[1..]);
    }
  }

  /**
   Over every interleaving with invalidation: one execution at a time; a message
   goes out only on the Session and branch of its start, with no invalidation in
   between and the same binding at both reads; every other exit releases its
   own reservation first, by the Session and call of its start, and nothing else
   is ever released.
   */
  lemma PublisherIsFenced(steps: seq<Step>)
    ensures var c := Run(IDLE, steps);
            && LogOk(c.log)
            && (forall a, b | a in c.frames && b in c.frames :: a == b)
            && (c.running <==> c.frames != map[])
  {
    RunKeepsInv(IDLE, steps);
  }

  // ---- when an update is sent ----

  /** The surroundings are still, or again, those of this start. */
  predicate Stands(f: Frame, generation: nat, now: Now) {
    f.generation == generation && now == Now(Some(f.start), false)
  }

  /** The page waits under this call, stamped for this Team and this binding. */
  ghost predicate PageWaits(pending: Option<Pending>, call: string, team: string, binding: Binding) {
    exists from, through :: pending == Some(Pending(call, Some(Stamp(team, binding.epochId, binding.membershipId, from, through))))
  }

  /**
   An attempt starts exactly if there is a Session, nothing runs and nothing is busy,
   and it is not an automatic one on the branch that failed last.
   */
  lemma StartIsDecided(c: Controller, team: string, source: Source, now: Now, call: string)
    ensures var n := Next(c, Execute(team, source, now, call));
            && (n.log != c.log <==>
                  now.context.Some? && !now.busy && !c.running
                  && !(source == Automatic && c.failedBranch == Some(Key(team, now.context.value))))
            && (n.log != c.log ==>
                  && n.log == c.log + [Started(call, source, now.context.value)] && n.running
                  && call in n.frames && n.frames[call] == Frame(team, source, now.context.value, c.generation, AwaitBinding)
                  && n.active == Some((now.context.value.sessionId, call)))
            && (n.log == c.log ==> n.running == c.running && n.frames == c.frames && n.active == c.active)
  {
  }

  /**
   How the second binding read ends the execution: it sends exactly if a page that
   fits waits, everything still stands, the binding is the same at both reads and Pi
   takes it; and otherwise each exit has its own reason.
   */
  lemma ExitIsDecided(c: Controller, call: string, second: Option<Option<Binding>>, now: Now, pending: Option<Pending>, sendThrows: bool)
    requires call in c.frames && c.frames[call].stage.AwaitSecondBinding?
    ensures var n, f := Next(c, SecondBindingRead(call, second, now, pending, sendThrows)), c.frames[call];
            var same := second == Some(Some(f.stage.binding)) && Stands(f, c.generation, now);
            var fits := PageWaits(pending, call, f.team, f.stage.binding);
            && n.log != [] && n.log[|n.log| - 1].Exited? && n.log[|n.log| - 1].call == call
            && call !in n.frames && !n.running
            && var exit := n.log[|n.log| - 1].exit;
            && (exit == Published <==> same && f.stage.result == Page && fits && !sendThrows)
            && (exit == Published <==> |n.log| == |c.log| + 2 && n.log[|c.log|].Sent? && n.log[|c.log|].call == call)
            && (exit == QuietExit <==> same && f.stage.result == Quiet)
            && (exit == Failed <==> second.None? || (same && (f.stage.result == Unavailable || (f.stage.result == Page && fits && sendThrows))))
            && (exit == Skipped <==> second.Some? && (!same || (f.stage.result == Page && !fits)))
            && n.failedBranch == (if exit == Failed && f.source == Automatic then Some(Key(f.team, f.start)) else c.failedBranch)
  {
    var f := c.frames[call];
    if StampFits(pending, call, f, f.stage.binding) {
      var stamp := pending.value.stamp.value;
      assert pending == Some(Pending(call, Some(Stamp(f.team, f.stage.binding.epochId, f.stage.binding.membershipId, stamp.from, stamp.through))));
    }
  }

  /** An attempt that nothing disturbs and for which a page waits. */
  function PublishSteps(team: string, source: Source, now: Now, call: string, binding: Binding, pending: Pending): seq<Step> {
    var found := Some(Some(binding));
    [Execute(team, source, now, call), BindingRead(call, found, now), Observed(call, Some(Page)),
     SecondBindingRead(call, found, now, Some(pending), false)]
  }

  /** From any idle state it publishes that page, once, on the branch and binding it found. */
  lemma {:induction false} PageIsPublished(c: Controller, team: string, source: Source, context: Context, call: string, binding: Binding,
                                           from: int, through: int)
    requires Inv(c) && !c.running && (source == Automatic ==> c.failedBranch != Some(Key(team, context)))
    ensures var stamp := Stamp(team, binding.epochId, binding.membershipId, from, through);
            var n := Run(c, PublishSteps(team, source, Now(Some(context), false), call, binding, Pending(call, Some(stamp))));
            && n.log == c.log + [Started(call, source, context), Sent(call, context, binding, binding, stamp), Exited(call, Published)]
            && !n.running && n.frames == map[]
  {
    hide Run;
    var stamp, now, found := Stamp(team, binding.epochId, binding.membershipId, from, through), Now(Some(context), false), Some(Some(binding));
    var steps := PublishSteps(team, source, now, call, binding, Pending(call, Some(stamp)));
    var one := Next(c, steps[0]);
    var two := Next(one, steps[1]);
    var three := Next(two, steps[2]);
    var four := Next(three, steps[3]);
    assert c.frames == map[] && one.frames == map[call := Frame(team, source, context, c.generation, AwaitBinding)];
    assert two.frames == map[call := Frame(team, source, context, c.generation, AwaitResult(binding))];
    assert three.frames == map[call := Frame(team, source, context, c.generation, AwaitSecondBinding(binding, Page))];
    RunFour(c, steps);
  }

  lemma RunFour(c: Controller, steps: seq<Step>)
    requires |steps| == 4
    ensures Run(c, steps) == Next(Next(Next(Next(c, steps[0]), steps[1]), steps[2]), steps[3])
  {
    hide Next;
    var s1, s2, s3 := steps[1..], steps[2..], steps[3..];
    assert s1[1..] == s2 && s2[1..] == s3 && s3[1..] == [] && s1[0] == steps[1] && s2[0] == steps[2] && s3[0] == steps[3];
    assert Run(c, steps) == Run(Next(c, steps[0]), s1);
    assert Run(Next(c, steps[0]), s1) == Run(Next(Next(c, steps[0]), steps[1]), s2);
    assert Run(Next(Next(c, steps[0]), steps[1]), s2) == Run(Next(Next(Next(c, steps[0]), steps[1]), steps[2]), s3);
    assert Run(Next(Next(Next(c, steps[0]), steps[1]), steps[2]), s3) == Run(Next(Next(Next(Next(c, steps[0]), steps[1]), steps[2]), steps[3]), []);
  }

  // ---- after an automatic failure ----

  /** The attempt gets past the first guard, so that it looks at its branch key. */
  predicate SeesKey(c: Controller, s: Step) {
    s.Execute? && s.now.context.Some? && !c.running && !s.now.busy
  }

  /** Every attempt of the run that sees a key sees this one. */
  predicate OnlyKey(c: Controller, steps: seq<Step>, key: Key)
    decreases |steps|
  {
    steps != [] ==>
      && (SeesKey(c, steps[0]) ==> Key(steps[0].team, steps[0].now.context.value) == key)
      && OnlyKey(Next(c, steps[0]), steps[1..], key)
  }

  ghost predicate NoAutomatic(c: Controller) {
    forall call | call in c.frames :: c.frames[call].source == Command
  }

  /** An automatic failure leaves its branch key behind and nothing in progress. */
  lemma AutomaticFailureIsNoted(c: Controller, s: Step, call: string)
    requires Inv(c) && call in c.frames && c.frames[call].source == Automatic
    requires var n := Next(c, s); n.log != c.log && n.log[|n.log| - 1] == Exited(call, Failed)
    ensures var n := Next(c, s);
            n.failedBranch == Some(Key(c.frames[call].team, c.frames[call].start)) && n.frames == map[]
  {
    assert s.BindingRead? || s.Observed? || s.SecondBindingRead?;
  }

  /** From then on no automatic attempt starts until an attempt sees another key, however commands come and go. */
  lemma {:induction false} FailureHoldsBackAutomatic(c: Controller, steps: seq<Step>, key: Key)
    requires c.failedBranch == Some(key) && NoAutomatic(c) && OnlyKey(c, steps, key)
    ensures var n := Run(c, steps);
            && n.failedBranch == Some(key) && NoAutomatic(n) && c.log <= n.log
            && forall i | |c.log| <= i < |n.log| && n.log[i].Started? :: n.log[i].source == Command
    decreases |steps|
  {
    if steps != [] {
      var n := Next(c, steps[0]);
      FailureHoldsBackOne(c, steps[0], key);
      FailureHoldsBackAutomatic(n, steps[1..], key);
    }
  }

  lemma FailureHoldsBackOne(c: Controller, s: Step, key: Key)
    requires c.failedBranch == Some(key) && NoAutomatic(c)
    requires SeesKey(c, s) ==> Key(s.team, s.now.context.value) == key
    ensures var n := Next(c, s);
            && n.failedBranch == Some(key) && NoAutomatic(n) && c.log <= n.log
            && forall i | |c.log| <= i < |n.log| && n.log[i].Started? :: n.log[i].source == Command
  {
    hide StampFits, IsCurrent;
    if s.BindingRead? || s.Observed? || s.SecondBindingRead? {
      ResumeStartsNothing(c, s);
    }
  }

  /** A call that resumes starts no execution, and notes a failure only if it is automatic. */
  lemma ResumeStartsNothing(c: Controller, s: Step)
    requires s.BindingRead? || s.Observed? || s.SecondBindingRead?
    ensures var n := Next(c, s);
            && c.log <= n.log && (forall i | |c.log| <= i < |n.log| :: !n.log[i].Started?)
            && (forall call | call in n.frames :: call in c.frames && n.frames[call].source == c.frames[call].source)
            && (n.failedBranch == c.failedBranch || (s.call in c.frames && c.frames[s.call].source == Automatic))
  {
    hide StampFits, IsCurrent;
  }

  /** An attempt that gets in on another key lifts the hold. */
  lemma OtherKeyLiftsHold(c: Controller, s: Step)
    requires SeesKey(c, s)
    requires c.failedBranch != Some(Key(s.team, s.now.context.value))
    ensures Next(c, s).failedBranch.None? && Next(c, s).running
  {
  }

  // ---- the object ----

  class TeamUpdateController {
    var running: bool
    var generation: nat
    var failedBranch: Option<Key>
    var active: Option<(string, string)>
    var frames: map<string, Frame>
    var log: seq<Entry>

    ghost function View(): Controller
      reads this
    {
      Controller(running, generation, failedBranch, active, frames, log)
    }

    constructor ()
      ensures View() == IDLE
    {
      running, generation, failedBranch, active, frames, log := false, 0, None, None, map[], [];
    }

    method InvalidateAll()
      modifies this
      ensures View() == Next(old(View()), Invalidate)
    {
      generation := generation + 1;
      log := log + [Invalidated];
      if active.Some? {
        log := log + [Cleared(active.value.0, active.value.1)];
        active := None;
      }
    }

    /** execute, up to its first await. */
    method Begin(team: string, source: Source, now: Now, call: string)
      modifies this
      ensures View() == Next(old(View()), Execute(team, source, now, call))
    {
      if now.context.None? || running || now.busy {
        return;
      }
      var start := now.context.value;
      var branchKey := Key(team, start);
      if failedBranch != Some(branchKey) {
        failedBranch := None;
      }
      if source == Automatic && failedBranch == Some(branchKey) {
        return;
      }
      running := true;
      active := Some((start.sessionId, call));
      frames := frames[call := Frame(team, source, start, generation, AwaitBinding)];
      log := log + [Started(call, source, start)];
    }

    method End(call: string, exit: Exit)
      requires call in frames
      modifies this
      ensures View() == Leave(old(View()), call, old(frames)[call], exit)
    {
      var f := frames[call];
      if exit == Failed && f.source == Automatic {
        failedBranch := Some(Key(f.team, f.start));
      }
      if exit != Published {
        log := log + [Cleared(f.start.sessionId, call)];
      }
      log := log + [Exited(call, exit)];
      running := false;
      frames := frames - {call};
    }

    method ResumeBinding(call: string, binding: Option<Option<Binding>>, now: Now)
      requires call in frames && frames[call].stage.AwaitBinding?
      modifies this
      ensures View() == Next(old(View()), BindingRead(call, binding, now))
    {
      var f := frames[call];
      if binding.None? {
        End(call, Failed);
      } else if binding.value.None? || f.generation != generation || now.context != Some(f.start) || now.busy {
        End(call, Skipped);
      } else {
        frames := frames[call := f.(stage := AwaitResult(binding.value.value))];
      }
    }

    method ResumeResult(call: string, result: Option<Result>)
      requires call in frames && frames[call].stage.AwaitResult?
      modifies this
      ensures View() == Next(old(View()), Observed(call, result))
    {
      var f := frames[call];
      if result.None? {
        End(call, Failed);
      } else {
        frames := frames[call := f.(stage := AwaitSecondBinding(f.stage.binding, result.value))];
      }
    }

    method ResumeSecondBinding(call: string, second: Option<Option<Binding>>, now: Now, pending: Option<Pending>, sendThrows: bool)
      requires call in frames && frames[call].stage.AwaitSecondBinding?
      modifies this
      ensures View() == Next(old(View()), SecondBindingRead(call, second, now, pending, sendThrows))
    {
      var f := frames[call];
      var binding := f.stage.binding;
      if second.None? {
        End(call, Failed);
        return;
      }
      if f.generation != generation || now.context != Some(f.start) || now.busy || second.value != Some(binding) {
        End(call, Skipped);
        return;
      }
      if f.stage.result == Quiet {
        End(call, QuietExit);
        return;
      }
      if f.stage.result == Unavailable {
        End(call, Failed);
        return;
      }
      if pending.None? || pending.value.call != call || pending.value.stamp.None? {
        End(call, Skipped);
        return;
      }
      var stamp := pending.value.stamp.value;
      if stamp.team != f.team || stamp.epoch != binding.epochId || stamp.binding != binding.membershipId {
        End(call, Skipped);
        return;
      }
      if sendThrows {
        End(call, Failed);
        return;
      }
      log := log + [Sent(call, f.start, binding, second.value.value, stamp)];
      End(call, Published);
    }
  }
}
