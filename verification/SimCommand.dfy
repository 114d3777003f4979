/**
 One asynchronous command of the simulator: its timeout, the abort of its signal,
 its arrival, effect and completion are queued operations that may run in any
 order, and the first of them to finish decides (runCommand in sim/world.ts).
 */
module SimCommand {
  import opened Wrappers

  datatype Outcome = Aborted | TimedOut | Exited(result: string) | Threw

  datatype Operation = TimeoutOp | AbortOp | ArrivalOp | EffectOp | CompletionOp

  /** How many operations of each kind the scheduler holds for the call. */
  datatype Held = Held(timeouts: nat, aborts: nat, arrivals: nat, effects: nat, completions: nat) {
    function Count(op: Operation): nat {
      match op
      case TimeoutOp => timeouts
      case AbortOp => aborts
      case ArrivalOp => arrivals
      case EffectOp => effects
      case CompletionOp => completions
    }

    function Less(op: Operation): Held {
      if Count(op) == 0 then this
      else match op
        case TimeoutOp => this.(timeouts := timeouts - 1)
        case AbortOp => this.(aborts := aborts - 1)
        case ArrivalOp => this.(arrivals := arrivals - 1)
        case EffectOp => this.(effects := effects - 1)
        case CompletionOp => this.(completions := completions - 1)
    }
  }

  /** What the effect comes to: a result, an exception, or a start that only times out and may have had its effect. */
  datatype Effect = Ends(result: string) | Throws | StartHangs(acted: Option<string>)

  datatype Call = Call(
    settled: bool, effect: Option<string>, listening: bool,  // listening: the abort listener is registered
    queue: Held,
    effects: seq<string>, results: seq<Outcome>,             // the records exec.effect and exec.result
    resolved: seq<Outcome>, dropped: bool)                   // history: resolutions; whether an operation was lost

  datatype Step =
    | SignalAborts                             // the abort event of the signal
    | Runs(op: Operation, effect: Effect)      // the scheduler runs an operation, its actor live
    | Drops(op: Operation)                     // the operation is refused by the fence of generations
    | ActorEnds                                // cancelActor

  /** runCommand, up to the promise it returns. */
  function Begin(aborted: bool, hasSignal: bool): Call {
    if aborted then Call(false, None, false, Held(0, 0, 0, 0, 0), [], [Aborted], [Aborted], false)
    else Call(false, None, hasSignal, Held(1, 0, 1, 0, 0), [], [], [], false)
  }

  /** Whatever settles cancels the timeout and removes the listener. */
  function Settle(c: Call, outcome: Outcome): Call {
    c.(settled := true, queue := c.queue.(timeouts := 0), listening := false, results := c.results + [outcome])
  }

  /** finish */
  function Finish(c: Call, outcome: Outcome): Call {
    if c.settled then c else Settle(c, outcome).(resolved := c.resolved + [outcome])
  }

  function Act(c: Call, effect: Effect): Call {
    match effect
    case Ends(result) =>
      c.(effect := Some(result), effects := c.effects + [result], queue := c.queue.(completions := c.queue.completions + 1))
    case StartHangs(acted) => if acted.Some? then c.(effects := c.effects + [acted.value]) else c
    case Throws => if c.settled then c else Settle(c, Threw)
  }

  function Next(c: Call, s: Step): Call {
    match s
    case SignalAborts => if c.listening then c.(listening := false, queue := c.queue.(aborts := c.queue.aborts + 1)) else c
    case Drops(op) => c.(queue := c.queue.Less(op), dropped := true)
    case ActorEnds => c.(queue := Held(0, 0, 0, 0, 0), dropped := true)
    case Runs(op, effect) =>
      if c.queue.Count(op) == 0 then c
      else
        var left := c.(queue := c.queue.Less(op));
        match op
        case TimeoutOp => Finish(left, TimedOut)
        case AbortOp => Finish(left, Aborted)
        case ArrivalOp => left.(queue := left.queue.(effects := left.queue.effects + 1))
        case EffectOp => Act(left, effect)
        case CompletionOp => Finish(left, Exited(c.effect.GetOr("")))
  }

  function Run(c: Call, steps: seq<Step>): Call
    decreases |steps|
  {
    if steps == [] then c else Run(Next(c, steps[0]), steps[1..])
  }

  // ---- settled once ----

  predicate ResultOk(c: Call) {
    && (c.settled <==> |c.results| == 1) && |c.results| <= 1
    && c.resolved == (if c.results == [Threw] then [] else c.results)
    && (c.settled ==> c.queue.timeouts == 0 && !c.listening)
    && (!c.settled && !c.dropped ==> c.queue.timeouts == 1)
  }

  predicate EffectOk(c: Call) {
    && c.queue.arrivals + c.queue.effects + |c.effects| <= 1
    && (0 < c.queue.completions ==> c.effect.Some?)
    && (c.effect.Some? ==> c.effects == [c.effect.value])
    && (|c.results| == 1 && c.results[0].Exited? ==> c.effects == [c.results[0].result])
    && (c.results == [Threw] ==> c.effects == [] && c.queue.arrivals + c.queue.effects == 0)
  }

  predicate Inv(c: Call) {
    ResultOk(c) && EffectOk(c)
  }

  /** Losing an operation harms nothing but the promise that the timeout is queued. */
  lemma LossKeepsInv(c: Call, op: Operation)
    requires Inv(c)
    ensures Inv(c.(queue := c.queue.Less(op), dropped := true))
    ensures op != TimeoutOp ==> Inv(c.(queue := c.queue.Less(op)))
  {
  }

  lemma FinishKeepsInv(c: Call, outcome: Outcome, dropped: bool)
    requires Inv(c) && outcome != Threw && (outcome.Exited? ==> c.effects == [outcome.result])
    ensures c.settled || c.results == []
    ensures c.settled || Inv(Finish(c, outcome).(dropped := dropped))
    ensures c.results <= Finish(c, outcome).results
  {
    if !c.settled {
      assert c.results == [] && c.resolved == [];
      assert Finish(c, outcome).results == [outcome] && Finish(c, outcome).resolved == [outcome];
      assert [outcome] != [Threw] by { assert [outcome][0] != [Threw][0]; }
    }
  }

  lemma ActKeepsInv(c: Call, effect: Effect)
    requires Inv(c) && c.queue.arrivals + c.queue.effects + |c.effects| == 0 && c.results != [Threw]
    ensures Inv(Act(c, effect)) && c.results <= Act(c, effect).results && c.effects <= Act(c, effect).effects
  {
    assert c.effects == [];
  }

  lemma SignalKeepsInv(c: Call)
    requires Inv(c)
    ensures Inv(Next(c, SignalAborts)) && Inv(Next(c, ActorEnds))
  {
  }

  lemma ArrivalKeepsInv(c: Call)
    requires Inv(c) && 0 < c.queue.arrivals
    ensures var left := c.queue.Less(ArrivalOp); Inv(c.(queue := left.(effects := left.effects + 1)))
  {
  }

  /** What stands queued has not happened yet, and a completion has its effect behind it. */
  lemma QueuedMeaning(c: Call)
    requires Inv(c)
    ensures 0 < c.queue.effects ==> c.queue.arrivals == 0 && c.queue.effects == 1 && |c.effects| == 0 && c.results != [Threw]
    ensures 0 < c.queue.completions ==> c.effects == [c.effect.GetOr("")]
  {
  }

  lemma NextKeepsInv(c: Call, s: Step)
    requires Inv(c)
    ensures Inv(Next(c, s)) && c.results <= Next(c, s).results && c.effects <= Next(c, s).effects
  {
    hide Inv, Finish, Act;
    match s
    case SignalAborts => SignalKeepsInv(c);
    case ActorEnds => SignalKeepsInv(c);
    case Drops(op) => LossKeepsInv(c, op);
    case Runs(op, effect) =>
      if 0 < c.queue.Count(op) {
        OperationKeepsInv(c, op, effect);
      }
  }

  lemma OperationKeepsInv(c: Call, op: Operation, effect: Effect)
    requires Inv(c) && 0 < c.queue.Count(op)
    ensures var n := Next(c, Runs(op, effect)); Inv(n) && c.results <= n.results && c.effects <= n.effects
  {
    hide Inv, Finish, Act;
    LossKeepsInv(c, op);
    QueuedMeaning(c);
    match op
    case TimeoutOp => FinishesKeepInv(c, op, TimedOut);
    case AbortOp => FinishesKeepInv(c, op, Aborted);
    case CompletionOp => FinishesKeepInv(c, op, Exited(c.effect.GetOr("")));
    case ArrivalOp => ArrivalKeepsInv(c);
    case EffectOp => ActKeepsInv(c.(queue := c.queue.Less(op)), effect);
  }

  /** The operation that finishes the call need not be counted as lost. */
  lemma FinishesKeepInv(c: Call, op: Operation, outcome: Outcome)
    requires Inv(c) && outcome != Threw && (outcome.Exited? ==> c.effects == [outcome.result])
    ensures var n := Finish(c.(queue := c.queue.Less(op)), outcome); Inv(n) && c.results <= n.results && c.effects == n.effects
  {
    hide Inv;
    LossKeepsInv(c, op);
    var lost := c.(queue := c.queue.Less(op), dropped := true);
    FinishKeepsInv(lost, outcome, c.dropped);
    if c.settled {
      SettledLoss(c, op);
    }
  }

  lemma SettledLoss(c: Call, op: Operation)
    requires Inv(c) && c.settled
    ensures Inv(c.(queue := c.queue.Less(op)))
  {
  }

  lemma {:induction false} RunKeepsInv(c: Call, steps: seq<Step>)
    requires Inv(c)
    ensures Inv(Run(c, steps)) && c.results <= Run(c, steps).results && c.effects <= Run(c, steps).effects
    decreases |steps|
  {
    if steps != [] {
      NextKeepsInv(c, steps[0]);
      RunKeepsInv(Next(c, steps[0]), steps[1..]);
    }
  }

  /** A call whose signal had aborted before has its one result at once, and nothing queued. */
  lemma {:induction false} AbortedBefore(hasSignal: bool, steps: seq<Step>)
    ensures var c := Run(Begin(true, hasSignal), steps); c.results == c.resolved == [Aborted] && c.effects == []
    decreases |steps|
  {
    StaysIdle(Begin(true, hasSignal), steps);
  }

  lemma {:induction false} StaysIdle(c: Call, steps: seq<Step>)
    requires !c.listening && c.queue == Held(0, 0, 0, 0, 0)
    ensures var n := Run(c, steps); n.results == c.results && n.resolved == c.resolved && n.effects == c.effects
    decreases |steps|
  {
    if steps != [] {
      StaysIdle(Next(c, steps[0]), steps[1..]);
    }
  }

  /**
   In every order of the callbacks there is at most one result, it never changes,
   the promise resolves at most once and with it, an exit carries the one recorded
   effect, and an exception means there was none.
   */
  lemma {:induction false} SettlesOnce(hasSignal: bool, steps: seq<Step>, later: seq<Step>)
    ensures var c, n := Run(Begin(false, hasSignal), steps), Run(Run(Begin(false, hasSignal), steps), later);
            && |n.results| <= 1 && |n.effects| <= 1
            && (c.results != [] ==> n.results == c.results && n.resolved == c.resolved)
            && n.resolved == (if n.results == [Threw] then [] else n.results)
            && (n.results != [] && n.results[0].Exited? ==> n.effects == [n.results[0].result])
            && (n.results == [Threw] ==> n.effects == [])
  {
    RunKeepsInv(Begin(false, hasSignal), steps);
    RunKeepsInv(Run(Begin(false, hasSignal), steps), later);
  }

  /** Until it settles its timeout stays queued, unless operations were lost with the actor's generation; the timeout then settles it. */
  lemma {:induction false} TimeoutSettles(hasSignal: bool, steps: seq<Step>, effect: Effect)
    ensures var c := Run(Begin(false, hasSignal), steps);
            !c.dropped ==> |Next(c, Runs(TimeoutOp, effect)).results| == 1
                           && (c.results == [] ==> Next(c, Runs(TimeoutOp, effect)).resolved == [TimedOut])
  {
    RunKeepsInv(Begin(false, hasSignal), steps);
  }

  /** A command that nothing disturbs exits with the result of its effect. */
  lemma {:induction false} QuietCommandExits(hasSignal: bool, result: string, any: Effect)
    ensures var c := Run(Begin(false, hasSignal), [Runs(ArrivalOp, any), Runs(EffectOp, Ends(result)), Runs(CompletionOp, any)]);
            c.results == c.resolved == [Exited(result)] && c.effects == [result] && c.queue == Held(0, 0, 0, 0, 0)
  {
    hide Run;
    RunThree(Begin(false, hasSignal), Runs(ArrivalOp, any), Runs(EffectOp, Ends(result)), Runs(CompletionOp, any), []);
  }

  /** Neither a timeout nor an abort proves that there was no effect: it may come before the result or after. */
  lemma {:induction false} EffectDespiteResult(result: string)
    ensures var after := Run(Begin(false, true), [Runs(TimeoutOp, Throws), Runs(ArrivalOp, Throws), Runs(EffectOp, Ends(result))]);
            after.results == [TimedOut] && after.effects == [result]
    ensures var before := Run(Begin(false, true),
                              [Runs(ArrivalOp, Throws), Runs(EffectOp, Ends(result)), SignalAborts] + [Runs(AbortOp, Throws)]);
            before.results == [Aborted] && before.effects == [result]
  {
    var c := Begin(false, true);
    hide Run;
    RunThree(c, Runs(TimeoutOp, Throws), Runs(ArrivalOp, Throws), Runs(EffectOp, Ends(result)), []);
    RunThree(c, Runs(ArrivalOp, Throws), Runs(EffectOp, Ends(result)), SignalAborts, [Runs(AbortOp, Throws)]);
  }

  lemma RunThree(c: Call, a: Step, b: Step, d: Step, rest: seq<Step>)
    ensures rest == [] ==> Run(c, [a, b, d]) == Next(Next(Next(c, a), b), d)
    ensures |rest| == 1 ==> Run(c, [a, b, d] + rest) == Next(Next(Next(Next(c, a), b), d), rest[0])
  {
    hide Next;
    var all := [a, b, d] + rest;
    assert all[1..] == [b, d] + rest && all[1..][1..] == [d] + rest && all[1..][1..][1..] == rest;
    RunFirst(c, all);
    RunFirst(Next(c, a), all[1..]);
    RunFirst(Next(Next(c, a), b), all[1..][1..]);
    if rest == [] {
      assert all == [a, b, d];
    } else {
      RunFirst(Next(Next(Next(c, a), b), d), rest);
    }
  }

  lemma RunFirst(c: Call, steps: seq<Step>)
    requires steps != []
    ensures Run(c, steps) == Run(Next(c, steps[0]), steps[1..])
  {
  }

  // ---- the variables the callbacks share ----

  class CommandCall {
    var settled: bool
    var effect: Option<string>
    var listening: bool
    var queue: Held
    var effects: seq<string>
    var results: seq<Outcome>
    var resolved: seq<Outcome>
    ghost var dropped: bool

    ghost function View(): Call
      reads this
    {
      Call(settled, effect, listening, queue, effects, results, resolved, dropped)
    }

    constructor (aborted: bool, hasSignal: bool)
      ensures View() == Begin(aborted, hasSignal)
    {
      settled, effect, listening, queue, effects, results, resolved, dropped := false, None, false, Held(0, 0, 0, 0, 0), [], [], [], false;
      if aborted {
        results, resolved := [Aborted], [Aborted];
      } else {
        listening, queue := hasSignal, Held(1, 0, 1, 0, 0);
      }
    }

    method FinishWith(outcome: Outcome)
      modifies this
      ensures View() == Finish(old(View()), outcome)
    {
      if settled {
        return;
      }
      settled := true;
      queue := queue.(timeouts := 0);
      listening := false;
      results, resolved := results + [outcome], resolved + [outcome];
    }

    method SignalAborted()
      modifies this
      ensures View() == Next(old(View()), SignalAborts)
    {
      if listening {
        listening, queue := false, queue.(aborts := queue.aborts + 1);
      }
    }

    /** The callback of exec.effect, with its catch. */
    method ActOn(outcome: Effect)
      modifies this
      ensures View() == Act(old(View()), outcome)
    {
      match outcome
      case Ends(result) =>
        effect := Some(result);
        effects, queue := effects + [result], queue.(completions := queue.completions + 1);
      case StartHangs(acted) =>
        if acted.Some? {
          effects := effects + [acted.value];
        }
      case Throws =>
        if !settled {
          settled, listening := true, false;
          queue, results := queue.(timeouts := 0), results + [Threw];
        }
    }

    method RunOperation(op: Operation, outcome: Effect)
      requires 0 < queue.Count(op)
      modifies this
      ensures View() == Next(old(View()), Runs(op, outcome))
    {
      queue := queue.Less(op);
      match op
      case TimeoutOp => FinishWith(TimedOut);
      case AbortOp => FinishWith(Aborted);
      case ArrivalOp => queue := queue.(effects := queue.effects + 1);
      case EffectOp => ActOn(outcome);
      case CompletionOp => FinishWith(Exited(effect.GetOr("")));
    }
  }
}
