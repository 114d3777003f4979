/**
 The gate every message to the model passes: compaction and external holds with
 leases, and a flush fenced by an epoch (extensions/compaction-delivery-gate.ts).
 A send handed to Pi may call back into the gate, so the flush loop is one step
 per send, and any other call may fall between two of them.
 */
module DeliveryGate {
  import opened Wrappers

  type Message = string

  datatype Hold = Hold(holder: string, timer: nat)

  datatype TimerKind = HoldLimit | Lease(token: string)

  datatype Gate = Gate(
    compacting: bool,
    flushPending: bool,
    epoch: nat,
    held: seq<Message>,
    holdLimit: Option<nat>,
    externalHolds: map<string, Hold>,
    // the clock
    timers: map<nat, TimerKind>,
    nextTimer: nat,
    deferred: seq<nat>,          // epochs of the callbacks given to defer
    flushing: Option<nat>,       // epoch of the flush that is running
    // since the last reset
    requested: seq<Message>,
    handed: seq<Message>,        // sends made to Pi
    threw: seq<bool>,            // which of these threw
    // callbacks
    openings: nat,                           // how often the open listeners ran
    expired: seq<(string, string)>)        // holder and token of the leases that ran out

  predicate HasHold(g: Gate) {
    g.compacting || g.externalHolds != map[]
  }

  predicate IsClosed(g: Gate) {
    HasHold(g) || g.flushPending
  }

  datatype Step =
    | Send(message: Message, throws: bool)
    | Begin
    | End
    | BeginExternal(holder: string, token: string)
    | EndExternal(holder: string, token: string)
    | Reset
    // macrotasks: none runs inside a flush
    | TimerFires(id: nat)
    | StaleLeaseFires(id: nat, token: string)   // a lease timer that was cleared or has fired
    | StaleLimitFires(id: nat)                  // a limit of a compaction that was cleared or has fired
    | DeferredRuns(index: nat)
    // one turn of the flush loop
    | FlushTurn(throws: bool)

  predicate IsMacrotask(s: Step) {
    s.TimerFires? || s.StaleLeaseFires? || s.StaleLimitFires? || s.DeferredRuns?
  }

  function Hand(g: Gate, message: Message, throws: bool): Gate {
    g.(handed := g.handed + [message], threw := g.threw + [throws])
  }

  function ScheduleFlush(g: Gate): Gate {
    if HasHold(g) then g
    else g.(flushPending := true, epoch := g.epoch + 1, deferred := g.deferred + [g.epoch + 1])
  }

  function EndCompaction(g: Gate): Gate {
    if !g.compacting then g
    else ScheduleFlush(ClearHoldLimit(g.(compacting := false)))
  }

  function ClearHoldLimit(g: Gate): Gate {
    g.(timers := if g.holdLimit.Some? then g.timers - {g.holdLimit.value} else g.timers, holdLimit := None)
  }

  function ReleaseLease(g: Gate, token: string): Gate {
    ScheduleFlush(g.(externalHolds := g.externalHolds - {token}))
  }

  /** The lease runs out, and the holder is told. */
  function Expire(g: Gate, token: string): Gate
    requires token in g.externalHolds
  {
    ReleaseLease(g, token).(expired := g.expired + [(g.externalHolds[token].holder, token)])
  }

  /** Held sends belong to the Session that ends: the record of requests starts over. */
  function ForgetHolds(g: Gate): Gate {
    g.(timers := g.timers - (set t | t in g.externalHolds :: g.externalHolds[t].timer),
       externalHolds := map[], requested := [], handed := [], threw := [])
  }

  function Without<T>(s: seq<T>, i: nat): seq<T>
    requires i < |s|
  {
    s[..i] + s[i + 1..]
  }

  function Next(g: Gate, s: Step): Gate {
    if IsMacrotask(s) && g.flushing.Some? then g
    else match s
      case Send(m, throws) =>
        var asked := g.(requested := g.requested + [m]);
        if IsClosed(g) then asked.(held := g.held + [m]) else Hand(asked, m, throws)
      case Begin =>
        var cleared := ClearHoldLimit(g.(compacting := true, epoch := g.epoch + 1));
        cleared.(holdLimit := Some(g.nextTimer), timers := cleared.timers[g.nextTimer := HoldLimit], nextTimer := g.nextTimer + 1)
      case End => EndCompaction(g)
      case BeginExternal(holder, token) =>
        if token in g.externalHolds && g.externalHolds[token].holder != holder then g
        else
          var kept := if token in g.externalHolds then g.timers - {g.externalHolds[token].timer} else g.timers;
          g.(epoch := g.epoch + 1, timers := kept[g.nextTimer := Lease(token)], nextTimer := g.nextTimer + 1,
             externalHolds := g.externalHolds[token := Hold(holder, g.nextTimer)])
      case EndExternal(holder, token) =>
        if token !in g.externalHolds || g.externalHolds[token].holder != holder then g
        else ReleaseLease(g.(timers := g.timers - {g.externalHolds[token].timer}), token)
      case Reset =>
        ForgetHolds(ClearHoldLimit(g.(epoch := g.epoch + 1, compacting := false, flushPending := false, held := [])))
      case TimerFires(id) =>
        if id !in g.timers then g
        else
          var fired := g.(timers := g.timers - {id});
          (match g.timers[id]
           case HoldLimit => EndCompaction(fired)
           case Lease(token) =>
             if token in g.externalHolds && g.externalHolds[token].timer == id then Expire(fired, token) else fired)
      case StaleLeaseFires(id, token) =>
        if id !in g.timers && token in g.externalHolds && g.externalHolds[token].timer == id then Expire(g, token) else g
      case StaleLimitFires(id) =>
        // the callback does not know whose limit it is
        if id in g.timers || g.nextTimer <= id then g else EndCompaction(g)
      case DeferredRuns(i) =>
        if |g.deferred| <= i then g
        else
          var popped := g.(deferred := Without(g.deferred, i));
          if g.deferred[i] != g.epoch || HasHold(g) then popped else popped.(flushing := Some(g.epoch))
      case FlushTurn(throws) =>
        if g.flushing.None? then g
        else if g.flushing.value != g.epoch || HasHold(g) then g.(flushing := None)
        else if g.held == [] then g.(flushing := None, flushPending := false, openings := g.openings + 1)
        else Hand(g.(held := g.held[1..]), g.held[0], throws)
  }

  // ---- what every reachable state keeps ----

  /** Nothing lost, nothing repeated, nothing overtaken. */
  predicate InOrder(g: Gate) {
    g.handed + g.held == g.requested && |g.threw| == |g.handed|
  }

  /** A closed gate with no hold has its flush pending or running. */
  predicate FlushComes(g: Gate) {
    !HasHold(g) && g.flushPending ==> g.epoch in g.deferred || g.flushing == Some(g.epoch)
  }

  /** Every hold has its own pending lease. */
  predicate Leased(g: Gate) {
    && (g.compacting ==> g.holdLimit.Some? && g.holdLimit.value in g.timers)
    && (g.holdLimit.Some? ==> g.holdLimit.value < g.nextTimer)
    && (g.holdLimit.Some? && g.holdLimit.value in g.timers ==> g.timers[g.holdLimit.value] == HoldLimit)
    && (forall t | t in g.externalHolds :: g.externalHolds[t].timer in g.timers && g.timers[g.externalHolds[t].timer] == Lease(t))
    && (forall id | id in g.timers :: id < g.nextTimer && (g.timers[id] == HoldLimit ==> g.holdLimit == Some(id)))
  }

  ghost predicate Inv(g: Gate) {
    InOrder(g) && (!IsClosed(g) ==> g.held == []) && FlushComes(g) && Leased(g)
  }

  /** Scheduling the flush restores whatever the end of a hold had left open. */
  lemma ScheduleKeepsInv(g: Gate)
    requires InOrder(g) && Leased(g)
    ensures Inv(ScheduleFlush(g))
  {
  }

  lemma EndKeepsInv(g: Gate)
    requires InOrder(g) && (!g.compacting ==> Inv(g))
    requires Leased(g.(compacting := false))
    ensures Inv(EndCompaction(g))
  {
    if g.compacting {
      ScheduleKeepsInv(ClearHoldLimit(g.(compacting := false)));
    }
  }

  const FRESH := Gate(false, false, 0, [], None, map[], map[], 0, [], None, [], [], [], 0, [])

  lemma DeferredKeepsInv(g: Gate, i: nat)
    requires Inv(g)
    ensures Inv(Next(g, DeferredRuns(i)))
  {
    if g.flushing.None? && i < |g.deferred| {
      var rest := Without(g.deferred, i);
      if g.epoch in g.deferred && g.deferred[i] != g.epoch {
        var k :| 0 <= k < |g.deferred| && g.deferred[k] == g.epoch;
        assert g.epoch in rest by {
          assert rest[if k < i then k else k - 1] == g.epoch;
        }
      }
    }
  }

  lemma ReleaseKeepsInv(g: Gate, holder: string, token: string, id: nat)
    requires Inv(g)
    ensures Inv(Next(g, EndExternal(holder, token)))
    ensures Inv(Next(g, StaleLeaseFires(id, token)))
  {
    if token in g.externalHolds {
      var timed := g.(timers := g.timers - {g.externalHolds[token].timer});
      ScheduleKeepsInv(timed.(externalHolds := g.externalHolds - {token}));
    }
  }

  lemma TimerKeepsInv(g: Gate, id: nat)
    requires Inv(g)
    ensures Inv(Next(g, TimerFires(id)))
  {
    if g.flushing.None? && id in g.timers {
      var fired := g.(timers := g.timers - {id});
      match g.timers[id]
      case HoldLimit => EndKeepsInv(fired);
      case Lease(token) =>
        if token in g.externalHolds && g.externalHolds[token].timer == id {
          ScheduleKeepsInv(fired.(externalHolds := g.externalHolds - {token}));
        }
    }
  }

  lemma CompactionKeepsInv(g: Gate)
    requires Inv(g)
    ensures Inv(Next(g, Begin))
  {
  }

  lemma HoldKeepsInv(g: Gate, holder: string, token: string)
    requires Inv(g)
    ensures Inv(Next(g, BeginExternal(holder, token)))
  {
    var held := Next(g, BeginExternal(holder, token));
    if held != g {
      forall t | t in held.externalHolds && t != token
        ensures held.externalHolds[t].timer in held.timers && held.timers[held.externalHolds[t].timer] == Lease(t)
      {
        assert g.timers[g.externalHolds[t].timer] == Lease(t);
        assert token in g.externalHolds ==> g.timers[g.externalHolds[token].timer] == Lease(token);
      }
      assert Leased(held);
    }
  }

  lemma ResetKeepsInv(g: Gate)
    requires Inv(g)
    ensures Inv(Next(g, Reset))
  {
  }

  lemma NextKeepsInv(g: Gate, s: Step)
    requires Inv(g)
    ensures Inv(Next(g, s))
  {
    match s
    case Begin => CompactionKeepsInv(g);
    case End => EndKeepsInv(g);
    case BeginExternal(holder, token) => HoldKeepsInv(g, holder, token);
    case EndExternal(holder, token) => ReleaseKeepsInv(g, holder, token, 0);
    case TimerFires(id) => TimerKeepsInv(g, id);
    case StaleLeaseFires(id, token) => ReleaseKeepsInv(g, "", token, id);
    case StaleLimitFires(_) => EndKeepsInv(g);
    case DeferredRuns(i) => DeferredKeepsInv(g, i);
    case Reset => ResetKeepsInv(g);
    case Send(_, _) | FlushTurn(_) =>
  }

  /** Nothing is handed to Pi while any hold is active. */
  lemma NoSendWhileHeld(g: Gate, s: Step)
    requires Inv(g) && HasHold(g) && s != Reset
    ensures Next(g, s).handed == g.handed
  {
  }

  /** A lease timer that was cleared or has fired changes nothing when its callback still runs. */
  lemma StaleLeaseIsHarmless(g: Gate, id: nat, token: string)
    requires Inv(g)
    ensures Next(g, StaleLeaseFires(id, token)) == g
  {
  }

  /** A limit that was cleared or has fired would end any compaction that has begun since, and only that. */
  lemma StaleLimitMeaning(g: Gate, id: nat)
    requires Inv(g) && g.flushing.None? && id !in g.timers && id < g.nextTimer
    ensures !Next(g, StaleLimitFires(id)).compacting
    ensures Next(g, StaleLimitFires(id)) == g <==> !g.compacting
    ensures Next(g, StaleLimitFires(id)) == Next(g, End)
  {
  }

  function Run(g: Gate, steps: seq<Step>): Gate
    decreases |steps|
  {
    if steps == [] then g else Run(Next(g, steps[0]), steps[1..])
  }

  lemma {:induction false} RunKeepsInv(g: Gate, steps: seq<Step>)
    requires Inv(g)
    ensures Inv(Run(g, steps))
    decreases |steps|
  {
    if steps != [] {
      NextKeepsInv(g, steps[0]);
      RunKeepsInv(Next(g, steps[0]), steps[1..]);
    }
  }

  /** Listeners run only at an open gate with nothing held back, and only a lease that still stands runs out. */
  lemma CallbacksAreDue(g: Gate, s: Step)
    requires Inv(g)
    ensures var n := Next(g, s);
            && (n.openings != g.openings ==> n.openings == g.openings + 1 && !IsClosed(n) && n.handed == n.requested)
            && (n.expired != g.expired ==>
                  exists token :: token in g.externalHolds && token !in n.externalHolds
                                  && n.expired == g.expired + [(g.externalHolds[token].holder, token)])
  {
    match s
    case TimerFires(id) =>
      if g.flushing.None? && id in g.timers && g.timers[id].Lease? && Next(g, s).expired != g.expired {
        var token := g.timers[id].token;
        assert token in g.externalHolds && token !in Next(g, s).externalHolds;
      }
    case _ =>
  }

  /** Over every run and its next step, re-entrant calls, sends that throw and stale timers included. */
  lemma EveryRun(steps: seq<Step>, next: Step)
    ensures var g, n := Run(FRESH, steps), Next(Run(FRESH, steps), next);
            && g.handed + g.held == g.requested && |g.threw| == |g.handed|
            && (!IsClosed(g) ==> g.handed == g.requested)
            && (!HasHold(g) && IsClosed(g) ==> g.epoch in g.deferred || g.flushing == Some(g.epoch))
            && (g.compacting ==> g.holdLimit.Some? && g.holdLimit.value in g.timers)
            && (forall t | t in g.externalHolds :: g.externalHolds[t].timer in g.timers)
            && (HasHold(g) && next != Reset ==> n.handed == g.handed)
            && (n.openings != g.openings ==> n.openings == g.openings + 1 && !IsClosed(n) && n.handed == n.requested)
            && (n.expired != g.expired ==>
                  exists token :: token in g.externalHolds && token !in n.externalHolds
                                  && n.expired == g.expired + [(g.externalHolds[token].holder, token)])
  {
    hide Next, Run;
    RunKeepsInv(FRESH, steps);
    CallbacksAreDue(Run(FRESH, steps), next);
    if HasHold(Run(FRESH, steps)) && next != Reset {
      NoSendWhileHeld(Run(FRESH, steps), next);
    }
  }

  // ---- who holds, and who releases ----

  /** The holder's own release. */
  predicate OwnsHold(g: Gate, holder: string, token: string) {
    token in g.externalHolds && g.externalHolds[token].holder == holder
  }

  /**
   Only the holder with the token releases its hold, and that always: the lease goes
   with it, other holds stay, and when it was the last the flush is on its way, under
   an epoch of its own. Anybody else's release changes nothing.
   */
  lemma HolderReleases(g: Gate, holder: string, token: string)
    ensures var n := Next(g, EndExternal(holder, token));
            && (forall u :: u in n.externalHolds <==> u in g.externalHolds && !(u == token && g.externalHolds[token].holder == holder))
            && (forall u | u in n.externalHolds :: n.externalHolds[u] == g.externalHolds[u])
            && n.compacting == g.compacting && n.held == g.held && n.handed == g.handed && n.requested == g.requested
            && (!OwnsHold(g, holder, token) ==> n == g)
            && (OwnsHold(g, holder, token) ==> g.externalHolds[token].timer !in n.timers)
            && (OwnsHold(g, holder, token) && !HasHold(n) ==> n.flushPending && n.epoch == g.epoch + 1 && n.epoch in n.deferred)
            && (HasHold(n) ==> n.epoch == g.epoch && n.deferred == g.deferred && n.flushPending == g.flushPending)
  {
    var n := Next(g, EndExternal(holder, token));
    if OwnsHold(g, holder, token) && !HasHold(n) {
      assert n.deferred[|g.deferred|] == g.epoch + 1;
    }
  }

  /**
   A token that somebody holds cannot be taken by another holder; its own holder's
   renewal, or a first begin, puts a new lease in place of the old one and calls off
   any flush that is on its way.
   */
  lemma HolderHolds(g: Gate, holder: string, token: string)
    requires Leased(g)
    ensures var n := Next(g, BeginExternal(holder, token));
            && (token in g.externalHolds && g.externalHolds[token].holder != holder ==> n == g)
            && (token !in g.externalHolds || g.externalHolds[token].holder == holder ==>
                  && n.externalHolds == g.externalHolds[token := Hold(holder, g.nextTimer)]
                  && g.nextTimer in n.timers && n.timers[g.nextTimer] == Lease(token)
                  && (token in g.externalHolds ==> g.externalHolds[token].timer !in n.timers)
                  && n.epoch == g.epoch + 1)
            && n.compacting == g.compacting && n.held == g.held && n.handed == g.handed && n.requested == g.requested
  {
  }

  /** The lease of this token runs out in this step. */
  predicate RunsOut(g: Gate, s: Step, token: string) {
    g.flushing.None? && token in g.externalHolds && s == TimerFires(g.externalHolds[token].timer)
  }

  /**
   A token is held after a step exactly if it was begun now, or was held and was not
   released by its holder, by its lease, or by a reset; and Pi compacts exactly if it
   began now, or did before and neither ended, nor ran out of time, nor was reset.
   */
  lemma HoldsAreDecided(g: Gate, s: Step, token: string)
    requires Inv(g)
    ensures var n := Next(g, s);
            && (token in n.externalHolds <==>
                  || (s.BeginExternal? && s.token == token)
                  || (token in g.externalHolds && s != EndExternal(g.externalHolds[token].holder, token) && s != Reset && !RunsOut(g, s, token)))
            && (n.compacting <==>
                  || s == Begin
                  || (g.compacting && s != End && s != Reset
                      && (g.flushing.None? ==> s != TimerFires(g.holdLimit.value)
                                               && !(s.StaleLimitFires? && s.id !in g.timers && s.id < g.nextTimer))))
  {
    match s
    case TimerFires(id) => TimerDecides(g, id, token);
    case EndExternal(holder, t) => HolderReleases(g, holder, t);
    case _ =>
  }

  lemma TimerDecides(g: Gate, id: nat, token: string)
    requires Inv(g)
    ensures var n := Next(g, TimerFires(id));
            && (token in n.externalHolds <==> token in g.externalHolds && !RunsOut(g, TimerFires(id), token))
            && (n.compacting <==> g.compacting && (g.flushing.None? ==> id != g.holdLimit.value))
  {
    if g.flushing.None? && id in g.timers {
      match g.timers[id]
      case HoldLimit =>
      case Lease(t) => assert g.holdLimit.Some? && g.holdLimit.value == id ==> !g.compacting;
    }
  }

  /**
   When the last hold is released, the flush it leaves behind alone opens the gate,
   without any timer, with every requested send made in order.
   */
  lemma {:induction false} ReleaseOpens(g: Gate, holder: string, token: string, throws: nat -> bool) returns (steps: seq<Step>)
    requires Inv(g) && g.flushing.None? && OwnsHold(g, holder, token) && g.externalHolds.Keys == {token} && !g.compacting
    ensures forall i | 0 <= i < |steps| :: steps[i].DeferredRuns? || steps[i].FlushTurn?
    ensures var e := Run(Next(g, EndExternal(holder, token)), steps);
            && !IsClosed(e) && e.handed == g.requested && g.openings < e.openings
            && g.threw <= e.threw && EndsAs(e.threw, |g.threw|, throws)
  {
    var free := Next(g, EndExternal(holder, token));
    HolderReleases(g, holder, token);
    NextKeepsInv(g, EndExternal(holder, token));
    assert free.externalHolds == map[];
    var i :| 0 <= i < |free.deferred| && free.deferred[i] == free.epoch;
    var begun := Next(free, DeferredRuns(i));
    NextKeepsInv(free, DeferredRuns(i));
    var turns := FlushEnds(begun, throws);
    steps := [DeferredRuns(i)] + turns;
    assert steps[1..] == turns;
    RunKeepsInv(free, steps);
  }

  /** A reset opens the gate with nothing held back or owed, and a flush of before it finds another epoch. */
  lemma ResetForgets(g: Gate)
    requires Inv(g)
    ensures var n := Next(g, Reset);
            && !IsClosed(n) && n.held == [] && n.requested == [] && n.handed == [] && n.epoch == g.epoch + 1
            && (forall t | t in g.externalHolds :: g.externalHolds[t].timer !in n.timers)
            && (g.holdLimit.Some? ==> g.holdLimit.value !in n.timers)
            && n.openings == g.openings && n.expired == g.expired
  {
  }

  // ---- no hold is permanent ----

  lemma {:induction false} RunConcat(g: Gate, a: seq<Step>, b: seq<Step>)
    ensures Run(g, a + b) == Run(Run(g, a), b)
    decreases |a|
  {
    if a == [] {
      assert a + b == b;
    } else {
      assert (a + b)[1..] == a[1..] + b;
      RunConcat(Next(g, a[0]), a[1..], b);
    }
  }

  /** Steps the clock takes by itself. */
  predicate ByClock(steps: seq<Step>) {
    forall i | 0 <= i < |steps| :: steps[i].TimerFires? || steps[i].DeferredRuns? || steps[i].FlushTurn?
  }

  /** From `from` on, the i-th send ends as Pi has it end. */
  predicate EndsAs(threw: seq<bool>, from: nat, throws: nat -> bool) {
    forall i | from <= i < |threw| :: threw[i] == throws(i)
  }

  lemma {:induction false} FlushEnds(g: Gate, throws: nat -> bool) returns (steps: seq<Step>)
    requires Inv(g)
    ensures ByClock(steps) && forall i | 0 <= i < |steps| :: steps[i].FlushTurn?
    ensures var e := Run(g, steps);
            && g.handed <= e.handed && g.threw <= e.threw && EndsAs(e.threw, |g.threw|, throws)
            && Inv(e) && e.flushing.None? && e.requested == g.requested
            && e.externalHolds == g.externalHolds && e.compacting == g.compacting
            && (g.flushing == Some(g.epoch) && !HasHold(g) ==> !IsClosed(e))
            && g.openings <= e.openings && (IsClosed(g) && !IsClosed(e) ==> g.openings < e.openings)
            && (g.flushing.None? ==> e == g)
    decreases g.flushing.Some?, |g.held|
  {
    hide Leased, FlushComes, InOrder;
    if g.flushing.None? {
      steps := [];
    } else {
      var turn := FlushTurn(throws(|g.threw|));
      NextKeepsInv(g, turn);
      var rest := FlushEnds(Next(g, turn), throws);
      steps := [turn] + rest;
      assert steps[1..] == rest;
    }
  }

  lemma LeaseEnds(g: Gate, token: string)
    requires Inv(g) && g.flushing.None? && token in g.externalHolds
    ensures var n := Next(g, TimerFires(g.externalHolds[token].timer));
            && n.flushing.None? && n.requested == g.requested && n.threw == g.threw && n.openings == g.openings
            && IsClosed(n) && n.compacting == g.compacting
            && n.externalHolds == g.externalHolds - {token}
  {
  }

  lemma LimitEnds(g: Gate)
    requires Inv(g) && g.flushing.None? && g.compacting
    ensures var n := Next(g, TimerFires(g.holdLimit.value));
            && n.flushing.None? && n.requested == g.requested && n.threw == g.threw && n.openings == g.openings
            && IsClosed(n) && !n.compacting
            && n.externalHolds == g.externalHolds
  {
  }

  lemma {:induction false} LeasesEnd(g: Gate) returns (steps: seq<Step>)
    requires Inv(g) && g.flushing.None?
    ensures ByClock(steps)
    ensures var e := Run(g, steps);
            e.flushing.None? && e.requested == g.requested && e.threw == g.threw && !HasHold(e)
            && e.openings == g.openings && (IsClosed(g) ==> IsClosed(e))
    decreases |g.externalHolds|, g.compacting
  {
    if !HasHold(g) {
      steps := [];
    } else {
      var fire;
      if g.externalHolds != map[] {
        var token :| token in g.externalHolds;
        fire := TimerFires(g.externalHolds[token].timer);
        LeaseEnds(g, token);
        FewerHolds(g.externalHolds, token);
      } else {
        fire := TimerFires(g.holdLimit.value);
        LimitEnds(g);
      }
      NextKeepsInv(g, fire);
      var rest := LeasesEnd(Next(g, fire));
      steps := [fire] + rest;
      assert steps[1..] == rest;
    }
  }

  lemma FewerHolds(holds: map<string, Hold>, token: string)
    requires token in holds
    ensures |holds - {token}| < |holds|
  {
    assert (holds - {token}).Keys == holds.Keys - {token};
  }

  /**
   From any state the clock alone brings the gate to open with every requested
   send made in order, whichever of them throw, and a closed gate tells its
   listeners.
   */
  lemma GateReopens(g: Gate, throws: nat -> bool) returns (steps: seq<Step>)
    requires Inv(g)
    ensures ByClock(steps)
    ensures var e := Run(g, steps);
            && !IsClosed(e) && e.handed == g.requested && g.threw <= e.threw && EndsAs(e.threw, |g.threw|, throws)
            && (IsClosed(g) ==> g.openings < e.openings)
  {
    var a := FlushEnds(g, throws);
    var ended := Run(g, a);
    var b := LeasesEnd(ended);
    var free := Run(ended, b);
    RunConcat(g, a, b);
    RunKeepsInv(ended, b);
    if !IsClosed(free) {
      steps := a + b;
    } else {
      var i :| 0 <= i < |free.deferred| && free.deferred[i] == free.epoch;
      var begun := Next(free, DeferredRuns(i));
      NextKeepsInv(free, DeferredRuns(i));
      var c := FlushEnds(begun, throws);
      var last := [DeferredRuns(i)] + c;
      assert last[1..] == c;
      RunConcat(g, a + b, last);
      steps := a + b + last;
    }
    RunKeepsInv(g, steps);
  }

  // ---- the object ----

  class CompactionDeliveryGate {
    var compacting: bool
    var flushPending: bool
    var epoch: nat
    var held: seq<Message>
    var holdLimit: Option<nat>
    var externalHolds: map<string, Hold>
    var timers: map<nat, TimerKind>
    var nextTimer: nat
    var deferred: seq<nat>
    var flushing: Option<nat>
    ghost var requested: seq<Message>
    var handed: seq<Message>   // what Pi has been given
    var threw: seq<bool>
    var openings: nat
    var expired: seq<(string, string)>

    ghost function View(): Gate
      reads this
    {
      Gate(compacting, flushPending, epoch, held, holdLimit, externalHolds, timers, nextTimer, deferred, flushing, requested, handed, threw,
           openings, expired)
    }

    constructor ()
      ensures View() == FRESH
    {
      compacting, flushPending, epoch, held := false, false, 0, [];
      holdLimit, externalHolds := None, map[];
      timers, nextTimer, deferred, flushing := map[], 0, [], None;
      requested, handed, threw, openings, expired := [], [], [], 0, [];
    }

    method HasHolds() returns (r: bool)
      ensures r == HasHold(View())
    {
      r := compacting || externalHolds != map[];
    }

    method SetTimer(kind: TimerKind) returns (id: nat)
      modifies this`timers, this`nextTimer
      ensures id == old(nextTimer) && nextTimer == id + 1 && timers == old(timers)[id := kind]
    {
      id := nextTimer;
      nextTimer := nextTimer + 1;
      timers := timers[id := kind];
    }

    method ClearLimit()
      modifies this`timers, this`holdLimit
      ensures View() == ClearHoldLimit(old(View()))
    {
      if holdLimit.Some? {
        timers := timers - {holdLimit.value};
      }
      holdLimit := None;
    }

    method Schedule()
      modifies this`flushPending, this`epoch, this`deferred
      ensures View() == ScheduleFlush(old(View()))
    {
      var blocked := HasHolds();
      if blocked {
        return;
      }
      flushPending := true;
      epoch := epoch + 1;
      deferred := deferred + [epoch];
    }

    method SendMessage(message: Message, throws: bool)
      modifies this`held, this`handed, this`threw, this`requested
      ensures View() == Next(old(View()), Send(message, throws))
    {
      requested := requested + [message];
      var blocked := HasHolds();
      if !blocked && !flushPending {
        handed, threw := handed + [message], threw + [throws];
        return;
      }
      held := held + [message];
    }

    method BeginHold(holder: string, token: string)
      modifies this
      ensures View() == Next(old(View()), BeginExternal(holder, token))
    {
      if token in externalHolds && externalHolds[token].holder != holder {
        return;
      }
      if token in externalHolds {
        timers := timers - {externalHolds[token].timer};
      }
      epoch := epoch + 1;
      var timer := SetTimer(Lease(token));
      externalHolds := externalHolds[token := Hold(holder, timer)];
    }

    method EndHold(holder: string, token: string)
      modifies this
      ensures View() == Next(old(View()), EndExternal(holder, token))
    {
      if token !in externalHolds || externalHolds[token].holder != holder {
        return;
      }
      timers := timers - {externalHolds[token].timer};
      externalHolds := externalHolds - {token};
      Schedule();
    }

    method BeginCompacting()
      modifies this
      ensures View() == Next(old(View()), Begin)
    {
      hide HasHold, ScheduleFlush, ReleaseLease, Expire, EndCompaction, Hand, Without, ForgetHolds;
      compacting := true;
      epoch := epoch + 1;
      ClearLimit();
      var timer := SetTimer(HoldLimit);
      holdLimit := Some(timer);
    }

    method EndCompacting()
      modifies this
      ensures View() == EndCompaction(old(View()))
    {
      if !compacting {
        return;
      }
      compacting := false;
      ClearLimit();
      Schedule();
    }

    method ResetAll()
      modifies this
      ensures View() == Next(old(View()), Reset)
    {
      hide ScheduleFlush, EndCompaction, ReleaseLease, Hand, Without, HasHold;
      Reopen();
      ClearLimit();
      DropHolds();
    }

    method Reopen()
      modifies this`epoch, this`compacting, this`flushPending, this`held
      ensures View() == old(View()).(epoch := old(epoch) + 1, compacting := false, flushPending := false, held := [])
    {
      epoch := epoch + 1;
      compacting := false;
      flushPending := false;
      held := [];
    }

    method DropHolds()
      modifies this`timers, this`externalHolds, this`requested, this`handed, this`threw
      ensures View() == ForgetHolds(old(View()))
    {
      timers := timers - (set t | t in externalHolds :: externalHolds[t].timer);
      externalHolds := map[];
      requested, handed, threw := [], [], [];
    }

    method FireTimer(id: nat)
      requires flushing.None?
      modifies this
      ensures View() == Next(old(View()), TimerFires(id))
    {
      hide HasHold, ScheduleFlush, ReleaseLease, Expire, EndCompaction, ClearHoldLimit, Hand, Without, ForgetHolds;
      if id !in timers {
        return;
      }
      var kind := timers[id];
      timers := timers - {id};
      match kind {
        case HoldLimit => EndCompacting();
        case Lease(token) =>
          if token !in externalHolds || externalHolds[token].timer != id {
            return;
          }
          RunOut(token);
      }
    }

    method RunOut(token: string)
      requires token in externalHolds
      modifies this
      ensures View() == Expire(old(View()), token)
    {
      var holder := externalHolds[token].holder;
      externalHolds := externalHolds - {token};
      Schedule();
      expired := expired + [(holder, token)];
    }

    method RunDeferred(index: nat)
      requires flushing.None? && index < |deferred|
      modifies this`deferred, this`flushing
      ensures View() == Next(old(View()), DeferredRuns(index))
    {
      var mine := deferred[index];
      deferred := Without(deferred, index);
      var blocked := HasHolds();
      if mine != epoch || blocked {
        return;
      }
      flushing := Some(mine);
    }

    /** The loop test of the flush and, if it passes, one send; an exception ends the send and not the flush. */
    method TurnFlush(throws: bool)
      requires flushing.Some?
      modifies this`held, this`handed, this`threw, this`flushing, this`flushPending, this`openings
      ensures View() == Next(old(View()), FlushTurn(throws))
    {
      var blocked := HasHolds();
      if held != [] && flushing.value == epoch && !blocked {
        var send := held[0];
        held := held[1..];
        handed, threw := handed + [send], threw + [throws];
        return;
      }
      if flushing.value == epoch && !blocked {
        flushPending := false;
        openings := openings + 1;
      }
      flushing := None;
    }
  }
}
