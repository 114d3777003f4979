/**
 The scheduler of a simulated run and the fence that keeps work of dead process
 generations from running (sim/scheduler.ts, sim/world.ts).
 */
module SimWorld {
  import opened Wrappers
  import opened ProcessTable

  /** `generation` is what the world's wrapper captured when it queued the operation. */
  datatype Operation = Operation(id: nat, actor: Option<string>, due: int, interval: Option<int>, generation: Option<nat>)

  /** What happens to operations, in order. */
  datatype Entry =
    | Ran(op: Operation, at: int)
    | Cancelled(id: nat)

  datatype Scheduler = Scheduler(now: int, queue: seq<Operation>, nextId: nat, log: seq<Entry>)

  function Delete(queue: seq<Operation>, id: nat): (r: seq<Operation>)
    ensures forall op :: op in r <==> op in queue && op.id != id
    ensures |r| <= |queue|
    ensures OneToAnId(queue) ==> OneToAnId(r)
  {
    if queue == [] then []
    else if queue[0].id == id then Delete(queue[1..], id)
    else [queue[0]] + Delete(queue[1..], id)
  }

  predicate OneToAnId(queue: seq<Operation>) {
    forall i, j | 0 <= i < j < |queue| :: queue[i].id != queue[j].id
  }

  function Find(queue: seq<Operation>, id: nat): (r: Option<Operation>)
    ensures r.Some? ==> r.value in queue && r.value.id == id
    ensures r.None? ==> forall op | op in queue :: op.id != id
  {
    if queue == [] then None else if queue[0].id == id then Some(queue[0]) else Find(queue[1..], id)
  }

  function Enqueue(s: Scheduler, actor: Option<string>, delay: nat, interval: Option<int>, generation: Option<nat>): Scheduler {
    var op := Operation(s.nextId + 1, actor, s.now + delay, interval, generation);
    s.(nextId := s.nextId + 1, queue := s.queue + [op])
  }

  function Cancel(s: Scheduler, id: nat): Scheduler {
    if Find(s.queue, id).None? then s else s.(queue := Delete(s.queue, id), log := s.log + [Cancelled(id)])
  }

  /** Every queued operation of the actor is cancelled, in queue order. */
  function CancelActor(s: Scheduler, actor: string): Scheduler {
    CancelAll(s, Owned(s.queue, actor))
  }

  function Owned(queue: seq<Operation>, actor: string): seq<nat> {
    if queue == [] then []
    else (if queue[0].actor == Some(actor) then [queue[0].id] else []) + Owned(queue[1..], actor)
  }

  function CancelAll(s: Scheduler, ids: seq<nat>): Scheduler
    decreases |ids|
  {
    if ids == [] then s else CancelAll(Cancel(s, ids[0]), ids[1..])
  }

  function Enabled(queue: seq<Operation>, now: int): (r: seq<Operation>)
    ensures forall op :: op in r <==> op in queue && op.due <= now
  {
    if queue == [] then []
    else (if queue[0].due <= now then [queue[0]] else []) + Enabled(queue[1..], now)
  }

  function EarliestDue(queue: seq<Operation>): (t: int)
    requires queue != []
    ensures (exists op :: op in queue && op.due == t) && (forall op | op in queue :: t <= op.due)
  {
    if |queue| == 1 then
      assert queue[0] in queue;
      queue[0].due
    else
      var rest := EarliestDue(queue[1..]);
      assert queue == [queue[0]] + queue[1..];
      if queue[0].due < rest then queue[0].due else rest
  }

  /** Time moves only when nothing is enabled, and then to the first due operation. */
  function AtWork(s: Scheduler, advanceTime: bool): Scheduler {
    if Enabled(s.queue, s.now) == [] && advanceTime && s.queue != [] then s.(now := EarliestDue(s.queue)) else s
  }

  /** One step: the chosen enabled operation leaves the queue, or goes to its end with its next due time. */
  function StepScheduler(s: Scheduler, choice: nat, advanceTime: bool): (Scheduler, Option<Operation>) {
    var t := AtWork(s, advanceTime);
    var enabled := Enabled(t.queue, t.now);
    if |enabled| <= choice then (t, None)
    else
      var op := enabled[choice];
      (t.(queue := AfterRun(t.queue, op, t.now), log := t.log + [Ran(op, t.now)]), Some(op))
  }

  // ---- scheduling safety ----

  predicate QueueOk(queue: seq<Operation>, nextId: nat) {
    && OneToAnId(queue)
    && forall op | op in queue :: 0 < op.id <= nextId && (op.interval.Some? ==> 1 <= op.interval.value)
  }

  /** An entry of the log, and what may still be queued under its id. */
  predicate EntryOk(e: Entry, queue: seq<Operation>, now: int, nextId: nat) {
    match e
    case Ran(op, at) =>
      && 0 < op.id <= nextId && op.due <= at <= now
      && forall q | q in queue && q.id == op.id :: op.interval.Some? && q.interval == op.interval && at + op.interval.value <= q.due
    case Cancelled(id) => 0 < id <= nextId && forall q | q in queue :: q.id != id
  }

  /** A one-shot operation runs once, an interval keeps its distance, a cancelled operation never runs, time never turns back. */
  predicate PairOk(e: Entry, later: Entry) {
    later.Ran? ==>
      match e
      case Ran(op, at) =>
        && at <= later.at
        && (op.id == later.op.id ==> op.interval.Some? && at + op.interval.value <= later.at)
      case Cancelled(id) => later.op.id != id
  }

  predicate LogOk(log: seq<Entry>) {
    forall k, m | 0 <= k < m < |log| :: PairOk(log[k], log[m])
  }

  ghost predicate SchedulerInv(s: Scheduler) {
    && QueueOk(s.queue, s.nextId)
    && (forall k | 0 <= k < |s.log| :: EntryOk(s.log[k], s.queue, s.now, s.nextId))
    && LogOk(s.log)
  }

  const FRESH_SCHEDULER := Scheduler(1_700_000_000_000, [], 0, [])

  lemma EnqueueKeepsInv(s: Scheduler, actor: Option<string>, delay: nat, interval: Option<int>, generation: Option<nat>)
    requires SchedulerInv(s) && (interval.Some? ==> 1 <= interval.value)
    ensures SchedulerInv(Enqueue(s, actor, delay, interval, generation))
  {
  }

  lemma CancelKeepsInv(s: Scheduler, id: nat)
    requires SchedulerInv(s)
    ensures SchedulerInv(Cancel(s, id))
  {
  }

  lemma {:induction false} CancelAllKeepsInv(s: Scheduler, ids: seq<nat>)
    requires SchedulerInv(s)
    ensures SchedulerInv(CancelAll(s, ids)) && |CancelAll(s, ids).log| >= |s.log|
    ensures forall op :: op in CancelAll(s, ids).queue <==> op in s.queue && op.id !in ids
    decreases |ids|
  {
    if ids != [] {
      CancelKeepsInv(s, ids[0]);
      CancelAllKeepsInv(Cancel(s, ids[0]), ids[1..]);
      assert ids == [ids[0]] + ids[1..];
    }
  }

  lemma {:induction false} OwnedMeaning(queue: seq<Operation>, actor: string)
    ensures forall op | op in queue && op.actor == Some(actor) :: op.id in Owned(queue, actor)
    ensures OneToAnId(queue) ==> forall op | op in queue && op.id in Owned(queue, actor) :: op.actor == Some(actor)
  {
    if queue != [] {
      OwnedMeaning(queue[1..], actor);
      OwnedIds(queue[1..], actor);
    }
  }

  lemma {:induction false} OwnedIds(queue: seq<Operation>, actor: string)
    ensures forall id | id in Owned(queue, actor) :: HasOwned(queue, actor, id)
  {
    if queue != [] {
      OwnedIds(queue[1..], actor);
      forall id | id in Owned(queue, actor)
        ensures HasOwned(queue, actor, id)
      {
        if queue[0].actor == Some(actor) && id == queue[0].id {
          assert queue[0] in queue;
        } else {
          assert id in Owned(queue[1..], actor);
          var op :| op in queue[1..] && op.id == id && op.actor == Some(actor);
          assert op in queue;
        }
      }
    }
  }

  ghost predicate HasOwned(queue: seq<Operation>, actor: string, id: nat) {
    exists op :: op in queue && op.id == id && op.actor == Some(actor)
  }

  /** After cancelActor the queue holds exactly the operations of others. */
  lemma CancelActorLeavesOthers(s: Scheduler, actor: string)
    requires SchedulerInv(s)
    ensures SchedulerInv(CancelActor(s, actor))
    ensures forall op :: op in CancelActor(s, actor).queue <==> op in s.queue && op.actor != Some(actor)
  {
    CancelAllKeepsInv(s, Owned(s.queue, actor));
    OwnedMeaning(s.queue, actor);
  }

  lemma TimeMovesForward(s: Scheduler, advanceTime: bool)
    requires SchedulerInv(s)
    ensures SchedulerInv(AtWork(s, advanceTime)) && s.now <= AtWork(s, advanceTime).now
  {
    var t := AtWork(s, advanceTime);
    if t != s {
      var op :| op in s.queue && op.due == t.now;
      assert op !in Enabled(s.queue, s.now);
    }
  }

  lemma StepKeepsInv(s: Scheduler, choice: nat, advanceTime: bool)
    requires SchedulerInv(s)
    ensures SchedulerInv(StepScheduler(s, choice, advanceTime).0)
    ensures s.now <= StepScheduler(s, choice, advanceTime).0.now
  {
    TimeMovesForward(s, advanceTime);
    var t := AtWork(s, advanceTime);
    var enabled := Enabled(t.queue, t.now);
    if choice < |enabled| {
      assert enabled[choice] in enabled;
      RunKeepsInv(t, enabled[choice]);
    }
  }

  function AfterRun(queue: seq<Operation>, op: Operation, now: int): seq<Operation> {
    var rest := Delete(queue, op.id);
    if op.interval.Some? then rest + [op.(due := now + op.interval.value)] else rest
  }

  lemma RunKeepsEntry(queue: seq<Operation>, nextId: nat, op: Operation, now: int, e: Entry)
    requires QueueOk(queue, nextId) && op in queue && op.due <= now && EntryOk(e, queue, now, nextId)
    ensures EntryOk(e, AfterRun(queue, op, now), now, nextId)
    ensures PairOk(e, Ran(op, now))
  {
  }

  lemma RunKeepsQueue(queue: seq<Operation>, nextId: nat, op: Operation, now: int)
    requires QueueOk(queue, nextId) && op in queue && op.due <= now
    ensures QueueOk(AfterRun(queue, op, now), nextId)
    ensures EntryOk(Ran(op, now), AfterRun(queue, op, now), now, nextId)
  {
    forall i | 0 <= i < |Delete(queue, op.id)|
      ensures Delete(queue, op.id)[i].id != op.id
    {
      assert Delete(queue, op.id)[i] in Delete(queue, op.id);
    }
  }

  lemma RunKeepsInv(t: Scheduler, op: Operation)
    requires SchedulerInv(t) && op in t.queue && op.due <= t.now
    ensures SchedulerInv(t.(queue := AfterRun(t.queue, op, t.now), log := t.log + [Ran(op, t.now)]))
  {
    RunKeepsQueue(t.queue, t.nextId, op, t.now);
    forall k | 0 <= k < |t.log|
      ensures EntryOk(t.log[k], AfterRun(t.queue, op, t.now), t.now, t.nextId) && PairOk(t.log[k], Ran(op, t.now))
    {
      RunKeepsEntry(t.queue, t.nextId, op, t.now, t.log[k]);
    }
  }

  // ---- and nothing that is due is put off ----

  /** Something may run now, or time may move to the first that is due. */
  predicate HasWork(s: Scheduler, advanceTime: bool) {
    (exists op | op in s.queue :: op.due <= s.now) || (advanceTime && s.queue != [])
  }

  /** The queue after this operation ran: all others as they were, and an interval again, due its interval from now. */
  ghost predicate RanFrom(before: seq<Operation>, after: seq<Operation>, op: Operation, now: int) {
    forall q :: q in after <==> (q in before && q.id != op.id) || (op.interval.Some? && q == op.(due := now + op.interval.value))
  }

  /**
   A step runs an operation exactly if there is work, for every choice among those
   that are due; time moves only if nothing was due, and then no further than to the
   first that is; an interval is queued again and everything else stays.
   */
  lemma {:induction false} StepIsDecided(s: Scheduler, choice: nat, advanceTime: bool)
    requires SchedulerInv(s)
    ensures var (n, op) := StepScheduler(s, choice, advanceTime);
            && (choice == 0 ==> (op.Some? <==> HasWork(s, advanceTime)))
            && (op.Some? ==> op.value in s.queue && op.value.due <= n.now && RanFrom(s.queue, n.queue, op.value, n.now)
                             && n.log == s.log + [Ran(op.value, n.now)])
            && (op.None? ==> n.queue == s.queue && n.log == s.log)
            && (n.now != s.now ==> (forall q | q in s.queue :: s.now < q.due && n.now <= q.due) && exists q :: q in s.queue && q.due == n.now)
            && n.nextId == s.nextId
  {
    hide Delete, Enabled, EarliestDue;
    var t := AtWork(s, advanceTime);
    var enabled, first := Enabled(t.queue, t.now), Enabled(s.queue, s.now);
    if first == [] {
      assert forall q | q in s.queue :: q !in first;
    } else {
      assert first[0] in first;
    }
    if t != s {
      var q :| q in s.queue && q.due == t.now;
      assert q in enabled;
    }
    if choice < |enabled| {
      assert enabled[choice] in enabled;
    }
  }

  datatype SchedulerStep =
    | Queued(actor: Option<string>, delay: nat, interval: Option<int>, generation: Option<nat>)
    | Dropped(id: nat)
    | ActorDropped(owner: string)
    | Advanced(ms: nat)
    | Stepped(choice: nat, advanceTime: bool)

  function NextScheduler(s: Scheduler, step: SchedulerStep): Scheduler {
    match step
    case Queued(actor, delay, interval, generation) =>
      Enqueue(s, actor, delay, if interval.Some? && interval.value < 1 then Some(1) else interval, generation)
    case Dropped(id) => Cancel(s, id)
    case ActorDropped(actor) => CancelActor(s, actor)
    case Advanced(ms) => s.(now := s.now + ms)
    case Stepped(choice, advanceTime) => StepScheduler(s, choice, advanceTime).0
  }

  lemma NextSchedulerKeepsInv(s: Scheduler, step: SchedulerStep)
    requires SchedulerInv(s)
    ensures SchedulerInv(NextScheduler(s, step)) && s.now <= NextScheduler(s, step).now
  {
    match step
    case Queued(actor, delay, interval, generation) =>
      EnqueueKeepsInv(s, actor, delay, if interval.Some? && interval.value < 1 then Some(1) else interval, generation);
    case Dropped(id) => CancelKeepsInv(s, id);
    case ActorDropped(actor) =>
      CancelActorLeavesOthers(s, actor);
      CancelKeepsTime(s, Owned(s.queue, actor));
    case Advanced(_) =>
    case Stepped(choice, advanceTime) => StepKeepsInv(s, choice, advanceTime);
  }

  lemma {:induction false} CancelKeepsTime(s: Scheduler, ids: seq<nat>)
    ensures CancelAll(s, ids).now == s.now && CancelAll(s, ids).nextId == s.nextId
    decreases |ids|
  {
    if ids != [] {
      CancelKeepsTime(Cancel(s, ids[0]), ids[1..]);
    }
  }

  function RunScheduler(s: Scheduler, steps: seq<SchedulerStep>): Scheduler
    decreases |steps|
  {
    if steps == [] then s else RunScheduler(NextScheduler(s, steps[0]), steps[1..])
  }

  lemma {:induction false} RunSchedulerKeepsInv(s: Scheduler, steps: seq<SchedulerStep>)
    requires SchedulerInv(s)
    ensures SchedulerInv(RunScheduler(s, steps))
    decreases |steps|
  {
    if steps != [] {
      NextSchedulerKeepsInv(s, steps[0]);
      RunSchedulerKeepsInv(NextScheduler(s, steps[0]), steps[1..]);
    }
  }

  /** Over every run: each operation runs when due, once or at its interval, never after it was cancelled, and time never turns back. */
  lemma SchedulingIsSafe(steps: seq<SchedulerStep>, k: nat, m: nat)
    requires k <= m < |RunScheduler(FRESH_SCHEDULER, steps).log|
    ensures var log := RunScheduler(FRESH_SCHEDULER, steps).log;
            && (log[m].Ran? ==> log[m].op.due <= log[m].at)
            && (k < m && log[k].Ran? && log[m].Ran? ==> log[k].at <= log[m].at)
            && (k < m && log[k].Ran? && log[m].Ran? && log[k].op.id == log[m].op.id ==>
                  log[k].op.interval.Some? && log[k].at + log[k].op.interval.value <= log[m].at)
            && (k < m && log[k].Cancelled? && log[m].Ran? ==> log[m].op.id != log[k].id)
  {
    RunSchedulerKeepsInv(FRESH_SCHEDULER, steps);
    var s := RunScheduler(FRESH_SCHEDULER, steps);
    assert EntryOk(s.log[m], s.queue, s.now, s.nextId);
    assert k < m ==> PairOk(s.log[k], s.log[m]);
  }

  // ---- the world around it ----

  /** An action that really ran, and the process generation it ran for. */
  datatype Effect = Effect(generation: nat, opId: nat, at: int)

  datatype World = World(table: Table, generations: map<string, nat>, envs: set<string>, scheduler: Scheduler, effects: seq<Effect>)

  datatype WorldStep =
    | Host(step: TableStep)              // births, reuse and reboots on the bare table; a reboot cancels nothing
    | CreateActor(actor: string)
    | DropEnv(actor: string)
    | KillPid(pid: nat)
    | Queue(actor: string, delay: nat, interval: Option<int>, expected: Option<nat>)
    | CancelOperation(id: nat)
    | Advance(ms: nat)
    | RunNext(choice: nat, advanceTime: bool)

  /** The wrapper's test and then enter's: only then does the action run. */
  predicate Admits(w: World, op: Operation) {
    && op.actor.Some? && op.generation.Some?
    && op.actor.value in w.envs
    && op.actor.value in w.generations && w.generations[op.actor.value] == op.generation.value
    && LastOf(w.table.history, op.actor.value) == op.generation
    && w.table.history[op.generation.value].alive
  }

  function NextWorld(w: World, s: WorldStep): World {
    match s
    case Host(step) => w.(table := NextTable(w.table, step))
    case CreateActor(actor) =>
      if actor in w.envs then w
      else
        var last := LastOf(w.table.history, actor);
        var spawned := Spawn(w.table, actor, None);
        var adopted := last.Some? && w.table.history[last.value].alive;
        if !adopted && spawned.outcome.Err? then w.(table := spawned.table)
        else
          w.(table := if adopted then w.table else spawned.table,
             generations := w.generations[actor := if adopted then last.value else spawned.outcome.value],
             envs := w.envs + {actor})
    case DropEnv(actor) => w.(envs := w.envs - {actor})
    case KillPid(pid) =>
      var p := Current(w.table.history, w.table.boot, pid);
      if p.None? then w
      else w.(table := Kill(w.table, pid), scheduler := CancelActor(w.scheduler, w.table.history[p.value].actor))
    case Queue(actor, delay, interval, expected) =>
      var generation := if expected.Some? then expected else if actor in w.generations then Some(w.generations[actor]) else None;
      w.(scheduler := NextScheduler(w.scheduler, Queued(Some(actor), delay, interval, generation)))
    case CancelOperation(id) => w.(scheduler := Cancel(w.scheduler, id))
    case Advance(ms) => w.(scheduler := NextScheduler(w.scheduler, Advanced(ms)))
    case RunNext(choice, advanceTime) =>
      var (scheduler, op) := StepScheduler(w.scheduler, choice, advanceTime);
      var stepped := w.(scheduler := scheduler);
      if op.Some? && Admits(w, op.value) then
        stepped.(effects := w.effects + [Effect(op.value.generation.value, op.value.id, scheduler.now)])
      else stepped
  }

  ghost predicate WorldInv(w: World) {
    Inv(w.table) && SchedulerInv(w.scheduler)
  }

  const FRESH_WORLD := World(FRESH_TABLE, map[], {}, FRESH_SCHEDULER, [])

  lemma SucceedsItself(t: Table)
    ensures Succeeds(t, t)
  {
  }

  lemma NextWorldKeepsInv(w: World, s: WorldStep)
    requires WorldInv(w)
    ensures WorldInv(NextWorld(w, s)) && Succeeds(w.table, NextWorld(w, s).table)
    ensures w.effects <= NextWorld(w, s).effects
  {
    hide Inv, SchedulerInv, Succeeds, Spawn, Kill, LastOf, Current, CancelActor, Cancel, StepScheduler, NextScheduler;
    SucceedsItself(w.table);
    match s
    case Host(step) => NextTableKeepsInv(w.table, step);
    case CreateActor(actor) => SpawnKeepsInv(w.table, actor, None);
    case KillPid(pid) =>
      NextTableKeepsInv(w.table, Killed(pid));
      var p := Current(w.table.history, w.table.boot, pid);
      if p.Some? {
        CancelActorLeavesOthers(w.scheduler, w.table.history[p.value].actor);
      }
    case Queue(actor, delay, interval, expected) =>
      var generation := if expected.Some? then expected else if actor in w.generations then Some(w.generations[actor]) else None;
      NextSchedulerKeepsInv(w.scheduler, Queued(Some(actor), delay, interval, generation));
    case CancelOperation(id) => CancelKeepsInv(w.scheduler, id);
    case Advance(ms) => NextSchedulerKeepsInv(w.scheduler, Advanced(ms));
    case RunNext(choice, advanceTime) => StepKeepsInv(w.scheduler, choice, advanceTime);
    case DropEnv(_) =>
  }

  /** Whatever runs, runs for a living process of this boot, the latest of its actor. */
  lemma EffectsAreLive(w: World, s: WorldStep)
    requires WorldInv(w) && NextWorld(w, s).effects != w.effects
    ensures var e := NextWorld(w, s).effects[|w.effects|];
            && NextWorld(w, s).effects == w.effects + [e]
            && e.generation < |w.table.history|
            && var p := w.table.history[e.generation];
            p.alive && p.boot == w.table.boot && LastOf(w.table.history, p.actor) == Some(e.generation)
            && Current(w.table.history, w.table.boot, p.pid) == Some(e.generation)
  {
    var e := NextWorld(w, s).effects[|w.effects|];
    ProbeTellsLife(w.table, e.generation);
  }

  /**
   The converse: what the scheduler runs has its effect exactly if it was queued for a
   generation that still lives, is the latest of its actor, and is the one of the
   actor's environment.
   */
  lemma {:induction false} LiveWorkRuns(w: World, choice: nat, advanceTime: bool)
    requires WorldInv(w)
    ensures var n := NextWorld(w, RunNext(choice, advanceTime));
            var op := StepScheduler(w.scheduler, choice, advanceTime).1;
            && n.effects == w.effects
               + (if op.Some? && op.value.actor.Some? && op.value.generation.Some? && IsRunning(w, op.value.actor.value, op.value.generation.value)
                  then [Effect(op.value.generation.value, op.value.id, n.scheduler.now)] else [])
            && n.table == w.table && n.envs == w.envs && n.generations == w.generations
  {
    hide StepScheduler;
    var op := StepScheduler(w.scheduler, choice, advanceTime).1;
    if op.Some? && op.value.actor.Some? && op.value.generation.Some? {
      var g := op.value.generation.value;
      if g < |w.table.history| && w.table.history[g].alive && w.table.history[g].actor == op.value.actor.value {
        ProbeTellsLife(w.table, g);
      }
    }
  }

  /** Queued work goes last, with an id of its own, due after its delay, for the generation asked for or else the actor's. */
  lemma QueuedForGeneration(w: World, actor: string, delay: nat, interval: Option<int>, expected: Option<nat>)
    requires WorldInv(w)
    ensures var n := NextWorld(w, Queue(actor, delay, interval, expected));
            && |n.scheduler.queue| == |w.scheduler.queue| + 1 && w.scheduler.queue <= n.scheduler.queue
            && var op := n.scheduler.queue[|w.scheduler.queue|];
            && op.actor == Some(actor) && op.due == w.scheduler.now + delay
            && (forall q | q in w.scheduler.queue :: q.id < op.id)
            && (expected.Some? ==> op.generation == expected)
            && (expected.None? && actor in w.generations ==> op.generation == Some(w.generations[actor]))
            && (interval.None? <==> op.interval.None?) && (op.interval.Some? ==> 1 <= op.interval.value && interval.value <= op.interval.value)
            && n.effects == w.effects && n.table == w.table
  {
  }

  /** An actor's environment is made for its living process, or for a newborn, and is refused only if no PID is free for that. */
  lemma ActorIsRunning(w: World, actor: string)
    requires WorldInv(w) && actor !in w.envs
    ensures var n := NextWorld(w, CreateActor(actor));
            && (actor in n.envs <==> !NobodyIs(w.table, actor) || NobodyHas(w.table, w.table.pid + 1))
            && (actor in n.envs ==> actor in n.generations && IsRunning(n, actor, n.generations[actor]))
            && (!NobodyIs(w.table, actor) ==> n.table == w.table)
  {
    hide LastOf;
    SpawnIsDecided(w.table, actor, None);
    var last := LastOf(w.table.history, actor);
    if !(last.Some? && w.table.history[last.value].alive) {
      forall i | 0 <= i < |w.table.history| && w.table.history[i].alive ensures w.table.history[i].actor != actor {
        if w.table.history[i].actor == actor {
          ProbeTellsLife(w.table, i);
        }
      }
    }
  }

  /** The generation is alive, of this actor, and the one its environment was made for. */
  predicate IsRunning(w: World, actor: string, g: nat) {
    && g < |w.table.history| && w.table.history[g].alive && w.table.history[g].actor == actor
    && actor in w.envs && actor in w.generations && w.generations[actor] == g
  }

  /** The end of a process by its PID leaves nothing of its actor queued. */
  lemma KillEmptiesQueue(w: World, pid: nat, i: nat)
    requires WorldInv(w) && Current(w.table.history, w.table.boot, pid) == Some(i)
    ensures var n := NextWorld(w, KillPid(pid));
            !n.table.history[i].alive && forall op | op in n.scheduler.queue :: op.actor != Some(w.table.history[i].actor)
  {
    CancelActorLeavesOthers(w.scheduler, w.table.history[i].actor);
  }

  function RunWorld(w: World, steps: seq<WorldStep>): World
    decreases |steps|
  {
    if steps == [] then w else RunWorld(NextWorld(w, steps[0]), steps[1..])
  }

  /** Dead generations stay dead: whatever they had queued never runs again, PID reuse, restarts and reboots included. */
  lemma {:induction false} DeadGenerationsNeverRun(w: World, steps: seq<WorldStep>, g: nat)
    requires WorldInv(w) && g < |w.table.history| && !w.table.history[g].alive
    ensures var n := RunWorld(w, steps);
            && w.effects <= n.effects && WorldInv(n)
            && g < |n.table.history| && !n.table.history[g].alive
            && forall k | |w.effects| <= k < |n.effects| :: n.effects[k].generation != g
    decreases |steps|
  {
    if steps != [] {
      NextWorldKeepsInv(w, steps[0]);
      if NextWorld(w, steps[0]).effects != w.effects {
        EffectsAreLive(w, steps[0]);
      }
      DeadGenerationsNeverRun(NextWorld(w, steps[0]), steps[1..], g);
    }
  }

  lemma {:induction false} RunWorldKeepsInv(w: World, steps: seq<WorldStep>)
    requires WorldInv(w)
    ensures WorldInv(RunWorld(w, steps))
    decreases |steps|
  {
    if steps != [] {
      NextWorldKeepsInv(w, steps[0]);
      RunWorldKeepsInv(NextWorld(w, steps[0]), steps[1..]);
    }
  }

  /** The same in every run of a new world: from the moment a generation is dead it has no effect. */
  lemma {:induction false} NoEffectOfTheDead(before: seq<WorldStep>, after: seq<WorldStep>, g: nat)
    requires var w := RunWorld(FRESH_WORLD, before); g < |w.table.history| && !w.table.history[g].alive
    ensures var w, n := RunWorld(FRESH_WORLD, before), RunWorld(RunWorld(FRESH_WORLD, before), after);
            w.effects <= n.effects && forall k | |w.effects| <= k < |n.effects| :: n.effects[k].generation != g
  {
    RunWorldKeepsInv(FRESH_WORLD, before);
    DeadGenerationsNeverRun(RunWorld(FRESH_WORLD, before), after, g);
  }

  /** And every effect of a new world's run is of a process that lived then, the latest of its actor. */
  lemma {:induction false} EveryEffectIsLive(before: seq<WorldStep>, s: WorldStep)
    requires var w := RunWorld(FRESH_WORLD, before); NextWorld(w, s).effects != w.effects
    ensures var w := RunWorld(FRESH_WORLD, before);
            var e := NextWorld(w, s).effects[|w.effects|];
            && NextWorld(w, s).effects == w.effects + [e] && e.generation < |w.table.history|
            && var p := w.table.history[e.generation];
               p.alive && p.boot == w.table.boot && LastOf(w.table.history, p.actor) == Some(e.generation)
  {
    RunWorldKeepsInv(FRESH_WORLD, before);
    EffectsAreLive(RunWorld(FRESH_WORLD, before), s);
  }

  // ---- the scheduler object ----

  class SimScheduler {
    var now: int
    var queue: seq<Operation>
    var nextId: nat
    ghost var log: seq<Entry>

    ghost function View(): Scheduler
      reads this
    {
      Scheduler(now, queue, nextId, log)
    }

    constructor ()
      ensures View() == FRESH_SCHEDULER
    {
      now, queue, nextId, log := 1_700_000_000_000, [], 0, [];
    }

    method EnqueueOperation(actor: Option<string>, delay: nat, interval: Option<int>, generation: Option<nat>) returns (id: nat)
      modifies this
      ensures View() == Enqueue(old(View()), actor, delay, interval, generation) && id == nextId
    {
      nextId := nextId + 1;
      queue := queue + [Operation(nextId, actor, now + delay, interval, generation)];
      id := nextId;
    }

    method CancelOne(id: nat)
      modifies this`queue, this`log
      ensures View() == Cancel(old(View()), id)
    {
      if Find(queue, id).None? {
        return;
      }
      queue := Delete(queue, id);
      log := log + [Cancelled(id)];
    }

    method CancelOwned(actor: string)
      modifies this`queue, this`log
      ensures View() == CancelActor(old(View()), actor)
    {
      var ids := Owned(queue, actor);
      for i := 0 to |ids|
        invariant CancelAll(View(), ids[i..]) == CancelActor(old(View()), actor)
      {
        assert ids[i..][1..] == ids[i + 1..];
        CancelOne(ids[i]);
      }
    }

    /** The part of step() between its checkpoints: pick, take from the queue, record. */
    method Step(choice: nat, advanceTime: bool) returns (op: Option<Operation>)
      modifies this
      ensures (View(), op) == StepScheduler(old(View()), choice, advanceTime)
    {
      hide Enabled, EarliestDue, Delete;
      var enabled := Enabled(queue, now);
      if enabled == [] && advanceTime && queue != [] {
        now := EarliestDue(queue);
        enabled := Enabled(queue, now);
      }
      if |enabled| <= choice {
        return None;
      }
      var selected := enabled[choice];
      queue := Delete(queue, selected.id);
      if selected.interval.Some? {
        queue := queue + [selected.(due := now + selected.interval.value)];
      }
      log := log + [Ran(selected, now)];
      op := Some(selected);
    }
  }
}
