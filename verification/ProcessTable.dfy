/**
 The processes of a simulated host: births, deaths, PID reuse and reboots
 (sim/process-table.ts). A process is named by its place in the history.
 */
module ProcessTable {
  import opened Wrappers

  datatype Process = Process(actor: string, pid: nat, boot: nat, birth: nat, alive: bool)

  datatype Table = Table(boot: nat, birth: nat, pid: nat, history: seq<Process>)

  const FRESH_TABLE := Table(1, 0, 100, [])

  datatype SpawnError = ActorLive | PidLive | NotDead | NoSuchProcess

  /** generationKey */
  function Key(p: Process): (nat, nat, nat) {
    (p.boot, p.pid, p.birth)
  }

  /** findLast by actor: the latest process of that actor, dead or alive. */
  function LastOf(history: seq<Process>, actor: string): (r: Option<nat>)
    ensures r.Some? ==> r.value < |history| && history[r.value].actor == actor
    ensures r.Some? ==> forall i | r.value < i < |history| :: history[i].actor != actor
    ensures r.None? ==> forall i | 0 <= i < |history| :: history[i].actor != actor
  {
    if history == [] then None
    else if history[|history| - 1].actor == actor then Some(|history| - 1)
    else LastOf(history[..|history| - 1], actor)
  }

  predicate IsCurrent(p: Process, boot: nat, pid: nat) {
    p.pid == pid && p.boot == boot && p.alive
  }

  function Current(history: seq<Process>, boot: nat, pid: nat): (r: Option<nat>)
    ensures r.Some? ==> r.value < |history| && IsCurrent(history[r.value], boot, pid)
    ensures r.None? ==> forall i | 0 <= i < |history| :: !IsCurrent(history[i], boot, pid)
  {
    if history == [] then None
    else if IsCurrent(history[|history| - 1], boot, pid) then Some(|history| - 1)
    else Current(history[..|history| - 1], boot, pid)
  }

  /** A refused automatic PID is used up all the same. */
  datatype Spawned = Spawned(table: Table, outcome: Result<nat, SpawnError>)

  function Spawn(t: Table, actor: string, pid: Option<nat>): Spawned {
    var last := LastOf(t.history, actor);
    if last.Some? && t.history[last.value].alive then Spawned(t, Err(ActorLive))
    else
      var counted := if pid.None? then t.(pid := t.pid + 1) else t;
      var chosen := pid.GetOr(t.pid + 1);
      if Current(t.history, t.boot, chosen).Some? then Spawned(counted, Err(PidLive))
      else Spawned(counted.(birth := t.birth + 1, history := t.history + [Process(actor, chosen, t.boot, t.birth + 1, true)]),
                   Ok(|t.history|))
  }

  function Kill(t: Table, pid: nat): Table {
    var p := Current(t.history, t.boot, pid);
    if p.None? then t else t.(history := t.history[p.value := t.history[p.value].(alive := false)])
  }

  function Reuse(t: Table, deadActor: string, newcomer: string): Spawned {
    var dead := LastOf(t.history, deadActor);
    if dead.None? || t.history[dead.value].alive then Spawned(t, Err(NotDead))
    else Spawn(t, newcomer, Some(t.history[dead.value].pid))
  }

  function Buried(history: seq<Process>): seq<Process> {
    seq(|history|, i requires 0 <= i < |history| => history[i].(alive := false))
  }

  function Reboot(t: Table): Table {
    t.(history := Buried(t.history), boot := t.boot + 1)
  }

  // ---- what every reachable table keeps ----

  ghost predicate Inv(t: Table) {
    // the birth token numbers the whole history, so no key comes twice
    && t.birth == |t.history|
    && (forall i | 0 <= i < |t.history| :: t.history[i].birth == i + 1 && t.history[i].boot <= t.boot)
    // the living belong to this boot, one to an actor and one to a PID
    && (forall i | 0 <= i < |t.history| && t.history[i].alive :: t.history[i].boot == t.boot)
    && (forall i, j | 0 <= i < j < |t.history| && t.history[i].alive :: t.history[j].actor != t.history[i].actor)
    && (forall i, j | 0 <= i < j < |t.history| && t.history[i].alive && t.history[j].alive :: t.history[i].pid != t.history[j].pid)
  }

  /** History only grows, and death is final. */
  predicate Succeeds(a: Table, b: Table) {
    && |a.history| <= |b.history| && a.boot <= b.boot
    && forall i | 0 <= i < |a.history| ::
         Key(a.history[i]) == Key(b.history[i]) && a.history[i].actor == b.history[i].actor
         && (b.history[i].alive ==> a.history[i].alive)
  }

  datatype TableStep =
    | Born(actor: string, wanted: Option<nat>)
    | Killed(pid: nat)
    | Reused(deadActor: string, newcomer: string)
    | Rebooted

  function NextTable(t: Table, s: TableStep): Table {
    match s
    case Born(actor, pid) => Spawn(t, actor, pid).table
    case Killed(pid) => Kill(t, pid)
    case Reused(deadActor, newcomer) => Reuse(t, deadActor, newcomer).table
    case Rebooted => Reboot(t)
  }

  /** A newborn whose actor and PID no living process has. */
  lemma BirthKeepsInv(t: Table, actor: string, pid: nat, counter: nat)
    requires Inv(t) && Current(t.history, t.boot, pid).None?
    requires LastOf(t.history, actor).Some? ==> !t.history[LastOf(t.history, actor).value].alive
    ensures var grown := t.(birth := t.birth + 1, pid := counter, history := t.history + [Process(actor, pid, t.boot, t.birth + 1, true)]);
            Inv(grown) && Succeeds(t, grown)
  {
    hide LastOf, Current;
    var n := |t.history|;
    var grown := t.history + [Process(actor, pid, t.boot, t.birth + 1, true)];
    NobodyLives(t, actor, pid);
    assert forall i | 0 <= i < n :: grown[i] == t.history[i];
  }

  lemma CountKeepsInv(t: Table, counter: nat)
    requires Inv(t)
    ensures Inv(t.(pid := counter)) && Succeeds(t, t.(pid := counter))
  {
  }

  lemma NobodyLives(t: Table, actor: string, pid: nat)
    requires Inv(t) && Current(t.history, t.boot, pid).None?
    requires LastOf(t.history, actor).Some? ==> !t.history[LastOf(t.history, actor).value].alive
    ensures forall i | 0 <= i < |t.history| && t.history[i].alive :: t.history[i].actor != actor && t.history[i].pid != pid
  {
    forall i | 0 <= i < |t.history| && t.history[i].alive ensures t.history[i].actor != actor && t.history[i].pid != pid {
      assert !IsCurrent(t.history[i], t.boot, pid);
    }
  }

  lemma SpawnKeepsInv(t: Table, actor: string, pid: Option<nat>)
    requires Inv(t)
    ensures Inv(Spawn(t, actor, pid).table) && Succeeds(t, Spawn(t, actor, pid).table)
  {
    hide LastOf, Current, Inv, Succeeds;
    var last, chosen := LastOf(t.history, actor), pid.GetOr(t.pid + 1);
    var counter := if pid.None? then t.pid + 1 else t.pid;
    CountKeepsInv(t, t.pid);
    CountKeepsInv(t, counter);
    if !(last.Some? && t.history[last.value].alive) && Current(t.history, t.boot, chosen).None? {
      BirthKeepsInv(t, actor, chosen, counter);
    }
  }

  lemma NextTableKeepsInv(t: Table, s: TableStep)
    requires Inv(t)
    ensures Inv(NextTable(t, s)) && Succeeds(t, NextTable(t, s))
  {
    match s
    case Born(actor, pid) => SpawnKeepsInv(t, actor, pid);
    case Reused(deadActor, newcomer) =>
      var dead := LastOf(t.history, deadActor);
      if dead.Some? && !t.history[dead.value].alive {
        SpawnKeepsInv(t, newcomer, Some(t.history[dead.value].pid));
      }
    case Killed(_) | Rebooted =>
  }

  function RunTable(t: Table, steps: seq<TableStep>): Table
    decreases |steps|
  {
    if steps == [] then t else RunTable(NextTable(t, steps[0]), steps[1..])
  }

  lemma {:induction false} RunTableKeepsInv(t: Table, steps: seq<TableStep>)
    requires Inv(t)
    ensures Inv(RunTable(t, steps)) && Succeeds(t, RunTable(t, steps))
    decreases |steps|
  {
    if steps != [] {
      NextTableKeepsInv(t, steps[0]);
      RunTableKeepsInv(NextTable(t, steps[0]), steps[1..]);
    }
  }

  /** Over every run: one live process to an actor and to a PID, all of this boot, and no generation key twice in the whole history. */
  lemma GenerationsStayApart(steps: seq<TableStep>, i: nat, j: nat)
    requires i < j < |RunTable(FRESH_TABLE, steps).history|
    ensures var t := RunTable(FRESH_TABLE, steps);
            && Key(t.history[i]) != Key(t.history[j])
            && (t.history[i].alive && t.history[j].alive ==>
                  t.history[i].actor != t.history[j].actor && t.history[i].pid != t.history[j].pid)
            && (t.history[i].alive ==> t.history[i].boot == t.boot)
  {
    RunTableKeepsInv(FRESH_TABLE, steps);
  }

  /** The probe of a PID: found exactly when a process of this boot lives there, and then with that process's token. */
  lemma ProbeTellsLife(t: Table, i: nat)
    requires Inv(t) && i < |t.history| && t.history[i].alive
    ensures Current(t.history, t.boot, t.history[i].pid) == Some(i)
    ensures LastOf(t.history, t.history[i].actor) == Some(i)
  {
  }

  predicate NobodyIs(t: Table, actor: string) {
    forall i | 0 <= i < |t.history| && t.history[i].alive :: t.history[i].actor != actor
  }

  predicate NobodyHas(t: Table, pid: nat) {
    forall i | 0 <= i < |t.history| && t.history[i].alive :: t.history[i].pid != pid
  }

  /** A spawn succeeds exactly if nobody alive is that actor or has that PID, and then adds one living process of this boot. */
  lemma SpawnIsDecided(t: Table, actor: string, wanted: Option<nat>)
    requires Inv(t)
    ensures var r, pid := Spawn(t, actor, wanted), if wanted.Some? then wanted.value else t.pid + 1;
            && (r.outcome.Ok? <==> NobodyIs(t, actor) && NobodyHas(t, pid))
            && (r.outcome == Err(ActorLive) <==> !NobodyIs(t, actor))
            && (r.outcome.Ok? ==>
                  && r.outcome.value == |t.history| && r.table.boot == t.boot
                  && r.table.history == t.history + [Process(actor, pid, t.boot, t.birth + 1, true)])
            && (r.outcome.Err? ==> r.table.history == t.history && r.table.boot == t.boot)
            && r.table.pid == (if wanted.None? && NobodyIs(t, actor) then t.pid + 1 else t.pid)
  {
    hide LastOf, Current;
    var pid, last := if wanted.Some? then wanted.value else t.pid + 1, LastOf(t.history, actor);
    if last.Some? && t.history[last.value].alive {
      assert !NobodyIs(t, actor);
    } else {
      forall i | 0 <= i < |t.history| && t.history[i].alive ensures t.history[i].actor != actor {
        assert last.Some? && i < last.value ==> t.history[last.value].actor != t.history[i].actor;
      }
      assert Current(t.history, t.boot, pid).None? ==> NobodyHas(t, pid) by {
        if Current(t.history, t.boot, pid).None? {
          forall i | 0 <= i < |t.history| && t.history[i].alive ensures t.history[i].pid != pid {
            assert !IsCurrent(t.history[i], t.boot, pid);
          }
        }
      }
    }
  }

  /** A kill ends exactly the living process with the PID, a reboot everybody, and neither forgets anyone. */
  lemma EndsAreDecided(t: Table, pid: nat)
    requires Inv(t)
    ensures var killed, rebooted := Kill(t, pid), Reboot(t);
            && |killed.history| == |rebooted.history| == |t.history|
            && killed.boot == t.boot && rebooted.boot == t.boot + 1
            && forall i | 0 <= i < |t.history| ::
                 && (killed.history[i].alive <==> t.history[i].alive && t.history[i].pid != pid)
                 && !rebooted.history[i].alive
                 && Key(killed.history[i]) == Key(rebooted.history[i]) == Key(t.history[i])
                 && killed.history[i].actor == rebooted.history[i].actor == t.history[i].actor
  {
    hide Current;
    var p := Current(t.history, t.boot, pid);
    if p.None? {
      forall i | 0 <= i < |t.history| && t.history[i].alive ensures t.history[i].pid != pid {
        assert !IsCurrent(t.history[i], t.boot, pid);
      }
    }
  }

  // ---- the object ----

  class Host {
    var boot: nat
    var birth: nat
    var pid: nat
    var history: seq<Process>

    ghost function View(): Table
      reads this
    {
      Table(boot, birth, pid, history)
    }

    constructor ()
      ensures View() == FRESH_TABLE
    {
      boot, birth, pid, history := 1, 0, 100, [];
    }

    method SpawnProcess(actor: string, wanted: Option<nat>) returns (r: Result<nat, SpawnError>)
      modifies this
      ensures Spawned(View(), r) == Spawn(old(View()), actor, wanted)
    {
      var last := LastOf(history, actor);
      if last.Some? && history[last.value].alive {
        return Err(ActorLive);
      }
      var chosen;
      if wanted.Some? {
        chosen := wanted.value;
      } else {
        pid := pid + 1;
        chosen := pid;
      }
      if Current(history, boot, chosen).Some? {
        return Err(PidLive);
      }
      birth := birth + 1;
      history := history + [Process(actor, chosen, boot, birth, true)];
      r := Ok(|history| - 1);
    }

    method KillProcess(target: nat) returns (ok: bool)
      modifies this`history
      ensures View() == Kill(old(View()), target)
      ensures ok == Current(old(history), boot, target).Some?
    {
      var p := Current(history, boot, target);
      if p.None? {
        return false;
      }
      history := history[p.value := history[p.value].(alive := false)];
      ok := true;
    }

    method ReusePid(deadActor: string, newcomer: string) returns (r: Result<nat, SpawnError>)
      modifies this
      ensures Spawned(View(), r) == Reuse(old(View()), deadActor, newcomer)
    {
      var dead := LastOf(history, deadActor);
      if dead.None? || history[dead.value].alive {
        return Err(NotDead);
      }
      r := SpawnProcess(newcomer, Some(history[dead.value].pid));
    }

    /** reboot: kill by PID, one living process after another, then a new boot id. */
    method RebootHost()
      requires Inv(View())
      modifies this
      ensures View() == Reboot(old(View()))
    {
      hide LastOf, Current;
      ghost var before := history;
      for i := 0 to |history|
        invariant |history| == |before| && boot == old(boot) && birth == old(birth) && pid == old(pid)
        invariant forall k | 0 <= k < i :: history[k] == before[k].(alive := false)
        invariant forall k | i <= k < |history| :: history[k] == before[k]
        invariant Inv(View())
      {
        if history[i].alive {
          ProbeTellsLife(View(), i);
          NextTableKeepsInv(View(), Killed(history[i].pid));
          var ok := KillProcess(history[i].pid);
        }
      }
      assert history == Buried(before);
      boot := boot + 1;
    }
  }
}
