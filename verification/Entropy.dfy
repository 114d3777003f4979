/**
 The single stream of choices of a simulated run, its recording and its two
 kinds of replay (sim/entropy.ts).
 */
module Entropy {
  import opened Wrappers
  import opened Arithmetic

  const MAX_SAFE: int := 0x1F_FFFF_FFFF_FFFF

  const SCHEDULE: string := "schedule"

  datatype Request = Request(tag: string, bound: int, enabled: Option<seq<string>>)

  datatype Choice = Choice(index: nat, tag: string, bound: int, value: int, enabled: Option<seq<string>>)

  /** Where the values come from: a tape, a full recording, or a tape with recorded scheduler choices. */
  datatype Source = Source(tape: seq<int>, replay: Option<seq<Choice>>, schedule: Option<seq<int>>)

  datatype Failure = BadBound | ReplayExhausted | TapeExhausted | ScheduleExhausted | Diverged(index: nat)

  datatype State = State(cursor: nat, scheduleCursor: nat, choices: seq<Choice>)

  const START := State(0, 0, [])

  /** A refused choice may still have moved the cursors. */
  datatype Chosen = Chosen(state: State, outcome: Result<int, Failure>)

  predicate Scheduled(src: Source, r: Request) {
    r.tag == SCHEDULE && src.schedule.Some?
  }

  function ChooseNext(src: Source, s: State, r: Request): Chosen {
    if r.bound < 1 || MAX_SAFE < r.bound then Chosen(s, Err(BadBound))
    else
      var i := s.cursor;
      var moved := s.(cursor := i + 1);
      if src.replay.Some? && |src.replay.value| <= i then Chosen(moved, Err(ReplayExhausted))
      else if src.replay.None? && |src.tape| <= i then Chosen(moved, Err(TapeExhausted))
      else
        var k := s.scheduleCursor;
        var ahead := if Scheduled(src, r) then moved.(scheduleCursor := k + 1) else moved;
        if Scheduled(src, r) && |src.schedule.value| <= k then Chosen(ahead, Err(ScheduleExhausted))
        else
          var value := if src.replay.Some? then src.replay.value[i].value
                       else if Scheduled(src, r) then src.schedule.value[k]
                       else src.tape[i] % r.bound;
          var choice := Choice(i, r.tag, r.bound, value, r.enabled);
          if value < 0 || r.bound <= value || (src.replay.Some? && src.replay.value[i] != choice) then Chosen(ahead, Err(Diverged(i)))
          else Chosen(ahead.(choices := s.choices + [choice]), Ok(value))
  }

  predicate Complete(src: Source, s: State) {
    && (src.replay.Some? ==> s.cursor == |src.replay.value|)
    && (src.schedule.Some? ==> s.scheduleCursor == |src.schedule.value|)
  }

  /** The JavaScript remainder, brought back into [0, bound). */
  method Reduce(raw: int, bound: int) returns (value: int)
    requires 1 <= bound
    ensures value == raw % bound
  {
    var remainder := if raw >= 0 then raw % bound else -(-raw % bound);
    var shifted := remainder + bound;
    ReduceIsEuclidean(raw, bound);
    value := shifted % bound;
  }

  lemma ReduceIsEuclidean(raw: int, bound: int)
    requires 1 <= bound
    ensures ((if raw >= 0 then raw % bound else -(-raw % bound)) + bound) % bound == raw % bound
  {
    var r := if raw >= 0 then raw % bound else -(-raw % bound);
    var q := if raw >= 0 then raw / bound else -(-raw / bound);
    assert raw == q * bound + r && -bound < r < bound;
    if r < 0 {
      RemainderIsUnique(raw, q - 1, bound, r + bound);
      RemainderIsUnique(r + bound, 0, bound, r + bound);
    } else {
      RemainderIsUnique(raw, q, bound, r);
      RemainderIsUnique(r + bound, 1, bound, r);
    }
  }

  class EntropyStream {
    const source: Source
    var cursor: nat
    var scheduleCursor: nat
    var choices: seq<Choice>

    ghost function View(): State
      reads this
    {
      State(cursor, scheduleCursor, choices)
    }

    constructor (source: Source)
      ensures this.source == source && View() == START
    {
      this.source := source;
      cursor, scheduleCursor, choices := 0, 0, [];
    }

    method Choose(tag: string, bound: int, enabled: Option<seq<string>>) returns (outcome: Result<int, Failure>)
      modifies this
      ensures Chosen(View(), outcome) == ChooseNext(source, old(View()), Request(tag, bound, enabled))
    {
      if bound < 1 || MAX_SAFE < bound {
        return Err(BadBound);
      }
      var index := cursor;
      cursor := cursor + 1;
      var expected: Option<Choice> := None;
      if source.replay.Some? {
        if |source.replay.value| <= index {
          return Err(ReplayExhausted);
        }
        expected := Some(source.replay.value[index]);
      } else if |source.tape| <= index {
        return Err(TapeExhausted);
      }
      var scheduled: Option<int> := None;
      if tag == SCHEDULE && source.schedule.Some? {
        var k := scheduleCursor;
        scheduleCursor := scheduleCursor + 1;
        if |source.schedule.value| <= k {
          return Err(ScheduleExhausted);
        }
        scheduled := Some(source.schedule.value[k]);
      }
      var value;
      if expected.Some? {
        value := expected.value.value;
      } else if scheduled.Some? {
        value := scheduled.value;
      } else {
        value := Reduce(source.tape[index], bound);
      }
      var choice := Choice(index, tag, bound, value, enabled);
      if value < 0 || bound <= value || (expected.Some? && expected.value != choice) {
        return Err(Diverged(index));
      }
      choices := choices + [choice];
      return Ok(value);
    }

    method AssertReplayComplete() returns (ok: bool)
      ensures ok == Complete(source, View())
    {
      ok := (source.replay.None? || cursor == |source.replay.value|)
            && (source.schedule.None? || scheduleCursor == |source.schedule.value|);
    }
  }

  // ---- deterministic clients ----

  function Values(choices: seq<Choice>): seq<int> {
    seq(|choices|, i requires 0 <= i < |choices| => choices[i].value)
  }

  /** A client that asks by what it has been answered so far, and at some point asks no more. */
  type Client = seq<int> -> Option<Request>

  /** n turns of a client, or fewer if it asks no more. */
  function Play(src: Source, client: Client, n: nat): Result<State, Failure> {
    if n == 0 then Ok(START)
    else match Play(src, client, n - 1)
      case Err(e) => Err(e)
      case Ok(s) =>
        match client(Values(s.choices))
        case None => Ok(s)
        case Some(r) =>
          var c := ChooseNext(src, s, r);
          if c.outcome.Ok? then Ok(c.state) else Err(c.outcome.error)
  }

  function ScheduleValues(choices: seq<Choice>): seq<int> {
    if choices == [] then []
    else
      var last := choices[|choices| - 1];
      ScheduleValues(choices[..|choices| - 1]) + if last.tag == SCHEDULE then [last.value] else []
  }

  lemma {:induction false} ScheduleValuesPrefix(choices: seq<Choice>, k: nat)
    requires k <= |choices|
    ensures ScheduleValues(choices[..k]) <= ScheduleValues(choices)
    decreases |choices|
  {
    if k < |choices| {
      ScheduleValuesPrefix(choices[..|choices| - 1], k);
      assert choices[..|choices| - 1][..k] == choices[..k];
    } else {
      assert choices[..k] == choices;
    }
  }

  /** A run in progress has asked as often as it has been answered. */
  lemma {:induction false} PlayShape(src: Source, client: Client, n: nat)
    requires Play(src, client, n).Ok?
    ensures var s := Play(src, client, n).value;
            && s.cursor == |s.choices|
            && (forall i | 0 <= i < |s.choices| :: s.choices[i].index == i && 0 <= s.choices[i].value < s.choices[i].bound)
            && s.scheduleCursor == (if src.schedule.Some? then |ScheduleValues(s.choices)| else 0)
            && (n > 0 ==> Play(src, client, n - 1).Ok? && Play(src, client, n - 1).value.choices <= s.choices)
  {
    if n > 0 {
      PlayShape(src, client, n - 1);
      var before, s := Play(src, client, n - 1).value, Play(src, client, n).value;
      if s != before {
        assert s.choices[..|before.choices|] == before.choices;
      }
    }
  }

  /** The replay repeats `all`: in full, or its scheduler choices over the same tape. */
  predicate Repeats(src: Source, again: Source, all: seq<Choice>) {
    && src.replay.None? && src.schedule.None?
    && (again.replay == Some(all) ==> again.schedule.None?)
    && (again.replay != Some(all) ==> again.replay.None? && again.tape == src.tape && again.schedule == Some(ScheduleValues(all)))
  }

  /** One turn of the recording, taken again. */
  lemma TurnFollows(src: Source, again: Source, s: State, t: State, r: Request, all: seq<Choice>)
    requires Repeats(src, again, all) && s.choices == t.choices && s.cursor == t.cursor == |s.choices|
    requires t.scheduleCursor == if again.schedule.Some? then |ScheduleValues(s.choices)| else 0
    requires ChooseNext(src, s, r).outcome.Ok? && ChooseNext(src, s, r).state.choices <= all
    ensures ChooseNext(again, t, r).outcome.Ok? && ChooseNext(again, t, r).state.choices == ChooseNext(src, s, r).state.choices
  {
    var i, after := |s.choices|, ChooseNext(src, s, r).state.choices;
    assert after[i] == all[i];
    if again.schedule.Some? && r.tag == SCHEDULE {
      ScheduleValuesPrefix(all, i + 1);
      assert all[..i + 1] == after && after[..i] == s.choices;
      var k := |ScheduleValues(s.choices)|;
      assert ScheduleValues(after) == ScheduleValues(s.choices) + [after[i].value];
      assert ScheduleValues(all)[k] == ScheduleValues(after)[k];
    }
  }

  lemma {:induction false} ReplayFollows(src: Source, again: Source, client: Client, n: nat, all: seq<Choice>)
    requires Repeats(src, again, all) && Play(src, client, n).Ok? && Play(src, client, n).value.choices <= all
    ensures Play(again, client, n).Ok? && Play(again, client, n).value.choices == Play(src, client, n).value.choices
  {
    if n > 0 {
      PlayShape(src, client, n);
      PlayShape(src, client, n - 1);
      ReplayFollows(src, again, client, n - 1, all);
      PlayShape(again, client, n - 1);
      var s, t := Play(src, client, n - 1).value, Play(again, client, n - 1).value;
      var asked := client(Values(s.choices));
      if asked.Some? {
        TurnFollows(src, again, s, t, asked.value, all);
      }
    }
  }

  /**
   Record and replay. For every deterministic client, playing back the recorded
   choices, or the same tape with only the recorded scheduler choices, gives the
   same choices, with no failure and nothing left over.
   */
  lemma ReplayEqualsRecording(tape: seq<int>, other: seq<int>, client: Client, n: nat)
    requires Play(Source(tape, None, None), client, n).Ok?
    ensures var recorded := Play(Source(tape, None, None), client, n).value.choices;
            var full := Source(other, Some(recorded), None);
            var partial := Source(tape, None, Some(ScheduleValues(recorded)));
            && Play(full, client, n).Ok? && Play(full, client, n).value.choices == recorded
            && Complete(full, Play(full, client, n).value)
            && Play(partial, client, n).Ok? && Play(partial, client, n).value.choices == recorded
            && Complete(partial, Play(partial, client, n).value)
  {
    var src := Source(tape, None, None);
    var recorded := Play(src, client, n).value.choices;
    var full, partial := Source(other, Some(recorded), None), Source(tape, None, Some(ScheduleValues(recorded)));
    ReplayFollows(src, full, client, n, recorded);
    ReplayFollows(src, partial, client, n, recorded);
    PlayShape(full, client, n);
    PlayShape(partial, client, n);
  }

  /** A full-choice replay stays on its recording, whoever asks; one that completes is the recording. */
  lemma {:induction false} CompleteReplayIsRecording(src: Source, client: Client, n: nat)
    requires src.replay.Some? && Play(src, client, n).Ok?
    ensures var s := Play(src, client, n).value;
            && s.choices <= src.replay.value
            && (Complete(src, s) ==> s.choices == src.replay.value)
  {
    PlayShape(src, client, n);
    if n > 0 {
      CompleteReplayIsRecording(src, client, n - 1);
      PlayShape(src, client, n - 1);
    }
  }
}
