/** The fields and methods of class DirectMessageDelivery, each step tied to the machine it is proved on. */
module DeliveryObject {
  import opened Wrappers
  import opened InboxDelivery
  import opened DirectDelivery
  import E = SessionEntries

  class DirectMessageDelivery {
    const c: Config
    const inbox: Inbox
    var attempted: set<string>
    var acknowledged: set<string>
    var staged: set<string>
    var stopped: bool
    var watching: bool
    var hintTimer: bool
    var scanPromise: Option<nat>
    var rescanRequested: bool
    var generation: nat
    var threads: map<nat, Thread>
    var nextThread: nat
    var session: seq<E.Entry>
    ghost var life: nat
    ghost var log: seq<Effect>
    ghost var given: seq<E.Entry>
    ghost var observed: set<string>

    ghost function View(): State
      reads this, inbox
    {
      State(attempted, acknowledged, staged, stopped, watching, hintTimer, scanPromise, rescanRequested, generation,
            threads, nextThread, inbox.file, session, life, log, given, observed)
    }

    constructor (c: Config, inbox: Inbox, session: seq<E.Entry>)
      ensures this.c == c && this.inbox == inbox && View() == Init(inbox.file, session)
    {
      this.c, this.inbox, this.session := c, inbox, session;
      attempted, acknowledged, staged, stopped, watching, hintTimer := {}, {}, {}, true, false, false;
      scanPromise, rescanRequested, generation, threads, nextThread := None, false, 0, map[], 0;
      life, log, given, observed := 0, [], [], {};
    }

    method Stop()
      modifies this
      ensures View() == Stopped(old(View()))
    {
      generation := generation + 1;
      ClearAll();
    }

    /** What stop clears once the generation has moved on. */
    method ClearAll()
      modifies this`stopped, this`watching, this`hintTimer, this`scanPromise, this`rescanRequested, this`staged
      ensures stopped && !watching && !hintTimer && scanPromise == None && !rescanRequested && staged == {}
    {
      stopped, watching, hintTimer, scanPromise, rescanRequested, staged := true, false, false, None, false, {};
    }

    /** start, up to its first await. */
    method StartFrom(entries: seq<E.Entry>)
      requires forall e | e in entries :: e in session
      modifies this
      ensures View() == Next(c, old(View()), Start(entries))
    {
      Stop();
      attempted, acknowledged, staged := {}, {}, {};
      stopped := false;
      Suspend(StartBinding(entries));
      given, observed := entries, {};
    }

    method Suspend(p: Point)
      modifies this`threads, this`nextThread
      ensures threads == old(threads)[old(nextThread) := Thread(generation, p)] && nextThread == old(nextThread) + 1
    {
      threads := threads[nextThread := Thread(generation, p)];
      nextThread := nextThread + 1;
    }

    method IsCurrentNow(g: nat) returns (current: bool)
      ensures current == IsCurrent(View(), g)
    {
      current := !stopped && generation == g;
    }

    method Scan()
      modifies this
      ensures View() == EnterScan(old(View()))
    {
      if stopped {
        return;
      }
      if scanPromise.Some? {
        rescanRequested := true;
        return;
      }
      rescanRequested := false;
      scanPromise := Some(nextThread);
      Suspend(ScanBinding);
    }

    method ScheduleHintScan()
      requires watching
      modifies this
      ensures View() == Next(c, old(View()), HintArrives)
    {
      if stopped || hintTimer {
        return;
      }
      hintTimer := true;
    }

    method HintTimerFires()
      requires hintTimer
      modifies this
      ensures View() == Next(c, old(View()), HintFires)
    {
      hintTimer := false;
      Scan();
    }

    method Observe(messages: seq<E.ContextMessage>) returns (count: nat)
      modifies this
      ensures View() == Observing(old(View()), E.Observed(messages, c.scope))
      ensures count == if stopped then 0 else |E.Observed(messages, c.scope) - acknowledged - old(staged)|
    {
      hide E.Observed;
      if stopped {
        return 0;
      }
      var contextIds := E.ObservedMessageIdsFromContext(messages, c.scope);
      var added := Unstaged(contextIds);
      count := |added|;
      Stage(added);
    }

    method Stage(added: set<string>)
      modifies this`staged, this`attempted, this`observed
      ensures staged == old(staged) + added && attempted == old(attempted) + added && observed == old(observed) + added
    {
      staged, attempted, observed := staged + added, attempted + added, observed + added;
    }

    /** The ids of the loop in observeContext that are neither acknowledged nor staged. */
    method Unstaged(contextIds: set<string>) returns (added: set<string>)
      ensures added == contextIds - acknowledged - staged
    {
      added := {};
      var rest := contextIds;
      while rest != {}
        invariant rest <= contextIds
        invariant forall id :: id in added <==> id in contextIds && id !in rest && id !in acknowledged && id !in staged
        decreases |rest|
      {
        var id :| id in rest;
        rest := rest - {id};
        if id in acknowledged || id in staged {
          continue;
        }
        added := added + {id};
      }
    }

    /** commitPresentedAfterSuccessfulTurn, up to its first await. */
    method BeginCommit(succeeded: bool)
      modifies this
      ensures View() == Next(c, old(View()), Commit(succeeded))
    {
      var current := IsCurrentNow(generation);
      if !current || !succeeded {
        return;
      }
      Suspend(CommitBinding);
    }

    method Finish(t: nat)
      modifies this`threads
      ensures threads == old(threads) - {t}
    {
      threads := threads - {t};
    }

    method MoveTo(t: nat, p: Point)
      requires t in threads
      modifies this`threads
      ensures threads == old(threads)[t := old(threads)[t].(at := p)]
    {
      threads := threads[t := threads[t].(at := p)];
    }

    /** The rest of start once the acknowledged records are marked. */
    method OpenAfter(t: nat, entries: seq<E.Entry>, sends: bool)
      requires t in threads
      modifies this
      ensures View() == Open(c, old(View()), t, entries, sends)
    {
      var g := threads[t].generation;
      Finish(t);
      var current := IsCurrentNow(g);
      if !current {
        return;
      }
      var presented := E.PendingPresentedMessageIdsFromEntries(entries, c.scope);
      attempted := attempted + presented;
      watching := true;
      if presented != {} {
        if !sends {
          return;
        }
        log := log + [Resumed(life, g, presented)];
      }
      Scan();
    }

    method ResumeStarting(t: nat, answer: Answer, sends: bool)
      requires t in threads && IsStart(threads[t].at)
      modifies this
      ensures View() == ResumeStart(c, old(View()), t, answer, sends)
    {
      hide Open, E.Acked;
      var g := threads[t].generation;
      var p := threads[t].at;
      if answer.Throws? {
        Finish(t);
        return;
      }
      if p.StartMark? {
        if p.landed {
          OpenAfter(t, p.entries, sends);
        }
        return;
      }
      var current := IsCurrentNow(g);
      if answer.No? {
        if current {
          Stop();
        }
        Finish(t);
        return;
      }
      if !current {
        Finish(t);
        return;
      }
      var acked := E.AcknowledgedMessageIdsFromEntries(p.entries, c.scope);
      acknowledged := acknowledged + acked;
      attempted := attempted + acked;
      if |acked| > 0 {
        MoveTo(t, StartMark(p.entries, acked, false));
      } else {
        OpenAfter(t, p.entries, sends);
      }
    }

    method ScanEnds(t: nat)
      modifies this`threads, this`scanPromise
      ensures View() == EndScan(old(View()), t)
    {
      Finish(t);
      if scanPromise == Some(t) {
        scanPromise := None;
      }
    }

    /** The condition of the loop in scanLoop. */
    method RoundEnds(t: nat)
      requires t in threads
      modifies this
      ensures View() == AfterOnce(old(View()), t)
    {
      var current := IsCurrentNow(threads[t].generation);
      if !current || !rescanRequested {
        ScanEnds(t);
        return;
      }
      rescanRequested := false;
      MoveTo(t, ScanBinding);
    }

    method SendBatch(t: nat, pending: seq<Message>, sends: bool)
      requires t in threads
      modifies this
      ensures View() == Present(old(View()), t, pending, sends)
    {
      if sends {
        log := log + [Presented(life, threads[t].generation, pending)];
        RoundEnds(t);
      } else {
        attempted := attempted - IdsOf(pending);
        ScanEnds(t);
      }
    }

    /** Both binding checks of scanOnce; whether the scan goes on. */
    method Bound(t: nat, answer: Answer) returns (goesOn: bool)
      requires t in threads
      modifies this
      ensures var s := old(View());
              && goesOn == (answer.Yes? && IsCurrent(s, s.threads[t].generation))
              && View() == if goesOn then s
                           else if answer.Throws? then EndScan(s, t)
                           else if answer.No? then AfterOnce(StopIfCurrent(s, s.threads[t].generation), t)
                           else AfterOnce(s, t)
    {
      if answer.Throws? {
        ScanEnds(t);
        return false;
      }
      var current := IsCurrentNow(threads[t].generation);
      if answer.No? {
        if current {
          Stop();
        }
        RoundEnds(t);
        return false;
      }
      if !current {
        RoundEnds(t);
      }
      goesOn := current;
    }

    method ResumeScanning(t: nat, answer: Answer, sends: bool)
      requires t in threads && IsScan(threads[t].at)
      modifies this
      ensures View() == ResumeScan(c, old(View()), t, answer, sends)
    {
      var p := threads[t].at;
      var current := IsCurrentNow(threads[t].generation);
      match p
      case ScanBinding =>
        var goesOn := Bound(t, answer);
        if goesOn {
          MoveTo(t, ScanRead(None));
        }
      case ScanRead(found) =>
        if answer.Throws? {
          ScanEnds(t);
        } else if found.Some? {
          var pending := if current then Fresh(found.value, c.scope.membership, attempted) else [];
          if |pending| == 0 {
            RoundEnds(t);
          } else {
            MoveTo(t, ScanRecheck(found.value, pending));
          }
        }
      case ScanRecheck(unread, pending) =>
        var goesOn := Bound(t, answer);
        if goesOn {
          attempted := attempted + IdsOf(pending);
          if Interrupts(pending) {
            MoveTo(t, ScanInterrupt(unread, pending));
          } else {
            SendBatch(t, pending, sends);
          }
        }
      case ScanInterrupt(_, pending) =>
        if !current {
          RoundEnds(t);
        } else {
          SendBatch(t, pending, sends);
        }
    }

    method ResumeCommitting(t: nat, answer: Answer, sends: bool)
      requires t in threads && (threads[t].at.CommitBinding? || threads[t].at.CommitMark?)
      modifies this
      ensures View() == ResumeCommit(c, old(View()), t, answer, sends)
    {
      var g := threads[t].generation;
      var p := threads[t].at;
      if answer.Throws? {
        Finish(t);
        return;
      }
      var current := IsCurrentNow(g);
      if p.CommitMark? {
        if p.landed {
          Finish(t);
          if current {
            staged := staged - p.ids;
          }
        }
        return;
      }
      if answer.No? {
        if current {
          Stop();
        }
        Finish(t);
        return;
      }
      if current {
        WriteAck(t, sends);
      } else {
        Finish(t);
      }
    }

    method WriteAck(t: nat, sends: bool)
      requires t in threads && threads[t].at.CommitBinding? && IsCurrent(View(), threads[t].generation)
      modifies this
      ensures View() == ResumeCommit(c, old(View()), t, Yes, sends)
    {
      var ids := staged - acknowledged;
      if |ids| == 0 || !sends {
        Finish(t);
        return;
      }
      session := session + [E.Custom(E.AckType, Some(E.Details(c.scope, ids)))];
      acknowledged := acknowledged + ids;
      log := log + [AckWritten(life, generation, ids)];
      MoveTo(t, CommitMark(ids, false));
    }

    /** readUnread and markRead, when the inbox lock is theirs. */
    method InboxOperation(t: nat)
      requires t in threads && inbox.legacy == c.legacy
      modifies this, inbox
      ensures View() == Next(c, old(View()), Land(t))
    {
      var p := threads[t].at;
      if p.StartMark? && !p.landed {
        var marked := inbox.MarkMessagesReadForMembership(c.scope.membership, p.ids);
        MoveTo(t, StartMark(p.entries, p.ids, true));
      } else if p.CommitMark? && !p.landed {
        var marked := inbox.MarkMessagesReadForMembership(c.scope.membership, p.ids);
        MoveTo(t, CommitMark(p.ids, true));
      } else if p == ScanRead(None) {
        var unread := inbox.ReadInboxForMembership(c.scope.membership, true, false);
        MoveTo(t, ScanRead(Some(unread)));
      }
    }
  }
}
