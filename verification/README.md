# Pi Team Bright: coordination and delivery kernel

A Dafny model of the parts of Pi Team Bright that must survive crashes, stale
process generations and replays without losing, repeating or reordering anything.
`dafny verify dfyconfig.toml` verifies every file.

What is modelled, file by file:

- **Event journal.** `JournalText` (bytes, lines, codec, parsing), `JournalTail`
  (the backward scan for the last line, mending a torn tail), `JournalAppend`
  (appends that may stop anywhere, and whole runs of them), `JournalWriter` (the
  writer over a file it changes in place), `JournalCache` (the incremental read
  cache), `JournalPages` (filtered pages, all pages, snapshot pages),
  `JournalWait` (the check-register-check wait), `TeamEvents` (the records).
- **Publication and observation.** `CarrierPublication` (the publisher's baseline
  of the journal and its append protocol), `BranchObservation` (cursor and Tasks
  rebuilt from a Session branch), `BranchPages` (pages on branches that move),
  `TextOrder` and `StableSort` (text by code unit; a stable sort under a comparison
  that may tie), `TaskRevision` (the digest that is to be free of order),
  `TaskChanges` (grouping of events).
- **Delivery.** `InboxDelivery` (the inbox file), `SessionEntries` (what a Session
  says was presented and acknowledged), `DirectDelivery` (the recipient's delivery
  as a machine), `DeliveryRuns` (what holds of all its runs), `DeliveryAcks` (when it
  acknowledges), `DeliveryObject` (its class), `DeliveryGate` (holds, leases, fenced flush), `TeamUpdate` (the
  publisher of Team updates), `AlertEnvelope` (the text of an Alert).
- **Panes and simulator.** `PaneGeometry`, `Entropy`, `ProcessTable`, `SimWorld`,
  `SimCommand` (one asynchronous command of the simulator).
- `Wrappers` and `Arithmetic` hold an Option, a Result and two facts about division.

How it is modelled:

- A class that awaits is a value `State` with a function `Next` over its steps: each
  await ends a step, and steps of the outside world come between in any order. The
  class stands beside it, its fields changed in place, and each method ensures
  `View() == Next(old(View()), step)` or the piece of `Next` it carries out.
- The codec, the digests, the string comparison and the text of a JSON value are
  parameters. What the proofs need of them is named where it is needed: `Lawful`
  (decoding undoes encoding; no raw newline in a record, section 7 of RFC 8259; no
  proper prefix of a record decodes, section 4 of RFC 8259), `CollisionFree`,
  `StampsTellBytes`, `Faithful`, `Preorder`, `GoodLegacy`. `UnaryCodecIsLawful`
  shows that a lawful codec exists.
- Locks and leases are atomic sections. Clocks, random ids, files and answers of
  other parts of the system are arguments.

Results where the code does less than its documentation or its own test monitors
suggest:

- A presentation that reaches the Session file only after a restart has taken its
  entries is presented again (`DeliveryRuns.PersistedLateIsRepeated`). The exact
  condition is the entries given to `start`: `DeliveryRuns.RestartPresents`.
- `p9NoDuplicatePage` looks at the whole history, not at a branch, so a branch moved
  back behind an earlier page fails it (`BranchPages.MovedBackIsFlagged`). It passes
  exactly when every page with events starts at the high water mark of those before:
  `BranchPages.HistoryPassesIffAhead`.
- `taskProjectionRevision` sorts ids, warnings and object keys with `localeCompare`,
  which compares canonically equivalent texts as equal, so that for some inputs the
  order of enumeration shows (`TaskRevision.AccentedIdsShow`: one accented letter,
  composed and decomposed). The exact condition: the revision is free of order if and
  only if no two ids, no two distinct texts of warnings and no two keys of one object
  compare as equal (`TaskRevision.RevisionIsOrderFree`).
- An observer that has read events which a failed fsync then takes back refuses the
  journal until it has grown past the observer's cursor, and then keeps what it saw
  (`CarrierPublication.TakenBackIsKept`). The exact condition for a right baseline is
  `CarrierPublication.CatchUpAfterRollback`.
- A cut journal cannot be read before it is mended unless the cut fell on a record
  boundary: `JournalAppend.CutJournalReads`.

## Model

| member | source | states |
|---|---|---|
| `JournalText.ParseMeaning` | src/coordination/event-journal.ts:305-320 | Parsing succeeds exactly when every line decodes and the cursors rise strictly, and then yields exactly those events. |
| `JournalText.ParseResumes` | src/coordination/event-journal.ts:305-320 | Parsing a text in two parts at a line end, the second on top of the events of the first, equals parsing it whole, errors included. |
| `JournalText.ParseJournalLines` | src/coordination/event-journal.ts:305-320 | The loop returns the parse of the raw text on top of the prior events, for any prior cursor. |
| `JournalText.LinesConcat` | src/coordination/event-journal.ts:305-320 | The lines of a text cut right after a newline are the lines of its parts. |
| `JournalText.UnaryCodecIsLawful` | src/coordination/event-journal.ts:177-268 | The three codec hypotheses can be met: a concrete codec meets them. |
| `JournalTail.LastLineIsUnique` | src/coordination/event-journal.ts:412-438 | At most one line, with its start and end, is the last nonempty line of a byte sequence. |
| `JournalTail.LastLineEndsLines` | src/coordination/event-journal.ts:412-438 | The last nonempty line found from the end is the last of the lines the parser sees. |
| `JournalTail.MendKeepsReadable` | src/coordination/event-journal.ts:440-467 | Mending a readable journal leaves one that reads the same, ends its last line, and gives its head cursor. |
| `JournalWriter.JournalFile.ReadLastLine` | src/coordination/event-journal.ts:412-438 | The chunked backward scan returns the last nonempty line for every file, end position and chunk size, lines and newline runs across chunk borders included. |
| `JournalWriter.JournalFile.MendTail` | src/coordination/event-journal.ts:440-467 | The repair in place does to the file what the specification of mending says, and returns its cursor or the same error. |
| `JournalWriter.JournalFile.WriteBytes` | src/coordination/event-journal.ts:403-410 | Partial writes add exactly the data, or exactly the prefix that got out before the process stopped. |
| `JournalWriter.JournalFile.AppendEvents` | src/coordination/event-journal.ts:484-518 | The append with its repair, checks, write, fsync and rollback leaves the file and outcome the specification gives, wherever it stops; what that outcome is over all runs is `JournalAppend.RunReports`. |
| `JournalAppend.AppendOnReadable` | src/coordination/event-journal.ts:484-518 | On any readable journal a finished append adds exactly the batch, numbered from the head. |
| `JournalAppend.MendRecovers` | src/coordination/event-journal.ts:440-467 | Mending a cut journal yields exactly the image of the whole records and of a last record whose text was complete. |
| `JournalAppend.CutJournalReads` | src/coordination/event-journal.ts:333-401 | Before mending, a cut journal can be read exactly when the cut fell on a record boundary. |
| `JournalAppend.AppendStep` | src/coordination/event-journal.ts:484-518 | One append stopped anywhere leaves the earlier events and a stated prefix of its batch to be recovered. |
| `JournalAppend.AppendReports` | src/coordination/event-journal.ts:484-518 | What one append reports on any journal a stop may have left: a torn tail is never refused, success means exactly that nothing stopped the append and every record reads back, and each error has its own reason. |
| `JournalAppend.CrashRecovery` | src/coordination/event-journal.ts:412-518 | Over every run from an empty file, with writes cut at any byte and fsync failures with or without rollback, the mended journal parses to the record of the run, the i-th event with cursor i+1. |
| `JournalAppend.RunReports` | src/coordination/event-journal.ts:484-518 | Over every run an attempt reports success exactly when it was given nothing, or nothing stopped it and each of its records, numbered after those on record, reads back; then it reports these and all of them are on record. |
| `JournalAppend.ReportedAppendIsDurable` | src/coordination/event-journal.ts:484-518 | A batch whose append reported success is on record in full from then on, and records only grow. |
| `JournalCache.GrowthParsesAsWhole` | src/coordination/event-journal.ts:362-389 | Parsing the appended bytes on top of the cached events gives the parse of the whole file, errors included. |
| `JournalCache.BackedAnswers` | src/coordination/event-journal.ts:345-389 | An entry read from a real file answers for the file now found: whole if identity, size and times agree, as a prefix if its digest agrees. |
| `JournalCache.ReadCache.ReadJournal` | src/coordination/event-journal.ts:333-401 | Through growth, rewrite, truncation, replacement and eviction the cached read returns exactly the parse of the whole file and fails exactly when that fails; at most 32 entries stay. |
| `JournalCache.ReadCache.Remember` | src/coordination/event-journal.ts:288-294 | The entry becomes the newest of its path and the oldest beyond 32 go. |
| `JournalCache.RefreshedOnce` | src/coordination/event-journal.ts:288-294 | Refreshing a path before replacing or dropping its entry leaves the same cache as replacing or dropping alone. |
| `JournalPages.FirstEventAfter` | src/coordination/event-journal.ts:553-562 | The binary search finds the index that parts the cursors at most the given one from those above it. |
| `JournalPages.SliceIsWindow` | src/coordination/event-journal.ts:565-597 | The slice behind that index holds what the linear filter over all cursors keeps. |
| `JournalPages.ReadTeamEvents` | src/coordination/event-journal.ts:565-605 | The read returns the page of the specification, or the cursor-ahead or limit error. |
| `JournalPages.PageIsWindow` | src/coordination/event-journal.ts:565-605 | A page holds exactly the matching events from the reader's cursor to its own cursor, within the limit, and `remaining` counts exactly those left. |
| `JournalPages.WindowMeaning` | src/coordination/event-journal.ts:565-605 | A window is in journal order and holds exactly the matching events between its bounds. |
| `JournalPages.FollowIsExact` | src/coordination/event-journal.ts:565-605 | Following cursors while the journal grows yields every matching event up to the last cursor exactly once and in order. |
| `JournalPages.ReadTeamEventPages` | src/coordination/event-journal.ts:608-633 | The loop over one journal image returns its pages, or the cursor-ahead or limit error. |
| `JournalPages.PagesAreIteration` | src/coordination/event-journal.ts:608-633 | On a fixed journal all pages equal asking for one page after another. |
| `JournalPages.SnapshotCoversAll` | src/coordination/event-journal.ts:830-867 | Following snapshot continuations at one head covers every Worker and every Task once, in order, within the limit. |
| `JournalWait.NoLostWakeup` | src/coordination/event-journal.ts:673-736 | Over every run with other processes appending, the wait settles at most once, with a page of the journal, and while it is unsettled every unseen matching event has a notification or a read still to come. |
| `JournalWait.UnseenEventSettles` | src/coordination/event-journal.ts:690-722 | From any such state the due read, or the event's own notification, settles the wait. |
| `JournalWait.EventWait.ReadOnce` | src/coordination/event-journal.ts:706-712 | The read inside a scan changes the wait's variables as the machine does, and settles only if it finds events or fails. |
| `JournalWait.EventWait.ScanReturns` | src/coordination/event-journal.ts:713-719 | A scan that ends with a rescan asked for queues exactly one more, unless settled. |
| `CarrierPublication.FoldMeaning` | src/carrier-observation.ts:302-318 | The baseline maps each key to the last carrier event of that key, and each actor to the cursor of its last Task event, and holds nothing else. |
| `CarrierPublication.CarrierPublication.Read` | src/carrier-observation.ts:308-318 | Reading page by page from its own cursor to the head consumes exactly the events now above that cursor; a cursor ahead of the journal is refused and nothing changes. |
| `CarrierPublication.CatchUpMeaning` | src/carrier-observation.ts:308-318 | Whatever was seen before, the baseline after a read is the fold of what was seen followed by what now stands above the cursor. |
| `CarrierPublication.CatchUpAfterRollback` | src/carrier-observation.ts:308-318 | After a rollback took events back and the journal grew past the cursor, the baseline is that of the journal exactly when, for every key and actor no unread event is about, the journal up to the cursor says what was seen. |
| `CarrierPublication.TakenBackIsKept` | src/carrier-observation.ts:308-318 | A concrete journal: the event seen was taken back, two others came, and the baseline keeps what it saw. |
| `CarrierPublication.CarrierPublication.PublishUnderLease` | src/carrier-observation.ts:319-367 | The publication refuses changed coordinates, fails when its cursor is ahead of the journal, and otherwise decides on its baseline brought up to the head. |
| `CarrierPublication.PublicationIsDecided` | src/carrier-observation.ts:329-345 | On every numbered journal, from the last event of the key and the Task events behind it: exactly when a view, a block, a stalled launch or a hung reload is published, found already said, or fails. |
| `CarrierPublication.EmittedIsTheView` | src/carrier-observation.ts:346-357 | A published event carries the coordinates, value and attention of the view, which are those found under the lease. |
| `CarrierPublication.DecisionFollows` | src/carrier-observation.ts:319-357 | An event let out goes on from the last event of its key, says something new, and repeats a block only after a Task event. |
| `CarrierPublication.Chained` | src/carrier-observation.ts:329-357 | Over all runs of publishers under Membership leases, consecutive events of one key satisfy next.from = previous.to. |
| `CarrierPublication.StartsUnknown` | src/carrier-observation.ts:329-331 | The first event of a key starts from "unknown". |
| `CarrierPublication.BlockedAgainAfterTask` | src/carrier-observation.ts:336-337 | Between two blocked events of one key lies a Task event by that Worker. |
| `CarrierPublication.DecidedIsJournaled` | src/carrier-observation.ts:319-358 | What is decided under a free lease and committed is the next event of the journal; abandoned, it leaves the journal as it was. |
| `CarrierPublication.BaselineIsFold` | src/carrier-observation.ts:301-318 | In every run each observer, reading on from its own cursor, holds the fold of the journal up to that cursor. |
| `CarrierPublication.SaidOnce` | src/carrier-observation.ts:332-345 | An accepted publication repeated unchanged appends nothing, whatever other keys published since; a hung reload is repeated exactly while its first report was early. |
| `InboxDelivery.Inbox.AppendMessage` | src/alert-authority/inbox-delivery.ts:85-107 | The record is put last, with its own id or a new one. |
| `InboxDelivery.Inbox.IdentifyMessages` | src/alert-authority/inbox-delivery.ts:71-83 | Exactly the records without an id get the legacy id of their content and place, and the change is reported. |
| `InboxDelivery.Inbox.ReadInboxForMembership` | src/alert-authority/inbox-delivery.ts:151-185 | Returns the records of the Membership in file order and marks exactly those returned, if asked to. |
| `InboxDelivery.Inbox.MarkMessagesReadForMembership` | src/alert-authority/inbox-delivery.ts:232-260 | Marks exactly the named records of the Membership and counts those that turned read. |
| `InboxDelivery.StepEvolves` | src/alert-authority/inbox-delivery.ts:71-260 | No operation drops, moves or rewrites a record, and it leaves exactly those read that were read before or that it names. |
| `InboxDelivery.RunEvolves` | src/alert-authority/inbox-delivery.ts:71-260 | The same over any run of operations. |
| `InboxDelivery.ReadByName` | src/alert-authority/inbox-delivery.ts:151-260 | A record that a run left read and that was not read before was named by an operation of the run while it was still unread. |
| `InboxDelivery.SelectMeaning` | src/alert-authority/inbox-delivery.ts:163-170 | What a reader is offered is exactly the wanted records of its Membership. |
| `SessionEntries.AcknowledgedMessageIdsFromEntries` | src/alert-authority/direct-delivery.ts:147-168 | The loop returns exactly the ids acknowledged in scope by any entry. |
| `SessionEntries.PendingPresentedMessageIdsFromEntries` | src/alert-authority/direct-delivery.ts:171-200 | The loop returns exactly the ids presented in scope and nowhere acknowledged. |
| `SessionEntries.ObservedMessageIdsFromContext` | src/alert-authority/direct-delivery.ts:203-223 | The loop returns exactly the ids of presentations in scope in the context. |
| `SessionEntries.ScopeDecides` | src/alert-authority/direct-delivery.ts:147-223 | Which entries and messages count: by kind, by one of the two names of their type, and by this very scope. |
| `DirectDelivery.NextKeepsFence` | src/alert-authority/direct-delivery.ts:243-486 | Every step keeps the generation fence: only calls of the current generation may act, its scan is the one on record, and a start still waiting excludes a watch. |
| `DirectDelivery.NextKeepsOnce` | src/alert-authority/direct-delivery.ts:299-486 | Every step keeps presentations of one activation apart from each other and from what the start recovered. |
| `DirectDelivery.FreshMeaning` | src/alert-authority/direct-delivery.ts:449-453 | The pending batch is exactly the unread records of the Membership not tried yet. |
| `DeliveryRuns.NextKeepsSafe` | src/alert-authority/direct-delivery.ts:299-396 | Every step keeps marks to acknowledged records, and batches to distinct records. |
| `DeliveryRuns.NextIsLossless` | src/alert-authority/direct-delivery.ts:299-486 | Every step keeps each tried id accounted for, and no unread record that a scan found passed over. |
| `DeliveryRuns.EffectsAreCurrent` | src/alert-authority/direct-delivery.ts:398-486 | Every send and acknowledgement is made by the current, unstopped generation, and a presentation is of records neither recovered nor presented before. |
| `DeliveryRuns.OneScan` | src/alert-authority/direct-delivery.ts:402-437 | At most one scan of the current generation is under way. |
| `DeliveryRuns.ReadOnlyAfterAck` | src/alert-authority/direct-delivery.ts:380-396 | In every run, with stops, restarts and crashes, a record of the Membership that is read has its acknowledgement in the Session; when that is made is `DeliveryAcks.AckFollowsSuccess`. |
| `DeliveryAcks.AckFollowsSuccess` | src/alert-authority/direct-delivery.ts:361-396 | In every run an acknowledgement is preceded, in its own activation, by a turn that ended successfully and by a context that showed each of its ids. |
| `DeliveryAcks.TurnAcknowledges` | src/alert-authority/direct-delivery.ts:361-396 | After an undisturbed successful turn exactly the ids observed and not acknowledged before are added to those of the Session, exactly their records of this Membership turn read and none stays staged; after any other turn none of this happens. |
| `DeliveryRuns.PresentedOnce` | src/alert-authority/direct-delivery.ts:439-486 | In every run no activation presents a record twice, in two batches or in one. |
| `DeliveryRuns.RunKeepsInbox` | src/alert-authority/direct-delivery.ts:276-290 | In every run the inbox keeps every record at its place. |
| `DeliveryRuns.CompletedScanCovers` | src/alert-authority/direct-delivery.ts:431-486 | A scan's turn that ends without failing and still current has tried every unread record of the Membership it found. |
| `DeliveryRuns.QuietScanPresents` | src/alert-authority/direct-delivery.ts:439-486 | An undisturbed scan presents, in inbox order, exactly the unread records not tried yet, and then every unread record is tried. |
| `DeliveryRuns.WatchAsksForScan` | src/alert-authority/direct-delivery.ts:402-429 | While the watch is set, the interval and a hint with its timer each begin a scan, or have the one under way go round once more. |
| `DeliveryRuns.RescanGoesRound` | src/alert-authority/direct-delivery.ts:431-437 | A scan that was asked to goes round again from its first await, and then owes no further round. |
| `DeliveryRuns.InterruptComesFirst` | src/alert-authority/direct-delivery.ts:460-475 | A batch waits for an interrupt exactly if one of its records asks for it, and is handed on at once otherwise; all of it counts as tried. |
| `DeliveryRuns.RestartPresents` | src/alert-authority/direct-delivery.ts:299-345 | After a restart an unread record is presented in full exactly when the entries given to start show neither its presentation nor its acknowledgement. |
| `DeliveryRuns.PersistedLateIsRepeated` | src/alert-authority/direct-delivery.ts:299-345 | A concrete run: a presentation that reaches the Session after the entries were taken is presented again. |
| `DeliveryGate.NextKeepsInv` | extensions/compaction-delivery-gate.ts:48-165 | Every step keeps order, the coming flush, and a lease to every hold. |
| `DeliveryGate.EveryRun` | extensions/compaction-delivery-gate.ts:48-165 | In every run and its next step, with re-entrant calls, sends that throw and stale timers, sends made then sends held equal the requested order since the last reset, a closed gate without hold has its flush pending or running, every hold has a pending lease, nothing passes while a hold stands, listeners run only at an open and emptied gate, and only a standing lease expires. |
| `DeliveryGate.HolderReleases` | extensions/compaction-delivery-gate.ts:89-96 | The holder with the token releases its hold, always and alone: lease gone, other holds kept, and after the last one a flush of a new epoch on its way; any other release changes nothing. |
| `DeliveryGate.HolderHolds` | extensions/compaction-delivery-gate.ts:73-87 | A held token cannot be taken by another holder; a first begin or the holder's renewal puts a new lease in place of the old one and calls off a coming flush. |
| `DeliveryGate.HoldsAreDecided` | extensions/compaction-delivery-gate.ts:73-150 | After any step a token is held exactly if it was begun now, or was held and neither its holder, its lease nor a reset released it; the same for compaction. |
| `DeliveryGate.ReleaseOpens` | extensions/compaction-delivery-gate.ts:89-134 | After the last release the flush it leaves behind alone, without any timer, opens the gate with every requested send made in order. |
| `DeliveryGate.GateReopens` | extensions/compaction-delivery-gate.ts:73-134 | From any reachable state the clock alone brings the gate to open with every requested send made in order, whichever of them throw, and a closed gate tells its listeners. |
| `DeliveryGate.CompactionDeliveryGate.SendMessage` | extensions/compaction-delivery-gate.ts:153-159 | The sink changes the fields as the machine does. |
| `DeliveryGate.CompactionDeliveryGate.BeginHold` | extensions/compaction-delivery-gate.ts:73-87 | Taking or renewing an external hold changes the fields as the machine does. |
| `DeliveryGate.CompactionDeliveryGate.EndHold` | extensions/compaction-delivery-gate.ts:89-96 | Ending an external hold changes the fields as the machine does; that only the holder releases, and always, is `DeliveryGate.HolderReleases`. |
| `DeliveryGate.CompactionDeliveryGate.TurnFlush` | extensions/compaction-delivery-gate.ts:121-133 | One turn of the flush loop, with its epoch test and a send that may throw, changes the fields as the machine does. |
| `DeliveryGate.CompactionDeliveryGate.ResetAll` | extensions/compaction-delivery-gate.ts:136-144 | Reset clears holds, timers and held sends. |
| `TeamUpdate.PublisherIsFenced` | extensions/team-update.ts:28-91 | Over every run at most one execution is in progress, a message is sent only if generation, Session and branch are those of its start and both binding reads agree, every unpublished exit clears its reservation first, and whatever is cleared has the Session and call of the execution that started last. |
| `TeamUpdate.PageIsPublished` | extensions/team-update.ts:43-91 | From any idle state an undisturbed attempt for which a fitting page waits sends that page, once, and ends as published. |
| `TeamUpdate.ExitIsDecided` | extensions/team-update.ts:66-90 | Exactly when the second binding read ends the execution as published, quiet, failed or skipped. |
| `TeamUpdate.StartIsDecided` | extensions/team-update.ts:43-59 | An attempt starts exactly if there is a Session, nothing runs or is busy, and it is no automatic one on the branch that failed last. |
| `TeamUpdate.FailureHoldsBackAutomatic` | extensions/team-update.ts:43-50 | From then on no automatic attempt acts until an attempt sees another branch key. |
| `TeamUpdate.TeamUpdateController.Begin` | extensions/team-update.ts:43-59 | The first part of execute changes the fields as the machine does. |
| `TeamUpdate.TeamUpdateController.ResumeSecondBinding` | extensions/team-update.ts:66-90 | The checks after the second binding read, the send and the exits change the fields as the machine does. |
| `TeamUpdate.TeamUpdateController.InvalidateAll` | extensions/team-update.ts:35-42 | Invalidation ends the generation and clears the active reservation. |
| `PaneGeometry.AdaptiveSplit` | src/adapters/herdr-adapter.ts:216-260 | The chosen pane is eligible and comes before every other eligible pane; none is chosen exactly when none is eligible. |
| `PaneGeometry.TargetIsUnique` | src/adapters/herdr-adapter.ts:240-260 | Preferred axis, score and id leave exactly one first pane. |
| `PaneGeometry.PlacementIsDecided` | src/adapters/herdr-adapter.ts:229-252 | In plain numbers: along which axis a pane is cut, and which of two panes comes first. |
| `PaneGeometry.Terminal.SplitWorker` | sim/herdr.ts:93-106 | The rectangle update in place gives both halves of the split. |
| `PaneGeometry.Terminal.Spawn` | src/adapters/herdr-adapter.ts:263-321 | A spawn is refused for a stated reason and changes nothing, or adds one pane as specified. |
| `PaneGeometry.AdaptiveTiling` | src/adapters/herdr-adapter.ts:176-260 | After any run of splits the Worker panes tile the region right of the leader exactly and disjointly, each at least 20x5, their number n satisfies 100n <= area, and the leader keeps its share. |
| `PaneGeometry.RefusedOnlyWhenFull` | src/adapters/herdr-adapter.ts:216-260 | Room is refused exactly when every pane is narrower than 40 and lower than 10, and then 351n >= area. |
| `Entropy.EntropyStream.Choose` | sim/entropy.ts:22-38 | A choice changes cursors and choices as specified, or fails with the specified failure. |
| `Entropy.ReduceIsEuclidean` | sim/entropy.ts:31 | The truncating remainder, brought back into range, is the Euclidean one. |
| `Entropy.ReplayEqualsRecording` | sim/entropy.ts:18-43 | For every client, replaying the recorded choices, or the same tape with only the recorded scheduler choices, gives the same choices with no failure and nothing left over. |
| `Entropy.CompleteReplayIsRecording` | sim/entropy.ts:22-43 | A full-choice replay that completes equals the recording. |
| `ProcessTable.GenerationsStayApart` | sim/process-table.ts:20-50 | Over every run at most one live process to an actor and to a PID, all of the current boot, and no generation key twice in the whole history. |
| `ProcessTable.ProbeTellsLife` | sim/process-table.ts:32-35 | A probe finds a PID exactly when a process of this boot lives there, with that process's token. |
| `ProcessTable.SpawnIsDecided` | sim/process-table.ts:20-29 | A spawn succeeds exactly if nobody alive is that actor or has that PID, and then adds one living process of this boot. |
| `ProcessTable.EndsAreDecided` | sim/process-table.ts:36-50 | A kill ends exactly the living process with the PID, a reboot everybody, and nobody is forgotten. |
| `ProcessTable.Host.SpawnProcess` | sim/process-table.ts:20-29 | Spawning changes the table as specified, its two refusals included. |
| `ProcessTable.Host.RebootHost` | sim/process-table.ts:47-50 | Killing one living process after another by PID buries exactly all, then the boot changes. |
| `SimWorld.SchedulingIsSafe` | sim/scheduler.ts:19-84 | Over every run each operation runs no earlier than due, once or at its interval, never after its cancellation, and time never turns back. |
| `SimWorld.StepIsDecided` | sim/scheduler.ts:55-69 | A step runs an operation exactly if there is work; time moves only if nothing was due, and only to the first that is; an interval is queued again and all else stays. |
| `SimWorld.CancelActorLeavesOthers` | sim/scheduler.ts:33-36 | After cancelActor the queue holds exactly the operations of others. |
| `SimWorld.SimScheduler.Step` | sim/scheduler.ts:55-69 | Picking, taking from the queue, requeueing and advancing time change the fields as specified. |
| `SimWorld.EffectsAreLive` | sim/world.ts:146-165 | Whatever runs, runs for a living process of this boot, the latest of its actor. |
| `SimWorld.LiveWorkRuns` | sim/world.ts:146-165 | The converse: what is run has its effect exactly if its generation lives, is the latest of its actor and the one of its environment. |
| `SimWorld.ActorIsRunning` | sim/world.ts:81-145 | An actor's environment is made for its living process or for a newborn, and is refused only if the next PID is taken. |
| `SimWorld.KillEmptiesQueue` | sim/world.ts:166-174 | The end of a process by its PID leaves nothing of its actor queued. |
| `SimWorld.DeadGenerationsNeverRun` | sim/world.ts:146-174 | Nothing queued by a dead generation ever runs its action, PID reuse, actor reuse and reboots included. |
| `SimWorld.NoEffectOfTheDead` | sim/world.ts:146-174 | The same in every run of a new world, from the moment the generation is dead. |
| `SimCommand.SettlesOnce` | sim/world.ts:226-280 | In every order of timeout, abort, arrival, effect and completion there is at most one result, it never changes, the promise resolves at most once and with it, an exit carries the one recorded effect, and an exception means there was none. |
| `SimCommand.TimeoutSettles` | sim/world.ts:236-246 | As long as no operation was lost with its actor, an unsettled command has its timeout queued, and that settles it. |
| `SimCommand.QuietCommandExits` | sim/world.ts:247-266 | A command that nothing disturbs exits with the result of its effect. |
| `SimCommand.EffectDespiteResult` | sim/world.ts:246-251 | Concrete runs: an effect after a timeout, and an effect before an abort. |
| `AlertEnvelope.ParseAlertDeliveryText` | src/alert-authority/alerts.ts:90-120 | The parser with the variables it updates returns what the specification reads. |
| `AlertEnvelope.PrintedAlertReadsBack` | src/alert-authority/alerts.ts:73-120 | Every Alert with nonblank text reads back with its summary to the same id, kind, Task reference and text, whatever its text or Task id imitates. |
| `AlertEnvelope.ReadAlertPrintsBack` | src/alert-authority/alerts.ts:73-120 | Whenever parsing succeeds, printing the result gives back the same text. |
| `AlertEnvelope.ReadRecent` | src/alert-authority/alerts.ts:123-141 | The newest received Alerts come first, cut at the limit, with an exact count of those omitted. |
| `AlertEnvelope.DeliveredAlertIsNewest` | src/alert-authority/alerts.ts:123-141 | An Alert delivered now is listed first, with its bounded preview, and the others follow unchanged. |
| `BranchObservation.ReadBranchObservation` | src/coordination/branch-observation.ts:41-72 | The scan with its map and flags returns the observation of the specification; which cards that holds is `BranchObservation.CardsAreLatest`. |
| `BranchObservation.CursorIsMax` | src/coordination/branch-observation.ts:45-62 | The cursor is the greatest `through` in scope, and the entry named is the last that reaches it. |
| `BranchObservation.CardsAreLatest` | src/coordination/branch-observation.ts:44-62 | By position on the branch: under each id stands the last card that a taken entry brought for it since the last snapshot taken, that one included; an id is absent exactly if none did; the reading is complete exactly if a snapshot was taken. |
| `BranchObservation.SetTaskOrder` | src/coordination/branch-observation.ts:55-61 | A card for a known id takes the place of the one before, and a new one goes last. |
| `BranchObservation.ObservationMeaning` | src/coordination/branch-observation.ts:63-72 | The entry named is the last one taken, with its lineage and cursor; a revision is given exactly if a snapshot was taken. |
| `BranchObservation.ForeignChangesNothing` | src/coordination/branch-observation.ts:48-53 | A foreign entry anywhere on the branch changes neither cursor, Tasks, completeness nor the entry named. |
| `BranchObservation.TasksAreDistinct` | src/coordination/branch-observation.ts:44-61 | The rebuilt Tasks have distinct ids. |
| `BranchObservation.RevisionMatchesAuthority` | src/coordination/branch-observation.ts:64-70 | A branch that took a snapshot, none of whose rebuilt rows are tied, has the revision of an authority read exactly when its rebuilt cards, in whatever order, and their warnings are those of that read. |
| `BranchPages.P9NoDuplicatePage` | sim/monitors/safety.ts:271-284 | The nested loops pass exactly when no two nonempty pages of one scope overlap, and otherwise name a page that overlaps an earlier one. |
| `BranchPages.BranchPagesChain` | src/coordination/observation-service.ts:147-217 | Along the selected branch of every run, moved back or left and selected again, pages chain end to end, the rebuilt cursor is their end, each event is shown once, and the monitor passes. |
| `BranchPages.StampedPageLands` | src/coordination/observation-service.ts:147-217 | An entry stamped from the branch cursor to the head, or to the end of an unseen page, lands, and the cursor is then there. |
| `BranchPages.HistoryPassesIffAhead` | sim/monitors/safety.ts:271-284 | Over all landed pages the monitor passes exactly when every nonempty page starts at the high water mark of those before. |
| `BranchPages.RunHistoryPasses` | sim/monitors/safety.ts:271-284 | The same for the history of every run. |
| `BranchPages.MovedBackIsFlagged` | sim/monitors/safety.ts:271-284 | A concrete run: moved back to the root, the same page lands again and the monitor flags it. |
| `TaskRevision.CanonicalMeaning` | src/coordination/task-projection-revision.ts:4-8 | A value without tied keys in one object and any other value have one canonical form exactly when they are equal up to the order of object keys. |
| `TaskRevision.KeyOrderIsFree` | src/coordination/task-projection-revision.ts:4-8 | All orders of object keys have one canonical form if and only if no two keys of one object compare as equal. |
| `TaskRevision.SameRevision` | src/coordination/task-projection-revision.ts:11-13 | If nothing sorted is tied in one enumeration, any other has its revision exactly when it holds the same cards and warnings up to the order of rows and keys. |
| `TaskRevision.TaskOrderIsFree` | src/coordination/task-projection-revision.ts:11-13 | With distinct ids, all orders of the Tasks have one revision if and only if no two ids compare as equal. |
| `TaskRevision.WarningOrderIsFree` | src/coordination/task-projection-revision.ts:12 | All orders of the warnings have one revision if and only if no two distinct canonical texts of them compare as equal. |
| `TaskRevision.RevisionIsOrderFree` | src/coordination/task-projection-revision.ts:4-13 | The revision depends on cards and warnings alone, in any order of rows and keys, if and only if no ids, texts of warnings or keys of one object are tied. |
| `TaskRevision.AccentedIdsShow` | src/coordination/task-projection-revision.ts:11-13 | Under a comparison by Unicode equivalence, two Tasks with ids of one accented letter, composed and decomposed, show the order they come in. |
| `TaskChanges.ProjectTaskChanges` | src/coordination/task-change-projection.ts:59-95 | A gap exactly when a known Task has a note without evidence, naming the first; otherwise the groups of the events in first-occurrence order. |
| `TaskChanges.ChangesSayExactly` | src/coordination/task-change-projection.ts:30-95 | A Task is among the changes exactly if it is known and some event says something of it; then once, with its card, exactly the kinds its events say and exactly the narratives they carry. |
| `TaskChanges.EntryKept` | src/coordination/task-change-projection.ts:30-40 | Each journal entry of a known Task stands exactly once, under that Task, between those before and after it. |
| `TaskChanges.EntriesAreConserved` | src/coordination/task-change-projection.ts:59-95 | The groups together hold as many entries as the known Tasks have in the journal. |
| `TaskChanges.KindsNeverEmpty` | src/coordination/task-change-projection.ts:87-93 | No group has empty change kinds, so the last filter drops nothing. |

## Left out

- JournalCache.ReadCache.ReadJournal: takes the file as one snapshot of stat and bytes; the code reads without a lock, so a rewrite between its stat and its reads is not modelled.
- JournalAppend.ReportedAppendIsDurable: speaks of the file only; what a reader that saw events before a failed fsync took them back then holds is stated in CarrierPublication.
- JournalWait.NoLostWakeup: a directory notification is delivered once per append, and never after the watcher is closed.
- CarrierPublication.Chained: the journal of these runs only grows, so a publisher that read events which a failed fsync took back is not among them; the last journaled process value need not be the current view, since a normal reload suppresses live and stopping on purpose; pane ids of events and the notification text are not modelled.
- BranchPages.BranchPagesChain: reading the pages and landing the entry are one step, as the service's reservation and lineage test make them; the reservation itself is not modelled.
- PaneGeometry.AdaptiveTiling: the ratio is an exact fraction; rounding of the printed ratio, panes that close or are moved by hand, and linear tiling are decided outside.
- SimWorld.SchedulingIsSafe: promise checkpoints and pending errors are not modelled.
- SimCommand.SettlesOnce: the scheduler may run the operations of a call in any order, due times aside; two calls share nothing.
- ProcessTable.GenerationsStayApart: a process object is an index into the history, so that aliasing of the objects is not modelled.
- DeliveryRuns.InterruptComesFirst: what the interrupt does to the Session, and its failure, are not modelled; the scan waits for it and goes on.
- DeliveryGate.EveryRun: all open listeners run as one callback; what they and the error and expiry callbacks do with the gate are later steps.
- DeliveryObject.DirectMessageDelivery.ResumeStarting: the class carries out the steps of `DirectDelivery.Next`, and what is proved stands in `DeliveryRuns`; an awaited call is an entry in a map of suspended calls; the promise objects themselves are not modelled.
- AlertEnvelope.PrintedAlertReadsBack: a character of the model is a Unicode scalar value; texts of the source that hold a lone surrogate are outside it.
- TaskRevision.SameRevision: JSON values are finite trees; `undefined` members, numbers other than integers, and keys that look like array indices, which JavaScript orders by itself, are not modelled.
- Real JSON text, UTF-8 and SHA-256 are hypotheses on parameters, with one concrete codec.
- `readInbox` and `markMessagesRead` without a Membership repeat the modelled operations for any reader.
- `CarrierObserver` (sampling, expiry of samples, outstanding launches) reads other programs and publishes through what is modelled.
- The observation service, the Graph Task controller, the Membership machine and the lock implementation stand behind the model as atomic sections or arguments.
- Text user interface, command line, settings, tool registration, subprocess and file plumbing, log extraction, schema checks and scripts.
