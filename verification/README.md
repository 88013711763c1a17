# The bot-reader hand-off, and four audits, proved in Dafny

One host at a time may read a Telegram bot's updates. `scripts/bot_reader.py` keeps that right in
a small set of durable files on each host, and `scripts/bot-reader-transfer.py` moves it from one
host to another over a connection that may fail anywhere. This project models that protocol down
to the single durable write and proves what it promises over every run: one owner, no lost
message, no rewind, an ownership that can always be recovered, and transfers that can be resumed
wherever they were cut. Four smaller programs of the repository, which other checks lean on, are
modelled and proved beside it.

`dafny verify dfyconfig.toml` checks the whole project.

## How the protocol is modelled

| file | what it holds |
|---|---|
| `ReaderState.dfy` | journals, manifests, receipts, records, the files of one host, one durable write |
| `ReaderVerbs.dfy` | for each verb, the writes it makes and its reply, as a function of the disk it reads |
| `ReaderHost.dfy` | the host as a class; each verb runs write by write and may be killed before any of them |
| `VerbMeanings.dfy` | what each verb and poll leaves on the disk, done or cut, and what it refuses |
| `World.dfy` | all hosts, the messages, the server's updates, and every step a run may take |
| `Legality.dfy`, `PollLegality.dfy` | which single writes are legal where, and that every verb and poll makes only those |
| `Ownership.dfy`, `Landings.dfy`, `Runs.dfy` | the ownership token, the invariant, and that every step keeps it |
| `Safety.dfy` | the promises, over whole runs |
| `Recovery.dfy` | from every reachable world a host can be made active |
| `CaptureReplay.dfy` | captures cut short and repeated |
| `Coordinator.dfy`, `Resumption.dfy` | the five-call coordinator, what it never breaks, and its interruption and repetition |
| `CoordinatedRuns.dfy` | every coordinated transfer is a path of the world |

A method of class `Reader` is proved to leave exactly the disk that its plan in `ReaderVerbs.dfy`
gives for the number of writes it lived to make, and to reply as the plan says. `World.dfy` then
lets the same plans land one write at a time, interleaved with everything else: other hosts,
late and repeated manifests and receipts, polls that hang, a capture that fails and only clears
its marker, stop files that appear and vanish, a consumer taking records, new updates. Placing
the stop file in `fence` and `export` happens before the lock is taken; in a run it is one of the
arbitrary changes of the stop file, and in `ReaderHost.dfy` it is the first write of the verb.

The central object is a token that is in no file: it is held by the one owner, or it is passing,
named by the one committed transfer that nobody has activated. Of all writes only three move it:
enrolment, commit and activation.

What is assumed:

- one host is enrolled per bot and run; a machine is prepared under its own id, and ids differ;
- transfer ids are never drawn twice; SHA-256 is symbolic, so digests and commit hashes are
  injective; manifests and receipts come from a source, and count as known once they are durable
  there, so any of them may be delivered at any later time, any number of times;
- a host that never enrolled has no marker and an empty inbox (its stop file and checkpoint may
  be anything);
- one durable write lands entirely or not at all; a verb's guards hold while it has the lock,
  except that the stop file and the inbox may change under it;
- Telegram Bot API, "Getting updates", method getUpdates: update ids grow, updates do not change,
  an answer is a gapless prefix of the updates above the offset, and calling with an offset lets
  the server forget everything up to it; the operator's chat does not change in a run.

## Where the code and its words differ

The code is followed. For each difference a lemma says exactly when the words hold, and another
gives an input on which they do not.

- The injector's comment says that every known block must occur exactly once. The code accepts any
  number from one upwards (`Injector.InjectedMeans`); a block written twice in a row is accepted
  unchanged (`Injector.WrittenTwice`).
- The same comment says that prose is kept byte for byte. For any blocks, that holds exactly when
  every line outside them ends in LF alone, the last one included; what stands on and between the
  marker lines does not matter (`Injector.ProseByteForByteExactly`, `Injector.ProseIsKeptExactly`).
  Both blocks followed by a line "a" CR LF lose the CR (`Injector.CrlfProseIsLost`).
- Injecting twice gives the text of injecting once exactly when no line of prose, its ending
  dropped, still ends in CR (`Injector.InjectTwice`). Both blocks followed by "a" CR CR LF change
  again on the second run (`Injector.SecondRunMayChange`).
- The generated pattern of a glob agrees with the documented tokens exactly on paths without a
  newline, because `.` stops at one and `$` also matches before a final one
  (`Globs.FaithfulExactly`; both ways to fail in `Globs.NewlineSamples`).
- The specificity of a glob is the documented number of fixed leading components exactly when the
  first component with a wildcard begins with one (`ArtifactMap.SpecificityExactly`); `src/lib*.rs`
  has one and counts for two (`ArtifactMap.HalfFixedSample`). A `[` counts as a wildcard there
  although the compiler takes it literally (`ArtifactMap.BracketSample`).
- Identifiers are matched with a `$` that also accepts one trailing newline: a host id is accepted
  exactly when it is a host name or one with a newline behind it (`ReaderState.HostIdExactly`,
  `ReaderState.HostIdSample`).

## Model

| member | source | states |
|---|---|---|
| `Safety.SingleOwner` | scripts/bot_reader.py:516-701 | in every world of every run no two hosts own the bot, hold an in-flight marker, or are anywhere inside a poll |
| `Safety.PassingIsQuiet` | scripts/bot_reader.py:566-591 | while a committed transfer's destination is below its epoch it is the only such transfer, its source still answers commit with the receipt, no host owns, polls, or has a marker or a record, and no offset ever sent exceeds the checkpoint handed over |
| `Safety.NoMessageLost` | scripts/bot_reader.py:725-778 | every message of a person in the operator's chat, above the enrolment checkpoint, that the server may have forgotten has left a record with its id, date, first name and text, consumed or unchanged in the one owner's inbox |
| `Safety.CheckpointAscends` | scripts/bot_reader.py:689-701 | the checkpoint that counts, the owner's or the committed manifest's, never goes back over a run |
| `Safety.OwnersAscend` | scripts/bot_reader.py:542-542 | a later owner's checkpoint is never below an earlier owner's, on whatever hosts |
| `Safety.SendsAtCheckpoint` | scripts/bot_reader.py:872-880 | a request leaves only from the owner, at the checkpoint that counts |
| `Safety.SentIsKnown` | scripts/bot_reader.py:875-880 | the offsets the server knows of are exactly those of the requests that left |
| `Safety.OffsetsAscend` | scripts/bot_reader.py:859-897 | the offsets of all requests of a run never go back, whichever hosts send them |
| `Safety.DecisionsStand` | scripts/bot_reader.py:566-611 | a commitment, a cancellation, a receipt and an offer, once made, stay made |
| `Safety.OneDecision` | scripts/bot_reader.py:566-611 | an offer cancelled anywhere in a run is committed nowhere in it, no receipt of the run fits it, and no host is ever active on it |
| `Safety.DecisionIsKnown` | scripts/bot_reader.py:581-610 | a commit that lands adds the offer's id to the committed and its receipt to the known, a cancel its id to the cancelled |
| `Safety.OfferIsKnown` | scripts/bot_reader.py:559-562 | an offer that lands is known with the manifest its journal holds |
| `Safety.OffersDiffer` | scripts/bot_reader.py:547-562 | two different offers of a run have different transfer ids |
| `Safety.EpochStep` | scripts/bot_reader.py:581-582 | the ownership epoch rises by one when a transfer is committed and by nothing else |
| `Safety.RisesAt` | scripts/bot_reader.py:681-701 | a host becomes owner only by the first enrolment or by activating the transfer in passing, at its epoch |
| `Safety.FloorIsCheckpoint` | scripts/bot_reader.py:336-346 | the floor of a run is the checkpoint on the disk when the enrolment lands |
| `Safety.ActivationsRaiseEpoch` | scripts/bot_reader.py:697-700 | each host that becomes owner does so at an epoch above every earlier owner's |
| `Safety.CurrentOfferIsFresh` | scripts/bot_reader.py:645-656 | while a host owns the bot no epoch exceeds its own, and its open offer is staged, never stale, at the destination it names |
| `Safety.PendingOfferIsFresh` | scripts/bot_reader.py:645-656 | while a committed transfer is pending no epoch exceeds the manifest's, and its destination, below it, stages it |
| `Safety.PendingIsPassing` | scripts/bot_reader.py:578-582 | a committed offer is pending exactly when it is the transfer that ownership is passing on |
| `Safety.OldTransferIsInert` | scripts/bot_reader.py:645-692 | once its destination is at a manifest's epoch, importing it or replaying its receipt writes nothing on any host |
| `Safety.DrainedHandOff` | scripts/bot_reader.py:542-562 | outside active and fenced no host has a marker or a record, and an offering source stands at the checkpoint it offered |
| `Safety.JournalsStayValid` | scripts/bot_reader.py:261-321 | every journal of every world passes its own validation, and no verb under the lock is answered invalid_state |
| `Safety.PollsStayValid` | scripts/bot_reader.py:859-897 | nor is any poll of a run, whatever the network answers |
| `Safety.FenceCarried` | scripts/bot_reader.py:456-468 | a host's record of whether the stop file was there before is unchanged until it is active again |
| `Safety.LatchHolds` | scripts/bot_reader.py:870-897 | after a 409 no request leaves the host and the latch stays, through any steps, until a reconciliation lands there |
| `Safety.LatchStep` | scripts/bot_reader.py:614-627 | a latched host sends nothing in one step, loses the latch only to a reconciliation, and that only while active |
| `Safety.OnlyReconcileUnlatches` | scripts/bot_reader.py:614-627 | every journal a verb writes over a latched one is latched, unless the verb is reconcile on an active host |
| `Runs.StepKeeps` | scripts/bot_reader.py:516-897 | every step of every host, server, operator and consumer keeps the invariant and never lowers the checkpoint that counts |
| `Runs.Reachable` | scripts/bot_reader.py:516-897 | every world of every run satisfies the invariant |
| `Runs.SendStep` | scripts/bot_reader.py:875-880 | a request leaves only once its marker is durable, and leaves the invariant and the checkpoint as they were |
| `Landings.LandKeeps` | scripts/bot_reader.py:318-321 | any single legal write keeps the invariant, with the token moving on enrolment, commit and activation only |
| `Landings.CommitFrom` | scripts/bot_reader.py:578-582 | a commit lands only on the holder of the token, for its own durable offer one epoch up |
| `Landings.ActivateFrom` | scripts/bot_reader.py:685-700 | an activation lands only for the one committed and unactivated transfer |
| `Landings.CarrierWaits` | scripts/bot_reader.py:652-656 | while its transfer is unactivated the transferred source writes no journal: every import there is stale |
| `Landings.LandEpoch` | scripts/bot_reader.py:581-582 | one write raises the ownership epoch by one if it commits and leaves it otherwise |
| `Landings.CaptureFlow` | scripts/bot_reader.py:768-771 | the checkpoint write of a capture loses no message and never lowers the checkpoint |
| `Legality.VerbLegal` | scripts/bot_reader.py:329-701 | whatever a verb finds on the disk, each write it sets out to make is legal when it lands |
| `Legality.LandKeepsDisk` | scripts/bot_reader.py:318-321 | a legal write leaves a disk that is in order: valid journal, drained when it must be, owner at its checkpoint |
| `Legality.LandKeepsNet` | scripts/bot_reader.py:559-591 | a legal write keeps what is known consistent: no id both committed and cancelled, receipts only for committed offers |
| `Legality.LegalStable` | scripts/bot_reader.py:193-201 | writes not yet landed stay legal while other hosts, the stop file, the consumer and the server go on |
| `Legality.ExportLegal` | scripts/bot_reader.py:516-563 | export fences before it offers, and offers only drained, at its checkpoint, under an id it drew |
| `Legality.ActivateLegal` | scripts/bot_reader.py:674-701 | activation writes checkpoint, stop file and journal in an order legal at every crash point |
| `Legality.CancelLegal` | scripts/bot_reader.py:594-611 | cancel removes its stop file before the journal returns to active, legal at every crash point |
| `PollLegality.AnswerLegal` | scripts/bot_reader.py:879-897 | whatever the network answers, the writes that follow are legal in order |
| `PollLegality.AnswerCovers` | scripts/bot_reader.py:740-771 | once a batch is published without a clash, the inbox covers every operator message up to its highest id |
| `PollLegality.CaptureLegal` | scripts/bot_reader.py:725-778 | a capture publishes only genuine records and moves the checkpoint only over covered updates |
| `Recovery.TokenRecoverable` | scripts/bot_reader.py:530-534 | from every world of every run with an owner, or in which an offer was ever made, some further steps make a host active |
| `Recovery.OwnerReturns` | scripts/bot_reader.py:594-611 | an owner in any phase can return to active by itself, by cancelling |
| `Recovery.DestinationRises` | scripts/bot_reader.py:630-701 | any inactive destination below the epoch becomes active by prepare, import and activate, given the committed receipt |
| `CaptureReplay.CaptureResumed` | scripts/bot_reader.py:725-778 | a capture repeated after a crash at any write ends on the disk, and with the reply, of one that ran through |
| `CaptureReplay.CaptureConverges` | scripts/bot_reader.py:115-136 | any number of captures cut anywhere, then a whole one, end on the disk of a single whole one |
| `CaptureReplay.CheckpointAfterInbox` | scripts/bot_reader.py:768-771 | at every crash point a checkpoint that moved has every message of the operator durable behind it, field by field; records are never lost or changed |
| `CaptureReplay.PublishEffect` | scripts/bot_reader.py:115-136 | publishing adds records only under free names and, without a conflict, leaves every record of the batch in the inbox |
| `CaptureReplay.RecordsComplete` | scripts/bot_reader.py:742-766 | the records of a batch are exactly those of its eligible updates |
| `CaptureReplay.OperatorIsHeard` | scripts/bot_reader.py:742-766 | a capture that is not refused leaves, for each text message of a person in the operator's chat, a record with the update's id and the message's date, first name and text |
| `CaptureReplay.NobodyElseIsHeard` | scripts/bot_reader.py:745-758 | whatever a capture adds, wherever it is cut, is such a message of its batch: none of a bot, another chat, or without text |
| `CaptureReplay.CaptureStands` | scripts/bot_reader.py:741-778 | the checkpoint ends at the highest id seen, and the reply counts updates and says whether any was eligible |
| `CaptureReplay.ConflictIsKept` | scripts/bot_reader.py:115-123 | a record under an id is never replaced: a different message ends the capture with the checkpoint where it was |
| `CaptureReplay.FreshBatchIsTaken` | scripts/bot_reader.py:115-136 | without a differing record under any id, nothing is refused and only the batch is added |
| `CaptureReplay.RecordsKeepOrder` | scripts/bot_reader.py:742-766 | the records come in the order of their updates, one for each eligible one |
| `ReaderState.EligibleMeans` | scripts/bot_reader.py:751-763 | an update is recorded exactly when it is a text message of a person in the operator's chat, and the record holds its fields |
| `Coordinator.Coordinate` | scripts/bot-reader-transfer.py:129-170 | the coordinator's run on two hosts or on one, each call clean or cut at any write, gives the outcome the lemmas below speak of |
| `Coordinator.Deliver` | scripts/bot-reader-transfer.py:151-170 | import, commit and activate in order, stopping at the first refusal |
| `Coordinator.PrepareStops` | scripts/bot-reader-transfer.py:141-146 | unless prepare succeeded, or refused an owner the source says it handed the bot to, the report is that refusal and the source is untouched |
| `Coordinator.WrongMachineIsRefused` | scripts/bot-reader-transfer.py:141-146 | a machine enrolled under another id, or owning without a hand-over, stays as it is, and so does the source |
| `Coordinator.ExportStops` | scripts/bot-reader-transfer.py:147-150 | without an offer the destination is only prepared and the report is export's refusal; with one, that offer is handed over |
| `Coordinator.HandOverStops` | scripts/bot-reader-transfer.py:151-170 | a refused import leaves the source alone, a refused commit the destination; each report names its call, and a finished one the manifest and the receipt of the commit |
| `Coordinator.CallsMean` | scripts/bot-reader-transfer.py:56-77 | a call that comes back has run to its end and is heard; one that does not has landed some of its writes |
| `Coordinator.SelfTransferIsRefused` | scripts/bot-reader-transfer.py:141-149 | a machine is never handed over to itself: prepare or export is refused and no journal, checkpoint, marker or inbox of an enrolled machine changes |
| `Resumption.TransferIsSafe` | scripts/bot-reader-transfer.py:129-170 | from any source and destination, with any arguments, failures and refusals: the source is still owner or committed with its receipt to be had, its offer is unchanged, it commits only what the destination carries, and the destination becomes active only on what it committed |
| `Resumption.RefusalKeepsOwner` | scripts/bot-reader-transfer.py:141-153 | a coordination that stops at prepare, export or import leaves an owner an owner |
| `Resumption.HandOverIsSafe` | scripts/bot-reader-transfer.py:151-160 | import before commit: the source commits only once the manifest is staged or active on the other side |
| `Resumption.InterruptionIsResumable` | scripts/bot-reader-transfer.py:129-170 | where a transfer can succeed, any interruption at any call and any write leaves it able to, on the same offer; a completed one is untouched |
| `Resumption.CleanRunCompletes` | scripts/bot-reader-transfer.py:113-170 | a clean run from any resumable state ends with the source transferred and the destination active on the outstanding offer |
| `Resumption.TransferCompletes` | scripts/bot-reader-transfer.py:113-170 | after any number of interrupted runs a clean one completes the transfer, on the first offer that became durable |
| `Resumption.RepeatingChangesNothing` | scripts/bot-reader-transfer.py:113-126 | repeating a completed transfer reports it again and changes no journal, checkpoint, marker or inbox |
| `Resumption.RunsAreResumable` | scripts/bot-reader-transfer.py:129-170 | in every world of every run a drained owner, or a source with an open or pending offer, can still be transferred to that destination |
| `CoordinatedRuns.CoordinationIsPath` | scripts/bot-reader-transfer.py:129-170 | a coordinated transfer between two idle hosts, however interrupted, is a path of the world with the same disks and all other hosts untouched |
| `CoordinatedRuns.TransfersStayRuns` | scripts/bot-reader-transfer.py:129-170 | its outcome is a world of a run again, and its source owns the bot still or has committed what the destination carries |
| `CoordinatedRuns.RunsGoOn` | scripts/bot_reader.py:516-897 | every world reached from a world of a run is a world of a run |
| `VerbMeanings.AdmittedExactly` | scripts/bot_reader.py:862-873 | a poll leaves exactly from an active host in force, not stopped, not latched, with checkpoint and credential, at that checkpoint; all others write nothing |
| `VerbMeanings.ConflictLatches` | scripts/bot_reader.py:879-897 | after a 409 of the transport or the API the journal is latched, nothing else has changed but the marker, the next poll is refused, and at no crash point is the marker down without the latch |
| `VerbMeanings.OnlyConflictLatches` | scripts/bot_reader.py:879-897 | no other answer touches the journal, wherever the poll is cut |
| `VerbMeanings.LostRequestStays` | scripts/bot_reader.py:882-887 | a request the network lost keeps its marker, with the epoch and the offset, and changes nothing else |
| `VerbMeanings.AnsweredRequestIsCleared` | scripts/bot_reader.py:886-897 | every other answer takes the marker down |
| `VerbMeanings.CodesMean` | scripts/bot_reader.py:707-712 | what is reported for each error code, of the transport and of the API alike |
| `VerbMeanings.ForeignStopStays` | scripts/bot_reader.py:456-468 | no verb, cut anywhere, removes a stop file the transfer did not place, and none any if the record says it was there before |
| `VerbMeanings.PollsLeaveTheStop` | scripts/bot_reader.py:859-897 | no poll touches the stop file |
| `VerbMeanings.CancelFrees` | scripts/bot_reader.py:607-610 | a completed cancel removes the stop file the transfer placed, and that one only |
| `VerbMeanings.ActivateFrees` | scripts/bot_reader.py:693-700 | so does a completed activation |
| `VerbMeanings.FenceStopsFirst` | scripts/bot_reader.py:373-382 | fence never removes a stop file, leaves one, and touches the journal only once it is there |
| `VerbMeanings.ExportStopsFirst` | scripts/bot_reader.py:525-562 | so does export |
| `VerbMeanings.FenceMeans` | scripts/bot_reader.py:366-386 | an active host ends stopped and fenced, the record saying whether it was stopped before; a marker makes the reply indeterminate, fenced all the same |
| `VerbMeanings.FenceElsewhere` | scripts/bot_reader.py:375-386 | any other host is only stopped, an owner already fenced is answered |
| `VerbMeanings.PrepareMeans` | scripts/bot_reader.py:492-513 | a host that never enrolled ends stopped and standby at epoch zero, the record as for fence |
| `VerbMeanings.PrepareLeaves` | scripts/bot_reader.py:503-513 | a host with a journal is never changed, and prepared exactly if the id is its own and it does not own the bot |
| `VerbMeanings.ExportMeans` | scripts/bot_reader.py:535-563 | a drained owner ends stopped and offered: the manifest names bot, both hosts, the next epoch, the id, the checkpoint and the hash of the secret on the disk |
| `VerbMeanings.ExportRefuses` | scripts/bot_reader.py:540-550 | nothing is offered with a request in flight, a record waiting, no credential, or to itself |
| `VerbMeanings.ExportRepeats` | scripts/bot_reader.py:530-534 | asked again the same manifest is named to the same destination, and to no other |
| `VerbMeanings.CheckpointIsNeeded` | scripts/bot_reader.py:139-160 | an owner without a readable checkpoint is refused by fence, export and poll |
| `VerbMeanings.EnrollMeans` | scripts/bot_reader.py:329-347 | a checkpoint that is there is kept at every crash point, zero otherwise; the host ends active at epoch one |
| `VerbMeanings.EnrollRefuses` | scripts/bot_reader.py:331-345 | enrolment happens exactly on a host without a journal, under a valid id, with no broken checkpoint |
| `VerbMeanings.CommitMeans` | scripts/bot_reader.py:578-591 | commit answers exactly for the whole manifest offered or committed, turns the journal to transferred at its epoch, and reveals the secret |
| `VerbMeanings.CancelMeans` | scripts/bot_reader.py:600-611 | exactly a named open offer or an unnamed bare fence is withdrawn; the host ends active without fence and transfer |
| `VerbMeanings.ReconcileMeans` | scripts/bot_reader.py:624-627 | the latch of an active host is cleared and nothing else |
| `VerbMeanings.ImportMeans` | scripts/bot_reader.py:641-657 | a manifest is staged exactly if sound, for this host and its credential's bot, above its epoch, on a host that does not own |
| `VerbMeanings.WrongBotIsRefused` | scripts/bot_reader.py:643-644 | another bot's credential stages nothing |
| `VerbMeanings.ActivateMeans` | scripts/bot_reader.py:685-701 | a staged host takes over checkpoint and epoch exactly on a receipt that fits its manifest in every field, the journal turning last |
| `VerbMeanings.ActivateElsewhere` | scripts/bot_reader.py:689-692 | on any other host activation writes nothing |
| `VerbMeanings.UnsoundJournalIsLeft` | scripts/bot_reader.py:311-315 | on a host whose journal is refused nothing is written |
| `VerbMeanings.SoundJournals` | scripts/bot_reader.py:261-298 | what no journal in force may be, phase by phase |
| `VerbMeanings.EditedManifestIsRefused` | scripts/bot_reader.py:225-258 | a manifest edited in any field is refused on both sides |
| `VerbMeanings.UnsoundTermsAreRefused` | scripts/bot_reader.py:240-258 | so is one of another version, from a host to itself, or at epoch one |
| `ReaderHost.Reader.Enroll` | scripts/bot_reader.py:329-347 | writes a zero checkpoint only if none is there, then the active journal at epoch one, or dies in between |
| `ReaderHost.Reader.PlaceStop` | scripts/bot_reader.py:350-363 | creates the stop file unless one is there, and tells which |
| `ReaderHost.Reader.RemoveOwnedStop` | scripts/bot_reader.py:456-468 | removes the stop file only if a transfer placed it and nobody replaced it |
| `ReaderHost.Reader.Fence` | scripts/bot_reader.py:366-386 | stop file, then the fenced journal, both kept when the marker makes the result indeterminate |
| `ReaderHost.Reader.Prepare` | scripts/bot_reader.py:481-513 | an unenrolled host becomes a stopped standby; a live reader is refused without a write |
| `ReaderHost.Reader.Export` | scripts/bot_reader.py:516-563 | stop file, fence, offer, at each crash point; repeats return the durable offer |
| `ReaderHost.ExportDone` | scripts/bot_reader.py:525-526 | the stop file placed outside the lock and the writes under it make one run |
| `ReaderHost.Reader.Commit` | scripts/bot_reader.py:566-591 | the open offer becomes transferred at its epoch and the receipt is returned, again on every repeat |
| `ReaderHost.Reader.Cancel` | scripts/bot_reader.py:594-611 | withdraws the named open offer or a bare fence, and nothing committed |
| `ReaderHost.Reader.Reconcile` | scripts/bot_reader.py:614-627 | clears the latch of an active host and touches nothing else |
| `ReaderHost.Reader.Import` | scripts/bot_reader.py:630-657 | stages a fresh manifest for this host and bot on an inactive host; the same manifest again is acknowledged |
| `ReaderHost.Reader.Activate` | scripts/bot_reader.py:674-701 | checkpoint, owned stop file, journal, in this order, on a staged host with the fitting receipt |
| `ReaderHost.Reader.PublishRecord` | scripts/bot_reader.py:115-136 | a new name is written, an equal record skipped, a different one refused without a write |
| `ReaderHost.Reader.PublishAll` | scripts/bot_reader.py:768-769 | records are published in order up to the first conflict |
| `ReaderHost.Reader.Gather` | scripts/bot_reader.py:740-766 | the highest id seen, and the records of the eligible updates in order |
| `ReaderHost.Reader.CaptureUpdates` | scripts/bot_reader.py:739-778 | every record first, then the checkpoint if the batch passes it |
| `ReaderHost.Reader.Capture` | scripts/bot_reader.py:725-778 | errors of the document write nothing; a batch is captured on the disk as found |
| `ReaderHost.Reader.PollOnce` | scripts/bot_reader.py:859-897 | refused without a write, or marker, request, capture, latch on 409, and the marker cleared unless the network was lost |
| `ReaderHost.Reader.LatchAndClear` | scripts/bot_reader.py:884-897 | a conflict is latched before the marker comes down |
| `ReaderHost.Reader.Persist` | scripts/bot_reader.py:103-112 | one durable write lands entirely or not at all |
| `ReaderState.HostIdExactly` | scripts/bot_reader.py:43-43 | an accepted host id is a host name or a host name and one newline |
| `ReaderState.HostIdSample` | scripts/bot_reader.py:43-43 | a name with a newline behind it is accepted |
| `ReaderState.NamesMayBe` | scripts/bot_reader.py:43-46 | how long host, bot and transfer ids and secrets may be, and what they may be made of |
| `Globs.GlobToRegex` | scripts/artifact-map-audit.py:82-119 | the scanning loop emits the expression of each longest token in turn |
| `Globs.TokenAt` | scripts/artifact-map-audit.py:96-117 | testing slices in the code's order finds the longest token |
| `Globs.EverythingUnderMeans` | scripts/artifact-map-audit.py:86-86 | the four-character form stands for one or more characters of any kind |
| `Globs.AnyDirectoryMeans` | scripts/artifact-map-audit.py:87-87 | the trailing form stands for nothing or a slash and anything |
| `Globs.LeadingDirectoriesMeans` | scripts/artifact-map-audit.py:88-88 | the leading form stands for zero or more leading directories |
| `Globs.AnyRunMeans` | scripts/artifact-map-audit.py:89-89 | a double star stands for any run |
| `Globs.SegmentRunMeans` | scripts/artifact-map-audit.py:90-90 | a star stands for any run within one component |
| `Globs.OneCharMeans` | scripts/artifact-map-audit.py:91-92 | a question mark stands for one character within a component, any other character for itself |
| `Globs.CompiledMeans` | scripts/artifact-map-audit.py:82-119 | for every glob and every path on one line, the emitted expression accepts exactly what a direct reading of the tokens matches |
| `Globs.FaithfulExactly` | scripts/artifact-map-audit.py:94-119 | the anchored pattern agrees with the tokens for every glob exactly on paths without a newline |
| `Globs.NewlineSamples` | scripts/artifact-map-audit.py:94-119 | a path with a newline at its end matches too much, one with a newline inside too little |
| `ArtifactMap.SpecificityAdds` | scripts/artifact-map-audit.py:122-131 | a fixed directory in front adds exactly its own components |
| `ArtifactMap.SpecificityExactly` | scripts/artifact-map-audit.py:122-131 | the key is the documented count of fixed leading components exactly when the first wildcard component begins with its wildcard |
| `ArtifactMap.HalfFixedCounts` | scripts/artifact-map-audit.py:122-131 | any fixed directory and a component that only begins fixed count for two, with one fixed component |
| `ArtifactMap.HalfFixedSample` | scripts/artifact-map-audit.py:122-131 | `src/lib*.rs` has one fixed component and specificity two |
| `ArtifactMap.BracketSample` | scripts/artifact-map-audit.py:79-117 | `[` ends the fixed prefix and matches only itself |
| `ArtifactMap.Classify` | scripts/artifact-map-audit.py:164-173 | the result matches, and any other matching rule is less specific, or as specific and declared later; none only when no rule matches |
| `ArtifactMap.ClassificationIsUnique` | scripts/artifact-map-audit.py:164-173 | the chosen rule is the same however the rules are permuted |
| `ArtifactMap.Totality` | scripts/artifact-map-audit.py:196-201 | with the catch-all every non-empty path on one line is classified, by the best rule under the documented tokens |
| `ArtifactMap.RunAudit` | scripts/artifact-map-audit.py:183-259 | reports the unmapped and the non-public paths, each occurrence in path order with its rule's genre and audience, and exits zero exactly when the catch-all is there and every path is public |
| `ArtifactMap.LeaksSay` | scripts/artifact-map-audit.py:217-218 | each leak names its path and the genre and audience of the rule it deserves |
| `Injector.Inject` | xtask/src/lib.rs:281-333 | the line loop computes the reading, the rendering and the first error of the specification |
| `Injector.RenderBlock` | xtask/src/lib.rs:286-320 | one block: unknown, unterminated, or its markers around fresh content and the line behind it |
| `Injector.InjectedMeans` | xtask/src/lib.rs:272-333 | succeeds exactly when the document is prose and known, terminated blocks with each block at least once, and renders that reading, prose line by line in order |
| `Injector.ParseSound` | xtask/src/lib.rs:281-323 | the segments read are good and make up the document |
| `Injector.ParseComplete` | xtask/src/lib.rs:281-323 | a document has only one such reading, and it is the one found |
| `Injector.MissingMeans` | xtask/src/lib.rs:324-331 | no block is reported missing exactly when each occurs |
| `Injector.ContentIsFirst` | xtask/src/lib.rs:288-288 | the content rendered for a name is that of the first block of the name |
| `Injector.ContentIsNone` | xtask/src/lib.rs:288-295 | and there is none exactly when no block has the name |
| `Injector.OutputIsPieces` | xtask/src/lib.rs:281-323 | the output is, segment by segment in order, each line of prose and LF, and each block's own content between its two marker lines |
| `Injector.MarkersSay` | xtask/src/lib.rs:261-270 | the marker lines, letter by letter |
| `Injector.MarkersMayBeIndented` | xtask/src/lib.rs:286-306 | markers count whatever white space stands before the begin and around the end |
| `Injector.ErrorNamesCause` | xtask/src/lib.rs:288-331 | an error names a begin marker of no known block, a known one that is not ended, or a block that occurs nowhere |
| `Injector.InjectedReads` | xtask/src/lib.rs:272-333 | for blocks that end in a newline and hold no line like their own end marker, the output injects again, reading as the same segments in the same order, prose but for a trailing CR |
| `Injector.InjectTwice` | xtask/src/lib.rs:272-333 | for such blocks a second injection returns the same text exactly when no prose line of the document ends in CR |
| `Injector.ProseByteForByteExactly` | xtask/src/lib.rs:272-323 | for any blocks, what is written for the prose is byte for byte the document's prose exactly when each of its lines ends in LF alone |
| `Injector.ProseIsKeptExactly` | xtask/src/lib.rs:272-323 | for the blocks the generator emits, the prose of the output is the prose of the document under exactly that condition |
| `Injector.OutputProse` | xtask/src/lib.rs:321-322 | the prose of the output is, line by line, the text of each prose line and LF |
| `Injector.RawLines` | xtask/src/lib.rs:284-285 | the lines read are the raw lines of the text without LF or CRLF |
| `Injector.RawIsAll` | xtask/src/lib.rs:284-285 | the raw lines make up the text |
| `Injector.CrlfProseIsLost` | xtask/src/lib.rs:272-274 | both blocks and a CRLF line of prose are accepted, and the CR is gone |
| `Injector.SecondRunMayChange` | xtask/src/lib.rs:272-333 | both blocks and a line ending in CR CR LF are accepted, and the second run changes the text again |
| `Injector.ProseIsUnlined` | xtask/src/lib.rs:321-322 | text without blocks comes through line by line, each line ended by LF |
| `Injector.UnixTextExactly` | xtask/src/lib.rs:321-322 | text without blocks comes through unchanged exactly when it has LF endings and an ended last line |
| `Injector.RepeatedBlocksAreAccepted` | xtask/src/lib.rs:274-276 | a document holding every block twice is accepted |
| `Injector.WrittenTwice` | xtask/src/lib.rs:274-276 | any block, written twice in a row, is accepted and given back unchanged |
| `Injector.BeginReads` | xtask/src/lib.rs:261-266 | a written begin marker is read back as the begin of the same block |
| `Routes.NamedPaths` | xtask/src/lib.rs:51-62 | the two avatar routes that talk and the eight observation routes |
| `Routes.PrefixDecides` | xtask/src/lib.rs:63-83 | a work, harvest, admin or claude prefix decides the family whatever follows |
| `Routes.AvatarPaths` | xtask/src/lib.rs:52-68 | an avatar route is of the canal exactly when it is one of those two |
| `Routes.MoleculePaths` | xtask/src/lib.rs:60-74 | a molecule route is one of artifacts exactly when the word stands in it, the logs aside |
| `Routes.ForeignPaths` | xtask/src/lib.rs:84-86 | a path outside version one has no family |
| `Routes.ContainsMeans` | xtask/src/lib.rs:69-69 | containing a word is having it at some place |
| `Routes.GroupingIsPartition` | xtask/src/lib.rs:144-169 | the rows grouped by family are the canon's routes, each exactly once |
| `Routes.MembersKeepOrder` | xtask/src/lib.rs:146-161 | within a family the rows keep the order of the canon and none is left out |
| `Routes.PlaceFamily` | xtask/src/lib.rs:144-163 | one pass writes the rows of one family, numbered on, or names a route without a family |
| `Routes.RenderRoutes` | xtask/src/lib.rs:130-178 | the table is made exactly when every path has a family; its counts add up, the lost-routes error cannot occur, and the error names the first route without a family |
| `Routes.LinkFamily` | xtask/src/lib.rs:196-235 | one family's routes are linked or exempt, or the error names the first route without a family or, in this family, without a place on the surface |
| `Routes.LinkRoute` | xtask/src/lib.rs:203-229 | a tenant verb is linked, an adapter-only route exempt, the other two kinds refused |
| `Routes.LinkedMeans` | xtask/src/lib.rs:203-208 | the linked count is that of the tenant verbs |
| `Routes.RenderBijection` | xtask/src/lib.rs:187-247 | linked plus exempt is the whole canon, the families' linked routes add up; it fails exactly on an unclassified, operator-only or withdrawn route, and the error is that of the first family whose pass stops |
| `Provenance.BuildGraph` | scripts/check-verdict-provenance.py:168-180 | each verdict has the successors of its rows in order, and the dangling ends are exactly those not catalogued |
| `Provenance.EdgesKeepOrder` | scripts/check-verdict-provenance.py:173-179 | a verdict's edges are its rows in register order, none left out, each with its successor and entry |
| `Provenance.Walk` | scripts/check-verdict-provenance.py:183-197 | always ends; is fault-free exactly when an unforked chain within the limit leads to a terminal, and a fault shows the fork, the cycle or the length it reports |
| `Provenance.ChainIsPrefix` | scripts/check-verdict-provenance.py:183-197 | every chain from the same start begins the one that terminates |
| `Provenance.TerminatingIsDistinct` | scripts/check-verdict-provenance.py:192-193 | a chain that ends never meets a verdict twice |
| `Provenance.CleanExactly` | scripts/check-verdict-provenance.py:334-359 | all walks from an anchored catalogue are clean exactly when one successor at most and a rank below the limit that falls at each succession exist |
| `Provenance.CleanHasNoCycle` | scripts/check-verdict-provenance.py:348-367 | in a clean register no chain returns to its start and each entry has one terminal, itself catalogued |
| `Provenance.CheckAccess` | scripts/check-verdict-provenance.py:334-346 | check (b) counts one dead end for each dangling end and each entry whose walk does not end, so none exactly when nothing dangles and every walk ends |
| `Provenance.CheckTerminals` | scripts/check-verdict-provenance.py:348-367 | check (c) gives each entry whose walk ends, and no other, the end of its chain |
| `Provenance.CheckRegister` | scripts/check-verdict-provenance.py:334-367 | check (b) passes exactly on a register well founded on its catalogue; then (c) passes and every terminal is catalogued |
| `LicenseBoundary.NormalEdges` | scripts/license-network-boundary.py:58-74 | the edges are exactly the normal dependencies between first-party crates |
| `LicenseBoundary.DevDependenciesDoNotLink` | scripts/license-network-boundary.py:71-74 | dependencies of other kinds alone link nothing |
| `LicenseBoundary.NormalDependencyLinks` | scripts/license-network-boundary.py:71-74 | a normal dependency links, whatever other kinds it has |
| `LicenseBoundary.Closure` | scripts/license-network-boundary.py:76-84 | the stack-based search ends and returns exactly the crates reached by one or more edges, cycles included |
| `LicenseBoundary.VisitKeeps` | scripts/license-network-boundary.py:78-83 | one turn keeps everything seen reachable and everything unexplored on the stack |
| `LicenseBoundary.AgplLinks` | scripts/license-network-boundary.py:92-94 | the names listed are exactly those of the AGPL crates reached |
| `LicenseBoundary.Gate` | scripts/license-network-boundary.py:86-120 | passes exactly when no Apache crate reaches an AGPL crate; otherwise lists each offender with all it reaches |
| `LicenseBoundary.OffenderIsCaught` | scripts/license-network-boundary.py:32-33 | by the licences' names: an Apache-2.0 member reaching an AGPL-3.0-only crate keeps the gate shut |
| `LicenseBoundary.BoundaryIsCut` | scripts/license-network-boundary.py:5-15 | that no Apache crate reaches an AGPL crate is the same as a set of crates closed under links that holds all Apache links and no AGPL crate |

## Left out

- HTTP, TLS, ssh and subprocesses: a request or a call has the nondeterministic results their callers see.
- JSON encoding and typing, file permissions, fsync and temporary files: a write is atomic, and a document has the type the code's checks establish. The journal's and the manifest's size limits go with it.
- An unreadable or non-regular stop file, inbox or checkpoint: only absent, unreadable as a number, and readable are told apart for the checkpoint.
- The `status` verb beyond what `_already_handed_to` reads of it, logs and command lines.
- The test-only interruption points: each is one of the crash points that every verb has here.
- Exactly-once delivery when a consumer empties the inbox between a cut capture and its repetition: the code gives at-least-once there.
- That a host can poll again right after cancel or activate: a stop file it did not place stays, on purpose.
- Forged manifests and hostile operators.
- Coordinator.Coordinate: a call that times out is cut at some write and stays cut; a remote process that goes on after its coordinator gave up is covered by the steps of `World.dfy` only.
- Resumption.InterruptionIsResumable: speaks of transfers that can succeed, with a drained source and credentials that agree; what holds of all others is `Resumption.TransferIsSafe`.
- CoordinatedRuns.CoordinationIsPath: takes the two hosts idle when the transfer starts and lets no other verb run on them in between; the results of `Safety.dfy` hold under any interleaving.
- The text of the regular expressions: the compiler emits syntax trees, and escaping a literal is the literal itself.
- Markdown cells, scope and effect columns and the breakdown sentences of the route tables, and the parsing and folding of the canon.
- TOML loading, `git ls-files`, and the per-genre and per-audience census of the artifact audit; rules arrive with distinct declaration orders, as loading numbers them.
- Fingerprints, git ancestry and the per-subject classification of the provenance check.
- `cargo metadata` and the order in which the licence gate prints crates; every member is one of the listed packages, as the metadata guarantees.
- The Rust kernel crates, the apps, the companions, the ledger and metrics scripts: not part of this model.
