# NekoSend core: a verified model

This project models the Rust core of NekoSend, a chat and file-transfer program for local
networks, and proves what its protocols promise when connections are cut, receipts are lost,
processes are killed and both ends act at once.

`dafny verify dfyconfig.toml` checks everything.

## The parts

**One file transfer** (`Transfer`, `Lockstep`, `ReceiveTransfer`, `Publish`, `SendTransfer`,
`Delivery`). The bytes on a data connection are a sequence of tokens: a frame, or one byte of a
file. A cut inside a frame reads like a cut before it, so a cut at any byte is a prefix of the
tokens. A small automaton says what a receiver does with one token at a time. `Receiver` is the real
shape: nested loops that read and write in chunks of any size, offsets recorded from time to time,
validation before any rename, and a nondeterministic early return wherever a stop, an I/O error or a
process kill may strike, unless the receiver is declared `calm`. It is proved to refine the
automaton; `SendTransfer` is proved to write the stream the automaton expects; `Lockstep` runs one
against the other; `Delivery` quantifies over whole runs of connections, restarts and publishing
passes. Wherever something from outside can stop a method, a parameter (`calm`, or `alive` for a
consumer) says that nothing does, and the contract says what is reached then.

**Bindings, clipboard and the outbox** (`Bindings`, `BindingStorage`, `Rows`, `Replays`, `Network`,
`Exchange`, `Agreement`, `Decisions`, `Clips`, `SameBinding`, `LateCopies`). Each storage
transaction is a function from tables to tables; the class `Storage` runs the same transactions
statement by statement and is proved equal to the functions. `Network` lets any number of devices
exchange events over a network that loses, repeats and reorders every frame: what was sent once may
arrive any number of times, at any time, or never, which also covers lost receipts and kills between
a commit and its answer. `Rows` is the diagram a binding row follows and when a call succeeds.
`Exchange` proves exactly-once application, `Agreement` who agreed to a binding and which texts
reach a clipboard, `Decisions` that a decision is final, `Clips` that stored and written texts are
exactly the received ones while conversations are read, deleted and written by other messages.

**The control connection** (`Registry`, `Actors`). Two ends register the same connection attempts in
any order, and the least key wins on both. Two actors on one stream deliver to each other while each
serves the other, without ever confusing answers or waiting for each other, whatever either side
refuses or fails to do.

**Manifests and names** (`Paths`, `Manifest`, `SafePaths`, `Walk`, `Reachable`, `ReceivePaths`,
`Containment`). Two validators written separately accept the same lists, and exactly those that are
safe trees as texts; the breadth-first folder walk lists what the depth-first recursion reaches,
which is what a way through directories leads to; received entries get names that collide with
nothing and stay below the receive directory. `ReceivePaths` hands `Delivery` the state its runs
start from, and `ReceivePaths.FromManifestToFiles` closes the chain from a validated manifest to the
files on disk.

**Small parts** (`Events`, `Frame`, `Ids`, `Decimals`, `Slots`). The bounded event queue, the frame
codec, the canonical ids and the data connection slots.

## Where the code does less than one might expect

- A terminal error does not always mean that an event was never applied. It does for bind replies
  (`Exchange.FailedReplyIsNeverApplied`). An unbind can still be applied by a late copy after its
  row was failed, and so can an automatic clipboard text: `LateCopies.FailedUnbindMayStillBeApplied`
  and `LateCopies.FailedClipMayStillBeApplied` are such runs. With frames in order the unbind never is
  (`LateCopies.FailedUnbindInOrderIsNeverApplied`); bind requests and texts sent by hand are never
  failed between devices that have met (`LateCopies.WelcomeIsNeverFailed`).
  `Exchange.AppliedExactlyAtFirstGuard` says for events of every kind exactly when they are applied.
- Two crossing bind requests can end with both sides active under different ids
  (`SameBinding.CrossingRequestsDisagree`). `Agreement` proves a request and an acceptance behind
  each active row for every run. For equal ids on both sides one requester and frames in order are
  enough (`SameBinding.OneRequesterInOrderAgrees`), and neither can be dropped
  (`SameBinding.OvertakenRequestDisagrees`).
- A connection can be lost through what storage decides, without any fault of the stream, in three
  ways, each with a run that shows it: a `completed` receipt is refused, because the transfer was
  cleared meanwhile (`Actors.RefusedReceiptEndsConnection`); an event fails with an error that has
  no protocol code, as an offer accepted automatically into an unwritable directory does
  (`Actors.UncodedFailureEndsConnection`); or an actor cannot apply the receipt it waits for
  (`Actors.UnappliedReceiptEndsConnection`). Besides these there is only an actor that ends on its
  own or cannot write an answer: two actors with no step left but giving up have ended if and only if
  a step of the run was one of these causes (`Actors.EveryInterleavingCompletes`).
- `retire_if_address_changed` names the retired connection itself as the one kept. The class models
  this; the theorems about the least key are about runs without address changes.
- A partial that is gone is never created again: its file cannot complete any more
  (`Delivery.MissingPartialNeverCompletes`). A restart records 0 for it (`Publish.RestartIsExact`).
- A manifest's parent path has to be listed earlier, but not as a directory.

## Model

| member | source | states |
|---|---|---|
| Delivery.RunStaysSound | core_rust/src/network/data.rs:484-866 | Over any run of connections (each cut at any byte, stopped, or killed anywhere), restarts and changes of the sender's table: every partial is a prefix of its source at least as long as the recorded offset, each file is in exactly one place, no recorded offset goes down, and a completed transfer has delivered every file byte for byte and stays that way |
| Delivery.CompletesExactlyWhenTablesAgree | core_rust/src/network/data.rs:382-446 | A connection that nothing disturbs, over the whole stream of a sender with table S to a receiver with table R, completes if and only if S and R agree on every file; a completed one has delivered every file |
| Delivery.ReceiveAll | core_rust/src/network/data.rs:484-598 | The receiver itself, left alone with everything the sender writes, closes the transfer if and only if the two tables agree on every file, and then every file is delivered |
| Delivery.SendAndReceive | core_rust/src/network/data.rs:338-598 | Sender and receiver together, both left alone: the transfer is closed if and only if no source has changed at either check and the two tables agree on every file, and then every file is delivered; if a source changed while it was sent, the receiver is told and answers so |
| Delivery.MissingPartialNeverCompletes | core_rust/src/network/data.rs:617-626 | A wanted file whose partial is gone keeps every connection from completing, whatever is sent, for the receiver never creates a partial again |
| Delivery.ResumingCompletes | core_rust/src/network/data.rs:492-566 | After any run, one undisturbed connection over the whole stream of a sender that took over the receiver's offsets completes and delivers |
| Delivery.AcceptedMeansAgree | core_rust/src/network/data.rs:533-545 | An accepted final frame implies equal offsets for every file, for any cut of the stream |
| Delivery.AgreeMeansAccepted | core_rust/src/network/data.rs:492-545 | With equal tables the receiver never refuses any prefix of the stream, and accepts the whole of it |
| Delivery.ReceivingKeepsSound | core_rust/src/network/data.rs:608-698 | Whatever stops one connection, every partial keeps recorded <= length <= size and stays a prefix of its source |
| Delivery.WrittenIsConnected | core_rust/src/network/data.rs:338-445 | Whatever the sender writes, and any prefix of it that arrives, is a stream that the run theorems quantify over |
| Lockstep.Session.StaysInStep | core_rust/src/network/data.rs:382-545 | After any number of tokens the receiver holds exactly the bytes the sender has passed, and is in front of exactly what the sender has left, unless it refused |
| Lockstep.Session.NeverRefuses | core_rust/src/network/data.rs:492-545 | Two sides with the same entries and offsets never refuse one another, up to and including acceptance |
| Transfer.FeedRaws | core_rust/src/network/data.rs:627-681 | Bytes that arrive one by one inside an entry end up in its partial file in one piece, with the phase and byte count that follow |
| Transfer.FiltersAgree | core_rust/src/network/data.rs:382-389 | The sender's filter (offset != size) and the receiver's filter (offset < size) select the same entries when the tables agree |
| Transfer.FinishedAt | core_rust/src/storage/mod.rs:3717-3757 | Closing a transfer records every entry at its full size |
| ReceiveTransfer.Receiver.ReceiveTransfer | core_rust/src/network/data.rs:484-598 | One connection over any tokens leaves exactly the effect of a prefix of them: offsets within what is held and at most 65 MiB short of it, publishing only after an accepted final frame with everything recorded, and progress that strictly rises up to the total size, which a completed connection reports last; a receiver that nothing from outside disturbs reads on to the last token, or to one the automaton refuses, and reports a changed source exactly if the sender said so |
| ReceiveTransfer.Receiver.ReceiveFrames | core_rust/src/network/data.rs:508-588 | The frame loop refines the token automaton for every chunking of reads and writes; it ends without an outcome only when the automaton accepts, refuses only where the automaton refuses, and undisturbed stops nowhere else but at the end |
| ReceiveTransfer.Receiver.ReceiveLast | core_rust/src/network/data.rs:542-589 | A frame that is no header is accepted only as the final frame with the right counts, after everything wanted was received |
| ReceiveTransfer.Receiver.ReceiveHeader | core_rust/src/network/data.rs:511-541 | A header is taken only if it names the next wanted entry, its recorded offset and all its missing bytes |
| ReceiveTransfer.Receiver.ReceiveEntry | core_rust/src/network/data.rs:608-700 | The partial becomes its recorded prefix plus the bytes consumed; a cut or finished entry has all of them recorded; undisturbed it is cut only where the bytes end |
| ReceiveTransfer.Receiver.StreamEntry | core_rust/src/network/data.rs:627-697 | The chunk loop with periodic offsets: only this entry's offset moves, by no more than was written and to at most 65 MiB short of it, however it ends; undisturbed it stops early only where no byte follows; every progress report is above the one before |
| ReceiveTransfer.Receiver.PersistIfDue | core_rust/src/network/data.rs:675-681 | After each chunk less than 64 MiB are not recorded, or the entry has failed and the recorded offset stays |
| ReceiveTransfer.Receiver.TakeChunk | core_rust/src/network/data.rs:628-672 | One read and its partial writes append exactly the consumed bytes, whatever interrupts them |
| ReceiveTransfer.Receiver.PersistSafeOffset | core_rust/src/storage/mod.rs:3151-3191 | An offset is recorded only between the recorded one and the size; otherwise nothing changes |
| ReceiveTransfer.Receiver.ValidateAll | core_rust/src/network/data.rs:744-790 | The loop that validates every file before any rename decides exactly the declared condition on all files |
| ReceiveTransfer.Receiver.PublishEntry | core_rust/src/network/data.rs:800-845 | One publishing step, stopped anywhere: the file is renamed onto a free name or not at all, and its row is marked only once it is in place |
| ReceiveTransfer.Receiver.PublishReceivedFiles | core_rust/src/network/data.rs:740-847 | Stopped anywhere, every file either stayed or moved whole; a failed validation changed nothing; success means every destination is complete and marked |
| ReceiveTransfer.Receiver.FinishReceive | core_rust/src/network/data.rs:546-547 | The transfer is closed only after every file was published |
| ReceiveTransfer.Receiver.ReconcileInterruptedTransfers | core_rust/src/storage/mod.rs:2872-3074 | At start-up each unfinished file's partial is left with exactly the bytes that are recorded afterwards, or, where no more than the recorded ones are there, as it is; nothing else changes, and the table changes in one commit |
| ReceiveTransfer.EndAccepted | core_rust/src/network/data.rs:533-545 | The final frame is accepted only when every file is recorded in full |
| ReceiveTransfer.RefusesUnfit | core_rust/src/network/data.rs:533-589 | Between two frames everything but a header and the one right final frame is refused |
| Publish.PublishKeepsSound | core_rust/src/network/data.rs:793-846 | A publishing pass that stops anywhere keeps each file's bytes in exactly one place, equal to the source where published |
| Publish.SoundIsPublishable | core_rust/src/network/data.rs:744-790 | However many earlier passes were cut short, validation never refuses a fully recorded sound disk |
| Publish.PublishOne | core_rust/src/network/data.rs:797-845 | Publishing one entry leaves the places of all other entries and all foreign files alone |
| Publish.RerunsFinish | core_rust/src/network/data.rs:740-866 | After any number of passes, each stopped at any point between renames and database writes, every file is in exactly one of its two places with its bytes, the next pass is not refused, and a pass that reaches its end has delivered every file and left no partial |
| Publish.PublishedIsDelivered | core_rust/src/network/data.rs:793-846 | When all rows are marked, every destination equals its source and no partial is left |
| Publish.RestartKeepsSound | core_rust/src/storage/mod.rs:2872-3074 | A restart, committed or not, keeps every file sound and loses no recorded offset |
| Publish.RestartIsExact | core_rust/src/storage/mod.rs:2925-2950 | On any disk, a committed restart leaves an unpublished file without a complete destination at exactly the smallest of its old offset, its size and the bytes in its partial, with 0 where there is none, and a file with a complete destination at its size |
| Publish.RestartRepairs | core_rust/src/storage/mod.rs:2925-2950 | On a disk whose bytes are right, whatever was recorded, a committed restart makes every file sound for resuming; where the partial is gone nothing is recorded any more |
| SendTransfer.SendTransfer | core_rust/src/network/data.rs:338-445 | What a sender writes is a prefix of the exact stream for its table, or the whole body followed by the source-changed frame; left alone with unchanged sources it writes the whole stream and its final frame, with a source changed meanwhile the whole body and the source-changed frame, and with a source changed before exactly what comes before that file; it sends the total minus what was recorded, and its progress strictly rises |
| SendTransfer.SendEntries | core_rust/src/network/data.rs:382-433 | The entry loop writes headers and missing bytes of exactly the unsent entries in order, and stops, left alone, only at the first changed source |
| SendTransfer.SendEntry | core_rust/src/network/data.rs:401-431 | The buffer loop writes a prefix of the missing bytes, all of them when it finishes |
| SendTransfer.SourcesKept | core_rust/src/network/data.rs:434-449 | The second pass over the sources succeeds exactly when all are unchanged |
| SendTransfer.RecordedAndMissing | core_rust/src/network/data.rs:374-378 | Recorded bytes and missing bytes add up to the total size |
| Bindings.DeliveryIsAtomic | core_rust/src/storage/bindings.rs:203-868 | One delivery of any event answers from a saved receipt and changes nothing, or refuses and changes nothing, or applies the event and saves the receipt it answers with; it applies exactly the acceptable new events whose guard holds |
| Bindings.OnlyWriteFailureIsRetried | core_rust/src/network/control.rs:1439-1498 | Of the errors these transactions answer with, exactly a storage write failure is retried |
| Bindings.CallKeepsConsistent | core_rust/src/storage/bindings.rs:93-714 | No client call breaks: own device iff active binding, a clipboard mode other than off only when active, unique binding ids |
| Bindings.EventKeepsConsistent | core_rust/src/storage/bindings.rs:203-868 | No received event breaks them either |
| Bindings.ChangeKeepsConsistent | core_rust/src/storage/mod.rs:393-478 | Nor does a hello, opening, reading or deleting a conversation, receiving a message, or pruning |
| Bindings.RowWritten | core_rust/src/storage/bindings.rs:279-316 | Writing one binding row together with the relation that belongs to it keeps the tables consistent |
| Rows.CallFollowsDiagram | core_rust/src/storage/bindings.rs:93-552 | The diagram of a binding row: every call that queues a binding event moves exactly one row along its edge, changes only that peer's relation, and tells that peer just this; every other call but the choice of a mode leaves all rows and relations alone |
| Rows.EventFollowsDiagram | core_rust/src/storage/bindings.rs:203-523 | Every applied event moves exactly the sender's row along its edge, except that a request while the row is active is only noted; every other delivery leaves all rows and relations alone |
| Rows.ChangeFollowsDiagram | core_rust/src/storage/mod.rs:393-478 | Nothing else touches a row; a peer met for the first time is nearby, and opening its conversation makes a nearby peer known, and no other relation changes |
| Rows.CallSucceedsExactly | core_rust/src/storage/bindings.rs:93-714 | With new ids a call succeeds if and only if what it asks for is possible in the tables, and then it queues its event, unless it only chooses a mode or the binding is active already |
| Rows.CallAnswers | core_rust/src/storage/bindings.rs:93-714 | A request answers with the id its row carries afterwards, a decision with the peer it told, a text with its ids and the next sequence number |
| Rows.CallBlamesFault | core_rust/src/storage/bindings.rs:93-714 | Every error of a call names a fault that is there; a failure to write needs an id that is not new |
| Rows.RefusalNamesFault | core_rust/src/storage/bindings.rs:203-868 | Every refusal of a received event names a fault that is there; only an id that another row has is refused with the error that is tried again |
| Rows.ModeRoundTrip | core_rust/src/storage/bindings.rs:531-533 | The mode texts are exactly those four, each for its mode |
| Rows.UnfitTextIsRefused | core_rust/src/storage/bindings.rs:717-744 | A text that is empty, too long, of another origin, without a number or for another conversation is refused and changes nothing, whatever was received before |
| BindingStorage.Storage.RequestOwnDeviceBinding | core_rust/src/storage/bindings.rs:93-201 | The transaction as it runs equals its specification: checks in order, all or nothing |
| BindingStorage.Storage.ReceiveOwnDeviceBind | core_rust/src/storage/bindings.rs:203-267 | The same for a received request, which never overwrites an active row |
| BindingStorage.Storage.FindPendingInbound | core_rust/src/storage/bindings.rs:289-298 | Finds the one row that waits for a decision on this binding, if any |
| BindingStorage.Storage.DecideOwnDeviceBinding | core_rust/src/storage/bindings.rs:269-350 | The same for the user's decision, with its reply event and relation |
| BindingStorage.Storage.ReceiveOwnDeviceBindReply | core_rust/src/storage/bindings.rs:353-405 | The same for a received reply, which needs the pending row of exactly this binding |
| BindingStorage.Storage.RemoveOwnDeviceBinding | core_rust/src/storage/bindings.rs:407-479 | The same for removing a binding |
| BindingStorage.Storage.ReceiveOwnDeviceUnbind | core_rust/src/storage/bindings.rs:481-523 | The same for a received unbind, which needs a row of exactly this binding in any state |
| BindingStorage.Storage.SetClipboardMode | core_rust/src/storage/bindings.rs:525-552 | The same for choosing a clipboard mode, which needs an active row |
| BindingStorage.Storage.SubmitLocalClipboardText | core_rust/src/storage/bindings.rs:554-714 | The same for sending a text: next sequence number, message, dedup stamp and event in one commit |
| BindingStorage.Storage.ReceiveClipboardText | core_rust/src/storage/bindings.rs:717-868 | The same for a received text, including duplicates and the widths of the sequence number |
| BindingStorage.Storage.InsertClip | core_rust/src/storage/bindings.rs:795-848 | The rows of a new clipboard message |
| BindingStorage.Storage.ApplyOutboxReceipt | core_rust/src/network/control.rs:1938-1992 | A receipt clears its row exactly when sender, event and message id fit |
| BindingStorage.Storage.MarkOutboxProtocolFailure | core_rust/src/storage/mod.rs:1466-1534 | A terminal failure removes exactly this row |
| BindingStorage.Storage.RunOutboxEntry | core_rust/src/network/control.rs:664-695 | One attempt: a fitting receipt clears the row, a terminal error fails it, anything else leaves it for a retry |
| Replays.ErasingReplaysChangesNothing | core_rust/src/storage/bindings.rs:107-121 | Erasing every replay of an already successful client operation id and type from any trace of calls and received events, whatever its other arguments, leaves all tables, the outbox and the sequence unchanged |
| Replays.ReplayReturnsFirstResult | core_rust/src/storage/mod.rs:4928-4955 | A well-formed replay returns the result of the first success |
| Replays.ReplayChangesNothing | core_rust/src/storage/bindings.rs:571-578 | A call whose operation is remembered changes no table |
| Network.StepKeepsInv | core_rust/src/network/control.rs:780-1054 | Every step of any number of devices over a losing, duplicating, reordering network keeps the invariant: rows grounded in a request and an acceptance, events known, answers true |
| Network.CallGrounds | core_rust/src/storage/bindings.rs:269-350 | A call writes only rows and events that a request of one device and, where active or accepted, the consent of the other stand behind |
| Network.EventGrounds | core_rust/src/storage/bindings.rs:353-405 | So does every received event |
| Network.CallQueues | core_rust/src/storage/mod.rs:5025-5048 | A call queues at most one event, of the kind and binding that belong to it |
| Network.CallKeepsDead | core_rust/src/storage/bindings.rs:366-380 | A bind reply that cannot be applied now cannot be applied after any call |
| Network.EventKeepsDead | core_rust/src/storage/bindings.rs:366-380 | nor after any received event |
| Exchange.AppliedAtMostOnce | core_rust/src/storage/bindings.rs:745-758 | In any run, no event is applied twice, however often it is delivered |
| Exchange.EffectsAreApplications | core_rust/src/storage/bindings.rs:203-868 | A delivery that changes any table or writes the clipboard is the application of its event |
| Exchange.ClearedIsAppliedOnce | core_rust/src/network/control.rs:1566-1575 | When a stored receipt arrives its row is cleared, and the event was applied by exactly one earlier delivery, which saved that receipt |
| Exchange.RedeliveryRepeatsReceipt | core_rust/src/storage/bindings.rs:366-371 | Every delivery after the application changes nothing and is answered with the receipt saved first; only a bind request may fail its name check before that |
| Exchange.FailedReplyIsNeverApplied | core_rust/src/network/control.rs:676-690 | A bind reply whose row was failed by a terminal error is applied at no point of the run, before or after |
| Exchange.AppliedExactlyAtFirstGuard | core_rust/src/network/control.rs:676-690 | For every event and every run: it is applied at a delivery exactly when the guard of its kind holds there and held at no earlier delivery; so a failed unbind or clipboard update is applied iff some copy meets its guard |
| Exchange.AnswerSettlesRow | core_rust/src/network/control.rs:664-695 | The answer of the recipient clears the row of its event exactly if it is a fitting stored receipt or a terminal error, and leaves every other row alone |
| Exchange.MisfitReceiptIsIgnored | core_rust/src/network/control.rs:1938-1992 | A receipt of another sender, for another event, or for a text without its message id leaves the row where it is |
| LateCopies.FailedUnbindMayStillBeApplied | core_rust/src/storage/bindings.rs:500-509 | A concrete run in which an unbind fails with a terminal error and a later copy of it is applied: a terminal error alone does not mean never applied |
| LateCopies.FailedUnbindInOrderIsNeverApplied | core_rust/src/storage/bindings.rs:481-523 | If frames between two devices are handled in order, an unbind whose row was failed by a terminal error is applied at no point of the run |
| LateCopies.FailedClipMayStillBeApplied | core_rust/src/storage/bindings.rs:745-766 | A concrete run, with no frame overtaken, in which an automatic text is refused because the binding is not active, its row is failed, the binding becomes active, and a late copy is applied |
| LateCopies.WelcomeIsNeverFailed | core_rust/src/storage/bindings.rs:203-267 | A bind request, or a text sent by hand, whose copies all reach a device that has met the sender, under the name of the hello, is never failed by a terminal error |
| Agreement.ActiveIsRequestedAndAccepted | core_rust/src/storage/bindings.rs:269-405 | In every reachable state a binding active on either side was requested by the user of one device and later accepted by the user of the other |
| Decisions.RejectionSettles | core_rust/src/storage/bindings.rs:269-350 | A successful rejection leaves no row under that id pending or active, and a new decision on it finds no binding |
| Decisions.RejectingReplySettles | core_rust/src/storage/bindings.rs:353-405 | An applied rejecting reply leaves a row that is neither awaited nor active |
| Decisions.DecidedForGood | core_rust/src/storage/bindings.rs:286-299 | In any run, a binding that its user has decided never waits for that user again |
| Decisions.DecidedOnce | core_rust/src/storage/bindings.rs:286-299 | In any run, a binding is decided at most once |
| Decisions.RejectedIsNeverActive | core_rust/src/storage/bindings.rs:299-316 | In any run, a binding that its user rejects is active on neither side, at no point before or after |
| Agreement.TablesStayConsistent | core_rust/src/storage/bindings.rs:93-552 | In every reachable state: own device iff active, clipboard mode other than off only when active |
| Agreement.WriteNeedsUserChoice | core_rust/src/storage/bindings.rs:745-766 | Whatever a device writes, its own user had set a receiving mode for that sender, and the row has been active with that mode ever since |
| Agreement.SequencesIncrease | core_rust/src/storage/bindings.rs:605-623 | Texts a device issues carry strictly increasing positive sequence numbers |
| Clips.StoredIsReceived | core_rust/src/storage/bindings.rs:768-852 | In every reachable state, whatever was read, deleted, pruned or repeated: the clipboard texts stored from a peer are exactly those of its applied events, one row for each, with its text |
| Clips.AppliedIsWritten | core_rust/src/storage/bindings.rs:760-868 | In any run, where a text is applied it is handed to the system clipboard, as it was sent, if and only if it is automatic and the recipient's row for the sender is active with a receiving mode; nothing else is ever written |
| Clips.AppliedIsCounted | core_rust/src/storage/bindings.rs:795-852 | In any run, where a text is applied its row is stored as sent and its stamp with it, its conversation is there with one more unread, and exactly one more message is live |
| Clips.SubmittedBefore | core_rust/src/storage/bindings.rs:554-714 | Every queued text was submitted earlier by its sender's user, with that text and for that peer, and an automatic one while the row was active with a sending mode |
| Clips.WrittenWasSubmitted | core_rust/src/network/control.rs:1045-1054 | Whatever a device writes to its clipboard is a text that the other user's device submitted automatically while its own row was active with a sending mode |
| Clips.TakenIsCounted | core_rust/src/storage/mod.rs:1649-1775 | A message of a met peer under a new id is one more unread and one more live message of its conversation and changes no other; one of an unmet sender changes nothing |
| Clips.OpenedIsThere | core_rust/src/storage/mod.rs:426-478 | Opening the conversation with a met peer makes it there again, with nothing more or less unread, and leaves all messages and every other conversation alone |
| Clips.ReadIsCounted | core_rust/src/storage/mod.rs:4086-4119 | Reading up to a position leaves unread exactly the live messages after it |
| Clips.DeletedIsGone | core_rust/src/storage/mod.rs:4147-4290 | A deleted conversation has nothing live, unread or queued, and all others are as before |
| Clips.UnreadAreThere | core_rust/src/storage/mod.rs:4086-4119 | In every reachable state no conversation has more unread messages than undeleted messages of the peer, whatever was read, deleted or received |
| Clips.WrittenOnce | core_rust/src/storage/bindings.rs:768-797 | A device writes at most one text for each origin and sequence number, even after the stamp was pruned |
| Clips.StepKeepsClips | core_rust/src/storage/mod.rs:4147-4290 | Every step keeps: rows of clipboard texts known by their events, stamps known, numbers and message ids unique, unread counts within the messages there |
| Clips.UnappliedIsNew | core_rust/src/storage/bindings.rs:768-797 | A clipboard event that was not applied yet finds neither its message id nor its stamp at its recipient, so it is never taken for a duplicate |
| SameBinding.OneRequesterInOrderAgrees | core_rust/src/storage/bindings.rs:247-251 | If only one of two devices requests and its frames are handled in order (still possibly lost or repeated), two active rows always carry the same id |
| SameBinding.LaterRequestWins | core_rust/src/storage/bindings.rs:141-162 | The requester's row never goes back to the id of an earlier request |
| SameBinding.EarlierRequestCannotReturn | core_rust/src/storage/bindings.rs:235-252 | An id requested earlier than the accepted one cannot come back into the accepting device's row |
| SameBinding.SomeStepGivesId | core_rust/src/storage/bindings.rs:139-162 | A row gets an id only from a request of its own user or from the delivery of the peer's bind event |
| SameBinding.CrossingRequestsDisagree | core_rust/src/storage/bindings.rs:233-252 | One requester is needed: a concrete run with frames in order, in which two crossing requests, each accepted, leave both rows active under different ids |
| SameBinding.OvertakenRequestDisagrees | core_rust/src/storage/bindings.rs:233-252 | Order is needed: a concrete run with one requester, in which an overtaken bind event arrives after the accepted binding was taken back on one side, and both rows end active under different ids |
| Registry.ConnectionRegistry.Register | core_rust/src/network/control.rs:165-183 | A candidate is rejected exactly by a current key at most its own, otherwise it replaces the current one and retires it, naming a strictly smaller key |
| Registry.ConnectionRegistry.RemoveIfCurrent | core_rust/src/network/control.rs:193-201 | Removes the entry of one peer exactly if it still holds this key |
| Registry.ConnectionRegistry.RetireIfAddressChanged | core_rust/src/network/control.rs:203-214 | A changed address removes the entry and names the retired connection itself as the one kept |
| Registry.StepKeepsInv | core_rust/src/network/control.rs:164-201 | Registrations, retirements, notices, ending actors and timed-out deliveries keep: at most one live key on each side, duplicates give way to smaller keys, every other running actor has been told to retire or is gone |
| Registry.NoticesNameSmallerKeys | core_rust/src/network/control.rs:755-777 | Every duplicate notice names a strictly smaller key that was registered |
| Registry.LeastIsNeverClosed | core_rust/src/network/control.rs:165-183 | The least key is never closed as a duplicate by either end, and no notice is ever addressed to it |
| Registry.LeastStaysCurrent | core_rust/src/network/control.rs:185-201 | Once registered, the least key stays current until its own actor ends or a delivery over it times out |
| Registry.BothEndsAgree | core_rust/src/network/control.rs:1767-1803 | So both ends keep the same connection, whatever the order of registrations |
| Registry.DuplicatesEnd | core_rust/src/network/control.rs:755-777 | In any run, once no retirement and no notice is left to act on, neither end runs a connection that was closed as a duplicate, unless the end that closed it lost its actor before it could tell |
| Registry.OneConnectionIsLeft | core_rust/src/network/control.rs:1767-1803 | Then an end that has registered the least key and not lost it runs nothing else, apart from connections that a delivery gave up |
| Actors.ConnectionActor.DeliverOutboxBidirectional | core_rust/src/network/control.rs:1546-1612 | The delivery loop reads frames until its own answer arrives, serving everything else on the way; its result is exactly that answer, and a stored receipt counts only if it can be applied; otherwise the actor has ended, or gives up when the receipt is overdue or a row cannot be marked; with frames that come in time it gives up only after the last of them |
| Actors.ConnectionActor.HandleActorFrame | core_rust/src/network/control.rs:1384-1437 | What one incoming frame does to an actor, waiting or idle: taken, refused with a protocol code, or broken off by an error without one, which ends the actor and writes nothing |
| Actors.NothingGoesUnnoticed | core_rust/src/network/control.rs:1384-1437 | An actor that reads on after a frame has either answered it with exactly one frame that names it or taken what it awaited, and it has stored an event exactly if it answered with a receipt |
| Actors.ReachedIsGood | core_rust/src/network/control.rs:1296-1380 | In every interleaving of two actors, whatever goes wrong: at most one awaited event in each direction, matched by exactly one frame on the way (the event or its answer) unless its reader has ended on it; an actor ends only after one of the named causes; and the run is bounded |
| Actors.StepKeepsInv | core_rust/src/network/control.rs:1384-1437 | Each start, ping, read, giving up or hang-up keeps that, on both sides |
| Actors.AnswersAreAwaited | core_rust/src/network/control.rs:1560-1585 | In every run no stored receipt reaches an actor that is not waiting for that event, and an error frame that is not awaited names a `completed` receipt of the reader that its peer refused |
| Actors.ResultsAreServed | core_rust/src/network/control.rs:1560-1585 | In every run an actor has results, in order, for exactly what its peer has answered, up to one event |
| Actors.NeverStuck | core_rust/src/network/control.rs:1296-1380 | With nobody ended and work left some actor can start, ping or read: the actors never wait for each other |
| Actors.TroubleHasACause | core_rust/src/network/control.rs:1420-1431 | An actor has broken off, given up or refused a `completed` receipt exactly if some earlier step of the run was such a cause |
| Actors.EveryInterleavingCompletes | core_rust/src/network/control.rs:1546-1612 | A run in which nothing but giving up is possible any more has lost its connection, on both sides, if and only if some step of it was a cause: an event or ping broken off by an uncoded error, a `completed` receipt not taken, an awaited receipt that could not be applied, or an actor giving up; otherwise it has answered every event of both sides, in order, with the answer the other side gave, after the same number of steps in every interleaving |
| Actors.RefusedReceiptEndsConnection | core_rust/src/network/control.rs:1576-1578 | A concrete run: a `completed` receipt refused by the idle side ends both actors, and the stored receipt of an event already applied is never read |
| Actors.UncodedFailureEndsConnection | core_rust/src/network/control.rs:1420-1423 | A concrete run: an event whose handling fails without a protocol code ends its reader with neither a receipt nor an error frame, and then the other side |
| Actors.UnappliedReceiptEndsConnection | core_rust/src/network/control.rs:1566-1568 | A concrete run: an awaited stored receipt that its own storage does not take ends the waiting actor without a result, although the event was stored |
| Manifest.BuildManifest | core_rust/src/transfer/manifest.rs:174-269 | Accepts exactly the acceptable lists whose files have sources and whose JSON fits; its result is a valid manifest; every error names a fault that is there |
| Manifest.BuildManifestWithoutIds | core_rust/src/transfer/manifest.rs:309-376 | Written separately, accepts exactly the same acceptable lists and returns the sum of the file sizes; every error names a fault that is there |
| Manifest.CollectEntries | core_rust/src/transfer/manifest.rs:203-244 | The builder's loop: succeeds exactly when every item is good, every file has a source and the total fits; every error names a fault that is there |
| Manifest.ValidateManifest | core_rust/src/transfer/manifest.rs:271-307 | Accepts a received manifest exactly when its list is acceptable, its count and total are right, its ids differ and its JSON fits; every error names a fault that is there |
| Manifest.FaultIsReal | core_rust/src/transfer/manifest.rs:309-376 | A list with the fault that an error names is not acceptable, so no error contradicts the other validator |
| SafePaths.ValidMeansSafe | core_rust/src/transfer/manifest.rs:378-424 | The checks on a path accept exactly the texts, taken between their slashes, in which no piece is empty, `.` or `..`, ends in a dot or space, holds a control character, a backslash or a forbidden one, or names a device, within the limits on length and depth |
| SafePaths.AcceptableIsTree | core_rust/src/transfer/manifest.rs:174-376 | Both validators accept exactly the lists whose paths, as texts, form one tree below the display name, each path safe and listed once after its parent |
| SafePaths.UnsafeIsRefused | core_rust/src/transfer/manifest.rs:385-424 | A list in which any piece of any path is empty, `.` or `..`, or holds a backslash or a control character, or names a device, is refused by both validators |
| Manifest.ScanChecks | core_rust/src/transfer/manifest.rs:205-217 | The checks on one item mean what the declared condition says about it |
| Manifest.AncestorsComeFirst | core_rust/src/transfer/manifest.rs:211-215 | In an accepted list every proper ancestor of an entry, down to the display name, is an earlier entry |
| Manifest.AcceptedPathsAreUnique | core_rust/src/transfer/manifest.rs:203-235 | Accepted lists repeat no path, start every path at the display name, and their total fits the database column |
| Walk.EnumeratePath | core_rust/src/transfer/manifest.rs:74-172 | The whole enumeration; on success the entries are exactly what is reachable, and the builder never objects to their hierarchy; a symbolic link or a node of the wrong kind is refused exactly then; a small natural tree that is there to be read is accepted exactly if its list is acceptable and its JSON fits |
| Walk.EnumerateFolder | core_rust/src/transfer/manifest.rs:107-168 | For a folder: exactly the root and everything reachable without symbolic links, each once, parents first; with fewer than 10,000 entries, all there to be read, nothing but the builder's own conditions can fail |
| Walk.ListFolder | core_rust/src/transfer/manifest.rs:110-167 | The worklist ends, and lists the same items as the depth-first recursion, each path once; a walk that nothing disturbs succeeds with fewer than 10,000 entries |
| Reachable.ListedIsReachable | core_rust/src/transfer/manifest.rs:107-168 | Every listed item is a file or directory at the end of some way down the tree through directories alone, under the names along that way, with its own source, size and time |
| Reachable.ReachableIsListed | core_rust/src/transfer/manifest.rs:107-168 | Every file and directory at the end of such a way is listed |
| Walk.ReadDirectory | core_rust/src/transfer/manifest.rs:121-166 | One directory: what is listed and queued is what was there and what its children add |
| Walk.ReachDiffers | core_rust/src/transfer/manifest.rs:107-168 | No two items reachable in a natural tree have the same relative path |
| Walk.WalkIsHierarchical | core_rust/src/transfer/manifest.rs:200-215 | A list with parents first and no path twice passes every hierarchy check |
| ReceivePaths.UniqueDestination | core_rust/src/transfer/receiver.rs:114-136 | Returns the first free numbering of a name, after at most one probe more than there are names present |
| ReceivePaths.CandidatesDiffer | core_rust/src/transfer/receiver.rs:123-129 | Different numbers give different names |
| ReceivePaths.PrepareReceivePaths | core_rust/src/transfer/receiver.rs:33-112 | Prepares every entry as specified, below the first free root name; refuses a list whose first entry is not the display name before it touches a file; succeeds where nothing fails from outside and every entry is below the display name |
| ReceivePaths.PrepareEntries | core_rust/src/transfer/receiver.rs:57-111 | The loop prepares every entry as specified, and where nothing fails from outside it succeeds if every entry is below the display name |
| ReceivePaths.AcceptedIsPlaced | core_rust/src/transfer/receiver.rs:59-73 | In an accepted manifest every entry is below the display name, so preparing it fails only from outside |
| Containment.DestinationsStayBelow | core_rust/src/transfer/receiver.rs:59-107 | Resolving `.` and `..` in the destination or the partial of an entry of an accepted manifest changes nothing: both are below the receive directory, under the chosen name |
| Containment.CandidateKeepsExtension | core_rust/src/transfer/receiver.rs:114-136 | A numbered name keeps its beginning and its extension |
| Containment.CandidateWithoutExtension | core_rust/src/transfer/receiver.rs:119-129 | A name without a dot, or with one only at its beginning, is numbered at its end |
| Containment.PartialsOfTransfersDiffer | core_rust/src/transfer/receiver.rs:90-90 | Two transfers never share a partial, even for one destination |
| ReceivePaths.DestinationIsRootAndTail | core_rust/src/transfer/receiver.rs:59-73 | In an accepted manifest each destination is the chosen root extended by the entry's remaining segments |
| ReceivePaths.PreparedIsValid | core_rust/src/transfer/receiver.rs:57-111 | For an accepted manifest, distinct entries get distinct destinations and distinct partials, and no partial is a destination |
| ReceivePaths.PartialAfterPreparing | core_rust/src/transfer/receiver.rs:83-107 | After preparing, each partial holds the beginning of what was there, up to the size of its entry, none where there was no file, and the prepared offset is its length |
| ReceivePaths.PreparedIsAccepting | core_rust/src/transfer/receiver.rs:83-107 | Such a transfer, with the prepared offsets and with partials that may already hold the beginning of their sources, starts in a state from which the run theorems of `Delivery` hold |
| ReceivePaths.FromManifestToFiles | core_rust/src/transfer/receiver.rs:33-112 | End to end: a validated manifest prepared below a free name over partials that may hold the beginning of their sources, then any run of connections, cuts, kills and restarts; once the transfer counts as completed every file of the manifest is at root plus its remaining segments, byte for byte |
| Paths.SplitOfJoin | core_rust/src/transfer/receiver.rs:138-142 | Splitting what was joined gives the segments back |
| Events.EveryInterleavingIsHonest | core_rust/src/events.rs:101-137 | In one subscription, for every interleaving: the queue stays within 1024, the consumer sees what was accepted in order, and the first event accepted after any dropped one is an invalidation |
| Events.EventQueue.PublishEvent | core_rust/src/events.rs:101-137 | Publishing never waits, and does what its specification says whenever the consumer runs or, unless it stays alive, disappears |
| Events.EventsGetIn | core_rust/src/events.rs:101-137 | With a consumer that is there an event is dropped only into a full queue; while nothing is owed an event that finds room gets in; after a drop one that finds room for two gets in behind an invalidation, and nothing is owed any more |
| Events.GoneIsForGood | core_rust/src/events.rs:119-136 | The attempt that finds the consumer gone ends the subscription, and later events change nothing |
| Events.EventQueue.Subscribe | core_rust/src/events.rs:57-74 | A subscription starts with an empty queue and a clean flag, and publishes its ready event after whatever other threads publish in between, as one more run of publishers and consumer |
| Events.PublishedKeepsGood | core_rust/src/events.rs:101-137 | The specification of publishing keeps the queue honest |
| Frame.RoundTrip | core_rust/src/protocol/frame.rs:18-60 | Decoding the concatenation of framed payloads gives them back, followed by whatever comes after |
| Frame.TruncationYieldsCompleteFrames | core_rust/src/protocol/frame.rs:18-32 | A stream cut inside a frame yields exactly its complete frames, then an error |
| Frame.AcceptedFramesAreWithinLimit | core_rust/src/protocol/frame.rs:24-28 | No frame outside the limit is accepted |
| Frame.BadLengthIsReported | core_rust/src/protocol/frame.rs:24-28 | A length of zero or beyond the limit is reported before any payload is read |
| Frame.Stream.ReadFrame | core_rust/src/protocol/frame.rs:18-32 | Reading in pieces of any size gives the decoded frame |
| Frame.WriteControlFrame | core_rust/src/protocol/frame.rs:34-40 | Control frames are written exactly up to their own limit |
| Frame.WriteFrame | core_rust/src/protocol/frame.rs:42-60 | A frame is written exactly when its payload is within the limits |
| Ids.DeviceRoundTrip | core_rust/src/domain/ids.rs:64-98 | Parsing a printed device id gives it back |
| Ids.DeviceTextIs | core_rust/src/domain/ids.rs:64-71 | The text of a device is `d_` and two lower-case hexadecimal digits for each byte, the high one first |
| Ids.DeviceTextIsCanonical | core_rust/src/domain/ids.rs:74-98 | Any accepted device text is reprinted unchanged |
| Ids.ReadDevice | core_rust/src/domain/ids.rs:77-97 | The parsing loop equals its specification |
| Ids.DisplayDevice | core_rust/src/domain/ids.rs:64-71 | The printing loop equals its specification |
| Ids.PrivateRoundTrip | core_rust/src/domain/ids.rs:126-172 | Parsing a printed conversation id gives it back |
| Ids.PrivateTextIs | core_rust/src/domain/ids.rs:126-151 | The text of a conversation names first the device that is smaller at the first byte in which the two differ |
| Ids.PrivateIsSymmetric | core_rust/src/domain/ids.rs:127-140 | Both peers derive the same conversation |
| Ids.PrivateIsInjective | core_rust/src/domain/ids.rs:126-151 | Different unordered pairs give different texts |
| Ids.PrivateTextIsCanonical | core_rust/src/domain/ids.rs:153-172 | Accepted text is canonical, with its devices in order |
| Ids.GroupRoundTrip | core_rust/src/domain/ids.rs:182-227 | Parsing a printed group id gives it back |
| Ids.GroupTextIsCanonical | core_rust/src/domain/ids.rs:208-227 | Accepted text is reprinted unchanged and has a positive 64-bit sequence |
| Ids.NonCanonicalSequenceIsRejected | core_rust/src/domain/ids.rs:211-226 | Leading zeros and plus signs are rejected although they parse as numbers |
| Slots.EveryInterleavingIsWithin | core_rust/src/network/data.rs:134-154 | No interleaving of reservations and drops exceeds two for a peer or four in all |
| Slots.DataSlots.Reserve | core_rust/src/network/data.rs:125-142 | Succeeds exactly when both limits leave room; the map counts exactly the live guards |
| Slots.DataSlots.Drop | core_rust/src/network/data.rs:144-154 | Decrements a count that is there and positive, and leaves no zero entry |
| Slots.DataSlots.Total | core_rust/src/network/data.rs:136-136 | The sum over the map is the number of live guards |

## Left out

- `content://` documents on Android and `platform_io.rs`: foreign calls, and such files are not truncated on resume.
- Power loss: recording an offset only flushes, so written bytes are taken to survive a process kill, as they do.
- A source file that changes while its bytes are read and has its old size and time back afterwards.
- Two connections of the same transfer at the same time: the storage lock that claims a transfer is not part of this model.
- JSON, versions and transfer ids inside frames: any frame that fails those checks is one token, or one refused frame.
- A frame header that begins inside the raw bytes of an entry: raw bytes carry no frames, so a frame there ends the flow.
- The `data_complete` answer and what the sender records when it arrives; the sender's table is any table within the sizes.
- Files that someone else creates at a destination or partial path during a transfer.
- Directories as objects of the file system, and case-insensitive names.
- An entry named exactly like another entry's partial: excluded by the precondition `NoPartialNames`.
- Sorting of directory listings: a directory's children are taken in the order in which the walk sorts them.
- Message delivery states, groups, and what text messages and file offers carry; a private message received is one more row and one more unread.
- A text message or file offer under a message id that is stored already: ids are new, and such a message changes nothing here.
- Clipboard images, which also take a sequence number and write a dedup stamp. The pruning they trigger is a step that may drop any stamps at any time.
- The order of messages in a conversation: reading may keep any set of the peer's undeleted messages as unread.
- BindingStorage.Storage.MarkOutboxProtocolFailure: does not model that the message's delivery state or the transfer is marked failed, only the outbox row.
- `file_offer` auto-accept, which commits before it may fail, is not an event of `Network`.
- Retry counters, delays and the limit of 16 rows for each outbox pass: a retry may come at any time.
- Clocks and ping intervals: nondeterministic steps. An overdue receipt, an idle close, a stop and a retirement are one step of `Actors`, `Abandon`, possible at any time.
- The `duplicate_connection` frame of a retired actor is no frame of `Actors`: its peer hangs up.
- Blocking on full TCP buffers, and a poll timeout in the middle of a frame: streams of `Actors` are unbounded and deliver whole frames.
- Actors.ConnectionActor.HandleActorFrame: does not model frames that fail their version checks. An answer whose writing fails is not written, and a frame of the actor's own whose writing fails counts as written before it gives up.
- Registry.BothEndsAgree: address changes are not steps of the two-end machine.
- `domain/state.rs`, discovery, identities, the `api` wrappers, generated code and the Flutter side.
