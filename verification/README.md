# Denon AVR remote: a verified model

A Dafny model of the parts of the Denon AVR remote whose correctness rests on state, order or
crashes, with proofs of what those parts promise. `dafny verify dfyconfig.toml` checks all of it.

The remote controls an audio-video receiver for a human Operator and for software agents. Agents are
limited by a volume budget, which is measured over a ledger of recent volume changes that must survive
a crash. Each part below is one or more modules.

- **The volume ledger** (`Ledger`) and **the operation gate** (`Operations`, `OperationGate`,
  `CrashSafety`, `GateWitnesses`). Every operation's task is modelled step by step: judge and reserve, move to allowed,
  record, enter the session, call `operate`, settle, finish, record again, and the guard that runs when a
  task returns or panics. Steps of any number of operations interleave with cancels, evictions, late
  audit appends, log rebuilds, shutdown, and crashes that keep any choice of log lines as long as every
  synced one is kept. The invariants hold over every run, through any number of crashes.
- **The event-stream reader** (`EventStream`, `Utf8`): the byte-at-a-time parser of server-sent events
  against the line-and-group format of section 9.2 of the WHATWG HTML Living Standard.
- **HTTP response framing** (`HttpText`, `HttpFraming`, `HttpRead`, `HttpRoundTrip`, `HttpSpelling`): the read loop that
  re-frames a growing prefix, the header rules of section 6.3 of RFC 9112, and the chunked coding of
  section 7.1 of RFC 9112.
- **The receiver's state** (`Receiver`, `ReceiverHistory`, `FieldHistory`) and **preconditions** (`Precondition`): the
  reducer refines a scan of the whole history of calls, values and reasons alike.
- **The state on the wire** (`StateView`): what the Operator and the Agent are served, what a client
  rebuilds from it, and what the desktop displays.
- **The bridge and the window** (`Bridge`, `Window`, `GuiBridge`, `GuiReads`, `GuiProgress`, `GuiDisplay`,
  `GuiRequests`, `GuiConnection`): one loop over commands, a coalescing state channel and finished tasks,
  composed with the window that consumes its events. Whatever comes from outside, the two do a bounded amount
  of work for it and come to rest, with every request answered, no read awaited and the newest state on display.
- **Schedules and budgets** (`TransmissionSchedule`, `LogRetention`), **the guarded configuration write**
  (`ConfigWrite`, section 13.1.1 of RFC 9110) and **request paths** (`Paths`, sections 2.1 and 2.3 of
  RFC 3986).

Objects the source changes in place are classes here, each method proved equal to a function on the
object's value; the state machines and theorems are about those functions.

What the environment supplies is a parameter or a free choice of a step: clock readings (which may step
back), what a session answers, whether an append succeeds, lands late or is lost, what the policy
decides, which state a receiver reports. Texts shown to people, sockets, files and JSON are left out.

Points where the code does less than one might expect, each shown by a run:

- A ledger rebuilt late can bring back an operation that was released between reading the log and merging
  it, so the budget counts a change nobody made (`GateWitnesses.LateMergeOverCounts`). This is the only way
  an entry is revived (`CrashSafety.OnlyAStaleReadingRevives`), and the live and the rebuilt budget agree
  exactly when no revived entry is in the window. It never counts too little.
- The Operator's write goes ahead with a failing log, and a restart then does not count it
  (`GateWitnesses.OperatorWriteIsForgotten`). Any write is rebuilt exactly when its record survived
  (`CrashSafety.WritesAreRebuiltExactlyWhenRecorded`); an agent's always does.
- A reservation and its `Dispatching` record read the clock separately, so the two ledgers can date one
  change differently (`GateWitnesses.TwoReadingsDiffer`); neither forgets it. A clock that steps back before
  an end is recorded can make a rebuild count a released change (`GateWitnesses.UnorderedRecordsDiffer`): of
  every operation, a rebuild counts it exactly when its record is of the day asked for and no record of its
  release is (`CrashSafety.RebuiltExactlyWhenUnreleased`).
- The reducer accepts an epoch it has had before once the receiver was disconnected, which revives a
  precondition bound to it (`ReceiverHistory.ReusedEpochRevivesAuthority`). Authority is void exactly
  unless that epoch was established again since the last disconnect and none greater was.
- A request that times out while the configuration file is being replaced frees the lock, and the
  replacement still lands, over whatever another client saved in between
  (`ConfigWrite.GoingAwayMidSaveCanLoseAnUpdate`). Without that no update is lost.
- A source list the user asks for after choosing a name that no receiver can have, and before choosing another,
  is dropped by the loop, and its flag stays up (`GuiReads.UnselectedCatalogIsLost`). It is the one read that
  can be lost (`GuiReads.OneReadAtATime`).

## Model

| member | source | states |
|---|---|---|
| `Ledger.VolumeLedger.Reserve` | crates/application/src/ledger.rs:60-65 | the book is the old one with the change appended for its receiver |
| `Ledger.VolumeLedger.Settle` | crates/application/src/ledger.rs:69-76 | the book is the old one, without the operation's entries when nothing was dispatched |
| `Ledger.VolumeLedger.Merge` | crates/application/src/ledger.rs:87-96 | the nested loops compute the union of the two books |
| `Ledger.VolumeLedger.Prune` | crates/application/src/ledger.rs:123-129 | the loop leaves exactly what is at most a day old, and no empty list |
| `Ledger.Rebuild` | crates/application/src/ledger.rs:138-180 | the two passes and the pruning compute the book the records describe |
| `Ledger.SortIsStable` | crates/application/src/ledger.rs:117 | the sort by time is sorted, a permutation, and keeps the order of changes of one time |
| `Ledger.StableSortIsUnique` | crates/application/src/ledger.rs:117 | sorted lists with the same changes of each time in the same order are equal |
| `Ledger.RecentIsTheWindow` | crates/application/src/ledger.rs:102-119 | a budget reads exactly the changes inside its window, each as often as entered, oldest first, ties in entry order |
| `Ledger.PruningIsUnseen` | crates/application/src/ledger.rs:121-129 | pruning never changes what is read at that time or later over a window of at most a day |
| `Ledger.MergeIsUnionByOperation` | crates/application/src/ledger.rs:84-96 | merging is union by operation: unique keys stay unique, an entry is in exactly if held, or new and not held under its key; merging again or with itself changes nothing |
| `Ledger.SettlingUndoesReserving` | crates/application/src/ledger.rs:58-76 | reserving under a new key and settling as not dispatched restores every receiver's entries |
| `Ledger.RebuildReadsTheLog` | crates/application/src/ledger.rs:138-180 | receiver by receiver, rebuilding is reading the last day's volume records in log order, but those released |
| `Ledger.RebuiltExactlyWhen` | crates/application/src/ledger.rs:133-137 | an entry is rebuilt exactly when a record of the last day makes it and no `Finished` record releases its operation |
| `Ledger.RebuildIgnoresOrder` | crates/application/src/ledger.rs:138-180 | however records are interleaved, the rebuilt budget has the same changes |
| `Ledger.UnreadableLevelsAreGuessedLow` | crates/application/src/ledger.rs:183-188 | a recorded level that is on the scale is read as it is, and one that is not as a level no level is below |
| `Ledger.UnnamedIsNeverSettled` | crates/application/src/ledger.rs:162-176 | settling any operation leaves what a record without an operation charged |
| `Ledger.WiderBudget` | crates/application/src/ledger.rs:102-119 | of two books with unique keys, one holding all the other does in a window, its budget reads all the other's changes, and the same ones exactly when it holds nothing more there |
| `Operations.Resolve` | crates/application/src/service/operations.rs:62-109 | every outcome resolves to a terminal status, confirmed exactly when the value was observed, dispatched as the session said |
| `Operations.ReportsReadBack` | crates/application/src/service/operations.rs:60-109 | what the session reported reads back from how the operation ended, and only from that |
| `Operations.StatusesAreOfOneKind` | crates/application/src/service/operations.rs:112-120 | every status can be withdrawn, is in session, or is over, and only one of these; the ones that are over are the ten that cannot change |
| `Operations.ChangesSayWhatHappened` | crates/application/src/service/operations.rs:269-302 | allowing makes it possible to enter the session and still to withdraw; entering, to end and no longer to withdraw; ending shows what it was ended with; nothing else touches dispatch and confirmation |
| `Operations.OperationTable.Transition` | crates/application/src/service/operations.rs:237-258 | a change is applied or refused as the snapshot allows, to that operation alone, and the table stays sound |
| `Operations.OperationTable.Cancel` | crates/application/src/service/operations.rs:329-354 | cancelling succeeds exactly for a visible, cancellable operation, and otherwise changes nothing |
| `Operations.OperationTable.EndTask` | crates/application/src/service.rs:277-303 | the guard leaves the operation ended: in-session ones indeterminate and unknown, other running ones rejected and not dispatched, ended ones untouched; and counts the task out |
| `Operations.OperationTable.EvictFinished` | crates/application/src/service/operations.rs:207-233 | eviction keeps the table sound and drops the oldest finished operations |
| `Operations.OperationTable.Admit` | crates/application/src/service/operations.rs:130-203 | exactly when a request is refused as closed, as reusing a key for another request or as over the caps, when it is matched to the operation it repeats, by owner, receiver and intent, and when it gets a new id; a new operation of the Operator's can enter the session, an agent's only once it is allowed, with nothing shown as dispatched or confirmed; the table holds no more than are retained unless all of it runs, and nothing goes while there is room; a retry key always names a listed operation and no two running operations are the same request |
| `Operations.FindTwin` | crates/application/src/service/operations.rs:151-163 | a running operation with the same request is found exactly when there is one |
| `Operations.EvictionSparesTheRunning` | crates/application/src/service/operations.rs:205-233 | eviction never drops a running operation, and drops as many finished ones as it must or can |
| `Operations.EvictionIsOldestFirst` | crates/application/src/service/operations.rs:205-233 | if a finished operation survives, so does every finished one admitted after it |
| `Operations.EvictionMakesRoom` | crates/application/src/service/operations.rs:207-215 | eviction leaves fewer than are retained, or only what runs; lets none go while there is room, and no more than makes room for one |
| `OperationGate.ActsKeepOpOk` | crates/application/src/service.rs:308-449 | every act of a task, a client or a panic keeps: at most one call, none once withdrawn, none of an agent's without a synced record; what may be written stays reserved and is never recorded as not dispatched |
| `OperationGate.TasksKeepCount` | crates/application/src/service.rs:301 | a task is counted out once, when its guard has run |
| `OperationGate.TasksStartAsAdmitted` | crates/application/src/service/operations.rs:166-187 | a task starts with the status its operation was admitted in |
| `OperationGate.EveryOperationCanBeDone` | crates/application/src/service.rs:308-424 | an agent's operation that is allowed and recorded, and the Operator's whether or not the log works, can go through one call to its end, for every report of the session, which is then what its client and the log are told |
| `OperationGate.RefusalsAreTold` | crates/application/src/service.rs:328-361 | every refusal can be told: no call, nothing reserved, and the client shown exactly it |
| `CrashSafety.StepsKeepTrailOk` | crates/application/src/service/agent/decision.rs:104-202 | in every step, each record in the log or on its way to it says what its operation did, and no operation has two `Dispatching` records |
| `CrashSafety.StepsKeepLedgerOk` | crates/application/src/service/agent/budget.rs:31-63 | in every step, what this run reserved is counted, what earlier runs left is counted once the ledger is ready, each operation once |
| `CrashSafety.RunsStayOk` | crates/application/src/service.rs:308-424 | every state of every run, through any crashes, satisfies the whole invariant |
| `CrashSafety.RestartNeverUnderCounts` | crates/application/src/ledger.rs:9-13 | at any point of any run, whatever unsynced lines a crash loses, the restarted budget reads every volume change an agent's operation may have written |
| `CrashSafety.LiveLedgerNeverUnderCounts` | crates/application/src/service/agent/budget.rs:181-262 | every change an agent's operation may have written, in this run or any before, and not yet pruned, is held under the operation's key at its reserved or recorded time and read by every budget check whose window reaches both |
| `CrashSafety.LiveLedgerCountsEach` | crates/application/src/ledger.rs:9-13 | a budget check reads at least as many changes as there are such operations: none stands for two |
| `CrashSafety.RebuiltExactlyWhenUnreleased` | crates/application/src/service/agent/budget.rs:39-53 | of every operation of every run, and whatever lines a crash leaves, a rebuild names it exactly when it is a volume change, its `Dispatching` record is left and of the last day, and no record of the last day is left that it wrote nothing |
| `CrashSafety.WritesAreRebuiltExactlyWhenRecorded` | crates/application/src/service/agent/decision.rs:24-76 | any write, the Operator's included, is rebuilt exactly when its `Dispatching` record survived and is of the last day |
| `CrashSafety.RecordedLedgersAgreeExactlyWhen` | crates/application/src/ledger.rs:84-180 | when everything is recorded, however early or late the ledger was rebuilt, the live budget has all the changes of the one a restart would rebuild, and the same ones exactly when no revived entry of the receiver is in the window, for every receiver and window of at most a day |
| `CrashSafety.OnlyAStaleReadingRevives` | crates/application/src/service/agent/budget.rs:39-53 | an entry is revived only by finishing a rebuild, and exactly when the log was read with its beginning and without its release, and the operation released its reservation before the merge; never by a rebuild before the run's first operation |
| `CrashSafety.OperationsEndOnce` | crates/application/src/service.rs:272-303 | an operation whose task is over has ended, its status never changes again, `operate` is called at most once, and never once a cancel won |
| `CrashSafety.TheLogSaysWhatWasTold` | crates/application/src/service.rs:440-448 | in every run a record of an end has the dispatch its client is shown, and after a call the one the session answered |
| `CrashSafety.DyingInSessionIsIndeterminate` | crates/application/src/service.rs:283-297 | of a task that dies in session: at every later point of the run, once its guard has run, it is shown indeterminate with unknown dispatch or was evicted; and unless `operate` had answered that nothing was dispatched, it stays reserved for ever and counted by its process |
| `CrashSafety.ShutdownWaitsForEveryTask` | crates/application/src/service.rs:188-205 | sessions are closed only when no task of the run is left |
| `GateWitnesses.LateMergeOverCounts` | crates/application/src/service/agent/budget.rs:39-53 | a run, everything recorded, in which the log was read before an operation was released and merged after, so that the live budget counts strictly more than a restart would |
| `GateWitnesses.OperatorWriteIsForgotten` | crates/application/src/service/agent/decision.rs:39-44 | a run in which the Operator's write is made with the log failing, and no ledger rebuilt after the crash names it |
| `GateWitnesses.TwoReadingsDiffer` | crates/application/src/service/agent/audit.rs:51-59 | a run in which a reservation and its record are dated apart, and the live and the rebuilt budget hold the change at different times |
| `GateWitnesses.UnorderedRecordsDiffer` | crates/application/src/service/agent/budget.rs:40-44 | a run in which the clock stepped back before an operation's end was recorded, and a rebuild that asks for the last day counts what the live ledger released |
| `EventStream.Parser.Push` | crates/api-contract/src/events.rs:121-142 | the loop leaves the parser, or fails, as the byte-by-byte machine does, with its events in order |
| `EventStream.Parser.EndLine` | crates/api-contract/src/events.rs:144-170 | a finished line changes the draft, or fails, as the format says |
| `EventStream.Parser.Dispatch` | crates/api-contract/src/events.rs:172-185 | a blank line takes the draft and yields its event if it has data and a known name |
| `EventStream.FieldsAreReadAsWritten` | crates/api-contract/src/events.rs:153-156 | whatever the field and the value: after a colon and a space the value is the rest; after a colon alone it is the rest exactly unless that begins with a space; without a colon it is empty |
| `EventStream.LinesAreTakenAsWritten` | crates/api-contract/src/events.rs:150-168 | a line written as any field or a comment gives the event its name, one more value, or leaves it as it is |
| `EventStream.NamesAreExact` | crates/api-contract/src/events.rs:40-42 | a name is understood exactly when it is one of the four |
| `EventStream.WordsAreSpelled` | crates/api-contract/src/events.rs:31-38 | the words of the protocol |
| `EventStream.DataHasItsLines` | crates/api-contract/src/events.rs:180-183 | the data of an event splits at its line feeds into the values it was given |
| `EventStream.ChunkingIsIrrelevant` | crates/api-contract/src/events.rs:102-142 | however a stream is cut into chunks, the events, the error and the parser's state are those of one push, and on an error the caller keeps exactly the events of the chunks before the one it is in |
| `EventStream.AnyTwoCutsDeliverAlike` | crates/api-contract/src/events.rs:121-142 | two ways to cut one stream give the caller the same events as far as the one with fewer goes, and all the same ones if there is no error |
| `EventStream.ParserIsTheFormat` | crates/api-contract/src/events.rs:121-185 | feeding a stream is splitting it into lines, CRLF pairs included, and grouping the lines, up to the limits |
| `EventStream.AcceptedExactlyWhen` | crates/api-contract/src/events.rs:121-170 | a stream is accepted exactly when it is one of events written of fields and comments, each line of text and each line and event's data within the limit |
| `EventStream.RefusalsSayWhy` | crates/api-contract/src/events.rs:133-163 | a stream of text is never refused as not text, and one within the limit never as too large |
| `EventStream.StaysBounded` | crates/api-contract/src/events.rs:133-163 | after any bytes accepted, the line is within the limit, the data count is exact, and every event's data is shorter than the limit |
| `EventStream.WrittenStreamReadsBack` | crates/api-contract/src/events.rs:120-185 | any events, whole and one not ended, with fields of any name written with a space, without one or without a colon, comments among them and any one terminator, read back as exactly those with data and a known name, each with its last name and all its data |
| `Utf8.BytesAreTextExactlyWhen` | crates/api-contract/src/events.rs:144-146 | bytes are text exactly when they are the UTF-8 of some characters, and read as those |
| `HttpFraming.ReadBodyFraming` | crates/infrastructure/src/app_command_http.rs:305-351 | the loop over header lines decides the framing the header fold decides |
| `HttpFraming.HeadersMeanTheirValues` | crates/infrastructure/src/app_command_http.rs:308-331 | the fold fails exactly on a repeated or unreadable header, and otherwise holds the values written |
| `HttpFraming.FramingIsDecidedByTheHeaders` | crates/infrastructure/src/app_command_http.rs:332-350 | each framing is chosen exactly when the headers say so and do not conflict; conflicting or unsupported exactly when the headers are read and say so |
| `HttpFraming.HeadersFailAtTheFirstFault` | crates/infrastructure/src/app_command_http.rs:308-331 | reading the headers fails exactly with the first line that repeats a framing header or gives a length that is no number |
| `HttpFraming.ReadPiece` | crates/infrastructure/src/app_command_http.rs:357-402 | one turn of the decoder reads the next piece |
| `HttpFraming.DecodeChunkedBody` | crates/infrastructure/src/app_command_http.rs:353-416 | the cursor loop computes the decoding of the pieces |
| `HttpFraming.DecodingIsStable` | crates/infrastructure/src/app_command_http.rs:353-416 | a decoding that succeeded or failed on a prefix is the same on every longer input |
| `HttpFraming.DecodingIsExact` | crates/infrastructure/src/app_command_http.rs:353-416 | the consumed length lies inside the input and those bytes alone decode to the same |
| `HttpFraming.DecodedBodyIsBounded` | crates/infrastructure/src/app_command_http.rs:403-412 | a decoded body is never over the limit |
| `HttpRead.ExpectationIsStable` | crates/infrastructure/src/app_command_http.rs:267-296 | an expected length or an error found on a prefix is found on every longer input |
| `HttpRead.CompleteResponseFrames` | crates/infrastructure/src/app_command_http.rs:238-257 | once the expected length is held, exactly those bytes frame as a body |
| `HttpRead.ReadResponse` | crates/infrastructure/src/app_command_http.rs:104-135 | the read loop computes the fold over the segments |
| `HttpRead.SegmentationIsIrrelevant` | crates/infrastructure/src/app_command_http.rs:104-135 | for every segmentation the result is that of the whole stream, except that a stream over the limit may be refused for its size |
| `HttpRead.AnyTwoSegmentationsAgree` | crates/infrastructure/src/app_command_http.rs:104-135 | two segmentations of one stream within the limit give the same bytes or the same error |
| `HttpRoundTrip.DecodingUndoesEncoding` | crates/infrastructure/src/app_command_http.rs:353-416 | every list of non-empty chunks within the limit, in any spelling of sizes and any trailer, decodes to its data and the exact length |
| `HttpRoundTrip.DecodedWasEncoded` | crates/infrastructure/src/app_command_http.rs:353-416 | the decoder accepts nothing else: what it decodes is the encoding of what it returns |
| `HttpRoundTrip.CutOffChunksAreIncomplete` | crates/infrastructure/src/app_command_http.rs:248-255 | no proper beginning of an encoding is a body |
| `HttpSpelling.HexSpells` | crates/infrastructure/src/app_command_http.rs:364-368 | every size has a spelling the decoder accepts |
| `HttpRoundTrip.ChunkedResponseIsReadBack` | crates/infrastructure/src/app_command_http.rs:104-139 | a chunked response arriving in any pieces, with any bytes after it, is read as exactly its payload |
| `HttpRoundTrip.MeasuredResponseIsReadBack` | crates/infrastructure/src/app_command_http.rs:276-280 | a response with a length, whatever bytes follow and in any pieces within the limit, is read exactly and its body is those bytes |
| `HttpRoundTrip.ClosedResponseIsReadBack` | crates/infrastructure/src/app_command_http.rs:294 | a response without framing is read whole and its body is all after the blank line |
| `HttpRoundTrip.CutOffResponseIsRefused` | crates/infrastructure/src/app_command_http.rs:238-247 | a body shorter than its length is read to the end and refused |
| `HttpRoundTrip.TooLongResponseIsRefused` | crates/infrastructure/src/app_command_http.rs:126-131 | a response that announces more than the limit is refused, in whatever pieces it comes |
| `HttpRoundTrip.OverflowingResponseIsRefused` | crates/infrastructure/src/app_command_http.rs:276-280 | so is one whose length no machine word holds |
| `HttpText.WhiteIsListed` | crates/infrastructure/src/app_command_http.rs:313 | what is trimmed are the characters with the property White_Space |
| `HttpText.TrimIsExact` | crates/infrastructure/src/app_command_http.rs:313 | trimming takes off exactly the white space around |
| `HttpSpelling.NumbersAreReadAsSpelled` | crates/infrastructure/src/app_command_http.rs:321 | a machine word is read exactly from the numerals that spell it, zeros in front, letters of either case and one plus sign allowed |
| `HttpSpelling.HeadersAreReadAsSpelled` | crates/infrastructure/src/app_command_http.rs:308-320 | a line gives a header a value exactly when it is the name with its letters in any case, a colon, and the value with any white space around it |
| `HttpSpelling.TextIsReadByLines` | crates/infrastructure/src/app_command_http.rs:308 | lines ended by line feeds, with or without carriage returns, are read as those lines |
| `HttpSpelling.FramingIsReadFromText` | crates/infrastructure/src/app_command_http.rs:305-351 | from the text of a head: it has a length, is chunked, or runs to the end exactly when its lines, spelled out, say so |
| `HttpSpelling.WrittenLengthIsReadBack` | crates/infrastructure/src/app_command_http.rs:105-139 | from the text of the head to the body, for a length |
| `HttpSpelling.WrittenChunksAreReadBack` | crates/infrastructure/src/app_command_http.rs:105-139 | from the text of the head to the body, for chunks |
| `HttpSpelling.WrittenToTheEndIsReadBack` | crates/infrastructure/src/app_command_http.rs:105-139 | from the text of the head to the body, to the end of the connection |
| `HttpSpelling.SizesAreReadAsSpelled` | crates/infrastructure/src/app_command_http.rs:364-368 | a chunk's size is read exactly from the hexadecimal numerals that spell it, with white space around and anything after a semicolon |
| `Receiver.Session.Reduce` | crates/domain/src/receiver_state.rs:535-587 | a frame is taken exactly when it is of this receiver and epoch, and changes its own field alone |
| `Receiver.Session.ExpireFields` | crates/domain/src/receiver_state.rs:455-468 | exactly the fields that are due expire, and the answer says whether any did |
| `Receiver.Session.MarkDisconnected` | crates/domain/src/receiver_state.rs:441-451 | every observed field goes stale and the epoch is gone |
| `Receiver.Session.MarkQueryFailed` | crates/domain/src/receiver_state.rs:505-517 | the field alone goes stale, or keeps its issue if it was never observed |
| `Receiver.Session.EstablishEpoch` | crates/domain/src/receiver_state.rs:470-477 | an epoch is taken exactly when it is greater or there is none |
| `Receiver.Session.RecordDiagnostic` | crates/domain/src/receiver_state.rs:431-439 | the last 32 diagnostics are kept |
| `Receiver.Session.MarkConverging` | crates/domain/src/receiver_state.rs:479-493 | only the field's synchronization mark changes |
| `Receiver.Session.MarkSettled` | crates/domain/src/receiver_state.rs:495-502 | only the field's synchronization mark changes |
| `ReceiverHistory.EpochIsTheGreatest` | crates/domain/src/receiver_state.rs:441-477 | the epoch is the greatest established since the last disconnect |
| `ReceiverHistory.RunIsItsFields` | crates/domain/src/receiver_state.rs:431-588 | the state after any calls is each field run on its own effects |
| `ReceiverHistory.FieldIsTheScan` | crates/domain/src/receiver_state.rs:161-186 | a field holds its last observation, current exactly until something spoils it |
| `ReceiverHistory.CapturedExactlyWhen` | crates/domain/src/precondition.rs:61-94 | after any calls a value is captured exactly when the last accepted frame to tell the field told it, and no disconnect, failed query, unavailable frame or due expiry followed |
| `ReceiverHistory.LastGoodIsTheLastTold` | crates/domain/src/receiver_state.rs:161-166 | the last good observation is the last accepted frame that told the field, whatever happened since |
| `ReceiverHistory.ObservationsAreTheReceiversOwn` | crates/domain/src/receiver_state.rs:531-552 | a field only ever holds what its own receiver said, on a connection that stood then |
| `ReceiverHistory.DiagnosticsAreTheLast` | crates/domain/src/receiver_state.rs:431-439 | after any calls the diagnostics are the last 32 recorded |
| `FieldHistory.FieldsSayWhatHappenedLast` | crates/domain/src/receiver_state.rs:441-614 | after any calls a field's validity and its reason are what the last call to change it made them, a disconnect, a failed query, a due expiry, an unavailable frame or a value; its issue is the last one raised and its synchronization mark the last one set |
| `FieldHistory.DisplaySaysWhy` | crates/gui-lib/src/projection.rs:92-140 | the display says of a field without a value what the last call to change it was: the message of a failed query, that it expired, that nothing was queried, or that there is no value |
| `FieldHistory.DisconnectedReadsAsNotQueried` | crates/gui-lib/src/projection.rs:118-123 | after any calls and a disconnect every field on display reads as not queried, but a volume only ever said to be unavailable, and the display is invalidated |
| `ReceiverHistory.RevisionNamesTheState` | crates/domain/src/receiver_state.rs:431-588 | revisions never fall, and until they saturate equal revisions mean equal states |
| `ReceiverHistory.AuthorityEndsExactlyUnlessReestablished` | crates/domain/src/precondition.rs:153-158 | a precondition captured before a disconnect mismatches by epoch exactly unless that very epoch was established again since, with no disconnect and no greater epoch after |
| `ReceiverHistory.RisingEpochsVoidOldAuthority` | crates/domain/src/precondition.rs:153-158 | where epochs rise, it mismatches for ever after |
| `ReceiverHistory.ReusedEpochRevivesAuthority` | crates/domain/src/receiver_state.rs:470-477 | establishing the same epoch again after a disconnect, and telling the same volume, revives a precondition that rested on that volume |
| `Precondition.MismatchIsExact` | crates/domain/src/precondition.rs:153-163 | no mismatch exactly when the epoch and every named field hold; else the epoch is named first, then the least differing field |
| `Precondition.CapturedIsShown` | crates/domain/src/precondition.rs:126-138 | a captured precondition has the state's epoch and exactly the named fields as shown |
| `Precondition.CaptureIgnoresOrder` | crates/domain/src/precondition.rs:126-138 | the order and repetition of the fields do not matter |
| `Precondition.DecisionHoldsExactlyWhen` | crates/domain/src/precondition.rs:76-82 | a decision made on one state holds in another exactly when the epoch and every consulted capture are equal |
| `StateView.Rebuild` | crates/api-contract/src/state.rs:322-360 | one field is rebuilt as the view describes it, or the error met |
| `StateView.IntoState` | crates/api-contract/src/state.rs:362-395 | the state is its rebuilt fields, or the first error met |
| `StateView.OperatorViewReadsBack` | crates/api-contract/src/state.rs:274-395 | the Operator's view reads back exactly when the volume is in range and the names are names, as the state with only stamps and synchronization marks erased |
| `StateView.AgentViewReadsBack` | crates/api-contract/src/state.rs:274-395 | the Agent's view reads back as the same with every text removed |
| `StateView.DecisionsSurviveTheWire` | crates/domain/src/precondition.rs:61-94 | every capture, and every precondition there can be, give the same answer before the wire and after, for both views |
| `StateView.DisplayShowsWhatCanBeCaptured` | crates/gui-lib/src/projection.rs:32-139 | the display offers a value exactly when it could be captured, and that value, the volume in tenths, blank names excepted; it is live exactly when it shows something and invalidated exactly when it shows nothing without a connection |
| `StateView.UnshowableIsSaid` | crates/gui-lib/src/projection.rs:100-111 | a name that is current and blank is said to be one that cannot be shown |
| `StateView.DisplayedVolumesAreTheScale` | crates/gui-lib/src/projection.rs:143-156 | the volumes on display are every half decibel from -80 to 18, each of exactly one volume in range, the lowest the minimum's |
| `StateView.NamesAreReadable` | crates/domain/src/receiver_state.rs:50-55 | a name holds something visible and no control character |
| `StateView.ReceiverIdsAreNamesOrHosts` | crates/domain/src/receiver_state.rs:19-45 | an id is a name, or the reserved prefix and a host that is one |
| `StateView.DisplaySurvivesTheWire` | crates/gui-lib/src/projection.rs:32-139 | the desktop displays a rebuilt Operator view as it would the state it came from |
| `StateView.AgentViewCarriesNoText` | crates/api-contract/src/state.rs:54-100 | two states have the same Agent view exactly when they differ only in texts, stamps and synchronization marks |
| `Bridge.Loop.ForwardState` | crates/gui-lib/src/bridge.rs:294-312 | a state is sent unless it is the one sent last |
| `Bridge.Loop.OnState` | crates/gui-lib/src/bridge.rs:245-249 | a state the channel gives is forwarded for the selected receiver |
| `Bridge.Loop.OnDone` | crates/gui-lib/src/bridge.rs:268-279 | a finished task's report waits for the newest state to be sent |
| `Bridge.Loop.OnSessionEnded` | crates/gui-lib/src/bridge.rs:250-267 | an ended session is said and subscribed to again |
| `Bridge.Loop.OnSubscribed` | crates/gui-lib/src/bridge.rs:448-471 | a subscription's first state is sent, or the failure |
| `Bridge.Loop.Handle` | crates/gui-lib/src/bridge.rs:314-445 | each command changes the selection, answers at once, or starts one task tagged with the selection |
| `GuiBridge.ReportsNeverOvertakeTheirEffect` | crates/gui-lib/src/bridge.rs:10-14 | in every run, when a report is about to be sent under a subscription, the last state sent is of it and no older than when the task left its report |
| `GuiBridge.TakingAReportSendsTheNewest` | crates/gui-lib/src/bridge.rs:268-277 | when the loop takes a report, the last state sent carries the newest stamp |
| `GuiBridge.StatesAreSentOnceInOrder` | crates/gui-lib/src/bridge.rs:181-195 | in every run no state of a subscription is sent twice and revisions rise |
| `GuiRequests.EveryRequestIsAnsweredOnce` | crates/gui-lib/src/bridge.rs:314-445 | in every run each request the window makes is in exactly one place, waiting, running, finished, being reported or answered, always as what it is; it is in none only as a refresh with nothing subscribed to, which subscribes, or a read with nothing selected |
| `GuiRequests.ControlsAreAnsweredAtRest` | crates/gui-lib/src/bridge.rs:356-382 | once nothing is under way every control ever asked for has had exactly one event that answers it |
| `GuiRequests.ControlsAreMade` | crates/gui-lib/src/session.rs:342-348 | every control and refresh of the user's is such a request |
| `GuiRequests.GuardsDecide` | crates/gui-lib/src/bridge.rs:356-374 | a control is started exactly while what it was decided on holds, or no state can tell, and is otherwise answered as having changed nothing |
| `Window.Gui.ConnectTo` | crates/gui-lib/src/session.rs:20-43 | a name no receiver can have changes nothing; another forgets the state, the flags and the generation, and sends one `Select` under a new id |
| `Window.Gui.Choose` | crates/gui-lib/src/session.rs:323-340 | a choice is kept even when its name is refused, and connects when it is not |
| `Window.Gui.Retry` | crates/gui-lib/src/session.rs:342-348 | a disconnected window is connecting again, and one `Refresh` is sent under a new id |
| `Window.Gui.Receive` | crates/gui-lib/src/session.rs:168-250 | an event of another selection, or while closing, is ignored; others do what their kind says |
| `Window.Gui.ApplyState` | crates/gui-lib/src/session.rs:79-166 | a state moves the lifecycle, is kept, and starts the reads it calls for |
| `Window.Gui.ConnectionLost` | crates/gui-lib/src/session.rs:64-75 | the generation moves on and the window is reconnecting |
| `Window.Gui.RequestHttpInformation` | crates/gui-lib/src/supplemental.rs:19-36 | one read at a time: a request while one runs is queued once |
| `Window.Gui.RequestSourceCatalog` | crates/gui-lib/src/supplemental.rs:38-49 | a read starts only when none is out and the receiver can be asked |
| `Window.Gui.RequestQuickSelectNames` | crates/gui-lib/src/supplemental.rs:51-61 | a read starts only when none is out and the receiver can be asked |
| `GuiReads.OneReadAtATime` | crates/gui-lib/src/supplemental.rs:17-61 | in every run at most one read of a kind is out under the window's subscription; until the window closes, one is out exactly when its flag is up, if and only if it is not a source list asked for with no receiver selected; so a queued repeat always has exactly one read before it |
| `GuiReads.UnselectedCatalogIsLost` | crates/gui-lib/src/bridge.rs:436-438 | a run in which the name chosen is refused, the source list is asked for, and the loop drops the read, its flag staying up with nothing out |
| `GuiReads.DisplayBelongsToTheSelection` | crates/gui-lib/src/session.rs:168-176 | in every run the state on display is of the receiver the window's own `Select` chose |
| `GuiReads.GenerationIsNotBehind` | crates/gui-lib/src/session.rs:79-107 | in every run a connected window's generation is the one its lifecycle names and, but for generation zero, not behind the epoch of the state it shows |
| `GuiReads.QueuedRepeatStarts` | crates/gui-lib/src/session.rs:229-243 | in every run a queued repeat has exactly one read out, and delivering that read's report sends the repeat, which is then the one read out, while the receiver is on and can be asked |
| `GuiProgress.WorkIsBounded` | crates/gui-lib/src/bridge.rs:216-282 | in every stretch of every run, whatever the window reads off its display, `subscribe` answers and tasks report, the loop, its tasks and the deliveries take at most the steps they owed before and eighteen for each thing that came from the user, a timer or the receiver |
| `GuiProgress.RestIsQuiet` | crates/gui-lib/src/bridge.rs:224-228 | in every run none of them has a step to take exactly when every command is taken, every task reported, every event delivered and the newest state forwarded |
| `GuiProgress.ReadsEnd` | crates/gui-lib/src/session.rs:196-243 | in every run, once nothing is under way and until the window closes, no read is awaited, but for a lost source list, and no repeat is queued |
| `GuiProgress.EverythingComesBack` | crates/gui-lib/src/bridge.rs:216-282 | from every state of every run, with nothing more from outside, and for every way the window's display may read, the system comes to rest within the steps it owes |
| `GuiDisplay.RestingWindowShowsTheNewest` | crates/gui-lib/src/bridge.rs:245-279 | in every run, once nothing is under way, an open window shows the newest state of the receiver it selected if the loop is subscribed to it, and no state otherwise |
| `GuiConnection.StatesStartWhatIsWanted` | crates/gui-lib/src/session.rs:79-166 | exactly the reads a state starts: the names with a new connection, the HTTP information when the display asks, the catalog when it asks and this connection has not |
| `GuiConnection.CatalogIsReadOncePerConnection` | crates/gui-lib/src/session.rs:150-164 | in every run the catalog is asked for by itself once per connection, however that read ended |
| `GuiConnection.ControlsStartWhatTheyChange` | crates/gui-lib/src/session.rs:249-272 | a control that changed something has the HTTP information read, now or behind the read that is out |
| `GuiConnection.SelectingStartsAnew` | crates/gui-lib/src/session.rs:20-43 | a window that selects a receiver starts as a new one does, but for its numbers |
| `GuiConnection.StatesTellTheConnection` | crates/gui-lib/src/session.rs:79-107 | with an epoch the window is connected, in a new generation exactly if the connection is new; without one it is reconnecting |
| `GuiConnection.RefreshingRetries` | crates/gui-lib/src/session.rs:342-348 | in every run a refresh takes back that the receiver is out of reach, until the window is told of another failure |
| `TransmissionSchedule.Transmitter.Record` | crates/domain/src/transport_timing.rs:38-47 | the time is kept, `PWON` starts a quiet time, and a quiet time that is over is forgotten |
| `TransmissionSchedule.TransmissionsKeepTheirDistance` | crates/domain/src/transport_timing.rs:28-47 | in every run that obeys the schedule, commands i and j are at least j - i intervals apart |
| `TransmissionSchedule.QuietAfterPowerOn` | crates/domain/src/transport_timing.rs:38-47 | nothing is sent in the quiet time after any `PWON` |
| `TransmissionSchedule.NextIsAllowedExactlyWhen` | crates/domain/src/transport_timing.rs:28-47 | after any run that obeyed the schedule, a command may be sent exactly when the last is an interval ago and every `PWON` a quiet time |
| `TransmissionSchedule.NextIsNeverEarly` | crates/domain/src/transport_timing.rs:28-47 | even at the end of the clock nothing is allowed early, and a quiet time a command was sent after is forgotten |
| `TransmissionSchedule.WindowsHoldFew` | crates/domain/src/transport_timing.rs:28-36 | a window of any width holds at most its width over the interval, plus one, commands |
| `LogRetention.PruneLogs` | apps/desktop/src/logging.rs:218-259 | the loop leaves what pruning leaves, and its answer is whether the record fits |
| `LogRetention.PruningKeepsItsPromises` | apps/desktop/src/logging.rs:216-259 | the active file stays, at most 14 files are left, the record fits exactly when the active file leaves room, and a file not expired goes only after every earlier one that is not active |
| `LogRetention.FilesGoExactlyWhen` | apps/desktop/src/logging.rs:216-259 | of the files that are not active, one dated three days ago or earlier goes, and any other exactly when it, all after it, the active one and the record do not fit in 14 files and 3 MiB |
| `LogRetention.NamesAreInDateOrder` | apps/desktop/src/logging.rs:164-166 | files are named in the order of their dates |
| `LogRetention.RecordFitsExactlyWhen` | apps/desktop/src/logging.rs:148-157 | a record is written exactly when the day's file leaves room for it |
| `LogRetention.WritingTouchesOneFile` | apps/desktop/src/logging.rs:129-157 | after a write every other file left is as it was, and the day's own is as it was or new, with what was written appended |
| `LogRetention.StartingTouchesOneFile` | apps/desktop/src/logging.rs:107-127 | the writer starts from all files but the day's own if it is oversized, and that one empty if it is not there |
| `LogRetention.BeginningMeetsTheBudget` | apps/desktop/src/logging.rs:107-127 | whatever is found, starting the writer brings the logs within the budget |
| `LogRetention.TheBudgetIsAlwaysKept` | apps/desktop/src/logging.rs:97-157 | in every run of a start, day changes and writes, the logs total at most 3 MiB in at most 14 files |
| `LogRetention.LogWriter.constructor` | apps/desktop/src/logging.rs:107-127 | the writer starts within the budget, with the day's file there |
| `LogRetention.LogWriter.Write` | apps/desktop/src/logging.rs:129-157 | a write rotates, makes room, and appends or drops the record, within the budget |
| `ConfigWrite.Store.Put` | apps/api-server/src/routes.rs:425-461 | the first thing wrong decides the answer: no tag, another tag, no configuration, a save that fails; and the configuration is replaced exactly when nothing is |
| `ConfigWrite.AloneIsAsInOneGo` | apps/api-server/src/routes.rs:425-461 | a request that takes its steps alone is answered, and leaves the configuration, as the handler does it in one go |
| `ConfigWrite.NoUpdateIsLost` | apps/api-server/src/routes.rs:423-461 | in every interleaving of clients in which no request goes away in the middle of its save, the writes form one chain, each replacing exactly the configuration whose tag was presented |
| `ConfigWrite.GoingAwayMidSaveCanLoseAnUpdate` | apps/api-server/src/pipeline.rs:204-213 | whenever a request is in the middle of its save, its going away then can be followed by a run in which another client's acknowledged write is overwritten by a save that presented an older tag |
| `ConfigWrite.SavedIsWhatWasWritten` | apps/api-server/src/routes.rs:454-460 | under the same condition a client told its write was saved is told what it wrote |
| `Paths.EncodeSegment` | crates/api-contract/src/paths.rs:37-47 | the loop computes the encoding byte by byte |
| `Paths.SegmentsReadBack` | crates/api-contract/src/paths.rs:34-47 | percent-decoding a segment gives exactly the id |
| `Paths.SegmentsAreDistinct` | crates/api-contract/src/paths.rs:34-47 | different ids never share a segment |
| `Paths.SegmentsStayInside` | crates/api-contract/src/paths.rs:34-47 | a segment holds only unreserved characters and escapes, and is empty only for the empty id |
| `Paths.SegmentsAreWrittenByTheByte` | crates/api-contract/src/paths.rs:34-47 | each byte is written as itself if it is unreserved, and otherwise as a percent sign and two capital digits that spell it |
| `Paths.PathsLeadToTheirRoute` | apps/api-server/src/routes.rs:588-597 | the path built for a receiver's resource fits the row of that resource and no other row, whatever the receiver is called |
| `Paths.NoPathWithoutAName` | apps/api-server/src/routes.rs:588-597 | a path built for an empty name fits no row |

## Left out

- Sockets, connecting, timeouts, file creation, permissions and locks: operating-system input and output.
- CrashSafety.RestartNeverUnderCounts: about agents' operations, since an Operator's records are best effort; `CrashSafety.WritesAreRebuiltExactlyWhenRecorded` says when the Operator's are counted.
- CrashSafety.RecordedLedgersAgreeExactlyWhen: is about runs in which a reservation and its record carry the same time and no end is dated before its beginning, because the source reads the clock for each; `GateWitnesses.TwoReadingsDiffer` and `GateWitnesses.UnorderedRecordsDiffer` show runs without.
- GuiBridge.StatesAreSentOnceInOrder: is about one state subscription, because a `Select` whose session ends subscribes again and may be sent the same state.
- HttpRead.SegmentationIsIrrelevant: bytes beyond the response that push a read over the size limit may be refused, depending on how they arrive; the source does the same.
- EventStream.WrittenStreamReadsBack: is for one terminator throughout, because a CR line end before a blank LF line reads as one CRLF.
- The status line of an HTTP response and the check that its body is text: parsed after the framing modelled here.
- The policy's rules: a decision is a free choice of the step that makes it. The write caps are a parameter of `Operations.OperationTable.Admit`.
- The audit log's file format, its rotation into numbered files, and the deletion of the oldest: a crash keeps any choice of lines that has every synced one.
- A service with no audit log: it has no ledger to keep.
- The reasons and observations a snapshot carries, and every other text shown to people.
- Configuration files changed by anything but this handler, and the several file operations of one save: a save lands at one moment or not at all.
- JSON, YAML and SHA-256: a state on the wire is its fields, and a configuration's tag is an injective function of it.
- The display model's conditions for starting a read (power, input and mode changes, model capabilities): inputs of the window's steps. The volume slider, feedback and launch screens are not modelled.
- The display form of a volume beyond its tenths of a decibel, and the conversions of request values: finite tables.
- Request paths of operations and tokens, and query strings: their ids are numbers or fixed texts.
- Failures of the file system while pruning logs: each would end the write with an error.
- Waiting and fairness: time is a supplied number. What is proved is safety, and of the window and the bridge that they have a step to take until nothing is under way and take boundedly many; that a scheduler lets them take it is not modelled.
- The capacities of the channels between the window and the loop, which only make a sender wait; commands reach the loop in the order the window sent them, as the source says, though each is handed over by an asynchronous task of its own.
