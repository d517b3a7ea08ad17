# A verified model of nrfdfu_ng

nrfdfu_ng updates the firmware of Nordic devices over Bluetooth Low Energy. This project models
its working core in Dafny and proves what that core is for: a firmware image arrives exactly as
it was sent, requests on the attribute bearer keep the sequential protocol, a remote attribute
table is rebuilt as the server has it, long values are written and read whole, and the data
structures underneath are what the code above them takes them for.

Check everything with `dafny verify dfyconfig.toml` (Dafny 4.11).

How the parts are built:

- Each procedure is specified by plain functions on values: a state and one step for every entry
  point or callback. The theorems are about all runs of these steps, whatever the other side does.
- Where the program changes things in place there is a class with the same fields and loops
  (`DfuProgram`, `Queue`, `AttProgram`, `GattProgram`, `DiscoveryProgram`, `ServicesProgram`,
  `LongWriteProgram`, `WriteSessionsProgram`, `LongRead`, `CccProgram`), and every method is proved
  to do to the state what the step says.
- The outside world is a parameter: replies of the device or the server, outcomes of sends,
  timers, link failures, how a server cuts its lists into pages, what callbacks send while they
  run. A log of observable events records what happened; it is ghost in the classes.

| module | about |
|---|---|
| Crc32, CrcTheory, CrcMachine | the bit loops of the CRC, their algebra, burst detection, the polynomial remainder, the machine words |
| DfuHost, DfuProgram | `dfuSendPackage` and `dfu`: specification and the code as written |
| DfuDevice, DfuDelivery, DfuInstall | the device, the link with its damage, and delivery over whole runs |
| DfuProtocol, DfuAttempts | the same run told event by event, and the attempts |
| DfuAudit, DfuUndefined | what holds of `dfuSendPackage` against any device at all |
| Queue | the linked list |
| Att, AttProgram | the bearer: specification and the code as written |
| AttShape, AttLaws, AttLedger, AttFlow, AttAnswers | no lost wakeup, conservation of operations, sequential protocol, who gets which answer |
| Uuids, GattDb, GattScans, GattRuns, GattContents, GattProgram | the attribute database |
| Pages, Paging, PagingReplies, Primary, Discovery, DiscoveryEnds, Rebuild, RebuildRuns, DiscoveryProgram | paged discovery and the table it rebuilds |
| Services, ServicesProgram | discovery of all services, one after the other |
| LongWrite, LongWriteLaws, LongWriteDelivery, LongWriteProgram, LongRead | long values |
| WriteSessions, WriteSessionRuns, WriteSessionDelivery, WriteSessionRefs, WriteSessionsProgram | long writes beside reliable write sessions, and the lives of their requests |
| Ccc, CccHandlers, CccRegistrations, CccProgram | notification handlers and the configuration descriptor |
| Mtu | the MTU exchange |
| Wrappers, Arith, Sequences, Pdus | what several of these share |

Where the code does not do what one would expect, the model follows the code, a lemma says exactly
when, and where it says "input" another one shows it happening:

| what goes wrong | exactly when | input |
|---|---|---|
| an accepted insertion breaks the order of the services | GattDb.InsertKeepsSorted | GattDb.EnclosingIsAccepted |
| the Create of a retry has the wrong size | DfuAudit.PackageCertified | DfuAudit.LastSegmentRetryAsksForNothing |
| success with nothing sent | DfuAudit.PackageCertified | DfuUndefined.NoBlockSizeSendsNothing |
| a read beyond the package, a division by 0 | DfuUndefined.UndefinedExactly | DfuUndefined.ReadsBeyondThePackage, DfuUndefined.DividesByZero |
| fewer attempts than asked for | DfuUndefined.AttemptsAskedFor | DfuUndefined.AttemptsAskedFor: 127 to 254 |
| a send overruns its memory | AttShape.OverrunsExactly | AttShape.LongestPduOverruns |
| next_handle is no free handle | GattRuns.NextStaysFree | GattRuns.LastHandleLeavesZero |
| nothing can be added at next_handle | GattRuns.AddFitsExactly, GattRuns.ZeroUntilLifted | GattRuns.AddAfterClearFails |
| discovery of a service fails | RebuildRuns.OutOfPlaceFails | RebuildRuns.GapInFrontFails |
| discovery succeeds without the server's table | RebuildRuns.ServiceOutcome, RebuildRuns.SuccessMeansTheTable | RebuildRuns.OneGapCutsTheTable |
| the search for descriptors starts at handle 0 | RebuildRuns.ValueAtTheTopWraps | RebuildRuns.SearchesFromZero |
| what one service left over breaks a later one | Services.LeftOversBreak | Services.TwoServicesBreak |
| a long write is cut short | LongWriteLaws.CutShortExactly | LongWriteLaws.GrowingMtuCutsShort |
| long writes wait for ever after a link loss | LongWriteLaws.LinkLossMeans | LongWriteLaws.LinkLossWhileWriting |
| a long write after a link loss reads beyond its value | LongWriteLaws.LinkLossMeans | LongWriteLaws.WriteAfterLinkLoss |
| two writes share one execution | WriteSessions.StepCalm | WriteSessionRuns.HiddenWritesMix, WriteSessionRuns.SessionHidesAWrite |
| an answer finds other data or a released request | WriteSessions.StepCalm, WriteSessionRuns.SpoilingIsUndefined | WriteSessionRuns.ExecutedTooEarly |
| a cancel reads a released request | WriteSessionRuns.CancelUndefinedExactly | WriteSessionRuns.CancelledUnderWay |
| an answer goes to another callback | WriteSessionRuns.ToldExactly | WriteSessionRuns.TwoAtOnceMixUp |
| a session can no longer be ended | WriteSessionRuns.DiesExactly | WriteSessionRuns.RefusalLosesTheSession |
| a cancelled session leaves long writes waiting | WriteSessionRuns.LeftBehindExactly | WriteSessionRuns.CancelledSessionLeavesAWrite |
| a request is never released | WriteSessionRefs.LeftOverExactly | WriteSessionRefs.CancelledWhileWaiting |
| a long read is cut short | LongRead.StopsEarlyExactly | LongRead.LargerMtuCutsShort |
| a long read copies more than a blob has | LongRead.UndefinedExactly | LongRead.ReadsPastTheBlob |
| a registered handler is never called | CccHandlers.CompletedExactly, CccHandlers.StrandedExactlyWhenDisturbed | CccHandlers.RegisteringDuringWriteBackIsForgotten, CccHandlers.TheOneThatHasGoneIsCalledAgain |
| the MTU shrinks | Mtu.ShrinksExactly | Mtu.SecondExchangeShrinks |

## Model

| member | source | states |
|---|---|---|
| `Crc32.Compute` | crc32.c:46-60 | The two nested loops over a buffer return the CRC of its first `size` octets, started fresh or from the complement of a returned value. |
| `Crc32.BlocksCompose` | crc32.c:46-60 | Two blocks, with the value returned for the first passed on to the second, give the CRC of their concatenation (what the comment in crc32.h:58-69 promises). |
| `Crc32.AnySplit` | crc32.c:46-60 | The same for every split of a message into blocks, from any starting value. |
| `Crc32.StepBijective` | crc32.c:54-57 | The shift step has a two-sided inverse whenever the top bit of the polynomial is set. |
| `Crc32.StepLinear` | crc32.c:54-57 | The shift step is linear over exclusive-or. |
| `Crc32.StepsLinear` | crc32.c:54-57 | So is any number of shift steps. |
| `Crc32.StepsInjective` | crc32.c:54-57 | Any number of shift steps maps different registers to different registers. |
| `CrcTheory.FeedIsBitStream` | crc32.c:51-58 | Feeding octets is feeding their bits, least significant first, one shift step each. |
| `CrcTheory.BurstAlwaysDetected` | crc32.c:46-60 | Two messages of one length that differ, and only inside a window of at most 32 consecutive bits, have different CRCs, for every length and every starting value. |
| `CrcTheory.OnlyTheGeneratorEscapes` | crc32.c:46-60 | For a window of 33 bits the CRCs agree exactly when the difference is the generator polynomial itself (or nothing), so 32 is the best possible bound. |
| `CrcTheory.RegisterIsRemainder` | crc32.c:50-58 | The shift register is the remainder of the bit stream modulo the polynomial. |
| `CrcTheory.RemainderCharacterised` | crc32.c:56 | The remainder is the one word for which message + quotient * generator + remainder cancel; it exists and is unique. |
| `CrcTheory.CrcIsPolynomialRemainder` | crc32.c:46-60 | The CRC is the reflected GF(2) remainder that section 8 of RFC 1952 and section 8.1.1.6.2 of ITU-T V.42 define, with initial and final complement. |
| `CrcTheory.GeneratorIs` | crc32.c:56 | The generator is the polynomial of the standard, exponent by exponent, and the start value is all ones. |
| `CrcMachine.MachineComputesTheCrc` | crc32.c:46-60 | In 32-bit machine words, with the shifts, masks and exclusive-or of the C code, the function returns for every buffer and every previous value the word whose bits are this CRC. |
| `DfuProgram.Ble.FillBuffer` | dfu.c:211-225 | The in-place buffer holds the next chunk of the package, cut at the payload of the MTU, at the end of the package and at the end of the block. |
| `DfuProgram.Ble.StreamBlock` | dfu.c:209-235 | The inner loop sends exactly the stream of chunks of the current block, or stops at the first packet the link refuses. |
| `DfuProgram.Ble.SettleBlock` | dfu.c:248-339 | Everything between the checksum response and the next loop head: mismatch, Execute, next Create, and every error return. |
| `DfuProgram.Ble.TransferBlock` | dfu.c:205-340 | One pass of the transfer loop is one pass of the specified run. |
| `DfuProgram.Ble.TransferLoop` | dfu.c:203-343 | The loop as a whole drives the specified run to its end. |
| `DfuProgram.Ble.SendPackage` | dfu.c:71-344 | dfuSendPackage performs exactly the specified run: log, return code, rest of the link's behaviour and the static flag. |
| `DfuProgram.Ble.Dfu` | dfu.c:349-430 | The attempt loop with its int8_t bound performs exactly the specified sequence of attempts. |
| `DfuProtocol.RunIsRead` | dfu.c:71-344 | An automaton that reads one event after the other and decides from them alone what the host has to do next (which request, of which size, which octets, when to give up with which code, when resuming is given up) takes the log of every run to its end, with the outcome, the rest of the link's behaviour and the static flag of the run. |
| `DfuProtocol.OnlyTheRun` | dfu.c:71-344 | It takes a log to the end if and only if that is the log of the run. |
| `DfuAttempts.RetriesUntilOneSucceeds` | dfu.c:387-428 | For every behaviour of the link: attempts are made, each where the last one left the link and the flag, until one succeeds or is undefined, or as many as may be and for which notifications can be registered have failed; the one that ends them decides the outcome, otherwise it is 0x0A; the log is that of these attempts. |
| `DfuAttempts.AttemptsCounted` | dfu.c:387-428 | Told from the log: without success or undefined behaviour the init package was begun as often as allowed and possible; dfu succeeds if and only if an attempt within these bounds succeeds before which all failed. |
| `DfuAudit.PackageCertified` | dfu.c:127-340 | For every sequence of replies: each Execute follows a reply whose CRC matched the package up to the reported offset; success means the last acknowledged Execute covered the whole package exactly if the package is not empty and the block size is not 0; and on runs whose offsets never go back, every Create has the size of the segment then streamed exactly if each retry had a whole segment left behind the reported offset. |
| `DfuUndefined.UndefinedExactly` | dfu.c:112-154 | For every sequence of replies: the call reads beyond the package or divides by zero if and only if a successful Select or Checksum response reported an offset beyond the package (dfu.c:128, dfu.c:272), or a Select response that reaches the resume test reported block size 0 (dfu.c:134). |
| `DfuUndefined.ReadsBeyondThePackage` | dfu.c:127-128 | At an input: a Select response that reports one octet more than the package has. |
| `DfuUndefined.DividesByZero` | dfu.c:134 | At an input: one that reports the whole package and no block size. |
| `DfuUndefined.NoBlockSizeSendsNothing` | dfu.c:166-203 | The block size 0 at an input: with nothing to resume the call succeeds after the Select alone. |
| `DfuUndefined.AttemptsAskedFor` | dfu.c:353-387 | dfu makes retryCount + 1 attempts if and only if retryCount is at most 126; from 127 to 254 the int8_t bound is negative and it makes none. |
| `DfuAudit.LastSegmentRetryAsksForNothing` | dfu.c:315-334 | The case in which the Create of a retry has the wrong size: it is sized from the reported offset, so a damaged last segment is created with size 0. |
| `DfuAudit.ChunksOfBlock` | dfu.c:209-235 | The chunks of a block are not empty, concatenate to the block, number ceil(segment / (mtu - 3)), and each fits a Write Command at that MTU (bluez/att.c:279-298). |
| `DfuDelivery.PackageInstalled` | dfu.c:71-344 | Host and device on a link that may damage a block by one burst of 32 bits and refuse anything: success exactly if nothing was refused and the bytes on the device were acceptable; success means the device executed exactly the package; at every loop head it has executed exactly the bytes counted as sent; rounds are at most blocks plus damaged blocks. |
| `DfuDelivery.RoundsBounded` | dfu.c:205-340 | The bound in closed form: ceil((len - start) / blockSize) + the number of damaged blocks. |
| `DfuDelivery.ChecksumDecides` | dfu.c:127-129 | Comparing checksums decides whether the bytes on the device are a prefix of the package, given one burst at most. |
| `DfuDelivery.DriveDelivers` | dfu.c:205-340 | The loop invariant over whole runs, from any loop head. |
| `DfuDevice.BurstBehindPrefix` | dfu.c:270-273 | A damaged block behind an intact prefix always changes the CRC over both. |
| `DfuInstall.AttemptInstalls` | dfu.c:401-407 | One attempt leaves both objects resumable, and if it succeeds both packages are executed. |
| `DfuInstall.SuccessMeansInstalled` | dfu.c:387-428 | dfu reports success only if the device has executed exactly both packages, however many attempts failed before. |
| `Queue.List.PushTail` | bluez/queue.c:110-132 | Appends to the sequence the list stands for; head, tail and count stay in step. |
| `Queue.List.PushHead` | bluez/queue.c:134-155 | Prepends to it. |
| `Queue.List.PushAfter` | bluez/queue.c:157-189 | Inserts behind the first occurrence, or says that there is none. |
| `Queue.List.PopHead` | bluez/queue.c:191-213 | Takes the first element; the tail is cleared with the last one. |
| `Queue.List.Find` | bluez/queue.c:265-281 | The first element that matches. |
| `Queue.List.PeekHead` | bluez/queue.c:215-221 | The first element, or none. |
| `Queue.List.PeekTail` | bluez/queue.c:223-229 | The last element, or none. |
| `Queue.List.IsEmpty` | bluez/queue.c:411-417 | The count is 0 exactly if the list stands for the empty sequence. |
| `Queue.List.Remove` | bluez/queue.c:283-310 | Takes out the first occurrence and keeps the tail right. |
| `Queue.List.RemoveIf` | bluez/queue.c:312-347 | Takes out and returns the first match. |
| `Queue.List.RemoveMatching` | bluez/queue.c:349-377 | Removal of all matches is a filter; the count returned is the number removed, the destroy calls come in order, and the loop ends. |
| `Queue.List.RemoveEverything` | bluez/queue.c:378-393 | Without a predicate the list is emptied first and every element is destroyed once, in order. |
| `Queue.RemoveFirstMatch` | bluez/queue.c:349-377 | Taking out first matches one after the other is filtering. |
| `AttProgram.GetOpType` | bluez/att.c:149-159 | The table walk returns the type of the opcode, or unknown. |
| `AttProgram.GetReqOpcode` | bluez/att.c:179-189 | The table walk returns the request that a response answers, or 0. |
| `AttProgram.Attachment.CreateSendOp` | bluez/att.c:279-369 | Refuses exactly unknown opcodes, a callback that does not fit the type, and PDUs longer than the MTU; 65535 octets, whose length with the opcode is 0 in 16 bits, make it write into no memory. |
| `AttProgram.Attachment.Send` | bluez/att.c:1125-1173 | Takes the operation into the queue of its type with the next id and wakes the writer, or changes nothing. |
| `AttProgram.Attachment.PickNextSendOp` | bluez/att.c:371-399 | Pops from the write queue, else from the requests if none is pending, else from the indications if none is pending. |
| `AttProgram.Attachment.WakeupWriter` | bluez/att.c:519-538 | Installs the write handler on a live link if something could be sent. |
| `AttProgram.Attachment.CanWriteData` | bluez/att.c:449-517 | Sends the picked operation and moves it to its slot or destroys it; a failed write reports an error and destroys it. |
| `AttProgram.Attachment.HandleResponse` | bluez/att.c:586-644 | Ends the pending request with the response if that answers it, with an error otherwise, and shuts down if none is pending. |
| `AttProgram.Attachment.HandleConfirmation` | bluez/att.c:646-668 | The same for indications; a confirmation with parameters shuts the bearer down. |
| `AttProgram.Attachment.HandleNotify` | bluez/att.c:738-782 | The loop over notify_list calls every handler registered for the opcode, one after the other, each with its own sends; a request nobody is registered for is answered with Request Not Supported. |
| `AttProgram.Attachment.CanReadData` | bluez/att.c:784-854 | Dispatches a PDU by type; a second request while one is unanswered shuts the bearer down. |
| `AttProgram.Attachment.TimeoutCb` | bluez/att.c:406-440 | Takes the timed out operation out of its slot, runs the timeout handler, destroys the operation and shuts down. |
| `AttProgram.Attachment.CancelSend` | bluez/att.c:1183-1223 | A pending operation only loses its handlers; a queued one is removed and destroyed and the writer woken; the result says whether there was one. |
| `AttProgram.Attachment.CancelAllSends` | bluez/att.c:1225-1243 | All queued operations are destroyed, the pending ones lose their handlers. |
| `AttProgram.Attachment.DisconnectCb` | bluez/att.c:552-584 | The link is gone, everything is cancelled, the disconnect handlers are called in order, then all handlers are unregistered. |
| `AttProgram.Attachment.RegisterHandler` | bluez/att.c:1294-1324 | Appends a handler with the next registration id, or refuses on a dead link. |
| `AttProgram.Attachment.RegisterDisconnectHandler` | bluez/att.c:1078-1107 | The same for disconnect handlers. |
| `AttProgram.Attachment.UnrefLast` | bluez/att.c:985-997 | The last reference cancels everything and destroys what is pending (with bluez/att.c:881-910). |
| `AttProgram.Attachment.SetMtuTo` | bluez/att.c:1039-1059 | Sets an MTU of at least 23, refuses a smaller one. |
| `AttShape.EveryHandlerIsCalled` | bluez/att.c:738-782 | Whatever the callbacks send: exactly the handlers registered for the opcode are called, once each and in the order of registration; a request is answered with Request Not Supported if there is none. |
| `AttAnswers.KindsAre` | bluez/att.c:114-147 | The type of an opcode in numbers: requests are the even ones from 0x02 to 0x12, 0x16 and 0x18; a response is the next number, or 0x01. |
| `AttAnswers.RequestsAre` | bluez/att.c:161-189 | A response answers the request with the number before, and nothing else answers one. |
| `AttAnswers.OutstandingIs` | bluez/att.c:449-854 | In every run the log alone tells which request and which indication are outstanding, and whether a request from the other side waits for its response. |
| `AttAnswers.ResponseReachesCallback` | bluez/att.c:586-644 | In every run, when a response comes in while a request is outstanding, the very next event is that its callback runs, unless it was cancelled: with that response and its parameters if it has the next number or is an error response of four octets that names the request, otherwise with 0x01 and no parameters; after that nothing is outstanding. With nothing outstanding the bearer is shut down. |
| `AttAnswers.ConfirmationReachesCallback` | bluez/att.c:646-668 | The same for indications: an empty confirmation reaches the callback; any other, or one that nothing waits for, shuts the bearer down. |
| `AttAnswers.CallbackSends` | bluez/att.c:633-643 | What the callback of a response sends is sent as if asked for just then, with the request still outstanding, and then the request is destroyed. |
| `AttAnswers.HandlerSends` | bluez/att.c:754-774 | What a notification handler sends is sent as if asked for just then. |
| `AttAnswers.TakenExactly` | bluez/att.c:1125-1173 | A send is taken if and only if the link is up, the opcode is known, there is a callback exactly for a request or an indication, and opcode and parameters fit the MTU; it gets the next id, from 1 on. |
| `AttAnswers.GoesOut` | bluez/att.c:371-517 | When the link can be written to, what needs no answer goes out before a request, and a request before an indication, the latter two only if none is outstanding; if the write fails its callback runs with 0x01 and no parameters. |
| `AttAnswers.TimesOut` | bluez/att.c:406-440 | A timeout of what is outstanding is noted, the operation is out of its slot, and the last event is the shutdown. |
| `AttAnswers.CancelExactly` | bluez/att.c:1183-1223 | A cancel finds just what is outstanding or waits with this id: what is outstanding stays with all that waits; of what waits this one goes, and everything else stays in order. |
| `AttAnswers.SecondRequestShutsDown` | bluez/att.c:814-845 | In every run, told from the log: a request that comes in while the last one from the other side has not been answered shuts the bearer down, which reads no more; any other is handed on, or answered with 0x01 and the code 0x06. |
| `AttAnswers.RegisteredIsCalled` | bluez/att.c:738-782 | A handler that is registered is called with what comes in, behind those registered before, if it is for this opcode, or with 0 for all requests and commands; a signed PDU is heard by nobody. |
| `AttAnswers.RegistersExactly` | bluez/att.c:1294-1324 | Registrations of both kinds count their ids on from one another, from 1, and go behind the others (with bluez/att.c:1078-1107). |
| `AttAnswers.MtuTaken` | bluez/att.c:1039-1059 | Every MTU from 23 on is taken, and a new bearer has 23. |
| `AttAnswers.CancelAllTellsAll` | bluez/att.c:1225-1243 | Requests, indications and the rest are cancelled and destroyed in order, what is outstanding loses its handlers, and nothing else happens. |
| `AttAnswers.LinkDownTellsAll` | bluez/att.c:552-584 | The same when the link goes down; then each disconnect handler runs once, in the order of registration, and nothing is sent, read or taken any more. |
| `AttShape.WakeupTestsCanPick` | bluez/att.c:519-538 | The test in wakeup_writer is exactly whether pick_next_send_op would find something. |
| `AttShape.NoLostWakeup` | bluez/att.c:371-399 | After any run, on a live bearer that is not shut down, if something could be picked then a write handler is installed, also when callbacks send (with bluez/att.c:519-538 and bluez/att.c:640-643). |
| `AttShape.OverrunsExactly` | bluez/att.c:279-298 | A send on a live link overruns its memory if and only if the opcode is known, the callback fits and the parameters have 65535 octets. |
| `AttShape.LongestPduOverruns` | bluez/att.c:279-298 | At an input. |
| `AttShape.StepShapes` | bluez/att.c:449-538 | Every entry point keeps operations in the queue and slot of their type and the writer awake. |
| `AttLedger.Conservation` | bluez/att.c:203-225 | In every reachable state an accepted operation is in exactly one queue or slot or freed; it owes its destroy handler or has run it; a callback that is awaited ran, or is still due, or the operation was cancelled or timed out; it ran at most once and never after it was cancelled, destroyed or freed. |
| `AttLedger.UnrefSettlesEverything` | bluez/att.c:985-997 | Unless a send has overrun its memory: after the last unref every accepted operation is freed, every destroy handler has run exactly once, and every callback has run unless its operation was cancelled or timed out. |
| `AttLedger.StepOwes` | bluez/att.c:406-1243 | Every entry point keeps these books, id by id. |
| `AttLaws.OrderlyMeans` | bluez/att.c:217-225 | What the books' ordering flag says: no callback after a cancel, destroy or free of the same id. |
| `AttFlow.SequentialProtocol` | bluez/att.c:371-644 | Over whole runs an observer of the log finds: until shutdown a PDU goes out only if nothing of its class is outstanding and it was accepted after all its predecessors; a callback sees a non-error response only if it is the PDU just received and maps to its request (Bluetooth Core Specification, Vol 3 Part F, section 3.3.2). |
| `AttFlow.OneAtATime` | bluez/att.c:485-504 | Between two requests on the wire a response was received, between two indications a confirmation, and they go out in the order of bt_att_send. |
| `AttFlow.WiredWasAccepted` | bluez/att.c:449-504 | What goes out was accepted before with this opcode and these parameters. |
| `AttFlow.RspFlows` | bluez/att.c:586-644 | Handling a response keeps the sequential protocol, also with sends from inside the callback. |
| `GattDb.RefusedExactly` | bluez/gatt-db.c:485-515 | On sorted services the scan, although it stops early, refuses exactly the ranges with an end point in some service. |
| `GattDb.InsertKeepsSorted` | bluez/gatt-db.c:517-560 | An accepted insertion keeps the services sorted and disjoint if and only if the range encloses no existing service. |
| `GattDb.EnclosingIsAccepted` | bluez/gatt-db.c:501-508 | A range that strictly encloses a service is accepted and breaks the order. |
| `GattDb.PlaceSplits` | bluez/gatt-db.c:485-515 | Where the new service goes relative to all others. |
| `GattDb.OverlapIs` | bluez/gatt-db.c:457-466 | A range meets a service exactly if it has an end point in it or encloses it. |
| `GattDb.ClearRangeExact` | bluez/gatt-db.c:457-483 | Clearing a range removes exactly the services that overlap it and keeps the order. |
| `GattDb.AddCharacteristicAppends` | bluez/gatt-db.c:667-714 | Adding a characteristic succeeds exactly if two slots are free, and appends a declaration that names properties, value handle and UUID so that they read back, and the value at the next handle. |
| `GattDb.CharacteristicAdded` | bluez/gatt-db.c:667-714 | The same slot by slot for UUIDs of any form; the table stays a prefix with consecutive handles. |
| `GattDb.DescriptorAdded` | bluez/gatt-db.c:716-744 | A descriptor takes the next slot and handle if there is one. |
| `GattDb.AddIncludedAppends` | bluez/gatt-db.c:746-798 | An include takes the next slot; its UUID is in the value only if it has two octets. |
| `GattDb.GetAttributeAgrees` | bluez/gatt-db.c:1221-1243 | Looking up a handle finds an attribute exactly if it is in the flat table under that handle. |
| `GattDb.FlatAscends` | bluez/gatt-db.c:485-515 | The flat table has strictly ascending handles. |
| `GattRuns.DatabaseInOrder` | bluez/gatt-db.c:412-560 | After every run from an empty database in which no insertion encloses a service: services sorted and disjoint, filled slots a prefix with handle = start + index, and lookup agrees with the flat table. |
| `GattRuns.StepSorted` | bluez/gatt-db.c:412-560 | From an ordered database an operation leads out of order exactly if it is an insertion around an existing service. |
| `GattRuns.StepTidy` | bluez/gatt-db.c:621-798 | Every operation keeps every table a prefix with consecutive handles. |
| `GattRuns.AddServiceAppends` | bluez/gatt-db.c:562-569 | Adding at next_handle goes to the end whenever it fits below 0x10000. |
| `GattRuns.NextStaysFree` | bluez/gatt-db.c:553-554 | next_handle stays behind all services exactly until a service ends at 0xffff, where the 16-bit counter wraps. |
| `GattRuns.AddAfterClearFails` | bluez/gatt-db.c:429-439 | gatt_db_clear sets the counter to 0 (a new database starts at 1), so gatt_db_add_service fails until something was inserted at a handle of its own. |
| `GattRuns.AddFitsExactly` | bluez/gatt-db.c:562-569 | Adding at next_handle works if and only if the counter is not 0 and the service fits below 0x10000. |
| `GattRuns.ZeroUntilLifted` | bluez/gatt-db.c:429-439 | Over every run from a counter of 0 it stays 0 if and only if no service is inserted at a handle of its own that does not end at 0xffff. |
| `GattRuns.LastHandleLeavesZero` | bluez/gatt-db.c:553-554 | At an input: a service at 0xffff leaves the counter at 0. |
| `GattScans.ReadByTypeIsFilter` | bluez/gatt-db.c:986-1025 | The early-exit scan is exactly the filter of the active attributes by range and type. |
| `GattScans.FindInformationIsFilter` | bluez/gatt-db.c:1035-1076 | The early-exit scan is exactly the filter of the active attributes by range. |
| `GattScans.ScansAscend` | bluez/gatt-db.c:986-1076 | Both answer in ascending handle order. |
| `GattScans.ReachableGroups` | bluez/gatt-db.c:846-887 | The same for every database that any run of operations with proper UUIDs leads to, in order or not. |
| `GattScans.ReadByGroupIsLongestPrefix` | bluez/gatt-db.c:846-887 | The result is the longest prefix with one UUID size of all active groups of the type in the range. |
| `GattContents.InsertedExactly` | bluez/gatt-db.c:517-560 | On sorted services: a service goes in if and only if its handles exist and neither the first nor the last is taken; it is inactive and begins with the declaration of its UUID under 0x2800 or 0x2801; it goes behind all that start before its end, all others stay, and next_handle moves behind it in 16 bits. |
| `GattContents.CharacteristicOctets` | bluez/gatt-db.c:667-714 | If there is room for two attributes: a declaration 0x2803 with the properties, the handle of the value and the UUID, octet by octet, and the value; otherwise nothing changes. |
| `GattContents.DescriptorOctets` | bluez/gatt-db.c:716-744 | One attribute of this type at the next handle, or nothing. |
| `GattContents.IncludedOctets` | bluez/gatt-db.c:746-798 | A declaration 0x2802 with the range of the other service, and its UUID if that has two octets, or nothing. |
| `GattContents.OneServiceChanges` | bluez/gatt-db.c:667-811 | An operation on a service touches no other service and not next_handle; activating changes the flag only. |
| `GattContents.RemovalTakesOut` | bluez/gatt-db.c:412-483 | Removing a service takes out that one and leaves the others in order; only clearing everything touches next_handle. |
| `GattContents.FoundExactly` | bluez/gatt-db.c:986-1076 | An attribute is found by type, or by Find Information, if and only if it is in an active service and its handle in the range, and for the former its type compares equal. |
| `GattContents.SameIs` | bluez/uuid.c:73-130 | Two UUIDs compare equal exactly if they have the same number, the same sixteen octets, or one has the sixteen octets 0000xxxx-0000-1000-8000-00805F9B34FB of the other. |
| `GattContents.GroupsExactly` | bluez/gatt-db.c:846-887 | The groups are just the declarations of active services of the type that start in the range. |
| `GattProgram.ServiceTable.GetAttributeIndex` | bluez/gatt-db.c:621-632 | The loop finds the first free slot, or 0 if too few are left. |
| `GattProgram.ServiceTable.AddCharacteristicTo` | bluez/gatt-db.c:667-714 | Fills two slots of the array in place as the specification says. |
| `GattProgram.ServiceTable.AddDescriptorTo` | bluez/gatt-db.c:716-744 | Fills one slot in place. |
| `GattProgram.ServiceTable.AddIncludedTo` | bluez/gatt-db.c:746-798 | Fills one slot in place with the handles of the other service. |
| `GattProgram.ServiceTable.ScanInto` | bluez/gatt-db.c:995-1011 | The loop over one table, with its early return. |
| `GattProgram.Database.FindInsertLoc` | bluez/gatt-db.c:485-515 | The loop finds the specified place or refuses. |
| `GattProgram.Database.InsertService` | bluez/gatt-db.c:517-560 | Inserts a new object into the list and updates next_handle, or returns null and changes nothing. |
| `GattProgram.Database.ClearRangeOf` | bluez/gatt-db.c:468-483 | Filters the list of objects. |
| `GattProgram.Database.GetAttributeAt` | bluez/gatt-db.c:1221-1243 | The loop and the slot access find the specified attribute. |
| `GattProgram.Database.ReadByTypeFrom` | bluez/gatt-db.c:1014-1025 | The nested loops compute the specified scan. |
| `GattProgram.Database.FindInformationFrom` | bluez/gatt-db.c:1065-1076 | The nested loops compute the specified scan. |
| `GattProgram.Database.ReadByGroupTypeFrom` | bluez/gatt-db.c:846-887 | The loop computes the specified scan. |
| `Uuids.UuidRoundTrip` | bluez/gatt-db.c:336-371 | A UUID written little-endian is read back with its length. |
| `Uuids.ShortUuids` | bluez/uuid.c:107-115 | Short UUIDs compare equal only if they are the same, and a short UUID equals its long form. |
| `Uuids.OctetsAre` | bluez/gatt-db.c:336-371 | The octets of both forms in an attribute value, the lowest first, and the long form of a short UUID. |
| `Pages.WalkIsElements` | bluez/gatt-helpers.c:324-440 | The iterator yields every element of every result page once, in order. |
| `Pages.AdvanceTakesOne` | bluez/gatt-helpers.c:356-362 | One step of the iterator takes exactly the next of all elements that remain. |
| `Pages.WholeIsRemainder` | bluez/gatt-helpers.c:676-678 | The remainder test of the callbacks is the test for whole elements. |
| `Paging.PagedDiscovery` | bluez/gatt-helpers.c:636-723 | However the server cuts its list into pages, the procedure ends after at most one reply more than there are items, succeeds exactly if there are any, and its pages hold exactly the server's items (with bluez/gatt-helpers.c:1162-1233 and bluez/gatt-helpers.c:1376-1453; Vol 3 Part G, section 4.4.1). |
| `Paging.RangeShrinks` | bluez/gatt-helpers.c:690-709 | For every server whose pages end inside the range, end_handle minus the next start strictly decreases. |
| `Paging.OnReplyStores` | bluez/gatt-helpers.c:654-688 | Whatever octets arrive, only whole elements of a known size are stored. |
| `Paging.WideGroupIsCut` | bluez/gatt-helpers.c:711-717 | A last group reported as ending at 0xffff is stored with the end of the range asked for, and nothing else changes. |
| `Paging.PageIsStored` | bluez/gatt-helpers.c:670-688 | A well-formed response passes every check of the callback. |
| `PagingReplies.ItemOctets` | bluez/gatt-helpers.c:324-440 | The octets of an element of each procedure, field by field. |
| `PagingReplies.HeaderOctets` | bluez/gatt-helpers.c:654-688 | The octet in front of them: the size of an element, or 1 and 2 for the two sizes of a descriptor (with bluez/gatt-helpers.c:1395-1425). |
| `PagingReplies.OtherRepliesEnd` | bluez/gatt-helpers.c:636-688 | A reply that is not a response with whole elements of a size in use ends the procedure at once, with the code of an error response or 0, and stores nothing; it ends well only for Not Found behind a page. |
| `PagingReplies.UnderstoodIsStored` | bluez/gatt-helpers.c:676-723 | Every other reply is stored whole; the procedure asks on behind the last element, for services only below the end of the range and otherwise unless the end is met, and fails if that request is refused; only a last service ending at 0xffff is changed. |
| `Primary.PrimaryDiscovery` | bluez/gatt-client.c:970-989 | When primary discovery has ended, the empty database holds exactly the server's services in order: first handle, number of handles and UUID. |
| `Primary.ConvertedIsSame` | bluez/gatt-helpers.c:192-208 | A converted UUID compares equal to the one that was sent. |
| `Discovery.ClientStepReady` | bluez/gatt-client.c:581-841 | Whatever a server sends, the table under construction stays a prefix with consecutive handles. |
| `DiscoveryEnds.StoredUnlessRefused` | bluez/gatt-client.c:970-989 | Storing what primary discovery found fails if and only if the database refuses a service at its turn; otherwise all are inserted. |
| `DiscoveryEnds.ActiveExactlyWhenDone` | bluez/gatt-client.c:581-841 | Over any replies a service is marked active if and only if its discovery has ended well. |
| `DiscoveryEnds.OtherRepliesEndIt` | bluez/gatt-client.c:637-803 | A reply that is not understood ends the discovery of the service, well only for Not Found in place of a first page, and leaves what was found. |
| `DiscoveryEnds.RefusedPageEndsIt` | bluez/gatt-client.c:637-803 | So does a page after which the next request is refused, never well. |
| `DiscoveryEnds.RefusedStartEndsIt` | bluez/gatt-client.c:692-732 | When the first request for the next service is refused, discovery is over, well only if all services that are left have a single handle. |
| `DiscoveryEnds.ServiceEnds` | bluez/gatt-client.c:692-732 | A service that fails ends all; behind one that ended well the next begins at its first handle, with what is pending. |
| `RebuildRuns.ServiceOutcome` | bluez/gatt-client.c:581-841 | For every layout of a service in ascending handles, every cutting into pages and whatever an earlier service left pending: discovery ends after a bounded number of replies; the layout decides whether it reports success; and a success means the server's table was rebuilt exactly if the layout's verdict is Rebuilt. |
| `Rebuild.RebuiltExactly` | bluez/gatt-client.c:581-635 | That verdict is Rebuilt if and only if there is no unused handle between the attributes of the service. |
| `RebuildRuns.ServiceIsRebuilt` | bluez/gatt-client.c:581-841 | A service without such gaps is rebuilt in every session: same attributes at the same handles, and nothing left pending. |
| `RebuildRuns.GapIsNeverRebuilt` | bluez/gatt-client.c:637-660 | With a gap, a session that reports success has left characteristics out. |
| `RebuildRuns.SessionExists` | bluez/gatt-helpers.c:636-723 | For every layout there is a session that ends. |
| `RebuildRuns.OneGapCutsTheTable` | bluez/gatt-client.c:655-657 | One unused handle between a value and the next declaration: a session that reports success without the second characteristic. |
| `RebuildRuns.SuccessMeansTheTable` | bluez/gatt-client.c:637-660 | A reported success means the server's table if and only if no search for descriptors was answered by Not Found while characteristics were pending. |
| `RebuildRuns.RunSkips` | bluez/gatt-client.c:637-660 | Over whole sessions with any server: success leaves characteristics pending if and only if such an answer came. |
| `RebuildRuns.TablesCorrespond` | bluez/gatt-client.c:581-841 | The rebuilt table and the server's agree attribute by attribute in handle, type (as bt_uuid_cmp compares), properties, value handle and characteristic UUID. |
| `RebuildRuns.Descend` | bluez/gatt-client.c:581-635 | discover_descs adds characteristics until one may have descriptors, and asks for exactly the handles between its value and the next declaration. |
| `RebuildRuns.DescListing` | bluez/gatt-client.c:608-623 | In that range the server has just the descriptors of this characteristic. |
| `RebuildRuns.OutOfPlaceFails` | bluez/gatt-client.c:581-635 | discover_descs fails if and only if, among the pending characteristics it reaches, one is not at the next free handle or does not fit, or its search cannot be sent. |
| `RebuildRuns.GapInFrontFails` | bluez/gatt-client.c:599-601 | At an input: a server with an unused handle in front of its first declaration, and a session that fails. |
| `RebuildRuns.ValueAtTheTopWraps` | bluez/gatt-client.c:608-618 | The search for descriptors starts at or before the value exactly if the value has the last handle, where the 16-bit successor is 0; otherwise behind it, or there is none. |
| `RebuildRuns.SearchesFromZero` | bluez/gatt-client.c:603 | At an input: a characteristic whose value has the handle 0xffff. |
| `RebuildRuns.NotFoundSkipsPending` | bluez/gatt-client.c:655-657 | A reply ends the service with success and characteristics pending if and only if it is Not Found, as the first answer to a search, while some are pending; the table is left as it is. |
| `Services.ServicesOutcome` | bluez/gatt-client.c:697-732 | Discovery over all services, each with its own layout and pages: it ends after a bounded number of replies, the layouts decide whether it reports success, and a success means that every service was rebuilt exactly if the verdict over all is AllRebuilt (with bluez/gatt-client.c:805-841). |
| `Services.AllRebuiltExactly` | bluez/gatt-client.c:697-732 | That verdict is AllRebuilt if and only if no service has a gap. |
| `Services.LeftOversBreak` | bluez/gatt-client.c:697-720 | Characteristics that one service left pending are taken into the next: discovery then goes on without an error if and only if no later service has a characteristic. |
| `Services.SessionExists` | bluez/gatt-client.c:697-732 | For all services there is a session that goes to the end. |
| `Services.TwoServicesBreak` | bluez/gatt-client.c:697-720 | Two services, the first with one unused handle and the second without: a session that fails in the second. |
| `Services.ServicesAreRebuilt` | bluez/gatt-client.c:697-732 | Services without gaps are all rebuilt, and discovery succeeds. |
| `Rebuild.ReadChrcsIs` | bluez/gatt-helpers.c:365-415 | The iterator turns the pages into characteristics that end before the next declaration. |
| `DiscoveryProgram.GattRequest.Callback` | bluez/gatt-helpers.c:636-723 | The callback as it is written does what the specification says, for all octets, also when the next request cannot be sent. |
| `DiscoveryProgram.Iterator.NextService` | bluez/gatt-helpers.c:324-363 | Returns the next service of all that remain. |
| `DiscoveryProgram.Iterator.NextCharacteristic` | bluez/gatt-helpers.c:365-415 | Returns the next characteristic with the end handle taken from the following element or the range. |
| `DiscoveryProgram.DiscoveryOp.DiscoverDescriptors` | bluez/gatt-client.c:581-635 | The while loop over pending characteristics, with the failure to start a search. |
| `DiscoveryProgram.DiscoveryOp.ChrcsCallback` | bluez/gatt-client.c:734-803 | The callback for characteristics, up to the label `next`. |
| `DiscoveryProgram.DiscoveryOp.DescsCallback` | bluez/gatt-client.c:637-691 | The callback for descriptors, up to the label `next`. |
| `DiscoveryProgram.DiscoveryOp.Receive` | bluez/gatt-client.c:581-841 | A response goes through the request and, when that is complete, through the client's callback. |
| `ServicesProgram.ServiceDiscovery.PassOver` | bluez/gatt-client.c:697-705 | Services of a single handle are passed over. |
| `ServicesProgram.ServiceDiscovery.NextService` | bluez/gatt-client.c:692-732 | The label `next`: the next service begins with whatever is still pending, or the operation ends, also when the request cannot be sent. |
| `ServicesProgram.ServiceDiscovery.Receive` | bluez/gatt-client.c:581-841 | A response to the service at work; when that is done the operation moves on or ends. |
| `DiscoveryProgram.StorePrimaries` | bluez/gatt-client.c:970-989 | The loop that inserts services, up to the first that the database refuses. |
| `LongWriteLaws.ExecutesTheWholeValue` | bluez/gatt-client.c:2362-2628 | With a fixed MTU, in every run, at every Execute Write with 0x01 the server's queue is exactly the chunks of one value, ceil(length / (mtu - 5)) of them, and executing it writes the value at its offset (Vol 3 Part F, section 3.4.6). |
| `LongWriteLaws.ExecutesOneValue` | bluez/gatt-client.c:2362-2628 | Even when the MTU changes: the queue holds contiguous pieces of one value in order, never of two. |
| `LongWriteLaws.CutShortExactly` | bluez/gatt-client.c:2520-2537 | An acknowledged chunk leads to an Execute with less than the whole value exactly if it is not the last and shorter than the present MTU allows. |
| `LongWriteLaws.GrowingMtuCutsShort` | bluez/gatt-client.c:2529-2537 | That happens: an MTU that grows while a chunk is in flight makes 18 of 40 octets count as a complete write. |
| `LongWriteLaws.CalledBackInOrder` | bluez/gatt-client.c:2401-2442 | Accepted long writes are called back once and in order; when none is going on, none waits and the server's queue is empty. |
| `LongWriteLaws.SuccessWasExecuted` | bluez/gatt-client.c:2423-2442 | Success is reported only for a value that was executed. |
| `LongWriteLaws.LinkLossMeans` | bluez/gatt-client.c:2588-2620 | After the link was lost, a long write is taken and waits for ever if and only if one was going on; otherwise the first chunk is cut at 0 - 5 in 16 bits, and the call reads beyond the value if and only if that is shorter than 65531 octets, and is refused if not (with bluez/gatt-client.c:1593-1605 and bluez/att.c:1031-1037). |
| `LongWriteLaws.WriteAfterLinkLoss` | bluez/gatt-client.c:2588-2608 | At an input: one octet. |
| `LongWriteLaws.LinkLossWhileWriting` | bluez/gatt-client.c:2596-2600 | At an input: the link is lost while a long write is going on. |
| `LongWriteLaws.LostLinkCallsNobody` | bluez/gatt-client.c:2596-2600 | From then on nothing is called back, whatever is asked for. |
| `LongWriteLaws.StepKeeps` | bluez/gatt-client.c:2362-2628 | Every write request and every answer keeps the server's queue a tiling of the current value. |
| `LongWrite.TilesWriteTheValue` | bluez/gatt-client.c:2362-2399 | Executing contiguous pieces writes the value at its offset. |
| `LongWriteDelivery.AllAreDelivered` | bluez/gatt-client.c:2362-2628 | Any number of long writes, the first at once and the others waiting, at any MTU from 23 on: when every Prepare Write is acknowledged and every Execute Write answered, each is executed with exactly the chunks of its whole value and then reported as a success, in order, and nothing else happens. |
| `LongWriteDelivery.PiecesOfChunks` | bluez/gatt-client.c:2529-2533 | These chunks are ceil(length / (mtu - 5)) many, in order and without gaps. |
| `LongWriteDelivery.RefusedChunkIsReported` | bluez/gatt-client.c:2477-2538 | After any number of acknowledged chunks, an answer that is not an acknowledgement, or for a reliable write not the echo, cancels the write: it is reported as a failure with the code of the error response and the reliable flag of a wrong echo. |
| `LongWriteDelivery.RefusedExecuteIsReported` | bluez/gatt-client.c:2423-2442 | An Execute Write that is refused is reported as a failure with the code. |
| `LongWriteDelivery.TakenExactly` | bluez/gatt-client.c:2540-2594 | A long write is taken if and only if its value is not empty and ends at 65535 at most. |
| `LongWriteDelivery.EchoOctets` | bluez/gatt-client.c:2497-2515 | The echo that a reliable write is compared with: handle and offset, low octet first, and the chunk. |
| `LongWriteDelivery.TooLongForTheMtu` | bluez/gatt-client.c:2362-2399 | A write that waited and whose first chunk no longer fits the MTU is cancelled and reported as a failure. |
| `LongWriteProgram.LongWriter.WriteLongValue` | bluez/gatt-client.c:2540-2628 | Refuses empty and too long values, queues behind a long write that is going on, or copies and sends the first chunk, whose length has 16 bits; a refused send refuses the write. |
| `LongWriteProgram.LongWriter.AttDisconnectCb` | bluez/gatt-client.c:1593-1605 | The client lets go of the bearer, whose MTU is 0 from then on. |
| `LongWriteProgram.LongWriter.PrepareWriteCb` | bluez/gatt-client.c:2477-2538 | Compares the echo of a reliable write octet by octet, goes on with the next chunk, or completes with the error code and the reliable flag. |
| `LongWriteProgram.LongWriter.HandleNextPrepWrite` | bluez/gatt-client.c:2362-2399 | Sends the next chunk, or cancels if it does not fit the MTU or the bearer refuses it. |
| `LongWriteProgram.LongWriter.CompleteWriteLongOp` | bluez/gatt-client.c:2444-2475 | Sends Execute Write with 0x01 or 0x00; when that is refused, the callback runs at once and the waiting writes are gone through. |
| `LongWriteProgram.LongWriter.ExecuteWriteCb` | bluez/gatt-client.c:2423-2442 | Reports result, error code and reliable flag, then starts the next long write. |
| `LongWriteProgram.LongWriter.StartNextLongWrite` | bluez/gatt-client.c:2401-2421 | Takes the next waiting write, or ends the long write state. |
| `WriteSessions.StepCalm` | bluez/gatt-client.c:2596-2880 | From a state with one long write or one session at a time, in which every request an answer refers to is alive with the data it is made for, a step leads out of these states if and only if a call is let through too early: while a long write that had waited for a session is under way (in_long_write is not set for it, bluez/gatt-client.c:2401-2421); a call that replaces the data of a session's request or releases it although an answer is to come; or a cancel of a request that only its operation holds. |
| `WriteSessionRuns.ExecutesItsOwn` | bluez/gatt-client.c:2716-2880 | In every run without such a call the behaviour is defined, and whatever the server executes was prepared for just the one long write or session it is executed for. |
| `WriteSessionRuns.SpoilingIsUndefined` | bluez/gatt-client.c:2692-2735 | From every call that replaces or releases the request of a session while an answer is to come, whatever is answered: after two answers at the latest a callback reads other data than its own, or a released request (with bluez/gatt-client.c:2670-2690 and bluez/gatt-client.c:2804-2880). |
| `WriteSessionRuns.ExecutedTooEarly` | bluez/gatt-client.c:2836-2875 | At an input: a session is executed before its Prepare Write is answered. |
| `WriteSessionRuns.CancelUndefinedExactly` | bluez/gatt-client.c:1818-1849 | bt_gatt_client_cancel reads a released request if and only if it is that of a long write under way, or of a session that is being executed: bt_att_cancel gives back the one reference (with bluez/gatt-client.c:147-161 and bluez/att.c:1183-1223). |
| `WriteSessionRuns.CancelledUnderWay` | bluez/gatt-client.c:1818-1849 | At an input: a long write whose first chunk is on its way. |
| `WriteSessionRuns.HiddenWritesMix` | bluez/gatt-client.c:2596-2626 | From every state with a hidden long write whose piece is on its way: one more long write, or a session, and its first piece is executed together with the other's. |
| `WriteSessionRuns.SessionHidesAWrite` | bluez/gatt-client.c:2804-2834 | Such a state is reached with one session and one long write that waits for it. |
| `WriteSessionRuns.ToldExactly` | bluez/gatt-client.c:2670-2690 | The answer to a Prepare Write goes to the callback, and is compared with the value, of the last one asked for: its own if and only if no other is on its way. |
| `WriteSessionRuns.TwoAtOnceMixUp` | bluez/gatt-client.c:2670-2690 | At an input. |
| `WriteSessionRuns.DiesExactly` | bluez/gatt-client.c:2784-2802 | A session is lost if and only if a send for it is refused: its request can no longer be found although the session id stays set (with bluez/gatt-client.c:2868-2878 and bluez/gatt-client.c:1805-1816). |
| `WriteSessionRuns.DeadForEver` | bluez/gatt-client.c:2596-2600 | From then on, for all inputs, nothing is sent, no session begins and long writes only wait. |
| `WriteSessionRuns.RefusalLosesTheSession` | bluez/gatt-client.c:2784-2795 | At an input: one refused Prepare Write behind one that was answered. |
| `WriteSessionRuns.LeftBehindExactly` | bluez/gatt-client.c:1796-1803 | Long writes are left waiting with nothing under way if and only if the cancel of a session is answered while some wait. |
| `WriteSessionRuns.TheNextOvertakes` | bluez/gatt-client.c:2596-2626 | The next long write is sent before those. |
| `WriteSessionRuns.CancelledSessionLeavesAWrite` | bluez/gatt-client.c:1796-1803 | At an input. |
| `WriteSessionDelivery.EveryLongWriteIsWritten` | bluez/gatt-client.c:2362-2628 | Any number of long writes of any number of pieces, asked for at rest: with good answers each is executed with just its own pieces and its caller told, in order; at the end nothing is under way and no request is left over. |
| `WriteSessionDelivery.SessionAndLongWritesAreWritten` | bluez/gatt-client.c:2670-2880 | A session of any number of Prepare Writes with any number of long writes waiting behind it: each answer goes to its own callback, the session is executed with just its own pieces and its caller told, then the long writes go on one after the other, and no request is left over. |
| `WriteSessionRefs.StepLeaks` | bluez/gatt-client.c:1778-1849 | As long as no call comes too early, a step leaves a request over, that is allocated and neither waiting nor under way nor of the session, if and only if it cancels a long write that waits. |
| `WriteSessionRefs.LeftOverExactly` | bluez/gatt-client.c:1784-1789 | Over every such run the requests that are never released are exactly those of long writes that were cancelled while they waited (with bluez/gatt-client.c:129-161). |
| `WriteSessionRefs.CancelledWhileWaiting` | bluez/gatt-client.c:1784-1789 | At an input. |
| `WriteSessionRefs.RefusedStartTellsAll` | bluez/gatt-client.c:2401-2421 | When the next long write is refused, every one that waits is called back, in order. |
| `WriteSessionRefs.CancelledOnTheBearer` | bluez/att.c:1183-1223 | What bt_att_cancel does to operations: which stays without handlers, which goes, and whose reference is given back. |
| `WriteSessionRefs.CallbackUndefinedExactly` | bluez/gatt-client.c:2670-2690 | An answer is undefined if and only if its callback reads a released request, or data of the session that are not of its kind. |
| `WriteSessionRefs.CancelOfLongAnswered` | bluez/gatt-client.c:1769-1776 | The answer to the Execute Write of a cancelled long write clears in_long_write if nobody waits, and starts nobody. |
| `WriteSessionsProgram.Client.RequestUnref` | bluez/gatt-client.c:147-161 | Gives back one reference; the last one releases the request. |
| `WriteSessionsProgram.Client.WriteLongValue` | bluez/gatt-client.c:2540-2628 | Waits behind a long write or a session, or sends and sets in_long_write; a refused send releases the request. |
| `WriteSessionsProgram.Client.PrepareWrite` | bluez/gatt-client.c:2716-2802 | Refuses during a long write, for another session or a request that cannot be found; replaces the data of the request; a refused send releases it. |
| `WriteSessionsProgram.Client.WriteExecute` | bluez/gatt-client.c:2836-2880 | The same for executing the session. |
| `WriteSessionsProgram.Client.BtAttCancel` | bluez/att.c:1183-1223 | What went out or is calling back loses its handlers, what is queued goes; the destroy handler gives back its reference. |
| `WriteSessionsProgram.Client.CancelRequest` | bluez/gatt-client.c:1778-1849 | bt_att_cancel, and then the request is read: a waiting long write leaves the queue, anything else is cancelled at the server. |
| `WriteSessionsProgram.Client.StartNextLongWrite` | bluez/gatt-client.c:2401-2421 | Sends for the next waiting write without setting in_long_write, or clears it. |
| `WriteSessionsProgram.Client.StartRefused` | bluez/gatt-client.c:2401-2421 | When nothing is taken, every waiting write is called back and released. |
| `WriteSessionsProgram.Client.EnterCallback` | bluez/gatt-client.c:2670-2690 | A callback reads its request and the data, and calls the caller back. |
| `WriteSessionsProgram.Client.PrepareWriteCb` | bluez/gatt-client.c:2477-2538 | The end of the callback of a long write's Prepare Write. |
| `WriteSessionsProgram.Client.ExecWriteCb` | bluez/gatt-client.c:2825-2834 | Behind the caller's callback, ends the session and starts the next long write. |
| `WriteSessionsProgram.Client.CancelPrepWriteCb` | bluez/gatt-client.c:1796-1803 | Ends the session and starts nothing. |
| `WriteSessionsProgram.Client.CancelLongWriteCb` | bluez/gatt-client.c:1769-1776 | Clears in_long_write only if none waits. |
| `WriteSessionsProgram.Client.LeaveCallback` | bluez/att.c:586-644 | When a callback returns, its operation is destroyed and gives back its reference. |
| `LongRead.LongReadDelivers` | bluez/gatt-client.c:2074-2203 | Against a server with any value, for every offset inside it, also for multiples of mtu - 1: the read ends; if it ends well it delivers exactly the value from the offset on, up to 512 octets; it ends with an error, which is 0, if and only if another blob was needed and the request for it was refused (Vol 3 Part G, section 4.8.3). |
| `LongRead.StepEnds` | bluez/gatt-client.c:2130-2145 | One blob: the read is over, waits for the next one, or fails because the request for that is refused. |
| `LongRead.OtherAnswersFail` | bluez/gatt-client.c:2103-2118 | Any other answer fails the read with the code of the error response, or 0. |
| `LongRead.StepGood` | bluez/gatt-client.c:2097-2154 | One blob keeps the data a gapless part of the value, and the client stops exactly when it has everything. |
| `LongRead.StopsEarlyExactly` | bluez/gatt-client.c:2130-2131 | A value is cut short exactly if the client expects longer blobs than the server sends and a full blob is not the last. |
| `LongRead.UndefinedExactly` | bluez/gatt-client.c:2074-2095 | For every offset of 16 bits: more is copied from a blob than it has if and only if the offset is past 512 and the blob is shorter than 512 - offset in 16 bits. |
| `LongRead.FirstBlobOutside` | bluez/gatt-client.c:2097-2154 | What becomes of a read that starts outside of what is delivered: an error behind the value, nothing at the end of one longer than 512, undefined inside of such a one unless the blob is that long. |
| `LongRead.ReadsPastTheBlob` | bluez/gatt-client.c:2074-2095 | At an input: one octet at offset 513. |
| `LongRead.LargerMtuCutsShort` | bluez/gatt-client.c:2130-2131 | At an input: 22 of 40 octets are delivered as the whole. |
| `LongRead.ReadLongOp.AppendChunk` | bluez/gatt-client.c:2074-2095 | Appends what fits into 512 octets and moves the offset, in 16 bits. |
| `LongRead.ReadLongOp.Callback` | bluez/gatt-client.c:2097-2154 | The callback with all its ways out, among them the refused request for the next blob. |
| `Ccc.CountAndConfigurationAgree` | bluez/gatt-client.c:1368-1510 | In every run, also when sending fails: a CCC write in flight implies notify_count = 0 (so the callbacks' assertions hold); handlers wait only behind a write; at rest the last acknowledged CCC value is enabling if and only if notify_count > 0 or the last disabling write failed. What notify_count says about handlers is stated by the rows of CccHandlers. |
| `Ccc.StepKeeps` | bluez/gatt-client.c:1368-1510 | Every registration, unregistration and answer keeps this. |
| `CccHandlers.EveryHandlerHasItsFate` | bluez/gatt-client.c:1424-1510 | In every run, for every registered handler: it waits, owns the write in flight, was stranded, or was completed, and only one of these; a stranded one is never called, neither with success nor with an error; notify_count is the number of completed registered handlers plus the completions of handlers that were gone, less the releases of handlers never completed. |
| `CccHandlers.CompletedExactly` | bluez/gatt-client.c:1424-1486 | At rest a registered handler was completed if and only if it was not stranded. |
| `CccHandlers.WriteBackStrandsTheFirst` | bluez/gatt-client.c:1479-1485 | With working sends, the end of a write back strands exactly the first handler that waits. |
| `CccHandlers.FailureStrandsNobody` | bluez/gatt-client.c:1434-1448 | A failed enabling write with working sends strands nobody. |
| `CccHandlers.StrandedExactlyWhenDisturbed` | bluez/gatt-client.c:1466-1486 | With working sends, in a run that ends at rest, a handler was stranded if and only if somebody registered while the CCC was being written back. |
| `CccHandlers.LiveHandlersAreCounted` | bluez/gatt-client.c:2896-2996 | If nobody was stranded, then at rest every registered handler has been completed, and notify_count is their number. |
| `CccHandlers.RegisteringDuringWriteBackIsForgotten` | bluez/gatt-client.c:1466-1486 | At an input: the loop writes for the old handler, and when that write fails the new one stays in the list uncounted and uncalled. |
| `CccHandlers.TheOneThatHasGoneIsCalledAgain` | bluez/gatt-client.c:1424-1464 | When it succeeds, the handler that has gone is called again, and notify_count equals the number of registered handlers, none of which was ever called. |
| `CccRegistrations.TakenExactly` | bluez/gatt-client.c:2926-2976 | A handler is taken if and only if notify_count is not 0x7fffffff, and a write is in flight, or the count is not 0, or there is no CCC, or the enabling write goes out; it gets the next id and is the last in the list, and waits, is complete, or has a write of its own; one that is not taken leaves nothing behind. |
| `CccRegistrations.AcceptedForAll` | bluez/gatt-client.c:1450-1463 | When the server accepts the enabling write, its handler and after it all that wait are completed, in order. |
| `CccRegistrations.RefusedForOne` | bluez/gatt-client.c:1434-1448 | When it refuses, that handler gets the error and is out of the list; the next that waits and whose write goes out takes its turn. |
| `CccRegistrations.WrittenBack` | bluez/gatt-client.c:1466-1486 | After a write back the turn of the next that waits is used for another write for the handler that has gone. |
| `CccRegistrations.ReleasedExactly` | bluez/gatt-client.c:2978-2996 | In every run a registered handler at rest is released and the last one writes the CCC back; another registered one fails an assertion, an unknown one changes nothing (with bluez/gatt-client.c:1488-1510). |
| `CccRegistrations.OneWriteForAll` | bluez/gatt-client.c:1368-1464 | Any number of handlers that register before the answer are completed with one write, in order, and all counted; one that comes later is completed at once. |
| `CccProgram.NotifyChrc.RegisterNotify` | bluez/gatt-client.c:2896-2976 | Registration with its four ways out; the id returned is the new one exactly if the handler is taken. |
| `CccProgram.NotifyChrc.UnregisterNotify` | bluez/gatt-client.c:2978-2996 | Unregistration with complete_unregister_notify (bluez/gatt-client.c:1488-1510), its assertions and its result. |
| `CccProgram.NotifyChrc.EnableCccCallback` | bluez/gatt-client.c:1424-1464 | The callback of an enabling write, with the loop over waiting handlers. |
| `CccProgram.NotifyChrc.DisableCccCallback` | bluez/gatt-client.c:1466-1486 | The callback of a disabling write, with its loop. |
| `Mtu.MtuInBounds` | bluez/gatt-helpers.c:508-533 | Whatever servers answer, the MTU stays between 23 and 517. |
| `Mtu.ShrinksExactly` | bluez/gatt-helpers.c:508-533 | An exchange shrinks the MTU exactly if both sides can do 23 and one of them less than the present MTU. |
| `Mtu.SecondExchangeShrinks` | bluez/gatt-helpers.c:508-533 | At an input: 100 becomes 50. |
| `Mtu.OneExchangeNeverShrinks` | bluez/gatt-helpers.c:508-533 | The one exchange of a connection cannot shrink it. |

## Left out

- DfuDelivery.PackageInstalled: packages of 4 GiB and more, whose length does not fit the 32-bit counters; the device applies a request it accepts when it answers it, ignores the size in Create, and keeps init packet and firmware as independent objects.
- DfuUndefined.UndefinedExactly: the shifts of reply octets from 0x80 on into the sign bit of an int, which C leaves undefined as well.
- DfuProgram.Ble.SendPackage: notifications arrive as decoded fields, not as the octets they are shifted together from; printing, `sleep` and the debug switch for artificial errors are left out.
- DfuProgram.Ble.Dfu: buttonless activation, opening and closing the connection, and the pause between attempts.
- AttProgram.Attachment.Send: no signing keys are set, memory never runs out, and ids do not wrap around.
- AttProgram.Attachment.CanReadData: callbacks may send but not cancel, register, unregister or drop references, so the list of handlers stays the same while it is walked; the reference count is a flag for the last reference.
- AttProgram.Attachment.RegisterHandler: taking out a single handler again, and the destroy functions of handlers.
- AttProgram.Attachment.CancelAllSends: the three queues are sequences in fields; that the linked lists behave like sequences is what Queue proves.
- GattProgram.Database.InsertService: change notifications to listeners, reference counts, permissions and read or write handlers.
- GattProgram.Database.ClearRangeOf: the list of services is a sequence of objects filtered in one loop; the repeated search of `queue_remove_all` is proved to be this filter in Queue.
- Primary.PrimaryDiscovery: the database is empty at the start; secondary services take the same path with another flag.
- RebuildRuns.ServiceOutcome: included services, and values at the last handle, for which RebuildRuns.ValueAtTheTopWraps says what happens; in the sessions of a lawful server requests are sent successfully (the callbacks are specified also for refused ones).
- Services.ServicesOutcome: a first service of a single handle, which the source asks about although it passes over later ones.
- Uuids.UuidRoundTrip: 32-bit UUIDs, which neither the database nor discovery produces.
- LongWriteProgram.LongWriter.WriteLongValue: reliable write sessions and cancellation, which are the subject of WriteSessions; there the requests are modelled without their octets.
- LongWriteProgram.LongWriter.ExecuteWriteCb: what callbacks ask for that run because a send was refused.
- WriteSessionsProgram.Client.WriteLongValue: the copy of a first chunk without a bearer, which LongWrite has; the loss of the link as an event of its own.
- WriteSessionsProgram.Client.StartRefused: what callbacks ask for that run because a send was refused, and what destroy functions of callers ask for.
- WriteSessionsProgram.Client.CancelRequest: requests of other procedures between those of long writes and sessions.
- LongRead.LongReadDelivers: values that change while they are read.
- Ccc.CountAndConfigurationAgree: callbacks that register or unregister themselves, removal of a characteristic by a service change, and more than 2^31 handlers.
- Mtu.MtuInBounds: the offer is at most 517, as the program makes it.
- `ble.c`, the main loops, sockets, timers and signals: system calls; they appear as inputs of the state machines.
- `zip.c`, `manifest.c`, `nrfdfu.c`, `hexdump.c` and error texts: file formats and output.
- `bluez/crypto.c` and signed writes: done by the kernel.
- `queue_foreach`: its protection against changes during the walk concerns callbacks that are left out.
- `gatt_db_find_by_type_value`, `bt_gatt_read_by_type`, `bt_gatt_discover_primary_services` by UUID: variants of the scans and procedures above.
- Service Changed handling: it repeats discovery for a range.
