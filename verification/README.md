# BlueZ ATT and GATT client: a verified model

libble talks to Bluetooth Low Energy devices through the ATT/GATT client code of BlueZ.  This project models that
code in Dafny and proves what it is for: the bearer loses no operation and wakes its writer whenever there is
something to write, the discovery procedures find exactly what the server holds, long values travel whole, and the
codecs undo each other.

`dafny verify dfyconfig.toml` checks everything.

## How the project is laid out

The model has these parts, and code that updates fields in place is modelled by classes that update fields in place.
Each such class (`Bearer.BtAtt`, `GAttribs.GAttrib`, `GattPrimary.DiscoverPrimary` and so on) has a function
`State()`, and every method is proved to take `State()` exactly where a function of the specification says; the
theorems are then about those functions, over whole runs.

**The bearer** (`bluez/src/shared/att.c`).  `BearerSpec` gives the engine as functions on its state: three shared
queues, and for each channel its own queue, the pending request and indication, `in_req`, `writer_active`, MTU and
security levels.  Two histories are kept beside it: `life` (what happened to each accepted operation) and `wire` (what
happened on each channel).  A response callback may call back into the API before it returns, also when a timeout or a
disconnection fails its operation, and so may the timeout and disconnect handlers; the calls they make are parameters
of the actions.  Handlers come and go by registering and unregistering.  `BearerBooks`, `BearerSound`, `BearerPlaces`
and `BearerTalk` build the invariant, `BearerRuns` proves that every turn of the event loop keeps it, and
`BearerTheorems` and `BearerSolo` read the results off in plain terms: conservation of operations, handlers run once,
one request outstanding, no lost wake-up, send order, bounded and lossless retries, incoming requests served one at a
time.  `BearerOrder` is the order in which each queue is written, and `BearerOrigin` where the answers come from: a
callback is told of a loss, or exactly what arrived on the channel its request is pending on.  `Bearer` is the engine as
an object.

**The GATT client procedures** (`bluez/attrib/gatt.c`).  `GattPrimary`, `GattIncluded`, `GattChars`, `GattDescs` and
`GattLong` each hold the client's step, a relation that says which responses a conforming server may give to a request
PDU, and theorems about every sequence of such responses.  The server is free to split its answer as it likes.  Every
discovery is also shown to end, within a stated number of rounds, against any server whose responses the code does not
read beyond their end (`GattChars.Readable` and `GattDescs.Readable` say which those are; the other discoveries need no
such condition); for characteristics that is false when a server names handle 0xFFFF, and the exact condition is proved
(`GattChars.RisesUnlessLast`, `GattChars.WrapNeverEnds`).  The encoders of `bluez/attrib/att.c`, given a prefix of the
entries a request asks for, are shown to be conforming servers.

`GAttribs` is the id chain of `bluez/attrib/gattrib.c` that lets one id stand for all the requests of a procedure that
passes its id on with each further request, one at a time, as the other discoveries and the long read do.  Included
discovery can have several requests under one id: cancelling drops the oldest only, and its destroy handler may call
the user; `GattIncluded` treats it by itself.  A long write does not pass its id on: every prepare request and the
execute request are sent with id 0 (`bluez/attrib/gatt.c:888-984`), so the id that `gatt_write_char` returns names the
first prepare request only, and cancelling it after the first acknowledgement does nothing.  In `GAttribs` such a write
is a procedure for each of its requests.

**The layers joined.**  `Layers` proves that the engine refines what `GAttribs` assumes of it.  gattrib keeps step with
every run of `BearerSpec` that `gattrib.c` and sequential procedures can bring about (`Layers.Shadows`): after each
action the same requests are live on both sides, the turns taken answer the very requests whose callbacks the action
ran, in that order, and they go on with a procedure exactly if the callback did.  So users are called by the engine's
callbacks that end a chain and by nothing else (`Layers.Refines`), and cancelling a procedure finds its request in the
engine, after which the engine runs no callback of that procedure (`Layers.CancelReachesTheBearer`).

`EndToEnd` runs a procedure of `gatt.c` as one client among others on the engine.  The client's callbacks send its next
request; around it other procedures, requests of the peer, retries, timers, cancellations and other channels go on as
they like, and callbacks of others may call back into the API.  If the peer answers the bytes written for each of the
client's requests as a conforming server would, then what the client hears is a conforming list of replies, one for
each request and in order, up to at most one that says that a request was lost (`EndToEnd.OwnRunHears`).
`OverTheEngine` draws the conclusion for each procedure with one request at a time: on any such run a discovery that
calls its user has exactly the peer's list, a long read delivers the value and a long write executes the whole value,
unless a request was lost.

**The codecs** (`bluez/attrib/att.c`, `bluez/src/shared/crypto.c`, `bluez/lib/uuid.c`).  `AttPdus` says what the list,
read and prepare-write codecs compute and proves that they undo each other up to the MTU; `AttCodec` is the encoders
and decoders with their buffers and loops.  `Signing` is the 12-byte signature with the AES-CMAC as an arbitrary
function.  `Uuids` converts, compares, prints and parses UUIDs.

**The queue** (`bluez/src/shared/queue.c`).  `Queues` is the singly linked list with its tail pointer and count,
refining a sequence.  The other modules use sequences.

`Wire` and `Opcodes` hold bytes, byte orders and the opcode tables.

Where a promise does not hold of the code, the code is modelled as it is and the exact condition is proved:

- `pick_next_send_op` pops a channel's own queue without looking at the pending slots, so one outstanding request and
  one outstanding indication need those queues to hold no request and no indication
  (`BearerTheorems.ChannelQueueSkipsTheCheck`, with a run that breaks the rule in `BearerTheorems.OverlappingRun`).  The
  theorems about runs carry that assumption; the only caller queues responses there.
- a channel's writer goes idle with something left to write exactly when it is offered while every head it may take is
  longer than its MTU (`BearerSolo.LostExactlyWhenBlocked`, and over whole runs `BearerSolo.SettledExactly`).  That takes
  an MTU that was lowered (`BearerSolo.NoLostWakeup`), and raising it again wakes nobody
  (`BearerSolo.MtuRepairsNothing`): `BearerSolo.LoweredMtuStalls` is a run at whose end an idle writer sits before a
  write that fits.
- `bt_att_send` takes no response callback for a command, and `g_attrib_send` hands it one whenever its caller wants to
  be notified, so a command sent with a destroy handler is always refused (`Layers.CommandWithHandlerRefused`).
- `bt_att_set_mtu` and `bt_att_set_security` return -ENOTCONN as a bool, and so say true without setting anything exactly
  when there is no channel and the argument is one they take (`BearerTheorems.SetMtuFalseSuccess`,
  `BearerTheorems.SetSecurityFalseSuccess`, with a reachable state in `BearerTheorems.ChannellessFalseSuccess`).
- `handle_notify` keeps the reference it took when a signature does not check out, so the owners' last `bt_att_unref`
  frees the bearer if and only if no signature check has failed (`BearerTheorems.LastReferenceGoes`, with a run that
  leaks in `BearerTheorems.ForgedCommandLeaks`).
- `gatt_discover_primary` takes a 32-bit UUID and searches for four bytes that are not it: it finds nothing, which is
  right if and only if there is no such service (`GattPrimary.ShortUuidFindsNothing`, `GattPrimary.ShortUuidMisses`).
- `dec_prep_write_resp` tests the opcode of the request and so inverts no response (`AttPdus.PrepRspIsNoInverse`).
- `last + 1` wraps in characteristic discovery before it is compared (`GattChars.RisesUnlessLast`).
- an included discovery cannot be silenced: its user is called once even when every request is dropped unanswered
  (`GattIncluded.DropsToldOnce`), and a discovery that went well until it was cancelled reports status 0 with the part
  of the list it had (`GattIncluded.CancelledLooksDone`).
- the long write's 16-bit offset never equals a length above 65535, so such a write never executes
  (`GattLong.ExecutesIffShort`).
- Find Information drops an incomplete tail and inverts lists of the right width only (`AttPdus.InfoRoundTrip`,
  `AttPdus.InfoReencode`).
- a comment in `attrib_callback_result` calls the error code the third byte; the code reads the fourth byte of the
  body, and so does the model.

## Model

| member | source | states |
|---|---|---|
| BearerTheorems.Conservation | bluez/src/shared/att.c:376-663 | in every reachable state an accepted operation that has not been freed sits in exactly one queue, channel queue or pending slot, once, with the bytes it was accepted with, and a freed one in none |
| BearerTheorems.HandlersRunOnce | bluez/src/shared/att.c:211-233 | over any run a callback runs at most once and only if one was given, a destroy handler at most once and exactly once when the operation is freed, and no callback runs after the destroy handler or the free |
| BearerTheorems.CallbacksGetTheirAnswer | bluez/src/shared/att.c:764-852 | a callback is told an error, the response whose opcode maps to the request it was accepted with, or the confirmation of that indication |
| BearerTheorems.TeardownCompletes | bluez/src/shared/att.c:1090-1111 | freeing the bearer frees every operation ever accepted, with its destroy handler run exactly once |
| BearerTheorems.LastUnrefCompletes | bluez/src/shared/att.c:1251-1262 | so does dropping the last reference |
| BearerTheorems.RefsRun | bluez/src/shared/att.c:919-982 | after any run the references are those at its start, plus those taken, less those dropped, plus one for every failed signature check |
| BearerTheorems.LastReferenceGoes | bluez/src/shared/att.c:1251-1262 | when the last owner drops its reference the bearer is freed if no signature check has failed, and nothing is freed otherwise |
| BearerTheorems.ForgedCommandLeaks | bluez/src/shared/att.c:938-942 | a run in which one forged command keeps the bearer for good |
| BearerTheorems.SetMtuFalseSuccess | bluez/src/shared/att.c:1348-1377 | it says true and the original channel does not have the MTU if and only if there is no channel and the MTU is at least 23 |
| BearerTheorems.SetSecurityFalseSuccess | bluez/src/shared/att.c:1775-1788 | it says true and the original channel does not have the level if and only if there is no channel and the level is in range |
| BearerTheorems.ChannellessFalseSuccess | bluez/src/shared/att.c:611-663 | a reachable state without a channel, where both do |
| BearerTheorems.DisconnectCompletes | bluez/src/shared/att.c:611-663 | losing the only channel completes every operation the same way, whatever the callbacks it runs and the disconnect handlers call |
| BearerTheorems.OneOutstanding | bluez/src/shared/att.c:522-550 | between two requests (or two indications) written on one channel the first was answered, timed out, given back for a retry, or the channel closed |
| BearerTheorems.ChannelQueueSkipsTheCheck | bluez/src/shared/att.c:376-385 | writing from a channel queue breaks the one-outstanding rule if and only if a request is queued there while a request is pending, or an indication while an indication is |
| BearerTheorems.OverlappingRun | bluez/src/shared/att.c:1515-1540 | a run from a new bearer after which two requests, or two indications, are written and neither has ended |
| BearerTheorems.TakenOneAtATime | bluez/src/shared/att.c:1014-1034 | the requests handed to handlers never exceed the responses written by more than one, and not at all when the channel is not serving a request |
| BearerTheorems.RetriesBounded | bluez/src/shared/att.c:700-762 | at most three retries happen on a channel between explicit security changes, counting from the last time its level could not be read |
| BearerTheorems.TailIsOldest | bluez/src/shared/att.c:1196-1211 | the last channel of the list is the earliest attached one left |
| BearerRuns.TimerHitsItsOperation | bluez/src/shared/att.c:427-463 | whatever timer fires, timeout_cb finds on its channel the one operation that timer was armed for |
| BearerRuns.InvStep | bluez/src/shared/att.c:376-1063 | every turn of the event loop keeps the books, the places of operations and the story of each channel |
| BearerRuns.InvRun | bluez/src/shared/att.c:376-1063 | so does every run |
| BearerRuns.InvNew | bluez/src/shared/att.c:1147-1239 | a new bearer satisfies the invariant |
| BearerRuns.InvClose | bluez/src/shared/att.c:1090-1111 | releasing the bearer keeps it |
| BearerRuns.InvAttach | bluez/src/shared/att.c:1285-1299 | attaching a channel keeps it |
| BearerSolo.NoLostWakeup | bluez/src/shared/att.c:552-579 | on a single channel that is not shut down and whose MTU is never lowered, an idle writer means that nothing queued could be written |
| BearerSolo.LostExactlyWhenBlocked | bluez/src/shared/att.c:376-410 | on a single channel, with no other assumption on the MTU, one action loses a wake-up if and only if it offers the writer while every head it may take is too long |
| BearerSolo.SettledExactly | bluez/src/shared/att.c:376-579 | so every point of a run is free of lost wake-ups if and only if no offer of the run is such a one |
| BearerSolo.MtuRepairsNothing | bluez/src/shared/att.c:1348-1377 | changing the MTU neither loses a wake-up nor makes one good |
| BearerSolo.LoweredMtuStalls | bluez/src/shared/att.c:1348-1377 | a reachable run that lowers the MTU, offers the writer and raises the MTU again: the writer ends idle before a queued write that fits |
| BearerOrder.WrittenInSendOrder | bluez/src/shared/att.c:376-410 | on one channel requests, indications, the other PDUs sent to the bearer and those sent to the channel are each written in the order they were sent; a retried request stays ahead of later ones |
| BearerOrigin.RepliesComeFromThePeer | bluez/src/shared/att.c:412-1063 | in any state and whatever callbacks call back, a callback that an action runs is told of a loss, or it belongs to the operation pending on the channel that read and is told what was read |
| BearerOrigin.AnswersTheWrittenRequest | bluez/src/shared/att.c:764-826 | in a reachable state such an answer is for the request last written on that channel, with the bytes it was accepted with |
| BearerSound.SoundCancel | bluez/src/shared/att.c:1577-1615 | cancelling accounts for the cancelled operation whichever queue or slot holds it |
| BearerSound.SoundRetry | bluez/src/shared/att.c:728-762 | a retry keeps every operation accounted for |
| BearerSound.SoundFinish | bluez/src/shared/att.c:764-852 | the end of a pending operation accounts for it even when its callback calls back into the API |
| BearerTalk.KeepWrite | bluez/src/shared/att.c:500-550 | writing keeps the story of every channel in order |
| BearerTalk.KeepRead | bluez/src/shared/att.c:984-1063 | reading a PDU keeps the story of every channel in order |
| Bearer.BtAtt.DestroySendOp | bluez/src/shared/att.c:211-223 | frees the operation: timer removed, destroy handler run |
| Bearer.BtAtt.DiscSendOp | bluez/src/shared/att.c:412-420 | fails the operation with an empty error, its callback free to call back, and frees it |
| Bearer.BtAtt.CancelSlot | bluez/src/shared/att.c:225-233 | the pending operation stays, its handlers go |
| Bearer.BtAtt.WakeupChanWriter | bluez/src/shared/att.c:552-574 | the writer is made active unless it is or there is nothing it could write |
| Bearer.BtAtt.WakeupWriter | bluez/src/shared/att.c:576-579 | the same for every channel |
| Bearer.BtAtt.CreateSendOp | bluez/src/shared/att.c:330-374 | refuses unknown opcodes, misplaced or missing callbacks and PDUs over the MTU |
| Bearer.BtAtt.Send | bluez/src/shared/att.c:1465-1513 | accepts an operation under a fresh id, queues it by its type and wakes the writers; 0 when refused |
| Bearer.BtAtt.ChanSendOp | bluez/src/shared/att.c:1515-1540 | queues on the channel itself, without an id |
| Bearer.BtAtt.CancelOnChan | bluez/src/shared/att.c:1550-1575 | finds the id in the slots or the channel queue |
| Bearer.BtAtt.CancelOp | bluez/src/shared/att.c:1577-1615 | finds the id on any channel or shared queue; the result says whether it was found |
| Bearer.BtAtt.CancelAllOps | bluez/src/shared/att.c:1617-1646 | empties the shared queues and strips every pending operation |
| Bearer.BtAtt.PickNextSendOp | bluez/src/shared/att.c:376-410 | channel queue, then writes, then requests and indications whose slot is free, each only if it fits |
| Bearer.BtAtt.CanWriteData | bluez/src/shared/att.c:500-550 | writes one operation and keeps it pending with a timer, or frees it; a failed write fails it |
| Bearer.BtAtt.HandleErrorRsp | bluez/src/shared/att.c:728-762 | whether the request is retried at a higher level, and the opcode the error names |
| Bearer.BtAtt.OnResponse | bluez/src/shared/att.c:764-826 | the pending request is retried, or completed with its response or with an error |
| Bearer.BtAtt.OnNotify | bluez/src/shared/att.c:919-982 | the handlers, the signature check and the Request Not Supported answer |
| Bearer.BtAtt.CanReadData | bluez/src/shared/att.c:984-1063 | one received PDU, by its type |
| Bearer.BtAtt.TimeoutCb | bluez/src/shared/att.c:427-463 | runs the timeout handler, fails the timed-out operation and shuts the channel down |
| Bearer.BtAtt.DisconnectCb | bluez/src/shared/att.c:611-663 | fails the shared queues and the channel operations, drops the channel, and runs the disconnect handlers |
| Bearer.BtAtt.Teardown | bluez/src/shared/att.c:1090-1111 | frees everything |
| Bearer.BtAtt.AttachFd | bluez/src/shared/att.c:1285-1299 | puts a new channel in front and wakes it |
| Bearer.BtAtt.Turn | bluez/src/shared/att.c:376-1063 | one turn of the event loop takes the state where the specification says |
| Queues.Queue.constructor | bluez/src/shared/queue.c:56-66 | a new queue is empty; the list stays acyclic with tail last and an exact count |
| Queues.Queue.PushTail | bluez/src/shared/queue.c:88-108 | appends; the list stays acyclic with tail last and an exact count |
| Queues.Queue.PushHead | bluez/src/shared/queue.c:110-129 | prepends; the list stays acyclic with tail last and an exact count |
| Queues.Queue.PushAfter | bluez/src/shared/queue.c:131-161 | inserts behind the first equal element, or changes nothing and says so; the list stays acyclic with tail last and an exact count |
| Queues.Queue.PopHead | bluez/src/shared/queue.c:163-185 | removes and returns the first element, or nothing; the list stays acyclic with tail last and an exact count |
| Queues.Queue.PeekHead | bluez/src/shared/queue.c:187-193 | the first element |
| Queues.Queue.PeekTail | bluez/src/shared/queue.c:195-201 | the last element |
| Queues.Queue.Find | bluez/src/shared/queue.c:231-247 | the first match |
| Queues.Queue.Remove | bluez/src/shared/queue.c:249-276 | removes the first equal element; the list stays acyclic with tail last and an exact count |
| Queues.Queue.RemoveIf | bluez/src/shared/queue.c:278-316 | removes and returns the first match; the list stays acyclic with tail last and an exact count |
| Queues.Queue.RemoveAll | bluez/src/shared/queue.c:318-344 | removes every match: survivors keep their order, the removed ones reach the destroy callback in order, and the count is theirs; the list stays acyclic with tail last and an exact count |
| Queues.Queue.RemoveEvery | bluez/src/shared/queue.c:345-362 | empties the queue, destroying every element in order; the list stays acyclic with tail last and an exact count |
| Queues.Queue.Length | bluez/src/shared/queue.c:372-378 | the number of elements |
| Queues.Queue.IsEmpty | bluez/src/shared/queue.c:380-386 | whether there are none |
| Queues.FilterPartition | bluez/src/shared/queue.c:318-344 | what predicate removal keeps and what it removes make up the whole |
| Queues.FilterOrder | bluez/src/shared/queue.c:318-344 | survivors sit at increasing positions of the original |
| AttPdus.FitIsLongest | bluez/attrib/att.c:213-228 | the number of entries encoded is the largest that fits |
| AttPdus.GrpRoundTrip | bluez/attrib/att.c:203-272 | decoding an encoded by-group list gives exactly the longest prefix that fitted, if it has one of width 5 or more; otherwise the decoder refuses it |
| AttPdus.TypeRoundTrip | bluez/attrib/att.c:448-516 | the same for by-type lists, each entry cut to the encoded width |
| AttPdus.FoundRoundTrip | bluez/attrib/att.c:335-389 | the same for find-by-type ranges |
| AttPdus.InfoRoundTrip | bluez/attrib/att.c:876-942 | for find-information lists, exact if and only if the width is the one the format stands for |
| AttPdus.GrpReencode | bluez/attrib/att.c:203-272 | re-encoding any PDU the by-group decoder accepts gives the same bytes |
| AttPdus.TypeReencode | bluez/attrib/att.c:448-516 | the same for by-type |
| AttPdus.FoundReencode | bluez/attrib/att.c:335-389 | the same for find-by-type |
| AttPdus.InfoReencode | bluez/attrib/att.c:876-942 | find information loses exactly an incomplete tail |
| AttPdus.PrepRoundTrip | bluez/attrib/att.c:1084-1135 | a decoded prepare-write request has its handle, its offset and the bytes that fitted |
| AttPdus.PrepReencode | bluez/attrib/att.c:1084-1135 | and encodes back to the same bytes |
| AttPdus.PrepRspIsNoInverse | bluez/attrib/att.c:1137-1187 | the response decoder refuses every encoded response and reads requests instead |
| AttPdus.TypedRoundTrip | bluez/attrib/att.c:146-201 | a by-group or by-type request decodes to what was encoded if its UUID has 16 or 128 bits, and is refused otherwise |
| AttPdus.TypedReencode | bluez/attrib/att.c:391-446 | re-encoding any such request the decoder accepts gives the same bytes |
| AttPdus.ReadThenBlob | bluez/attrib/att.c:767-820 | a read response and the blob response behind it deliver consecutive bytes of the value, and a short blob response is the last |
| AttCodec.EncReadByGrpResp | bluez/attrib/att.c:203-228 | writes its PDU into the buffer, returns the length and leaves the bytes behind it alone |
| AttCodec.EncReadByTypeResp | bluez/attrib/att.c:448-473 | writes its PDU into the buffer, returns the length and leaves the bytes behind it alone |
| AttCodec.EncFindInfoResp | bluez/attrib/att.c:876-902 | writes its PDU into the buffer, returns the length and leaves the bytes behind it alone |
| AttCodec.EncFindByTypeResp | bluez/attrib/att.c:335-355 | writes its PDU into the buffer, returns the length and leaves the bytes behind it alone |
| AttCodec.EncReadResp | bluez/attrib/att.c:767-783 | writes its PDU into the buffer, returns the length and leaves the bytes behind it alone |
| AttCodec.EncReadBlobResp | bluez/attrib/att.c:785-800 | writes its PDU into the buffer, returns the length and leaves the bytes behind it alone |
| AttCodec.EncPrepWrite | bluez/attrib/att.c:1084-1107 | writes its PDU into the buffer, returns the length and leaves the bytes behind it alone; with the other opcode it is the response encoder |
| AttCodec.DecReadByGrpResp | bluez/attrib/att.c:230-272 | returns the entries of an acceptable PDU in order, and nothing for any other |
| AttCodec.DecReadByTypeResp | bluez/attrib/att.c:475-516 | returns the entries of an acceptable PDU in order, and nothing for any other |
| AttCodec.DecFindInfoResp | bluez/attrib/att.c:904-942 | returns the entries of an acceptable PDU in order, and nothing for any other |
| AttCodec.DecFindByTypeResp | bluez/attrib/att.c:357-389 | returns the entries of an acceptable PDU in order, and nothing for any other |
| Signing.SignatureLayout | bluez/src/shared/crypto.c:315-325 | the signature is the counter in little-endian and the top half of the MAC turned round |
| Signing.SwapBuf | bluez/src/shared/crypto.c:260-266 | reverses a buffer into another |
| Signing.SignAtt | bluez/src/shared/crypto.c:268-328 | computes the signature of a message and counter, or fails where the cipher does |
| Signing.VerifyAttSign | bluez/src/shared/crypto.c:330-348 | accepts exactly the PDUs whose last 12 bytes are the signature of the rest, and none where the cipher fails |
| Signing.SignedWriteArrives | bluez/src/shared/att.c:287-328 | a signed PDU passes handle_signed under the same key if and only if its payload has two bytes or more and the counter is accepted, and the handler gets the payload |
| Signing.AcceptedWasSigned | bluez/src/shared/att.c:884-917 | handle_signed admits exactly the PDUs that signing under the key can produce |
| Uuids.CompareIsTotalOrder | bluez/lib/uuid.c:94-134 | bt_uuid_cmp is a total order on 128-bit expansions, zero exactly on equal ones |
| Uuids.ExpandInjective | bluez/lib/uuid.c:44-92 | short UUIDs expand to the same value only when they are the same number |
| Uuids.LeRoundTrip | bluez/lib/uuid.c:292-312 | the little-endian form read back is an equal UUID, and the same one unless it was of 32 bits |
| Uuids.PrintParse | bluez/lib/uuid.c:139-277 | parsing a printed UUID gives an equal one, of 16 bits exactly when it lies in the base range with a zero top half |
| Uuids.ParsePrint | bluez/lib/uuid.c:139-277 | a 36-character form that parses is printed again as it was, in lower case |
| Uuids.BaseAgrees | bluez/lib/uuid.c:183-218 | reading a base UUID as 16 bits gives the UUID the 128-bit parser reads |
| GattPrimary.AllComplete | bluez/attrib/gatt.c:290-372 | against any conforming server a discovery of all services ends with status 0 and the whole service list in order, within one round more than there are services |
| GattPrimary.EncoderConforms | bluez/attrib/gatt.c:290-372 | a server that encodes its services with enc_read_by_grp_resp into any buffer conforms |
| GattPrimary.AllRises | bluez/attrib/gatt.c:349-356 | whatever the server says, each further request starts higher |
| GattPrimary.AllEnds | bluez/attrib/gatt.c:349-356 | so a discovery ends against any server within the handles that are left |
| GattPrimary.ByComplete | bluez/attrib/gatt.c:238-288 | a discovery by UUID ends with status 0 and the ranges of exactly the services of that UUID, in order, within one round more than there are of them |
| GattPrimary.ShortUuidFindsNothing | bluez/attrib/gatt.c:182-236 | a search for a 32-bit UUID ends with status 0 and nothing found, which is right if and only if there is no service of that UUID |
| GattPrimary.ShortUuidMisses | bluez/attrib/gatt.c:182-236 | a service of a 16-bit UUID that is there and is not found when asked for in 32 bits |
| GattPrimary.ByEncoderConforms | bluez/attrib/gatt.c:238-288 | a server that encodes the ranges with enc_find_by_type_resp into any buffer conforms |
| GattPrimary.ByRises | bluez/attrib/gatt.c:261-273 | each further request starts higher |
| GattPrimary.ByEnds | bluez/attrib/gatt.c:261-273 | and the discovery ends against any server |
| GattPrimary.DiscoverPrimary.constructor | bluez/attrib/gatt.c:374-407 | starts at handle 1 with an empty list and the first request |
| GattPrimary.DiscoverPrimary.PrimaryAllCb | bluez/attrib/gatt.c:290-372 | one response: entries appended, next request or the user called with the right code |
| GattPrimary.DiscoverPrimary.PrimaryByUuidCb | bluez/attrib/gatt.c:238-288 | the same for the search by UUID |
| GattIncluded.CallbackOnce | bluez/attrib/gatt.c:118-138 | whatever the server answers, references equal requests under way, and the user is called exactly once, when the last one is gone |
| GattIncluded.SearchesBounded | bluez/attrib/gatt.c:556-567 | from any state no more searches are answered than handles are left, whatever the server says |
| GattIncluded.SearchesInRange | bluez/attrib/gatt.c:556-567 | so a discovery of a range ends within as many searches as the range has handles |
| GattIncluded.DropsToldOnce | bluez/attrib/gatt.c:118-138 | the same when requests are dropped unanswered, in any order among the answers |
| GattIncluded.LoseKeeps | bluez/attrib/gattrib.c:353-381 | dropping one request, as a cancellation does, tells the user at once if and only if it was the only one |
| GattIncluded.CancelledLooksDone | bluez/attrib/gatt.c:118-138 | dropping everything after any part of a conforming run calls the user once with status 0 and the declarations so far, a full list or not |
| GattIncluded.StepKeeps | bluez/attrib/gatt.c:440-447 | each answered request drops one reference, and each answered search leaves fewer handles to search |
| GattIncluded.Complete | bluez/attrib/gatt.c:409-572 | against a conforming server the user gets every include declaration with its UUID in server order, after the last read, within twice their number of rounds and one |
| GattIncluded.EncoderConforms | bluez/attrib/gatt.c:511-572 | a server that encodes declarations of one kind with enc_read_by_type_resp conforms |
| GattIncluded.ReadEncoderConforms | bluez/attrib/gatt.c:409-438 | so does one that answers the read of a 128-bit UUID with enc_read_resp |
| GattIncluded.ResolveRound | bluez/attrib/gatt.c:409-438 | the answer to the oldest read completes the next declaration |
| GattIncluded.FindRound | bluez/attrib/gatt.c:511-572 | a search answer queues its reads before the next search |
| GattIncluded.IncludedDiscovery.constructor | bluez/attrib/gatt.c:574-587 | sends the first search and holds a reference for it |
| GattIncluded.IncludedDiscovery.IsdUnref | bluez/attrib/gatt.c:125-138 | drops a reference and calls the user with the error or the list at zero |
| GattIncluded.IncludedDiscovery.FindIncludedCb | bluez/attrib/gatt.c:511-572 | one search response |
| GattIncluded.IncludedDiscovery.ResolveIncludedUuidCb | bluez/attrib/gatt.c:409-438 | one read response |
| GattChars.Complete | bluez/attrib/gatt.c:589-685 | against a conforming server the result is exactly the declarations of the range that pass the UUID filter, in order, with the exact error code; the stop test loses none |
| GattChars.EncoderConforms | bluez/attrib/gatt.c:589-685 | a server that encodes declarations of one width with enc_read_by_type_resp conforms |
| GattChars.ReportExact | bluez/attrib/gatt.c:617-640 | nothing else is reported and nothing that passes is missing |
| GattChars.RisesUnlessLast | bluez/attrib/gatt.c:653-660 | a further request starts higher if and only if the last handle reported is not 0xFFFF |
| GattChars.Ends | bluez/attrib/gatt.c:653-660 | a discovery in which none is ends within the handles of its range, against any server whose responses are not read beyond their end |
| GattChars.WrapNeverEnds | bluez/attrib/gatt.c:653-660 | a server that repeats a declaration at 0xFFFF keeps it asking for any number of rounds |
| GattChars.DiscoverChar.constructor | bluez/attrib/gatt.c:687-718 | the first request for the range |
| GattChars.DiscoverChar.CharDiscoveredCb | bluez/attrib/gatt.c:589-685 | one response |
| GattDescs.Complete | bluez/attrib/gatt.c:1022-1122 | against a conforming server the result is every attribute of the range in order, or only the first of the wanted UUID, with the exact error code |
| GattDescs.EncoderConforms | bluez/attrib/gatt.c:1022-1122 | a server that encodes attributes of one width with enc_find_info_resp conforms |
| GattDescs.ReportCut | bluez/attrib/gatt.c:1081-1082 | what follows a match is not read |
| GattDescs.Rises | bluez/attrib/gatt.c:1092-1104 | each further request starts higher, inside the range |
| GattDescs.Ends | bluez/attrib/gatt.c:1092-1104 | so the discovery ends within the handles of its range, against any server whose responses are not read beyond their end |
| GattDescs.DiscoverDesc.constructor | bluez/attrib/gatt.c:1124-1152 | the first request for the range |
| GattDescs.DiscoverDesc.DescDiscoveredCb | bluez/attrib/gatt.c:1022-1122 | one response |
| GattDescs.DiscoverDesc.AddDescs | bluez/attrib/gatt.c:1052-1083 | the entries up to the first match |
| GattLong.ReadsWhole | bluez/attrib/gatt.c:761-842 | a value of up to 65534 bytes is delivered whole behind the opcode whatever its length modulo MTU-1; after the first full response an error only cuts it short; the number of rounds is bounded |
| GattLong.BlobRound | bluez/attrib/gatt.c:761-806 | each blob response adds the next MTU-1 bytes or ends the read |
| GattLong.PartsTile | bluez/attrib/gatt.c:930-947 | prepare request k starts at k times MTU-5 and carries the bytes there: no gap, no overlap |
| GattLong.PartsCount | bluez/attrib/gatt.c:930-947 | the requests number the length divided by MTU-5, rounded up |
| GattLong.PartsStore | bluez/attrib/gatt.c:930-947 | carrying them out leaves exactly the value |
| GattLong.WritesWhole | bluez/attrib/gatt.c:888-984 | the requests go out in order and one Execute Write follows only after every part was acknowledged; an error stops it before |
| GattLong.NeverExecutes | bluez/attrib/gatt.c:905-928 | a value longer than 65535 bytes is never executed |
| GattLong.ExecutesIffShort | bluez/attrib/gatt.c:905-984 | a long write can end in Execute Write if and only if its length fits 16 bits |
| GattLong.LongRead.constructor | bluez/attrib/gatt.c:844-876 | sends the read request |
| GattLong.LongRead.ReadCharHelper | bluez/attrib/gatt.c:808-842 | the first response |
| GattLong.LongRead.ReadBlobHelper | bluez/attrib/gatt.c:761-806 | one blob response |
| GattLong.LongWrite.constructor | bluez/attrib/gatt.c:949-984 | one write request when the value fits, else the first part |
| GattLong.LongWrite.PrepareWriteCb | bluez/attrib/gatt.c:905-928 | one acknowledgement |
| GAttribs.OnePairEach | bluez/attrib/gattrib.c:304-351 | with one request at a time, between turns a procedure that is not over has exactly one tracked pair; it carries its own id and names its one live request |
| GAttribs.CancelWorks | bluez/attrib/gattrib.c:353-381 | with one request at a time, cancelling succeeds exactly while the procedure is not over; its reference count is then zero and its user is never called afterwards |
| GAttribs.UserCalledOnce | bluez/attrib/gattrib.c:250-276 | in any run a user is called at most once and never with a request under way, and the two lists stay equally long |
| GAttribs.UsersTold | bluez/attrib/gattrib.c:250-276 | users are called by exactly the callbacks that do not go on with their procedure, in that order |
| GAttribs.OverUnanswered | bluez/attrib/gattrib.c:353-381 | once a procedure is over no callback of it runs, whatever happens next |
| GAttribs.GoneUnanswered | bluez/attrib/gattrib.c:159-180 | once a request is gone its callback never runs, whatever happens next |
| GAttribs.InvStep | bluez/attrib/gattrib.c:159-381 | every turn keeps the callback list, the pairs and the references in agreement |
| GAttribs.GAttrib.constructor | bluez/attrib/gattrib.c:98-145 | no callbacks and no pairs |
| GAttribs.GAttrib.GAttribSend | bluez/attrib/gattrib.c:304-351 | records the callback and the pair of original and pending id |
| GAttribs.GAttrib.CallbacksRemove | bluez/attrib/gattrib.c:172-180 | removes the entry once, and its pair and reference with it |
| GAttribs.GAttrib.CallbacksDestroy | bluez/attrib/gattrib.c:159-170 | drops the reference and the pair |
| GAttribs.GAttrib.GAttribCancel | bluez/attrib/gattrib.c:353-381 | cancels the request the first pair with this id names |
| Layers.StepRefines | bluez/attrib/gattrib.c:159-381 | every action that gattrib and sequential procedures can bring about is a run of the id chain that ends with the same requests live, answers the requests whose callbacks the action ran, in order, and goes on with their procedures exactly if those callbacks did |
| Layers.RunRefines | bluez/attrib/gattrib.c:159-381 | gattrib keeps step so with every run, action by action, and the callbacks of the whole run are the same on both sides |
| Layers.Refines | bluez/attrib/gattrib.c:98-145 | the same from a new bearer and a new GAttrib; users are called by exactly the engine's callbacks that did not go on |
| Layers.CancelExact | bluez/src/shared/att.c:1577-1615 | bt_att_cancel takes the handlers or the life of one operation of that id, or changes nothing and there is none on any channel or queue |
| Layers.CancelReachesTheBearer | bluez/attrib/gattrib.c:353-381 | cancelling a procedure that is not over finds its request in the engine and runs no callback; in whatever gentle run follows, no callback the engine runs is that request's or any other of the procedure, and its user is never called |
| EndToEnd.HearsAnswers | bluez/attrib/gattrib.c:250-351 | in any run that is the client's own, its replies answer its requests, one each and in order, up to one that was lost, whatever else happens on the bearer |
| EndToEnd.OwnRunHears | bluez/attrib/gattrib.c:250-351 | the same from the sending of its first request |
| OverTheEngine.AllOverTheEngine | bluez/attrib/gatt.c:290-407 | a discovery of all services run over the engine calls its user with status 0 and the peer's whole list, or because its last request was lost |
| OverTheEngine.ByOverTheEngine | bluez/attrib/gatt.c:238-288 | a discovery by UUID, with the ranges of exactly the services of that UUID |
| OverTheEngine.CharsOverTheEngine | bluez/attrib/gatt.c:589-718 | a discovery of characteristics, with exactly the declarations that pass the filter and the exact code |
| OverTheEngine.DescsOverTheEngine | bluez/attrib/gatt.c:1022-1152 | a discovery of descriptors, with exactly the attributes and the exact code |
| OverTheEngine.ReadOverTheEngine | bluez/attrib/gatt.c:761-876 | a long read delivers the whole value, or after an error or a loss a part of it from the start |
| OverTheEngine.WriteOverTheEngine | bluez/attrib/gatt.c:888-984 | a long write sends its parts in order, and Execute Write only after each was acknowledged |
| OverTheEngine.AllRunHappens | bluez/attrib/gatt.c:374-407 | such a run exists: from a new bearer, over a peer without services, to the call of the user |

## Left out

- Allocation failure, and the wrap-around of the operation and request ids, which are unbounded here.
- BearerSpec.CreateOp: has no local signing key; signed PDUs are built and checked in `Signing`, and `Signing.UnsignedPdu` ties the two together.
- Bearer.BtAtt.CreateSendOp: the same; the operation it creates is the one built without a local signing key.
- BearerSpec.DestroyOp: records that a destroy handler runs; a destroy handler that calls back into the API is not modelled.  Response callbacks, timeout, disconnect and request handlers that do are.
- BearerSpec.HandleNotify: handlers are known by the opcode they registered; handlers and callbacks that register or unregister others before they return, and signed commands with several matching handlers, are not modelled.
- Bearer.BtAtt.OnNotify: whether a signature checks out is a parameter, decided in `Signing`.
- BearerSpec.DoUnref: references taken and dropped within one function are not shown, and callbacks do not take or drop any.
- BearerTheorems.RetriesBounded: the kernel is taken to keep the security level that was last set on the socket.
- BearerTheorems.OneOutstanding: holds of runs whose channel queues get no request and no indication, as do the other theorems about reachable states.
- BearerSolo.LostExactlyWhenBlocked: one channel only, and no channel attached by the action.
- BearerSolo.NoLostWakeup: one channel only, as libble builds it; with several channels of different MTUs an idle channel can be unable to write what another one can.
- BearerOrder.WrittenInSendOrder: one channel only, for the same reason.
- Operations of the bearer are values with a serial number for identity, not heap objects; aliasing between queues is what `BearerTheorems.Conservation` rules out.
- The 16-bit length arithmetic of `encode_pdu` and `bt_crypto_sign_att` is assumed not to wrap, which holds for payloads of up to 65522 bytes.
- Uuids.Parse: reads plain hexadecimal digits; the blanks, signs, 0x prefixes and short fields that sscanf and strtol also tolerate are not modelled.
- Uuids.Compare: an unspecified UUID, whose 128-bit form the source leaves uninitialised, is excluded.
- GattChars.Readable: the source reads entries of other widths than 7 and 21 or more beyond their end, so such responses are excluded.
- GattChars.RisesUnlessLast: excludes the responses the source reads beyond their end.
- GattChars.Ends: excludes the responses the source reads beyond their end.
- GattChars.DiscoverChar.CharDiscoveredCb: excludes the responses the source reads beyond their end.
- GattDescs.Readable: Find Information formats other than 1 and 2 are read beyond the entry and excluded.
- GattDescs.Rises: excludes the responses the source reads beyond their end.
- GattDescs.Ends: excludes the responses the source reads beyond their end.
- GattDescs.DiscoverDesc.DescDiscoveredCb: excludes the responses the source reads beyond their end.
- GattLong.PrepareCb: a response that moves the offset past the value makes the source read outside it and is excluded.
- GattLong.LongWrite.PrepareWriteCb: excludes those responses too.
- GattIncluded.Step: requests are answered in the order they were sent, which is what `BearerOrder.WrittenInSendOrder` gives on one channel, and sending succeeds.
- GAttribs.Step: a procedure has one request at a time, which leaves included discovery out (see `GattIncluded.LoseKeeps`); `g_attrib_cancel_all` and ids chosen by the user for a first request are not modelled.
- GAttribs.GAttrib.GAttribSend: a request the bearer refuses, whose pair has pending id 0 and is never answered, is not modelled.
- GAttribs.GAttrib.constructor: has no bearer, MTU and buffer; `BearerSpec` and the procedures' own parameters stand for them.
- Layers.StepRefines: response callbacks send one accepted request or none, none after an error, and the timeout handler calls nothing; request and disconnect handlers may call anything.
- EndToEnd.OwnRun: the engine accepts the client's requests, and the client has one request at a time; included discovery is not run over the engine.
- OverTheEngine.ReadOverTheEngine: the MTU of the client's buffer and the peer's are the same and do not change.
- GattPrimary.Sought: what lies behind a 32-bit value in the union of a `bt_uuid_t` is a parameter.
- Request encoders (`enc_read_by_grp_req` and the like) are functions on values; the response encoders write into the caller's buffer.
- `queue_foreach` with callbacks that change the queue, and calls on a null queue.
- Socket options, GLib sources and timers: writer ready, bytes received, timer fired and disconnection are actions of a run.
- AF_ALG sockets, the AES and CMAC internals and the pairing functions of `bluez/src/shared/crypto.c`.
- The thin wrapper `lib/libble.c`, the sample programs, log modules, name tables and SDP record parsing; they would add easy members only, or rely on an external library.
