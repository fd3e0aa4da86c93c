# BlueZ audio and attribute protocol engines, modelled and proved in Dafny

The project models the protocol engines of BlueZ with its Android audio additions and proves
what they are for, over every input and every run. Code that works by changing things is a class
with the same fields; each method is tied to a specification function or relation, and the properties are
lemmas about those.

| file | models |
|---|---|
| `avdtp_framing.dfy` | fragmentation and reassembly of AVDTP signalling messages |
| `avdtp_streams.dfy` | the stream life cycle of a session, with callbacks that call back into it |
| `avdtp_scheduler.dfy` | one outstanding request, two queues, 4-bit labels |
| `avdtp_caps.dfy` | capability lists, SET_CONFIGURATION and GET_CONFIGURATION |
| `att_queue.dfy` | the ATT command queue and the long reads chained through it |
| `att_lists.dfy` | the list responses of the attribute protocol |
| `gatt_long_read.dfy` | Read followed by Read Blob requests against a server |
| `gatt_discovery.dfy` | service and characteristic discovery against a server |
| `pcm_ring.dfy` | the PCM ring buffer shared by two threads |
| `pcm_progress.dfy` | that its threads take every frame to the other side |
| `a2dp_packetiser.dfy` | SBC frames into RTP packets |
| `a2dp_worker.dfy` | the A2DP worker thread under failures of the audio service |
| `audio_device.dfy` | the composite state of an audio device |
| `avrcp_metadata.dfy` | metadata responses and their fragmentation |
| `headset_limit.dfy` | the limit on connected headsets |
| `avdtp_session.dfy`, `att_reply.dfy` | datatypes that two of these share |
| `bytes.dfy`, `sequences.dfy`, `arithmetic.dfy` | octets, byte order, copies, division |

`dafny verify dfyconfig.toml` checks everything.

## How to read the proofs

- What the environment decides (sockets, peers, D-Bus, timers, callbacks, schedules) is a parameter: an event, a
  script of outcomes, or a function that says how a server groups its answers. Theorems hold for all of them.
- Whole runs are methods named `Run`, over arbitrary sequences of events; they return the states they go through, each tied to
  the one before by what the event leads to (`Handled`, `Turned`, `Trace`). Their invariants are the predicates `Shape`,
  `Good`, `Valid`, `Waiting` and `StatesOk`. Logs of what happened (transmissions, callbacks, frees, replies,
  packets) are ghost fields that only grow.
- Where a natural property is false of the code, the exact condition is proved: miscounted fragments
  (`AvdtpFraming.RoundTrip`), lost wake-ups after a failed write (`AttQueue.GAttrib.CanWrite`), a silent refusal in a long read
  (`GattLongRead.RefusalIsSilent`), a declaration on the last handle (`GattDiscovery.DiscoverChars`), clearing the ring
  during a send (`PcmRing.NextKeepsOk`), empty texts (`AvrcpMetadata.ResponseReads`), malformed capabilities
  (`AvdtpCaps.GetAfterSet`), a stream set up in the last release
  (`AvdtpStreams.Session.ConnectionLost`), a transport that fails together with the signalling channel
  (`AvdtpStreams.Session.TransportFailed`), a service that never stops answering a close with an error (`A2dpWorker.EndlessClose`).

Where code and documentation differ the code is followed: the RTP time stamp of a packet counts the samples up to the
end of that packet (audio/liba2dp.c:743), a failed Read Blob is reported as success (attrib/gatt.c:405-408), and the
semicolon in the definition of `AVRCP_PKT_PARAMS_LEN` (audio/control.c:221) turns the final `-1` at audio/control.c:2644 into a
statement of its own.

## Model

| member | source | states |
|---|---|---|
| `AvdtpFraming.Send` | audio/avdtp.c:555-647 | the send loop produces exactly the packet sequence `Packets`; it refuses exactly messages that need fragments on an MTU below 3 |
| `AvdtpFraming.PacketsFit` | audio/avdtp.c:555-647 | no packet exceeds the outgoing MTU and none is empty, for every message and MTU |
| `AvdtpFraming.InBuf.ParseData` | audio/avdtp.c:2056-2177 | the in-place reassembler computes `Parse`, error cases and 8-bit size included |
| `AvdtpFraming.InBuf.Append` | audio/avdtp.c:2158-2177 | payload goes to the buffer at the current size; overflow is refused; the packet count decides between fragment and complete message |
| `AvdtpFraming.ParseIs` | audio/avdtp.c:2066-2177 | a packet that is too short, starts a message inside another, or is a part not expected or of another label is refused and changes nothing; any other is refused exactly when the buffer is full, and else appended, labelled and counted |
| `AvdtpFraming.AnnouncedCount` | audio/avdtp.c:594-596 | the announced fragment count is the true one, except one too many when the rest is a multiple of MTU-1 |
| `AvdtpFraming.TailDelivers` | audio/avdtp.c:618-645 | CONTINUE and END packets complete the message if and only if the count still expected is the number of packets that come; with one more expected all are taken but the END packet, which is refused |
| `AvdtpFraming.FragmentedReceived` | audio/avdtp.c:555-647 | a fragmented message of at most 255 octets is received if and only if it is not miscounted; a miscounted one is taken up to its END packet, which is refused |
| `AvdtpFraming.RoundTrip` | audio/avdtp.c:2056-2177 | for every message, MTU and idle receiver: all packets but the last are fragments, the last succeeds with the same label, type, signal and payload, if and only if the length is deliverable |
| `AvdtpFraming.MiscountedWitness` | audio/avdtp.c:594-596 | two octets over an MTU of 3 are lost at their END packet |
| `AvdtpStreams.ShapeHasNoDanglingReference` | audio/avdtp.c:1084-1156 | in the invariant shape nothing (list, local or remote end point, pending open, request, queue) names a freed stream |
| `AvdtpStreams.ShapeSeparatesStreams` | audio/avdtp.c:3622-3699 | two listed streams never share a local end point |
| `AvdtpStreams.SentKeepsShape` | audio/avdtp.c:2818-2862 | sending or queueing a request for a listed stream keeps the shape |
| `AvdtpStreams.LinkedKeepsShape` | audio/avdtp.c:3687-3694 | linking a new stream to a free local end point keeps the shape |
| `AvdtpStreams.DetachedKeepsShape` | audio/avdtp.c:1132-1144 | taking a stream off the list leaves it as the one stream being released |
| `AvdtpStreams.FreedKeepsShape` | audio/avdtp.c:825-854 | freeing the stream being released, once no pending open, request or queue names it, restores the shape |
| `AvdtpStreams.SetUpGrows` | audio/avdtp.c:3622-3699 | setting up a stream, during a release or not, keeps the shape and disturbs no other stream |
| `AvdtpStreams.RequestedGrows` | audio/avdtp.c:3701-3889 | a public operation on any stream, listed or not, keeps the shape and frees or relinks nothing |
| `AvdtpStreams.SentCases` | audio/avdtp.c:2818-2862 | exactly when a request is sent, queued or refused, and that nothing else changes |
| `AvdtpStreams.RequestedIff` | audio/avdtp.c:3701-3889 | exactly when each public operation on a listed stream sends or queues its request, with which priority and flag; a refused one changes nothing |
| `AvdtpStreams.SetUpIff` | audio/avdtp.c:3622-3699 | exactly when a stream is set up, and what it then looks like |
| `AvdtpStreams.DequeuedIs` | audio/avdtp.c:3414-3436 | the first of the priority queue is sent, else of the other; one that cannot be sent is lost |
| `AvdtpStreams.AdoptedKeepsShape` | audio/avdtp.c:1524-1530 | putting a stream whose configuration was decided later in place keeps the shape |
| `AvdtpStreams.FreedUnlinkedKeepsShape` | audio/avdtp.c:1518-1522 | freeing a stream that was never put in place keeps the shape |
| `AvdtpStreams.Session.Make` | audio/avdtp.c:3528-3889 | any call from a callback, DISCOVER included, keeps the shape, even in the middle of a release, and does what the operation does; the list grows exactly when a call set up a stream, and a request is left out exactly as recorded |
| `AvdtpStreams.Session.AbortCall` | audio/avdtp.c:3840-3863 | an abort from a callback that cancels the outstanding request tells the application again and ends with an ABORT, sent or queued behind what the application left out; the shape is kept |
| `AvdtpStreams.Session.Callback` | audio/avdtp.c:1149-1152 | every call the application chose is made and recorded; callbacks that re-enter the API, to any depth, keep the shape and move or free nothing that existed |
| `AvdtpStreams.Session.OpenFailed` | audio/avdtp.c:924-989 | a failed transport clears the pending open and keeps the shape |
| `AvdtpStreams.Session.HandleUnanswered` | audio/avdtp.c:1022-1082 | the outstanding request lets go of the stream; an ABORT stays outstanding |
| `AvdtpStreams.Session.CleanupQueue` | audio/avdtp.c:1002-1020 | exactly the requests of the stream leave a queue, in place and order |
| `AvdtpStreams.Session.Unhook` | audio/avdtp.c:1138-1143 | after it no pending open, request or queue names the stream |
| `AvdtpStreams.Session.ToIdle` | audio/avdtp.c:1132-1156 | after a transition to IDLE the stream is freed, nothing names it and the others are as before |
| `AvdtpStreams.Session.SetState` | audio/avdtp.c:1084-1156 | both kinds of transition keep the shape; without a stream nothing happens |
| `AvdtpStreams.Session.Release` | audio/avdtp.c:1175-1185 | exactly the released stream leaves the heap; behind the record of the release only calls are recorded, and the list is otherwise the same if and only if none of them set up a stream |
| `AvdtpStreams.Session.ReleaseAll` | audio/avdtp.c:1205-1206 | every stream that was listed is freed; the list ends empty if and only if no call recorded behind the last release set up a stream |
| `AvdtpStreams.Session.ConnectionLost` | audio/avdtp.c:1187-1232 | all listed streams are freed and nothing names them any more; a stream is left behind if and only if a call recorded behind the last release set it up on another end point |
| `AvdtpStreams.Session.FinishDiscovery` | audio/avdtp.c:1158-1173 | the callback of a discovery may make any calls; the shape is kept and no discovery is under way afterwards |
| `AvdtpStreams.LeaksInLastRelease` | audio/avdtp.c:1205-1206 | which calls of the last release set up a stream, in terms of the state before the loss |
| `AvdtpStreams.LastSetsUp` | audio/avdtp.c:1205-1206 | while one stream is listed the free end points are all the others |
| `AvdtpStreams.Session.FindByRseid` | audio/avdtp.c:773-786 | a listed stream with that remote identifier, or proof that there is none |
| `AvdtpStreams.Session.Discover` | audio/avdtp.c:3528-3549 | refused while a discovery is under way, answered later when end points are known, otherwise DISCOVER is sent, which connects if need be |
| `AvdtpStreams.Session.CancelRequest` | audio/avdtp.c:2707-2807 | an ABORT follows if and only if the request can be aborted and the channel takes it or a call recorded on the way left a request out; otherwise the session is given up and its streams are freed |
| `AvdtpStreams.Session.SetConfigurationResp` | audio/avdtp.c:2990-3004 | the end point becomes CONFIGURED, no other changes its state, and the application is told; shape kept |
| `AvdtpStreams.Session.OpenResp` | audio/avdtp.c:3013-3027 | the stream becomes the pending open, or is freed when no channel can be made |
| `AvdtpStreams.Session.StartResp` | audio/avdtp.c:3029-3044 | the end point becomes STREAMING, no other changes its state, and the application is told; shape kept |
| `AvdtpStreams.Session.CloseResp` | audio/avdtp.c:3046-3057 | the end point becomes CLOSING, no other changes its state, and the stream lives on; shape kept |
| `AvdtpStreams.Session.SuspendResp` | audio/avdtp.c:3059-3071 | the end point becomes OPEN, no other changes its state, and the application is told; shape kept |
| `AvdtpStreams.Session.AbortResp` | audio/avdtp.c:3073-3087 | the stream is freed, its end point IDLE and the request still held |
| `AvdtpStreams.Session.DiscoverResp` | audio/avdtp.c:2885-2946 | every free end point reported is known afterwards, asked for its capabilities and, unless the discovery was finished early, linked when a listed stream uses it; the shape is kept |
| `AvdtpStreams.Session.ParseResp` | audio/avdtp.c:3101-3169 | an accepted answer does what the signal of the request asks for its stream, and to no other end point; it ends the session exactly for malformed capabilities and a transport that cannot be made; shape kept |
| `AvdtpStreams.Session.StreamResp` | audio/avdtp.c:3138-3165 | per signal: CONFIGURED, the pending open, STREAMING, OPEN, CLOSING, or the stream freed and its end point IDLE |
| `AvdtpStreams.Session.ParseRej` | audio/avdtp.c:3214-3317 | a rejection ends the session exactly when it is malformed or answers ABORT; a rejected START or CLOSE may be tried again, and no end point changes its state |
| `AvdtpStreams.Session.ProcessQueue` | audio/avdtp.c:3414-3436 | the next queued request is sent as `Dequeued` says |
| `AvdtpStreams.Session.RequestDone` | audio/avdtp.c:2285-2288 | the request is dropped and the next one sent |
| `AvdtpStreams.Session.Answered` | audio/avdtp.c:2238-2296 | accepted, rejected or generally rejected: the outcome for the stream of the request, or the end of the session |
| `AvdtpStreams.Session.SetConfigurationCmd` | audio/avdtp.c:1533-1646 | an accepted configuration puts a stream in place; a refused or deferred one leaves list and end points as they were |
| `AvdtpStreams.Session.DecideConfiguration` | audio/avdtp.c:1504-1531 | a configuration decided later puts its stream in place, frees it when the answer cannot be sent, or changes nothing when refused |
| `AvdtpStreams.Session.RefuseConfiguration` | audio/avdtp.c:1639-1640 | the refused stream is freed again and nothing else changed |
| `AvdtpStreams.Session.AcceptConfiguration` | audio/avdtp.c:1624-1635 | the new stream is listed and owned by its end point, which is CONFIGURED |
| `AvdtpStreams.Session.OpenCmd` | audio/avdtp.c:1700-1746 | through the indication, the stream of a CONFIGURED end point becomes the pending open exactly when accepted |
| `AvdtpStreams.Session.StartCmd` | audio/avdtp.c:1748-1806 | through the indication, the end point moves to STREAMING exactly when its stream is open, not starting and accepted |
| `AvdtpStreams.Session.MoveCmd` | audio/avdtp.c:1808-1951 | through their indications, CLOSE, SUSPEND and ABORT move the end point exactly from the states they allow |
| `AvdtpStreams.Session.TransportUp` | audio/avdtp.c:924-989 | the end point of the pending open becomes OPEN, no other changes its state, and nothing is pending any more, through the callbacks |
| `AvdtpStreams.Session.AbortStream` | audio/avdtp.c:3840-3863 | aborting keeps the shape, or cancels the outstanding request; exactly when that fails with an error code |
| `AvdtpStreams.Session.TransportFailed` | audio/avdtp.c:2467-2478 | the stream is used after it was freed if and only if, in the state of the report to the application, aborting it cancels a request that an ABORT should follow, the ABORT cannot be sent and no call recorded after the report left a request out |
| `AvdtpStreams.StaleTransport` | audio/avdtp.c:2471-2475 | a run from a new session in which that happens |
| `AvdtpStreams.Session.TransportHup` | audio/avdtp.c:869-888 | when the peer closes a transport the stream is freed and its end point IDLE, or it is being aborted and nothing changes its state; shape kept |
| `AvdtpStreams.Session.Unregister` | audio/avdtp.c:3929-3948 | the end point and its stream are gone, and the others are in the state they were in |
| `AvdtpStreams.Session.Commanded` | audio/avdtp.c:2004-2052 | what each command of the peer leads to: the new state of the end point, the pending open or the new stream |
| `AvdtpStreams.Session.AcceptChannel` | audio/avdtp.c:2590-2618 | an incoming signalling channel brings a disconnected session to CONNECTING |
| `AvdtpStreams.Session.Dispatch` | audio/avdtp.c:2179-2296 | what every event leads to (`Handled`); it keeps the shape unless it gives the session up, and always when callbacks set up no stream and no transport fails together with the channel |
| `AvdtpStreams.Session.Run` | audio/avdtp.c:2179-2296 | over every run of events with callbacks that re-enter and cancel: every event leads to what `Handled` says and the shape holds after it; a run ends early only at an event that gave the session up, with no stream listed |
| `AvdtpStreams.FirstStream` | audio/avdtp.c:2557-2618 | from a new session: the peer connects and configures, and one stream is listed |
| `AvdtpStreams.DiscoveredStream` | audio/avdtp.c:3528-3699 | from a new session: DISCOVER connects, its answer makes an end point known, and a stream is set up on it |
| `AvdtpStreams.SetUpInLastCallbackIsLeaked` | audio/avdtp.c:1205-1206 | concrete state: a stream set up in the last release callback stays linked to an emptied list |
| `AvdtpStreams.AbortedTwiceDangles` | audio/avdtp.c:2707-2807 | concrete run: a callback that aborts the stream twice frees it under `cancel_request`, whose ABORT then names a freed stream |
| `AvdtpScheduler.Session.QueueRequest` | audio/avdtp.c:2690-2697 | the request enters the end of its queue |
| `AvdtpScheduler.Session.Transmit` | audio/avdtp.c:2839-2850 | the label is the next of the shared counter, used up even when sending fails; the request is recorded with the queue it came from |
| `AvdtpScheduler.Session.SendReq` | audio/avdtp.c:2818-2862 | a request is sent only when connected with none out; otherwise, also while connecting, it is queued in order; it is recorded as taken exactly when the call succeeds |
| `AvdtpScheduler.Session.ProcessQueue` | audio/avdtp.c:3414-3436 | the head of the priority queue leaves first, then that of the other; nothing leaves while a request is out |
| `AvdtpScheduler.Session.SubmitAll` | audio/avdtp.c:2818-2862 | requests made by callbacks while a request is out are queued, in order, behind what waits |
| `AvdtpScheduler.Session.ConnectionLost` | audio/avdtp.c:1187-1232 | the session is over; what was recorded stays |
| `AvdtpScheduler.Session.ConnectCb` | audio/avdtp.c:2430-2477 | once connected the head of the priority queue, or else of the other, is sent; a failure ends the session |
| `AvdtpScheduler.Session.HandleReply` | audio/avdtp.c:2238-2288 | a reply that does not match label and signal changes nothing; one that does sends the next request, priority first |
| `AvdtpScheduler.Session.CancelRequest` | audio/avdtp.c:2707-2807 | after a timeout the ABORT is sent ahead of both queues, which stay as they are, or the session is over |
| `AvdtpScheduler.Session.Handle` | audio/avdtp.c:2238-2288 | what every event leads to: connecting sends the first request, a matching reply frees the request and sends the next, a timeout ends in an ABORT or the end |
| `AvdtpScheduler.Session.AcceptedGoes` | audio/avdtp.c:2818-2862 | a request that was taken was put on the channel or waits in a queue |
| `AvdtpScheduler.Session.Run` | audio/avdtp.c:2238-2288 | over every run up to the end of the session: requests are sent only when connected with none out, from the second queue only when the first is empty; both queues first in, first out, and what is sent from a queue is what entered it, in that order; every request taken was put on the channel or waits; every event leads to what `Handled` says; the request out carries its own label; nothing waits behind nothing unless a queued request could not be sent |
| `AvdtpScheduler.LateReplyIgnored` | audio/avdtp.c:2243-2246 | a late reply to any of the 15 uses of the counter before the current request never matches it |
| `AvdtpScheduler.LabelsRepeat` | audio/avdtp.c:2839-2840 | 16 uses later only the signal tells a reply apart |
| `AvdtpCaps.ParseUndoesSerialise` | audio/avdtp.c:1374-1407 | parsing gives back every serialised capability list, whatever incomplete entry follows |
| `AvdtpCaps.ParsedIsPrefix` | audio/avdtp.c:1374-1391 | on arbitrary octets the entries read are a prefix, followed by no complete entry |
| `AvdtpCaps.ParsedIsLongest` | audio/avdtp.c:1374-1391 | no capability list at the front of the octets is longer |
| `AvdtpCaps.WellFormedIff` | audio/avdtp.c:1648-1692 | the octets come back whole if and only if they are a list of complete entries |
| `AvdtpCaps.CapsToList` | audio/avdtp.c:1362-1409 | the loop reads exactly `Parsed`, with the last long enough codec and protection entries and the delay flag |
| `AvdtpCaps.Serialise` | audio/avdtp.c:3661-3680 | the copy loop produces the serialisation |
| `AvdtpCaps.EndPoint.SetConfiguration` | audio/avdtp.c:1591-1640 | accepted if and only if the end point is free, every media transport entry is empty and the application agrees; then the entries are stored |
| `AvdtpCaps.EndPoint.GetConfiguration` | audio/avdtp.c:1648-1692 | the stored entries that fit in 1024 octets, or a rejection when there are none |
| `AvdtpCaps.GetAfterSet` | audio/avdtp.c:1648-1692 | after an accepted SET_CONFIGURATION the same octets come back if and only if they were well formed |
| `AvdtpCaps.MalformedIsCut` | audio/avdtp.c:1381-1384 | concrete octets that do not come back |
| `AvdtpCaps.ConfigureRemote` | audio/avdtp.c:3650-3680 | what is sent, with the delay reporting entry, is what the other side reads |
| `AttQueue.GAttrib.CancelOne` | attrib/gattrib.c:577-600 | the first command with the identifier: a sent head only loses its callback, any other is removed and destroyed |
| `AttQueue.GAttrib.CancelEvery` | attrib/gattrib.c:602-628 | everything is destroyed except a sent head, which loses its callback and goes back |
| `AttQueue.GAttrib.Destroy` | attrib/gattrib.c:173-183 | every queued command is destroyed |
| `AttQueue.GAttrib.CanWrite` | attrib/gattrib.c:281-331 | only the head is written; no wake-up is lost when the write succeeds, and after a failed one exactly when nothing unsent waits |
| `AttQueue.GAttrib.Answer` | attrib/gattrib.c:457-487 | the head is answered, called back with what its callback calls if it has one, and destroyed; what waits will be woken |
| `AttQueue.GAttrib.ReceivedData` | attrib/gattrib.c:376-490 | which PDUs leave the queue alone, only wake the sender, or answer the head; all keep the invariant |
| `AttQueue.GAttrib.Perform` | attrib/gattrib.c:531-628 | calls from inside callbacks keep the invariant and do what they are for: a command at the end of the queue, or the ones cancelled |
| `AttQueue.GAttrib.Handle` | attrib/gattrib.c:281-490 | what every event of the main loop leads to |
| `AttQueue.GAttrib.Run` | attrib/gattrib.c:376-490 | over every run with any peer: each event leads to what `Turned` says, the invariant holds, records only grow, and while no write fails a waiting head is sent or about to be |
| `AttQueue.WrittenKeepsInv` | attrib/gattrib.c:281-331 | writing the head keeps the invariant and leaves no unsent head without a watch |
| `AttQueue.CancelledAllKeeps` | attrib/gattrib.c:602-628 | cancelling all keeps the invariant and leaves nothing asleep |
| `AttQueue.CancelledAtKeeps` | attrib/gattrib.c:577-600 | cancelling one keeps the invariant and loses no wake-up |
| `AttQueue.TakenKeepsGood` | attrib/gattrib.c:457-487 | popping and calling back the head, long read continuation included, keeps the invariant |
| `AttQueue.DisposedKeepsInv` | attrib/gattrib.c:479-484 | destroying the answered command keeps the invariant |
| `AttQueue.SubmittedKeepsGood` | attrib/gattrib.c:531-567 | a new command keeps the invariant |
| `AttQueue.ReadStartedKeepsGood` | attrib/gatt.c:479-518 | a new long read keeps the invariant |
| `AttQueue.OneOutstanding` | attrib/gattrib.c:281-331 | at most one request is out, and it is the head |
| `AttQueue.TransmissionsInOrder` | attrib/gattrib.c:531-567 | first transmissions are in submission order, those of a long read next to each other |
| `AttQueue.DisposedExactlyOnce` | attrib/gattrib.c:156-183 | after the tear-down every command was destroyed exactly once; callbacks ran at most once and never for a withdrawn command |
| `AttQueue.CalledBackIff` | attrib/gattrib.c:457-487 | an answered command that was submitted with a callback was called back if and only if it was not withdrawn |
| `AttQueue.ResponsesAnswerRequests` | attrib/gattrib.c:79-143 | every expected opcode is that of a response, and every response but the error is to the request before it |
| `AttQueue.LongReadsExactlyOnce` | attrib/gatt.c:382-393 | after the tear-down every long read was freed exactly once and its user callback ran once if and only if nothing interrupted it |
| `AttQueue.Life` | attrib/gattrib.c:173-209 | any run followed by the tear-down: every command and long read disposed of exactly once, and every answered command called back unless withdrawn |
| `GattLongRead.RequestsRoundTrip` | attrib/att.c:570-651 | read and read blob requests decode to what was encoded and are not mistaken for each other |
| `GattLongRead.First` | attrib/gatt.c:443-477 | the first exchange ends the read rightly or leaves it midway, with one full part and the request for the next |
| `GattLongRead.Exchange` | attrib/gatt.c:395-441 | every further exchange ends the read rightly or leaves it midway with one more full part |
| `GattLongRead.NextPart` | attrib/att.c:671-686 | an accepted blob request brings the next full part or the rest of the value |
| `GattLongRead.Read` | attrib/gatt.c:395-518 | for every value up to 65534 octets, every MTU from 5 on and every refusal: the outcome and the number of requests |
| `GattLongRead.ReadIsExact` | attrib/gatt.c:395-518 | without a refusal the callback decodes to exactly the value, after v length/(MTU-1)+1 requests |
| `GattLongRead.RefusalIsSilent` | attrib/gatt.c:405-408 | a refused blob request is reported with status 0; the value is whole if and only if nothing was left |
| `GattDiscovery.RequestRoundTrip` | attrib/att.c:113-397 | a discovery request comes through if and only if the MTU has room for the value it carries |
| `GattDiscovery.ParseServices` | attrib/gatt.c:168-195 | the services of a response and the end of the last one |
| `GattDiscovery.PrimaryDiscovery.AllCb` | attrib/gatt.c:149-215 | errors end the discovery (not found with status 0), services are added and the next request starts after the last |
| `GattDiscovery.PrimaryDiscovery.ByUuidCb` | attrib/gatt.c:105-147 | the same for handle ranges of one UUID |
| `GattDiscovery.FromPast` | attrib/gatt.c:200-207 | after the end of service n the server goes on with exactly the others |
| `GattDiscovery.GroupStep` | attrib/gatt.c:149-215 | what one answer, however batched, adds |
| `GattDiscovery.DiscoverAll` | attrib/gatt.c:149-245 | for every database and batching: status 0 and all services, in order, after at most one request more than services |
| `GattDiscovery.DiscoverByUuid` | attrib/gatt.c:105-147 | for every database and batching: status 0 and exactly the services of the UUID, in order |
| `GattDiscovery.ParseChars` | attrib/gatt.c:270-298 | the loop stops at the first characteristic of another UUID; what it adds and where it stopped |
| `GattDiscovery.CharDiscovery.CharCb` | attrib/gatt.c:247-323 | the next request starts right after the last declaration looked at, with 16-bit wrap-around |
| `GattDiscovery.WithinPast` | attrib/gatt.c:303-318 | restarting after declaration n leaves exactly the others of the range |
| `GattDiscovery.SelectedAppend` | attrib/gatt.c:289-290 | filtering a list in two pieces is filtering it whole |
| `GattDiscovery.DiscoverChars` | attrib/gatt.c:247-353 | for every database, filter and batching the result is the filtered list; the status is 0 if and only if no declaration sits on the last handle of the range |
| `GattDiscovery.LastHandle` | attrib/gatt.c:303-311 | the last request starts past the range exactly when a declaration sits on its last handle |
| `GattDiscovery.DeclarationOnLastHandle` | attrib/gatt.c:303-311 | a concrete database where it does |
| `AttLists.EncReadByGroupResp` | attrib/att.c:168-193 | the longest prefix of the elements that fits, in place |
| `AttLists.EncFindByTypeResp` | attrib/att.c:294-318 | the longest prefix of the elements that fits, in place |
| `AttLists.EncReadByTypeResp` | attrib/att.c:399-423 | the same, with elements cut to what one PDU carries |
| `AttLists.EncFindInfoResp` | attrib/att.c:765-791 | the same, with a format octet |
| `AttLists.DecList` | attrib/att.c:195-218 | complete elements of the announced length, or nothing for another opcode |
| `AttLists.DecFindInfoResp` | attrib/att.c:793-830 | complete elements of the length of the format |
| `AttLists.DecFindByTypeResp` | attrib/att.c:320-341 | complete handle ranges; none from a short or foreign PDU |
| `AttLists.ElementsOfJoined` | attrib/att.c:195-218 | cutting up what was joined gives the elements back |
| `AttLists.GroupRoundTrip` | attrib/att.c:168-218 | decoding the encoded list gives exactly the longest prefix that fits, if and only if the length octet can hold the element length |
| `AttLists.TypeRoundTrip` | attrib/att.c:399-448 | the same, with elements cut to len-2 |
| `AttLists.InfoRoundTrip` | attrib/att.c:765-830 | the same if and only if the element length is that of the format |
| `AttLists.RangesRoundTrip` | attrib/att.c:294-341 | the same for handle ranges |
| `PcmRing.PutConserves` | audio/android_audio_hw.c:383-391 | putting frames in appends them to all frames produced |
| `PcmRing.TakeConserves` | audio/android_audio_hw.c:393-401 | delivering or dropping changes neither the frames produced nor their order |
| `PcmRing.TakeDelivers` | audio/android_audio_hw.c:533-546 | what is delivered counts as sent, and what is dropped does not |
| `PcmRing.DeliveredInOrder` | audio/android_audio_hw.c:485-571 | with no drop, delivered frames and then held ones are the frames that the calls of `out_write` put in |
| `PcmRing.RingAppend` | audio/android_audio_hw.c:448-453 | a copy behind the ready frames appends to the ring contents and moves no other frame |
| `PcmRing.RegionKept` | audio/android_audio_hw.c:448-453 | that copy does not touch the region being sent |
| `PcmRing.RingTake` | audio/android_audio_hw.c:393-401 | advancing the read index removes the first frames, which are contiguous |
| `PcmRing.Stream.FramesAvailable` | audio/android_audio_hw.c:363-371 | what fits without wrapping; 0 exactly when full |
| `PcmRing.Stream.FramesReady` | audio/android_audio_hw.c:373-381 | what is ready without wrapping; 0 exactly when empty |
| `PcmRing.Stream.IncRd` | audio/android_audio_hw.c:393-401 | the indices then stand for the ring without its first frames |
| `PcmRing.Stream.Copy` | audio/android_audio_hw.c:448-453 | the chunk is appended and the region being sent is unchanged |
| `PcmRing.Stream.Reset` | audio/android_audio_hw.c:421-427 | clearing the indices keeps the invariant if and only if no send is in progress |
| `PcmRing.Stream.StartWriting` | audio/android_audio_hw.c:403-434 | the checks, the index reset and the initialisation at the start of a write, as `Began` has them |
| `PcmRing.Stream.MixerCopies` | audio/android_audio_hw.c:446-465 | one pass of the producer loop on the ring is the pass on the queue, and leaves the region being sent alone |
| `PcmRing.Stream.MixerSteps` | audio/android_audio_hw.c:436-482 | a producer step on the ring is the step on the queue |
| `PcmRing.Stream.WriterResumes` | audio/android_audio_hw.c:524-546 | after a send: the read index moves by exactly what was taken, which are the frames given to the send, in order; errors and exhausted retries drop what was pending |
| `PcmRing.Stream.WriterSends` | audio/android_audio_hw.c:500-522 | the consumer starts a send of at most one period with the first frames of the queue, or drains on standby |
| `PcmRing.Stream.WriterSteps` | audio/android_audio_hw.c:485-574 | a consumer step on the ring is the step on the queue |
| `PcmRing.Stream.GoToStandby` | audio/android_audio_hw.c:236-260 | only an initialised stream goes to standby |
| `PcmRing.Stream.Switch` | audio/android_audio_hw.c:588-610 | standby, enabling, closing and suspending |
| `PcmRing.CopiedKeepsOk` | audio/android_audio_hw.c:446-465 | a pass of the producer loop appends the next frames of its call and keeps the invariant |
| `PcmRing.MixerNextKeepsOk` | audio/android_audio_hw.c:436-482 | producer step: frames enter in order; a call that returns has put in all it was given, one that times out what it got to |
| `PcmRing.WriterNextKeepsOk` | audio/android_audio_hw.c:485-574 | any consumer step conserves the frames and keeps its count within what is contiguous |
| `PcmRing.BeganKeepsOk` | audio/android_audio_hw.c:403-434 | a call of `out_write` that begins or is refused keeps the invariant and is remembered |
| `PcmRing.NextKeepsOk` | audio/android_audio_hw.c:403-574 | a step of either thread keeps the invariant if and only if it does not clear the indices during a send |
| `PcmRing.NextConserves` | audio/android_audio_hw.c:403-574 | frames enter in `out_write` alone, at the end, and every call begun is remembered |
| `PcmRing.TraceConserves` | audio/android_audio_hw.c:403-574 | the same over whole runs: the calls are those begun by the steps that were possible |
| `PcmRing.Stream.Run` | audio/android_audio_hw.c:403-574 | in every interleaving the ring goes through the states of the queue machine, step by step; the frames that went through are exactly those the calls of `out_write` put in, in order, all of them for a call that returned; the frames delivered are exactly those the sends took; wr = (rd + ready) mod size, and the region being sent is as it was given |
| `PcmRing.ResetReached` | audio/android_audio_hw.c:421-427 | a schedule of a new stream after which a write clears the indices during a send |
| `PcmProgress.Drain` | audio/android_audio_hw.c:485-571 | from every state with the mixer aside the write thread can send all that is held, in order |
| `PcmProgress.Fill` | audio/android_audio_hw.c:436-468 | the loop of `out_write` comes to its end with the write thread making room, and all its frames are sent |
| `PcmProgress.WriteIsSent` | audio/android_audio_hw.c:403-574 | from every state in which both threads wait and the stream is in use, a schedule takes all frames of a new call, behind those held, to the other side, and the call returns |
| `PcmRing.WrapIsMod` | audio/android_audio_hw.c:387-389 | wrapping at the end is the remainder by the size |
| `A2dpPacketiser.HeaderFields` | audio/liba2dp.c:730-744 | a receiver reads version, payload type, sequence number, time stamp, source, protection octet and frame count from the header, with all other bits zero (section 5.1 of RFC 3550) |
| `A2dpPacketiser.Packetiser.AddFrame` | audio/liba2dp.c:1313-1328 | a frame goes behind the others and still fits |
| `A2dpPacketiser.Packetiser.AvdtpWrite` | audio/liba2dp.c:718-811 | the packet has header and frames in bounds; the next one starts empty with the next number, sent or not |
| `A2dpPacketiser.Packetiser.Encode` | audio/liba2dp.c:1306-1343 | one turn of the loop; a packet goes out exactly when no other frame would fit below the limits |
| `A2dpPacketiser.Packetiser.Write` | audio/liba2dp.c:1283-1354 | exactly the whole blocks are encoded, as far as the encoder works, and their frames enter in order |
| `A2dpPacketiser.NewPacket` | audio/liba2dp.c:718-811 | a packet with all pending frames continues the log |
| `A2dpPacketiser.ReceiverReads` | audio/liba2dp.c:734-744 | packet i carries number i mod 2^16, the samples encoded up to its end mod 2^32, and 1 to 15 frames within min(MTU, 2048) |
| `A2dpPacketiser.Run` | audio/liba2dp.c:1283-1354 | over any calls: packetised frames and then the pending ones are the frames that the calls encode, in order |
| `A2dpWorker.Worker.AudioserviceSend` | audio/liba2dp.c:813-836 | a hangup closes everything and loses exactly the server descriptor, without sending again; other failures change nothing |
| `A2dpWorker.Worker.AudioserviceExpect` | audio/liba2dp.c:838-909 | the same for replies, error messages included |
| `A2dpWorker.Worker.BluetoothClose` | audio/liba2dp.c:186-221 | ends with both descriptors closed and no state; it nests exactly once for each close request sent and answered by an error whose code is lost to EPIPE |
| `A2dpWorker.EndlessClose` | audio/liba2dp.c:859-868 | closing nests without end if and only if every close request from there on is answered so |
| `A2dpWorker.Worker.BluetoothInit` | audio/liba2dp.c:911-935 | initialized with an open server, or nothing held |
| `A2dpWorker.Worker.BluetoothConfigure` | audio/liba2dp.c:970-1027 | configured exactly on success, closed otherwise |
| `A2dpWorker.Worker.BluetoothStart` | audio/liba2dp.c:248-313 | started exactly on success, closed otherwise |
| `A2dpWorker.Worker.BluetoothStop` | audio/liba2dp.c:315-350 | the stream is closed; configured if and only if no hangup came, closed otherwise |
| `A2dpWorker.Worker.Execute` | audio/liba2dp.c:1154-1183 | what each command does from each state; STOP leads to configured with the stream closed, or to closed after a hangup |
| `A2dpWorker.Worker.Signalled` | audio/liba2dp.c:1136-1189 | one turn of the thread keeps the invariant; without a hangup no descriptor is lost |
| `A2dpWorker.Worker.Run` | audio/liba2dp.c:1122-1195 | over any commands and outcomes: every turn does what `Turned` says; at every wait the state is one of four, the server is open iff there is a state, the stream iff started |
| `A2dpWorker.StartFromNothing` | audio/liba2dp.c:1067-1075 | a service that answers everything leads to a started stream |
| `AudioDevice.Device.SetState` | audio/device.c:242-297 | stored requests are answered, Connect with success exactly for CONNECTED |
| `AudioDevice.Device.SinkCb` | audio/device.c:389-452 | the new composite state, through the shutdown of the headset |
| `AudioDevice.Device.HeadsetCb` | audio/device.c:475-529 | the new composite state, through the shutdown of the sink |
| `AudioDevice.Device.HeadsetShutdown` | audio/headset.c:2747-2756 | the headset is disconnected and the invariant restored |
| `AudioDevice.Device.SinkShutdown` | audio/device.c:234-235 | whatever the sink does at once, the invariant is restored |
| `AudioDevice.Device.Connect` | audio/device.c:531-566 | stored if and only if a profile has started to connect: the headset when it is there, tried and does not fail, else the sink with a session; refused otherwise |
| `AudioDevice.Device.Disconnect` | audio/device.c:568-598 | refused, granted or stored; answered by the time the device is disconnected |
| `AudioDevice.Device.LinkDown` | audio/device.c:213-240 | both profiles are shut down |
| `AudioDevice.Device.HeadsetTimeout` | audio/device.c:335-353 | a disconnected headset that can be tried starts to connect, and the device is connected when the sink is; invariant kept |
| `AudioDevice.Device.SinkTimeout` | audio/device.c:299-316 | a disconnected sink that can be tried starts to connect; invariant kept |
| `AudioDevice.Device.SetAutoConnect` | audio/manager.c:552-552 | an incoming connection or a Connect of one profile sets the flag; the invariant is kept |
| `AudioDevice.Device.Handle` | audio/device.c:389-598 | what every event does to the device and its profiles |
| `AudioDevice.Device.Run` | audio/device.c:389-598 | over every run: each event does what `Turned` says, disconnected iff both profiles are, a stored Connect implies CONNECTING, a stored Disconnect implies not DISCONNECTED, every request is answered once or still stored, and a stored Connect is answered with success exactly for CONNECTED |
| `AudioDevice.QuietWhenDisconnected` | audio/device.c:272-292 | a disconnected device has answered every request, once |
| `AudioDevice.AnswerConnect` | audio/device.c:282-292 | answering a stored Connect keeps every request answered once |
| `AudioDevice.AnswerDisconnect` | audio/device.c:272-280 | the same for Disconnect |
| `AvrcpMetadata.Control.UpdateMetadata` | audio/control.c:1768-1809 | each text is kept up to its limit |
| `AvrcpMetadata.FillFields` | audio/control.c:2703-2802 | the field blocks leave exactly the surviving fields, then zeros |
| `AvrcpMetadata.Control.SendMetaData` | audio/control.c:2665-2831 | one SINGLE packet, or a START packet with 501 octets of metadata and the rest kept |
| `AvrcpMetadata.Control.SendContinue` | audio/control.c:2602-2663 | always an END packet with the whole rest; the CONTINUE branch is not reachable |
| `AvrcpMetadata.ParseUndoesWire` | audio/control.c:2703-2802 | fields written one after the other read back |
| `AvrcpMetadata.FullSurvives` | audio/control.c:2713-2719 | when all texts but the last are non-empty no field is lost |
| `AvrcpMetadata.EmptyIsLost` | audio/control.c:2713-2719 | a field with an empty text that is not the last is overwritten |
| `AvrcpMetadata.CountCovers` | audio/control.c:827-845 | the announced count covers the fields written |
| `AvrcpMetadata.SelectedExactly` | audio/control.c:2703-2802 | the fields of a response are exactly the attributes of the mask with their texts, in the order of the field blocks |
| `AvrcpMetadata.FieldsAskedFor` | audio/control.c:827-845 | an attribute is in the response if and only if it was asked for; none or too many identifiers ask for all |
| `AvrcpMetadata.ResponseSize` | audio/control.c:2665-2699 | a response holds at most 769 octets of metadata |
| `AvrcpMetadata.MetadataParses` | audio/control.c:2703-2802 | the metadata reads back as the fields asked for if and only if the count is theirs and all texts but the last are non-empty |
| `AvrcpMetadata.PacketReads` | audio/control.c:2602-2831 | type, length and parameters of a packet read back, behind the AVCTP and AVRCP headers of a response |
| `AvrcpMetadata.Respond` | audio/control.c:2602-2831 | at most a START and an END packet carry the whole response |
| `AvrcpMetadata.ResponseReads` | audio/control.c:2602-2831 | the joined parameters read back as the attributes asked for, in emission order, if and only if that condition holds |
| `HeadsetLimit.Manager.Allow` | audio/manager.c:1394-1420 | allowed if and only if fewer other headsets of the adapter than the limit are not disconnected |
| `HeadsetLimit.Manager.SetState` | audio/headset.c:2486-2596 | a change there is room for keeps the limit |
| `HeadsetLimit.Manager.AgConfirm` | audio/manager.c:480-558 | exactly when an incoming connection is accepted, and what is left of the device when not; no other device changes |
| `HeadsetLimit.Manager.RfcommConnect` | audio/headset.c:1560-1650 | exactly when an outgoing connection starts |
| `HeadsetLimit.RoomKeepsLimit` | audio/manager.c:1412-1416 | a headset that the others leave room for keeps every adapter within the limit |
| `HeadsetLimit.LimitIsTight` | audio/manager.c:1412-1416 | the check admits a headset if and only if the limit still holds with it |
| `HeadsetLimit.Manager.Run` | audio/manager.c:480-558 | no run ever has more headsets of one adapter outside DISCONNECTED than the limit; each event does what `Turned` says |

## Left out

- Sockets, the GLib main loop, D-Bus, SDP, uinput and configuration files: external effects, replaced by parameters.
- The SBC codec: the encoder is a sequence of frames of one length, then perhaps a failure.
- `audio/sink.c`, `audio/source.c`, `audio/media.c`, `audio/unix.c` and `audio/a2dp.c`: only the callbacks they deliver.
- AvdtpStreams.Session.Make: an abort from a callback that would give up the session is left out: one whose request cannot be aborted
  does nothing, and the channel takes an ABORT that no request is out to queue it behind. `AvdtpStreams.AbortedTwiceDangles`
  shows that otherwise the code uses a freed stream.
- AvdtpStreams.Session.AbortCall: the same.
- AvdtpStreams.Session.SetConfigurationCmd: the indication itself makes no calls; a second SET_CONFIGURATION for an end point comes after the
  first was decided, and `avdtp_set_configuration` is called on a free end point, as the callers do.
- AVDTP streams: reference counts of the session, disconnect timers, security, GET_CAPABILITIES contents and the peer's RECONFIGURE and DELAY_REPORT commands; stream addresses are never reused.
- AvdtpStreams.Session.Run: stops at an event that gives the session up and leaves a stream behind or uses one that was freed.
- AvdtpScheduler.Session.Run: callbacks only queue or send further requests.
- AvdtpScheduler.Session.ConnectionLost: a session that something still holds after the loss lives on with its request and its queues; it is not followed.
- AVDTP reassembly of messages over 255 octets: the 8-bit size wraps, so they are not delivered; only that is stated.
- AttQueue.GAttrib.Result: the choice between continuing and finishing is a parameter here and computed in `GattLongRead`.
- The reference count of `GAttrib` itself and its timeout: resends and failed writes do not balance the references taken.
- GattLongRead.Read: reads from offset 0; values are at most 65534 octets because sizes are 16 bits wide; 65535 is not examined.
- GattDiscovery.DiscoverAll: the server is conforming (sorted, disjoint, non-empty batches of one element length).
- AttLists.TypeRoundTrip: lengths that are multiples of 256 are not covered; the decoder divides by a length octet of 0.
- PcmRing.Stream.Run: stops at a step that would clear the indices during a send, which `out_standby_stream_locked` permits while it waits
  (`PcmRing.ResetReached`); `a2dp_cleanup` is a step of its own that may come at any time.
- Pacing and sleeping of the audio threads, wake locks and the contents of the a2dp library calls made under the locks.
- A2dpPacketiser.Packetiser.Write: the frame length is fixed and one frame fits the link MTU and the buffer.
- A2dpWorker.Worker.BluetoothClose: closing is taken to come to an end; `A2dpWorker.EndlessClose` says exactly when it does not.
- A2dpWorker.Worker.Run: the descriptors that a hangup or a failed socket option leaves open are recorded as lost, not closed, as in the code.
- AudioDevice.Device.Run: AVRCP timers and authorisation; a profile leaves its disconnected state only for CONNECTING.
- AvrcpMetadata.Control.UpdateMetadata: the terminator that over-long numbers get at index 149 is not modelled; the zero-filled buffer ends them at 39.
- HeadsetLimit.Manager.Run: the limit is at least 1 and connection callbacks arrive only while the headset is not disconnected.
- Gateway, AT command parsing, `attrib/client.c`, `gatttool` and the GStreamer elements: not part of this model.
