# A verified model of the gw_web back end

gw_web is the C back end of an embedded radio. One epoll thread reassembles framed requests from its
clients, one event loop keeps the sessions and the per-feature user lists, writer threads drain queues
into files, and an MD5 digest detects configuration changes. The project models these parts and proves
what they keep, in every run:

- `Md5Spec` states RFC 1321, sections 3.1 to 3.5, as pure functions. `Md5Transform` proves the unrolled
  compression with its rewritten boolean functions equal to the 64 steps of section 3.4. `Md5Stream` has the
  context as a class over its buffer and proves that any cutting of a message into `md5_write` calls, with
  empty and flushing calls among them, gives the digest of the whole message; and exactly for which lengths
  the 64-bit length field is the one of the RFC. `Md5KnownAnswers` proves two answers of appendix A.5, for the
  empty message and for one of two blocks, step by step and with the words written out.
- `Frames`, `Dispatch` and `Receiver` are the receive side: the greedy parse of a byte stream, the two
  dispatch tables, and the receive buffer as an array that is parsed and moved in place. Whatever recv
  delivers, the frames acted on are the parse of the whole stream and the bytes in front of the receive
  area are the unparsed suffix; the headroom suffices exactly when no frame is too long. `Frontend` goes on to
  what each of the 24 frame types, by its number on the wire, makes the event loop do.
- `Sessions`, `DmaModel`, `RssiModel`, `CsiSaveModel` and `Recorder` define the effect of each operation on
  sessions, on the DMA device shared by CSI and constellation, on RSSI with its two-phase delete, and on
  recordings with their writer threads. `EventModel` puts them together as one transition system over the
  messages to the loop and the threads' steps, in every interleaving, and proves one invariant. `Runs` states
  what follows for all runs; `Answers` what the clients and the DMA device see of every event, in the codes and
  channels that go out; `RssiRuns` when the RSSI device is asked and on; `RfRuns` which session an RF inquiry's
  answer reaches; and `FileRuns` what a closed file holds, and the order of lists and CLEARs. `Drain` and
  `DrainCsi` prove that every long enough run frees what it should, and `Starvation` which recordings a run
  leaves without samples.
- `ServerSessions`, `DmaHandler`, `RssiHandler`, `CsiSaveHandler` and `EventLoop` are the code itself: classes
  whose methods update fields, loop over lists and call each other as the C functions do. Each is proved to
  do what its definition in the models says, up to a whole run of the loop (`EventLoop.Loop.Serve`). The CSI
  and constellation user lists are the circular doubly linked lists of `UserList`, pointers and all.
- `TinyQueue` is the head/tail queue, and `RecordingQueue` a recording over it: the loop's and the writer's
  steps on the linked nodes are those of `Recorder`. `NumberParsers` and `IqDecoders` are the decoders.

Where the code does not keep a promise, the project has an input that shows it and the exact condition under
which it does:

- the MD5 length field, from 2^38 bytes on (`Md5Stream.LongMessagePaddedWrong`, `Md5Stream.PaddingIsRfcIff`);
- the receive buffer, for frames that are too long and for a declared length that overflows an int
  (`Frames.LongCarry`, `Frames.OverflowingHeader`, `Frames.HeadroomIff`);
- the device states, after a CSI start that fails (`DmaModel.FailedStartBreaksExclusion`,
  `Runs.DeviceFollowsUsersIff`), and the CMD_OK that is sent without a running device
  (`Runs.RetryIsNotServed`, `Runs.StartCsiServedIff`, `Runs.ConstellIsNotServed`, `Runs.StartConstellServedIff`);
- the RSSI device, after a request to switch on that it refuses: a second try makes the client a user, and the
  device is not asked (`RssiRuns.RssiRetryIsNotServed`, `RssiRuns.RssiServedIff`, `RssiRuns.RssiFollowsUsersIff`);
- the samples that an enabled recording receives (`Starvation.CsiStarves`, `Starvation.RssiStarves`,
  `CsiSaveModel.SampleReachesIff`, `RssiModel.SampleReachesIff`, and over runs `Starvation.StarvedRun`,
  `Starvation.StarvedRunRssi`);
- the node that a stop frees (`DmaHandler.StopByAnother`, `DmaHandler.Handler.StopCsiExternal`; the close of RSSI,
  which no caller uses that way, has the condition `RssiModel.CloseReleasesLinkedIff`);
- the queue that a disconnect finds, after a CSI file that cannot be created or an operation code that is
  neither 0 nor 1: del_user then pushes to a queue that is NULL (`RssiModel.StopWithoutQueue`,
  `CsiSaveModel.StopWithoutQueue`, `RssiModel.StopHasQueueIff`, `CsiSaveModel.StopHasQueueIff`; for the flags
  themselves `RssiModel.ControlSaveKeepsIff`, `CsiSaveModel.ControlSaveKeepsIff`).

## Model

| member | source | states |
|---|---|---|
| Md5Transform.FFIsF | webApp/utility_lib/md5sum.c:95-96 | the shortened selection macro is the function F of RFC 1321 for all words |
| Md5Transform.FGIsG | webApp/utility_lib/md5sum.c:97 | FF with its arguments turned round is G |
| Md5Transform.TransformBlock | webApp/utility_lib/md5sum.c:107-243 | for every state and block, the unrolled rounds equal the 64 steps of section 3.4, whose word indices are i, 1+5i, 5+3i and 7i mod 16 |
| Md5Stream.Md5Context.constructor | webApp/utility_lib/md5sum.c:72-83 | a new context has absorbed the empty message |
| Md5Stream.Md5Context.Transform | webApp/utility_lib/md5sum.c:107-243 | the registers become the compression of the 64 bytes at the given place |
| Md5Stream.Md5Context.Write | webApp/utility_lib/md5sum.c:254-282 | the message absorbed grows by exactly the input; the registers are the fold over its complete blocks, nblocks counts them mod 2^32, the buffer holds the tail, count is below 64; the flush call changes none of the buffer |
| Md5Stream.Md5Context.Final | webApp/utility_lib/md5sum.c:296-359 | for a message of any length, the first sixteen bytes of the buffer are its padded digest, with the bit count a 32-bit block counter can know |
| Md5Stream.BitCount | webApp/utility_lib/md5sum.c:305-319 | the shifts, the carry and the or compute 8 * (64 * nblocks + count) exactly, for every u32 nblocks and count < 64 |
| Md5Stream.Md5Context.PadBuffer | webApp/utility_lib/md5sum.c:322-333 | both branches end with the buffer holding 56 bytes that complete the padding of section 3.1 |
| Md5Stream.PaddedMessage | webApp/utility_lib/md5sum.c:335-342 | the two words stored after the padding form the 64-bit length field of section 3.2 |
| Md5Stream.PaddingIsRfcIff | webApp/utility_lib/md5sum.c:307-319 | the padding is the one of the RFC if and only if the length mod 2^61 is below 2^38 |
| Md5Stream.LongMessagePaddedWrong | webApp/utility_lib/md5sum.c:307-319 | 2^38 zero bytes, the shortest such message, get the length field of the empty message |
| Md5Stream.CountedDigestIsRfc | webApp/utility_lib/md5sum.c:296-359 | for every other length the digest is that of RFC 1321 |
| Md5Stream.HashPieces | webApp/utility_lib/md5sum.c:254-359 | any sequence of data, empty and flush calls, then md5_final, gives the RFC digest of the concatenation |
| Md5Stream.GetMd5Sum | webApp/utility_lib/md5sum.c:361-390 | the result is the digest of the file up to the first empty read; failures to open and to read are reported |
| Md5Stream.UntilEmptyIs | webApp/utility_lib/md5sum.c:361-390 | what the reads before the first empty one delivered, one after the other, is what is hashed, whatever follows |
| Md5Stream.BytesOfIs | webApp/utility_lib/md5sum.c:254-282 | writes of data with flushes in between are the concatenation of the data |
| Md5KnownAnswers.DigestOfNothing | webApp/utility_lib/md5sum.c:107-359 | the digest of the empty message is d41d8cd98f00b204e9800998ecf8427e |
| Md5KnownAnswers.DigestOfAlphanumeric | webApp/utility_lib/md5sum.c:107-359 | the digest of the 62 letters and digits, which take a second block, is d174ab98d277d9f5a5611c2c9f419d9f |
| Frames.ParseAppend | webApp/src/server.c:223-266 | parsing a stream in two goes, with the leftover in front of the rest, gives the same frames and the same leftover as parsing it at once |
| Frames.HeadroomIff | webApp/src/server.c:197-266 | however a stream is cut, at most 2000 bytes are carried over and no sum of the loop overflows, if and only if every whole frame has at most 2001 bytes, an unfinished one at most 2000, and the unfinished one declares less than 2^31 - 4 |
| Frames.LongCarry | webApp/src/server.c:223-266 | cutting a stream before the last byte of a frame carries over all of that frame but one byte, so a frame of 2002 bytes can overrun the headroom |
| Frames.OverflowingHeader | webApp/src/server.c:240-243 | the five bytes 7f ff ff ff 00 are carried within the headroom, and the sum of declared length and header overflows |
| Frames.LargestHeader | webApp/src/server.c:240-243 | a declared length of 2^31 - 5, the largest that does not overflow, is accepted |
| Frames.NoOverflowIff | webApp/src/server.c:243 | no sum that the loop forms overflows if and only if none does for the whole frames and for the unfinished one |
| Frames.StreamRoundTrip | webApp/src/server.c:588-616 | the concatenation of any frames, laid out as sent, parses to the same types and payloads in order, with nothing left and no overflow on the way |
| Frames.ShortFramesFit | webApp/src/server.c:588-616 | frames of at most 2001 bytes on the wire never overrun the headroom |
| Frames.FrameFitsIff | webApp/src/server.c:197-266 | one frame can be cut anywhere if and only if it has at most 2001 bytes on the wire |
| Frames.WireExamples | webApp/src/server.c:588-616 | frames byte by byte: length, type, payload, high bytes first, negative types |
| Dispatch.TablesComplete | webApp/src/server.c:28-54 | every known type has its entry in idx_msg, with the right message |
| Dispatch.MessageOf | webApp/src/server.c:56-91 | the scan of idx_msg finds the message of a type if and only if the type is known |
| Dispatch.HandlerOf | webApp/src/server.c:98-191 | the scan of msg_flow finds the handler of a type if and only if the type is known |
| Dispatch.ProcessMessage | webApp/src/server.c:171-191 | one body causes exactly one action: the mapped post with or without payload, the keepalive reply, or the report of an unknown type |
| Frontend.OnFrame | webApp/src/server.c:28-191 | by the number of the type on the wire: which case of the event loop, for which connfd and with which payload, or which report, command or reply each of the 24 types leads to, and that any other leads to nothing; type 201 is replied to with the eight bytes of a frame of type 202 |
| Frontend.StreamIsServed | webApp/src/server.c:171-280 | whatever a client sends as frames is served frame by frame, in order |
| Receiver.Connection.Receive | webApp/src/server.c:193-267 | each call keeps: the frames acted on are the parse of all bytes received, the leftover before the receive area is the unparsed suffix |
| Receiver.Connection.ParseLoop | webApp/src/server.c:223-266 | the loop terminates, acts on every complete frame in order, and stays inside the buffer, with every sum in a C int |
| Receiver.Connection.KeepRest | webApp/src/server.c:228-247 | the leftover is moved, overlapping or not, to end just before the receive area |
| Receiver.Connection.ProcessRecvEvent | webApp/src/server.c:269-280 | receives until recv has no more, absorbs everything delivered, and posts the disconnect if and only if the connection closed or failed |
| Receiver.Connection.AssembleFrameAndSend | webApp/src/server.c:588-616 | what goes to the socket is the encoding of the frame, unless the connection is closing |
| Receiver.Transfer | webApp/src/server.c:193-280 | frames laid out by one side and cut anywhere cause, on the other, exactly the action of each, in order |
| UserList.InitListHead | webApp/utility_lib/list.h:30-34 | a ring closed on its head |
| UserList.ListAddTail | webApp/utility_lib/list.h:37-63 | next and prev stay mutually inverse and the sequence of nodes is extended at its end |
| UserList.ListDel | webApp/utility_lib/list.h:83-96 | exactly the entry leaves the sequence, and its pointers are cleared |
| UserList.Users.Add | webApp/src/dma_handler.c:197-204 | a fresh node with the connfd is appended and counted |
| UserList.Users.Find | webApp/src/dma_handler.c:8-18 | the traversal returns the first match, and NULL if and only if there is none |
| UserList.Users.Remove | webApp/src/dma_handler.c:210-226 | the first match leaves list and count; the pointer left over is an unlinked node if and only if the user was a member, NULL if and only if the list was empty |
| TinyQueue.Queue.Push | webApp/utility_lib/tiny_queue.c:27-49 | the head/tail list grows at the end, on both branches; a failed allocation changes nothing |
| TinyQueue.Queue.Pop | webApp/utility_lib/tiny_queue.c:51-71 | the oldest element is taken out, on both branches; only an empty queue makes the caller wait |
| TinyQueue.Interleave | webApp/utility_lib/tiny_queue.c:27-71 | in every interleaving the values popped are exactly the first of those pushed, as many as there were pops that found one, in push order; a pop waits only when everything pushed before it has been popped |
| RecordingQueue.Recording.Step | webApp/src/dma_handler.c:256-282 | over the linked queue, a step of the writer thread is the modelled one, and it waits exactly when the model says it cannot move |
| RecordingQueue.Recording.End | webApp/src/dma_handler.c:408-423 | over the linked queue, the terminator is pushed and the recording disabled, as modelled |
| RecordingQueue.Record | webApp/src/dma_handler.c:256-423 | however samples and writer steps interleave, the writer of an ended recording has written every sample, in order, when it posts its CLEAR |
| Recorder.MoveGood | webApp/src/dma_handler.c:256-282 | every step of a writer thread keeps: written ++ in hand ++ queued is what was pushed, one terminator, and it is last |
| Recorder.PushEndGood | webApp/src/mosquitto_broker.c:670-686 | ending a recording keeps that account, with the terminator now last in the queue |
| Recorder.ClearedIsComplete | webApp/src/mosquitto_broker.c:651-668 | when CLEAR arrives, the file holds every sample pushed since the start, in order |
| Recorder.WriterFinishes | webApp/src/mosquitto_broker.c:513-543 | the writer of an ended recording can always move, and each move brings its CLEAR one step nearer |
| Sessions.AdmitKeeps | webApp/src/server.c:477-503 | admission keeps counter, ids and order, and adds one session without flags |
| Sessions.DropKeeps | webApp/src/server.c:505-518 | removal takes exactly that session out, and the counter stays the length of the list |
| Sessions.RecordKeeps | webApp/src/event_process.c:737-826 | storing a flag changes the flags of that session alone |
| Sessions.IdsCount | webApp/src/server.c:477-503 | the k-th session admitted, from 0, has id k mod 1024 + 1 |
| Sessions.ReplyReachesAskerIff | webApp/src/server.c:520-554 | an id leads back to its session if and only if that is still live and no live session was admitted a multiple of 1024 before it |
| Sessions.ReplyWithinWindow | webApp/src/server.c:520-554 | within 1024 consecutive admissions an id leads to its own session or to nobody |
| Answers.SessionsOfStep | webApp/src/event_process.c:138-207 | in every reachable state: a connection adds one session at the end with the next id and no flags, a disconnect takes out its own, a failed OpenWrt connection leaves the list as it was, and nothing else adds, removes or reorders sessions |
| ServerSessions.SessionTable.Add | webApp/src/server.c:477-485 | appends, counts, and advances the id with its wrap at 1025 |
| ServerSessions.SessionTable.Remove | webApp/src/server.c:505-518 | removes the session and returns it; without a match the list stays and the last node is returned all the same |
| ServerSessions.SessionTable.FindNodeId | webApp/src/server.c:520-530 | the id of the live session, or -1 |
| ServerSessions.SessionTable.FindByUserId | webApp/src/server.c:544-554 | the first session with the id, as in the reply results above |
| ServerSessions.SessionTable.CheckCsiWorking | webApp/src/event_process.c:869-879 | 1 if and only if some session's CSI flag is 1 |
| ServerSessions.SessionTable.CheckConstellWorking | webApp/src/event_process.c:857-867 | 1 if and only if some session's constellation flag is 1 |
| DmaModel.StartCsiKeeps | webApp/src/dma_handler.c:183-207 | start keeps lists, flags, counters and exclusion together, also when the device fails |
| DmaModel.StartConstellKeeps | webApp/src/dma_handler.c:464-486 | starting constellation keeps lists, flags, counters and exclusion together, although a failed start is ignored |
| DmaModel.StopCsiKeeps | webApp/src/dma_handler.c:210-235 | stopping CSI keeps them together, with the flag cleared |
| DmaModel.StopConstellKeeps | webApp/src/dma_handler.c:489-514 | stopping constellation keeps them together, with the flag cleared |
| DmaModel.StartCsiDeviceIff | webApp/src/dma_handler.c:154-207 | starting CSI leaves states, counters and device calls consistent if and only if axidma_start returns 0 or is not called |
| DmaModel.StopDevice | webApp/src/dma_handler.c:169-235 | stopping keeps them consistent: the device stops exactly with its last user |
| DmaModel.FailedStartBreaksExclusion | webApp/src/dma_handler.c:154-167 | after a failed CSI start and a constellation start both states are 1 |
| DmaHandler.Handler.StartCsiExternal | webApp/src/dma_handler.c:183-207 | over the linked lists: the modelled effect on list, counter, state and device calls, and the modelled result |
| DmaHandler.Handler.StopCsiExternal | webApp/src/dma_handler.c:210-235 | over the linked lists, for any connfd: the modelled effect on list, counter, state and device calls; and the node it frees is still linked if and only if the list was not empty and the connfd not in it |
| DmaHandler.Handler.StartConstellExternal | webApp/src/dma_handler.c:464-486 | over the linked lists: the modelled effect on list, counter, state and device calls, also after a failed start |
| DmaHandler.Handler.StopConstellExternal | webApp/src/dma_handler.c:489-514 | over the linked lists, for any connfd: the modelled effect; and the node it frees is still linked if and only if the list was not empty and the connfd not in it |
| DmaHandler.StopByAnother | webApp/src/dma_handler.c:210-226 | one session starts CSI and another one stops it: the node of the first is freed while it is in the list |
| RssiModel.OpenKeeps | webApp/src/mosquitto_broker.c:427-447 | opening keeps the invariant: every live session with the flag has its one node, no node is lost or freed twice |
| RssiModel.CloseKeeps | webApp/src/mosquitto_broker.c:450-481 | closing keeps it, with the session gone |
| RssiModel.CloseReleasesLinkedIff | webApp/src/mosquitto_broker.c:450-481 | a close releases a node that stays on the list if and only if the connfd has none there and others do |
| RssiModel.ControlSaveKeeps | webApp/src/mosquitto_broker.c:545-608 | starting and ending a recording keep the invariant, with the save flag as the event loop then stores it |
| RssiModel.ControlSaveKeepsIff | webApp/src/mosquitto_broker.c:545-608 | for any operation code, the flag the event loop then stores is right if and only if the code is 0 or 1 or the session has not opened RSSI |
| RssiModel.ControlSaveResult | webApp/src/mosquitto_broker.c:545-608 | the result for any operation code: -2 without a node, -1 when there is nothing to stop or start or the file cannot be created, else 0 |
| RssiModel.StopHasQueueIff | webApp/src/mosquitto_broker.c:545-686 | for any operation code: if the flag stored is set, the session has a node with a queue for del_user to push to, if and only if the code is 0 or 1, or the session has not opened RSSI, or it had a queue before |
| RssiModel.StopWithoutQueue | webApp/src/mosquitto_broker.c:545-608 | one client opens RSSI and sends operation code 2: the request succeeds, the flag is set, and there is no queue |
| RssiModel.SampleKeeps | webApp/src/mosquitto_broker.c:610-649 | handing out a sample keeps the invariant of every recording |
| RssiModel.SampleReachesIff | webApp/src/mosquitto_broker.c:610-649 | a recording receives the sample if and only if it is enabled and no disabled one stands before it on the list; nothing else in the node changes |
| RssiModel.WriterKeeps | webApp/src/mosquitto_broker.c:513-543 | every step of a writer thread keeps the invariant |
| RssiModel.ClearKeeps | webApp/src/mosquitto_broker.c:651-668 | CLEAR always finds its node and its file, and keeps the invariant |
| RssiModel.CloseFreesUnused | webApp/src/mosquitto_broker.c:462-470 | close frees its node if and only if no recording hangs on it, so no thread and no pending CLEAR can reach it |
| RssiModel.ClearFreesClosed | webApp/src/mosquitto_broker.c:651-668 | CLEAR runs when the thread is gone, and frees the node if and only if its session has closed |
| RssiModel.ClosedNodeFate | webApp/src/mosquitto_broker.c:450-481 | a node off the list is freed once, or waits for a thread or a CLEAR, or holds a recording that was never started |
| RssiModel.ClosedNodeProgress | webApp/src/mosquitto_broker.c:513-543 | each thread step of a waiting node is possible and brings its CLEAR one step nearer |
| Drain.ClosedNodeIsFreed | webApp/src/mosquitto_broker.c:513-686 | from every state, thread steps and CLEARs alone lead to a run in which a closed node with a started recording is freed, once |
| Drain.EveryRunFrees | webApp/src/mosquitto_broker.c:513-686 | in every run, whatever else happens in it: once the thread of a closed node has made the steps it had left, and as many CLEARs have been handled as are then queued, the node has been freed, once |
| DrainCsi.EveryRunFrees | webApp/src/dma_handler.c:256-406 | the same in every run for the node of a CSI recording that has been ended |
| RssiHandler.Handler.OpenExternal | webApp/src/mosquitto_broker.c:427-447 | the code's effect on state, list, counter and memory is the modelled one, with the modelled result |
| RssiHandler.Handler.CloseExternal | webApp/src/mosquitto_broker.c:450-481 | for any connfd, the removal loop, the free or the mark for CLEAR, and the request to the device have the modelled effect; the assertion on confirm_delete in the C code holds |
| RssiHandler.Handler.ControlState | webApp/src/mosquitto_broker.c:390-425 | for every answer of the device, state and result are the modelled ones |
| RssiHandler.Handler.ProcessSaveFile | webApp/src/mosquitto_broker.c:545-608 | for every operation code, every branch has the modelled effect and result |
| RssiHandler.Handler.SendToSave | webApp/src/mosquitto_broker.c:610-649 | the loop with its break is the recursive definition |
| RssiHandler.Handler.ClearWriteStatus | webApp/src/mosquitto_broker.c:651-668 | closes the recording and frees the node or keeps it, as modelled |
| RssiHandler.Handler.InformStopThread | webApp/src/mosquitto_broker.c:670-686 | pushes the terminator to the session's queue and disables the recording, as modelled |
| RssiHandler.Handler.WriteThreadStep | webApp/src/mosquitto_broker.c:513-543 | pop, write and post are the modelled steps |
| CsiSaveModel.ControlSaveKeeps | webApp/src/dma_handler.c:284-355 | starting and ending a CSI recording keeps: one node per connfd, enabled if and only if the live session's save flag is 1 |
| CsiSaveModel.ControlSaveKeepsIff | webApp/src/dma_handler.c:284-355 | for any operation code and whether or not the file can be created, the flag that is then stored is right if and only if the code is 0, or is 1 and the file could be created or did not have to be |
| CsiSaveModel.ControlSaveResult | webApp/src/dma_handler.c:284-355 | the result for any operation code: -1 if and only if a start cannot create its file, else 0 |
| CsiSaveModel.StopHasQueueIff | webApp/src/dma_handler.c:284-423 | for any operation code and file outcome: if the flag stored is set, there is a node with a queue for del_user to push to, if and only if the code is 0, or is 1 and the file can be created, or there was one before |
| CsiSaveModel.StopWithoutQueue | webApp/src/dma_handler.c:284-355 | one request whose file cannot be created, or with operation code 2, leaves a set flag and a node without a queue |
| CsiSaveModel.SampleReachesIff | webApp/src/dma_handler.c:357-378 | a CSI recording receives the sample if and only if it is enabled and no disabled one stands before it on the list; nothing else in the node changes |
| CsiSaveModel.ClearKeeps | webApp/src/dma_handler.c:380-406 | CLEAR frees the node of a finished recording, which is still there, and keeps the invariant |
| CsiSaveModel.ClearEffect | webApp/src/dma_handler.c:380-406 | the recording of the CLEAR is the one closed, its node is unlinked, counted out and freed, and the other nodes stay |
| CsiSaveModel.WriterKeeps | webApp/src/dma_handler.c:256-282 | every step of a writer thread keeps the invariant |
| CsiSaveHandler.Handler.AccessNode | webApp/src/dma_handler.c:297-314 | finds the node of the connfd or makes one |
| CsiSaveHandler.Handler.ProcessSaveFile | webApp/src/dma_handler.c:284-355 | for every operation code, and when the file cannot be created, the effect and the result are the modelled ones |
| CsiSaveHandler.Handler.SendToSave | webApp/src/dma_handler.c:357-378 | the loop with its break is the recursive definition |
| CsiSaveHandler.Handler.ClearWriteStatus | webApp/src/dma_handler.c:380-406 | the removal loop takes out and frees the node of the CLEAR, as modelled |
| CsiSaveHandler.Handler.InformStopThread | webApp/src/dma_handler.c:408-423 | pushes the terminator to the connfd's queue and disables the recording, as modelled |
| CsiSaveHandler.Handler.WriteThreadStep | webApp/src/dma_handler.c:256-282 | pop, write and post are the modelled steps |
| EventModel.DisconnectKeeps | webApp/src/event_process.c:700-733 | del_user keeps the invariant of all modules at once, with the session gone from every map |
| EventModel.StepKeeps | webApp/src/event_process.c:134-634 | every message about sessions, features, recordings and RF information, and every thread step, in any order, keeps the invariant of all modules; the other cases of the switch touch none of their state |
| EventLoop.Loop.DeleteUser | webApp/src/event_process.c:700-733 | meets the preconditions of every stop and close it calls, and undoes all the session had on |
| EventLoop.Loop.OnOpenwrtConnected | webApp/src/event_process.c:177-207 | a linked OpenWrt connection becomes a session like any other, and is taken back if the epoll thread cannot be told |
| EventLoop.Loop.OnRfInquiry | webApp/src/event_process.c:611-620 | is the modelled step, whose job carries the node id of the session that asked (`RfRuns.RfInquiryAsks`) |
| EventLoop.Loop.OnRfReady | webApp/src/event_process.c:621-635 | the answer goes to the first session with the id, or is dropped |
| EventLoop.Loop.OnStartCsi | webApp/src/event_process.c:393-418 | the guard, the start, the record and the reply together are one modelled step |
| EventLoop.Loop.OnStartConstell | webApp/src/event_process.c:454-475 | the guard, the start, the record and the reply together are one modelled step; CMD_OK is sent whatever the device did |
| EventLoop.Loop.OnControlRssi | webApp/src/event_process.c:330-345 | the flag is stored only if the request succeeded, and the reply carries the result |
| EventLoop.Loop.OnSaveCsi | webApp/src/event_process.c:503-517 | the flag is stored and CMD_OK sent whatever happened |
| EventLoop.Loop.Handle | webApp/src/event_process.c:134-634 | every one of these cases does the modelled step and keeps the invariant |
| EventLoop.Loop.Serve | webApp/src/event_process.c:128-634 | a whole run of the code over these messages is the run of the transition system |
| Runs.ListsFlagsCounters | webApp/src/event_process.c:393-490 | in every reachable state a connfd is in a feature's list, once, if and only if its live session has the flag; counters are list lengths; the two lists are never both in use, whatever axidma_start returned |
| Runs.DisconnectCleansUp | webApp/src/event_process.c:700-733 | a disconnect finds every node it removes and leaves nothing of the session in any list and no enabled recording |
| Runs.StartCsiAnswer | webApp/src/event_process.c:393-418 | a start request is refused if and only if the other feature has users; CMD_OK says exactly that the session is in the list; CMD_FAIL only if the device did not start |
| Runs.StartCsiServedIff | webApp/src/dma_handler.c:183-207 | in every reachable state: after CMD_OK the device was not started for CSI if and only if, for a first user, the state was 1 without users, and for a further one, it was not before |
| Runs.RetryIsNotServed | webApp/src/dma_handler.c:154-207 | a start that fails and a second try: the run ends with CMD_OK, the user in the list, and one start of the device, which failed |
| Runs.StartConstellAnswer | webApp/src/event_process.c:454-475 | a start request for constellation is refused if and only if CSI has users; otherwise the session is in the list and is told CMD_OK |
| Runs.StartConstellServedIff | webApp/src/dma_handler.c:435-486 | in every reachable state: after that CMD_OK the device was started for constellation if and only if, for a first user, it is open and the start returned 0, and for a further one, it was before |
| Runs.ConstellIsNotServed | webApp/src/dma_handler.c:435-486 | one request on a device that does not start: CMD_OK, the user in the list, and one start, which failed |
| Answers.StartCodes | webApp/src/event_process.c:393-475 | in every reachable state a start adds exactly one answer to its session: 0, -1 when the device did not start, 2 when constellation, or 3 when CSI has users |
| Answers.StopCsiAnswer | webApp/src/event_process.c:419-434 | in every reachable state a stop adds exactly one answer, 0, and leaves its session, and no other, out of the list, with the flag cleared |
| Answers.StopConstellAnswer | webApp/src/event_process.c:476-490 | the same for constellation |
| Answers.ControlRssiAnswer | webApp/src/event_process.c:330-345 | in every reachable state the one answer is 0 if and only if the session has RSSI open, its save flag differs from the code, and a start can create its file, and -1 otherwise; the flag follows only then |
| Answers.SaveCsiAnswer | webApp/src/event_process.c:503-517 | in every reachable state the one answer is 0 and the flag becomes the code |
| Answers.OthersAnswerNothing | webApp/src/event_process.c:134-634 | no other event is answered with a command state |
| Answers.DeviceCalls | webApp/src/dma_handler.c:154-235 | in every reachable state, the exact calls each event makes: select 0x40 or 0x80 and start for a first user while the state is 0, stop with the last one, and otherwise none; after a stop without users the CSI state is 0, also after a start that failed |
| Runs.DeviceFollowsUsersIff | webApp/src/dma_handler.c:154-235 | for every run with an open device: throughout it a state is 1 if and only if its feature has users, never both, and the calls are select, start, stop over and over, with the channel of the feature in use - if and only if every start that the run makes for CSI succeeds |
| Runs.RssiRecordings | webApp/src/mosquitto_broker.c:513-686 | in every interleaving: nothing lost between push and file, one terminator, last; enabled if and only if a live session's save flag is 1; every closed file complete; no node freed twice |
| Runs.CsiRecordings | webApp/src/dma_handler.c:256-423 | in every interleaving: nothing lost between push and file, one terminator, last; a CSI recording is enabled if and only if a live session's save flag is 1; every closed file complete |
| Runs.RssiFreedOutOfReach | webApp/src/mosquitto_broker.c:450-668 | whatever event frees a node, in whatever run: it has no recording, or its thread has posted its CLEAR and is gone; and no CLEAR for it is pending |
| Runs.CsiFreedOutOfReach | webApp/src/dma_handler.c:256-406 | whatever event frees a CSI node, in whatever run: its thread has posted its CLEAR and is gone, and no CLEAR for it is pending |
| FileRuns.CsiFileIsSamples | webApp/src/dma_handler.c:256-406 | in every run: when the CLEAR of a recording arrives, whatever has happened since its start, the file that is closed holds exactly the samples that reached the recording, in order |
| FileRuns.RssiFileIsSamples | webApp/src/mosquitto_broker.c:513-668 | the same for RSSI, also when the session has gone |
| FileRuns.CsiFileStep | webApp/src/dma_handler.c:256-423 | what each event does to each CSI recording: only a start empties it, and only one that had not started; only samples that reach it are added; only a stop and a disconnect of its session disable it; only its CLEAR closes it |
| FileRuns.RssiFileStep | webApp/src/mosquitto_broker.c:450-686 | what each event does to each RSSI recording, on the list or off it |
| FileRuns.CsiOrder | webApp/src/dma_handler.c:256-406 | CLEARs are posted at the end and taken from the front, nodes are added at the end, and only a CLEAR takes one out, its own, the others keeping their order |
| FileRuns.RssiOrder | webApp/src/mosquitto_broker.c:427-668 | CLEARs are posted at the end and taken from the front, nodes are added at the end by opening, and only a disconnect takes one out, that of its session |
| RssiRuns.RssiDevice | webApp/src/mosquitto_broker.c:390-481 | in every reachable state: the state is that of the last answered request; users imply that it is 1; it is 1 without users only if the last request failed or was to switch off and not answered |
| RssiRuns.RssiRequests | webApp/src/mosquitto_broker.c:427-481 | in every reachable state each event asks the device exactly this: to switch on if it opens RSSI while there are no users and the state is 0, to switch off if it takes out the last user, and otherwise nothing |
| RssiRuns.RssiDisconnect | webApp/src/mosquitto_broker.c:450-481 | a disconnect takes out one user if its session had RSSI open; the state changes only if that was the last one and the device answered, and is then 0 |
| RssiRuns.RssiOpen | webApp/src/mosquitto_broker.c:427-447 | a request to open makes the session a user, with its flag, if and only if there are users, or the state is 1, or the device switches on |
| RssiRuns.RssiServedIff | webApp/src/mosquitto_broker.c:427-447 | the device has confirmed to be on after a request to open that succeeded if and only if, for a first user, the state was 0, and for a further one, it had before |
| RssiRuns.RssiRetryIsNotServed | webApp/src/mosquitto_broker.c:427-447 | a refused request and a second one: the session is a user, and the device was asked once and refused |
| RssiRuns.RssiFollowsUsersIff | webApp/src/mosquitto_broker.c:390-481 | for every run: throughout it the state is 1 exactly when there are users, if and only if no request to switch on is refused and none to switch off stays without an answer |
| Starvation.CsiStarves | webApp/src/dma_handler.c:357-378 | two sessions, two requests: session 1 stops a recording it never started, session 2 starts one, is told CMD_OK, and its enabled recording gets nothing of the next sample |
| Starvation.RssiStarves | webApp/src/mosquitto_broker.c:610-649 | the same with RSSI |
| Starvation.StarvedRun | webApp/src/dma_handler.c:284-378 | a CSI node that was never started keeps its place, also when its session has gone, and no recording behind it receives anything, in every run in which its connfd starts none |
| Starvation.StarvedRunRssi | webApp/src/mosquitto_broker.c:545-649 | an RSSI node whose recording was allocated and never started keeps its place, and no recording behind it receives anything, in every run in which its session neither starts one nor leaves |
| Runs.RfReplies | webApp/src/event_process.c:611-635 | in every run, whatever comes between request and answer, every answer goes to the session that asked or to nobody, if at each delivery the live sessions and the asker lie within one window of 1024 admissions |
| RfRuns.RfInquiryAsks | webApp/src/event_process.c:611-620 | in every reachable state an inquiry adds exactly one job, at the end, with the node id of the session that has its connfd, and changes nothing else |
| RfRuns.RfReadyDelivers | webApp/src/event_process.c:621-635 | in every reachable state an answer takes exactly its job out and goes to the first session with the job's id, if there is one, and otherwise to nobody |
| RfRuns.RfAnswered | webApp/src/event_process.c:611-635 | over runs: if the session that asked is still live, within one window of 1024 admissions, when its answer arrives, the answer is delivered, once, to it, on the connfd it asked with |
| NumberParsers.StringToDecimalInt | webApp/src/small_utility.c:27-50 | the positional value mod 2^32, other characters counting 0, despite the leading-zero skip; -1 for no string or an empty one |
| NumberParsers.StringToInt | webApp/src/small_utility.c:52-81 | the positional value in base 16 mod 2^32, with digits of either case, after the prefix 0x; -1 without the prefix or with nothing after it |
| NumberParsers.DecimalReadBack | webApp/src/small_utility.c:27-50 | the digits of every number have that number as their value |
| NumberParsers.HexReadBack | webApp/src/small_utility.c:52-81 | the hexadecimal digits of every number, with letters of either case, have that number as their value |
| NumberParsers.OthersCountZero | webApp/src/small_utility.c:27-81 | every character that is no digit of the base counts as 0 |
| NumberParsers.LeadingZeros | webApp/src/small_utility.c:38-39 | skipping zeros in front is harmless |
| NumberParsers.IntTimeToString | webApp/src/small_utility.c:85-109 | for every int, the characters that come out; they are two digits below 100, and four from 2000 to 2099 |
| NumberParsers.ParseFpgaVersion | webApp/src/small_utility.c:111-159 | for every 32-bit word the buffer holds the fourteen digits of its fields, and the NUL |
| NumberParsers.VersionReadBack | webApp/src/small_utility.c:111-159 | the fourteen digits determine the word |
| NumberParsers.VersionOnto | webApp/src/small_utility.c:111-159 | a text is the rendering of a word if and only if it has fourteen digits, starts with 20, and its fields are in range |
| NumberParsers.VersionExamples | webApp/src/small_utility.c:111-159 | two words and their texts: where each field is in the word and in the text |
| IqDecoders.ConstellationIqPair.Process | webApp/src/dma_handler.c:554-592 | two leading Q bytes give no pairs and change nothing; otherwise (len - start) / 2 pairs, in order, of twice the signed low 7 bits, and the decoded bytes of the buffer are shifted |
| IqDecoders.WindowDecodes | webApp/src/dma_handler.c:554-592 | any window of an alternating I/Q stream decodes to exactly the pairs that lie inside it, whether it starts with I or with Q |
| IqDecoders.Tranform | webApp/src/small_utility.c:206-220 | a big-endian 16-bit two's complement sample |
| IqDecoders.ParseIqFromNet | webApp/src/small_utility.c:223-265 | the two loops compute the de-interleaved pairs |
| IqDecoders.IqRoundTrip | webApp/src/small_utility.c:223-265 | de-interleaving undoes the sender's interleaving, for all 256 pairs of 16-bit samples |
| IqDecoders.IqOnto | webApp/src/small_utility.c:223-265 | and loses nothing: the 1024 bytes are determined by the pairs |
| IqDecoders.IqPlaces | webApp/src/small_utility.c:223-265 | which four bytes each of the 256 pairs comes from |
| IqDecoders.PairExamples | webApp/src/dma_handler.c:554-592 | bytes and their pairs, starting with an I and with a Q byte, with the signs, and with a byte left over |

## Left out

Assumptions about the environment:

- The host is little-endian in the MD5 code, as in its default branch; `myNtohl`, whose source is not part of this model, is big-endian; plain `char` is unsigned, as on the ARM target.
- A frame declares a length of at least 4 (a length that overflows when the header is added is covered by `Frames.HeadroomIff`), and recv delivers at most 38960 bytes (40960 minus the 2000 in front). The call asks for 40960 bytes at offset 2000, so the latter is a promise of the sender.
- The leftover is copied with memcpy although the two places may overlap; the model takes it as a move.
- Live connfds are unique, a session's messages come while it is live, RSSI is opened at most once per session, an operation code is, in runs, 0 or 1, and no recording is restarted before the previous one of the same connfd has been CLEARed.
- In runs, a stop request comes from a user of the feature or while the feature has none: after any other one a freed node is in the list, and what the C program then does is undefined. `DmaHandler.Handler.StopCsiExternal` and `DmaHandler.StopByAnother` say what is at stake, and `EventLoop.Loop.DeleteUser` proves that a disconnect always complies.
- Allocation and queue creation succeed. In runs, the file of a CSI recording can be created; `CsiSaveModel.ControlSaveKeepsIff` says what happens otherwise. Creating the file of an RSSI recording may fail.
- Messages to the loop are delivered in the order they are posted; the priority level of `postMsgQueue` is not modelled, and neither are the thread pool and the mutexes, which appear as single steps.

Parts of the program:

- UserList.Users: the CSI and constellation user lists are modelled node by node, with their pointers. The session, RSSI and CSI recording lists, which use the same list functions, are fields of sequence type in `ServerSessions`, `RssiHandler` and `CsiSaveHandler`; so aliasing inside those three is not modelled.
- Receiver.Connection.Receive: a delivery of more than 38960 bytes, which the call allows, would leave the buffer; it is excluded, as is a header that declares less than 4.
- Receiver.Connection.ProcessRecvEvent: excludes the same deliveries.
- Receiver.Connection.AssembleFrameAndSend: a payload of more than 40952 bytes, which nothing checks, would leave the send buffer; it is excluded.
- EventModel.StepKeeps: the OpenWrt disconnect message has no step of its own, because it only posts the disconnect of that session; and the messages about system state, registers, DAC, distance, log, reset, statistics, IP and radio settings are left out, because they touch none of the modelled state.
- Frontend.OnFrame: names the reports, commands and settings and does not carry them out; the answers of the device, the "op_cmd" of a JSON text and whether a file can be created are inputs.
- EventLoop.Loop.Handle: handles the messages of the previous line's model, and no others.
- EventLoop.Loop.Serve: likewise.
- Md5Stream.GetMd5Sum: the C function runs off its end without a return value after success; the model reports success there.
- RssiModel.ClosedNodeFate: a node whose recording was allocated but never started has no thread to post its CLEAR, so after a close it is never freed; the lemma says so instead of claiming that every node is freed.
- TinyQueue.Queue.Pop: the condition variable is not modelled; a pop on an empty queue gives None, and the caller tries again. `tiny_queue_destory` is left out: it does not free the last node.
- IqDecoders.ParseIqFromNet: the pairs are integers, in units of 1/32768; the division is exact in the C code. The length is 1024, as its comment demands.
- IqDecoders.ConstellationIqPair.Process: the buffer is not empty, has a second byte if the first is a Q byte, and yields at most 10000 pairs, as its arrays demand.
- JSON requests of the wrong type, which the recording functions refuse: parsing is not modelled, the operation code is an input.
- The connection to the OpenWrt side, the display and reply JSON, cJSON, logging, link detection, timers, time setting, IP setting and register inquiries: calls into libraries or the system.
- The samples' way from the callbacks to the display, and the FFT, logarithm, square root and exponential applied to CSI: floating-point arithmetic.
- `rf_module.c`, the bit fields of `inquiry_reg_state`, and the ready flags of the system state: independent one-line steps.
- Sockets, epoll, eventfd, files and the mosquitto transport appear only as arbitrary inputs: results of recv, fread, fopen and axidma_start, and answers of the device.
