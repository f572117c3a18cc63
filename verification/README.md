# Salticidae: a verified model

Salticidae moves messages between threads and over sockets.  This project models, in Dafny, the parts of it
where correctness is hard to see, and proves what they promise for every input, every run and every
interleaving.

- **Lock-free block queue** (`FreeListMachine`, `QueueMachine`, `QueueInvariant`, `QueueProof`, `QueueSlots`,
  `QueueTheorems`, `QueueSafety`, `QueueCapacity`, `QueueSolo`, `QueueRefusal`).  Every atomic access of `FreeList`,
  `MPMCQueue::_enqueue`, `MPSCQueue::try_dequeue` and `MPSCQueue::rewind` is one step of one thread; steps of any number of threads
  interleave freely, and a weak compare-exchange may fail spuriously.  One invariant over blocks, reference
  counts, free flags, slots and history gives linearizability, FIFO, ABA safety and safe recycling.
  `BlockQueues` is the same queue used by one thread at a time, bounded or not, with its capacity bounds.
- **Wakeup and send readiness** (`Producers`, `Wakeup`, `SendReady`).  The `wait_sig`/eventfd handshake, and on
  top of it the `ready_send` flag and the WRITE interest of a socket.
- **Byte stream and framing** (`SegBuffers`, `Codec`, `Framing`, `Connections`, `EndToEnd`).  A connection is a
  class whose methods are `_send_data`, `_recv_data`, `on_read`, the retry timer and the event callbacks.  Two
  of them joined by a byte pipe give the end-to-end theorem.
- **Peers and connections** (`Handshake`, `Crossing`, `PeerRecord`, `Teardown`).  The ping/pong protocol of two
  nodes that dial each other any number of times, the hand-over of queued data and the heartbeat, and the life
  of pooled connections under any number of termination requests.
- **Reference counts and serialization** (`ArcCount`, `ArcLimits`, `Blobs`).

The kernel, timers, random numbers and the order of events are nondeterministic choices or parameters.  The checksum is an
arbitrary function of the payload.  Memory is sequentially consistent.  Opcodes are one byte.

Fields called auxiliary are written by steps and guard none of them; they record history for the statements.
For the queue, `QueueSafety.EveryStepIsTaken` shows that they never block a step.

## What turned out false

Each has a concrete run or input, beside the exact condition under which the property holds or fails.

- An empty segment in the send queue is taken for the end of the queue.  Writing a list of segments can strand some
  of them if and only if an empty one comes before another (`SendReady.StallsExactly`).  The same happens in
  `finish_handshake` (`PeerRecord.StrandedExactly`).
- A bounded `enqueue` can be refused far below the capacity set aside, even while the queue is empty
  (`QueueRefusal.RefusedWhileEmpty`): another producer has popped the spare block and not linked it yet.  Below the
  bound, in every run, some block is in a thread's hands or awaits a delayed push, or another producer has linked a
  block behind the one found full (`QueueCapacity.RefusedOnlyWhen`).  A producer whose call overlaps no other call
  is refused only at the bound (`QueueSolo.LoneProducerRefused`), and so is the queue used by one thread at a time
  (`BlockQueues.BlockQueue.Enqueue`).
- A connection can stop receiving for good.  When the receive buffer is full, `_recv_data` masks READ and returns
  without decoding, and only decoding unmasks it.  Messages whose bytes fill the buffer exactly are read and never
  delivered (`Connections.ReadNotDelivered`; `Connections.EmptyMessageNotDelivered` has one segment of 13 bytes and
  one empty message), and no later step of the worker changes that (`Connections.Conn.StuckForever`).
  `Connections.Conn.Work` says exactly which steps get a connection stuck.
  - A READ event does if and only if no message is held and the next answers of `recv` are full chunks until the
    buffer is full (`Connections.Conn.Event`).
  - The retry timer does if and only if the held message is accepted while READ is masked, and decoding then throws,
    or frees no segment, or the resumed read fills the buffer again (`Connections.Conn.PollTimer`).
- The dialler of a connection can commit to it alone when `conn_peer` redraws its nonce between Ping and Pong
  (`Handshake.RedrawnNonceDisagrees`; `Handshake.AloneExactly` says exactly when).
- Three places of the handshake can abort, and `Handshake.AssertsInEveryRun` says exactly when each does.
  - The assert at include/salticidae/network.h:1110 fails on a Pong for a connection that a later dial or conn_peer
    replaced, or that a finished handshake abandoned, while a newer dial is outstanding
    (`Handshake.SupersededPongAborts`, `Handshake.AbandonedPongAborts`).
  - The assert at line 837 fails when a replaced connection is torn down while the node is connected
    (`Handshake.ReplacedTeardownAborts`).  It never fails if nodes do not dial or call `conn_peer` between
    an earlier dial and the teardown of the connection it made (`Handshake.PatientTeardownsHold`).
  - The deferred Ping at lines 852-863 has lost its connection exactly if `conn_peer` came in between
    (`Handshake.PreemptThenReconnectCrashes`).
- The user can be told that a connection is down and then that it is up (`Teardown.LateRequestTellsTheEndFirst`).
  This happens exactly if the dispatcher deleted it on a request from before it had a worker, and the worker it was
  given in between led to a setup that succeeded (`Teardown.ConnPool.Run`).
- `_ARCCtl` is safe exactly up to 256 threads (`ArcCount.SafeIffAtMost256`), and even then only if no weak
  reference is made from a strong one while a `release_weak` without a strong reference of its own is between its
  decrement and its test (`ArcCount.CarelessWeakIsUnsafe`).  That is the weakest condition
  (`ArcLimits.AllowedIsWeakest`).
- `_ARCCtl` can leak its control block (`ArcCount.ControlBlockCanLeak`).  At rest it has been deleted exactly if the
  last release to end went out by the deleting branch (`ArcLimits.DeletedExactly`); releases that never overlap
  always delete it (`ArcLimits.NoOverlapDeletes`).
- `SegBuffer::move_pop` returns bytes already consumed, and breaks the size counter, exactly when the front
  segment was partly popped (`SegBuffers.SegBuffer.MovePop`).

Two more are visible in the model without being violations of a stated property: a message with a bad checksum
ends the decoding loop, so complete messages behind it wait for the next read; and an oversized header is consumed
while the state stays HEADER, and thrown from the retry timer it is not caught.

## Model

| member | source | states |
|---|---|---|
| FreeListMachine.StepKeepsInv | include/salticidae/queue.h:32-87 | every step of every thread keeps: the list from `top` is exactly the listed nodes, each node is listed, owned or awaiting a delayed push, and its reference count is its owner's reference plus the temporary ones |
| FreeListMachine.RunInv | include/salticidae/queue.h:32-87 | that invariant holds in every state of every run |
| FreeListMachine.PopsTakeTheFirst | include/salticidae/queue.h:69-80 | ABA safety in every run: a successful pop takes the first node and installs the node that follows it at that moment, however stale its reads |
| FreeListMachine.PopsAlternateWithPushes | include/salticidae/queue.h:50-87 | no node is handed out twice: between two pops of a node its owner pushed it back |
| FreeListMachine.OneOwner | include/salticidae/queue.h:50-87 | in every run no two threads own the same node, and an owned node is not on the list |
| FreeListMachine.ZeroIsNeverIncremented | include/salticidae/queue.h:62-67 | in every run a zero count rises only by the store that ends a push, when no reference exists |
| FreeListMachine.InserterIsAlone | include/salticidae/queue.h:32-48 | the thread inserting a node is the only one, and nobody holds a temporary reference on the node |
| FreeListMachine.NothingIsLost | include/salticidae/queue.h:32-87 | once all calls have returned, every node not owned is on the list, with count 1 |
| QueueTheorems.StepKeepsInv | include/salticidae/queue.h:110-289 | every step of every producer and of the consumer keeps the queue's invariant |
| QueueTheorems.RunInv | include/salticidae/queue.h:110-289 | the invariant holds in every state of every run from a queue with k spare blocks |
| QueueSafety.FifoInEveryRun | include/salticidae/queue.h:110-165 | without rewinds, what was dequeued is a prefix of what was accepted, in the order of the successful compare-exchange on a block's tail, and nothing is lost or taken twice |
| QueueSafety.DequeInEveryRun | include/salticidae/queue.h:244-289 | rewinds included, the events are a run of a double-ended sequence whose value is what the blocks hold; a failed dequeue happens only when it is empty; elements are conserved |
| QueueSafety.NoResetUnderAProducer | include/salticidae/queue.h:114-123 | in every run, while a block is reset no producer that saw it unfreed holds a reference on it, nobody else resets it and it is out of the chain |
| QueueSafety.WaitHasAWriter | include/salticidae/queue.h:259-261 | in every run, the consumer spins on a slot only while a producer is between reserving and publishing that very slot |
| QueueSafety.BoundedInEveryRun | include/salticidae/queue.h:186-189 | with k spare blocks and no rewinds never more than (k+1)*4096 elements are queued, in any interleaving |
| QueueCapacity.BlocksConserved | include/salticidae/queue.h:186-189 | in every run the blocks in the chain, on the list, in threads' hands and awaiting a delayed push are together the k + 1 of the beginning and those allocated by rewinds |
| QueueCapacity.EmptyIsEmpty | include/salticidae/queue.h:59-61 | a pop gives up only where the list is empty, so only then is a block allocated or an element refused |
| QueueCapacity.RefusedOnlyWhen | include/salticidae/queue.h:125-152 | the lower capacity bound in every run: a refusal with fewer than k blocks' worth queued has a block in some thread's hands or awaiting a push, or another block already linked behind the full one |
| QueueSolo.RunHands | include/salticidae/queue.h:125-160 | in every run a block in a thread's hands is one the thread has popped and is preparing or pushing back, or one the consumer is retiring |
| QueueSolo.LoneProducerRefused | include/salticidae/queue.h:125-152 | in every run a producer whose call has overlapped no other call is refused only with k blocks' worth of elements queued |
| QueueRefusal.RefusedWhileEmpty | include/salticidae/queue.h:129-137 | a run with one spare block in which a producer is refused while nothing is queued |
| QueueSafety.EveryStepIsTaken | include/salticidae/queue.h:110-289 | every step the code can take from a reachable state is a step of the machine |
| BlockQueues.BlockQueue.constructor | include/salticidae/queue.h:171-189 | an empty queue with max(capacity/4096, 1) spare blocks |
| BlockQueues.BlockQueue.Enqueue | include/salticidae/queue.h:110-165 | appends; an unbounded queue accepts; used by one thread, a bounded one refuses only while holding at least its spare blocks' worth of elements, even after rewinds, and never holds more than one block beyond them |
| BlockQueues.BlockQueue.TryDequeue | include/salticidae/queue.h:244-267 | removes the front, and fails exactly when empty, across used-up blocks, which are recycled clear |
| BlockQueues.BlockQueue.Rewind | include/salticidae/queue.h:269-289 | prepends, also to an empty queue and to a block with nothing before its head |
| BlockQueues.ChainSize | include/salticidae/queue.h:125-152 | a chain whose last block is full holds at least all its blocks but the first |
| Wakeup.StepKeepsInv | include/salticidae/event.h:612-642 | every step keeps track of who is responsible: while `wait_sig` is false a notification is on its way or being handled |
| Wakeup.NoLostWakeup | include/salticidae/event.h:612-642 | in every run a non-empty queue has its fd set, a producer about to notify, or a running consumer |
| Wakeup.QuietProducersMeanWake | include/salticidae/event.h:612-642 | once the producers have returned, a waiting consumer with queued items will be woken |
| SendReady.StepKeepsInv | src/conn.cpp:63-105 | every step of writers and worker keeps the send-side invariant |
| SendReady.NoStall | include/salticidae/conn.h:270-283 | while no empty segment is written before another, no run strands queued segments, and at rest WRITE interest is the negation of `ready_send` |
| SendReady.StallsExactly | src/conn.cpp:70-75 | for every list of writes: some run strands segments if and only if an empty one comes before another |
| SegBuffers.SegBuffer.Push | include/salticidae/buffer.h:81-84 | appends to the flat byte sequence, with the size counter right |
| SegBuffers.SegBuffer.Rewind | include/salticidae/buffer.h:76-79 | prepends to the flat byte sequence, with the size counter right |
| SegBuffers.SegBuffer.MovePop | include/salticidae/buffer.h:86-91 | returns the bytes next in line, and keeps the size counter, exactly if the front segment was not partly consumed |
| SegBuffers.SegBuffer.Pop | include/salticidae/buffer.h:93-108 | returns the first min(len, size) bytes and leaves the rest, across empty and partly consumed segments; without used-up segments in it, the buffer keeps exactly those segments that still have bytes |
| SegBuffers.LeftMore | include/salticidae/buffer.h:93-108 | popping in two parts leaves the same segments as popping at once |
| SegBuffers.FitsBound | src/conn.cpp:115-145 | segments of at most a chunk hold at most that many chunks of bytes |
| Codec.ParsePrint | include/salticidae/msg.h:98-118 | parsing a printed header gives it back |
| Codec.PrintParse | include/salticidae/msg.h:229-239 | printing a parsed header gives its bytes back, so no two headers share an encoding |
| Framing.FramesSplit | include/salticidae/network.h:657-694 | the messages of a byte string do not depend on how it is cut into segments |
| Framing.FramesOfStream | include/salticidae/network.h:657-694 | decoding the bytes of any list of well-formed messages gives exactly that list |
| Framing.FramesOfPrefix | include/salticidae/network.h:657-694 | decoding part of such bytes gives a prefix of the list |
| Connections.Conn.TakeHeader | include/salticidae/network.h:659-674 | consumes a header only when it is complete, keeps the account of received bytes, throws exactly on an oversized message |
| Connections.Conn.TakePayload | include/salticidae/network.h:675-693 | consumes a payload only when complete; drops it exactly on a checksum mismatch, else delivers it if the incoming queue has room and holds it for retry if not |
| Connections.Conn.Decode | include/salticidae/network.h:657-694 | the loop ends, also with empty payloads; delivered, held and still buffered messages stay those of the bytes received; how it ends, and which segments are left, is what the bytes buffered and the room in the incoming queue determine |
| Connections.Conn.OnRead | include/salticidae/network.h:650-703 | keeps that account and the interest flags, leaves nothing decodable behind unless the buffer filled up again, and does nothing while a message is held; with READ masked, it stays masked if and only if decoding throws, frees no segment, or the resumed read fills the buffer again |
| Connections.Conn.ReadChunks | src/conn.cpp:113-145 | moves bytes from the socket into the account without loss; it ends with the buffer full if and only if the answers of `recv` until then are all full chunks |
| Connections.FillsMeans | src/conn.cpp:115-145 | those answers are full chunks exactly if so many of them offer at least a chunk and so many chunks are waiting |
| Connections.Conn.RecvData | src/conn.cpp:107-149 | moves bytes from the socket into the account without loss, within the buffer's limit, and then decodes; short of termination READ interest stays the negation of `ready_recv`; it ends with READ masked and nothing to decode the buffer if and only if no message is held and the answers of `recv` fill the buffer |
| Connections.Conn.PollTimer | include/salticidae/network.h:137-150 | the held message is delivered once, then decoding goes on; without room it stays held with the timer armed; the connection gets stuck if and only if the message is accepted while READ is masked and the decoding and reading after it leave READ masked |
| Connections.Conn.Write | include/salticidae/conn.h:145-147 | an unbounded send buffer accepts; accepted data goes to the end |
| Connections.Conn.SendData | src/conn.cpp:63-105 | under any partial send, refusal or error the bytes sent followed by those queued are unchanged; without empty segments `ready_send` is set exactly when the queue was drained |
| Connections.Conn.QueueHandler | include/salticidae/conn.h:270-283 | sends only when ready, conserving bytes and interest flags |
| Connections.Conn.Event | include/salticidae/conn.h:289-299 | any socket event keeps both directions' accounts and, short of termination, READ/WRITE interest as the negation of the ready flags; a READ event gets the connection stuck if and only if no message is held and the answers of `recv` fill the buffer |
| Connections.Conn.ReceiveBounded | src/conn.cpp:115-145 | the receive buffer never exceeds its number of segments or that many chunks of bytes |
| EndToEnd.Channel.Run | src/conn.cpp:63-149 | in every run of two connected ends, with any partial sends, re-chunking, full queues and retries, the messages handed on are a prefix of those accepted by `write` |
| EndToEnd.Channel.InOrder | include/salticidae/network.h:650-703 | the message being retried included |
| EndToEnd.Channel.AllDelivered | include/salticidae/network.h:650-703 | once every byte written has arrived and the decoder waits for more, every accepted message has been handed on or is being retried |
| Connections.Conn.Work | include/salticidae/conn.h:270-299 | over any step of the worker bytes only move towards the socket or into the account, and the messages handed on are kept and only added to; exactly which steps get the connection stuck, and that a stuck one stays stuck |
| Connections.Conn.StuckForever | src/conn.cpp:117-124 | after any number of steps a stuck connection is still stuck and has received, decoded and delivered nothing more |
| Connections.ReadNotDelivered | src/conn.cpp:117-124 | good messages whose bytes fill the receive buffer exactly are all received and none is ever delivered |
| Connections.EmptyMessageNotDelivered | src/conn.cpp:117-124 | one segment of 13 bytes and one message without payload are enough |
| Handshake.StepKeepsInv | include/salticidae/network.h:784-1129 | every dispatcher step of either node keeps the invariant of records and connections |
| Handshake.DiallerAfterResponder | include/salticidae/network.h:1077-1129 | in every run, when the dialler commits with the nonce its Ping carried, the responder has committed to the same connection before |
| Handshake.AloneExactly | include/salticidae/network.h:995-1058 | in every run the dialler is committed alone exactly if its nonce fell below a nonce the Ping was not below, and the responder knew its address |
| Handshake.AssertsInEveryRun | include/salticidae/network.h:817-942 | in every run the asserts of the Ping handler and of finish_handshake hold, and the three others fail exactly under the conditions named above |
| Handshake.PatientReplacedTorn | include/salticidae/network.h:973-982 | in every run of nodes that do not dial or call conn_peer between an earlier dial and the teardown of its connection, every connection replaced has been torn down |
| Handshake.PatientTeardownsHold | include/salticidae/network.h:833-838 | in such a run the assert of every teardown that can happen holds |
| Handshake.AbandonedPongAborts | include/salticidae/network.h:914-918 | a run that fails the assert on a Pong although nothing was replaced |
| Handshake.RedrawnNonceDisagrees | include/salticidae/network.h:480-488 | a run in which the dialler commits to a connection the responder refused |
| Handshake.SupersededPongAborts | include/salticidae/network.h:1105-1112 | a run that fails the assert on a Pong |
| Handshake.ReplacedTeardownAborts | include/salticidae/network.h:835-840 | a run that fails the teardown assert |
| Handshake.PreemptThenReconnectCrashes | include/salticidae/network.h:852-863 | a run in which a deferred Ping has lost its connection |
| Crossing.SmallerNonceWins | include/salticidae/network.h:995-1129 | in every crossing round nobody commits to the connection of the larger nonce; at the end both are connected through that of the smaller nonce, and through neither on a tie |
| Crossing.RoundsDoNotAbort | include/salticidae/network.h:995-1129 | a pending message of a round can always be handled |
| PeerRecord.Peer.FinishHandshake | include/salticidae/network.h:909-942 | with an unbounded queue the chosen connection gets its earlier contents, a Ping, then the old segments up to the first empty one |
| PeerRecord.EarlyWritesSurvive | include/salticidae/network.h:1168-1188 | what is written to a new peer's placeholder reaches the first chosen connection, in order, behind its own queue and a Ping |
| PeerRecord.TransferConserves | include/salticidae/network.h:925-937 | without empty segments every queued byte survives in order, and the old queue is empty |
| PeerRecord.StrandedExactly | include/salticidae/network.h:930-935 | segments are left behind exactly when an empty one comes before another |
| PeerRecord.Peer.PingTimer | include/salticidae/network.h:898-906 | a fire sends a Ping exactly if the Pong was in, and keeps the join's account |
| PeerRecord.Peer.HeartbeatPong | include/salticidae/network.h:1136-1151 | a Pong sends a Ping exactly if the timer had fired, and keeps the join's account |
| PeerRecord.Peer.Beat | include/salticidae/network.h:883-906 | over any order of fires and Pongs, Pings never exceed one plus Pongs nor one plus fires, the flags are never both set, and the timer is armed whenever `ping_timer_ok` is false |
| PeerRecord.Peer.constructor | include/salticidae/network.h:1168-1188 | a new peer has an empty, terminated placeholder that takes early writes |
| Teardown.ConnPool.Run | src/conn.cpp:275-299 | in every run each connection is deleted at most once, only if asked for, and has been once nothing is pending; the user is told at most once up and at most once down, and down before up exactly in the case named above |
| Teardown.ConnPool.DelConn | src/conn.cpp:437-451 | the asserted entry is there and is the connection's own; it is erased, the user is told and the descriptor closed |
| Teardown.ConnPool.AddConn | src/conn.cpp:453-456 | the asserted absence holds for every descriptor the kernel is not already using |
| Teardown.ConnPool.DispTerminate | src/conn.cpp:288-299 | a request goes to the worker if there is one, else to the dispatcher, and keeps the invariant |
| Teardown.ConnPool.RunWorker | src/conn.cpp:275-284 | only the first request marks the connection and schedules its deletion |
| Teardown.LateRequestTellsTheEndFirst | src/conn.cpp:339-347 | a run in which the user is told down, then up |
| ArcCount.StepKeepsInv | include/salticidae/ref.h:179-201 | every step of at most 256 threads keeps the counters' invariant |
| ArcCount.CarefulIsSafe | include/salticidae/ref.h:179-201 | no step touches the control block after its deletion, and it is deleted at most once |
| ArcCount.ObjectDeletedOnce | include/salticidae/ref.h:364-367 | the object is never deleted while a strong reference exists, and exactly once when all are gone |
| ArcCount.SafeIffAtMost256 | include/salticidae/ref.h:182-193 | everything n threads reach is safe if and only if n is at most 256 |
| ArcCount.CarelessWeakIsUnsafe | include/salticidae/ref.h:194-199 | a run of two threads that uses the control block after its deletion |
| ArcCount.ControlBlockCanLeak | include/salticidae/ref.h:186-193 | a run after which no reference exists and the control block was not deleted |
| ArcLimits.DeletedExactly | include/salticidae/ref.h:185-201 | at rest, in every careful run, the control block has been deleted if and only if the last release to end went out by the deleting branch |
| ArcLimits.NoOverlapDeletes | include/salticidae/ref.h:185-201 | releases that never overlap delete the control block exactly when the last reference is gone |
| ArcLimits.AllowedIsWeakest | include/salticidae/ref.h:194-199 | a weak reference may be made from a strong one if and only if everything reached with care afterwards is safe |
| Blobs.Blob.Load | include/salticidae/stream.h:253-264 | the words are the little-endian values of their bytes, for every word size and number of words |
| Blobs.Blob.Serialize | include/salticidae/stream.h:287-298 | writes the words, or as many zeros if nothing was loaded |
| Blobs.Blob.Unserialize | include/salticidae/stream.h:300-308 | fails exactly if the stream is too short; else what was read, followed by what is left, is what was there |
| Blobs.FromTo | include/salticidae/stream.h:253-298 | writing the words read from bytes gives the bytes back |
| Blobs.ToFrom | include/salticidae/stream.h:287-308 | reading the written words gives the words back, whatever follows |
| Blobs.Blob.Less | include/salticidae/stream.h:278-283 | decides numeric order |
| Blobs.Blob.Equal | include/salticidae/stream.h:267-272 | decides numeric equality |
| Blobs.ValueInjective | include/salticidae/stream.h:267-283 | different words stand for different numbers, so the order is strict and total |
| Blobs.ValueIsNum | include/salticidae/stream.h:253-283 | the number compared is the little-endian number of the bytes loaded |
| Blobs.DataStream.Get | include/salticidae/stream.h:138-148 | fails exactly when too few bytes are left, changing nothing; else inverts Put |
| Blobs.ParseHashList | include/salticidae/msg.h:248-258 | fails exactly when the list is cut short; else stops right after it |
| Blobs.HashListRoundTrip | include/salticidae/msg.h:241-258 | parse_hash_list inverts gen_hash_list for every list shorter than 2^32 and leaves exactly what followed |

## Left out

- Unbounded `_enqueue` by several threads: a fresh block is open before its `freed` is stored, so that store can come after the block was recycled, and the invariant that a block outside the chain is marked does not cover it; the concurrent theorems are for bounded producers.
- MPMC `try_dequeue` and `MPMCQueueEventDriven`: they do not recheck `head` or `freed`, and no order follows from the code.
- BlockQueues.BlockQueue.TryDequeue: the chain is kept as a sequence in link order; the links themselves are modelled in the concurrent machine.
- Wakeup.NoLostWakeup: the queue is a counter there, each operation on it one step; its own steps are those of the concurrent machine.
- Connections.Conn.Write: the send queue is a sequence of segments, and whether a bounded one accepts is not determined.
- Connections.Conn.Work: which events and timers come, and when, is not modelled; what is stated is what each step leaves undecoded and whether the connection is stuck.
- EndToEnd.Channel.Run: both ends share max_msg_size and checksum; messages are those send_msg builds, within max_msg_size and below 2^32 bytes.
- PeerRecord.Peer.FinishHandshake: with a bounded send buffer a refused write loses its segment, as in the source, and nothing is claimed.
- Handshake.StepKeepsInv: peer addresses do not change, manual connections and del_peer are absent, and pending_peers is not tracked.
- Teardown.ConnPool.Run: stop_workers, which repeats teardown without consulting `terminated`, and TLS.
- Retry counts and preemption liveness of PeerNetwork, which the code does not guarantee.
- Weak memory orders, block destructors and integer overflow of reference counts other than `dcnt`.
- Sockets, libuv, eventfd internals, TLS, X509, the SHA classes, `NetAddr` text, configuration, logging, `ClientNetwork`, the C bindings and `_Bits`.
