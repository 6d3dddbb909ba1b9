# http-pipe in Dafny

http-pipe carries a byte stream from the standard input of one machine to
the standard output of another through an HTTP relay. Here is what each
part does:

- **The sending client** (`send`).
  - It announces its worker count with a PUT carrying a RESET header.
  - It cuts its input into numbered packets of about 1 MiB.
  - It deals the packets round-robin to four upload workers.
  - Each upload worker PUTs its packets in order, with INDEX and WORKER headers, and retries each one until the server takes it.
  - An empty packet marks the end of the stream.
- **The server** keeps one connection (`Conn`) per URL path.
  - A connection has one channel per worker, each with room for one packet.
  - A reassembly task visits the channels in turn, pushes the packets in index order into a bounded queue of 16 slots, and stops after the empty packet.
  - The GET handler applies an optional ACK (it removes that packet from the queue), then waits for the packet of the requested INDEX and answers with its body.
- **The receiving client** (`receive`).
  - Four fetch workers GET the indices `w, w+4, w+8, ...`. Each retries a failed GET and acknowledges the previous packet on its next GET.
  - Each one forwards the bodies to its own channel and stops at an empty body.
  - The output loop takes the channels in turn, writes each body, and stops at the first closed channel.

The model has one module per source file, plus two more:

- **`Common`** (`common.dfy`): bytes, packets, status codes, and the round-robin lane arithmetic.
- **`ServerQueue`** (`queue.dfy`): the queue, as a class over its slots.
- **`Server`** (`server.dfy`):
  - the connection, as a class whose methods are the reassembly task's steps;
  - the handlers, as decision functions over the headers;
  - the path map.
- **`ClientSender`** (`sender.dfy`): the packetising loop and the upload worker.
- **`ClientReceiver`** (`receiver.dfy`): the fetch worker and the output loop.
- **`Pipeline`** (`pipeline.dfy`): lemmas that connect the three parts end to end.

Each loop of the clients is a `method` with a `while` loop. The method is proved equal to a recursive function of its inputs: `Fill`/`Payloads`/`Dealt` for the sender, `Uploads` for the upload worker, `Fetches` for the fetch worker, `Merge` for the output loop. The properties are then lemmas about those functions.

The server's reassembly loop (`Conn.Pump`, whose loop is `Conn.Run`) is not proved equal to a function: it waits on the other tasks, so how far it gets depends on what has been sent. Each of its turns is proved equal to one step of the functions `Receive` and `AfterPush`. The loop is proved to keep the connection invariant `RelayOk`, which includes that no packet sent into a channel is lost: while the task runs, each one is still in its channel, is the held one, or is numbered below the next index (pushed, or dropped as a stale duplicate). It is also proved to report why it stopped or waits, and to push a held packet when the queue has room.

Inputs from outside become parameters:

- standard input: the sequence of successive read results;
- the answers to a worker's HTTP requests: a sequence of outcomes;
- the channels the output loop reads: their final contents.

When such a sequence runs out, the loop is still waiting or retrying. The server's concurrency becomes explicit steps of the connection class:

- `Conn.Send` is one `send` on a channel.
- `Conn.Pump` runs the reassembly task until it has to wait or ends.

## Model

| member | source | states |
|---|---|---|
| Common.Lane | src/client/sender.rs:95-124 | the sender a packet index falls to when `for s in &mut senders` takes the senders in turn while `index` counts up: always one of the `n` |
| Common.LaneIsMod | src/client/sender.rs:95-124 | that sender is the index modulo `n` |
| Common.LaneSuccessor | src/client/sender.rs:95-124 | the next index falls to the next sender, wrapping after the last |
| Common.LaneBase | src/client/sender.rs:95-124 | stepping back from an index by its lane reaches an index of sender 0, where a round starts |
| ServerQueue.Queue.constructor | src/server/queue.rs:20-28 | a new queue is empty and has the given capacity |
| ServerQueue.Queue.Push | src/server/queue.rs:50-62 | it appends the packet exactly when there is room; otherwise it pends and leaves the queue unchanged |
| ServerQueue.Queue.Get | src/server/queue.rs:64-83 | it pends on an empty queue and on an index beyond the back; it reports `None` below the front; otherwise it yields the slot of that index; it changes nothing |
| ServerQueue.Queue.Remove | src/server/queue.rs:93-109 | it returns early on an empty queue or an index below the front; it panics past the back; otherwise it punches the slot and pops every leading hole (the loop is proved against `AfterRemove`), so the front is never a hole |
| ServerQueue.DropLeadingHoles | src/server/queue.rs:104-106 | the result is a suffix with no hole in front, and only holes were dropped |
| ServerQueue.Lookup | src/server/queue.rs:64-83 | what one poll of `get(i)` sees: an empty queue pends, and a packet it yields is one held in the queue (its cases on a contiguous queue are `LookupContiguous`) |
| ServerQueue.AfterRemove | src/server/queue.rs:93-109 | the queue after a `remove(i)` that neither returns early nor panics: a suffix of the queue with slot `i` punched, never longer, with no hole in front |
| ServerQueue.LookupContiguous | src/server/queue.rs:64-83 | on a contiguous queue, `get(i)` pends at or beyond the next index, reports gone below the front, and otherwise yields the slot numbered `i` |
| ServerQueue.DropLeadingHolesContiguous | src/server/queue.rs:104-106 | popping leading holes keeps every slot at its index |
| ServerQueue.RemoveContiguous | src/server/queue.rs:93-107 | `remove` keeps the queue contiguous, never leaves a hole in front, and never grows it |
| ServerQueue.RemoveBelowNextInBounds | src/server/queue.rs:96-102 | on a contiguous non-empty queue, `remove(i)` panics exactly when `i` is at or beyond the next index (an empty queue returns early instead) |
| ServerQueue.RemoveFrontFrees | src/server/queue.rs:100-108 | acknowledging the front packet frees at least one slot |
| ServerQueue.RemoveIdempotent | src/server/queue.rs:93-107 | removing the same index twice changes nothing the second time |
| Server.Conn.constructor | src/server/server.rs:27-38 | `n` empty open channels, an empty queue of capacity 16, and the reassembly task at index 0 |
| Server.Conn.Close | src/server/server.rs:86-89 | dropping the senders closes the channels and changes nothing else |
| Server.Conn.Send | src/server/server.rs:119-124 | `send` is refused exactly when the reassembly task has ended; it parks exactly while the one-slot channel is full; otherwise the packet is appended to that channel |
| Server.Conn.Pump | src/server/server.rs:40-66 | the reassembly task keeps the invariant, so no packet sent is lost and the queue grows by exactly the packets pushed, in order. It stops exactly when it has ended, and with the reason it ended with; a failed index assertion names the index of a packet sent on the current channel, above the next index. It waits only on an empty open channel (the one it is on) or on a full queue with a packet in hand, and it spins exactly when it was running with no channels. A closed channel ends it only once that channel is drained. A held packet is pushed when the queue has room. A task that had already ended reports its old reason and pushes nothing |
| Server.Conn.Run | src/server/server.rs:40-66 | the running loop: the same promises as `Pump`, for a task that is running with at least one channel, and it never spins |
| Server.Conn.Turn | src/server/server.rs:43-64 | one turn with nothing in hand is exactly one step of `Receive` and changes neither the queue nor the history. With a packet in hand, it waits exactly when the queue is full and then changes nothing. Otherwise it appends the packet to the queue and to the pushed history, the relay becomes `AfterPush` of the old one, and it stops exactly on the empty packet. A turn that goes on leaves less work in hand |
| Server.Conn.PushHeld | src/server/server.rs:51-58 | the push half of a turn: the packet in hand is pushed exactly when the queue has room, the relay becomes `AfterPush` of the old one, and the task ends exactly after the empty packet |
| Server.Conn.ReceiveNext | src/server/server.rs:43-62 | the receive half of a turn: the relay and the outcome are exactly `Receive` of the old relay, and the queue and history are unchanged |
| Server.Receive | src/server/server.rs:44-63 | it waits on an empty open channel and ends on a closed one; it drops a stale packet; it ends, naming the index it got, on an index above the expected one; otherwise it holds the packet |
| Server.AfterPush | src/server/server.rs:52-60 | after a push the index advances; the reassembly task ends after an empty packet and otherwise moves to the next channel |
| Server.ReceiveOk | src/server/server.rs:44-63 | a receive keeps the connection invariant, and a turn that goes on leaves less work in hand |
| Server.AfterPushOk | src/server/server.rs:52-60 | a push keeps the invariant: the queue mirrors the pushed stream, which is numbered and ends at its first empty packet |
| Server.DeliverOk | src/server/server.rs:119-124 | a packet sent into a channel with room keeps the invariant |
| Server.UnlostDeliver | src/server/server.rs:119-124 | a packet sent into a channel is still waiting there, so no sent packet is lost |
| Server.UnlostPush | src/server/server.rs:51-53 | pushing the held packet moves the expected index past it, so it is not lost |
| Server.UnlostReceive | src/server/server.rs:43-48 | taking a packet off a channel holds it or drops it as stale, so no packet that is still due is lost |
| Server.StillBuffered | src/server/server.rs:43-48 | a sent packet that is still due and not held is in its channel, at the position it was sent to |
| Server.RelayFaithful | src/server/server.rs:40-66 | if each channel only carries packets of a stream `P`, then what the reassembly task pushed is exactly a prefix of `P`, packet `k` at position `k` |
| Server.LookupMirrors | src/server/server.rs:170-176 | a GET for an index not pushed yet waits, and a packet served for index `i` is the `i`-th one pushed |
| Server.RemoveMirrors | src/server/server.rs:157-160 | an ACK keeps the queue a mirror of the pushed stream |
| Server.DecidePut | src/server/server.rs:83-117 | each branch of the PUT handler. RESET installs a connection. A missing WORKER, or a missing INDEX, gives 400. An unknown path gives 412. A header that does not parse, or a failed body, gives 500. An out-of-range worker panics. Otherwise the packet goes to that worker's channel |
| Server.DecideGet | src/server/server.rs:151-166 | an unknown path gives 412; an ACK header that does not parse gives 500; otherwise the ACK (if any) is applied, and INDEX missing gives 400, unparsable gives 500, present fetches that index |
| Server.FetchResponse | src/server/server.rs:170-176 | pending parks, an acknowledged packet gives 410, and a packet gives 200 with its body |
| Server.AppState.Put | src/server/server.rs:73-138 | the PUT handler answers as `DecidePut` decides. RESET binds the path to a fresh connection with `n` open empty channels, an empty queue and the reassembly task at packet 0, after closing the old one. A forwarded PUT answered 200 appended the packet to its worker's channel and to the history; it is parked exactly while that channel is full and gets 500 exactly when the task has ended. Any answer other than 200 leaves the path's connection as it was. Every other path keeps its connection, channels, history and queue |
| Server.AppState.Install | src/server/server.rs:83-92 | RESET binds the path to a fresh connection of `n` open, empty channels, an empty queue and the reassembly task waiting for packet 0 on channel 0, after closing the channels of the one it replaces; every other path is untouched |
| Server.AppState.Bind | src/server/server.rs:89 | binding a fresh connection (open empty channels, empty queue, task at packet 0) changes only that path's entry and keeps every connection's invariant |
| Server.AppState.Retire | src/server/server.rs:86-89 | the replaced connection's channels are closed and its history is unchanged; every other path is untouched |
| Server.SendAnswer | src/server/server.rs:119-137 | the answer to a PUT's send: 200 exactly when the channel took the packet, parked exactly while it is full, 500 exactly when the reassembly task has ended |
| Server.AppState.Forward | src/server/server.rs:119-137 | 200 when the channel took the packet (appended to that channel and to the history), 500 exactly when the reassembly task has ended, parked exactly while the channel is full; a 500 or a park leaves the connection unchanged, and every other path is untouched |
| Server.AppState.Get | src/server/server.rs:140-186 | the GET handler applies the ACK before looking at INDEX. An ACK past the back panics. An early-return ACK leaves the queue alone. An answer given before the ACK is applied (412, or a malformed ACK) leaves the queue unchanged. The answer for an index is what `get` serves from the mirrored stream |
| Server.AppState.Acknowledge | src/server/server.rs:157-160 | `remove(ack)` on the path's queue, with its three outcomes |
| Server.AppState.Fetch | src/server/server.rs:170-176 | one poll of `get(index)` answers with the `index`-th pushed packet's body or waits |
| ClientSender.Fill | src/client/sender.rs:108-116 | the inner read loop stops with at least 1 MiB, or at end of input; unless it hits end of input, it takes at least one read when it starts short; a packet already at 1 MiB takes no read |
| ClientSender.FillPacket | src/client/sender.rs:97-116 | one run of the read loop yields exactly the next packet of `Payloads` and where the reads resume |
| ClientSender.Payloads | src/client/sender.rs:95-125 | the packets the loop cuts from the input, in index order; there is at least one (properties in `PayloadsFlatten` and `PayloadSizes`) |
| ClientSender.Dealt | src/client/sender.rs:95-125 | everything `send` hands off: the packets, then the empty packet after end of input, so it always ends with an empty packet |
| ClientSender.Send | src/client/sender.rs:84-125 | `send` makes the RESET for 4 workers, then hands packet `k` (numbered `k`) to worker `k mod 4`, for every packet of `Dealt(chunks)` in order |
| ClientSender.HandOff | src/client/sender.rs:118-123 | handing the next packet to the next worker extends the hand-off record by exactly one |
| ClientSender.FillFlatten | src/client/sender.rs:108-116 | a packet is exactly the concatenation of the reads it used |
| ClientSender.FillEofAtEnd | src/client/sender.rs:110-113 | with non-empty reads, end of input is seen only once every read is used |
| ClientSender.PayloadsFlatten | src/client/sender.rs:95-125 | the packets, concatenated, are exactly the input |
| ClientSender.DealtFlatten | src/client/sender.rs:95-125 | what `send` hands off, concatenated, is exactly the input |
| ClientSender.FillBounded | src/client/sender.rs:108-116 | a packet never exceeds 1 MiB plus one read |
| ClientSender.PayloadSizes | src/client/sender.rs:108-116 | every packet but the last has at least 1 MiB, and none has 1 MiB plus 64 KiB or more |
| ClientSender.SpareEmptyPacket | src/client/sender.rs:99-106 | as written, when the packet that saw end of input is empty, two empty packets are handed off; an empty input gives `[[], []]` |
| ClientSender.Terminated | src/client/sender.rs:99-106 | the corrected stream: the packets with exactly one empty packet at the end (properties in `TerminatedOnce`) |
| ClientSender.TerminatedOnce | src/client/sender.rs:95-125 | the corrected stream ends with its only empty packet, spells out the input, and is a prefix of what `send` hands off |
| ClientSender.Uploader.constructor | src/client/sender.rs:24-36 | a worker with its number and its first client |
| ClientSender.Uploader.Send | src/client/sender.rs:52-70 | one PUT of the packet with INDEX and WORKER; it succeeds exactly on a 2xx status; only a failure status replaces the client |
| ClientSender.Uploader.Run | src/client/sender.rs:38-50 | the worker's run is exactly `Uploads` of its packets and answers |
| ClientSender.Uploads | src/client/sender.rs:38-50 | the retry loop of an upload worker as a function of its packets and answers: never more packets accepted than given, one PUT per answer at most |
| ClientSender.UploadsCount | src/client/sender.rs:38-50 | one packet accepted per success, one client per failure status; the run stops only when packets or answers run out |
| ClientSender.UploadsAt | src/client/sender.rs:38-50 | the PUT after `t` answers carries the first packet not yet accepted, on the current client |
| ClientSender.UploadsInOrder | src/client/sender.rs:38-70 | each packet is retried until accepted, and the packets go out in channel order |
| ClientReceiver.Verdict | src/client/receiver.rs:76-81 | a body is returned exactly on a 2xx answer, and it is that answer's body |
| ClientReceiver.Fetches | src/client/receiver.rs:38-65 | a run uses at most the answers given, and all of them unless it ended |
| ClientReceiver.FetchSchedule | src/client/receiver.rs:38-65 | the first GET carries the initial ACK and index. After a delivery, the next GET acknowledges the index just received and asks for the one 4 further on. After any other answer, the GET is repeated unchanged |
| ClientReceiver.FetchResult | src/client/receiver.rs:38-65 | the worker forwards exactly the delivered bodies, in order, and ends up that many strides on. It ends exactly on a success with an empty body, which it does not forward |
| ClientReceiver.StrideIsProduct | src/client/receiver.rs:49 | `c` strides of `n` from `index` reach `index + c*n` |
| ClientReceiver.Downloader.constructor | src/client/receiver.rs:23-36 | a worker at its starting index with its stride |
| ClientReceiver.Downloader.Receive | src/client/receiver.rs:67-82 | the GET carries the ACK if any and the current index; it yields a body exactly on a 2xx answer; it changes nothing |
| ClientReceiver.Downloader.Run | src/client/receiver.rs:38-65 | the worker's run is exactly `Fetches` from its index with no ACK |
| ClientReceiver.RoundFrom | src/client/receiver.rs:98-104 | a round that does not stop found a body on every remaining channel |
| ClientReceiver.Drain | src/client/receiver.rs:97-105 | the output loop writes exactly what `Merge` says and stops where it says |
| ClientReceiver.Merge | src/client/receiver.rs:97-105 | what the output loop writes from round `j` on and where it stops; every body written was on one of the channels |
| ClientReceiver.FullRound | src/client/receiver.rs:97-105 | a round that finds every lane's packet writes them in index order and goes on |
| ClientReceiver.LastRound | src/client/receiver.rs:97-105 | the round that passes the end writes the rest and stops at the lane after the last packet |
| ClientReceiver.MergeColumns | src/client/receiver.rs:97-105 | taking the lanes of a round-robin deal in turn writes the original sequence back in order |
| ClientReceiver.FetchServed | src/client/receiver.rs:38-65 | fed by a server that holds the whole stream, worker `w` forwards exactly its column and ends exactly when its indices reach the empty packet |
| Pipeline.DealtToStream | src/client/sender.rs:118-123 | a packet handed to worker `w` is packet `k` of the dealt stream, for some `k` with `k mod 4 == w` |
| Pipeline.UploadsCarry | src/client/sender.rs:52-61 | every PUT of an upload worker names that worker and carries one of its channel's packets |
| Pipeline.PutForwards | src/server/server.rs:96-124 | such a PUT is forwarded to the named worker's channel with its packet, or panics when RESET announced fewer workers |
| Pipeline.DealtFromStream | src/server/server.rs:108-124 | when each server channel holds only packets handed to that worker, every packet on them belongs to the dealt stream |
| Pipeline.ServerReassembles | src/server/server.rs:40-66 | whatever state a connection fed by `send` is in, the reassembly task has pushed a prefix of the corrected stream; it has ended after the empty packet exactly when it has pushed all of it |
| Pipeline.SpareNeverPushed | src/client/sender.rs:99-106 | the spare empty packet is never pushed: by the time every other packet is pushed, the reassembly task has ended |
| Pipeline.RefusedForever | src/client/sender.rs:38-50 | answered 500 every time, an upload worker resends the same packet, on a fresh client, forever |
| Pipeline.ReceiverWrites | src/client/receiver.rs:97-105 | served from a stream whose only empty packet is its last, the output loop writes every other packet in index order and stops at a closed channel |
| Pipeline.EndToEnd | src/client/receiver.rs:85-105 | the receiving client writes exactly the bytes the sending client read |

## Left out

- Concurrency and timing are not modelled. Tokio tasks, wakers, `poll_fn` and the mutexes become explicit steps, and a poll that would park returns `Pending`/`Parked`. The interleaving of the workers, the server task and the handlers is left to whoever calls the steps. Lock poisoning (`unwrap` on a lock) is out with it.
- `delay_for` between retries is not modelled: a retry is just the next answer in the sequence.
- The fetch worker's `panic!` when the output loop has dropped its channel is not modelled, and neither is the blocking `send` into that channel. A channel is modelled only by its final contents.
- The output loop's wait on an open, drained channel is the `Waiting` halt; the loop does not block in the model.
- The closing loop of `receive` is not modelled. It sends one GET with RESET 0, retrying until any answer arrives; no data moves.
- Read and write errors on standard input and output, and `?` on the initial RESET PUT, are not modelled. The reads are a sequence, and running out of it counts as end of input.
- The server is fed its HTTP requests as header values after `to_str()?.parse()?`. actix routing, body streaming and reqwest plumbing are left out, and a failed parse is the `Malformed` header value.
- `debug_assert!(packet.index == index)` is modelled as a debug build would run it: the reassembly task ends. A release build pushes the packet anyway.
- Integers are unbounded: `usize`/`u64` overflow of indices is not modelled.
- `src/client/client.rs`, `src/main.rs`, `src/client/mod.rs`, `src/common/log.rs` and the server's `main` are not part of this model. They hold argument parsing, logging and server start-up.
- Pipeline.DealtFromStream: it takes as a hypothesis that each server channel holds only packets PUT by the matching worker. `UploadsCarry` and `PutForwards` give the two halves of that, but the network between them is not modelled.
- Pipeline.EndToEnd: it assumes a server that already holds the whole stream and answers every GET at once. A GET answered while the packet is still in flight is a retry in `Fetches` and is not composed here.

## Findings

| source | as written | input that shows it | evidently intended | confidence | as-written member | corrected member |
|---|---|---|---|---|---|---|
| src/client/sender.rs:99-106 | `send` hands off one more empty packet after the packet that saw end of input, even when that packet was itself empty. The server task stops at the first empty packet (src/server/server.rs:52-57) and drops its channels. The spare PUT is then answered 500 (src/server/server.rs:119-137), and the upload worker retries it forever (src/client/sender.rs:38-50), so `send` never returns | an empty input, or one that ends exactly at a packet boundary (1 MiB); an empty input hands off `[[], []]` | end the stream with a single empty packet | low, not executed; racy: the spare PUT succeeds if it reaches the channel before the reassembly task ends | ClientSender.SpareEmptyPacket | ClientSender.TerminatedOnce |
