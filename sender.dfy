/** The sending client: it cuts standard input into numbered packets, deals
    packet `k` to upload worker `k mod WORKER_NUM`, and each worker PUTs its
    packets, one at a time and in order, retrying each until the server
    answers with a success status. */
module ClientSender {
  import opened Common

  const WORKER_NUM: nat := 4
  /** A packet is closed once it holds at least this many bytes. */
  const PACKET_SIZE: nat := 1048576
  /** The read buffer: one read returns at most this many bytes. */
  const BUFFER_SIZE: nat := 65536

  // ---------------------------------------------------------------------------
  // Packetising, as values
  // ---------------------------------------------------------------------------

  /** What reads of standard input return before end of input: at least one
      byte each (a read of zero bytes is end of input) and at most a buffer. */
  predicate ReadsOk(chunks: seq<Bytes>) {
    forall i :: 0 <= i < |chunks| ==> 0 < |chunks[i]| <= BUFFER_SIZE
  }

  /** One run of the inner `while bytes.len() < PACKET_SIZE` loop: the packet
      it built, how many reads it took, and whether a read returned nothing. */
  datatype Filling = Filling(packet: Bytes, used: nat, eof: bool)

  /** Grow `acc` with further reads until it reaches `PACKET_SIZE` bytes or a
      read returns nothing; running out of `chunks` is end of input too. */
  function Fill(acc: Bytes, chunks: seq<Bytes>): (f: Filling)
    ensures f.used <= |chunks|
    ensures !f.eof ==> |f.packet| >= PACKET_SIZE
    ensures |acc| < PACKET_SIZE && !f.eof ==> f.used > 0
    ensures |acc| >= PACKET_SIZE ==> f == Filling(acc, 0, false)
    decreases |chunks|
  {
    if |acc| >= PACKET_SIZE then Filling(acc, 0, false)
    else if chunks == [] then Filling(acc, 0, true)
    else if chunks[0] == [] then Filling(acc, 1, true)
    else
      var f := Fill(acc + chunks[0], chunks[1..]);
      f.(used := f.used + 1)
  }

  /** The data of the packets built from the input, in index order, up to and
      including the one during which end of input was seen. */
  function Payloads(chunks: seq<Bytes>): (ps: seq<Bytes>)
    ensures |ps| > 0
    decreases |chunks|
  {
    var f := Fill([], chunks);
    if f.eof then [f.packet] else [f.packet] + Payloads(chunks[f.used..])
  }

  /** Every packet the client hands to its workers, in index order: after the
      packet that saw end of input, the next worker gets one more, empty. */
  function Dealt(chunks: seq<Bytes>): (ds: seq<Bytes>)
    ensures |ds| >= 2 && ds[|ds| - 1] == []
  {
    Payloads(chunks) + [[]]
  }

  /** What `send` does, in order: the RESET request announcing the number of
      workers, then one hand-off of a packet to a worker's channel. */
  datatype Action = Reset(workers: nat) | Deal(worker: nat, packet: Packet)

  /** `actions` are the RESET followed by the hand-off of each packet of
      `ds` in index order: packet `k` is numbered `k` and goes to worker
      `k mod WORKER_NUM`. */
  predicate HandedOff(actions: seq<Action>, ds: seq<Bytes>) {
    && |actions| == |ds| + 1 && actions[0] == Reset(WORKER_NUM)
    && forall k :: 0 <= k < |ds| ==> actions[k + 1] == Deal(Lane(k, WORKER_NUM), Packet(k, ds[k]))
  }

  lemma HandOff(actions: seq<Action>, ds: seq<Bytes>, x: Bytes)
    requires HandedOff(actions, ds)
    ensures HandedOff(actions + [Deal(Lane(|ds|, WORKER_NUM), Packet(|ds|, x))], ds + [x])
  {
    var a', d' := actions + [Deal(Lane(|ds|, WORKER_NUM), Packet(|ds|, x))], ds + [x];
    forall k | 0 <= k < |d'|
      ensures a'[k + 1] == Deal(Lane(k, WORKER_NUM), Packet(k, d'[k]))
    {
      if k < |ds| {
        assert a'[k + 1] == actions[k + 1] && d'[k] == ds[k];
      }
    }
  }

  /** Filling consumes a prefix of the reads and appends its bytes. */
  lemma {:induction false} FillFlatten(acc: Bytes, chunks: seq<Bytes>)
    ensures Fill(acc, chunks).packet == acc + Flatten(chunks[..Fill(acc, chunks).used])
    decreases |chunks|
  {
    if |acc| >= PACKET_SIZE {
      assert chunks[..0] == [];
    } else if chunks == [] {
    } else if chunks[0] == [] {
      assert chunks[..1] == [[]];
    } else {
      var c, rest := chunks[0], chunks[1..];
      var g := Fill(acc + c, rest);
      FillFlatten(acc + c, rest);
      assert chunks[..g.used + 1] == [c] + rest[..g.used];
      FlattenCons(c, rest[..g.used]);
      assert (acc + c) + Flatten(rest[..g.used]) == acc + (c + Flatten(rest[..g.used]));
    }
  }

  /** On well-formed reads a packet ends at end of input only once every read
      has been taken. */
  lemma {:induction false} FillEofAtEnd(acc: Bytes, chunks: seq<Bytes>)
    requires ReadsOk(chunks)
    ensures Fill(acc, chunks).eof ==> Fill(acc, chunks).used == |chunks|
    decreases |chunks|
  {
    if |acc| < PACKET_SIZE && chunks != [] {
      FillEofAtEnd(acc + chunks[0], chunks[1..]);
    }
  }

  /** The packets, written one after another, are exactly the input. */
  lemma {:induction false} PayloadsFlatten(chunks: seq<Bytes>)
    requires ReadsOk(chunks)
    ensures Flatten(Payloads(chunks)) == Flatten(chunks)
    decreases |chunks|
  {
    var f := Fill([], chunks);
    var rest := chunks[f.used..];
    FillFlatten([], chunks);
    FillEofAtEnd([], chunks);
    assert chunks == chunks[..f.used] + rest;
    FlattenAppend(chunks[..f.used], rest);
    if !f.eof {
      PayloadsFlatten(rest);
      FlattenCons(f.packet, Payloads(rest));
    } else {
      assert rest == [];
    }
  }

  /** The extra packet after end of input carries no data, so the whole
      stream of packets still spells out the input. */
  lemma DealtFlatten(chunks: seq<Bytes>)
    requires ReadsOk(chunks)
    ensures Flatten(Dealt(chunks)) == Flatten(chunks)
  {
    PayloadsFlatten(chunks);
    FlattenAppend(Payloads(chunks), [[]]);
  }

  /** A packet never grows past one read beyond `PACKET_SIZE`. */
  lemma {:induction false} FillBounded(acc: Bytes, chunks: seq<Bytes>)
    requires ReadsOk(chunks) && |acc| < PACKET_SIZE + BUFFER_SIZE
    ensures |Fill(acc, chunks).packet| < PACKET_SIZE + BUFFER_SIZE
    decreases |chunks|
  {
    if |acc| < PACKET_SIZE && chunks != [] {
      FillBounded(acc + chunks[0], chunks[1..]);
    }
  }

  /** Every packet but the one that saw end of input holds at least
      `PACKET_SIZE` bytes, and every packet less than a read more. */
  lemma {:induction false} PayloadSizes(chunks: seq<Bytes>)
    requires ReadsOk(chunks)
    ensures forall k :: 0 <= k < |Payloads(chunks)| - 1 ==> |Payloads(chunks)[k]| >= PACKET_SIZE
    ensures forall k :: 0 <= k < |Payloads(chunks)| ==> |Payloads(chunks)[k]| < PACKET_SIZE + BUFFER_SIZE
    decreases |chunks|
  {
    var f := Fill([], chunks);
    FillBounded([], chunks);
    if !f.eof {
      var rest := chunks[f.used..];
      PayloadSizes(rest);
      var ps := Payloads(chunks);
      assert ps == [f.packet] + Payloads(rest);
      forall k | 0 < k < |ps|
        ensures ps[k] == Payloads(rest)[k - 1]
      {
      }
    }
  }

  /** The stream as the server's reassembly consumes it, which is also the
      stream `send` evidently means to produce: the payloads ended by exactly
      one empty packet. */
  function Terminated(chunks: seq<Bytes>): (ts: seq<Bytes>)
    ensures |ts| > 0
  {
    var ps := Payloads(chunks);
    if ps[|ps| - 1] == [] then ps else ps + [[]]
  }

  /** As written, `send` hands off a second empty packet whenever the packet
      that saw end of input is itself empty: the input ended exactly where a
      packet was closed, which includes an empty input. */
  lemma SpareEmptyPacket(chunks: seq<Bytes>)
    ensures var ps := Payloads(chunks);
      ps[|ps| - 1] == [] <==> Dealt(chunks) == Terminated(chunks) + [[]]
    ensures Dealt([]) == [[], []]
  {
    assert Fill([], []) == Filling([], 0, true);
  }

  /** The corrected stream ends with an empty packet and holds no other,
      spells out the input, and is what `send` hands off, short of the spare. */
  lemma TerminatedOnce(chunks: seq<Bytes>)
    requires ReadsOk(chunks)
    ensures var ts := Terminated(chunks);
      && ts[|ts| - 1] == []
      && (forall k :: 0 <= k < |ts| - 1 ==> ts[k] != [])
      && Flatten(ts) == Flatten(chunks)
      && ts <= Dealt(chunks)
  {
    var ps := Payloads(chunks);
    PayloadSizes(chunks);
    PayloadsFlatten(chunks);
    if ps[|ps| - 1] != [] {
      FlattenAppend(ps, [[]]);
    }
  }

  // ---------------------------------------------------------------------------
  // The packetising loop of `send`
  // ---------------------------------------------------------------------------

  /** Part-way through the read loop of a packet begun at read `pos`: the
      reads `pos .. next` gave `bytes`, and filling on from there gives the
      packet the whole loop builds. */
  predicate Reading(chunks: seq<Bytes>, pos: nat, next: nat, bytes: Bytes) {
    pos <= next <= |chunks| &&
    var f := Fill(bytes, chunks[next..]);
    f.(used := f.used + (next - pos)) == Fill([], chunks[pos..])
  }

  /** A non-empty read is appended to the packet. */
  lemma ReadMore(chunks: seq<Bytes>, pos: nat, next: nat, bytes: Bytes, next': nat, bytes': Bytes)
    requires Reading(chunks, pos, next, bytes) && next < |chunks| && |bytes| < PACKET_SIZE
    requires chunks[next] != [] && next' == next + 1 && bytes' == bytes + chunks[next]
    ensures Reading(chunks, pos, next', bytes')
  {
    assert chunks[next..][1..] == chunks[next + 1..];
  }

  /** The loop stops with a full packet, at the end of the input, or after
      an empty read; then `bytes` is the whole packet. */
  lemma ReadEnd(chunks: seq<Bytes>, pos: nat, next: nat, bytes: Bytes, next': nat, eof: bool)
    requires Reading(chunks, pos, next, bytes)
    requires || (|bytes| >= PACKET_SIZE && next' == next && !eof)
             || (|bytes| < PACKET_SIZE && next == |chunks| && next' == next && eof)
             || (|bytes| < PACKET_SIZE && next < |chunks| && chunks[next] == [] && next' == next + 1 && eof)
    ensures Fill([], chunks[pos..]) == Filling(bytes, next' - pos, eof)
  {
  }

  /** The packet built from read `pos` on is the next of the stream. */
  lemma NextPacket(chunks: seq<Bytes>, pos: nat, next: nat, bytes: Bytes, eof: bool)
    requires pos <= next <= |chunks| && Fill([], chunks[pos..]) == Filling(bytes, next - pos, eof)
    ensures Payloads(chunks[pos..]) == if eof then [bytes] else [bytes] + Payloads(chunks[next..])
  {
    assert chunks[pos..][next - pos..] == chunks[next..];
  }

  /** One run of the inner read loop, starting a fresh packet at read `pos`:
      it yields the next packet of the stream. */
  method FillPacket(chunks: seq<Bytes>, pos: nat) returns (bytes: Bytes, next: nat, eof: bool)
    requires pos <= |chunks|
    ensures pos <= next <= |chunks|
    ensures Fill([], chunks[pos..]) == Filling(bytes, next - pos, eof)
    ensures Payloads(chunks[pos..]) == if eof then [bytes] else [bytes] + Payloads(chunks[next..])
  {
    bytes, next, eof := [], pos, false;
    while |bytes| < PACKET_SIZE
      invariant Reading(chunks, pos, next, bytes)
      decreases |chunks| - next
    {
      if next == |chunks| {
        eof := true;
        ReadEnd(chunks, pos, next, bytes, next, eof);
        break;
      }
      var chunk := chunks[next];
      next := next + 1;
      if chunk == [] {
        eof := true;
        ReadEnd(chunks, pos, next - 1, bytes, next, eof);
        break;
      }
      ghost var before := bytes;
      bytes := bytes + chunk;
      ReadMore(chunks, pos, next - 1, before, next, bytes);
    }
    if !eof {
      ReadEnd(chunks, pos, next, bytes, next, eof);
    }
    NextPacket(chunks, pos, next, bytes, eof);
  }

  /** `send`: the RESET first, then the labelled loop over the workers in
      turn; `chunks` are the successive results of reading standard input. */
  method Send(chunks: seq<Bytes>) returns (actions: seq<Action>)
    ensures HandedOff(actions, Dealt(chunks))
  {
    actions := [Reset(WORKER_NUM)];
    var index: nat := 0;
    var isEof := false;
    var pos: nat := 0;
    ghost var done: seq<Bytes> := [];
    label packets: while true
      invariant pos <= |chunks| && index == |done| && Lane(index, WORKER_NUM) == 0
      invariant HandedOff(actions, done)
      invariant !isEof ==> done + Payloads(chunks[pos..]) == Payloads(chunks)
      invariant isEof ==> done == Payloads(chunks)
      decreases |chunks| - pos + (if isEof then 0 else 1)
    {
      var s := 0;
      ghost var measure := |chunks| - pos + (if isEof then 0 else 1);
      while s < WORKER_NUM
        invariant pos <= |chunks| && index == |done| && Lane(index, WORKER_NUM) == (if s == WORKER_NUM then 0 else s)
        invariant HandedOff(actions, done)
        invariant !isEof ==> done + Payloads(chunks[pos..]) == Payloads(chunks)
        invariant isEof ==> done == Payloads(chunks)
        invariant measure >= |chunks| - pos + (if isEof then 0 else 1)
        invariant s > 0 ==> measure > |chunks| - pos + (if isEof then 0 else 1)
        decreases WORKER_NUM - s
      {
        LaneSuccessor(index, WORKER_NUM);
        if isEof {
          HandOff(actions, done, []);
          actions := actions + [Deal(s, Packet(index, []))];
          done := done + [[]];
          break packets;
        }
        var bytes, next, eof := FillPacket(chunks, pos);
        ConcatAssoc(done, [bytes], Payloads(chunks[next..]));
        HandOff(actions, done, bytes);
        actions := actions + [Deal(s, Packet(index, bytes))];
        done := done + [bytes];
        pos, isEof := next, eof;
        index := index + 1;
        s := s + 1;
      }
    }
  }

  // ---------------------------------------------------------------------------
  // The upload workers: `Worker::run` and `Worker::send`
  // ---------------------------------------------------------------------------

  /** How one PUT went: an error before any status arrived (connection,
      timeout, body), or the status the server answered with. */
  datatype Outcome = TransportError | Status(code: nat)

  /** A PUT as sent: its WORKER and INDEX headers, its body, and which HTTP
      client carried it, counted by how often the client was replaced. */
  datatype Put = Put(worker: nat, index: nat, data: Bytes, client: nat)

  predicate Accepted(o: Outcome) {
    o.Status? && IsSuccess(o.code)
  }

  /** A failure status replaces the HTTP client; a transport error does not. */
  function Replaced(o: Outcome): nat {
    if o.Status? && !IsSuccess(o.code) then 1 else 0
  }

  /** How many of the outcomes accepted a packet. */
  function Accepts(os: seq<Outcome>): nat {
    if os == [] then 0 else (if Accepted(os[0]) then 1 else 0) + Accepts(os[1..])
  }

  /** How many of the outcomes replaced the HTTP client. */
  function Replacements(os: seq<Outcome>): nat {
    if os == [] then 0 else Replaced(os[0]) + Replacements(os[1..])
  }

  /** The PUTs a worker made, how many packets the server accepted, and the
      HTTP client it ended with. */
  datatype Upload = Upload(log: seq<Put>, delivered: nat, client: nat)

  /** An upload worker's run as a value: it takes the packets of its channel
      in order and PUTs each until the server accepts it; `outcomes` are the
      answers to its successive PUTs, and when they run out the worker is
      still retrying. */
  function Uploads(worker: nat, packets: seq<Packet>, outcomes: seq<Outcome>, client: nat): (u: Upload)
    ensures u.delivered <= |packets| && |u.log| <= |outcomes|
    decreases |outcomes|
  {
    if packets == [] || outcomes == [] then Upload([], 0, client)
    else
      var put := Put(worker, packets[0].index, packets[0].data, client);
      if Accepted(outcomes[0]) then
        var u := Uploads(worker, packets[1..], outcomes[1..], client);
        Upload([put] + u.log, u.delivered + 1, u.client)
      else
        var u := Uploads(worker, packets, outcomes[1..], client + Replaced(outcomes[0]));
        Upload([put] + u.log, u.delivered, u.client)
  }

  /** A run's counts: one accepted packet per success status, one client
      per failure status, and the run stops only when its packets or its
      answers run out. */
  lemma {:induction false} UploadsCount(worker: nat, packets: seq<Packet>, outcomes: seq<Outcome>, client: nat)
    ensures var u := Uploads(worker, packets, outcomes, client);
      && u.delivered == Accepts(outcomes[..|u.log|])
      && u.client == client + Replacements(outcomes[..|u.log|])
      && (u.delivered == |packets| || |u.log| == |outcomes|)
    decreases |outcomes|
  {
    var u := Uploads(worker, packets, outcomes, client);
    if packets == [] || outcomes == [] {
      assert outcomes[..0] == [];
    } else {
      var o, os := outcomes[0], outcomes[1..];
      var put := Put(worker, packets[0].index, packets[0].data, client);
      var ps := if Accepted(o) then packets[1..] else packets;
      var c := client + Replaced(o);
      var v := Uploads(worker, ps, os, c);
      UploadsCount(worker, ps, os, c);
      assert u == Upload([put] + v.log, u.delivered, v.client);
      assert outcomes[..|u.log|][1..] == os[..|v.log|];
    }
  }

  /** The PUT made after `t` answers carries the packet that `t` answers
      left at the front, with the client they left. */
  lemma {:induction false} UploadsAt(worker: nat, packets: seq<Packet>, outcomes: seq<Outcome>, client: nat, t: nat)
    requires t < |Uploads(worker, packets, outcomes, client).log|
    ensures var j := Accepts(outcomes[..t]);
      && j < |packets|
      && Uploads(worker, packets, outcomes, client).log[t]
           == Put(worker, packets[j].index, packets[j].data, client + Replacements(outcomes[..t]))
    decreases t
  {
    var o, os := outcomes[0], outcomes[1..];
    var put := Put(worker, packets[0].index, packets[0].data, client);
    var ps := if Accepted(o) then packets[1..] else packets;
    var c := client + Replaced(o);
    var v := Uploads(worker, ps, os, c);
    assert Uploads(worker, packets, outcomes, client).log == [put] + v.log;
    if t == 0 {
      assert outcomes[..0] == [];
    } else {
      UploadsAt(worker, ps, os, c, t - 1);
      assert outcomes[..t][1..] == os[..t - 1];
    }
  }

  /** The `t`-th PUT carries the packet after the ones accepted so far, on the
      client left by the failures so far: a packet is retried until accepted,
      the packets go out in channel order, the run stops only once every
      packet is accepted or the answers run out, and the client is replaced
      once per failure status and never otherwise. */
  lemma UploadsInOrder(worker: nat, packets: seq<Packet>, outcomes: seq<Outcome>, client: nat)
    ensures var u := Uploads(worker, packets, outcomes, client);
      && u.delivered == Accepts(outcomes[..|u.log|])
      && u.client == client + Replacements(outcomes[..|u.log|])
      && (u.delivered == |packets| || |u.log| == |outcomes|)
      && forall t :: 0 <= t < |u.log| ==>
           var j := Accepts(outcomes[..t]);
           j < |packets| &&
           u.log[t] == Put(worker, packets[j].index, packets[j].data, client + Replacements(outcomes[..t]))
  {
    UploadsCount(worker, packets, outcomes, client);
    var u := Uploads(worker, packets, outcomes, client);
    forall t | 0 <= t < |u.log|
      ensures var j := Accepts(outcomes[..t]);
        j < |packets| &&
        u.log[t] == Put(worker, packets[j].index, packets[j].data, client + Replacements(outcomes[..t]))
    {
      UploadsAt(worker, packets, outcomes, client, t);
    }
  }

  /** The state of a run part-way: `delivered` packets accepted after `t`
      answers, and what is left of the run from there completes the run. */
  predicate Midway(worker: nat, packets: seq<Packet>, outcomes: seq<Outcome>, client0: nat,
                   t: nat, delivered: nat, client: nat, log: seq<Put>)
  {
    delivered <= |packets| && t <= |outcomes| &&
    var u := Uploads(worker, packets[delivered..], outcomes[t..], client);
    Upload(log + u.log, delivered + u.delivered, u.client) == Uploads(worker, packets, outcomes, client0)
  }

  /** One PUT of the packet at the front: an accepted one moves on to the
      next packet, a refused one retries it, with a fresh client after a
      failure status. The run goes on from the primed values. */
  lemma MidwayStep(worker: nat, packets: seq<Packet>, outcomes: seq<Outcome>, client0: nat,
                   t: nat, delivered: nat, client: nat, log: seq<Put>,
                   t': nat, delivered': nat, client': nat, log': seq<Put>)
    requires Midway(worker, packets, outcomes, client0, t, delivered, client, log)
    requires delivered < |packets| && t < |outcomes|
    requires t' == t + 1 && log' == log + [Put(worker, packets[delivered].index, packets[delivered].data, client)]
    requires if Accepted(outcomes[t]) then delivered' == delivered + 1 && client' == client
             else delivered' == delivered && client' == client + Replaced(outcomes[t])
    ensures Midway(worker, packets, outcomes, client0, t', delivered', client', log')
  {
    var p, o := packets[delivered], outcomes[t];
    var put := Put(worker, p.index, p.data, client);
    var rest := packets[delivered..];
    assert outcomes[t..][1..] == outcomes[t + 1..];
    assert rest[1..] == packets[delivered + 1..];
    var u := Uploads(worker, if Accepted(o) then rest[1..] else rest, outcomes[t + 1..], client + Replaced(o));
    assert (log + [put]) + u.log == log + ([put] + u.log);
  }

  /** `Worker` of the sending client: its number, sent as the WORKER header,
      and its HTTP client, counted by replacements. */
  class Uploader {
    const worker: nat
    var client: nat

    constructor (worker: nat)
      ensures this.worker == worker && client == 0
    {
      this.worker := worker;
      client := 0;
    }

    /** `Worker::send`: one PUT of `p`; a failure status also replaces the
        client, so that a poisoned connection is not reused. */
    method Send(p: Packet, o: Outcome) returns (put: Put, ok: bool)
      modifies this
      ensures put == Put(worker, p.index, p.data, old(client))
      ensures ok <==> Accepted(o)
      ensures client == old(client) + Replaced(o)
    {
      put := Put(worker, p.index, p.data, client);
      match o {
        case TransportError =>
          ok := false;
        case Status(code) =>
          if !IsSuccess(code) {
            client := client + 1;
            ok := false;
          } else {
            ok := true;
          }
      }
    }

    /** `Worker::run`: for each packet of the channel, in order, PUT it until
        the server accepts it. */
    method Run(packets: seq<Packet>, outcomes: seq<Outcome>) returns (log: seq<Put>, delivered: nat)
      modifies this
      ensures Upload(log, delivered, client) == Uploads(worker, packets, outcomes, old(client))
    {
      log, delivered := [], 0;
      ghost var start := client;
      var t := 0;
      while delivered < |packets|
        invariant Midway(worker, packets, outcomes, start, t, delivered, client, log)
        decreases |outcomes| - t
      {
        var p := packets[delivered];
        while true
          invariant delivered < |packets| && p == packets[delivered]
          invariant Midway(worker, packets, outcomes, start, t, delivered, client, log)
          decreases |outcomes| - t
        {
          if t == |outcomes| {
            // no further answer: the worker is still retrying `p`
            return;
          }
          ghost var t0, c0, l0 := t, client, log;
          var put, ok := Send(p, outcomes[t]);
          log := log + [put];
          t := t + 1;
          if ok {
            delivered := delivered + 1;
            MidwayStep(worker, packets, outcomes, start, t0, delivered - 1, c0, l0, t, delivered, client, log);
            break;
          }
          MidwayStep(worker, packets, outcomes, start, t0, delivered, c0, l0, t, delivered, client, log);
        }
      }
    }
  }
}
