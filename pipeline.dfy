/** How the sending client, the server and the receiving client fit
    together: what the server reassembles from the packets `send` hands off,
    why the spare empty packet is never taken, and what the receiving client
    writes once the server holds the whole stream. */
module Pipeline {
  import opened Common
  import Q = ServerQueue
  import S = Server
  import C = ClientSender
  import R = ClientReceiver

  // ---------------------------------------------------------------------------
  // From `send` to the server's channels
  // ---------------------------------------------------------------------------

  /** The packets `send` handed to upload worker `w`, in order. */
  function DealtTo(actions: seq<C.Action>, w: nat): seq<Packet>
    decreases |actions|
  {
    if actions == [] then []
    else
      var rest := DealtTo(actions[1..], w);
      match actions[0]
      case Deal(v, p) => if v == w then [p] + rest else rest
      case Reset(_) => rest
  }

  lemma {:induction false} DealtToIn(actions: seq<C.Action>, w: nat, p: Packet)
    requires p in DealtTo(actions, w)
    ensures C.Deal(w, p) in actions
    decreases |actions|
  {
    if actions[0] != C.Deal(w, p) {
      DealtToIn(actions[1..], w, p);
    }
  }

  /** A packet handed to worker `w` is packet `k` of the dealt stream, for a
      `k` whose lane is `w`. */
  lemma DealtToStream(actions: seq<C.Action>, ds: seq<Bytes>, w: nat, p: Packet)
    requires C.HandedOff(actions, ds) && p in DealtTo(actions, w)
    ensures p.index < |ds| && p.data == ds[p.index] && Lane(p.index, C.WORKER_NUM) == w
  {
    DealtToIn(actions, w, p);
    var i :| 0 <= i < |actions| && actions[i] == C.Deal(w, p);
    assert actions[(i - 1) + 1] == C.Deal(Lane(i - 1, C.WORKER_NUM), Packet(i - 1, ds[i - 1]));
  }

  /** Every PUT of an upload worker names the worker and carries one of the
      packets of its channel. */
  lemma UploadsCarry(worker: nat, packets: seq<Packet>, outcomes: seq<C.Outcome>, client: nat, t: nat)
    requires t < |C.Uploads(worker, packets, outcomes, client).log|
    ensures var put := C.Uploads(worker, packets, outcomes, client).log[t];
      put.worker == worker && Packet(put.index, put.data) in packets
  {
    C.UploadsInOrder(worker, packets, outcomes, client);
    var j := C.Accepts(outcomes[..t]);
    assert packets[j] == Packet(packets[j].index, packets[j].data);
  }

  /** The request such a PUT makes: INDEX, WORKER and the body, no RESET. */
  function PutOf(put: C.Put): S.PutRequest {
    S.PutRequest(S.Absent, S.Value(put.worker), S.Value(put.index), Some(put.data))
  }

  /** The server forwards such a PUT to the channel of the worker it names,
      with the packet it carries, as long as RESET announced that worker. */
  lemma PutForwards(put: C.Put, workers: nat)
    ensures var a := S.DecidePut(PutOf(put), Some(workers));
      if put.worker < workers then a == S.Forward(put.worker, Packet(put.index, put.data))
      else a == S.WorkerOutOfRange
  {
  }

  /** When each server channel `w` only ever received packets that `send`
      handed to worker `w`, every packet on them is the dealt stream's own. */
  lemma DealtFromStream(actions: seq<C.Action>, chunks: seq<Bytes>, sent: seq<seq<Packet>>)
    requires C.HandedOff(actions, C.Dealt(chunks))
    requires forall w, j :: 0 <= w < |sent| && 0 <= j < |sent[w]| ==> sent[w][j] in DealtTo(actions, w)
    ensures S.FromStream(sent, C.Dealt(chunks))
  {
    forall w, j | 0 <= w < |sent| && 0 <= j < |sent[w]|
      ensures sent[w][j].index < |C.Dealt(chunks)| && sent[w][j].data == C.Dealt(chunks)[sent[w][j].index]
    {
      DealtToStream(actions, C.Dealt(chunks), w, sent[w][j]);
    }
  }

  // ---------------------------------------------------------------------------
  // What the server reassembles
  // ---------------------------------------------------------------------------

  /** Whatever state a connection fed from `send` is in, the reassembly task has pushed
      a prefix of the stream that ends at the first empty packet, and it has
      ended after the empty packet exactly when it has pushed all of it. */
  lemma ServerReassembles(chunks: seq<Bytes>, slots: Q.Slots, r: S.Relay, h: S.History)
    requires C.ReadsOk(chunks) && S.RelayOk(C.WORKER_NUM, slots, r, h)
    requires S.FromStream(h.sent, C.Dealt(chunks))
    ensures var ts := C.Terminated(chunks);
      && |h.pushed| <= |ts|
      && (forall k :: 0 <= k < |h.pushed| ==> h.pushed[k] == Packet(k, ts[k]))
      && (r.status == S.Ended(S.EndOfStream) <==> |h.pushed| == |ts|)
  {
    var ts, ds, m := C.Terminated(chunks), C.Dealt(chunks), |h.pushed|;
    S.RelayFaithful(h.pushed, h.sent, C.WORKER_NUM, ds);
    C.TerminatedOnce(chunks);
    forall k | 0 <= k < m
      ensures h.pushed[k] == Packet(k, ts[k])
    {
      assert ds[k] == ts[k];
    }
    if m == |ts| {
      assert h.pushed[m - 1].data == ts[m - 1] == [];
    }
  }

  /** When the input ends where a packet was closed, the spare empty packet,
      the last one `send` hands off, is never pushed: once every other packet
      is in, the reassembly task has ended, and from then on the PUT handler answers
      every PUT for the path with 500. */
  lemma SpareNeverPushed(chunks: seq<Bytes>, slots: Q.Slots, r: S.Relay, h: S.History)
    requires C.ReadsOk(chunks) && S.RelayOk(C.WORKER_NUM, slots, r, h)
    requires S.FromStream(h.sent, C.Dealt(chunks))
    requires var ps := C.Payloads(chunks); ps[|ps| - 1] == []
    ensures |h.pushed| < |C.Dealt(chunks)|
    ensures |h.pushed| == |C.Dealt(chunks)| - 1 ==> r.status.Ended?
  {
    ServerReassembles(chunks, slots, r, h);
    C.SpareEmptyPacket(chunks);
  }

  /** The answers a PUT gets from a path whose task has ended: 500 each time. */
  function Refusals(k: nat): (os: seq<C.Outcome>)
    ensures |os| == k && forall t :: 0 <= t < k ==> os[t] == C.Status(INTERNAL_SERVER_ERROR)
  {
    seq(k, t => C.Status(INTERNAL_SERVER_ERROR))
  }

  /** An upload worker answered 500 again and again never gets past its
      packet: every answer costs one more PUT of the same packet and a fresh
      HTTP client, so the worker, and `send` waiting on it, never finish. */
  lemma {:induction false} RefusedForever(worker: nat, packets: seq<Packet>, k: nat, client: nat)
    requires packets != []
    ensures var u := C.Uploads(worker, packets, Refusals(k), client);
      && u.delivered == 0 && u.client == client + k && |u.log| == k
      && forall t :: 0 <= t < k ==> u.log[t] == C.Put(worker, packets[0].index, packets[0].data, client + t)
    decreases k
  {
    if k > 0 {
      assert Refusals(k)[1..] == Refusals(k - 1);
      RefusedForever(worker, packets, k - 1, client + 1);
    }
  }

  // ---------------------------------------------------------------------------
  // What the receiving client writes
  // ---------------------------------------------------------------------------

  /** The channel of fetch worker `w`, which starts at index `w` with no ACK,
      served from `ts`: the bodies it forwarded, closed once it returned. */
  function LaneChannel(ts: seq<Bytes>, w: nat): R.Channel {
    var f := R.Fetches(R.WORKER_NUM, w, None, R.ServedAnswers(ts, w, R.WORKER_NUM));
    R.Channel(f.forwarded, f.ended)
  }

  function Lanes(ts: seq<Bytes>): (chs: seq<R.Channel>)
    ensures |chs| == R.WORKER_NUM
  {
    seq(R.WORKER_NUM, (w: int) requires 0 <= w => LaneChannel(ts, w))
  }

  /** Served from a stream that ends with its only empty packet, the output
      loop writes every packet before it in index order and stops at the
      closed channel of the worker that met the empty packet. */
  lemma ReceiverWrites(ts: seq<Bytes>)
    requires R.EndsWithEmpty(ts)
    ensures R.Merge(Lanes(ts), 0) == R.Drained(ts[..|ts| - 1], R.Closed)
  {
    var xs, chs, n := ts[..|ts| - 1], Lanes(ts), R.WORKER_NUM;
    forall v | 0 <= v < n
      ensures chs[v].items == R.Column(xs, v, n)
    {
      R.FetchServed(ts, v, n, None);
    }
    R.MergeColumns(chs, xs, n);
    var s := Lane(|xs|, n);
    LaneBase(|xs|, n);
    R.FetchServed(ts, s, n, None);
  }

  /** A trailing empty packet adds no bytes. */
  lemma FlattenDropEmpty(ts: seq<Bytes>)
    requires |ts| > 0 && ts[|ts| - 1] == []
    ensures Flatten(ts[..|ts| - 1]) == Flatten(ts)
  {
    var xs := ts[..|ts| - 1];
    assert ts == xs + [[]];
    FlattenAppend(xs, [[]]);
  }

  /** End to end: the receiving client writes exactly the bytes the sending
      client read, when the server holds the stream `send` should have sent. */
  lemma EndToEnd(chunks: seq<Bytes>)
    requires C.ReadsOk(chunks)
    ensures var d := R.Merge(Lanes(C.Terminated(chunks)), 0);
      d.halt == R.Closed && Flatten(d.out) == Flatten(chunks)
  {
    var ts := C.Terminated(chunks);
    C.TerminatedOnce(chunks);
    assert R.EndsWithEmpty(ts);
    ReceiverWrites(ts);
    FlattenDropEmpty(ts);
  }
}
