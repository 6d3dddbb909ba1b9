/** The relay server: one `Conn` per pipe path, holding the per-worker
    channels the PUT handler feeds, the reassembly task that drains them in
    round-robin order into a bounded queue, and that queue, which the GET
    handler reads and acknowledges. */
module Server {
  import opened Common
  import opened ServerQueue

  /** `Queue::new(16)` in `Conn::new`. */
  const QUEUE_CAPACITY: nat := 16
  /** `mpsc::channel(1)` in `Conn::new`. */
  const CHANNEL_CAPACITY: nat := 1

  // ---------------------------------------------------------------------------
  // Facts about the stream of packets the reassembly task has pushed
  // ---------------------------------------------------------------------------

  /** Packet `k` of the pushed stream carries index `k`: no gap, no duplicate. */
  predicate Numbered(pushed: seq<Packet>) {
    forall k :: 0 <= k < |pushed| ==> pushed[k].index == k
  }

  /** Only the last pushed packet may be empty: the reassembly task ends at the first. */
  predicate EndsAtFirstEmpty(pushed: seq<Packet>) {
    forall k :: 0 <= k < |pushed| - 1 ==> pushed[k].data != []
  }

  /** `p` occurs in the channel history `s`. */
  predicate Among(p: Packet, s: seq<Packet>)
    decreases |s|
  {
    s != [] && (s[0] == p || Among(p, s[1..]))
  }

  lemma {:induction false} AmongAppend(p: Packet, s: seq<Packet>, q: Packet)
    requires Among(p, s)
    ensures Among(p, s + [q])
    decreases |s|
  {
    assert (s + [q])[0] == s[0];
    if s[0] != p {
      assert (s + [q])[1..] == s[1..] + [q];
      AmongAppend(p, s[1..], q);
    }
  }

  lemma {:induction false} AmongAt(s: seq<Packet>, i: nat)
    requires i < |s|
    ensures Among(s[i], s)
    decreases i
  {
    if i > 0 {
      assert s[i] == s[1..][i - 1];
      AmongAt(s[1..], i - 1);
    }
  }

  lemma {:induction false} AmongWitness(p: Packet, s: seq<Packet>) returns (j: nat)
    requires Among(p, s)
    ensures j < |s| && s[j] == p
    decreases |s|
  {
    if s[0] == p {
      j := 0;
    } else {
      var j' := AmongWitness(p, s[1..]);
      j := j' + 1;
    }
  }

  /** Packet `k` was sent on channel `k mod n`. */
  predicate Provenance(pushed: seq<Packet>, sent: seq<seq<Packet>>, n: nat) {
    |sent| == n &&
    (n > 0 ==> forall k :: 0 <= k < |pushed| ==> Among(pushed[k], sent[Lane(k, n)]))
  }

  /** The queue's slots are the tail of the pushed stream, with holes. */
  predicate Mirrors(s: Slots, pushed: seq<Packet>) {
    |s| <= |pushed| &&
    forall j :: 0 <= j < |s| && s[j].Some? ==> s[j].value == pushed[|pushed| - |s| + j]
  }

  /** The slots a run of pushes appends to the queue. */
  function Filled(ps: seq<Packet>): (r: Slots)
    ensures |r| == |ps|
  {
    if ps == [] then [] else [Some(ps[0])] + Filled(ps[1..])
  }

  lemma {:induction false} FilledConcat(ps: seq<Packet>, qs: seq<Packet>)
    ensures Filled(ps + qs) == Filled(ps) + Filled(qs)
  {
    if ps == [] {
      assert ps + qs == qs;
    } else {
      assert (ps + qs)[1..] == ps[1..] + qs;
      FilledConcat(ps[1..], qs);
    }
  }

  /** Two runs of pushes, one after the other, append the packets of both. */
  lemma FilledChain(s0: Slots, s1: Slots, s2: Slots, p0: seq<Packet>, p1: seq<Packet>, p2: seq<Packet>)
    requires p0 <= p1 <= p2
    requires s1 == s0 + Filled(p1[|p0|..]) && s2 == s1 + Filled(p2[|p1|..])
    ensures s2 == s0 + Filled(p2[|p0|..])
  {
    var a, b := p1[|p0|..], p2[|p1|..];
    PrefixSplit(p0, p1, p2);
    FilledConcat(a, b);
    assert (s0 + Filled(a)) + Filled(b) == s0 + (Filled(a) + Filled(b));
  }

  function TotalLength(chans: seq<seq<Packet>>): nat {
    if chans == [] then 0 else |chans[0]| + TotalLength(chans[1..])
  }

  lemma {:induction false} TotalLengthUpdate(chans: seq<seq<Packet>>, w: nat, t: seq<Packet>)
    requires w < |chans|
    ensures TotalLength(chans[w := t]) + |chans[w]| == TotalLength(chans) + |t|
  {
    if w > 0 {
      assert chans[w := t][1..] == chans[1..][w - 1 := t];
      TotalLengthUpdate(chans[1..], w - 1, t);
    } else {
      assert chans[w := t][1..] == chans[1..];
    }
  }

  /** A queue that mirrors a numbered stream is contiguous up to its length. */
  lemma MirrorsContiguous(s: Slots, pushed: seq<Packet>)
    requires Mirrors(s, pushed) && Numbered(pushed)
    ensures ContiguousUpTo(s, |pushed|)
  {
  }

  /** What GET can see: an index not pushed yet waits, and a packet served
      for index `i` is the `i`-th packet the reassembly task pushed. */
  lemma LookupMirrors(s: Slots, pushed: seq<Packet>, i: nat)
    requires FrontPresent(s) && Mirrors(s, pushed) && Numbered(pushed)
    ensures i >= |pushed| ==> Lookup(s, i) == GetPending
    ensures Lookup(s, i).Ready? && Lookup(s, i).slot.Some? ==>
              i < |pushed| && Lookup(s, i).slot.value == pushed[i]
  {
    MirrorsContiguous(s, pushed);
    LookupContiguous(s, |pushed|, i);
    if |s| > 0 && |pushed| - |s| <= i < |pushed| {
      assert Lookup(s, i) == Ready(s[i - (|pushed| - |s|)]);
    }
  }

  lemma MirrorsPunch(s: Slots, pushed: seq<Packet>, x: nat)
    requires Mirrors(s, pushed) && x < |s|
    ensures Mirrors(s[x := None], pushed)
  {
    var t := s[x := None];
    forall j | 0 <= j < |t| && t[j].Some?
      ensures t[j].value == pushed[|pushed| - |t| + j]
    {
      assert t[j] == s[j];
    }
  }

  lemma MirrorsSuffix(s: Slots, pushed: seq<Packet>, d: nat)
    requires Mirrors(s, pushed) && d <= |s|
    ensures Mirrors(s[d..], pushed)
  {
    var t := s[d..];
    forall j | 0 <= j < |t| && t[j].Some?
      ensures t[j].value == pushed[|pushed| - |t| + j]
    {
      assert t[j] == s[d + j];
    }
  }

  /** An acknowledgement keeps the queue a mirror of the pushed stream. */
  lemma RemoveMirrors(s: Slots, pushed: seq<Packet>, i: nat)
    requires FrontPresent(s) && Mirrors(s, pushed)
    requires !RemoveIgnores(s, i) && !RemovePanics(s, i)
    ensures Mirrors(AfterRemove(s, i), pushed)
  {
    var punched := s[i - FirstIndex(s) := None];
    MirrorsPunch(s, pushed, i - FirstIndex(s));
    var t := DropLeadingHoles(punched);
    MirrorsSuffix(punched, pushed, |punched| - |t|);
  }

  /** When every packet a client put on the channels is packet `index` of a
      stream `P`, the stream the reassembly task pushed is exactly a prefix of `P`. */
  lemma RelayFaithful(pushed: seq<Packet>, sent: seq<seq<Packet>>, n: nat, P: seq<Bytes>)
    requires Numbered(pushed) && Provenance(pushed, sent, n) && n > 0
    requires FromStream(sent, P)
    ensures |pushed| <= |P|
    ensures forall k :: 0 <= k < |pushed| ==> pushed[k] == Packet(k, P[k])
  {
    forall k | 0 <= k < |pushed|
      ensures k < |P| && pushed[k] == Packet(k, P[k])
    {
      RelayedPacket(pushed, sent, n, P, k);
    }
    if |pushed| > 0 {
      RelayedPacket(pushed, sent, n, P, |pushed| - 1);
    }
  }

  /** Every packet sent on a channel is the packet of its own index in `P`. */
  predicate FromStream(sent: seq<seq<Packet>>, P: seq<Bytes>) {
    forall w, j :: 0 <= w < |sent| && 0 <= j < |sent[w]| ==>
      sent[w][j].index < |P| && sent[w][j].data == P[sent[w][j].index]
  }

  lemma RelayedPacket(pushed: seq<Packet>, sent: seq<seq<Packet>>, n: nat, P: seq<Bytes>, k: nat)
    requires Numbered(pushed) && Provenance(pushed, sent, n) && n > 0
    requires FromStream(sent, P)
    requires k < |pushed|
    ensures k < |P| && pushed[k] == Packet(k, P[k])
  {
    var w := Lane(k, n);
    var j := AmongWitness(pushed[k], sent[w]);
    assert sent[w][j].index == k;
  }

  // ---------------------------------------------------------------------------
  // The reassembly task and its channels
  // ---------------------------------------------------------------------------

  /** IndexAssertion is the `debug_assert!(packet.index == index)` failing,
      which panics the reassembly task; `got` is the index it received. */
  datatype EndReason = EndOfStream | ChannelClosed | IndexAssertion(got: nat)

  datatype TaskStatus = Running | Ended(reason: EndReason)

  /** Where the reassembly task is suspended: on `rx.recv()` of an empty channel, on a
      push into a full queue, or (zero channels) spinning without ever
      reaching an await point. */
  datatype Wait = AwaitPacket(channel: nat) | QueueFull | Spinning

  datatype PumpResult = Suspended(wait: Wait) | Stopped(reason: EndReason)

  /** `sender.send(packet).await` on one channel: `ChannelFull` parks the
      sending handler; `ReceiverGone` is the error after the reassembly task ended. */
  datatype SendResult = Sent | ChannelFull | ReceiverGone

  /** `a` is the tail of `b`, element by element. */
  predicate IsSuffix(a: seq<Packet>, b: seq<Packet>) {
    |a| <= |b| && forall j :: 0 <= j < |a| ==> a[j] == b[|b| - |a| + j]
  }

  /** Each channel buffers at most one packet, the unread tail of what was
      sent on it. */
  predicate ChannelsOk(inbox: seq<seq<Packet>>, sent: seq<seq<Packet>>, n: nat) {
    |inbox| == n && |sent| == n &&
    forall w :: 0 <= w < n ==> |inbox[w]| <= CHANNEL_CAPACITY && IsSuffix(inbox[w], sent[w])
  }

  /** The state of the reassembly task: it has pushed `index` packets with
      consecutive indices, each taken from its own channel; while running it
      reads channel `index mod n`; a held packet is the one numbered `index`. */
  predicate TaskOk(n: nat, current: nat, index: nat, held: Option<Packet>, status: TaskStatus,
                   pushed: seq<Packet>, sent: seq<seq<Packet>>)
  {
    && index == |pushed| && Numbered(pushed) && EndsAtFirstEmpty(pushed)
    && Provenance(pushed, sent, n)
    && (n > 0 ==> current < n)
    && (n > 0 && status == Running ==> current == Lane(index, n))
    && (n == 0 ==> current == 0 && index == 0 && held == None && status == Running)
    && (status == Ended(EndOfStream) <==> pushed != [] && pushed[|pushed| - 1].data == [])
    && (status.Ended? && status.reason.IndexAssertion? ==>
          status.reason.got > index && current < |sent| && Received(status.reason.got, sent[current]))
    && (held.Some? ==> status == Running && held.value.index == index && Among(held.value, sent[current]))
  }

  /** Some packet numbered `got` was sent on the channel with history `s`. */
  predicate Received(got: nat, s: seq<Packet>) {
    exists j :: 0 <= j < |s| && s[j].index == got
  }

  lemma ChannelsPop(inbox: seq<seq<Packet>>, sent: seq<seq<Packet>>, n: nat, w: nat)
    requires ChannelsOk(inbox, sent, n) && w < n && inbox[w] != []
    ensures ChannelsOk(inbox[w := inbox[w][1..]], sent, n)
    ensures Among(inbox[w][0], sent[w]) && Received(inbox[w][0].index, sent[w])
  {
    var sw := sent[w];
    assert inbox[w][0] == sw[|sw| - |inbox[w]|];
    AmongAt(sw, |sw| - |inbox[w]|);
    // a channel holds at most one packet, so the one popped leaves it empty
    assert inbox[w][1..] == [];
  }

  lemma ChannelsAppend(inbox: seq<seq<Packet>>, sent: seq<seq<Packet>>, n: nat, w: nat, p: Packet)
    requires ChannelsOk(inbox, sent, n) && w < n && |inbox[w]| < CHANNEL_CAPACITY
    ensures ChannelsOk(inbox[w := inbox[w] + [p]], sent[w := sent[w] + [p]], n)
  {
    // the channel had room, so it was empty and now holds just `p`
    assert inbox[w] + [p] == [p];
  }

  lemma ProvenanceAppend(pushed: seq<Packet>, sent: seq<seq<Packet>>, n: nat, w: nat, p: Packet)
    requires Provenance(pushed, sent, n) && w < n
    ensures Provenance(pushed, sent[w := sent[w] + [p]], n)
  {
    var sent' := sent[w := sent[w] + [p]];
    forall k | 0 <= k < |pushed|
      ensures Among(pushed[k], sent'[Lane(k, n)])
    {
      if Lane(k, n) == w {
        AmongAppend(pushed[k], sent[w], p);
      }
    }
  }

  lemma TaskSent(n: nat, current: nat, index: nat, held: Option<Packet>, status: TaskStatus,
                 pushed: seq<Packet>, sent: seq<seq<Packet>>, w: nat, p: Packet)
    requires TaskOk(n, current, index, held, status, pushed, sent) && w < n
    ensures TaskOk(n, current, index, held, status, pushed, sent[w := sent[w] + [p]])
  {
    ProvenanceAppend(pushed, sent, n, w, p);
    if held.Some? && current == w {
      AmongAppend(held.value, sent[w], p);
    }
    if status.Ended? && status.reason.IndexAssertion? && current == w {
      var j :| 0 <= j < |sent[w]| && sent[w][j].index == status.reason.got;
      assert (sent[w] + [p])[j] == sent[w][j];
    }
  }

  lemma TaskPush(n: nat, current: nat, index: nat, p: Packet,
                 pushed: seq<Packet>, sent: seq<seq<Packet>>)
    requires TaskOk(n, current, index, Some(p), Running, pushed, sent)
    ensures n > 0
    ensures p.data == [] ==>
      TaskOk(n, current, index + 1, None, Ended(EndOfStream), pushed + [p], sent)
    ensures p.data != [] ==>
      TaskOk(n, if current + 1 == n then 0 else current + 1, index + 1, None, Running, pushed + [p], sent)
  {
    var pushed' := pushed + [p];
    assert Provenance(pushed', sent, n) by {
      forall k | 0 <= k < |pushed'|
        ensures Among(pushed'[k], sent[Lane(k, n)])
      {
        if k < |pushed| {
          assert pushed'[k] == pushed[k];
        }
      }
    }
    LaneSuccessor(index, n);
  }

  lemma TaskHold(n: nat, current: nat, index: nat, p: Packet,
                 pushed: seq<Packet>, sent: seq<seq<Packet>>)
    requires TaskOk(n, current, index, None, Running, pushed, sent)
    requires n > 0 && Among(p, sent[current]) && p.index == index
    ensures TaskOk(n, current, index, Some(p), Running, pushed, sent)
  {
  }

  lemma TaskEnd(n: nat, current: nat, index: nat, reason: EndReason,
                pushed: seq<Packet>, sent: seq<seq<Packet>>)
    requires TaskOk(n, current, index, None, Running, pushed, sent) && n > 0
    requires reason == ChannelClosed || (reason.IndexAssertion? && reason.got > index && Received(reason.got, sent[current]))
    ensures TaskOk(n, current, index, None, Ended(reason), pushed, sent)
  {
  }

  lemma MirrorsPush(s: Slots, pushed: seq<Packet>, p: Packet)
    requires Mirrors(s, pushed)
    ensures Mirrors(s + [Some(p)], pushed + [p])
  {
    var s', pushed' := s + [Some(p)], pushed + [p];
    forall j | 0 <= j < |s'| && s'[j].Some?
      ensures s'[j].value == pushed'[|pushed'| - |s'| + j]
    {
      if j < |s| {
        assert s'[j] == s[j];
      }
    }
  }

  /** The channels of one path and the local variables of its reassembly
      task: the packets buffered in each channel, whether the senders were
      dropped, the next index to push, the channel the `for` loop is at, a
      received packet waiting for room in the queue, and whether the reassembly task
      still runs. */
  datatype Relay = Relay(inbox: seq<seq<Packet>>, closed: bool, index: nat, current: nat,
                         held: Option<Packet>, status: TaskStatus)

  /** Everything the reassembly task pushed so far, and everything ever sent on each
      channel, in order. */
  datatype History = History(pushed: seq<Packet>, sent: seq<seq<Packet>>)

  /** The invariant of a connection: the channels, the reassembly task's position and
      the queue's slots agree with the history. */
  predicate RelayOk(n: nat, slots: Slots, r: Relay, h: History) {
    && ChannelsOk(r.inbox, h.sent, n)
    && TaskOk(n, r.current, r.index, r.held, r.status, h.pushed, h.sent)
    && Mirrors(slots, h.pushed)
    && Unlost(r, h.sent)
  }

  /** Nothing received is lost: while the reassembly task runs, every packet
      already taken off a channel is below the next index (pushed, or dropped
      as stale) or is the held one. */
  predicate Unlost(r: Relay, sent: seq<seq<Packet>>) {
    r.status.Ended? ||
    forall w, j :: 0 <= w < |sent| && w < |r.inbox| && 0 <= j < |sent[w]| - |r.inbox[w]| ==>
      sent[w][j].index < r.index || r.held == Some(sent[w][j])
  }

  /** A packet sent into a channel has not been taken off it yet. */
  lemma UnlostDeliver(r: Relay, sent: seq<seq<Packet>>, w: nat, p: Packet)
    requires Unlost(r, sent) && |r.inbox| == |sent| && w < |sent|
    ensures Unlost(Deliver(r, w, p), sent[w := sent[w] + [p]])
  {
    var r': Relay, sent': seq<seq<Packet>> := Deliver(r, w, p), sent[w := sent[w] + [p]];
    if !r.status.Ended? {
      forall v, j | 0 <= v < |sent'| && v < |r'.inbox| && 0 <= j < |sent'[v]| - |r'.inbox[v]|
        ensures sent'[v][j].index < r'.index || r'.held == Some(sent'[v][j])
      {
        assert sent'[v][j] == sent[v][j];
      }
    }
  }

  /** While the reassembly task runs, a packet sent on channel `w` that is at
      or beyond the next index and is not the held one has not been taken off
      the channel: it is still buffered there. */
  lemma StillBuffered(n: nat, slots: Slots, r: Relay, h: History, w: nat, j: nat)
    requires RelayOk(n, slots, r, h) && r.status == Running
    requires w < n && j < |h.sent[w]|
    requires h.sent[w][j].index >= r.index && r.held != Some(h.sent[w][j])
    ensures |h.sent[w]| - |r.inbox[w]| <= j
    ensures r.inbox[w][j - (|h.sent[w]| - |r.inbox[w]|)] == h.sent[w][j]
  {
  }

  /** Pushing the held packet moves it below the next index. */
  lemma UnlostPush(r: Relay, sent: seq<seq<Packet>>, n: nat)
    requires Unlost(r, sent) && r.held.Some? && r.held.value.index == r.index
    ensures Unlost(AfterPush(r, n), sent)
  {
  }

  /** Work the reassembly task still has in hand: buffered packets count twice, the
      held one once. */
  function WorkInHand(r: Relay): nat {
    2 * TotalLength(r.inbox) + (if r.held.Some? then 1 else 0)
  }

  /** A packet accepted by channel `w`. */
  function Deliver(r: Relay, w: nat, p: Packet): Relay
    requires w < |r.inbox|
  {
    r.(inbox := r.inbox[w := r.inbox[w] + [p]])
  }

  function Record(h: History, w: nat, p: Packet): History
    requires w < |h.sent|
  {
    h.(sent := h.sent[w := h.sent[w] + [p]])
  }

  /** A send into a channel with room keeps the invariant. */
  lemma DeliverOk(n: nat, slots: Slots, r: Relay, h: History, w: nat, p: Packet)
    requires RelayOk(n, slots, r, h) && w < n && |r.inbox[w]| < CHANNEL_CAPACITY
    ensures RelayOk(n, slots, Deliver(r, w, p), Record(h, w, p))
  {
    ChannelsAppend(r.inbox, h.sent, n, w, p);
    TaskSent(n, r.current, r.index, r.held, r.status, h.pushed, h.sent, w, p);
    UnlostDeliver(r, h.sent, w, p);
  }

  /** What one turn of the reassembly task leaves behind, and whether the reassembly task has to
      stop or wait (`Some`) or can take another turn (`None`). */
  datatype Turn = Turn(relay: Relay, step: Option<PumpResult>)

  /** One `rx.recv()` on the current channel: wait on an empty open channel,
      end on a closed one, drop a stale packet, end (the debug assertion) on
      an index above `index`, or hold the packet for pushing. */
  function Receive(r: Relay): (t: Turn)
    requires r.current < |r.inbox|
    ensures t.relay.closed == r.closed && t.relay.index == r.index && t.relay.current == r.current
    ensures |t.relay.inbox| == |r.inbox|
    ensures t.step == Some(Stopped(ChannelClosed)) <==> r.inbox[r.current] == [] && r.closed
    ensures t.step == Some(Suspended(AwaitPacket(r.current))) <==> r.inbox[r.current] == [] && !r.closed
    ensures r.inbox[r.current] == [] && !r.closed ==> t.relay == r
    ensures r.inbox[r.current] != [] ==>
              && t.relay.inbox == r.inbox[r.current := r.inbox[r.current][1..]]
              && var p := r.inbox[r.current][0];
              && (p.index < r.index ==> t.step == None && t.relay.held == r.held && t.relay.status == r.status)
              && (p.index > r.index ==>
                    t.step == Some(Stopped(IndexAssertion(p.index))) && t.relay.status == Ended(IndexAssertion(p.index)))
              && (p.index == r.index ==> t.step == None && t.relay.held == Some(p) && t.relay.status == r.status)
    ensures t.step.Some? && t.step.value.Stopped? ==> t.relay.status == Ended(t.step.value.reason)
  {
    var chan := r.inbox[r.current];
    if chan == [] then
      if r.closed then Turn(r.(status := Ended(ChannelClosed)), Some(Stopped(ChannelClosed)))
      else Turn(r, Some(Suspended(AwaitPacket(r.current))))
    else
      var p := chan[0];
      var r' := r.(inbox := r.inbox[r.current := chan[1..]]);
      if p.index < r.index then Turn(r', None)
      else if p.index != r.index then
        Turn(r'.(status := Ended(IndexAssertion(p.index))), Some(Stopped(IndexAssertion(p.index))))
      else Turn(r'.(held := Some(p)), None)
  }

  /** A receive takes the next packet off the current channel: it is stale,
      it ends the task, or it becomes the held one. */
  lemma UnlostReceive(r: Relay, sent: seq<seq<Packet>>, n: nat)
    requires ChannelsOk(r.inbox, sent, n) && Unlost(r, sent)
    requires r.current < n && r.held == None && r.status == Running
    ensures Unlost(Receive(r).relay, sent)
  {
    var c := r.current;
    var r' := Receive(r).relay;
    if r.inbox[c] != [] && !r'.status.Ended? {
      var k := |sent[c]| - |r.inbox[c]|;
      assert r.inbox[c][0] == sent[c][k];
      forall v, j | 0 <= v < |sent| && v < |r'.inbox| && 0 <= j < |sent[v]| - |r'.inbox[v]|
        ensures sent[v][j].index < r'.index || r'.held == Some(sent[v][j])
      {
        if v != c || j < k {
          assert sent[v][j].index < r.index;
        }
      }
    }
  }

  /** A receive keeps the invariant, and a turn that goes on has less work
      left in hand. */
  lemma ReceiveOk(n: nat, slots: Slots, r: Relay, h: History)
    requires RelayOk(n, slots, r, h) && n > 0 && r.status == Running && r.held == None
    ensures RelayOk(n, slots, Receive(r).relay, h)
    ensures Receive(r).step == None ==> Receive(r).relay.status == Running && WorkInHand(Receive(r).relay) < WorkInHand(r)
  {
    UnlostReceive(r, h.sent, n);
    var c := r.current;
    if r.inbox[c] == [] {
      if r.closed {
        TaskEnd(n, c, r.index, ChannelClosed, h.pushed, h.sent);
      }
    } else {
      var p := r.inbox[c][0];
      ChannelsPop(r.inbox, h.sent, n, c);
      TotalLengthUpdate(r.inbox, c, r.inbox[c][1..]);
      if p.index > r.index {
        TaskEnd(n, c, r.index, IndexAssertion(p.index), h.pushed, h.sent);
      } else if p.index == r.index {
        TaskHold(n, c, r.index, p, h.pushed, h.sent);
      }
    }
  }

  /** The reassembly task after `q.push(packet)` and `index += 1`: it ends after the
      empty packet, and otherwise moves on to the next channel. */
  function AfterPush(r: Relay, n: nat): (r': Relay)
    requires r.held.Some?
    ensures r'.inbox == r.inbox && r'.closed == r.closed && r'.index == r.index + 1 && r'.held == None
    ensures r'.status == if r.held.value.data == [] then Ended(EndOfStream) else r.status
    ensures r.held.value.data != [] ==> r'.current == if r.current + 1 == n then 0 else r.current + 1
  {
    var ended := r.held.value.data == [];
    r.(index := r.index + 1, held := None,
       status := if ended then Ended(EndOfStream) else r.status,
       current := if ended then r.current else if r.current + 1 == n then 0 else r.current + 1)
  }

  /** Pushing the held packet keeps the invariant. */
  lemma AfterPushOk(n: nat, slots: Slots, r: Relay, h: History)
    requires RelayOk(n, slots, r, h) && r.status == Running && r.held.Some?
    ensures RelayOk(n, slots + [Some(r.held.value)], AfterPush(r, n), h.(pushed := h.pushed + [r.held.value]))
    ensures WorkInHand(AfterPush(r, n)) < WorkInHand(r)
  {
    TaskPush(n, r.current, r.index, r.held.value, h.pushed, h.sent);
    MirrorsPush(slots, h.pushed, r.held.value);
    UnlostPush(r, h.sent, n);
  }

  class Conn {
    /** The number of `Sender`s, i.e. of channels. */
    const workers: nat
    const queue: Queue
    var relay: Relay
    ghost var history: History

    ghost predicate Valid()
      reads this, queue
    {
      && queue.Valid() && queue.capacity == QUEUE_CAPACITY
      && RelayOk(workers, queue.slots, relay, history)
    }

    /** `Conn::new(n)`: `n` fresh channels, a queue of capacity 16, and the
        reassembly task about to start at index 0 on channel 0. */
    constructor (n: nat)
      ensures Valid() && fresh(queue)
      ensures workers == n && |relay.inbox| == n && history.sent == relay.inbox
      ensures forall w :: 0 <= w < n ==> relay.inbox[w] == []
      ensures queue.slots == [] && history.pushed == []
      ensures !relay.closed && relay.status == Running && relay.held == None && relay.index == 0 && relay.current == 0
    {
      var chans: seq<seq<Packet>> := [];
      for i := 0 to n
        invariant |chans| == i
        invariant forall w :: 0 <= w < i ==> chans[w] == []
      {
        chans := chans + [[]];
      }
      workers := n;
      queue := new Queue(QUEUE_CAPACITY);
      relay := Relay(chans, false, 0, 0, None, Running);
      history := History([], chans);
    }

    /** Drop every sender: once a channel is drained, `recv` reports it closed. */
    method Close()
      requires Valid()
      modifies this
      ensures Valid() && relay == old(relay).(closed := true) && history == old(history)
    {
      relay := relay.(closed := true);
    }

    /** One `send` on channel `w`: refused once the reassembly task has ended, parked
        while the one-slot channel is occupied, accepted otherwise. */
    method Send(w: nat, p: Packet) returns (r: SendResult)
      requires Valid() && w < workers
      modifies this
      ensures Valid()
      ensures r == ReceiverGone <==> old(relay).status.Ended?
      ensures r == ChannelFull <==> old(relay).status == Running && |old(relay).inbox[w]| >= CHANNEL_CAPACITY
      ensures r == Sent ==> relay == Deliver(old(relay), w, p) && history == Record(old(history), w, p)
      ensures r != Sent ==> relay == old(relay) && history == old(history)
    {
      if relay.status.Ended? {
        return ReceiverGone;
      }
      if |relay.inbox[w]| >= CHANNEL_CAPACITY {
        return ChannelFull;
      }
      DeliverOk(workers, queue.slots, relay, history, w, p);
      relay := Deliver(relay, w, p);
      history := Record(history, w, p);
      r := Sent;
    }

    /** What a run of the reassembly task reports once it stops: the reason it
        ended (a failed index assertion names a packet sent on the current
        channel), or what it waits for. */
    ghost predicate Reports(r: PumpResult)
      reads this, queue
    {
      && (r.Stopped? <==> relay.status.Ended?)
      && (r.Stopped? ==> relay.status == Ended(r.reason))
      && (r == Suspended(QueueFull) ==> relay.held.Some? && |queue.slots| == queue.capacity)
      && (r.Stopped? && r.reason.IndexAssertion? ==>
            && r.reason.got > relay.index && relay.current < |history.sent|
            && Received(r.reason.got, history.sent[relay.current]))
      && (r.Suspended? && r.wait.AwaitPacket? ==>
            && r.wait.channel == relay.current && relay.current < |relay.inbox|
            && relay.inbox[relay.current] == [] && !relay.closed && relay.held == None)
    }

    /** Since a state with these slots, pushed stream, channel history and
        closed flag, the task has only pushed packets: the queue grew by
        exactly what it pushed. */
    ghost predicate Since(s0: Slots, p0: seq<Packet>, sent0: seq<seq<Packet>>, closed0: bool)
      reads this, queue
    {
      && history.sent == sent0 && relay.closed == closed0
      && p0 <= history.pushed
      && queue.slots == s0 + Filled(history.pushed[|p0|..])
    }

    /** Run the reassembly task spawned in `Conn::new` until it has to wait or ends.
        It visits the channels in the order 0 .. n-1 over and over, skips
        packets below `index` on the same channel, pushes the packet with
        index `index` and moves to the next channel, and ends after pushing
        the first empty packet or when a drained channel is closed. */
    method Pump() returns (r: PumpResult)
      requires Valid()
      modifies this, queue
      ensures Valid() && Reports(r)
      ensures Since(old(queue.slots), old(history.pushed), old(history.sent), old(relay.closed))
      ensures old(relay.status).Ended? ==> r == Stopped(old(relay.status).reason) && history == old(history)
      ensures r == Suspended(Spinning) <==> old(relay.status) == Running && workers == 0
      ensures r == Stopped(ChannelClosed) && old(relay.status) == Running ==>
                relay.closed && relay.inbox[relay.current] == []
      ensures old(relay.held).Some? && |old(queue.slots)| < queue.capacity ==>
                |history.pushed| > |old(history.pushed)|
    {
      if relay.status.Ended? {
        assert history.pushed[|old(history.pushed)|..] == [];
        return Stopped(relay.status.reason);
      }
      if workers == 0 {
        assert history.pushed[|old(history.pushed)|..] == [];
        return Suspended(Spinning);
      }
      r := Run();
    }

    /** The loop of the running reassembly task, taking turns until one
        stops or has to wait. */
    method Run() returns (r: PumpResult)
      requires Valid() && relay.status == Running && workers > 0
      modifies this, queue
      ensures Valid() && Reports(r) && r != Suspended(Spinning)
      ensures Since(old(queue.slots), old(history.pushed), old(history.sent), old(relay.closed))
      ensures r == Stopped(ChannelClosed) ==> relay.closed && relay.inbox[relay.current] == []
      ensures old(relay.held).Some? && |old(queue.slots)| < queue.capacity ==>
                |history.pushed| > |old(history.pushed)|
    {
      while true
        invariant Valid() && relay.status == Running
        invariant Since(old(queue.slots), old(history.pushed), old(history.sent), old(relay.closed))
        invariant old(relay.held).Some? && |old(queue.slots)| < queue.capacity ==>
                    relay.held.Some? || |history.pushed| > |old(history.pushed)|
        decreases WorkInHand(relay)
      {
        ghost var s1, p1 := queue.slots, history.pushed;
        var step := Turn();
        FilledChain(old(queue.slots), s1, queue.slots, old(history.pushed), p1, history.pushed);
        if step.Some? {
          return step.value;
        }
      }
    }

    /** One turn of the reassembly task's loop: push the held packet, or else receive. */
    method Turn() returns (step: Option<PumpResult>)
      requires Valid() && relay.status == Running && workers > 0
      modifies this, queue
      ensures Valid()
      ensures Since(old(queue.slots), old(history.pushed), old(history.sent), old(relay.closed))
      ensures step == None ==> relay.status == Running && WorkInHand(relay) < old(WorkInHand(relay))
      ensures step.Some? ==> Reports(step.value) && step.value != Suspended(Spinning)
      ensures step == Some(Stopped(ChannelClosed)) ==> relay.closed && relay.inbox[relay.current] == []
      ensures old(relay.held).Some? && |old(queue.slots)| < queue.capacity ==>
                |history.pushed| > |old(history.pushed)|
      ensures old(relay.held).None? ==>
                && relay == Receive(old(relay)).relay && step == Receive(old(relay)).step
                && history == old(history) && queue.slots == old(queue.slots)
      ensures old(relay.held).Some? ==>
                (step == Some(Suspended(QueueFull)) <==> |old(queue.slots)| >= queue.capacity)
      ensures old(relay.held).Some? && step == Some(Suspended(QueueFull)) ==>
                relay == old(relay) && history == old(history) && queue.slots == old(queue.slots)
      ensures old(relay.held).Some? && step != Some(Suspended(QueueFull)) ==>
                && relay == AfterPush(old(relay), workers)
                && history.pushed == old(history.pushed) + [old(relay.held).value]
                && step == if old(relay.held).value.data == [] then Some(Stopped(EndOfStream)) else None
    {
      if relay.held.Some? {
        step := PushHeld();
      } else {
        step := ReceiveNext();
      }
    }

    /** `q.push(packet)` of the held packet, then `index += 1` and on to the
        next channel, or the end after the empty packet; parked on a full queue. */
    method PushHeld() returns (step: Option<PumpResult>)
      requires Valid() && relay.status == Running && workers > 0 && relay.held.Some?
      modifies this, queue
      ensures Valid()
      ensures Since(old(queue.slots), old(history.pushed), old(history.sent), old(relay.closed))
      ensures step == Some(Suspended(QueueFull)) <==> |old(queue.slots)| >= queue.capacity
      ensures step == Some(Suspended(QueueFull)) ==>
                && relay == old(relay) && history == old(history) && queue.slots == old(queue.slots)
                && |queue.slots| == queue.capacity
      ensures step != Some(Suspended(QueueFull)) ==>
                && relay == AfterPush(old(relay), workers)
                && history.pushed == old(history.pushed) + [old(relay.held).value]
                && step == if old(relay.held).value.data == [] then Some(Stopped(EndOfStream)) else None
      ensures step == None ==> relay.status == Running && WorkInHand(relay) < old(WorkInHand(relay))
    {
      var p := relay.held.value;
      AfterPushOk(workers, queue.slots, relay, history);
      var pr := queue.Push(p);
      if pr == PushPending {
        assert history.pushed[|old(history.pushed)|..] == [];
        return Some(Suspended(QueueFull));
      }
      history := history.(pushed := history.pushed + [p]);
      assert history.pushed[|old(history.pushed)|..] == [p];
      relay := AfterPush(relay, workers);
      step := if p.data == [] then Some(Stopped(EndOfStream)) else None;
    }

    /** `rx.recv()` on the current channel, as `Receive` says. */
    method ReceiveNext() returns (step: Option<PumpResult>)
      requires Valid() && relay.status == Running && workers > 0 && relay.held == None
      modifies this
      ensures Valid()
      ensures relay == Receive(old(relay)).relay && step == Receive(old(relay)).step
      ensures history == old(history)
      ensures step == None ==> relay.status == Running && WorkInHand(relay) < old(WorkInHand(relay))
    {
      ReceiveOk(workers, queue.slots, relay, history);
      var t := Receive(relay);
      relay := t.relay;
      step := t.step;
    }
  }

  // ---------------------------------------------------------------------------
  // The HTTP handlers as decisions over headers
  // ---------------------------------------------------------------------------

  /** A request header after `to_str()?.parse()?`: missing, unparsable (an
      error, answered 500), or a number. */
  datatype Header = Absent | Malformed | Value(n: nat)

  /** A PUT: RESET, WORKER and INDEX headers and the collected body, `None`
      when reading the payload failed. */
  datatype PutRequest = PutRequest(reset: Header, worker: Header, index: Header, body: Option<Bytes>)

  /** A GET: ACK and INDEX headers. */
  datatype GetRequest = GetRequest(ack: Header, index: Header)

  /** A finished response, a handler parked on a pending future, or a panic. */
  datatype Response = Reply(code: nat, body: Bytes) | Parked | Crash

  datatype PutAction =
    | PutAnswer(code: nat)
    | Install(workers: nat)
    | Forward(worker: nat, packet: Packet)
    | WorkerOutOfRange

  /** The branches of the PUT handler; `workers` is the channel count of the
      path's `Conn`, `None` when the path is unknown. */
  function DecidePut(req: PutRequest, workers: Option<nat>): (a: PutAction)
    ensures req.reset.Value? <==> a.Install?
    ensures a.Install? ==> a.workers == req.reset.n
    ensures req.reset.Malformed? ==> a == PutAnswer(INTERNAL_SERVER_ERROR)
    ensures a == PutAnswer(BAD_REQUEST) <==>
              req.reset.Absent? && (req.worker.Absent? || (req.worker.Value? && req.index.Absent?))
    ensures a == PutAnswer(PRECONDITION_FAILED) <==>
              req.reset.Absent? && req.worker.Value? && req.index.Value? && workers.None?
    ensures a.WorkerOutOfRange? <==>
              req.reset.Absent? && req.worker.Value? && req.index.Value? &&
              workers.Some? && req.worker.n >= workers.value
    ensures a.Forward? <==>
              req.reset.Absent? && req.worker.Value? && req.index.Value? &&
              workers.Some? && req.worker.n < workers.value && req.body.Some?
    ensures a.Forward? ==>
              a.worker == req.worker.n && a.worker < workers.value &&
              a.packet == Packet(req.index.n, req.body.value)
    ensures a.PutAnswer? ==> a.code in {BAD_REQUEST, PRECONDITION_FAILED, INTERNAL_SERVER_ERROR}
  {
    match req.reset
    case Value(n) => Install(n)
    case Malformed => PutAnswer(INTERNAL_SERVER_ERROR)
    case Absent =>
      match req.worker
      case Absent => PutAnswer(BAD_REQUEST)
      case Malformed => PutAnswer(INTERNAL_SERVER_ERROR)
      case Value(w) =>
        match req.index
        case Absent => PutAnswer(BAD_REQUEST)
        case Malformed => PutAnswer(INTERNAL_SERVER_ERROR)
        case Value(i) =>
          match workers
          case None => PutAnswer(PRECONDITION_FAILED)
          case Some(n) =>
            if w >= n then WorkerOutOfRange
            else match req.body
              case None => PutAnswer(INTERNAL_SERVER_ERROR)
              case Some(data) => Forward(w, Packet(i, data))
  }

  /** What the GET handler does after the ACK: answer at once, or poll the
      queue for an index. */
  datatype FetchStep = StepAnswer(code: nat) | Fetch(index: nat)

  datatype GetPlan = GetAnswer(code: nat) | Serve(ack: Option<nat>, step: FetchStep)

  /** The INDEX header of a GET, once the ACK has been handled. */
  function Step(index: Header): FetchStep {
    match index
    case Absent => StepAnswer(BAD_REQUEST)
    case Malformed => StepAnswer(INTERNAL_SERVER_ERROR)
    case Value(i) => Fetch(i)
  }

  /** The branches of the GET handler before it touches the queue. */
  function DecideGet(req: GetRequest, known: bool): (p: GetPlan)
    ensures !known <==> p == GetAnswer(PRECONDITION_FAILED)
    ensures p.GetAnswer? <==> !known || req.ack.Malformed?
    ensures known && req.ack.Malformed? ==> p == GetAnswer(INTERNAL_SERVER_ERROR)
    ensures p.Serve? ==> (p.ack.Some? <==> req.ack.Value?)
    ensures p.Serve? && p.ack.Some? ==> p.ack.value == req.ack.n
    ensures p.Serve? ==> (p.step.Fetch? <==> req.index.Value?)
    ensures p.Serve? && p.step.Fetch? ==> p.step.index == req.index.n
    ensures p.Serve? && req.index.Absent? ==> p.step == StepAnswer(BAD_REQUEST)
    ensures p.Serve? && req.index.Malformed? ==> p.step == StepAnswer(INTERNAL_SERVER_ERROR)
  {
    if !known then GetAnswer(PRECONDITION_FAILED)
    else match req.ack
      case Malformed => GetAnswer(INTERNAL_SERVER_ERROR)
      case Absent => Serve(None, Step(req.index))
      case Value(a) => Serve(Some(a), Step(req.index))
  }

  /** The response for one poll of `queue.get`. */
  function FetchResponse(g: GetResult): (resp: Response)
    ensures g == GetPending <==> resp == Parked
    ensures g == Ready(None) <==> resp == Reply(GONE, [])
    ensures g.Ready? && g.slot.Some? <==> resp.Reply? && resp.code == OK
    ensures resp.Reply? && resp.code == OK ==> resp.body == g.slot.value.data
  {
    match g
    case GetPending => Parked
    case Ready(None) => Reply(GONE, [])
    case Ready(Some(p)) => Reply(OK, p.data)
  }

  function WorkersOf(endpoints: map<string, Conn>, path: string): Option<nat> {
    if path in endpoints then Some(endpoints[path].workers) else None
  }

  /** What a GET for index `i` answers on a queue mirroring `pushed`: the
      poll of `get(i)`, which waits for an index not pushed yet and serves
      the body of the `i`-th packet pushed. */
  predicate Served(s: Slots, pushed: seq<Packet>, i: nat, resp: Response)
    requires FrontPresent(s)
  {
    && resp == FetchResponse(Lookup(s, i))
    && (i >= |pushed| ==> resp == Parked)
    && (resp.Reply? && resp.code == OK ==> i < |pushed| && resp.body == pushed[i].data)
  }

  /** An acknowledgement keeps a connection's invariant. */
  lemma RemoveOk(n: nat, s: Slots, r: Relay, h: History, i: nat)
    requires RelayOk(n, s, r, h) && FrontPresent(s)
    requires !RemoveIgnores(s, i) && !RemovePanics(s, i)
    ensures RelayOk(n, AfterRemove(s, i), r, h)
  {
    RemoveMirrors(s, h.pushed, i);
  }

  lemma LookupServed(s: Slots, pushed: seq<Packet>, i: nat)
    requires FrontPresent(s) && Mirrors(s, pushed) && Numbered(pushed)
    ensures Served(s, pushed, i, FetchResponse(Lookup(s, i)))
  {
    LookupMirrors(s, pushed, i);
  }

  ghost function QueuesOf(m: map<string, Conn>): set<Queue> {
    set c | c in m.Values :: c.queue
  }

  /** Every connection is valid, and no two paths share a queue (nor,
      therefore, a connection). */
  ghost predicate ConnsOk(m: map<string, Conn>)
    reads m.Values, QueuesOf(m)
  {
    && (forall p :: p in m ==> m[p].Valid())
    && (forall p, p' :: p in m && p' in m && p != p' ==> m[p].queue != m[p'].queue)
  }

  /** Binding a valid connection with a queue of its own keeps the map valid. */
  lemma ConnsInsert(m: map<string, Conn>, path: string, c: Conn)
    requires ConnsOk(m) && c.Valid()
    requires forall p :: p in m && p != path ==> m[p].queue != c.queue
    ensures ConnsOk(m[path := c])
  {
  }

  /** A connection as `Conn::new(n)` leaves it: `n` open, empty channels,
      an empty queue, and the reassembly task waiting for packet 0 on channel 0. */
  ghost predicate Initial(c: Conn, n: nat)
    reads c, c.queue
  {
    && c.workers == n && |c.relay.inbox| == n && !c.relay.closed
    && (forall w :: 0 <= w < n ==> c.relay.inbox[w] == [])
    && c.relay.status == Running && c.relay.held == None
    && c.relay.index == 0 && c.relay.current == 0
    && c.queue.slots == [] && c.history.pushed == [] && c.history.sent == c.relay.inbox
  }

  /** The answer a PUT gets from the `send` of its packet: the `?` turns a
      refused send into a 500, and a full channel parks the handler. */
  function SendAnswer(sr: SendResult): (resp: Response)
    ensures resp == Reply(OK, []) <==> sr == Sent
    ensures resp == Parked <==> sr == ChannelFull
    ensures resp == Reply(INTERNAL_SERVER_ERROR, []) <==> sr == ReceiverGone
  {
    match sr
    case Sent => Reply(OK, [])
    case ChannelFull => Parked
    case ReceiverGone => Reply(INTERNAL_SERVER_ERROR, [])
  }

  /** `AppState`: the map from path to `Conn` behind the mutex. */
  class AppState {
    var endpoints: map<string, Conn>

    ghost predicate Valid()
      reads this, endpoints.Values, QueuesOf(endpoints)
    {
      ConnsOk(endpoints)
    }

    constructor ()
      ensures Valid() && endpoints == map[]
    {
      endpoints := map[];
    }

    /** The PUT handler. */
    method Put(path: string, req: PutRequest) returns (resp: Response)
      requires Valid()
      modifies this, if path in endpoints then {endpoints[path]} else {}
      ensures Valid()
      ensures var a := DecidePut(req, WorkersOf(old(endpoints), path));
        && (a.PutAnswer? ==> resp == Reply(a.code, []) && endpoints == old(endpoints))
        && (a.WorkerOutOfRange? ==> resp == Crash && endpoints == old(endpoints))
        && (a.Install? ==>
              && resp == Reply(OK, [])
              && path in endpoints && fresh(endpoints[path])
              && endpoints == old(endpoints)[path := endpoints[path]]
              && Initial(endpoints[path], a.workers)
              && (path in old(endpoints) ==> old(endpoints)[path].relay.closed))
        && (a.Forward? ==>
              && endpoints == old(endpoints)
              && resp in {Reply(OK, []), Reply(INTERNAL_SERVER_ERROR, []), Parked}
              && (resp == Reply(INTERNAL_SERVER_ERROR, []) <==> old(endpoints[path].relay).status.Ended?)
              && (resp == Parked <==>
                    old(endpoints[path].relay).status == Running &&
                    |old(endpoints[path].relay).inbox[a.worker]| >= CHANNEL_CAPACITY)
              && (resp == Reply(OK, []) ==>
                    && endpoints[path].relay == Deliver(old(endpoints[path].relay), a.worker, a.packet)
                    && endpoints[path].history == Record(old(endpoints[path].history), a.worker, a.packet)))
      ensures path in old(endpoints) && resp != Reply(OK, []) ==>
                && path in endpoints && endpoints[path] == old(endpoints)[path]
                && endpoints[path].relay == old(endpoints[path].relay)
                && endpoints[path].history == old(endpoints[path].history)
      ensures forall p :: p in old(endpoints) && p != path ==>
                && p in endpoints && endpoints[p] == old(endpoints)[p]
                && endpoints[p].relay == old(endpoints[p].relay)
                && endpoints[p].history == old(endpoints[p].history)
                && endpoints[p].queue.slots == old(endpoints[p].queue.slots)
    {
      var a := DecidePut(req, WorkersOf(endpoints, path));
      match a {
        case PutAnswer(code) =>
          resp := Reply(code, []);
        case WorkerOutOfRange =>
          resp := Crash;
        case Install(n) =>
          Install(path, n);
          resp := Reply(OK, []);
        case Forward(w, p) =>
          resp := Forward(path, w, p);
      }
    }

    /** `insert(path, Conn::new(n))`: the old connection, if any, is dropped
        with its senders. */
    method Install(path: string, n: nat)
      requires Valid()
      modifies this, if path in endpoints then {endpoints[path]} else {}
      ensures Valid()
      ensures path in endpoints && fresh(endpoints[path])
      ensures endpoints == old(endpoints)[path := endpoints[path]]
      ensures Initial(endpoints[path], n)
      ensures path in old(endpoints) ==> old(endpoints)[path].relay.closed
      ensures forall p :: p in old(endpoints) && p != path ==>
                && p in endpoints && endpoints[p] == old(endpoints)[p]
                && endpoints[p].relay == old(endpoints[p].relay)
                && endpoints[p].history == old(endpoints[p].history)
                && endpoints[p].queue.slots == old(endpoints[p].queue.slots)
    {
      if path in endpoints {
        Retire(path);
      }
      Bind(path, n);
    }

    /** Bind the path to a fresh connection of `n` channels. */
    method Bind(path: string, n: nat)
      requires Valid()
      modifies this
      ensures Valid()
      ensures path in endpoints && fresh(endpoints[path])
      ensures endpoints == old(endpoints)[path := endpoints[path]]
      ensures Initial(endpoints[path], n)
      ensures forall p :: p in old(endpoints) && p != path ==>
                && p in endpoints && endpoints[p] == old(endpoints)[p]
                && endpoints[p].relay == old(endpoints[p].relay)
                && endpoints[p].history == old(endpoints[p].history)
                && endpoints[p].queue.slots == old(endpoints[p].queue.slots)
    {
      var c := new Conn(n);
      assert Initial(c, n);
      ConnsInsert(endpoints, path, c);
      endpoints := endpoints[path := c];
    }

    /** Drop the senders of the connection the path is bound to. */
    method Retire(path: string)
      requires Valid() && path in endpoints
      modifies endpoints[path]
      ensures Valid()
      ensures endpoints[path].relay == old(endpoints[path].relay).(closed := true)
      ensures endpoints[path].history == old(endpoints[path].history)
      ensures forall p :: p in old(endpoints) && p != path ==>
                && p in endpoints && endpoints[p] == old(endpoints)[p]
                && endpoints[p].relay == old(endpoints[p].relay)
                && endpoints[p].history == old(endpoints[p].history)
                && endpoints[p].queue.slots == old(endpoints[p].queue.slots)
    {
      endpoints[path].Close();
      forall p | p in endpoints && p != path
        ensures endpoints[p].Valid()
      {
        assert old(endpoints[p].Valid());
      }
    }

    /** The `send` of a PUT to the path's connection: 200 once the channel
        took the packet, 500 once the reassembly task has ended, parked while full. */
    method Forward(path: string, w: nat, p: Packet) returns (resp: Response)
      requires Valid() && path in endpoints && w < endpoints[path].workers
      modifies endpoints[path]
      ensures Valid()
      ensures var c := endpoints[path];
        && (resp == Reply(OK, []) ==>
              c.relay == Deliver(old(c.relay), w, p) && c.history == Record(old(c.history), w, p))
        && (resp == Reply(INTERNAL_SERVER_ERROR, []) <==> old(c.relay).status.Ended?)
        && (resp == Parked <==> old(c.relay).status == Running && |old(c.relay).inbox[w]| >= CHANNEL_CAPACITY)
        && (resp != Reply(OK, []) ==> c.relay == old(c.relay) && c.history == old(c.history))
        && resp in {Reply(OK, []), Reply(INTERNAL_SERVER_ERROR, []), Parked}
      ensures forall p :: p in old(endpoints) && p != path ==>
                && p in endpoints && endpoints[p] == old(endpoints)[p]
                && endpoints[p].relay == old(endpoints[p].relay)
                && endpoints[p].history == old(endpoints[p].history)
                && endpoints[p].queue.slots == old(endpoints[p].queue.slots)
    {
      var c := endpoints[path];
      var sr := c.Send(w, p);
      forall p | p in endpoints && p != path
        ensures endpoints[p].Valid()
        ensures endpoints[p].relay == old(endpoints[p].relay) && endpoints[p].history == old(endpoints[p].history)
      {
        assert old(endpoints[p].Valid()) && endpoints[p].queue != c.queue;
      }
      resp := SendAnswer(sr);
    }

    /** The GET handler: the ACK is applied before INDEX is even looked at. */
    method Get(path: string, req: GetRequest) returns (resp: Response)
      requires Valid()
      modifies if path in endpoints then {endpoints[path].queue} else {}
      ensures Valid()
      ensures var plan := DecideGet(req, path in endpoints);
        && (plan.GetAnswer? ==> resp == Reply(plan.code, []))
        && (plan.GetAnswer? && path in endpoints ==>
              endpoints[path].queue.slots == old(endpoints[path].queue.slots))
        && (plan.Serve? ==>
              var c := endpoints[path];
              var s0 := old(c.queue.slots);
              if plan.ack.Some? && RemovePanics(s0, plan.ack.value) then
                resp == Crash && c.queue.slots == s0
              else
                && c.queue.slots == (if plan.ack.Some? && !RemoveIgnores(s0, plan.ack.value)
                                     then AfterRemove(s0, plan.ack.value) else s0)
                && (plan.step.StepAnswer? ==> resp == Reply(plan.step.code, []))
                && (plan.step.Fetch? ==> Served(c.queue.slots, c.history.pushed, plan.step.index, resp)))
    {
      var plan := DecideGet(req, path in endpoints);
      if plan.GetAnswer? {
        return Reply(plan.code, []);
      }
      var c := endpoints[path];
      if plan.ack.Some? {
        var rr := Acknowledge(path, plan.ack.value);
        if rr == OutOfBounds {
          return Crash;
        }
      }
      match plan.step {
        case StepAnswer(code) =>
          resp := Reply(code, []);
        case Fetch(i) =>
          resp := Fetch(path, i);
      }
    }

    /** `queue.remove(ack)` on the queue of the path's connection. */
    method Acknowledge(path: string, i: nat) returns (rr: RemoveResult)
      requires Valid() && path in endpoints
      modifies endpoints[path].queue
      ensures Valid()
      ensures var s0 := old(endpoints[path].queue.slots);
        && (rr == OutOfBounds <==> RemovePanics(s0, i))
        && (rr == Ignored <==> RemoveIgnores(s0, i))
        && (rr != Removed ==> endpoints[path].queue.slots == s0)
        && (rr == Removed ==> endpoints[path].queue.slots == AfterRemove(s0, i))
    {
      var c := endpoints[path];
      ghost var s0 := c.queue.slots;
      rr := c.queue.Remove(i);
      if rr == Removed {
        RemoveOk(c.workers, s0, c.relay, c.history, i);
      }
      forall p | p in endpoints && p != path
        ensures endpoints[p].Valid()
      {
        assert old(endpoints[p].Valid());
      }
    }

    /** One poll of `queue.get(index)` on the path's queue; it changes nothing. */
    method Fetch(path: string, i: nat) returns (resp: Response)
      requires Valid() && path in endpoints
      ensures var c := endpoints[path]; Served(c.queue.slots, c.history.pushed, i, resp)
    {
      var c := endpoints[path];
      var g := c.queue.Get(i);
      LookupServed(c.queue.slots, c.history.pushed, i);
      resp := FetchResponse(g);
    }
  }
}
