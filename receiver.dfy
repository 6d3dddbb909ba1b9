/** The receiving client: fetch worker `w` GETs the indices `w, w + N,
    w + 2N, …`, acknowledging each packet with its next request, and hands
    the bodies to the output loop, which writes the workers' packets in turn
    and so restores the global index order. */
module ClientReceiver {
  import opened Common

  const WORKER_NUM: nat := 4

  // ---------------------------------------------------------------------------
  // A fetch worker: `Worker::run` and `Worker::receive`
  // ---------------------------------------------------------------------------

  /** How one GET went: an error before a status arrived or while reading
      the body, or the status and body the server answered with. */
  datatype Answer = Failed | Answered(code: nat, body: Bytes)

  /** A GET as sent: its ACK header, if any, and its INDEX header. */
  datatype Get = Get(ack: Option<nat>, index: nat)

  /** The status check of `Worker::receive`: only a success status yields
      the body; anything else is an error. */
  function Verdict(a: Answer): (r: Option<Bytes>)
    ensures r.Some? <==> a.Answered? && IsSuccess(a.code)
    ensures r.Some? ==> r.value == a.body
  {
    match a
    case Failed => None
    case Answered(code, body) => if IsSuccess(code) then Some(body) else None
  }

  /** The GETs a worker made, the bodies it forwarded, whether an empty body
      ended it, and the index it had reached. */
  datatype Fetch = Fetch(requests: seq<Get>, forwarded: seq<Bytes>, ended: bool, index: nat)

  /** A fetch worker's run as a value, from its current `index` and `ack`;
      `answers` are the outcomes of its successive GETs, and when they run
      out the worker is still waiting. */
  function Fetches(n: nat, index: nat, ack: Option<nat>, answers: seq<Answer>): (f: Fetch)
    ensures |f.requests| <= |answers|
    ensures !f.ended ==> |f.requests| == |answers|
    decreases |answers|
  {
    if answers == [] then Fetch([], [], false, index)
    else
      var req := Get(ack, index);
      match Verdict(answers[0])
      case None =>
        var f := Fetches(n, index, ack, answers[1..]);
        f.(requests := [req] + f.requests)
      case Some(body) =>
        if body == [] then Fetch([req], [], true, index)
        else
          var f := Fetches(n, index + n, Some(index), answers[1..]);
          f.(requests := [req] + f.requests, forwarded := [body] + f.forwarded)
  }

  /** The answer delivers a packet: a success status with a non-empty body. */
  predicate Delivers(a: Answer) {
    Verdict(a).Some? && Verdict(a).value != []
  }

  /** The bodies of the answers that delivered a packet, in order. */
  function Bodies(replies: seq<Answer>): seq<Bytes> {
    if replies == [] then [] else (if Delivers(replies[0]) then [replies[0].body] else []) + Bodies(replies[1..])
  }

  /** The index `c` strides of `n` after `index`. */
  function Stride(index: nat, n: nat, c: nat): (i: nat)
    ensures i >= index
    decreases c
  {
    if c == 0 then index else Stride(index + n, n, c - 1)
  }

  lemma {:induction false} StrideIsProduct(index: nat, n: nat, c: nat)
    ensures Stride(index, n, c) == index + c * n
    decreases c
  {
    if c > 0 {
      StrideIsProduct(index + n, n, c - 1);
      assert (c - 1) * n + n == c * n;
    }
  }

  /** The fetch schedule: the first GET carries the initial ACK and index;
      after a delivery the next GET acknowledges the index just received and
      asks for the one `n` further on, and after any other answer the GET is
      repeated unchanged. */
  lemma {:induction false} FetchSchedule(n: nat, index: nat, ack: Option<nat>, answers: seq<Answer>)
    ensures var f := Fetches(n, index, ack, answers);
      && (|f.requests| > 0 ==> f.requests[0] == Get(ack, index))
      && forall t :: 0 <= t < |f.requests| - 1 ==>
           f.requests[t + 1] == if Delivers(answers[t])
                                then Get(Some(f.requests[t].index), f.requests[t].index + n)
                                else f.requests[t]
    decreases |answers|
  {
    var f := Fetches(n, index, ack, answers);
    if answers != [] && Verdict(answers[0]) != Some([]) {
      var a, rest := answers[0], answers[1..];
      var d := Delivers(a);
      var index', ack' := if d then index + n else index, if d then Some(index) else ack;
      var g := Fetches(n, index', ack', rest);
      FetchSchedule(n, index', ack', rest);
      forall t | 0 < t < |f.requests| - 1
        ensures f.requests[t + 1] == if Delivers(answers[t])
                                     then Get(Some(f.requests[t].index), f.requests[t].index + n)
                                     else f.requests[t]
      {
        assert f.requests[t] == g.requests[t - 1] && answers[t] == rest[t - 1];
      }
    }
  }

  /** What a run yields: exactly the delivered bodies, in order, with the
      worker as many strides on; it ends only on a success with an empty
      body, which it does not forward, and otherwise uses every answer. */
  lemma {:induction false} FetchResult(n: nat, index: nat, ack: Option<nat>, answers: seq<Answer>)
    ensures var f := Fetches(n, index, ack, answers);
      && f.forwarded == Bodies(answers[..|f.requests|])
      && f.index == Stride(index, n, |f.forwarded|)
      && (f.ended <==> |f.requests| > 0 && Verdict(answers[|f.requests| - 1]) == Some([]))
    decreases |answers|
  {
    var f := Fetches(n, index, ack, answers);
    if answers != [] {
      var a, rest := answers[0], answers[1..];
      var d := Delivers(a);
      var index', ack' := if d then index + n else index, if d then Some(index) else ack;
      if Verdict(a) == Some([]) {
        assert answers[..1] == [a];
      } else {
        var g := Fetches(n, index', ack', rest);
        FetchResult(n, index', ack', rest);
        assert answers[..|f.requests|][1..] == rest[..|g.requests|];
        if f.ended {
          assert answers[|f.requests| - 1] == rest[|g.requests| - 1];
        }
      }
    }
  }

  /** The state of a run part-way: `t` answers used, the worker at `index`
      with `ack` pending, and what is left of the run from there completes
      the whole run. */
  predicate Part(n: nat, start: nat, answers: seq<Answer>, t: nat, index: nat, ack: Option<nat>,
                 requests: seq<Get>, forwarded: seq<Bytes>)
  {
    t <= |answers| &&
    var f := Fetches(n, index, ack, answers[t..]);
    Fetch(requests + f.requests, forwarded + f.forwarded, f.ended, f.index) == Fetches(n, start, None, answers)
  }

  /** A failed GET is retried at the same index with the same ACK: the run
      goes on from `t'` answers with `requests'`. */
  lemma PartRetry(n: nat, start: nat, answers: seq<Answer>, t: nat, index: nat, ack: Option<nat>,
                  requests: seq<Get>, forwarded: seq<Bytes>, t': nat, requests': seq<Get>)
    requires Part(n, start, answers, t, index, ack, requests, forwarded) && t < |answers|
    requires Verdict(answers[t]).None?
    requires t' == t + 1 && requests' == requests + [Get(ack, index)]
    ensures Part(n, start, answers, t', index, ack, requests', forwarded)
  {
    assert answers[t..][1..] == answers[t + 1..];
    assert (requests + [Get(ack, index)]) + Fetches(n, index, ack, answers[t + 1..]).requests == requests + ([Get(ack, index)] + Fetches(n, index, ack, answers[t + 1..]).requests);
  }

  /** A non-empty body is forwarded; the next GET acknowledges it and asks
      for the index `n` further on. */
  lemma PartForward(n: nat, start: nat, answers: seq<Answer>, t: nat, index: nat, ack: Option<nat>,
                    requests: seq<Get>, forwarded: seq<Bytes>, body: Bytes,
                    t': nat, index': nat, ack': Option<nat>, requests': seq<Get>, forwarded': seq<Bytes>)
    requires Part(n, start, answers, t, index, ack, requests, forwarded) && t < |answers|
    requires Verdict(answers[t]) == Some(body) && body != []
    requires t' == t + 1 && index' == index + n && ack' == Some(index)
    requires requests' == requests + [Get(ack, index)] && forwarded' == forwarded + [body]
    ensures Part(n, start, answers, t', index', ack', requests', forwarded')
  {
    assert answers[t..][1..] == answers[t + 1..];
    var f := Fetches(n, index + n, Some(index), answers[t + 1..]);
    assert (requests + [Get(ack, index)]) + f.requests == requests + ([Get(ack, index)] + f.requests);
    assert (forwarded + [body]) + f.forwarded == forwarded + ([body] + f.forwarded);
  }

  /** An empty body ends the run. */
  lemma PartEnd(n: nat, start: nat, answers: seq<Answer>, t: nat, index: nat, ack: Option<nat>,
                requests: seq<Get>, forwarded: seq<Bytes>)
    requires Part(n, start, answers, t, index, ack, requests, forwarded) && t < |answers|
    requires Verdict(answers[t]) == Some([])
    ensures Fetch(requests + [Get(ack, index)], forwarded, true, index) == Fetches(n, start, None, answers)
  {
    assert answers[t..][1..] == answers[t + 1..];
  }

  /** `Worker` of the receiving client: the next index it fetches and the
      stride between its indices. */
  class Downloader {
    var index: nat
    const workerNum: nat

    constructor (index: nat, workerNum: nat)
      ensures this.index == index && this.workerNum == workerNum
    {
      this.index := index;
      this.workerNum := workerNum;
    }

    /** `Worker::receive`: one GET of the current index, with the ACK if
        there is one; it changes nothing. */
    method Receive(ack: Option<nat>, a: Answer) returns (req: Get, r: Option<Bytes>)
      ensures req == Get(ack, index)
      ensures r.Some? <==> a.Answered? && IsSuccess(a.code)
      ensures r.Some? ==> r.value == a.body
    {
      req := Get(ack, index);
      r := Verdict(a);
    }

    /** `Worker::run`: retry each GET until it succeeds; an empty body ends
        the worker, any other body is forwarded, acknowledged by the next GET
        and followed by the index `workerNum` further on. */
    method Run(answers: seq<Answer>) returns (requests: seq<Get>, forwarded: seq<Bytes>, ended: bool)
      modifies this
      ensures Fetch(requests, forwarded, ended, index) == Fetches(workerNum, old(index), None, answers)
    {
      requests, forwarded, ended := [], [], false;
      ghost var start := index;
      var ack: Option<nat> := None;
      var t := 0;
      while true
        invariant Part(workerNum, start, answers, t, index, ack, requests, forwarded)
        decreases |answers| - t
      {
        while true
          invariant Part(workerNum, start, answers, t, index, ack, requests, forwarded)
          decreases |answers| - t
        {
          if t == |answers| {
            // no further answer: the worker is still waiting on this GET
            return;
          }
          var req, r := Receive(ack, answers[t]);
          ghost var t0, i0, a0, rq0, fw0 := t, index, ack, requests, forwarded;
          if r.None? {
            t, requests := t + 1, requests + [req];
            PartRetry(workerNum, start, answers, t0, i0, a0, rq0, fw0, t, requests);
          } else if r.value == [] {
            PartEnd(workerNum, start, answers, t, index, ack, requests, forwarded);
            t, requests, ended := t + 1, requests + [req], true;
            return;
          } else {
            t, requests, forwarded := t + 1, requests + [req], forwarded + [r.value];
            ack, index := Some(index), index + workerNum;
            PartForward(workerNum, start, answers, t0, i0, a0, rq0, fw0, r.value, t, index, ack, requests, forwarded);
            break;
          }
        }
      }
    }
  }

  // ---------------------------------------------------------------------------
  // The output loop of `receive`
  // ---------------------------------------------------------------------------

  /** What the output loop finds on a worker's channel: the bodies the worker
      forwarded, and whether the channel is closed after them (the worker
      ended) or stays open with nothing more (the worker is still waiting). */
  datatype Channel = Channel(items: seq<Bytes>, closed: bool)

  /** Where the output loop stopped: at a closed channel, or waiting forever
      on an open one. */
  datatype Halt = Closed | Waiting

  /** What one round of the loop writes from channel `w` on, at position `j`
      of every channel, and where it stopped, if it did. */
  datatype Round = Round(items: seq<Bytes>, halt: Option<Halt>)

  function RoundFrom(chs: seq<Channel>, j: nat, w: nat): (r: Round)
    requires w <= |chs|
    ensures r.halt.None? ==> forall v :: w <= v < |chs| ==> j < |chs[v].items|
    ensures forall b :: b in r.items ==> exists v :: w <= v < |chs| && b in chs[v].items
    decreases |chs| - w
  {
    if w == |chs| then Round([], None)
    else if j < |chs[w].items| then
      var r := RoundFrom(chs, j, w + 1);
      r.(items := [chs[w].items[j]] + r.items)
    else Round([], Some(if chs[w].closed then Closed else Waiting))
  }

  /** What the output loop has written once it stops, from round `j` on. */
  datatype Drained = Drained(out: seq<Bytes>, halt: Halt)

  function Merge(chs: seq<Channel>, j: nat): (d: Drained)
    requires |chs| > 0
    ensures forall b :: b in d.out ==> exists w :: 0 <= w < |chs| && b in chs[w].items
    decreases |chs[0].items| - j
  {
    var r := RoundFrom(chs, j, 0);
    match r.halt
    case Some(h) => Drained(r.items, h)
    case None =>
      var d := Merge(chs, j + 1);
      d.(out := r.items + d.out)
  }

  /** The labelled output loop of `receive`: channels taken in turn 0..N-1,
      over and over; each body is written to standard output, and the loop
      stops at the first closed channel. */
  method Drain(chs: seq<Channel>) returns (out: seq<Bytes>, halt: Halt)
    requires |chs| == WORKER_NUM
    ensures Drained(out, halt) == Merge(chs, 0)
  {
    out := [];
    var j := 0;
    while true
      invariant var d := Merge(chs, j); Drained(out + d.out, d.halt) == Merge(chs, 0)
      decreases |chs[0].items| - j
    {
      ghost var out0 := out;
      var w := 0;
      while w < WORKER_NUM
        invariant w <= WORKER_NUM
        invariant var r, r0 := RoundFrom(chs, j, w), RoundFrom(chs, j, 0);
          r0.halt == r.halt && out0 + r0.items == out + r.items
        decreases WORKER_NUM - w
      {
        if j < |chs[w].items| {
          ghost var r := RoundFrom(chs, j, w + 1);
          ConcatAssoc(out, [chs[w].items[j]], r.items);
          out := out + [chs[w].items[j]];
        } else {
          halt := if chs[w].closed then Closed else Waiting;
          return;
        }
        w := w + 1;
      }
      ConcatAssoc(out0, RoundFrom(chs, j, 0).items, Merge(chs, j + 1).out);
      j := j + 1;
    }
  }

  // ---------------------------------------------------------------------------
  // The output loop undoes the round-robin dealing
  // ---------------------------------------------------------------------------

  /** The packets of `xs` at `w`, `w + n`, `w + 2n`, …: what worker `w` of
      `n` fetches. */
  function Column(xs: seq<Bytes>, w: nat, n: nat): (c: seq<Bytes>)
    requires n > 0
    decreases |xs| - w
  {
    if w >= |xs| then [] else [xs[w]] + Column(xs, w + n, n)
  }

  lemma {:induction false} StrideShift(a: nat, v: nat, n: nat, j: nat)
    ensures Stride(a + v, n, j) == Stride(a, n, j) + v
    decreases j
  {
    if j > 0 {
      StrideShift(a + n, v, n, j - 1);
    }
  }

  /** Position `k` of round `j` is lane `k`. */
  lemma {:induction false} LaneOfRound(n: nat, j: nat, r: nat)
    requires r < n
    ensures Lane(Stride(0, n, j) + r, n) == r
    decreases j
  {
    if j > 0 {
      StrideShift(0, n, n, j - 1);
      LaneOfRound(n, j - 1, r);
    }
  }

  /** `chs` are the columns of `xs`, one per lane. */
  predicate Columns(chs: seq<Channel>, xs: seq<Bytes>, n: nat) {
    n > 0 && |chs| == n && forall v :: 0 <= v < n ==> chs[v].items == Column(xs, v, n)
  }

  /** Entry `j` of column `w` is the packet `j` strides after `w`. */
  lemma {:induction false} ColumnAt(xs: seq<Bytes>, w: nat, n: nat, j: nat)
    requires n > 0
    ensures j < |Column(xs, w, n)| <==> Stride(w, n, j) < |xs|
    ensures j < |Column(xs, w, n)| ==> Column(xs, w, n)[j] == xs[Stride(w, n, j)]
    decreases j
  {
    if w < |xs| && j > 0 {
      ColumnAt(xs, w + n, n, j - 1);
    }
  }

  /** Lane `w` holds the packet at position `w` of round `j`, if there is one. */
  lemma LaneHolds(chs: seq<Channel>, xs: seq<Bytes>, n: nat, j: nat, w: nat)
    requires Columns(chs, xs, n) && w < n
    ensures var p := Stride(0, n, j) + w;
      && (j < |chs[w].items| <==> p < |xs|)
      && (p < |xs| ==> chs[w].items[j] == xs[p])
  {
    ColumnAt(xs, w, n, j);
    StrideShift(0, w, n, j);
  }

  /** A round `j` that lies wholly inside `xs` writes its packets, from lane
      `w` on, and does not stop. */
  lemma {:induction false} FullRoundFrom(chs: seq<Channel>, xs: seq<Bytes>, n: nat, j: nat, w: nat)
    requires Columns(chs, xs, n) && w <= n
    requires Stride(0, n, j) + n <= |xs|
    ensures var base := Stride(0, n, j);
      RoundFrom(chs, j, w) == Round(xs[base + w..base + n], None)
    decreases n - w
  {
    var base := Stride(0, n, j);
    if w < n {
      LaneHolds(chs, xs, n, j, w);
      FullRoundFrom(chs, xs, n, j, w + 1);
      var r := RoundFrom(chs, j, w + 1);
      assert RoundFrom(chs, j, w) == Round([xs[base + w]] + r.items, r.halt);
      assert xs[base + w..base + n] == [xs[base + w]] + xs[base + w + 1..base + n];
    }
  }

  /** The round `j` that passes the end of `xs` writes what is left, from
      lane `w` on, and stops on the lane of the position after the last
      packet. */
  lemma {:induction false} LastRoundFrom(chs: seq<Channel>, xs: seq<Bytes>, n: nat, j: nat, w: nat)
    requires Columns(chs, xs, n)
    requires Stride(0, n, j) + w <= |xs| < Stride(0, n, j) + n
    ensures var base := Stride(0, n, j);
      RoundFrom(chs, j, w) == Round(xs[base + w..], Some(if chs[|xs| - base].closed then Closed else Waiting))
    decreases n - w
  {
    var base := Stride(0, n, j);
    LaneHolds(chs, xs, n, j, w);
    if base + w < |xs| {
      LastRoundFrom(chs, xs, n, j, w + 1);
      var r := RoundFrom(chs, j, w + 1);
      assert RoundFrom(chs, j, w) == Round([xs[base + w]] + r.items, r.halt);
      assert xs[base + w..] == [xs[base + w]] + xs[base + w + 1..];
    }
  }

  /** A round that finds every lane's packet writes them all and goes on. */
  lemma FullRound(chs: seq<Channel>, xs: seq<Bytes>, n: nat, j: nat)
    requires Columns(chs, xs, n) && Stride(0, n, j) + n <= |xs|
    ensures var base, d := Stride(0, n, j), Merge(chs, j + 1);
      Merge(chs, j) == Drained(xs[base..base + n] + d.out, d.halt)
  {
    FullRoundFrom(chs, xs, n, j, 0);
  }

  /** The round that passes the end of `xs` writes the rest and stops at the
      lane of the position after the last packet. */
  lemma LastRound(chs: seq<Channel>, xs: seq<Bytes>, n: nat, j: nat)
    requires Columns(chs, xs, n) && Stride(0, n, j) <= |xs| < Stride(0, n, j) + n
    ensures Merge(chs, j) == Drained(xs[Stride(0, n, j)..], if chs[Lane(|xs|, n)].closed then Closed else Waiting)
  {
    var base := Stride(0, n, j);
    var h := if chs[Lane(|xs|, n)].closed then Closed else Waiting;
    LastRoundFrom(chs, xs, n, j, 0);
    var r := RoundFrom(chs, j, 0);
    LaneOfRound(n, j, |xs| - base);
    assert r == Round(xs[base..], Some(h));
  }

  /** From round `j` on, merging the columns writes the rest of `xs`, and
      stops at the lane of the position after the last packet. */
  lemma {:induction false} MergeOfColumns(chs: seq<Channel>, xs: seq<Bytes>, n: nat, j: nat)
    requires Columns(chs, xs, n) && Stride(0, n, j) <= |xs|
    ensures Merge(chs, j) == Drained(xs[Stride(0, n, j)..], if chs[Lane(|xs|, n)].closed then Closed else Waiting)
    decreases |xs| - Stride(0, n, j)
  {
    var base := Stride(0, n, j);
    if base + n <= |xs| {
      FullRound(chs, xs, n, j);
      StrideShift(0, n, n, j);
      assert Stride(0, n, j + 1) == base + n;
      MergeOfColumns(chs, xs, n, j + 1);
      assert xs[base..base + n] + xs[base + n..] == xs[base..];
    } else {
      LastRound(chs, xs, n, j);
    }
  }

  /** The round-robin output loop undoes the round-robin dealing: over the
      columns of `xs` it writes exactly `xs`, in order, and it stops at the
      lane due to hold the packet after the last one. */
  lemma MergeColumns(chs: seq<Channel>, xs: seq<Bytes>, n: nat)
    requires Columns(chs, xs, n)
    ensures Merge(chs, 0) == Drained(xs, if chs[Lane(|xs|, n)].closed then Closed else Waiting)
  {
    MergeOfColumns(chs, xs, n, 0);
  }

  /** The answers a worker starting at index `s` gets from a server that
      holds the stream `ts` and answers every GET at once: the packet of each
      index, until the indices pass the end of the stream, where the GET waits
      for good. */
  function ServedAnswers(ts: seq<Bytes>, s: nat, n: nat): seq<Answer>
    requires n > 0
    decreases |ts| - s
  {
    if s >= |ts| then [] else [Answered(OK, ts[s])] + ServedAnswers(ts, s + n, n)
  }

  /** A stream whose last packet, and only its last, is empty. */
  predicate EndsWithEmpty(ts: seq<Bytes>) {
    |ts| > 0 && ts[|ts| - 1] == [] && forall k :: 0 <= k < |ts| - 1 ==> ts[k] != []
  }

  /** Fed by such a server, a worker forwards its column of the stream's
      data, and ends exactly when its indices reach the empty packet. */
  lemma {:induction false} FetchServed(ts: seq<Bytes>, s: nat, n: nat, ack: Option<nat>)
    requires n > 0 && EndsWithEmpty(ts)
    ensures var f := Fetches(n, s, ack, ServedAnswers(ts, s, n));
      && f.forwarded == Column(ts[..|ts| - 1], s, n)
      && (f.ended <==> s <= |ts| - 1 && Lane(|ts| - 1 - s, n) == 0)
    decreases |ts| - s
  {
    var xs := ts[..|ts| - 1];
    if s < |ts| - 1 {
      assert ts[s] != [] && xs[s] == ts[s];
      FetchServed(ts, s + n, n, Some(s));
    }
  }
}
