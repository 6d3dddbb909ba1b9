/** Values shared by the client and the server: bytes, the numbered packet
    record and the HTTP status codes the handlers answer with. */
module Common {

  newtype byte = b: int | 0 <= b < 256

  type Bytes = seq<byte>

  /** One numbered slice of the piped stream; an empty `data` marks the end. */
  datatype Packet = Packet(index: nat, data: Bytes)

  datatype Option<T> = None | Some(value: T)

  const OK: nat := 200
  const BAD_REQUEST: nat := 400
  const GONE: nat := 410
  const PRECONDITION_FAILED: nat := 412
  const INTERNAL_SERVER_ERROR: nat := 500

  /** What `StatusCode::is_success` accepts: the 2xx range. */
  predicate IsSuccess(code: nat) {
    200 <= code < 300
  }

  /** The bytes of a list of buffers, written one after the other. */
  function Flatten(parts: seq<Bytes>): Bytes {
    if parts == [] then [] else parts[0] + Flatten(parts[1..])
  }

  lemma FlattenCons(c: Bytes, parts: seq<Bytes>)
    ensures Flatten([c] + parts) == c + Flatten(parts)
  {
    assert ([c] + parts)[1..] == parts;
  }

  lemma {:induction false} FlattenAppend(a: seq<Bytes>, b: seq<Bytes>)
    ensures Flatten(a + b) == Flatten(a) + Flatten(b)
  {
    if a == [] {
      assert a + b == b;
    } else {
      assert (a + b)[1..] == a[1..] + b;
      FlattenAppend(a[1..], b);
    }
  }

  /** Regrouping a concatenation of three (a proof step kept out of line so
      that the large loop bodies that need it stay cheap). */
  lemma ConcatAssoc<T>(a: seq<T>, b: seq<T>, c: seq<T>)
    ensures (a + b) + c == a + (b + c)
  {
  }

  /** Of three growing sequences, what the third adds to the first is what
      the second adds, then what the third adds to the second. */
  lemma PrefixSplit<T>(a: seq<T>, b: seq<T>, c: seq<T>)
    requires a <= b <= c
    ensures c[|a|..] == b[|a|..] + c[|b|..]
  {
    assert b == c[..|b|];
  }

  /** `q` and `r` are the quotient and remainder of `a` by `n`. */
  lemma ModUnique(a: int, n: int, q: int, r: int)
    requires n > 0 && 0 <= r < n && a == q * n + r
    ensures a % n == r && a / n == q
  {
    var q', r' := a / n, a % n;
    assert a == q' * n + r' && 0 <= r' < n;
    ScaledGap(q, q', n);
  }

  /** Two different multiples of `n` are at least `n` apart. */
  lemma {:induction false} ScaledGap(q: int, q': int, n: int)
    requires n > 0
    ensures q == q' || q * n - q' * n >= n || q' * n - q * n >= n
    decreases if q > q' then q - q' else q' - q
  {
    if q > q' + 1 {
      ScaledGap(q - 1, q', n);
      assert q * n == (q - 1) * n + n;
    } else if q' > q + 1 {
      ScaledGap(q, q' - 1, n);
      assert q' * n == (q' - 1) * n + n;
    } else if q == q' + 1 {
      assert q * n == q' * n + n;
    } else if q' == q + 1 {
      assert q' * n == q * n + n;
    }
  }

  /** The channel (or worker) that index `k` falls to when `n` of them take
      turns: `k mod n`, counted down so that the solver unfolds it lazily. */
  function Lane(k: nat, n: nat): (w: nat)
    requires n > 0
    ensures w < n
    decreases k
  {
    if k < n then k else Lane(k - n, n)
  }

  /** Lanes are the Euclidean remainder. */
  lemma {:induction false} LaneIsMod(k: nat, n: nat)
    requires n > 0
    ensures Lane(k, n) == k % n
    decreases k
  {
    if k < n {
      ModUnique(k, n, 0, k);
    } else {
      LaneIsMod(k - n, n);
      assert k - n == ((k - n) / n) * n + (k - n) % n && 0 <= (k - n) % n < n;
      ModUnique(k, n, (k - n) / n + 1, (k - n) % n);
    }
  }

  /** The next index falls to the next lane, wrapping at `n`. */
  lemma {:induction false} LaneSuccessor(k: nat, n: nat)
    requires n > 0
    ensures Lane(k + 1, n) == if Lane(k, n) + 1 == n then 0 else Lane(k, n) + 1
    decreases k
  {
    if k >= n {
      LaneSuccessor(k - n, n);
    }
  }

  /** Going back from `k` by its own lane lands on a lane-0 index. */
  lemma {:induction false} LaneBase(k: nat, n: nat)
    requires n > 0
    ensures Lane(k, n) <= k && Lane(k - Lane(k, n), n) == 0
    decreases k
  {
    if k >= n {
      LaneBase(k - n, n);
      var b := k - n - Lane(k - n, n);
      assert Lane(b + n, n) == Lane(b, n);
    }
  }
}
