/** The server's bounded packet queue: a double-ended queue of slots, each
    holding a packet or a hole left by an acknowledgement. Slot `j` stands for
    absolute index `first + j`, where `first` is the index of the packet in
    the front slot; holes are popped as soon as they reach the front. */
module ServerQueue {
  import opened Common

  type Slots = seq<Option<Packet>>

  /** Outcome of one poll of `poll_push`: a full queue parks the writer. */
  datatype PushResult = Pushed | PushPending

  /** Outcome of one poll of `poll_get`: `Ready(None)` is a packet already
      acknowledged (or below the front); `GetPending` parks the reader. */
  datatype GetResult = GetPending | Ready(slot: Option<Packet>)

  /** Outcome of `remove`; `OutOfBounds` is the index panic of the slot write. */
  datatype RemoveResult = Removed | Ignored | OutOfBounds

  /** The front slot is never a hole: `q[0].as_ref().unwrap()` relies on it. */
  predicate FrontPresent(s: Slots) {
    |s| > 0 ==> s[0].Some?
  }

  function FirstIndex(s: Slots): nat
    requires |s| > 0 && s[0].Some?
  {
    s[0].value.index
  }

  /** Contiguity: the slots are the absolute indices `next - |s| .. next - 1`,
      each slot holding the packet of its own index or a hole. */
  predicate ContiguousUpTo(s: Slots, next: nat) {
    |s| <= next &&
    forall j :: 0 <= j < |s| && s[j].Some? ==> s[j].value.index == next - |s| + j
  }

  /** The `while let Some(None) = q.front()` loop, as a value. */
  function DropLeadingHoles(s: Slots): (r: Slots)
    ensures FrontPresent(r)
    ensures |r| <= |s| && r == s[|s| - |r|..]
    ensures forall j :: 0 <= j < |s| - |r| ==> s[j].None?
    decreases |s|
  {
    if |s| > 0 && s[0].None? then DropLeadingHoles(s[1..]) else s
  }

  /** What one poll of `get(i)` sees. */
  function Lookup(s: Slots, i: nat): (r: GetResult)
    requires FrontPresent(s)
    ensures |s| == 0 ==> r == GetPending
    ensures r.Ready? && r.slot.Some? ==> r.slot in s
  {
    if |s| == 0 then GetPending
    else if i < FirstIndex(s) then Ready(None)
    else if i - FirstIndex(s) < |s| then Ready(s[i - FirstIndex(s)])
    else GetPending
  }

  /** `remove(i)` would index past the back of the queue and panic. */
  predicate RemovePanics(s: Slots, i: nat)
    requires FrontPresent(s)
  {
    |s| > 0 && FirstIndex(s) <= i && i - FirstIndex(s) >= |s|
  }

  /** `remove(i)` returns at once: empty queue, or `i` below the front. */
  predicate RemoveIgnores(s: Slots, i: nat)
    requires FrontPresent(s)
  {
    |s| == 0 || i < FirstIndex(s)
  }

  /** The slots after a `remove(i)` that neither returns early nor panics:
      slot `i` becomes a hole and the leading holes are popped. */
  function AfterRemove(s: Slots, i: nat): (r: Slots)
    requires FrontPresent(s) && !RemoveIgnores(s, i) && !RemovePanics(s, i)
    ensures FrontPresent(r) && |r| <= |s|
    ensures forall j :: 0 <= j < |r| ==>
              r[j] == if |s| - |r| + j == i - FirstIndex(s) then None else s[|s| - |r| + j]
  {
    DropLeadingHoles(s[i - FirstIndex(s) := None])
  }

  /** A lookup on a contiguous queue: beyond the back it waits, below the
      front it reports the packet gone, and in between it yields exactly the
      slot of that index, which holds the packet numbered `i` or a hole. */
  lemma LookupContiguous(s: Slots, next: nat, i: nat)
    requires FrontPresent(s) && ContiguousUpTo(s, next)
    ensures |s| == 0 ==> Lookup(s, i) == GetPending
    ensures i >= next ==> Lookup(s, i) == GetPending
    ensures |s| > 0 && i < next - |s| ==> Lookup(s, i) == Ready(None)
    ensures |s| > 0 && next - |s| <= i < next ==> Lookup(s, i) == Ready(s[i - (next - |s|)])
    ensures Lookup(s, i).Ready? && Lookup(s, i).slot.Some? ==> Lookup(s, i).slot.value.index == i
  {
    if |s| > 0 {
      assert s[0].Some?;
      assert FirstIndex(s) == next - |s|;
    }
  }

  /** Punching a hole and popping leading holes keeps the contiguity of the
      slots that remain, and never leaves a hole at the front. */
  lemma {:induction false} DropLeadingHolesContiguous(s: Slots, next: nat)
    requires ContiguousUpTo(s, next)
    ensures ContiguousUpTo(DropLeadingHoles(s), next)
    decreases |s|
  {
    if |s| > 0 && s[0].None? {
      var t := s[1..];
      forall j | 0 <= j < |t| && t[j].Some?
        ensures t[j].value.index == next - |t| + j
      {
        assert t[j] == s[j + 1];
      }
      DropLeadingHolesContiguous(t, next);
    }
  }

  lemma RemoveContiguous(s: Slots, next: nat, i: nat)
    requires FrontPresent(s) && ContiguousUpTo(s, next)
    requires !RemoveIgnores(s, i) && !RemovePanics(s, i)
    ensures ContiguousUpTo(AfterRemove(s, i), next)
    ensures FrontPresent(AfterRemove(s, i))
    ensures |AfterRemove(s, i)| <= |s|
  {
    var punched := s[i - FirstIndex(s) := None];
    assert ContiguousUpTo(punched, next) by {
      forall j | 0 <= j < |punched| && punched[j].Some?
        ensures punched[j].value.index == next - |punched| + j
      {
        assert punched[j] == s[j];
      }
    }
    DropLeadingHolesContiguous(punched, next);
  }

  /** On a contiguous queue `remove` stays within bounds for every index the
      queue has seen, i.e. below `next`. */
  lemma RemoveBelowNextInBounds(s: Slots, next: nat, i: nat)
    requires FrontPresent(s) && ContiguousUpTo(s, next)
    ensures RemovePanics(s, i) <==> |s| > 0 && i >= next
  {
    if |s| > 0 {
      assert FirstIndex(s) == next - |s|;
    }
  }

  /** Acknowledging the packet at the front always frees at least one slot,
      which is what lets a parked writer make progress. */
  lemma RemoveFrontFrees(s: Slots)
    requires |s| > 0 && s[0].Some?
    ensures !RemoveIgnores(s, FirstIndex(s)) && !RemovePanics(s, FirstIndex(s))
    ensures |AfterRemove(s, FirstIndex(s))| < |s|
  {
    var punched := s[0 := None];
    assert punched[0].None?;
    assert DropLeadingHoles(punched) == DropLeadingHoles(punched[1..]);
  }

  /** A second `remove` of the same index changes nothing. */
  lemma RemoveIdempotent(s: Slots, next: nat, i: nat)
    requires FrontPresent(s) && ContiguousUpTo(s, next)
    requires !RemoveIgnores(s, i) && !RemovePanics(s, i)
    ensures var t := AfterRemove(s, i);
      RemoveIgnores(t, i) ||
      (!RemovePanics(t, i) && AfterRemove(t, i) == t)
  {
    var first := next - |s|;
    assert FirstIndex(s) == first;
    var punched := s[i - first := None];
    var t := AfterRemove(s, i);
    RemoveContiguous(s, next, i);
    if |t| > 0 && i >= FirstIndex(t) {
      assert FirstIndex(t) == next - |t|;
      var k := i - (next - |t|);
      assert k < |t|;
      // slot k of t is slot i - first of the punched queue, already a hole
      assert t == punched[|punched| - |t|..];
      assert t[k] == punched[|punched| - |t| + k];
      assert |punched| - |t| + k == i - first;
      assert t[k].None?;
      assert t[k := None] == t;
      assert DropLeadingHoles(t) == t;
    }
  }

  class Queue {
    /** The `VecDeque<Option<Packet>>` behind the mutex. */
    var slots: Slots
    const capacity: nat

    ghost predicate Valid()
      reads this
    {
      |slots| <= capacity && FrontPresent(slots)
    }

    /** `Queue::new`: an empty queue with the given capacity. */
    constructor (capacity: nat)
      ensures Valid()
      ensures slots == [] && this.capacity == capacity
    {
      this.capacity := capacity;
      slots := [];
    }

    /** One poll of `push(e)`: appends only while there is room. */
    method Push(e: Packet) returns (r: PushResult)
      requires Valid()
      modifies this
      ensures Valid()
      ensures r == Pushed <==> |old(slots)| < capacity
      ensures r == Pushed ==> slots == old(slots) + [Some(e)]
      ensures r == PushPending ==> slots == old(slots)
    {
      if |slots| < capacity {
        slots := slots + [Some(e)];
        r := Pushed;
      } else {
        r := PushPending;
      }
    }

    /** One poll of `get(i)`; it changes nothing. */
    method Get(i: nat) returns (r: GetResult)
      requires Valid()
      ensures r == Lookup(slots, i)
    {
      if |slots| == 0 {
        return GetPending;
      }
      var first := slots[0].value.index;
      if i < first {
        return Ready(None);
      }
      if i - first < |slots| {
        return Ready(slots[i - first]);
      }
      r := GetPending;
    }

    /** `remove(i)`: punch a hole at slot `i`, then pop every leading hole. */
    method Remove(i: nat) returns (r: RemoveResult)
      requires Valid()
      modifies this
      ensures Valid()
      ensures r == Ignored <==> RemoveIgnores(old(slots), i)
      ensures r == OutOfBounds <==> RemovePanics(old(slots), i)
      ensures r != Removed ==> slots == old(slots)
      ensures r == Removed ==> slots == AfterRemove(old(slots), i)
    {
      if |slots| == 0 || slots[0].value.index > i {
        return Ignored;
      }
      var first := slots[0].value.index;
      if i - first >= |slots| {
        return OutOfBounds;
      }
      slots := slots[i - first := None];
      while |slots| > 0 && slots[0].None?
        invariant |slots| <= capacity
        invariant DropLeadingHoles(slots) == AfterRemove(old(slots), i)
        decreases |slots|
      {
        slots := slots[1..];
      }
      r := Removed;
    }
  }
}
