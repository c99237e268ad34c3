/** The DMA channel choice of the output controller: the list of ids in
    [0, 15) that are neither reserved nor already hold a servo channel,
    and its first element. */
module Channels {
  import opened Outcomes

  /** Number of DMA channel ids the allocator scans. */
  const ChannelCount: int := 15

  /** `x` may be handed out: in range, not reserved, not taken. */
  predicate Free(x: int, reserved: seq<int>, taken: set<int>)
  {
    0 <= x < ChannelCount && x !in reserved && x !in taken
  }

  /** The free ids from `k` upwards, in increasing order. */
  function AvailableFrom(k: int, reserved: seq<int>, taken: set<int>): (r: seq<int>)
    requires 0 <= k <= ChannelCount
    decreases ChannelCount - k
    ensures forall x :: x in r <==> k <= x && Free(x, reserved, taken)
    ensures forall i, j :: 0 <= i < j < |r| ==> r[i] < r[j]
  {
    if k == ChannelCount then []
    else
      var rest := AvailableFrom(k + 1, reserved, taken);
      if k !in reserved && k !in taken then
        assert forall j :: 0 <= j < |rest| ==> k < rest[j] by {
          forall j | 0 <= j < |rest| ensures k < rest[j] { assert rest[j] in rest; }
        }
        [k] + rest
      else rest
  }

  /** The comprehension `[x for x in range(15) if x not in reserved and
      x not in taken]`. */
  function Available(reserved: seq<int>, taken: set<int>): seq<int>
  {
    AvailableFrom(0, reserved, taken)
  }

  /** The channel get_dma_channel returns: the least free id, or none when
      every id is reserved or taken. */
  function FirstAvailable(reserved: seq<int>, taken: set<int>): (r: Option<int>)
    ensures r.None? <==> forall x :: 0 <= x < ChannelCount ==> !Free(x, reserved, taken)
    ensures r.Some? ==> Free(r.value, reserved, taken)
    ensures r.Some? ==> forall x :: 0 <= x < r.value ==> !Free(x, reserved, taken)
  {
    var a := Available(reserved, taken);
    if |a| > 0 then
      assert a[0] in a;
      Some(a[0])
    else None
  }

  /** Taking an id below `k` does not change the free ids from `k` on. */
  lemma {:induction false} AvailableFromIgnoresBelow(k: int, reserved: seq<int>, taken: set<int>, c: int)
    requires 0 <= k <= ChannelCount && c < k
    decreases ChannelCount - k
    ensures AvailableFrom(k, reserved, taken + {c}) == AvailableFrom(k, reserved, taken)
  {
    if k < ChannelCount {
      AvailableFromIgnoresBelow(k + 1, reserved, taken, c);
    }
  }

  /** Taking the first free id from `k` on removes exactly that id. */
  lemma {:induction false} AvailableFromConsumes(k: int, reserved: seq<int>, taken: set<int>)
    requires 0 <= k <= ChannelCount
    requires |AvailableFrom(k, reserved, taken)| > 0
    decreases ChannelCount - k
    ensures var a := AvailableFrom(k, reserved, taken);
      AvailableFrom(k, reserved, taken + {a[0]}) == a[1..]
  {
    var a := AvailableFrom(k, reserved, taken);
    if k !in reserved && k !in taken {
      AvailableFromIgnoresBelow(k + 1, reserved, taken, k);
    } else {
      AvailableFromConsumes(k + 1, reserved, taken);
    }
  }

  /** Each allocation removes the id it returns from the free list, and
      nothing else. */
  lemma AllocationConsumes(reserved: seq<int>, taken: set<int>)
    requires FirstAvailable(reserved, taken).Some?
    ensures var c := FirstAvailable(reserved, taken).value;
      Available(reserved, taken + {c}) == Available(reserved, taken)[1..]
  {
    AvailableFromConsumes(0, reserved, taken);
  }

  /** The ids taken after `n` successive allocations, each of which marks
      the id it returned as holding a servo channel. */
  function Drain(reserved: seq<int>, taken: set<int>, n: nat): set<int>
    decreases n
  {
    if n == 0 then taken
    else match FirstAvailable(reserved, taken)
      case None => taken
      case Some(c) => Drain(reserved, taken + {c}, n - 1)
  }

  /** `n` allocations use up exactly the first `n` free ids. */
  lemma {:induction false} DrainConsumes(reserved: seq<int>, taken: set<int>, n: nat)
    requires n <= |Available(reserved, taken)|
    decreases n
    ensures Available(reserved, Drain(reserved, taken, n)) == Available(reserved, taken)[n..]
  {
    if n > 0 {
      var a := Available(reserved, taken);
      var c := FirstAvailable(reserved, taken).value;
      var t := taken + {c};
      assert Drain(reserved, taken, n) == Drain(reserved, t, n - 1);
      AllocationConsumes(reserved, taken);
      var b := Available(reserved, t);
      assert b == a[1..];
      DrainConsumes(reserved, t, n - 1);
      assert b[n - 1..] == a[n..];
    }
  }

  /** After `n` allocations the next one fails exactly when `n` is the
      number of ids that were free to begin with. */
  lemma Exhaustion(reserved: seq<int>, taken: set<int>, n: nat)
    requires n <= |Available(reserved, taken)|
    ensures FirstAvailable(reserved, Drain(reserved, taken, n)).None? <==> n == |Available(reserved, taken)|
  {
    DrainConsumes(reserved, taken, n);
  }

  /** When every reserved id lies below `k` and nothing is taken, every id
      from `k` to the end of the range is free. */
  lemma {:induction false} UnreservedTail(k: int, reserved: seq<int>)
    requires 0 <= k <= ChannelCount
    requires forall x :: x in reserved ==> x < k
    decreases ChannelCount - k
    ensures |AvailableFrom(k, reserved, {})| == ChannelCount - k
  {
    if k < ChannelCount {
      UnreservedTail(k + 1, reserved);
    }
  }

  /** With nothing reserved the first allocation is channel 0; with 0 and
      1 reserved it is channel 2, thirteen allocations succeed and the
      fourteenth fails. */
  lemma AllocationExamples()
    ensures FirstAvailable([], {}) == Some(0)
    ensures FirstAvailable([0, 1], {}) == Some(2)
    ensures FirstAvailable([0, 1], Drain([0, 1], {}, 12)).Some?
    ensures FirstAvailable([0, 1], Drain([0, 1], {}, 13)).None?
  {
    UnreservedTail(0, []);
    UnreservedTail(2, [0, 1]);
    assert Available([0, 1], {}) == AvailableFrom(2, [0, 1], {});
    Exhaustion([0, 1], {}, 12);
    Exhaustion([0, 1], {}, 13);
  }
}
