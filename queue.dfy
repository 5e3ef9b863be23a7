/** The 60-slot `Queue` of queue.go. `Pop` hands out slot 59 and `Push` puts
    a new item in slot 0 after a `Pop`. Between the two, the loop copies slot 0
    forward through the array one slot at a time: each slot receives the
    value its lower neighbour has just received, so slot 0 spreads across the
    whole array instead of the contents moving up by one.

    The names `Queue`, `Push` and `Pop`, and `Pop` handing out slot 59, point
    to a shift register: every item moving up one slot per `Push` and leaving
    at slot 59. The second half of the module gives that shifting loop (it
    copies from the top down) and the first-in-first-out property it has,
    next to what the loop as written does instead. */
module SlotQueue {
  import opened Int64Arith

  /** The fixed size of the `[60]int64` array. */
  const Capacity: nat := 60

  // ---------------------------------------------------------------------
  // The loop as written
  // ---------------------------------------------------------------------

  /** The slots after the first `n` rounds of the forward loop, round `i`
      doing `slots[i+1] := slots[i]`. */
  function ForwardCopy(s: seq<Int64>, n: nat): (r: seq<Int64>)
    requires n < |s|
    ensures |r| == |s|
    decreases n
  {
    if n == 0 then s
    else
      var p := ForwardCopy(s, n - 1);
      p[n := p[n - 1]]
  }

  /** After `n` rounds, slots 0..n all hold the original slot 0 and the slots
      above n are untouched: the loop propagates, it does not shift. */
  lemma {:induction false} ForwardCopyPropagates(s: seq<Int64>, n: nat)
    requires n < |s|
    ensures forall k :: 0 <= k <= n ==> ForwardCopy(s, n)[k] == s[0]
    ensures forall k :: n < k < |s| ==> ForwardCopy(s, n)[k] == s[k]
    decreases n
  {
    if n > 0 {
      ForwardCopyPropagates(s, n - 1);
    }
  }

  /** The slots after `Pop`: the loop's 59 rounds, then slot 0 cleared. */
  function Popped(s: seq<Int64>): (r: seq<Int64>)
    requires |s| == Capacity
    ensures |r| == Capacity && r[0] == 0
    ensures forall k :: 1 <= k < Capacity ==> r[k] == s[0]
  {
    ForwardCopyPropagates(s, Capacity - 1);
    ForwardCopy(s, Capacity - 1)[0 := 0]
  }

  /** The slots after `Push(x)`. */
  function Pushed(s: seq<Int64>, x: Int64): (r: seq<Int64>)
    requires |s| == Capacity
    ensures |r| == Capacity && r[0] == x
    ensures forall k :: 1 <= k < Capacity ==> r[k] == s[0]
  {
    Popped(s)[0 := x]
  }

  /** Pushing the items `xs` one after another. */
  function PushAll(s: seq<Int64>, xs: seq<Int64>): (r: seq<Int64>)
    requires |s| == Capacity
    ensures |r| == Capacity
    decreases |xs|
  {
    if xs == [] then s else PushAll(Pushed(s, xs[0]), xs[1..])
  }

  /** After two or more pushes the queue holds only the last two items: the
      last in slot 0 and the one before it in every other slot, whatever was
      there before. */
  lemma {:induction false} PushAllCollapses(s: seq<Int64>, xs: seq<Int64>)
    requires |s| == Capacity && |xs| >= 2
    ensures PushAll(s, xs)[0] == xs[|xs| - 1]
    ensures forall k :: 1 <= k < Capacity ==> PushAll(s, xs)[k] == xs[|xs| - 2]
    decreases |xs|
  {
    var t := Pushed(s, xs[0]);
    if |xs| == 2 {
      var u := Pushed(t, xs[1]);
      assert xs[1..][1..] == [];
      assert PushAll(t, xs[1..]) == PushAll(u, []) == u;
    } else {
      PushAllCollapses(t, xs[1..]);
    }
  }

  /** The array-backed queue. */
  class Queue {
    var slots: array<Int64>

    ghost predicate Valid()
      reads this
    {
      slots.Length == Capacity
    }

    /** A zero `Queue`: Go's zero value has all 60 slots 0. */
    constructor ()
      ensures Valid() && fresh(slots)
      ensures forall k :: 0 <= k < Capacity ==> slots[k] == 0
    {
      slots := new Int64[Capacity](_ => 0);
    }

    /** Returns slot 59 and runs the forward loop, then clears slot 0. */
    method Pop() returns (item: Int64)
      requires Valid()
      modifies slots
      ensures Valid()
      ensures item == old(slots[Capacity - 1])
      ensures slots[0] == 0
      ensures forall k :: 1 <= k < Capacity ==> slots[k] == old(slots[0])
      ensures slots[..] == Popped(old(slots[..]))
    {
      item := slots[59];
      for i := 0 to 59
        invariant forall k :: 0 <= k <= i ==> slots[k] == old(slots[0])
        invariant forall k :: i < k < Capacity ==> slots[k] == old(slots[k])
      {
        slots[i + 1] := slots[i];
      }
      slots[0] := 0;
    }

    /** `Pop`, then `item` into slot 0. */
    method Push(item: Int64)
      requires Valid()
      modifies slots
      ensures Valid()
      ensures slots[0] == item
      ensures forall k :: 1 <= k < Capacity ==> slots[k] == old(slots[0])
      ensures slots[..] == Pushed(old(slots[..]), item)
    {
      var _ := Pop();
      slots[0] := item;
    }

    /** Corrected `Pop`: the copy runs from the top down, so every item moves
        up one slot. */
    method PopShifted() returns (item: Int64)
      requires Valid()
      modifies slots
      ensures Valid()
      ensures item == old(slots[Capacity - 1])
      ensures slots[..] == Shifted(old(slots[..]))
    {
      item := slots[59];
      for i := 59 downto 0
        invariant forall k :: i < k < Capacity ==> slots[k] == old(slots[k - 1])
        invariant forall k :: 0 <= k <= i ==> slots[k] == old(slots[k])
      {
        slots[i + 1] := slots[i];
      }
      slots[0] := 0;
    }

    /** Corrected `Push`. */
    method PushShifted(item: Int64)
      requires Valid()
      modifies slots
      ensures Valid()
      ensures slots[..] == ShiftPushed(old(slots[..]), item)
    {
      var _ := PopShifted();
      slots[0] := item;
    }
  }

  // ---------------------------------------------------------------------
  // The intended shift
  // ---------------------------------------------------------------------

  /** The slots after a shifting `Pop`: everything one slot up, 0 at the
      bottom, the old slot 59 handed out. */
  function Shifted(s: seq<Int64>): (r: seq<Int64>)
    requires |s| == Capacity
    ensures |r| == Capacity && r[0] == 0
    ensures forall k :: 1 <= k < Capacity ==> r[k] == s[k - 1]
  {
    [0] + s[..Capacity - 1]
  }

  /** The slots after a shifting `Push(x)`. */
  function ShiftPushed(s: seq<Int64>, x: Int64): (r: seq<Int64>)
    requires |s| == Capacity
    ensures |r| == Capacity && r[0] == x
    ensures forall k :: 1 <= k < Capacity ==> r[k] == s[k - 1]
  {
    Shifted(s)[0 := x]
  }

  /** Pushing the items `xs` one after another with the shifting `Push`. */
  function ShiftPushAll(s: seq<Int64>, xs: seq<Int64>): (r: seq<Int64>)
    requires |s| == Capacity
    ensures |r| == Capacity
    decreases |xs|
  {
    if xs == [] then s else ShiftPushAll(ShiftPushed(s, xs[0]), xs[1..])
  }

  /** Shifting pushes keep the items in order: after pushing up to 60 items,
      the newest is in slot 0, older ones above it, and the previous contents
      above those. */
  lemma {:induction false} ShiftPushAllOrder(s: seq<Int64>, xs: seq<Int64>)
    requires |s| == Capacity && |xs| <= Capacity
    ensures forall k :: 0 <= k < |xs| ==> ShiftPushAll(s, xs)[k] == xs[|xs| - 1 - k]
    ensures forall k :: |xs| <= k < Capacity ==> ShiftPushAll(s, xs)[k] == s[k - |xs|]
    decreases |xs|
  {
    if xs != [] {
      var t := ShiftPushed(s, xs[0]);
      ShiftPushAllOrder(t, xs[1..]);
      assert ShiftPushAll(s, xs) == ShiftPushAll(t, xs[1..]);
    }
  }

  /** First in, first out: after 60 shifting pushes the first item pushed is
      in slot 59, the one `Pop` hands out next. */
  lemma OldestLeavesFirst(s: seq<Int64>, xs: seq<Int64>)
    requires |s| == Capacity && |xs| == Capacity
    ensures ShiftPushAll(s, xs)[Capacity - 1] == xs[0]
  {
    ShiftPushAllOrder(s, xs);
  }

  /** The loop as written loses items: after pushing `a` then `b`, slot 59
      already holds `a`, so the next `Pop` hands out `a` after only two pushes,
      and everything that was in the queue before is gone. */
  lemma PushTwiceLosesContents(s: seq<Int64>, a: Int64, b: Int64)
    requires |s| == Capacity
    ensures PushAll(s, [a, b])[Capacity - 1] == a
    ensures forall k :: 1 <= k < Capacity ==> PushAll(s, [a, b])[k] == a
  {
    PushAllCollapses(s, [a, b]);
  }

  /** A concrete queue on which the two loops differ: slots 0 and 1 hold 1
      and 2, the rest 0. The loop as written leaves 1 in slot 2 where the
      shift puts the 2 from slot 1. */
  lemma PopDoesNotShift()
    ensures Popped([1, 2] + seq(Capacity - 2, _ => 0))[2] == 1
    ensures Shifted([1, 2] + seq(Capacity - 2, _ => 0))[2] == 2
  {
  }
}
