/**
 * Assembly of the 8-character RDS program-service name, as readRDS does it.
 *
 * In a type-0 RDS group (IEC 62106) the low two bits of block B give the
 * segment address, and block D carries the two characters of that segment.
 * readRDS looks at the register mirror after each poll, accepts a segment
 * only while RDSR is set and block B is below 500, and keeps the first
 * arrival for each of the four slots.
 */
module Rds {
  import opened Endian
  import opened Registers

  datatype Option<T> = None | Some(value: T)

  /** What one poll shows: STATUSRSSI, RDSB and RDSD of the mirror. */
  datatype Obs = Obs(status: bv16, blockB: bv16, blockD: bv16)

  /** The two characters of one segment, as the bytes readRDS stores. */
  datatype Pair = Pair(hi: byte, lo: byte)

  /** One entry per segment address; None while that segment has not been accepted. */
  type Slots = s: seq<Option<Pair>> | |s| == 4 witness [None, None, None, None]

  const NoSlots: Slots := [None, None, None, None]

  /** The segment address carried by block B. */
  function SlotOf(o: Obs): (slot: nat)
    ensures slot < 4
  {
    (o.blockB & 0x03) as nat
  }

  /** The characters of block D: its high byte, then its low byte, which together make up block D again. */
  function PairOf(o: Obs): (p: Pair)
    ensures WireValue(p.hi, p.lo) == o.blockD
  {
    Pair(((o.blockD & 0xFF00) >> 8) as byte, (o.blockD & 0x00FF) as byte)
  }

  /** A poll whose data readRDS would take for the given slot if that slot were still empty. */
  predicate Offers(o: Obs, slot: nat)
  {
    o.status & RDSR != 0 && o.blockB < 500 && SlotOf(o) == slot
  }

  /**
   * One poll: an offered segment fills its slot only if the slot is empty.
   * No other slot changes.
   */
  function Step(slots: Slots, o: Obs): (r: Slots)
    ensures forall slot :: 0 <= slot < 4 && slot != SlotOf(o) ==> r[slot] == slots[slot]
    ensures r[SlotOf(o)] == if Offers(o, SlotOf(o)) && slots[SlotOf(o)].None? then Some(PairOf(o)) else slots[SlotOf(o)]
  {
    if o.status & RDSR != 0 && slots[SlotOf(o)].None? && o.blockB < 500 then
      slots[SlotOf(o) := Some(PairOf(o))]
    else
      slots
  }

  /** The slots after the given polls, in order. */
  function Assemble(polls: seq<Obs>): Slots
  {
    if polls == [] then NoSlots
    else Step(Assemble(polls[..|polls| - 1]), polls[|polls| - 1])
  }

  /** Every filled slot holds the characters of a poll that offered it. */
  lemma {:induction false} FilledFromOffer(polls: seq<Obs>, slot: nat)
    requires slot < 4 && Assemble(polls)[slot].Some?
    ensures exists k :: 0 <= k < |polls| && Offers(polls[k], slot) && Assemble(polls)[slot].value == PairOf(polls[k])
  {
    var n := |polls| - 1;
    var prior := polls[..n];
    if Assemble(prior)[slot].Some? {
      FilledFromOffer(prior, slot);
      var k :| 0 <= k < |prior| && Offers(prior[k], slot) && Assemble(prior)[slot].value == PairOf(prior[k]);
      assert polls[k] == prior[k];
    } else {
      assert Offers(polls[n], slot) && Assemble(polls)[slot].value == PairOf(polls[n]);
    }
  }

  /** readRDS's completedCount: the number of filled slots. */
  function Filled(slots: Slots): (n: nat)
    ensures n <= 4
    ensures n == 4 <==> forall slot :: 0 <= slot < 4 ==> slots[slot].Some?
  {
    (if slots[0].Some? then 1 else 0) + (if slots[1].Some? then 1 else 0) +
    (if slots[2].Some? then 1 else 0) + (if slots[3].Some? then 1 else 0)
  }

  /** A poll adds one to the count exactly when it fills an empty slot. */
  lemma StepCount(slots: Slots, o: Obs)
    ensures Filled(Step(slots, o)) == Filled(slots) + (if Offers(o, SlotOf(o)) && slots[SlotOf(o)].None? then 1 else 0)
  {
  }

  /** A slot nobody offered stays empty. */
  lemma {:induction false} NeverOfferedStaysEmpty(polls: seq<Obs>, slot: nat)
    requires slot < 4
    requires forall k :: 0 <= k < |polls| ==> !Offers(polls[k], slot)
    ensures Assemble(polls)[slot].None?
  {
    if polls != [] {
      NeverOfferedStaysEmpty(polls[..|polls| - 1], slot);
    }
  }

  /** First arrival wins: a slot holds the characters of the first poll that offered it. */
  lemma {:induction false} FirstArrivalWins(polls: seq<Obs>, slot: nat, first: nat)
    requires slot < 4 && first < |polls|
    requires Offers(polls[first], slot)
    requires forall k :: 0 <= k < first ==> !Offers(polls[k], slot)
    ensures Assemble(polls)[slot] == Some(PairOf(polls[first]))
  {
    var init := polls[..|polls| - 1];
    if first == |polls| - 1 {
      NeverOfferedStaysEmpty(init, slot);
    } else {
      FirstArrivalWins(init, slot, first);
    }
  }

  /** A slot is filled exactly when some poll offered it. */
  lemma {:induction false} FilledIffOffered(polls: seq<Obs>, slot: nat)
    requires slot < 4
    ensures Assemble(polls)[slot].Some? <==> exists k :: 0 <= k < |polls| && Offers(polls[k], slot)
  {
    if polls != [] {
      var init := polls[..|polls| - 1];
      FilledIffOffered(init, slot);
      if exists k :: 0 <= k < |polls| && Offers(polls[k], slot) {
        var k :| 0 <= k < |polls| && Offers(polls[k], slot);
        if k == |polls| - 1 {
          assert Assemble(polls)[slot].Some?;
        } else {
          assert init[k] == polls[k];
        }
      } else {
        forall k | 0 <= k < |init|
          ensures !Offers(init[k], slot)
        {
          assert init[k] == polls[k];
        }
      }
    }
  }

  /** Polls after a slot was filled never change it. */
  lemma {:induction false} FilledSlotsAreKept(polls: seq<Obs>, later: seq<Obs>, slot: nat)
    requires slot < 4 && Assemble(polls)[slot].Some?
    ensures Assemble(polls + later)[slot] == Assemble(polls)[slot]
    decreases |later|
  {
    if later != [] {
      var init := later[..|later| - 1];
      assert (polls + later)[..|polls + later| - 1] == polls + init;
      FilledSlotsAreKept(polls, init, slot);
    } else {
      assert polls + later == polls;
    }
  }

  /** The buffer with one slot's characters written, if that slot is filled. */
  function Fill(buffer: seq<byte>, slot: nat, entry: Option<Pair>): (r: seq<byte>)
    requires |buffer| >= 8 && slot < 4
    ensures |r| == |buffer|
    ensures entry.Some? ==> r[2 * slot] == entry.value.hi && r[2 * slot + 1] == entry.value.lo
    ensures forall k :: 0 <= k < |buffer| && (entry.None? || (k != 2 * slot && k != 2 * slot + 1)) ==> r[k] == buffer[k]
  {
    match entry
    case None => buffer
    case Some(p) => buffer[2 * slot := p.hi][2 * slot + 1 := p.lo]
  }

  /**
   * The caller's buffer with every filled slot written: slot k's characters
   * at positions 2k and 2k+1, every other position as it was.
   */
  function Render(buffer: seq<byte>, slots: Slots): (r: seq<byte>)
    requires |buffer| >= 8
    ensures |r| == |buffer|
    ensures forall k :: 0 <= k < 4 && slots[k].Some? ==> r[2 * k] == slots[k].value.hi && r[2 * k + 1] == slots[k].value.lo
    ensures forall k :: 0 <= k < 4 && slots[k].None? ==> r[2 * k] == buffer[2 * k] && r[2 * k + 1] == buffer[2 * k + 1]
    ensures forall k :: 8 <= k < |buffer| ==> r[k] == buffer[k]
  {
    Fill(Fill(Fill(Fill(buffer, 0, slots[0]), 1, slots[1]), 2, slots[2]), 3, slots[3])
  }

  /** Writing two different slots gives the same buffer in either order. */
  lemma FillCommutes(buffer: seq<byte>, i: nat, e: Option<Pair>, j: nat, f: Option<Pair>)
    requires |buffer| >= 8 && i < 4 && j < 4 && i != j
    ensures Fill(Fill(buffer, i, e), j, f) == Fill(Fill(buffer, j, f), i, e)
  {
    if e.Some? && f.Some? {
      var x := Fill(Fill(buffer, i, e), j, f);
      var y := Fill(Fill(buffer, j, f), i, e);
      assert forall k :: 0 <= k < |buffer| ==> x[k] == y[k];
    }
  }

  /** Filling one empty slot writes exactly that slot's two buffer positions. */
  lemma RenderFill(buffer: seq<byte>, slots: Slots, slot: nat, p: Pair)
    requires |buffer| >= 8 && slot < 4 && slots[slot].None?
    ensures Render(buffer, slots[slot := Some(p)]) == Fill(Render(buffer, slots), slot, Some(p))
  {
    var e := Some(p);
    var s0, s1, s2, s3 := slots[0], slots[1], slots[2], slots[3];
    if slot == 0 {
      var x := buffer;
      FillCommutes(x, 0, e, 1, s1);
      FillCommutes(Fill(x, 1, s1), 0, e, 2, s2);
      FillCommutes(Fill(Fill(x, 1, s1), 2, s2), 0, e, 3, s3);
    } else if slot == 1 {
      var x := Fill(buffer, 0, s0);
      FillCommutes(x, 1, e, 2, s2);
      FillCommutes(Fill(x, 2, s2), 1, e, 3, s3);
    } else if slot == 2 {
      var x := Fill(Fill(buffer, 0, s0), 1, s1);
      FillCommutes(x, 2, e, 3, s3);
    }
  }

  /**
   * readRDS's bookkeeping after the given polls: `done` (its `completed`)
   * marks the filled slots, `count` (its `completedCount`) is their number,
   * and the buffer holds its original contents with every filled slot
   * written.
   */
  predicate Collected(polls: seq<Obs>, done: seq<bool>, count: nat, buffer: seq<byte>, original: seq<byte>)
  {
    |done| == 4 && |buffer| >= 9 && |original| == |buffer| &&
    (forall i :: 0 <= i < 4 ==> done[i] == Assemble(polls)[i].Some?) &&
    count == Filled(Assemble(polls)) &&
    buffer == Render(original, Assemble(polls))
  }

  /**
   * A poll that offers a segment for a slot not yet completed: readRDS marks
   * the slot, counts it and writes block D's two characters at positions
   * 2 * slot and 2 * slot + 1, and the bookkeeping then describes one more
   * poll.
   */
  lemma AcceptSegment(polls: seq<Obs>, o: Obs, slot: nat, done: seq<bool>, count: nat, buffer: seq<byte>, original: seq<byte>)
    requires Collected(polls, done, count, buffer, original)
    requires slot == SlotOf(o) && Offers(o, slot) && !done[slot]
    ensures Collected(polls + [o], done[slot := true], count + 1,
      buffer[2 * slot := PairOf(o).hi][2 * slot + 1 := PairOf(o).lo], original)
  {
    var slots := Assemble(polls);
    assert (polls + [o])[..|polls|] == polls;
    StepCount(slots, o);
    RenderFill(original, slots, slot, PairOf(o));
  }

  /** A poll readRDS takes nothing from leaves the bookkeeping describing one more poll. */
  lemma IgnorePoll(polls: seq<Obs>, o: Obs, done: seq<bool>, count: nat, buffer: seq<byte>, original: seq<byte>)
    requires Collected(polls, done, count, buffer, original)
    requires !(Offers(o, SlotOf(o)) && !done[SlotOf(o)])
    ensures Collected(polls + [o], done, count, buffer, original)
  {
    assert (polls + [o])[..|polls|] == polls;
    StepCount(Assemble(polls), o);
  }

  /** The 8 characters of a complete name, segment by segment. */
  function Name(slots: Slots): seq<byte>
    requires Filled(slots) == 4
  {
    [slots[0].value.hi, slots[0].value.lo, slots[1].value.hi, slots[1].value.lo,
     slots[2].value.hi, slots[2].value.lo, slots[3].value.hi, slots[3].value.lo]
  }

  /** Once all four slots are filled, the first eight buffer positions hold the name. */
  lemma RenderComplete(buffer: seq<byte>, slots: Slots)
    requires |buffer| >= 8 && Filled(slots) == 4
    ensures Render(buffer, slots)[..8] == Name(slots)
  {
    var r := Render(buffer, slots);
    assert r[0] == slots[0].value.hi && r[1] == slots[0].value.lo;
    assert r[2] == slots[1].value.hi && r[3] == slots[1].value.lo;
    assert r[4] == slots[2].value.hi && r[5] == slots[2].value.lo;
    assert r[6] == slots[3].value.hi && r[7] == slots[3].value.lo;
  }
}
