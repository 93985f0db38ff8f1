/**
 * The two bus transactions of the Si4703, as pure functions on register images.
 *
 * A read returns all sixteen registers, starting with register 0x0A and
 * wrapping after 0x0F to 0x00, so that register 0x09 comes last. A write has
 * no address byte: it always fills registers 0x02 to 0x07, in that order.
 * Words travel most significant byte first (see module Endian).
 */
module Transfer {
  import opened Endian

  /** Sixteen words: a register image, or the words of one read transaction. */
  type Block = s: seq<bv16> | |s| == 16 witness [0, 0, 0, 0, 0, 0, 0, 0, 0, 0, 0, 0, 0, 0, 0, 0]

  /**
   * What a read call returned: the byte count of `read(2)` and the words it
   * placed in the buffer. Only a count of 32 is a complete read.
   */
  datatype ReadReply = ReadReply(count: int, words: Block)

  /** The register that the i-th word of a read transaction belongs to. */
  function WireSlot(i: nat): (x: nat)
    requires i < 16
    ensures x < 16
  {
    (0x0A + i) % 16
  }

  /** The wrap-around written out: positions 0..5 hold 0x0A..0x0F, positions 6..15 hold 0x00..0x09. */
  lemma WireSlotValue(i: nat)
    requires i < 16
    ensures WireSlot(i) == if i < 6 then i + 10 else i - 6
  {
  }

  /** The position within a read transaction of register x's word. */
  function ReadPosition(x: nat): (i: nat)
    requires x < 16
    ensures i < 16
  {
    (x + 6) % 16
  }

  /** WireSlot and ReadPosition are inverse bijections of 0..15. */
  lemma SlotsAndPositions(k: nat)
    requires k < 16
    ensures WireSlot(ReadPosition(k)) == k
    ensures ReadPosition(WireSlot(k)) == k
  {
    if k < 6 {
      assert WireSlot(k) == k + 10;
    } else {
      assert WireSlot(k) == k - 6;
    }
    if k < 10 {
      assert ReadPosition(k) == k + 6;
    } else {
      assert ReadPosition(k) == k - 10;
    }
  }

  /** The order in which a read visits the registers. */
  function WireOrder(): seq<nat>
  {
    seq(16, i requires 0 <= i < 16 => WireSlot(i))
  }

  /**
   * The read order is a permutation of 0x00..0x0F: no register comes twice,
   * each register x comes at position (x + 6) % 16, and the order starts at
   * 0x0A and ends at 0x09.
   */
  lemma WireOrderIsPermutation()
    ensures |WireOrder()| == 16
    ensures forall i, j :: 0 <= i < j < 16 ==> WireOrder()[i] != WireOrder()[j]
    ensures forall x :: 0 <= x < 16 ==> WireOrder()[ReadPosition(x)] == x
    ensures WireOrder()[0] == 0x0A && WireOrder()[15] == 0x09
  {
    forall i, j | 0 <= i < j < 16
      ensures WireOrder()[i] != WireOrder()[j]
    {
      SlotsAndPositions(i);
      SlotsAndPositions(j);
    }
    forall x | 0 <= x < 16
      ensures WireOrder()[ReadPosition(x)] == x
    {
      SlotsAndPositions(x);
    }
  }

  /**
   * The register image a complete read produces: the word received at
   * position i, converted to host order, lands in register (0x0A + i) % 16.
   */
  function Remap(wire: Block): (bank: Block)
    ensures forall i :: 0 <= i < 16 ==> bank[WireSlot(i)] == ToLittleEndian(wire[i])
  {
    var bank := seq(16, x requires 0 <= x < 16 => ToLittleEndian(wire[ReadPosition(x)]));
    assert forall i :: 0 <= i < 16 ==> bank[WireSlot(i)] == ToLittleEndian(wire[i]) by {
      forall i | 0 <= i < 16
        ensures bank[WireSlot(i)] == ToLittleEndian(wire[i])
      {
        SlotsAndPositions(i);
      }
    }
    bank
  }

  /** The words the chip puts on the bus for its register bank, as the host's buffer holds them. */
  function ChipWire(bank: Block): Block
  {
    seq(16, i requires 0 <= i < 16 => ToBigEndian(bank[WireSlot(i)]))
  }

  /** A read transaction carries the chip's bank to the host unchanged, and nothing is lost on the way. */
  lemma {:induction false} ReadRoundTrip(bank: Block, wire: Block)
    ensures Remap(ChipWire(bank)) == bank
    ensures ChipWire(Remap(wire)) == wire
  {
    forall x | 0 <= x < 16
      ensures Remap(ChipWire(bank))[x] == bank[x]
    {
      SlotsAndPositions(x);
      ConversionsAgree(bank[x]);
    }
    forall i | 0 <= i < 16
      ensures ChipWire(Remap(wire))[i] == wire[i]
    {
      SlotsAndPositions(i);
      ConversionsAgree(wire[i]);
    }
  }

  /** The mirror after a read call: remapped on a complete read, unchanged otherwise. */
  function AfterRead(mirror: Block, reply: ReadReply): (r: Block)
    ensures reply.count == 32 ==> forall i :: 0 <= i < 16 ==> r[WireSlot(i)] == ToLittleEndian(reply.words[i])
    ensures reply.count != 32 ==> r == mirror
  {
    if reply.count == 32 then Remap(reply.words) else mirror
  }

  /** The six words a write transaction sends: registers 0x02..0x07 in bus order. */
  function Pack(mirror: Block): (sent: seq<bv16>)
    ensures |sent| == 6
    ensures forall i :: 0 <= i < 6 ==> ToLittleEndian(sent[i]) == mirror[0x02 + i]
  {
    seq(6, i requires 0 <= i < 6 => ToBigEndian(mirror[0x02 + i]))
  }

  /** Registers 0x00, 0x01 and 0x08..0x0F have no influence on what a write sends. */
  lemma {:induction false} PackOnlyControlRegisters(a: Block, b: Block)
    requires a[0x02..0x08] == b[0x02..0x08]
    ensures Pack(a) == Pack(b)
  {
    forall i | 0 <= i < 6
      ensures Pack(a)[i] == Pack(b)[i]
    {
      assert a[0x02 + i] == a[0x02..0x08][i];
    }
  }

  /** The chip's bank after it accepts the six words of a write into registers 0x02..0x07. */
  function ChipAccept(bank: Block, sent: seq<bv16>): Block
    requires |sent| == 6
  {
    seq(16, x requires 0 <= x < 16 => if 0x02 <= x < 0x08 then ToLittleEndian(sent[x - 0x02]) else bank[x])
  }

  /**
   * A write transaction copies the host's registers 0x02..0x07 into the
   * chip and leaves all other chip registers as they were.
   */
  lemma {:induction false} WriteRoundTrip(bank: Block, mirror: Block)
    ensures ChipAccept(bank, Pack(mirror)) == bank[..0x02] + mirror[0x02..0x08] + bank[0x08..]
  {
    var after := ChipAccept(bank, Pack(mirror));
    var expected := bank[..0x02] + mirror[0x02..0x08] + bank[0x08..];
    forall x | 0 <= x < 16
      ensures after[x] == expected[x]
    {
      if 0x02 <= x < 0x08 {
        ConversionsAgree(mirror[x]);
      }
    }
  }

  /**
   * Writing the mirror and then reading the chip back yields the written
   * control registers again (as long as the chip itself did not change them).
   */
  lemma WriteThenRead(bank: Block, mirror: Block)
    ensures Remap(ChipWire(ChipAccept(bank, Pack(mirror))))[0x02..0x08] == mirror[0x02..0x08]
  {
    var chip := ChipAccept(bank, Pack(mirror));
    ReadRoundTrip(chip, chip);
    WriteRoundTrip(bank, mirror);
  }
}
