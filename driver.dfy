/**
 * The Si4703 breakout driver: a 16-word mirror of the chip's registers and
 * the operations that read it from the chip, change bit fields in it and
 * write the control registers back.
 *
 * The source's blocking STC polling loops are given a budget of polls
 * (`maxPolls`); the source polls without bound, which is the limit of an
 * ever larger budget. Each operation's contract states the mirror it leaves
 * and the images it writes in terms of the replies the bus gives.
 */
module Driver {
  import opened Endian
  import opened Registers
  import opened Transfer
  import opened Rds
  import opened Platform

  /** The driver's SUCCESS and FAIL return codes. */
  datatype Status = Success | Fail

  /** How a tune handshake ended: STC rose and fell again, or the poll budget ran out first. */
  datatype Handshake = Settled | Stalled

  /** What seek reports: the channel found, a failure (SFBL set), or a poll budget that ran out. */
  datatype SeekOutcome = Found(channel: bv16) | SeekFailed | SeekStalled

  /** What one poll of readRDS looks at in the mirror. */
  function Probe(bank: Block): Obs
  {
    Obs(bank[STATUSRSSI], bank[RDSB], bank[RDSD])
  }

  /** Whether the last of the observations shows STC at the awaited value. */
  predicate Seen(observed: seq<Obs>, stcSet: bool)
  {
    |observed| > 0 && StcSet(observed[|observed| - 1].status) == stcSet
  }

  /**
   * The register image readRegisters' loop leaves: words 0..5 of the
   * transaction in registers 0x0A..0x0F, words 6..15 in registers
   * 0x00..0x09. That is exactly Remap.
   */
  lemma ScatteredIsRemap(bank: array<bv16>, wire: Block)
    requires bank.Length == 16
    requires forall k :: 0 <= k < 6 ==> bank[k + 10] == ToLittleEndian(wire[k])
    requires forall k :: 6 <= k < 16 ==> bank[k - 6] == ToLittleEndian(wire[k])
    ensures bank[..] == Remap(wire)
  {
    forall x | 0 <= x < 16
      ensures bank[x] == Remap(wire)[x]
    {
      if x < 10 {
        WireSlotValue(x + 6);
        assert bank[(x + 6) - 6] == ToLittleEndian(wire[x + 6]);
      } else {
        WireSlotValue(x - 10);
        assert bank[(x - 10) + 10] == ToLittleEndian(wire[x - 10]);
      }
    }
  }

  /** The delay readRDS asks for after a poll: 40 ms if it saw RDSR set, 30 ms otherwise. */
  function PassDelay(o: Obs): (ms: nat)
    ensures ms == 40 <==> o.status & RDSR != 0
    ensures ms == 30 || ms == 40
  {
    if o.status & RDSR != 0 then 40 else 30
  }

  /**
   * The time readRDS's delays take over the given polls: each poll's
   * PassDelay plus the clock's lag for that delay; `first` is the number of
   * the first of these delays. Every poll costs at least 30 ms.
   */
  function Elapsed(clock: Clock, polls: seq<Obs>, first: nat): (t: nat)
    ensures t >= 30 * |polls|
  {
    if polls == [] then 0
    else
      var n := |polls| - 1;
      Elapsed(clock, polls[..n], first) + PassDelay(polls[n]) + clock.LagAt(first + n)
  }

  /**
   * readRDS's loop condition held before every one of the polls: fewer than
   * four slots were filled and less than `budget` milliseconds had passed.
   */
  ghost predicate PolledWhileOpen(clock: Clock, polls: seq<Obs>, first: nat, budget: int)
  {
    forall k :: 0 <= k < |polls| ==>
      Filled(Assemble(polls[..k])) < 4 && Elapsed(clock, polls[..k], first) < budget
  }

  /** One more poll made while the loop condition held, and the delay after it. */
  lemma PolledStep(clock: Clock, polls: seq<Obs>, o: Obs, first: nat, budget: int)
    requires PolledWhileOpen(clock, polls, first, budget)
    requires Filled(Assemble(polls)) < 4 && Elapsed(clock, polls, first) < budget
    ensures PolledWhileOpen(clock, polls + [o], first, budget)
    ensures Elapsed(clock, polls + [o], first) ==
      Elapsed(clock, polls, first) + PassDelay(o) + clock.LagAt(first + |polls|)
  {
    var longer := polls + [o];
    assert longer[..|polls|] == polls;
    forall k | 0 <= k < |longer|
      ensures Filled(Assemble(longer[..k])) < 4 && Elapsed(clock, longer[..k], first) < budget
    {
      if k < |polls| {
        assert longer[..k] == polls[..k];
      }
    }
  }

  /**
   * The body of readRDS's loop after the read, on what the read showed: if
   * RDSR is set, block B addresses a slot that is still empty and block B
   * is below 500, the slot is marked, counted and block D's two characters
   * are stored at positions 2 * index and 2 * index + 1.
   */
  method TakeSegment(completed: array<bool>, completedCount: nat, buffer: array<byte>,
                     ghost original: seq<byte>, ghost polls: seq<Obs>, o: Obs)
    returns (count: nat)
    requires completed.Length == 4 && buffer.Length >= 9
    requires Collected(polls, completed[..], completedCount, buffer[..], original)
    modifies completed, buffer
    ensures Collected(polls + [o], completed[..], count, buffer[..], original)
  {
    count := completedCount;
    if o.status & RDSR != 0 {
      var b := o.blockB;
      var index := (b & 0x03) as int;
      if !completed[index] && b < 500 {
        AcceptSegment(polls, o, index, completed[..], completedCount, buffer[..], original);
        completed[index] := true;
        count := count + 1;
        var pair := PairOf(o);
        buffer[index * 2] := pair.hi;
        buffer[index * 2 + 1] := pair.lo;
        return;
      }
    }
    IgnorePoll(polls, o, completed[..], completedCount, buffer[..], original);
  }

  class Si4703Breakout {
    const region: Region
    /** band_ and channel_spacing_. */
    const config: Config
    /** registers_. */
    const registers: array<bv16>
    /** The I2C device handle (si4703_fd_). */
    const bus: Bus

    ghost predicate Valid()
      reads this
    {
      registers.Length == 16
    }

    ghost function Mirror(): Block
      requires Valid()
      reads this, registers
    {
      registers[..]
    }

    /** The mirror after `count` read calls, starting with read number `from`. */
    ghost function Replay(mirror: Block, from: nat, count: nat): Block
      decreases count
    {
      if count == 0 then mirror
      else AfterRead(Replay(mirror, from, count - 1), bus.ReplyAt(from + count - 1))
    }

    /** What readRDS sees in the mirror after each of `count` read calls, starting with read number `from`. */
    ghost function Probes(mirror: Block, from: nat, count: nat): (r: seq<Obs>)
      ensures |r| == count
      decreases count
    {
      if count == 0 then []
      else Probes(mirror, from, count - 1) + [Probe(Replay(mirror, from, count))]
    }

    /** One more read call: the replayed mirror and the list of probes each grow by one step. */
    lemma ReplayStep(mirror: Block, from: nat, count: nat)
      ensures Replay(mirror, from, count + 1) == AfterRead(Replay(mirror, from, count), bus.ReplyAt(from + count))
      ensures Probes(mirror, from, count + 1) == Probes(mirror, from, count) + [Probe(Replay(mirror, from, count + 1))]
    {
    }

    /**
     * An STC wait that started from `mirror` with read number `from`:
     * `observed` holds what each read left in the mirror, no read before the
     * last showed STC at the awaited value, and the wait ended because the
     * last one did or because `maxPolls` reads were made.
     */
    ghost predicate Waited(mirror: Block, from: nat, observed: seq<Obs>, stcSet: bool, maxPolls: nat)
    {
      |observed| <= maxPolls &&
      observed == Probes(mirror, from, |observed|) &&
      (forall k :: 0 <= k < |observed| - 1 ==> StcSet(observed[k].status) != stcSet) &&
      (Seen(observed, stcSet) || |observed| == maxPolls)
    }

    /**
     * The mirror powerOn writes, from the mirror it has just read: the chip
     * enabled, RDS on, the volume at 1 and every register other than
     * POWERCFG, SYSCONFIG1 and SYSCONFIG2 as read.
     */
    ghost function PoweredUp(bank: Block): (r: Block)
      ensures r[POWERCFG] == POWERCFG_ENABLED
      ensures r[SYSCONFIG1] & RDS != 0 && r[SYSCONFIG2] & VOLUME_MASK == 1
      ensures forall x :: 0 <= x < 16 && x != POWERCFG && x != SYSCONFIG1 && x != SYSCONFIG2 ==> r[x] == bank[x]
    {
      bank[POWERCFG := POWERCFG_ENABLED]
          [SYSCONFIG1 := PowerOnSysconfig1(bank[SYSCONFIG1], region)]
          [SYSCONFIG2 := PowerOnSysconfig2(bank[SYSCONFIG2], config)]
    }

    constructor (region: Region, bus: Bus)
      ensures Valid() && fresh(registers)
      ensures this.region == region && this.bus == bus
      ensures config == RegionConfig(region)
    {
      this.region := region;
      this.bus := bus;
      config := RegionConfig(region);
      registers := new bv16[16];
    }

    /**
     * readRegisters: one 32-byte read. On a complete read the word received
     * at position i, converted to host order, lands in register
     * (0x0A + i) % 16, so every register is written once; on a short read
     * nothing changes.
     */
    method ReadRegisters() returns (status: Status)
      requires Valid()
      modifies registers, bus`readCount
      ensures Valid()
      ensures Mirror() == AfterRead(old(Mirror()), old(bus.NextReply()))
      ensures status == (if old(bus.NextReply()).count == 32 then Success else Fail)
      ensures bus.readCount == old(bus.readCount) + 1
    {
      var reply := bus.Read();
      if reply.count != 32 {
        return Fail;
      }
      Scatter(reply.words);
      return Success;
    }

    /**
     * The shuffle loop of readRegisters: register 0x0A comes first on the
     * wire, so word i goes to register (0x0A + i) % 16, converted to host
     * order, until register 0x09 is written.
     */
    method Scatter(buffer: Block)
      requires Valid()
      modifies registers
      ensures Valid()
      ensures Mirror() == Remap(buffer)
    {
      var i := 0;
      var x := 0x0A;
      while true
        modifies registers
        invariant 0 <= i < 16
        invariant x == if i <= 6 then i + 10 else i - 6
        invariant forall k :: 0 <= k < i && k < 6 ==> registers[k + 10] == ToLittleEndian(buffer[k])
        invariant forall k :: 6 <= k < i ==> registers[k - 6] == ToLittleEndian(buffer[k])
        decreases 16 - i
      {
        if x == 0x10 {
          x := 0;
        }
        registers[x] := ToLittleEndian(buffer[i]);
        i := i + 1;
        if x == 0x09 {
          break;
        }
        x := x + 1;
      }
      ScatteredIsRemap(registers, buffer);
    }

    /**
     * updateRegisters: one 12-byte write of registers 0x02..0x07 in bus
     * order; FAIL exactly when fewer than 12 bytes were accepted. The mirror
     * is not changed (it is outside the frame).
     */
    method UpdateRegisters() returns (status: Status)
      requires Valid()
      modifies bus`sent
      ensures bus.sent == old(bus.sent) + [Pack(Mirror())]
      ensures status == (if old(bus.NextAccept()) < 12 then Fail else Success)
    {
      var buffer := new bv16[6];
      var i := 0;
      var regSpot := 0x02;
      while regSpot < 0x08
        modifies buffer
        invariant 0x02 <= regSpot <= 0x08 && i == regSpot - 0x02
        invariant forall k :: 0 <= k < i ==> buffer[k] == ToBigEndian(registers[0x02 + k])
      {
        buffer[i] := ToBigEndian(registers[regSpot]);
        i := i + 1;
        regSpot := regSpot + 1;
      }
      assert buffer[..] == Pack(Mirror());
      var count := bus.Write(buffer[..]);
      if count < 12 {
        return Fail;
      }
      return Success;
    }

    /**
     * The register part of powerOn. When the device handle could not be
     * acquired it fails before any register activity. Otherwise it reads,
     * starts the oscillator, writes, reads again, and writes the enabled
     * configuration; it reports SUCCESS whatever the transactions returned.
     */
    method PowerOn(acquired: bool) returns (status: Status)
      requires Valid()
      modifies registers, bus
      ensures Valid()
      ensures !acquired ==>
        status == Fail && Mirror() == old(Mirror()) && bus.readCount == old(bus.readCount) && bus.sent == old(bus.sent)
      ensures acquired ==>
        var first := AfterRead(old(Mirror()), bus.ReplyAt(old(bus.readCount)));
        var oscillator := first[TEST1 := OSCILLATOR_ON];
        var second := AfterRead(oscillator, bus.ReplyAt(old(bus.readCount) + 1));
        status == Success &&
        Mirror() == PoweredUp(second) &&
        bus.readCount == old(bus.readCount) + 2 &&
        bus.sent == old(bus.sent) + [Pack(oscillator), Pack(Mirror())]
    {
      if !acquired {
        return Fail;
      }
      var readStatus := ReadRegisters();
      registers[TEST1] := OSCILLATOR_ON;
      ghost var oscillator := Mirror();
      assert oscillator == AfterRead(old(Mirror()), bus.ReplyAt(old(bus.readCount)))[TEST1 := OSCILLATOR_ON];
      var writeStatus := UpdateRegisters();
      ghost var sentBefore := bus.sent;
      assert Mirror() == oscillator;
      ghost var reply := bus.NextReply();
      assert reply == bus.ReplyAt(old(bus.readCount) + 1);
      readStatus := ReadRegisters();
      ghost var second := Mirror();
      assert second == AfterRead(oscillator, reply);
      registers[POWERCFG] := POWERCFG_ENABLED;
      registers[SYSCONFIG1] := PowerOnSysconfig1(registers[SYSCONFIG1], region);
      registers[SYSCONFIG2] := PowerOnSysconfig2(registers[SYSCONFIG2], config);
      assert Mirror() == PoweredUp(second);
      writeStatus := UpdateRegisters();
      assert bus.sent == sentBefore + [Pack(Mirror())];
      assert bus.sent == old(bus.sent) + [Pack(oscillator), Pack(Mirror())];
      return Success;
    }

    /** powerOff: read, clear POWERCFG (and with it ENABLE), write. */
    method PowerOff()
      requires Valid()
      modifies registers, bus
      ensures Valid()
      ensures Mirror() == AfterRead(old(Mirror()), old(bus.NextReply()))[POWERCFG := 0]
      ensures bus.readCount == old(bus.readCount) + 1
      ensures bus.sent == old(bus.sent) + [Pack(Mirror())]
    {
      var readStatus := ReadRegisters();
      registers[POWERCFG] := 0x0000;
      var writeStatus := UpdateRegisters();
    }

    /**
     * setVolume: read, put the clamped volume into the low nibble of
     * SYSCONFIG2, write. Every other bit of the freshly read mirror is kept,
     * and exactly that image is written.
     */
    method SetVolume(volume: int)
      requires Valid()
      modifies registers, bus
      ensures Valid()
      ensures var read := AfterRead(old(Mirror()), old(bus.NextReply()));
        Mirror() == read[SYSCONFIG2 := WithVolume(read[SYSCONFIG2], volume)]
      ensures bus.readCount == old(bus.readCount) + 1
      ensures bus.sent == old(bus.sent) + [Pack(Mirror())]
    {
      var readStatus := ReadRegisters();
      var level := volume;
      if level < 0 {
        level := 0;
      }
      if level > 15 {
        level := 15;
      }
      registers[SYSCONFIG2] := registers[SYSCONFIG2] & 0xFFF0;
      registers[SYSCONFIG2] := registers[SYSCONFIG2] | level as bv16;
      var writeStatus := UpdateRegisters();
    }

    /** The request half of setFrequency: read, put the channel into CHANNEL with TUNE set, write. */
    method BeginTune(channel: bv16)
      requires Valid()
      modifies registers, bus
      ensures Valid()
      ensures var read := AfterRead(old(Mirror()), old(bus.NextReply()));
        Mirror() == read[CHANNEL := ChannelRequest(read[CHANNEL], channel)]
      ensures bus.readCount == old(bus.readCount) + 1
      ensures bus.sent == old(bus.sent) + [Pack(Mirror())]
    {
      var readStatus := ReadRegisters();
      registers[CHANNEL] := registers[CHANNEL] & 0xFE00;
      registers[CHANNEL] := registers[CHANNEL] | channel;
      registers[CHANNEL] := registers[CHANNEL] | TUNE;
      var writeStatus := UpdateRegisters();
    }

    /** The clearing half of setFrequency: read, clear TUNE, write. */
    method EndTune()
      requires Valid()
      modifies registers, bus
      ensures Valid()
      ensures var read := AfterRead(old(Mirror()), old(bus.NextReply()));
        Mirror() == read[CHANNEL := TuneCleared(read[CHANNEL])]
      ensures bus.readCount == old(bus.readCount) + 1
      ensures bus.sent == old(bus.sent) + [Pack(Mirror())]
    {
      var readStatus := ReadRegisters();
      registers[CHANNEL] := registers[CHANNEL] & !TUNE;
      var writeStatus := UpdateRegisters();
    }

    /**
     * One STC polling loop: read until STC is set (`stcSet`) or clear
     * (`!stcSet`), at most `maxPolls` times. `observed` holds what each read
     * left in the mirror, and the wait is the one Waited describes.
     */
    method AwaitStc(stcSet: bool, maxPolls: nat) returns (seen: bool, ghost observed: seq<Obs>)
      requires Valid()
      modifies registers, bus`readCount
      ensures Valid()
      ensures bus.readCount == old(bus.readCount) + |observed|
      ensures Mirror() == Replay(old(Mirror()), old(bus.readCount), |observed|)
      ensures Waited(old(Mirror()), old(bus.readCount), observed, stcSet, maxPolls)
      ensures seen == Seen(observed, stcSet)
    {
      seen := false;
      observed := [];
      var tries := 0;
      while !seen && tries < maxPolls
        invariant Valid()
        invariant tries == |observed|
        invariant |observed| <= maxPolls && bus.readCount == old(bus.readCount) + |observed|
        invariant Mirror() == Replay(old(Mirror()), old(bus.readCount), |observed|)
        invariant observed == Probes(old(Mirror()), old(bus.readCount), |observed|)
        invariant seen == Seen(observed, stcSet)
        invariant forall k :: 0 <= k < |observed| - 1 ==> StcSet(observed[k].status) != stcSet
        decreases maxPolls - tries
      {
        ReplayStep(old(Mirror()), old(bus.readCount), tries);
        ghost var prior := Mirror();
        ghost var reply := bus.NextReply();
        assert reply == bus.ReplyAt(old(bus.readCount) + tries);
        var readStatus := ReadRegisters();
        assert Mirror() == AfterRead(prior, reply);
        observed := observed + [Probe(Mirror())];
        tries := tries + 1;
        seen := StcSet(registers[STATUSRSSI]) == stcSet;
      }
    }

    /**
     * The register part of setFrequency for a channel code: the tune
     * request, the wait for STC, the TUNE clear, the wait for STC to drop.
     * `request` and `cleared` are the two images written, `first` and
     * `second` what the two waits saw, `settled` the mirror when the first
     * wait ended and `from` the number of the read that follows it. The TUNE
     * clear is read and written only once STC was seen; Stalled means a wait
     * ended without seeing its STC value, so it used up `maxPolls` reads.
     */
    method SetChannel(channel: bv16, maxPolls: nat)
      returns (outcome: Handshake, ghost request: Block, ghost first: seq<Obs>,
               ghost settled: Block, ghost from: nat, ghost cleared: Block, ghost second: seq<Obs>)
      requires Valid()
      modifies registers, bus
      ensures Valid()
      ensures var read := AfterRead(old(Mirror()), old(bus.NextReply()));
        request == read[CHANNEL := ChannelRequest(read[CHANNEL], channel)]
      ensures Waited(request, old(bus.readCount) + 1, first, true, maxPolls)
      ensures !Seen(first, true) ==>
        bus.sent == old(bus.sent) + [Pack(request)] &&
        bus.readCount == old(bus.readCount) + 1 + |first| &&
        Mirror() == Replay(request, old(bus.readCount) + 1, |first|)
      ensures settled == Replay(request, old(bus.readCount) + 1, |first|)
      ensures from == old(bus.readCount) + 1 + |first|
      ensures Seen(first, true) ==>
        var read := AfterRead(settled, bus.ReplyAt(from));
        cleared == read[CHANNEL := TuneCleared(read[CHANNEL])] &&
        bus.sent == old(bus.sent) + [Pack(request)] + [Pack(cleared)] &&
        Waited(cleared, from + 1, second, false, maxPolls) &&
        bus.readCount == from + 1 + |second| &&
        Mirror() == Replay(cleared, from + 1, |second|)
      ensures outcome == Settled <==> Seen(first, true) && Seen(second, false)
    {
      BeginTune(channel);
      request := Mirror();
      cleared := request;
      second := [];
      var complete;
      complete, first := AwaitStc(true, maxPolls);
      settled := Mirror();
      from := bus.readCount;
      if !complete {
        outcome := Stalled;
        return;
      }
      var dropped;
      dropped, cleared, second := FinishTune(maxPolls, settled, from, old(bus.sent) + [Pack(request)]);
      outcome := if dropped then Settled else Stalled;
    }

    /**
     * The second half of setFrequency, once STC was seen: read, clear TUNE,
     * write, then wait for STC to drop. It starts from `mirror` with read
     * number `from` and the writes `sent` made so far; `cleared` is the
     * image written and `second` what the wait saw.
     */
    method FinishTune(maxPolls: nat, ghost mirror: Block, ghost from: nat, ghost sent: seq<seq<bv16>>)
      returns (dropped: bool, ghost cleared: Block, ghost second: seq<Obs>)
      requires Valid() && Mirror() == mirror && bus.readCount == from && bus.sent == sent
      modifies registers, bus
      ensures Valid()
      ensures var read := AfterRead(mirror, bus.ReplyAt(from));
        cleared == read[CHANNEL := TuneCleared(read[CHANNEL])]
      ensures bus.sent == sent + [Pack(cleared)]
      ensures Waited(cleared, from + 1, second, false, maxPolls)
      ensures bus.readCount == from + 1 + |second|
      ensures Mirror() == Replay(cleared, from + 1, |second|)
      ensures dropped == Seen(second, false)
    {
      EndTune();
      cleared := Mirror();
      dropped, second := AwaitStc(false, maxPolls);
    }

    /**
     * The request half of seek: read, set SKMODE, SEEKUP per direction and
     * SEEK (the single-bit updates that SeekRequest combines), write.
     */
    method BeginSeek(direction: Direction)
      requires Valid()
      modifies registers, bus
      ensures Valid()
      ensures var read := AfterRead(old(Mirror()), old(bus.NextReply()));
        Mirror() == read[POWERCFG := SeekRequest(read[POWERCFG], direction)]
      ensures bus.readCount == old(bus.readCount) + 1
      ensures bus.sent == old(bus.sent) + [Pack(Mirror())]
    {
      var readStatus := ReadRegisters();
      registers[POWERCFG] := SeekRequest(registers[POWERCFG], direction);
      var writeStatus := UpdateRegisters();
    }

    /** The clearing half of seek: read, capture SFBL, clear SEEK, write. */
    method EndSeek() returns (sfbl: bool)
      requires Valid()
      modifies registers, bus
      ensures Valid()
      ensures var read := AfterRead(old(Mirror()), old(bus.NextReply()));
        sfbl == (read[STATUSRSSI] & SFBL != 0) &&
        Mirror() == read[POWERCFG := SeekCleared(read[POWERCFG])]
      ensures bus.readCount == old(bus.readCount) + 1
      ensures bus.sent == old(bus.sent) + [Pack(Mirror())]
    {
      var readStatus := ReadRegisters();
      var valueSFBL := registers[STATUSRSSI] & SFBL;
      registers[POWERCFG] := registers[POWERCFG] & !SEEK;
      var writeStatus := UpdateRegisters();
      sfbl := valueSFBL != 0;
    }

    /** The register part of getFrequency: read, then the 10-bit channel of READCHAN. */
    method GetChannel() returns (channel: bv16)
      requires Valid()
      modifies registers, bus`readCount
      ensures Valid()
      ensures Mirror() == AfterRead(old(Mirror()), old(bus.NextReply()))
      ensures channel == ChannelField(Mirror()[READCHAN]) && channel & 0xFC00 == 0
      ensures bus.readCount == old(bus.readCount) + 1
    {
      var readStatus := ReadRegisters();
      channel := registers[READCHAN] & 0x03FF;
    }

    /**
     * seek: the seek request, the wait for STC, SFBL captured with the SEEK
     * clear, the wait for STC to drop; then failure if SFBL was set, else
     * the channel read back. `request` and `captured` are the two images
     * written, `first` and `second` what the two waits saw, `settled` the
     * mirror when the first wait ended, `from` the number of the read that
     * follows it and `last` the final mirror. SeekStalled means a wait ended
     * without seeing its STC value, so it used up `maxPolls` reads.
     */
    method Seek(direction: Direction, maxPolls: nat)
      returns (outcome: SeekOutcome, ghost request: Block, ghost first: seq<Obs>,
               ghost settled: Block, ghost from: nat, ghost captured: Block, ghost second: seq<Obs>, ghost last: Block)
      requires Valid()
      modifies registers, bus
      ensures Valid() && Mirror() == last
      ensures var read := AfterRead(old(Mirror()), old(bus.NextReply()));
        request == read[POWERCFG := SeekRequest(read[POWERCFG], direction)]
      ensures Waited(request, old(bus.readCount) + 1, first, true, maxPolls)
      ensures !Seen(first, true) ==>
        outcome == SeekStalled &&
        bus.sent == old(bus.sent) + [Pack(request)] &&
        bus.readCount == old(bus.readCount) + 1 + |first| &&
        Mirror() == Replay(request, old(bus.readCount) + 1, |first|)
      ensures settled == Replay(request, old(bus.readCount) + 1, |first|)
      ensures from == old(bus.readCount) + 1 + |first|
      ensures Seen(first, true) ==>
        var read := AfterRead(settled, bus.ReplyAt(from));
        captured == read[POWERCFG := SeekCleared(read[POWERCFG])] &&
        (outcome.SeekFailed? <==> Seen(second, false) && read[STATUSRSSI] & SFBL != 0)
      ensures Seen(first, true) ==> bus.sent == old(bus.sent) + [Pack(request)] + [Pack(captured)]
      ensures Seen(first, true) ==> Waited(captured, from + 1, second, false, maxPolls)
      ensures Seen(first, true) ==> (outcome.SeekStalled? <==> !Seen(second, false))
      ensures Seen(first, true) && !outcome.Found? ==>
        bus.readCount == from + 1 + |second| && Mirror() == Replay(captured, from + 1, |second|)
      ensures outcome.Found? ==> Seen(first, true) && Seen(second, false) && bus.readCount == from + 2 + |second|
      ensures outcome.Found? ==> last == AfterRead(Replay(captured, from + 1, |second|), bus.ReplyAt(from + 1 + |second|))
      ensures outcome.Found? ==> outcome.channel == ChannelField(last[READCHAN])
    {
      BeginSeek(direction);
      request := Mirror();
      captured := request;
      second := [];
      var complete;
      complete, first := AwaitStc(true, maxPolls);
      settled := Mirror();
      from := bus.readCount;
      outcome, captured, second, last := FinishSeek(complete, maxPolls, settled, from, old(bus.sent) + [Pack(request)]);
    }

    /**
     * The rest of seek after the wait for STC, which saw STC set if
     * `complete`: if it did not, the seek stalled and nothing more happens;
     * otherwise read, capture SFBL, clear SEEK, write, wait for STC to drop,
     * then failure if SFBL was set, else the channel read back. It starts
     * from `mirror` with read number `from` and the writes `sent` made so
     * far; `captured` is the image written and `second` what the wait saw.
     */
    method FinishSeek(complete: bool, maxPolls: nat, ghost mirror: Block, ghost from: nat, ghost sent: seq<seq<bv16>>)
      returns (outcome: SeekOutcome, ghost captured: Block, ghost second: seq<Obs>, ghost last: Block)
      requires Valid() && Mirror() == mirror && bus.readCount == from && bus.sent == sent
      modifies registers, bus
      ensures Valid() && Mirror() == last
      ensures !complete ==>
        outcome == SeekStalled && bus.sent == sent && bus.readCount == from && Mirror() == mirror
      ensures complete ==>
        var read := AfterRead(mirror, bus.ReplyAt(from));
        captured == read[POWERCFG := SeekCleared(read[POWERCFG])] &&
        (outcome.SeekFailed? <==> Seen(second, false) && read[STATUSRSSI] & SFBL != 0)
      ensures complete ==> bus.sent == sent + [Pack(captured)]
      ensures complete ==> Waited(captured, from + 1, second, false, maxPolls)
      ensures complete ==> (outcome.SeekStalled? <==> !Seen(second, false))
      ensures complete && !outcome.Found? ==>
        bus.readCount == from + 1 + |second| && Mirror() == Replay(captured, from + 1, |second|)
      ensures outcome.Found? ==> complete && Seen(second, false) && bus.readCount == from + 2 + |second|
      ensures outcome.Found? ==> last == AfterRead(Replay(captured, from + 1, |second|), bus.ReplyAt(from + 1 + |second|))
      ensures outcome.Found? ==> outcome.channel == ChannelField(last[READCHAN])
    {
      captured := mirror;
      second := [];
      last := mirror;
      if !complete {
        outcome := SeekStalled;
        return;
      }
      var sfbl := EndSeek();
      captured := Mirror();
      var cleared;
      cleared, second := AwaitStc(false, maxPolls);
      last := Mirror();
      if !cleared {
        outcome := SeekStalled;
        return;
      }
      if sfbl {
        outcome := SeekFailed;
        return;
      }
      ghost var settled := Mirror();
      ghost var reply := bus.NextReply();
      assert reply == bus.ReplyAt(from + 1 + |second|);
      var channel := GetChannel();
      last := Mirror();
      assert last == AfterRead(settled, reply);
      outcome := Found(channel);
    }

    /**
     * One pass of readRDS's loop: read the registers, let TakeSegment handle
     * what they show, then wait 40 ms if RDSR was set and 30 ms otherwise.
     * `o` is what the pass saw in the mirror; the bookkeeping afterwards
     * describes `polls` followed by `o`.
     */
    method Poll(clock: Clock, completed: array<bool>, completedCount: nat, buffer: array<byte>,
                ghost original: seq<byte>, ghost polls: seq<Obs>)
      returns (count: nat, ghost o: Obs)
      requires Valid() && completed.Length == 4 && buffer.Length >= 9
      requires Collected(polls, completed[..], completedCount, buffer[..], original)
      requires buffer as object != registers && completed as object != registers && completed as object != buffer
      modifies registers, bus`readCount, completed, buffer, clock`now, clock`delays
      ensures Valid()
      ensures Mirror() == AfterRead(old(Mirror()), old(bus.NextReply()))
      ensures bus.readCount == old(bus.readCount) + 1
      ensures o == Probe(Mirror())
      ensures Collected(polls + [o], completed[..], count, buffer[..], original)
      ensures clock.delays == old(clock.delays) + 1
      ensures clock.now == old(clock.now) + PassDelay(o) + clock.LagAt(old(clock.delays))
    {
      var readStatus := ReadRegisters();
      var seen := Obs(registers[STATUSRSSI], registers[RDSB], registers[RDSD]);
      o := seen;
      count := TakeSegment(completed, completedCount, buffer, original, polls, seen);
      if seen.status & RDSR != 0 {
        clock.Delay(40);
      } else {
        clock.Delay(30);
      }
      assert PassDelay(seen) == (if seen.status & RDSR != 0 then 40 else 30);
    }

    /**
     * Poll as a step of readRDS's loop, in terms of the loop's history: the
     * polls so far started from `mirror` with read number `from`, with delay
     * number `first` and at time `start`, and the loop condition held before
     * each of them and holds now. Afterwards the same is true of the polls
     * followed by `o`.
     */
    method Pass(clock: Clock, endTime: int, completed: array<bool>, completedCount: nat, buffer: array<byte>,
                ghost original: seq<byte>, ghost polls: seq<Obs>,
                ghost mirror: Block, ghost from: nat, ghost first: nat, ghost start: int)
      returns (count: nat, ghost o: Obs)
      requires Valid() && completed.Length == 4 && buffer.Length >= 9
      requires buffer as object != registers && completed as object != registers && completed as object != buffer
      requires bus.readCount == from + |polls|
      requires Mirror() == Replay(mirror, from, |polls|)
      requires polls == Probes(mirror, from, |polls|)
      requires Collected(polls, completed[..], completedCount, buffer[..], original)
      requires clock.delays == first + |polls|
      requires clock.now == start + Elapsed(clock, polls, first)
      requires PolledWhileOpen(clock, polls, first, endTime - start)
      requires completedCount < 4 && clock.now < endTime
      modifies registers, bus`readCount, completed, buffer, clock`now, clock`delays
      ensures Valid()
      ensures bus.readCount == from + |polls| + 1
      ensures Mirror() == Replay(mirror, from, |polls| + 1)
      ensures polls + [o] == Probes(mirror, from, |polls| + 1)
      ensures Collected(polls + [o], completed[..], count, buffer[..], original)
      ensures clock.delays == first + |polls| + 1
      ensures clock.now == start + Elapsed(clock, polls + [o], first)
      ensures Elapsed(clock, polls + [o], first) == Elapsed(clock, polls, first) + PassDelay(o) + clock.LagAt(first + |polls|)
      ensures PolledWhileOpen(clock, polls + [o], first, endTime - start)
    {
      ghost var prior := Replay(mirror, from, |polls|);
      ghost var reply := bus.ReplyAt(from + |polls|);
      assert bus.NextReply() == reply;
      ghost var now := clock.now;
      count, o := Poll(clock, completed, completedCount, buffer, original, polls);
      assert Mirror() == AfterRead(prior, reply);
      ReplayStep(mirror, from, |polls|);
      PolledStep(clock, polls, o, first, endTime - start);
      assert clock.now == now + PassDelay(o) + clock.LagAt(first + |polls|);
    }

    /**
     * The loop of readRDS: poll while fewer than four segments are in and
     * the clock is before `endTime`. `observed` lists what each poll saw in
     * the mirror; the buffer then holds its original contents with every
     * accepted segment written, the loop condition held before every poll,
     * the clock advanced by the delays after them, and the loop stopped
     * because all four slots are filled or because the deadline had passed.
     */
    method CollectSegments(clock: Clock, endTime: int, buffer: array<byte>) returns (ghost observed: seq<Obs>)
      requires Valid() && buffer.Length >= 9
      requires buffer as object != registers
      modifies registers, bus`readCount, buffer, clock
      ensures Valid()
      ensures bus.readCount == old(bus.readCount) + |observed|
      ensures Mirror() == Replay(old(Mirror()), old(bus.readCount), |observed|)
      ensures observed == Probes(old(Mirror()), old(bus.readCount), |observed|)
      ensures buffer[..] == Render(old(buffer[..]), Assemble(observed))
      ensures Filled(Assemble(observed)) == 4 || clock.now >= endTime
      ensures clock.delays == old(clock.delays) + |observed|
      ensures clock.now == old(clock.now) + Elapsed(clock, observed, old(clock.delays))
      ensures PolledWhileOpen(clock, observed, old(clock.delays), endTime - old(clock.now))
    {
      var completed := new bool[4](_ => false);
      var completedCount := 0;
      observed := [];
      while true
        invariant Valid()
        invariant bus.readCount == old(bus.readCount) + |observed|
        invariant Mirror() == Replay(old(Mirror()), old(bus.readCount), |observed|)
        invariant observed == Probes(old(Mirror()), old(bus.readCount), |observed|)
        invariant completed.Length == 4
        invariant Collected(observed, completed[..], completedCount, buffer[..], old(buffer[..]))
        invariant clock.delays == old(clock.delays) + |observed|
        invariant clock.now == old(clock.now) + Elapsed(clock, observed, old(clock.delays))
        invariant PolledWhileOpen(clock, observed, old(clock.delays), endTime - old(clock.now))
        decreases endTime - clock.now
      {
        if completedCount >= 4 {
          break;
        }
        var now := clock.Millis();
        if now >= endTime {
          break;
        }
        ghost var o;
        completedCount, o := Pass(clock, endTime, completed, completedCount, buffer, old(buffer[..]), observed,
                                  old(Mirror()), old(bus.readCount), old(clock.delays), old(clock.now));
        observed := observed + [o];
      }
    }

    /**
     * readRDS: poll until all four segments are in or the deadline passes.
     * `observed` lists what each poll saw in the mirror; `late` tells whether
     * the final clock reading was past the deadline, in which case buffer[0]
     * is cleared. Otherwise all four slots are filled, the name stands in
     * buffer[0..8] and buffer[8] terminates it.
     */
    method ReadRds(clock: Clock, timeout: int, buffer: array<byte>) returns (ghost observed: seq<Obs>, ghost late: bool)
      requires Valid() && buffer.Length >= 9
      requires buffer as object != registers
      modifies registers, bus`readCount, buffer, clock
      ensures Valid()
      ensures bus.readCount == old(bus.readCount) + |observed|
      ensures Mirror() == Replay(old(Mirror()), old(bus.readCount), |observed|)
      ensures observed == Probes(old(Mirror()), old(bus.readCount), |observed|)
      ensures clock.delays == old(clock.delays) + |observed|
      ensures clock.now == old(clock.now) + Elapsed(clock, observed, old(clock.delays))
      ensures PolledWhileOpen(clock, observed, old(clock.delays), timeout)
      ensures late <==> clock.now >= old(clock.now) + timeout
      ensures late ==> buffer[..] == Render(old(buffer[..]), Assemble(observed))[0 := 0]
      ensures !late ==> Filled(Assemble(observed)) == 4
      ensures !late ==> buffer[..] == Render(old(buffer[..]), Assemble(observed))[8 := 0]
    {
      var start := clock.Millis();
      var endTime := start + timeout;
      observed := CollectSegments(clock, endTime, buffer);
      var now := clock.Millis();
      late := now >= endTime;
      // On the deadline the name is cut at its start, otherwise after its eighth character.
      var end := if now >= endTime then 0 else 8;
      buffer[end] := 0;
    }
  }
}
