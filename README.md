# Si4703 FM tuner driver, modelled in Dafny

This project models the register-level core of the SparkFun Si4703 breakout
driver for the Raspberry Pi (`Si4703_Breakout`). The driver keeps a mirror of
the chip's sixteen 16-bit registers. Every operation reads the whole bank from
the chip over I2C. powerOn, powerOff, setVolume, setFrequency and seek then
change a few bit fields in the mirror and write the six control registers
0x02..0x07 back. getFrequency and readRDS only read: they take the channel
field, or the RDS blocks, from the freshly read mirror and never write.

The project has six modules:

- `Endian` (endian.dfy): the byte swap that converts between the chip's big-endian words and the host's little-endian words.
- `Registers` (registers.dfy): the register map and the single-word updates.
  - The region's band and spacing.
  - The volume clamp.
  - The channel request.
  - The seek request.
  - The power-on configuration.
- `Transfer` (transfer.dfy): the two bus transactions as pure functions.
  - A 32-byte read that starts at register 0x0A and wraps around to 0x09.
  - A 12-byte write of registers 0x02..0x07.
- `Rds` (rds.dfy): how readRDS assembles the 8-character program-service name from block B and block D of successive RDS groups.
- `Platform` (platform.dfy): the device handle and the millisecond clock, as scripted oracles.
  - The bus replays a fixed list of read replies and write byte counts.
  - The clock advances on every delay by the requested time plus a scripted lag.
- `Driver` (driver.dfy): the class `Si4703Breakout`.
  - Its register mirror is an `array<bv16>`.
  - Its operations are methods with loops where the driver has loops.
  - Each method states the mirror it leaves, in terms of the bus replies, and, if it writes, the words it writes.
  - A wait for STC states what each of its reads showed. readRDS's loop states what each poll showed and the time that passed after it.

Register words are `bv16`. The C++ integer promotions inside `SwapEndian` are written out as `bv32` arithmetic, keeping the low 16 bits. The header that declares the register indices and bit masks, `SparkFunSi4703.h`, is not part of this model. The values used are the bit positions of the Si4703 datasheet.

## Model

| member | source | states |
|---|---|---|
| Endian.SwapEndian | Libraries/RaspberryPi/src/SparkFunSi4703.cpp:27-29 | the high byte of the result is the low byte of the argument and vice versa, after the int promotion and the truncation back to 16 bits |
| Endian.SwapEndianInvolution | Libraries/RaspberryPi/src/SparkFunSi4703.cpp:27-29 | swapping twice gives the word back |
| Endian.ConversionsAgree | Libraries/RaspberryPi/src/SparkFunSi4703.cpp:31-37 | ToLittleEndian and ToBigEndian are the same function, and each undoes the other |
| Endian.OutgoingIsBigEndian | Libraries/RaspberryPi/src/SparkFunSi4703.cpp:35-37 | a converted word sits in host memory high byte first, so its wire value is the host value |
| Endian.IncomingIsBigEndian | Libraries/RaspberryPi/src/SparkFunSi4703.cpp:31-33 | two wire bytes read into a host word and converted give the big-endian value of those bytes |
| Registers.RegionConfig | Libraries/RaspberryPi/src/SparkFunSi4703.cpp:50-64 | the band and the spacing each lie inside their own SYSCONFIG2 field; US is 87.5-108 MHz at 200 kHz, Europe 87.5-108 MHz at 100 kHz, Japan 76-108 MHz at 100 kHz |
| Registers.VolumeLevel | Libraries/RaspberryPi/src/SparkFunSi4703.cpp:179-182 | the clamped level is at most 15 and is the level in 0..15 closest to the requested volume |
| Registers.WithVolume | Libraries/RaspberryPi/src/SparkFunSi4703.cpp:183-184 | the volume nibble holds the clamped level; the other 12 bits are unchanged |
| Registers.ChannelRequest | Libraries/RaspberryPi/src/SparkFunSi4703.cpp:143-145 | the low 9 bits hold the channel's low 9 bits; TUNE is set; bits 9-14 are the old bits ORed with the channel's bits |
| Registers.ChannelBit9Survives | Libraries/RaspberryPi/src/SparkFunSi4703.cpp:143-145 | when bit 9 was already set, a request for any channel below 512 reads back (10-bit field) as a different channel, with bit 9 added |
| Registers.ChannelBit9Example | Libraries/RaspberryPi/src/SparkFunSi4703.cpp:143-145 | after channel 563, a request for channel 68 reads back as 580 |
| Registers.ChannelRequestCorrected | Libraries/RaspberryPi/src/SparkFunSi4703.cpp:143-145 | with the whole 10-bit field cleared, the channel field holds the requested channel's 10 bits; TUNE is set; bits 10-14 are kept or ORed |
| Registers.CorrectedRequestReadsBack | Libraries/RaspberryPi/src/SparkFunSi4703.cpp:375 | every channel that fits in 10 bits reads back unchanged from the corrected request |
| Registers.TuneCleared | Libraries/RaspberryPi/src/SparkFunSi4703.cpp:158 | TUNE is clear, and every other bit is unchanged |
| Registers.SeekRequest | Libraries/RaspberryPi/src/SparkFunSi4703.cpp:292-302 | SKMODE and SEEK are set; SEEKUP is set exactly for an upward seek; all other bits are unchanged |
| Registers.SeekCleared | Libraries/RaspberryPi/src/SparkFunSi4703.cpp:316 | SEEK is clear, and every other bit is unchanged |
| Registers.PowerOnSysconfig1 | Libraries/RaspberryPi/src/SparkFunSi4703.cpp:113-115 | RDS is set; DE is set exactly for Europe or when it was already set; every other bit is unchanged |
| Registers.PowerOnSysconfig2 | Libraries/RaspberryPi/src/SparkFunSi4703.cpp:116-119 | the volume is 1; band and spacing are ORed into their fields; the seek threshold byte is unchanged |
| Registers.PowerOnSelectsRegionBand | Libraries/RaspberryPi/src/SparkFunSi4703.cpp:113-119 | from cleared band and spacing fields, power-on selects the region's band edges and spacing |
| Transfer.WireSlot | Libraries/RaspberryPi/src/SparkFunSi4703.cpp:242-244 | the register the i-th word of a read belongs to is a register index (below 16) |
| Transfer.WireSlotValue | Libraries/RaspberryPi/src/SparkFunSi4703.cpp:242-247 | words 0..5 go to registers 0x0A..0x0F, words 6..15 to registers 0x00..0x09 |
| Transfer.SlotsAndPositions | Libraries/RaspberryPi/src/SparkFunSi4703.cpp:242-247 | register-of-position and position-of-register are inverse bijections of 0..15 |
| Transfer.WireOrderIsPermutation | Libraries/RaspberryPi/src/SparkFunSi4703.cpp:229-231 | a read visits every register exactly once, from 0x0A to 0x09 |
| Transfer.Remap | Libraries/RaspberryPi/src/SparkFunSi4703.cpp:241-248 | the converted i-th received word lands in register (0x0A + i) mod 16 |
| Transfer.ReadRoundTrip | Libraries/RaspberryPi/src/SparkFunSi4703.cpp:241-248 | a read carries the chip's bank to the mirror unchanged, and the wire carries no more than the bank |
| Transfer.AfterRead | Libraries/RaspberryPi/src/SparkFunSi4703.cpp:232-248 | on a 32-byte read the mirror is the remapped words; on any other count it is unchanged |
| Transfer.Pack | Libraries/RaspberryPi/src/SparkFunSi4703.cpp:265-266 | the six words sent, converted back, are registers 0x02..0x07 in order |
| Transfer.PackOnlyControlRegisters | Libraries/RaspberryPi/src/SparkFunSi4703.cpp:264-266 | registers outside 0x02..0x07 have no influence on a write |
| Transfer.WriteRoundTrip | Libraries/RaspberryPi/src/SparkFunSi4703.cpp:260-268 | a write replaces the chip's registers 0x02..0x07 with the mirror's and keeps all others |
| Transfer.WriteThenRead | Libraries/RaspberryPi/src/SparkFunSi4703.cpp:226-268 | a write followed by a read gives back the written control registers |
| Rds.SlotOf | Libraries/RaspberryPi/src/SparkFunSi4703.cpp:199-200 | the segment address taken from block B is below 4 |
| Rds.Filled | Libraries/RaspberryPi/src/SparkFunSi4703.cpp:191 | the count of filled slots is at most 4, and is 4 exactly when every slot is filled |
| Rds.PairOf | Libraries/RaspberryPi/src/SparkFunSi4703.cpp:205-206 | the two characters are block D's high byte and low byte, whose big-endian value is block D again |
| Rds.Step | Libraries/RaspberryPi/src/SparkFunSi4703.cpp:197-209 | a poll fills the slot block B addresses with block D's characters exactly when RDSR is set, block B is below 500 and that slot is empty; no other slot changes |
| Rds.FilledFromOffer | Libraries/RaspberryPi/src/SparkFunSi4703.cpp:197-209 | every filled slot holds the characters of some poll that offered that slot |
| Rds.StepCount | Libraries/RaspberryPi/src/SparkFunSi4703.cpp:202-204 | a poll adds one to completedCount exactly when it offers a segment whose slot is empty |
| Rds.NeverOfferedStaysEmpty | Libraries/RaspberryPi/src/SparkFunSi4703.cpp:197-209 | a slot no poll offered stays empty |
| Rds.FirstArrivalWins | Libraries/RaspberryPi/src/SparkFunSi4703.cpp:202-209 | a slot holds the characters of the first poll that offered it |
| Rds.FilledIffOffered | Libraries/RaspberryPi/src/SparkFunSi4703.cpp:197-209 | a slot is filled if and only if some poll offered it |
| Rds.FilledSlotsAreKept | Libraries/RaspberryPi/src/SparkFunSi4703.cpp:202 | later polls never change a filled slot |
| Rds.Fill | Libraries/RaspberryPi/src/SparkFunSi4703.cpp:207-208 | a filled slot's characters go to positions 2 * slot and 2 * slot + 1; every other position keeps its byte |
| Rds.Render | Libraries/RaspberryPi/src/SparkFunSi4703.cpp:207-208 | each filled slot k's characters are at positions 2k and 2k+1; the positions of empty slots and positions 8 onwards keep their original bytes |
| Rds.FillCommutes | Libraries/RaspberryPi/src/SparkFunSi4703.cpp:207-208 | writing two different slots gives the same buffer in either order |
| Rds.RenderFill | Libraries/RaspberryPi/src/SparkFunSi4703.cpp:202-208 | filling an empty slot changes the rendered buffer by exactly that slot's two bytes |
| Rds.AcceptSegment | Libraries/RaspberryPi/src/SparkFunSi4703.cpp:202-208 | marking the offered slot, counting it and writing block D's two characters at 2 * slot and 2 * slot + 1 keeps completed, completedCount and the buffer in step with the slot assembly over one more poll |
| Rds.IgnorePoll | Libraries/RaspberryPi/src/SparkFunSi4703.cpp:197-213 | a poll that offers nothing new leaves completed, completedCount and the buffer in step with the slot assembly over one more poll |
| Rds.RenderComplete | Libraries/RaspberryPi/src/SparkFunSi4703.cpp:193-208 | once all four slots are filled, buffer[0..8] is the name, segment by segment |
| Driver.ScatteredIsRemap | Libraries/RaspberryPi/src/SparkFunSi4703.cpp:241-248 | the register image left by readRegisters' loop is exactly Remap of the received words |
| Driver.PassDelay | Libraries/RaspberryPi/src/SparkFunSi4703.cpp:197-213 | the delay after a poll is 40 ms exactly when the poll saw RDSR set, and 30 ms otherwise |
| Driver.Elapsed | Libraries/RaspberryPi/src/SparkFunSi4703.cpp:210-213 | the time readRDS's delays take is at least 30 ms per poll |
| Driver.PolledStep | Libraries/RaspberryPi/src/SparkFunSi4703.cpp:194-213 | a poll made while fewer than four slots were filled and the deadline had not passed keeps the loop condition true of every poll so far; the time grows by that poll's delay and the clock's lag |
| Driver.TakeSegment | Libraries/RaspberryPi/src/SparkFunSi4703.cpp:197-209 | completed, completedCount and the buffer, in step with the slot assembly over the earlier polls, are in step with it over one more poll |
| Driver.Si4703Breakout.Probes | Libraries/RaspberryPi/src/SparkFunSi4703.cpp:194-197 | the sequence of what readRDS sees has one entry per read |
| Driver.Si4703Breakout.PoweredUp | Libraries/RaspberryPi/src/SparkFunSi4703.cpp:111-119 | POWERCFG is 0x4001, RDS is on, the volume is 1, and every register other than POWERCFG, SYSCONFIG1 and SYSCONFIG2 is as read |
| Driver.Si4703Breakout.constructor | Libraries/RaspberryPi/src/SparkFunSi4703.cpp:48-65 | the driver takes the region's band and spacing and owns a fresh 16-register mirror |
| Driver.Si4703Breakout.ReadRegisters | Libraries/RaspberryPi/src/SparkFunSi4703.cpp:226-251 | the mirror becomes AfterRead of the next bus reply; SUCCESS exactly on a 32-byte read; one read call is made |
| Driver.Si4703Breakout.Scatter | Libraries/RaspberryPi/src/SparkFunSi4703.cpp:241-248 | the shuffle loop leaves the mirror equal to Remap of the received words |
| Driver.Si4703Breakout.UpdateRegisters | Libraries/RaspberryPi/src/SparkFunSi4703.cpp:256-274 | exactly one write of Pack(mirror) is made; FAIL exactly when fewer than 12 bytes are accepted; the mirror is untouched |
| Driver.Si4703Breakout.PowerOn | Libraries/RaspberryPi/src/SparkFunSi4703.cpp:87-124 | without the device handle: FAIL and no bus traffic; otherwise two reads and two writes, the oscillator image then the powered-up image, and SUCCESS |
| Driver.Si4703Breakout.PowerOff | Libraries/RaspberryPi/src/SparkFunSi4703.cpp:127-131 | the freshly read mirror with POWERCFG cleared is what remains and what is written |
| Driver.Si4703Breakout.SetVolume | Libraries/RaspberryPi/src/SparkFunSi4703.cpp:177-186 | the freshly read mirror with the clamped volume in SYSCONFIG2 is what remains and what is written |
| Driver.Si4703Breakout.BeginTune | Libraries/RaspberryPi/src/SparkFunSi4703.cpp:142-146 | the freshly read mirror with the channel request in CHANNEL is what remains and what is written |
| Driver.Si4703Breakout.EndTune | Libraries/RaspberryPi/src/SparkFunSi4703.cpp:157-159 | the freshly read mirror with TUNE cleared is what remains and what is written |
| Driver.Si4703Breakout.AwaitStc | Libraries/RaspberryPi/src/SparkFunSi4703.cpp:151-155 | each read is recorded as the mirror it left; the polls stop at the first read where STC shows the awaited value, or after `maxPolls` reads; no earlier read showed it; the result says whether it was seen |
| Driver.Si4703Breakout.SetChannel | Libraries/RaspberryPi/src/SparkFunSi4703.cpp:142-166 | the first write is the channel request on the fresh read; the first wait starts from it; only if that wait saw STC set is the next read made and the image with TUNE clear on that read written, and the second wait starts from it; Settled exactly when both waits saw their STC value; the final mirror and read count follow the bus script |
| Driver.Si4703Breakout.FinishTune | Libraries/RaspberryPi/src/SparkFunSi4703.cpp:157-166 | the image written is the next read with TUNE clear; the wait for STC to drop starts from it; the result says whether it dropped |
| Driver.Si4703Breakout.BeginSeek | Libraries/RaspberryPi/src/SparkFunSi4703.cpp:290-303 | the freshly read mirror with the seek request in POWERCFG is what remains and what is written |
| Driver.Si4703Breakout.EndSeek | Libraries/RaspberryPi/src/SparkFunSi4703.cpp:312-317 | SFBL is taken from the fresh read; the mirror with SEEK cleared is what remains and what is written |
| Driver.Si4703Breakout.GetChannel | Libraries/RaspberryPi/src/SparkFunSi4703.cpp:372-375 | one read; the result is the 10-bit channel field of READCHAN |
| Driver.Si4703Breakout.Seek | Libraries/RaspberryPi/src/SparkFunSi4703.cpp:289-331 | the first write is the seek request on the fresh read; if the first wait did not see STC set, the seek stalls with nothing more written; otherwise the second write is the next read with SEEK clear, SFBL is taken from that read, SeekStalled exactly when the second wait did not see STC drop, SeekFailed exactly when it did and SFBL was set, and otherwise one more read is made and its READCHAN channel field is returned |
| Driver.Si4703Breakout.FinishSeek | Libraries/RaspberryPi/src/SparkFunSi4703.cpp:312-331 | after a wait that saw STC set: the image written is the next read with SEEK clear; SFBL comes from that read; stalled, failed and found as in seek; the found channel is READCHAN's field in the last read |
| Driver.Si4703Breakout.Poll | Libraries/RaspberryPi/src/SparkFunSi4703.cpp:195-213 | one read; completed, completedCount and the buffer advance by exactly one Step of the slot assembly on what the read left; one delay of 40 ms after RDSR, 30 ms otherwise |
| Driver.Si4703Breakout.Pass | Libraries/RaspberryPi/src/SparkFunSi4703.cpp:194-214 | one pass of the loop, entered while fewer than four slots were filled and before the deadline, extends the record of polls, reads, bookkeeping and elapsed time by one poll |
| Driver.Si4703Breakout.CollectSegments | Libraries/RaspberryPi/src/SparkFunSi4703.cpp:189-215 | the polls are the mirrors the reads left; the buffer is the original with every accepted segment written; before each poll fewer than four slots were filled and the deadline had not passed; the clock advanced by exactly the polls' delays plus the clock's lag on each; the loop ends with four slots filled or past the deadline |
| Driver.Si4703Breakout.ReadRds | Libraries/RaspberryPi/src/SparkFunSi4703.cpp:188-223 | the loop condition held before every poll, and the clock advanced by exactly the polls' delays plus the clock's lag on each; late exactly when the final clock reading is at or past start + timeout; when late, buffer[0] is cleared; otherwise all four slots are filled, the name is in buffer[0..8] and buffer[8] is 0 |
| Platform.Bus.Read | Libraries/RaspberryPi/src/SparkFunSi4703.cpp:232 | a read call returns the next scripted reply and counts one read |
| Platform.Bus.Write | Libraries/RaspberryPi/src/SparkFunSi4703.cpp:268 | a write call records the words and returns the next scripted byte count |
| Platform.Clock.Delay | Libraries/RaspberryPi/src/SparkFunSi4703.cpp:210-213 | at least the requested time passes |

## Left out

- GPIO setup and the reset pulse (powerOn lines 72-83) drive pins and touch no register, so they are not modelled.
- Opening `/dev/i2c-1` and the two `ioctl` calls (lines 86-100) are the `acquired` parameter of PowerOn: when it is false, powerOn fails before any register activity.
- The delays inside powerOn and setFrequency (lines 108, 122, 148) do not affect the registers and are left out. Only readRDS's delays are modelled, because its deadline depends on them.
- Floating-point frequency math is left out: setFrequency's `FloatsEqual` guard, frequencyToChannel, channelToFrequency, channelSpacing and minFrequency. SetChannel takes the channel code as input; Seek and GetChannel return the channel code, not the frequency in MHz.
- minFrequency has no case for `Band_Japan_Wide`, the band the constructor chooses for Japan, so it falls off its end for that region. This is float code outside the model.
- printRegisters only prints, so it is not modelled.
- `Driver.Si4703Breakout.AwaitStc`: the source polls without bound; the model stops after `maxPolls` reads. SetChannel and Seek report `Stalled`/`SeekStalled` when that budget runs out. Such an outcome does not exist in the source, which would go on reading.
- `Driver.Si4703Breakout.SetChannel` and `Driver.Si4703Breakout.Seek` take a `maxPolls` bound for each of their two waits, as AwaitStc does.
- `Driver.Si4703Breakout.ReadRds`: `millis()` is unbounded here, so the wrap-around of a `long` deadline is not modelled.
- `Driver.Si4703Breakout.ReadRds`: the caller's buffer is modelled as bytes, not `char`, so the signedness of `char` plays no part.
- `Driver.Si4703Breakout.ReadRds`: requires the caller's buffer to be a different object from the register mirror. In C++ they cannot alias either, but Dafny cannot see this for arrays of different element types.
- `Driver.Si4703Breakout.ReadRds`: when the fourth segment arrives just as the deadline passes, the source also clears buffer[0]. The model states exactly that: `late` depends only on the final clock reading.
- `Driver.Si4703Breakout.BeginSeek` and `Driver.Si4703Breakout.PowerOn` assign the combined word (SeekRequest, PowerOnSysconfig1, PowerOnSysconfig2) in one step instead of the source's sequence of single-bit updates. The word functions are proved to have the effect of those updates.
- Reads and writes beyond the end of the bus script fail: reads return count -1 and writes accept -1. This stands for a bus that stopped answering.
- The driver ignores the status of the reads and writes inside its operations, and so does the model. Only readRegisters and updateRegisters report it.

## Findings

| source | as written | input that shows it | evidently intended | confidence | as-written member | corrected member |
|---|---|---|---|---|---|---|
| Libraries/RaspberryPi/src/SparkFunSi4703.cpp:143 | setFrequency clears CHANNEL with `& 0xFE00`, only the low 9 bits, while the CHANNEL field has 10 bits, as getFrequency's `& 0x03FF` (line 375) shows | CHANNEL holding channel 563 (bit 9 set), then a request for channel 68: the register reads back as channel 580 | clear all 10 channel bits (`& 0xFC00`) so that the requested channel is the one tuned | not executed | Registers.ChannelRequest, Registers.ChannelBit9Survives, Registers.ChannelBit9Example | Registers.ChannelRequestCorrected, Registers.CorrectedRequestReadsBack |

Bit 9 matters only for channel codes of 512 and above. setFrequency (lines 135-144) checks only that the frequency is a whole number of channel spacings above the band's lower edge. It does not check the band's upper edge. In Europe, at 100 kHz spacing from 87.5 MHz, 138.7 MHz gives channel 512 and 143.8 MHz gives channel 563. Both pass the check, and the CHANNEL register then has bit 9 set. A later request for an in-band channel keeps that bit. The driver model (BeginTune, SetChannel) keeps the mask as written, so that it describes the driver's actual writes. The corrected request is modelled and proved beside it.
