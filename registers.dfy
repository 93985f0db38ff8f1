/**
 * The Si4703 register map and the bit-field updates the driver performs on
 * single register words.
 *
 * The register indices and bit masks are declared in the driver's header,
 * which is not part of this model; the values below are the positions given
 * in the Si4703 datasheet. Each mask is a single bit, and the masks used in
 * one register are distinct.
 */
module Registers {

  // Register indices.
  const POWERCFG: nat := 0x02
  const CHANNEL: nat := 0x03
  const SYSCONFIG1: nat := 0x04
  const SYSCONFIG2: nat := 0x05
  const TEST1: nat := 0x07
  const STATUSRSSI: nat := 0x0A
  const READCHAN: nat := 0x0B
  const RDSB: nat := 0x0D
  const RDSD: nat := 0x0F

  // POWERCFG bits.
  const SKMODE: bv16 := 0x0400
  const SEEKUP: bv16 := 0x0200
  const SEEK: bv16 := 0x0100
  // CHANNEL bits.
  const TUNE: bv16 := 0x8000
  // SYSCONFIG1 bits.
  const RDS: bv16 := 0x1000
  const DE: bv16 := 0x0800
  // STATUSRSSI bits.
  const RDSR: bv16 := 0x8000
  const STC: bv16 := 0x4000
  const SFBL: bv16 := 0x2000

  // SYSCONFIG2 fields: BAND (bits 7:6), SPACE (bits 5:4), VOLUME (bits 3:0).
  const BAND_MASK: bv16 := 0x00C0
  const SPACE_MASK: bv16 := 0x0030
  const VOLUME_MASK: bv16 := 0x000F

  const BAND_US_EUROPE: bv16 := 0x0000
  const BAND_JAPAN_WIDE: bv16 := 0x0040
  const BAND_JAPAN: bv16 := 0x0080

  const SPACING_200KHZ: bv16 := 0x0000
  const SPACING_100KHZ: bv16 := 0x0010
  const SPACING_50KHZ: bv16 := 0x0020

  /** POWERCFG written at power-on: DMUTE (bit 14) and ENABLE (bit 0). */
  const POWERCFG_ENABLED: bv16 := 0x4001
  /** TEST1 written at power-on to start the crystal oscillator (XOSCEN). */
  const OSCILLATOR_ON: bv16 := 0x8100

  /** The CHANNEL field, as read back from READCHAN by the driver (10 bits). */
  function ChannelField(w: bv16): bv16
  {
    w & 0x03FF
  }

  predicate StcSet(status: bv16)
  {
    status & STC != 0
  }

  datatype Region = US | Europe | Japan

  /** Band and channel spacing as they are ORed into SYSCONFIG2. */
  datatype Config = Config(band: bv16, spacing: bv16)

  /** Lower band edge in kHz for each BAND code of the datasheet (0 for the unused code 11). */
  function BandLowKHz(band: bv16): nat
  {
    if band & BAND_MASK == BAND_US_EUROPE then 87500
    else if band & BAND_MASK == BAND_JAPAN_WIDE then 76000
    else if band & BAND_MASK == BAND_JAPAN then 76000
    else 0
  }

  /** Upper band edge in kHz for each BAND code of the datasheet (0 for the unused code 11). */
  function BandHighKHz(band: bv16): nat
  {
    if band & BAND_MASK == BAND_US_EUROPE then 108000
    else if band & BAND_MASK == BAND_JAPAN_WIDE then 108000
    else if band & BAND_MASK == BAND_JAPAN then 90000
    else 0
  }

  /** Channel spacing in kHz for each SPACE code of the datasheet (0 for the unused code 11). */
  function SpacingKHz(spacing: bv16): nat
  {
    if spacing & SPACE_MASK == SPACING_200KHZ then 200
    else if spacing & SPACE_MASK == SPACING_100KHZ then 100
    else if spacing & SPACE_MASK == SPACING_50KHZ then 50
    else 0
  }

  /**
   * The constructor's choice of band and spacing per region. Each value lies
   * inside its own SYSCONFIG2 field, and together they select 87.5-108 MHz in
   * 200 kHz steps for the US, 87.5-108 MHz in 100 kHz steps for Europe, and
   * the 76-108 MHz wide band in 100 kHz steps for Japan.
   */
  function RegionConfig(region: Region): (c: Config)
    ensures c.band & !BAND_MASK == 0 && c.spacing & !SPACE_MASK == 0
    ensures BandLowKHz(c.band) == (if region == Japan then 76000 else 87500)
    ensures BandHighKHz(c.band) == 108000
    ensures SpacingKHz(c.spacing) == (if region == US then 200 else 100)
  {
    match region
    case US => Config(BAND_US_EUROPE, SPACING_200KHZ)
    case Europe => Config(BAND_US_EUROPE, SPACING_100KHZ)
    case Japan => Config(BAND_JAPAN_WIDE, SPACING_100KHZ)
  }

  function Distance(a: int, b: int): nat
  {
    if a < b then b - a else a - b
  }

  /** setVolume's clamp: the level in 0..15 nearest to the requested volume. */
  function VolumeLevel(volume: int): (level: bv16)
    ensures level <= 15
    ensures forall w :: 0 <= w <= 15 ==> Distance(volume, level as int) <= Distance(volume, w)
  {
    if volume < 0 then 0
    else if volume > 15 then 15
    else volume as bv16
  }

  /** SYSCONFIG2 after setVolume: the volume nibble holds the clamped level, the other 12 bits are kept. */
  function WithVolume(sysconfig2: bv16, volume: int): (r: bv16)
    ensures r & VOLUME_MASK == VolumeLevel(volume)
    ensures r & !VOLUME_MASK == sysconfig2 & !VOLUME_MASK
  {
    (sysconfig2 & 0xFFF0) | VolumeLevel(volume)
  }

  /**
   * CHANNEL as setFrequency writes it to start a tune: the low 9 bits are
   * cleared, the channel code is ORed in, and TUNE is set. The low 9 bits
   * then hold the channel's low 9 bits; every higher bit except TUNE is the
   * old bit ORed with the channel's bit.
   */
  function ChannelRequest(channelReg: bv16, channel: bv16): (r: bv16)
    ensures r & 0x01FF == channel & 0x01FF
    ensures r & TUNE != 0
    ensures r & 0x7E00 == (channelReg | channel) & 0x7E00
  {
    ((channelReg & 0xFE00) | channel) | TUNE
  }

  /**
   * With bit 9 of CHANNEL already set, the request for any channel below 512
   * reads back as a different channel: the old bit 9 survives the 9-bit clear.
   */
  lemma ChannelBit9Survives(channelReg: bv16, channel: bv16)
    requires channelReg & 0x0200 != 0 && channel < 0x0200
    ensures ChannelField(ChannelRequest(channelReg, channel)) == channel | 0x0200
    ensures ChannelField(ChannelRequest(channelReg, channel)) != channel
  {
  }

  /** A concrete case: channel 68 (101.1 MHz in the US) requested after channel 563 reads back as 580. */
  lemma ChannelBit9Example()
    ensures ChannelField(ChannelRequest(563 | TUNE, 68)) == 580
  {
  }

  /**
   * The request with the whole 10-bit CHANNEL field cleared: the field then
   * holds the requested channel's 10 bits whatever it held before.
   */
  function ChannelRequestCorrected(channelReg: bv16, channel: bv16): (r: bv16)
    ensures ChannelField(r) == ChannelField(channel)
    ensures r & TUNE != 0
    ensures r & 0x7C00 == (channelReg | channel) & 0x7C00
  {
    ((channelReg & 0xFC00) | channel) | TUNE
  }

  /** For every channel code that fits in 10 bits, the corrected request reads back as that channel. */
  lemma CorrectedRequestReadsBack(channelReg: bv16, channel: bv16)
    requires channel & 0xFC00 == 0
    ensures ChannelField(ChannelRequestCorrected(channelReg, channel)) == channel
  {
    assert ChannelField(channel) == channel;
  }

  /** CHANNEL after the tune completed: only TUNE is cleared. */
  function TuneCleared(channelReg: bv16): (r: bv16)
    ensures r & TUNE == 0
    ensures r | TUNE == channelReg | TUNE
  {
    channelReg & !TUNE
  }

  datatype Direction = Up | Down

  /**
   * POWERCFG as seek writes it to start: wrap-around allowed (SKMODE),
   * SEEKUP set exactly for an upward seek, SEEK set, all other bits kept.
   */
  function SeekRequest(powercfg: bv16, direction: Direction): (r: bv16)
    ensures r & SKMODE != 0 && r & SEEK != 0
    ensures (r & SEEKUP != 0) <==> direction == Up
    ensures r & !(SKMODE | SEEKUP | SEEK) == powercfg & !(SKMODE | SEEKUP | SEEK)
  {
    var wrap := powercfg | SKMODE;
    match direction
    case Down => (wrap & !SEEKUP) | SEEK
    case Up => (wrap | SEEKUP) | SEEK
  }

  /** POWERCFG after the seek completed: only SEEK is cleared. */
  function SeekCleared(powercfg: bv16): (r: bv16)
    ensures r & SEEK == 0
    ensures r | SEEK == powercfg | SEEK
  {
    powercfg & !SEEK
  }

  /**
   * SYSCONFIG1 at power-on: RDS is enabled; DE (50 us de-emphasis) is set for
   * Europe and otherwise left as it was; every other bit is kept.
   */
  function PowerOnSysconfig1(sysconfig1: bv16, region: Region): (r: bv16)
    ensures r & RDS != 0
    ensures (r & DE != 0) <==> (region == Europe || sysconfig1 & DE != 0)
    ensures r & !(RDS | DE) == sysconfig1 & !(RDS | DE)
  {
    var withRds := sysconfig1 | RDS;
    if region == Europe then withRds | DE else withRds
  }

  /**
   * SYSCONFIG2 at power-on: the volume nibble becomes 1 and, for a band and
   * a spacing that lie inside their fields, they are ORed into those fields
   * (not replacing them) and the seek threshold in the high byte is kept.
   */
  function PowerOnSysconfig2(sysconfig2: bv16, config: Config): (r: bv16)
    ensures r & VOLUME_MASK == 1
    ensures config.band & !BAND_MASK == 0 && config.spacing & !SPACE_MASK == 0 ==>
      r & BAND_MASK == (sysconfig2 | config.band) & BAND_MASK &&
      r & SPACE_MASK == (sysconfig2 | config.spacing) & SPACE_MASK &&
      r >> 8 == sysconfig2 >> 8
  {
    var banded := (sysconfig2 | config.band) | config.spacing;
    (banded & 0xFFF0) | 0x0001
  }

  /**
   * Starting from a SYSCONFIG2 whose band and spacing fields are clear (the
   * reset value), power-on selects the region's band edges and spacing.
   */
  lemma PowerOnSelectsRegionBand(sysconfig2: bv16, region: Region)
    requires sysconfig2 & (BAND_MASK | SPACE_MASK) == 0
    ensures var r := PowerOnSysconfig2(sysconfig2, RegionConfig(region));
      BandLowKHz(r) == (if region == Japan then 76000 else 87500) &&
      BandHighKHz(r) == 108000 &&
      SpacingKHz(r) == (if region == US then 200 else 100)
  {
    var c := RegionConfig(region);
    var r := PowerOnSysconfig2(sysconfig2, c);
    assert r & BAND_MASK == c.band & BAND_MASK;
    assert r & SPACE_MASK == c.spacing & SPACE_MASK;
  }
}
