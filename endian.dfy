/**
 * Byte order of the Si4703's register words.
 *
 * The chip sends and receives every 16-bit register most significant byte
 * first. The driver moves whole `uint16_t` words between its buffers and the
 * bus, so on the little-endian Raspberry Pi each word has to have its two
 * bytes exchanged on the way in and on the way out.
 */
module Endian {

  type byte = bv8

  /**
   * Exchanges the two bytes of a word. The C++ expression
   * `(val >> 8) | (val << 8)` is evaluated in `int`, where the left shift
   * keeps the high byte in bits 16..23; the conversion back to `uint16_t`
   * keeps the low 16 bits. Both steps are written out.
   */
  function SwapEndian(val: bv16): (r: bv16)
    ensures r >> 8 == val & 0xFF
    ensures r & 0xFF == val >> 8
  {
    var wide: bv32 := (val as bv32 >> 8) | (val as bv32 << 8);
    (wide & 0xFFFF) as bv16
  }

  /** Converts a word as received from the bus into the host's value. */
  function ToLittleEndian(val: bv16): bv16
  {
    SwapEndian(val)
  }

  /** Converts a host value into the word to put on the bus. */
  function ToBigEndian(val: bv16): bv16
  {
    SwapEndian(val)
  }

  /** Swapping twice gives the word back. */
  lemma SwapEndianInvolution(val: bv16)
    ensures SwapEndian(SwapEndian(val)) == val
  {
  }

  /** The two conversions are one and the same function, and each undoes the other. */
  lemma ConversionsAgree(val: bv16)
    ensures ToLittleEndian(val) == ToBigEndian(val)
    ensures ToLittleEndian(ToBigEndian(val)) == val
    ensures ToBigEndian(ToLittleEndian(val)) == val
  {
    SwapEndianInvolution(val);
  }

  /** The bytes a little-endian host keeps in memory for a word, lowest address first. */
  function HostBytes(w: bv16): seq<byte>
  {
    [(w & 0xFF) as byte, (w >> 8) as byte]
  }

  /** The word a little-endian host sees in two bytes of memory, lowest address first. */
  function HostWord(first: byte, second: byte): bv16
  {
    (second as bv16 << 8) | first as bv16
  }

  /** The value of a big-endian word on the wire, given its two bytes in wire order. */
  function WireValue(first: byte, second: byte): bv16
  {
    (first as bv16 << 8) | second as bv16
  }

  /** A word converted by ToBigEndian leaves the host high byte first. */
  lemma OutgoingIsBigEndian(val: bv16)
    ensures HostBytes(ToBigEndian(val)) == [(val >> 8) as byte, (val & 0xFF) as byte]
    ensures WireValue(HostBytes(ToBigEndian(val))[0], HostBytes(ToBigEndian(val))[1]) == val
  {
  }

  /** Two wire bytes read into a host word and converted by ToLittleEndian give the big-endian value. */
  lemma IncomingIsBigEndian(first: byte, second: byte)
    ensures ToLittleEndian(HostWord(first, second)) == WireValue(first, second)
  {
  }
}
