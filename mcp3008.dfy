/**
 * Reading a channel of the MCP3008 analog-to-digital converter over SPI:
 * a three-byte request carrying the start bit, the single-ended bit and the
 * channel number, and a 10-bit result spread over the low two bits of the
 * second reply byte and all of the third.
 */
module Mcp3008 {

  type Byte = b: int | 0 <= b < 256

  /** The request frame `[1, (8 + channel) << 4, 0]`; a left shift by 4 multiplies by 16. */
  function RequestFrame(channel: int): (frame: seq<int>)
    ensures |frame| == 3 && frame[0] == 1 && frame[2] == 0
    ensures 0 <= channel <= 7 ==> 128 <= frame[1] <= 240 && frame[1] % 16 == 0
  {
    [1, (8 + channel) * 16, 0]
  }

  /**
   * For channels 0 to 7 the second byte's high nibble is the single-ended
   * bit followed by the channel number, and its low nibble is zero.
   */
  lemma RequestSelectsChannel(channel: int)
    requires 0 <= channel <= 7
    ensures RequestFrame(channel)[1] / 128 == 1
    ensures RequestFrame(channel)[1] / 16 % 8 == channel
  {
  }

  /**
   * `((adc[1] & 3) << 8) + adc[2]`, for the three bytes the transfer answers
   * with; on a byte, masking with 3 is the remainder modulo 4 and shifting
   * left by 8 multiplies by 256.
   */
  function Decode(adc: seq<Byte>): (value: int)
    requires |adc| == 3
    ensures 0 <= value <= 1023
  {
    (adc[1] as int) % 4 * 256 + adc[2] as int
  }

  /** The result is `v` exactly when the third byte is its low 8 bits and the second byte's low 2 bits its high 2. */
  lemma DecodeMeans(adc: seq<Byte>, v: int)
    requires |adc| == 3
    ensures Decode(adc) == v <==> adc[2] == v % 256 && adc[1] % 4 == v / 256 && 0 <= v
  {
  }

  /** Any 10-bit value sent as `[_, v >> 8, v & 255]` decodes back to itself. */
  lemma DecodeRoundTrip(first: Byte, v: int)
    requires 0 <= v <= 1023
    ensures Decode([first, v / 256, v % 256]) == v
  {
    DecodeMeans([first, v / 256, v % 256], v);
  }

  /** Only the low 2 bits of the second byte and the third byte matter. */
  lemma DecodeIgnoresHighBits(adc: seq<Byte>, adc': seq<Byte>)
    requires |adc| == 3 && |adc'| == 3
    requires adc[1] % 4 == adc'[1] % 4 && adc[2] == adc'[2]
    ensures Decode(adc) == Decode(adc')
  {
  }

  /** The named channels of the plant module's converter. */
  datatype Channel = SoilMoistureSensor | GasQualitySensor | LightSensor

  function ChannelNumber(c: Channel): (n: int)
    ensures 0 <= n <= 2
  {
    match c
    case SoilMoistureSensor => 0
    case GasQualitySensor => 1
    case LightSensor => 2
  }

  /** The named channels are 0, 1 and 2, so their requests are `[1, 128, 0]`, `[1, 144, 0]` and `[1, 160, 0]`. */
  lemma NamedChannelFrames()
    ensures RequestFrame(ChannelNumber(SoilMoistureSensor)) == [1, 128, 0]
    ensures RequestFrame(ChannelNumber(GasQualitySensor)) == [1, 144, 0]
    ensures RequestFrame(ChannelNumber(LightSensor)) == [1, 160, 0]
    ensures forall c, c' :: ChannelNumber(c) == ChannelNumber(c') ==> c == c'
  {
  }
}
