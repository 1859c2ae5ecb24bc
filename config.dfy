/**
 * Compile-time configuration of the controller: the fixed-width integer types the
 * firmware computes with, the system constants, and the records with their
 * constructor defaults (EncoderConfig, AppConfig, MtcData, TransportState).
 */
module Config {

  // ---------------------------------------------------------------- fixed-width types

  type byte = x: int | 0 <= x < 0x100
  type int8 = x: int | -0x80 <= x < 0x80
  type int16 = x: int | -0x8000 <= x < 0x8000
  type uint16 = x: int | 0 <= x < 0x1_0000
  type uint32 = x: int | 0 <= x < 0x1_0000_0000

  /** Widths of the bit fields of EncoderConfig. */
  type uint2 = x: int | 0 <= x < 4
  type uint4 = x: int | 0 <= x < 16
  type uint7 = x: int | 0 <= x < 128

  /** Conversion of any integer to uint8_t (two's-complement truncation). */
  function ToByte(x: int): (b: byte)
    ensures (x - b) % 0x100 == 0
  {
    x % 0x100
  }

  /** Conversion of any integer to int8_t (two's-complement truncation). */
  function ToInt8(x: int): (v: int8)
    ensures (x - v) % 0x100 == 0
  {
    var b := x % 0x100;
    if b < 0x80 then b else b - 0x100
  }

  /** int8_t -> uint8_t -> int8_t and uint8_t -> int8_t -> uint8_t lose nothing. */
  lemma ByteInt8RoundTrip(b: byte, v: int8)
    ensures ToByte(ToInt8(b)) == b
    ensures ToInt8(ToByte(v)) == v
  {
  }

  /** `x++` on a uint32_t counter. */
  function Inc32(x: uint32): (y: uint32)
    ensures x < 0xFFFF_FFFF ==> y == x + 1
    ensures x == 0xFFFF_FFFF ==> y == 0
  {
    if x == 0xFFFF_FFFF then 0 else x + 1
  }

  /** `a - b` for unsigned long (32 bits on the target): the elapsed time across a wrap. */
  function Sub32(a: uint32, b: uint32): (d: uint32)
    ensures b <= a ==> d == a - b
    ensures a < b ==> d == 0x1_0000_0000 - (b - a)
  {
    if b <= a then a - b else a - b + 0x1_0000_0000
  }

  /** C `/` on int: truncates toward zero. */
  function CDiv(a: int, b: int): (q: int)
    requires b > 0
    ensures a >= 0 ==> q == a / b
    ensures a < 0 ==> q == -((-a) / b)
  {
    if a >= 0 then a / b else -((-a) / b)
  }

  // ---------------------------------------------------------------- system constants

  const NUM_ENCODERS: nat := 16
  const NUM_BANKS: nat := 4
  const NUM_SWITCHES: nat := 16
  const NUM_BUTTONS: nat := 5

  const NAV_ENCODER_INTERVAL: nat := 2
  const BUTTON_DEBOUNCE_MS: nat := 50

  const ENC_NAV_A_PIN: nat := 8
  const ENC_NAV_B_PIN: nat := 9
  const ENC_NAV_SW_PIN: nat := 10

  const MIDI_CHANNEL_DEFAULT: byte := 1
  const MIDI_JOG_FORWARD: byte := 60
  const MIDI_JOG_BACKWARD: byte := 61

  const MIDI_BUFFER_SIZE: nat := 32
  const SYSEX_BUFFER_SIZE: nat := 16

  /** Values of the 2-bit controlType field; 3 fits the field but names no type. */
  const CT_CC: uint2 := 0
  const CT_NOTE: uint2 := 1
  const CT_PITCH: uint2 := 2

  // ---------------------------------------------------------------- colours

  /** RGB_TO_565: keep the top 5/6/5 bits of red/green/blue. */
  function RgbTo565(r: bv8, g: bv8, b: bv8): (c: bv16)
    ensures c >> 11 == (r >> 3) as bv16
    ensures (c >> 5) & 0x3F == (g >> 2) as bv16
    ensures c & 0x1F == (b >> 3) as bv16
  {
    (((r as bv16) & 0xF8) << 8) | (((g as bv16) & 0xFC) << 3) | ((b as bv16) >> 3)
  }

  // ---------------------------------------------------------------- EncoderConfig

  /**
   * Visible characters of a track name. The field is declared `char trackName[3]`,
   * but the DAW path writes up to 4 characters and a terminator into it; the model
   * keeps the name as the text the firmware means to hold (see README).
   */
  type TrackName = s: seq<char> | |s| <= 4

  /** One track slot of one bank: the bit fields keep their declared widths. */
  datatype EncoderConfig = EncoderConfig(
    channel: uint4,
    control: uint7,
    controlType: uint2,
    isPan: bool,
    value: int8,
    dawValue: int8,
    minValue: int8,
    maxValue: int8,
    isMute: bool,
    isSolo: bool,
    trackColor: bv16,
    trackName: TrackName)

  /** The slot invariant the encoder path keeps: the value lies in its range. */
  predicate InRange(c: EncoderConfig) {
    c.minValue <= c.value <= c.maxValue
  }

  /**
   * `EncoderConfig()`: channel 1, CC 7, absolute CC, value and DAW value 64 in
   * [0, 127], neither muted nor soloed, white. `strncpy(trackName, "Trk", 3)`
   * followed by `trackName[2] = '\0'` leaves the name "Tr".
   */
  function DefaultEncoderConfig(): (c: EncoderConfig)
    ensures InRange(c) && c.minValue == 0 && c.maxValue == 127
    ensures c.value == c.dawValue == 64
    ensures c.channel == 1 && c.control == 7 && c.controlType == CT_CC && !c.isPan
    ensures !c.isMute && !c.isSolo && c.trackColor == 0xFFFF
    ensures c.trackName == "Tr"
  {
    EncoderConfig(1, 7, CT_CC, false, 64, 64, 0, 127, false, false, 0xFFFF, "Tr")
  }

  // ---------------------------------------------------------------- AppConfig, MtcData, TransportState

  datatype Orientation = Orient0 | Orient90 | Orient180 | Orient270

  datatype AppConfig = AppConfig(
    brightness: byte,
    screensaverTimeout: uint16,
    currentBank: byte,
    mtcOffset: int8,
    encoderAcceleration: bool,
    midiChannel: byte,
    orientation: Orientation,
    autoSave: bool,
    encoderSensitivity: byte,
    vuMeterDecay: uint16)

  /** `AppConfig()`: acceleration on, bank 0, MIDI channel 1. */
  function DefaultAppConfig(): (a: AppConfig)
    ensures a.encoderAcceleration && a.currentBank == 0 && a.midiChannel == MIDI_CHANNEL_DEFAULT
    ensures a.brightness == 100 && a.screensaverTimeout == 300 && a.mtcOffset == 0
    ensures a.orientation == Orient270 && a.autoSave && a.encoderSensitivity == 5 && a.vuMeterDecay == 1000
  {
    AppConfig(100, 300, 0, 0, true, MIDI_CHANNEL_DEFAULT, Orient270, true, 5, 1000)
  }

  /** The time code as the MIDI engine keeps it, one uint8_t per field. */
  datatype MtcData = MtcData(hours: bv8, minutes: bv8, seconds: bv8, frames: bv8, isRunning: bool)

  /** `MtcData()`: 00:00:00.00, not running. */
  function DefaultMtcData(): (m: MtcData)
    ensures m.hours == m.minutes == m.seconds == m.frames == 0 && !m.isRunning
  {
    MtcData(0, 0, 0, 0, false)
  }

  datatype TransportState = TransportState(isPlaying: bool, isRecording: bool, isPaused: bool)

  /** `TransportState()`: stopped. */
  function DefaultTransportState(): (t: TransportState)
    ensures !t.isPlaying && !t.isRecording && !t.isPaused
  {
    TransportState(false, false, false)
  }
}
