/**
 * MIDI protocol engine: the outbound ring buffer with its shared SysEx payload
 * buffer, the serialiser that drains it, inbound USB-MIDI packet dispatch, the
 * transport tracker, MIDI Time Code quarter-frame reconstruction, RGB888/RGB565
 * conversion and the Studio One SysEx parser. Bytes on the wire are `bv8`; each
 * `tud_midi_stream_write` is recorded as one element of `wire`, and every DAW
 * synchronisation callback as a `DawAction`.
 */
module Midi {
  import opened Config
  import opened Wrappers
  import Encoders

  // ================================================================ message kinds

  const MIDI_TYPE_CC: bv8 := 0
  const MIDI_TYPE_NOTE_ON: bv8 := 1
  const MIDI_TYPE_NOTE_OFF: bv8 := 2
  const MIDI_TYPE_PITCH_BEND: bv8 := 3
  const MIDI_TYPE_SYSEX: bv8 := 4
  const MIDI_TYPE_REALTIME: bv8 := 5

  const SYSEX_COLOR_UPDATE: bv8 := 0x01
  const SYSEX_VALUE_UPDATE: bv8 := 0x02
  const SYSEX_NAME_UPDATE: bv8 := 0x03
  const SYSEX_VU_UPDATE: bv8 := 0x04
  const SYSEX_TRANSPORT: bv8 := 0x05
  const SYSEX_VALUE_AND_COLOR: bv8 := 0x06

  /** One queued message: for SysEx, `data1` is the payload length. */
  datatype MidiMessage = MidiMessage(kind: bv8, channel: bv8, data1: bv8, data2: bv8)

  /** Messages the drain can serialise: a SysEx length never exceeds the payload buffer. */
  predicate Serializable(m: MidiMessage) {
    m.kind == MIDI_TYPE_SYSEX ==> m.data1 as int <= SYSEX_BUFFER_SIZE
  }

  /** isValidMidiChannel. */
  predicate IsValidMidiChannel(channel: bv8) {
    1 <= channel <= 16
  }

  /** isValidControlNumber and isValidNoteNumber. */
  predicate IsValidNumber(n: bv8) {
    n <= 127
  }

  // ================================================================ status bytes

  /** `base | (channel - 1)` for a uint8_t channel. */
  function StatusByte(base: bv8, channel: bv8): (s: bv8)
    ensures base & 0x0F == 0 && 1 <= channel <= 16 ==> s & 0xF0 == base && s & 0x0F == channel - 1
  {
    base | (channel - 1)
  }

  /** processMidiMessage's reading of a status byte: `(status >> 4) & 0x0F`. */
  function MessageType(status: bv8): (t: bv8)
    ensures t < 16
  {
    (status >> 4) & 0x0F
  }

  /** processMidiMessage's reading of a status byte: `(status & 0x0F) + 1`. */
  function ChannelOf(status: bv8): (ch: bv8)
    ensures 1 <= ch <= 16
  {
    (status & 0x0F) + 1
  }

  /** High nibble of the status byte of the four channel-voice kinds, per the MIDI 1.0 message table. */
  function VoiceNibble(kind: bv8): (n: bv8)
    requires kind < 4
  {
    if kind == MIDI_TYPE_CC then 0xB
    else if kind == MIDI_TYPE_NOTE_ON then 0x9
    else if kind == MIDI_TYPE_NOTE_OFF then 0x8
    else 0xE
  }

  /**
   * processMidiOutput's switch: three bytes for the channel-voice kinds, the first
   * `data1` bytes of the SysEx buffer, one byte for realtime, nothing otherwise.
   */
  function Serialize(m: MidiMessage, payload: seq<bv8>): (w: seq<bv8>)
    requires m.kind == MIDI_TYPE_SYSEX ==> m.data1 as int <= |payload|
    ensures m.kind < 4 ==> |w| == 3 && w[1] == m.data1 && w[2] == m.data2
    ensures m.kind == MIDI_TYPE_SYSEX ==> w == payload[..m.data1]
    ensures m.kind == MIDI_TYPE_REALTIME ==> w == [m.data1]
    ensures m.kind > MIDI_TYPE_REALTIME ==> w == []
  {
    if m.kind == MIDI_TYPE_CC then [StatusByte(0xB0, m.channel), m.data1, m.data2]
    else if m.kind == MIDI_TYPE_NOTE_ON then [StatusByte(0x90, m.channel), m.data1, m.data2]
    else if m.kind == MIDI_TYPE_NOTE_OFF then [StatusByte(0x80, m.channel), m.data1, m.data2]
    else if m.kind == MIDI_TYPE_PITCH_BEND then [StatusByte(0xE0, m.channel), m.data1, m.data2]
    else if m.kind == MIDI_TYPE_SYSEX then payload[..m.data1]
    else if m.kind == MIDI_TYPE_REALTIME then [m.data1]
    else []
  }

  /** processMidiMessage's decoding of a status byte gives back the kind and the channel it was built from. */
  lemma StatusRoundTrip(base: bv8, channel: bv8)
    requires base & 0x0F == 0 && 1 <= channel <= 16
    ensures MessageType(StatusByte(base, channel)) == base >> 4
    ensures ChannelOf(StatusByte(base, channel)) == channel
  {
  }

  /**
   * A channel-voice message on channel 1-16 reads back, through processMidiMessage,
   * as the kind's MIDI 1.0 type and the message's channel.
   */
  lemma SerializeVoiceDecodes(m: MidiMessage, payload: seq<bv8>)
    requires m.kind < 4 && 1 <= m.channel <= 16
    ensures var w := Serialize(m, payload);
      MessageType(w[0]) == VoiceNibble(m.kind) && ChannelOf(w[0]) == m.channel
  {
    if m.kind == MIDI_TYPE_CC {
      StatusRoundTrip(0xB0, m.channel);
    } else if m.kind == MIDI_TYPE_NOTE_ON {
      StatusRoundTrip(0x90, m.channel);
    } else if m.kind == MIDI_TYPE_NOTE_OFF {
      StatusRoundTrip(0x80, m.channel);
    } else {
      StatusRoundTrip(0xE0, m.channel);
    }
  }

  // ================================================================ pitch bend

  /**
   * sendPitchBend's data bytes: `value & 0x7F` and `(value >> 7) & 0x7F` on the
   * int16_t (two's complement, arithmetic shift): the low 14 bits of the value,
   * split into 7-bit halves, with no centre offset added.
   */
  function PitchBendBytes(value: int16): (p: (nat, nat))
    ensures p.0 < 128 && p.1 < 128
    ensures p.0 + 128 * p.1 == value % 16384
  {
    SplitFourteen(value);
    (value % 128, (value / 128) % 128)
  }

  lemma SplitFourteen(w: int)
    ensures w % 128 + 128 * ((w / 128) % 128) == w % 16384
  {
    var q, r := w / 128, w % 128;
    var q2, r2 := q / 128, q % 128;
    assert w == 128 * q + r && q == 128 * q2 + r2;
    assert w == 16384 * q2 + (128 * r2 + r);
    assert 0 <= 128 * r2 + r < 16384;
  }

  /** The 14-bit pitch-bend word a pair of data bytes carries (LSB first). */
  function BendWord(p: (nat, nat)): nat {
    p.0 + 128 * p.1
  }

  /**
   * An encoder configured for pitch bend (value mapped to -8192..8191) puts the
   * centre word 8192 on the wire at value 0, and the wire word falls from 16319 to
   * 64 between values 63 and 64: the signed value is sent without the 8192 offset
   * the 14-bit MIDI word centres on.
   */
  lemma EncoderPitchBendOnTheWire()
    ensures BendWord(PitchBendBytes(Encoders.PitchBendFromValue(0))) == 8192
    ensures BendWord(PitchBendBytes(Encoders.PitchBendFromValue(63))) == 16319
    ensures BendWord(PitchBendBytes(Encoders.PitchBendFromValue(64))) == 64
    ensures BendWord(PitchBendBytes(Encoders.PitchBendFromValue(127))) == 8191
  {
    assert Encoders.PitchBendFromValue(63) == -65 by {
      assert 63 * 16383 == 127 * 8127;
    }
    assert Encoders.PitchBendFromValue(64) == 64 by {
      assert 64 * 16383 == 127 * 8256;
    }
  }

  // ================================================================ transport

  /** processRealTimeMessage: Start and Continue play, Stop stops; recording is never touched. */
  function RealTimeTransport(t: TransportState, status: bv8): (u: TransportState)
    ensures u.isRecording == t.isRecording
    ensures (status == 0xFA || status == 0xFB) ==> u.isPlaying && !u.isPaused
    ensures status == 0xFC ==> !u.isPlaying && !u.isPaused
    ensures status != 0xFA && status != 0xFB && status != 0xFC ==> u == t
  {
    if status == 0xFA || status == 0xFB then t.(isPlaying := true, isPaused := false)
    else if status == 0xFC then t.(isPlaying := false, isPaused := false)
    else t
  }

  /**
   * processSystemMessage, transport part: as processRealTimeMessage, except that
   * Timing Clock (0xF8) also sets playing and System Reset (0xFF) clears all three flags.
   */
  function SystemTransport(t: TransportState, status: bv8): (u: TransportState)
    ensures status == 0xF8 ==> u == t.(isPlaying := true)
    ensures status == 0xFF ==> u == DefaultTransportState()
    ensures status != 0xF8 && status != 0xFF ==> u == RealTimeTransport(t, status)
  {
    if status == 0xF8 then t.(isPlaying := true)
    else if status == 0xFF then DefaultTransportState()
    else RealTimeTransport(t, status)
  }

  /** A repeated realtime command changes nothing more. */
  lemma RealTimeIdempotent(t: TransportState, status: bv8)
    ensures RealTimeTransport(RealTimeTransport(t, status), status) == RealTimeTransport(t, status)
  {
  }

  // ================================================================ USB-MIDI packets

  /** A USB-MIDI event packet: header (cable number, code index number) and three MIDI bytes. */
  type Packet = s: seq<bv8> | |s| == 4 witness [0, 0, 0, 0]

  /** Code Index Number: the low nibble of the header byte. */
  function Cin(p: Packet): (c: bv8)
    ensures c < 16
  {
    p[0] & 0x0F
  }

  /**
   * The Code Index Numbers of the USB Device Class Definition for MIDI Devices 1.0
   * (section 4, Table 4-1) whose event is a channel-voice message: Note-off,
   * Note-on, Poly-KeyPress, Control Change, Program Change, Channel Pressure,
   * PitchBend Change.
   */
  predicate ChannelVoiceCin(c: bv8) {
    c == 0x8 || c == 0x9 || c == 0xA || c == 0xB || c == 0xC || c == 0xD || c == 0xE
  }

  datatype Route = ToChannelHandler(status: bv8, data1: bv8, data2: bv8) | ToRealTime(status: bv8) | Dropped

  /** processUsbMidiPacket's dispatch on the Code Index Number. */
  function RouteOf(p: Packet): (r: Route)
    ensures r.ToChannelHandler? <==> ChannelVoiceCin(Cin(p))
    ensures r.ToChannelHandler? ==> r == ToChannelHandler(p[1], p[2], p[3])
    ensures r.ToRealTime? <==> Cin(p) == 0xF && p[1] >= 0xF8
    ensures r.ToRealTime? ==> r.status == p[1]
  {
    var cin := p[0] & 0x0F;
    if 0x8 <= cin <= 0xE then ToChannelHandler(p[1], p[2], p[3])
    else if cin == 0xF && p[1] >= 0xF8 then ToRealTime(p[1])
    else Dropped
  }

  /** The transport after one packet: only realtime packets affect it. */
  function Deliver(t: TransportState, p: Packet): (u: TransportState)
    ensures RouteOf(p).ToRealTime? ==> u == RealTimeTransport(t, p[1])
    ensures !RouteOf(p).ToRealTime? ==> u == t
  {
    match RouteOf(p)
    case ToRealTime(status) => RealTimeTransport(t, status)
    case _ => t
  }

  function DeliverAll(t: TransportState, ps: seq<Packet>): TransportState
    decreases |ps|
  {
    if ps == [] then t else Deliver(DeliverAll(t, ps[..|ps| - 1]), ps[|ps| - 1])
  }

  /** Whatever packets arrive, recording is never set or cleared by the input path. */
  lemma {:induction false} DeliverAllKeepsRecording(t: TransportState, ps: seq<Packet>)
    ensures DeliverAll(t, ps).isRecording == t.isRecording
    decreases |ps|
  {
    if ps != [] {
      DeliverAllKeepsRecording(t, ps[..|ps| - 1]);
    }
  }

  /** `n` increments of a uint32_t counter. */
  function IncBy(x: uint32, n: nat): (y: uint32)
    ensures x + n < 0x1_0000_0000 ==> y == x + n
  {
    if n == 0 then x else Inc32(IncBy(x, n - 1))
  }

  // ================================================================ MIDI Time Code

  /** `(data >> 4) & 0x07`. */
  function PieceType(d: bv8): (p: bv8)
    ensures p < 8
  {
    (d >> 4) & 0x07
  }

  /** `data & 0x0F`. */
  function PieceValue(d: bv8): (v: bv8)
    ensures v < 16
  {
    d & 0x0F
  }

  /** Field k of the time code: 0 frames, 1 seconds, 2 minutes, 3 hours. */
  function Field(m: MtcData, k: nat): bv8 {
    if k == 0 then m.frames else if k == 1 then m.seconds else if k == 2 then m.minutes else m.hours
  }

  /** The field a piece writes: pieces 2k and 2k+1 write field k. */
  function FieldOfPiece(p: bv8): (k: nat)
    requires p < 8
    ensures k < 4
  {
    if p < 2 then 0 else if p < 4 then 1 else if p < 6 then 2 else 3
  }

  /** updateMtcFromQuarterFrame, data part: the switch on the piece type. */
  function ApplyQuarterFrame(m: MtcData, d: bv8): MtcData
  {
    var p, v := PieceType(d), PieceValue(d);
    if p == 0 then m.(frames := (m.frames & 0xF0) | v)
    else if p == 1 then m.(frames := (m.frames & 0x0F) | (v << 4))
    else if p == 2 then m.(seconds := (m.seconds & 0xF0) | v)
    else if p == 3 then m.(seconds := (m.seconds & 0x0F) | (v << 4))
    else if p == 4 then m.(minutes := (m.minutes & 0xF0) | v)
    else if p == 5 then m.(minutes := (m.minutes & 0x0F) | (v << 4))
    else if p == 6 then m.(hours := (m.hours & 0xF0) | v)
    else m.(hours := (m.hours & 0x0F) | (v << 4), isRunning := (v & 0x06) != 0)
  }

  /**
   * An even piece writes the low nibble and an odd piece the high nibble of its
   * field; nothing else changes, except that piece 7 also sets isRunning from
   * bits 1-2 of its value.
   */
  lemma QuarterFrameWritesOneNibble(m: MtcData, d: bv8, k: nat)
    requires k < 4
    ensures k != FieldOfPiece(PieceType(d)) ==> Field(ApplyQuarterFrame(m, d), k) == Field(m, k)
    ensures k == FieldOfPiece(PieceType(d)) && PieceType(d) & 1 == 0 ==>
      Field(ApplyQuarterFrame(m, d), k) & 0x0F == PieceValue(d) &&
      Field(ApplyQuarterFrame(m, d), k) & 0xF0 == Field(m, k) & 0xF0
    ensures k == FieldOfPiece(PieceType(d)) && PieceType(d) & 1 == 1 ==>
      Field(ApplyQuarterFrame(m, d), k) >> 4 == PieceValue(d) &&
      Field(ApplyQuarterFrame(m, d), k) & 0x0F == Field(m, k) & 0x0F
    ensures ApplyQuarterFrame(m, d).isRunning == (if PieceType(d) == 7 then PieceValue(d) & 0x06 != 0 else m.isRunning)
  {
  }

  /** validateMtcData. */
  predicate ValidMtcData(m: MtcData) {
    m.frames < 30 && m.seconds < 60 && m.minutes < 60 && m.hours < 24
  }

  /**
   * The eight quarter-frame data bytes of one time code, as the MIDI Time Code
   * specification lays them out: piece k in bits 4-6, then frames, seconds, minutes
   * and hours low/high nibbles; piece 7 carries hours bit 4 in bit 0 and the
   * frame-rate code (0-3) in bits 1-2.
   */
  function StandardQuarterFrames(h: bv8, mi: bv8, s: bv8, f: bv8, rate: bv8): (ds: seq<bv8>)
    requires h < 24 && mi < 60 && s < 60 && f < 30 && rate < 4
    ensures |ds| == 8
    ensures forall k :: 0 <= k < 8 ==> PieceType(ds[k]) as int == k
  {
    [0x00 | (f & 0x0F), 0x10 | (f >> 4), 0x20 | (s & 0x0F), 0x30 | (s >> 4),
     0x40 | (mi & 0x0F), 0x50 | (mi >> 4), 0x60 | (h & 0x0F), 0x70 | (rate << 1) | (h >> 4)]
  }

  function ApplyAll(m: MtcData, ds: seq<bv8>): MtcData
    decreases |ds|
  {
    if ds == [] then m else ApplyQuarterFrame(ApplyAll(m, ds[..|ds| - 1]), ds[|ds| - 1])
  }

  /**
   * A full standard frame, applied as written: frames, seconds and minutes come
   * out right, but the rate code lands in hours (hours = h + 32 * rate) and is read
   * as "running"; so the time code validates only at rate code 0 (24 fps).
   */
  lemma FullFrameAsWritten(m: MtcData, h: bv8, mi: bv8, s: bv8, f: bv8, rate: bv8)
    requires h < 24 && mi < 60 && s < 60 && f < 30 && rate < 4
    ensures var r := ApplyAll(m, StandardQuarterFrames(h, mi, s, f, rate));
      r.frames == f && r.seconds == s && r.minutes == mi &&
      r.hours == h | (rate << 5) && r.isRunning == (rate != 0) &&
      (ValidMtcData(r) <==> rate == 0)
  {
    var ds := StandardQuarterFrames(h, mi, s, f, rate);
    assert ds[..8] == ds;
    StageFrames(m, ds, f);
    StageSeconds(m, ds, s);
    StageMinutes(m, ds, mi);
    StageHours(m, ds, h, rate);
    assert (h | (rate << 5) < 24) <==> rate == 0;
  }

  lemma StageFrames(m: MtcData, ds: seq<bv8>, f: bv8)
    requires |ds| == 8 && f < 30 && ds[0] == 0x00 | (f & 0x0F) && ds[1] == 0x10 | (f >> 4)
    ensures ApplyAll(m, ds[..2]) == m.(frames := f)
  {
    assert ds[..0] == [];
    ApplyTwoMore(m, ds, 0);
    FramesPair(m, f & 0x0F, f >> 4);
    assert (f & 0x0F) | ((f >> 4) << 4) == f;
  }

  lemma StageSeconds(m: MtcData, ds: seq<bv8>, s: bv8)
    requires |ds| == 8 && s < 60 && ds[2] == 0x20 | (s & 0x0F) && ds[3] == 0x30 | (s >> 4)
    ensures ApplyAll(m, ds[..4]) == ApplyAll(m, ds[..2]).(seconds := s)
  {
    ApplyTwoMore(m, ds, 2);
    SecondsPair(ApplyAll(m, ds[..2]), s & 0x0F, s >> 4);
    assert (s & 0x0F) | ((s >> 4) << 4) == s;
  }

  lemma StageMinutes(m: MtcData, ds: seq<bv8>, mi: bv8)
    requires |ds| == 8 && mi < 60 && ds[4] == 0x40 | (mi & 0x0F) && ds[5] == 0x50 | (mi >> 4)
    ensures ApplyAll(m, ds[..6]) == ApplyAll(m, ds[..4]).(minutes := mi)
  {
    ApplyTwoMore(m, ds, 4);
    MinutesPair(ApplyAll(m, ds[..4]), mi & 0x0F, mi >> 4);
    assert (mi & 0x0F) | ((mi >> 4) << 4) == mi;
  }

  lemma StageHours(m: MtcData, ds: seq<bv8>, h: bv8, rate: bv8)
    requires |ds| == 8 && h < 24 && rate < 4
    requires ds[6] == 0x60 | (h & 0x0F) && ds[7] == 0x70 | (rate << 1) | (h >> 4)
    ensures ApplyAll(m, ds[..8]) == ApplyAll(m, ds[..6]).(hours := h | (rate << 5), isRunning := rate != 0)
  {
    var hi := (rate << 1) | (h >> 4);
    ApplyTwoMore(m, ds, 6);
    assert ds[7] == 0x70 | hi;
    HoursPair(ApplyAll(m, ds[..6]), h & 0x0F, hi);
    assert (h & 0x0F) | (hi << 4) == h | (rate << 5);
    assert hi & 0x06 != 0 <==> rate != 0;
  }

  /** Two more quarter frames after the first k. */
  lemma ApplyTwoMore(m: MtcData, ds: seq<bv8>, k: nat)
    requires k + 2 <= |ds|
    ensures ApplyAll(m, ds[..k + 2]) == ApplyQuarterFrame(ApplyQuarterFrame(ApplyAll(m, ds[..k]), ds[k]), ds[k + 1])
  {
    assert ds[..k + 2][..k + 1] == ds[..k + 1];
    assert ds[..k + 1][..k] == ds[..k];
  }

  /** Pieces 0 and 1 set the frames byte from its two nibbles. */
  lemma FramesPair(m: MtcData, lo: bv8, hi: bv8)
    requires lo < 16 && hi < 16
    ensures ApplyQuarterFrame(ApplyQuarterFrame(m, 0x00 | lo), 0x10 | hi) == m.(frames := lo | (hi << 4))
  {
  }

  /** Pieces 2 and 3 set the seconds byte from its two nibbles. */
  lemma SecondsPair(m: MtcData, lo: bv8, hi: bv8)
    requires lo < 16 && hi < 16
    ensures ApplyQuarterFrame(ApplyQuarterFrame(m, 0x20 | lo), 0x30 | hi) == m.(seconds := lo | (hi << 4))
  {
  }

  /** Pieces 4 and 5 set the minutes byte from its two nibbles. */
  lemma MinutesPair(m: MtcData, lo: bv8, hi: bv8)
    requires lo < 16 && hi < 16
    ensures ApplyQuarterFrame(ApplyQuarterFrame(m, 0x40 | lo), 0x50 | hi) == m.(minutes := lo | (hi << 4))
  {
  }

  /** Pieces 6 and 7 set the hours byte from its two nibbles, and isRunning from bits 1-2 of the second. */
  lemma HoursPair(m: MtcData, lo: bv8, hi: bv8)
    requires lo < 16 && hi < 16
    ensures ApplyQuarterFrame(ApplyQuarterFrame(m, 0x60 | lo), 0x70 | hi) ==
      m.(hours := lo | (hi << 4), isRunning := hi & 0x06 != 0)
  {
  }

  // ================================================================ colours

  /** rgb24ToRgb565: the same packing as RGB_TO_565, applied to the three bytes of 0xRRGGBB. */
  function Rgb24ToRgb565(rgb24: bv32): (c: bv16)
    ensures c == RgbTo565(((rgb24 >> 16) & 0xFF) as bv8, ((rgb24 >> 8) & 0xFF) as bv8, (rgb24 & 0xFF) as bv8)
  {
    var r := ((rgb24 >> 16) & 0xFF) as bv16;
    var g := ((rgb24 >> 8) & 0xFF) as bv16;
    var b := (rgb24 & 0xFF) as bv16;
    ((r & 0xF8) << 8) | ((g & 0xFC) << 3) | (b >> 3)
  }

  /** rgb565ToRgb24: each channel back to 8 bits, low bits zero. */
  function Rgb565ToRgb24(c: bv16): (x: bv32)
    ensures x & 0xFF07_0307 == 0
  {
    var r := ((c >> 8) & 0xF8) as bv32;
    var g := ((c >> 3) & 0xFC) as bv32;
    var b := ((c << 3) & 0xF8) as bv32;
    (r << 16) | (g << 8) | b
  }

  /** Down then up keeps exactly the top 5/6/5 bits of each channel. */
  lemma RgbDownUp(x: bv32)
    ensures Rgb565ToRgb24(Rgb24ToRgb565(x)) == x & 0xF8FCF8
  {
  }

  /** Up then down loses nothing. */
  lemma RgbUpDown(c: bv16)
    ensures Rgb24ToRgb565(Rgb565ToRgb24(c)) == c
  {
  }

  // ================================================================ Studio One SysEx

  /** The DAW-synchronisation callbacks the parser invokes (defined outside the engine). */
  datatype DawAction =
    | SyncColor(track: bv8, bank: bv8, color: bv16)       // syncEncoderColorFromDAW
    | SyncValue(track: bv8, bank: bv8, value: bv8)        // syncEncoderValueFromDAW
    | VuLevel(track: bv8, level: bv8)                     // updateVUMeterLevel
    | SyncName(track: bv8, bank: bv8, name: seq<bv8>)     // syncEncoderNameFromDAW
    | TransportUpdate(state: bv8)                         // processTransportState

  /** At least 8 bytes, beginning F0 00 21 7B. */
  predicate IsStudioOneFrame(data: seq<bv8>) {
    |data| >= 8 && data[0] == 0xF0 && data[1] == 0x00 && data[2] == 0x21 && data[3] == 0x7B
  }

  /** The shortest frame each known message type acts on. */
  function MinimumLength(messageType: bv8): Option<nat> {
    if messageType == SYSEX_COLOR_UPDATE then Some(11)
    else if messageType == SYSEX_VALUE_UPDATE || messageType == SYSEX_VU_UPDATE || messageType == SYSEX_NAME_UPDATE then Some(9)
    else if messageType == SYSEX_TRANSPORT then Some(8)
    else if messageType == SYSEX_VALUE_AND_COLOR then Some(12)
    else None
  }

  /** `(data[i] << 16) | (data[i+1] << 8) | data[i+2]`. */
  function Rgb24Of(r: bv8, g: bv8, b: bv8): (x: bv32)
    ensures x >> 24 == 0
    ensures ((x >> 16) & 0xFF) as bv8 == r && ((x >> 8) & 0xFF) as bv8 == g && (x & 0xFF) as bv8 == b
  {
    ((r as bv32) << 16) | ((g as bv32) << 8) | (b as bv32)
  }

  /** `min((uint8_t)(length - 8), 5)`: how many name bytes are copied. */
  function NameLength(length: nat): (n: nat)
    requires length >= 9
    ensures n <= 5 && n <= length - 8
    ensures length <= 13 ==> n == length - 8
    ensures 13 <= length < 264 ==> n == 5
    ensures 264 <= length < 269 ==> n == length - 264
  {
    var k := ToByte(length - 8);
    if k <= 5 then k else 5
  }

  /**
   * The `uint8_t` cast wraps: a 264-byte name frame copies no name byte, so the
   * DAW receives an empty name.
   */
  lemma NameFrameOf264BytesIsEmpty(data: seq<bv8>)
    requires |data| == 264 && IsStudioOneFrame(data) && data[4] == SYSEX_NAME_UPDATE
    ensures StudioOneActions(data) == Some([SyncName(data[5], data[6], [])])
  {
    assert NameLength(|data|) == 0;
    assert data[7..7] == [];
  }

  /**
   * processStudioOneMessage, as a value: `None` for an ignored frame (too short or
   * wrong prefix); otherwise the callbacks it makes, which are none when the
   * type is unknown or the frame is shorter than the type needs.
   */
  function StudioOneActions(data: seq<bv8>): (r: Option<seq<DawAction>>)
    requires |data| < 0x1_0000
    ensures r.None? <==> !IsStudioOneFrame(data)
    ensures r.Some? ==>
      (r.value != [] <==> MinimumLength(data[4]).Some? && |data| >= MinimumLength(data[4]).value)
    ensures r.Some? && r.value != [] ==> |r.value| == (if data[4] == SYSEX_VALUE_AND_COLOR then 2 else 1)
    ensures r.Some? && data[4] == SYSEX_VALUE_UPDATE && |data| >= 9 ==> r.value == [SyncValue(data[5], data[6], data[7])]
    ensures r.Some? && data[4] == SYSEX_VU_UPDATE && |data| >= 9 ==> r.value == [VuLevel(data[5], data[7])]
    ensures r.Some? && data[4] == SYSEX_VALUE_AND_COLOR && |data| >= 12 ==>
      r.value == [SyncValue(data[5], data[6], data[7]), SyncColor(data[5], data[6], Rgb24ToRgb565(Rgb24Of(data[8], data[9], data[10])))]
    ensures r.Some? && data[4] == SYSEX_TRANSPORT ==> r.value == [TransportUpdate(data[5])]
    ensures r.Some? && data[4] == SYSEX_NAME_UPDATE && |data| >= 9 ==>
      r.value == [SyncName(data[5], data[6], data[7..7 + NameLength(|data|)])]
  {
    if !IsStudioOneFrame(data) then None
    else
      var messageType, track, bank := data[4], data[5], data[6];
      if messageType == SYSEX_COLOR_UPDATE then
        Some(if |data| >= 11 then [SyncColor(track, bank, Rgb24ToRgb565(Rgb24Of(data[7], data[8], data[9])))] else [])
      else if messageType == SYSEX_VALUE_UPDATE then
        Some(if |data| >= 9 then [SyncValue(track, bank, data[7])] else [])
      else if messageType == SYSEX_VU_UPDATE then
        Some(if |data| >= 9 then [VuLevel(track, data[7])] else [])
      else if messageType == SYSEX_NAME_UPDATE then
        Some(if |data| >= 9 then [SyncName(track, bank, data[7..7 + NameLength(|data|)])] else [])
      else if messageType == SYSEX_TRANSPORT then
        Some([TransportUpdate(data[5])])
      else if messageType == SYSEX_VALUE_AND_COLOR then
        Some(if |data| >= 12 then
               [SyncValue(track, bank, data[7]), SyncColor(track, bank, Rgb24ToRgb565(Rgb24Of(data[8], data[9], data[10])))]
             else [])
      else Some([])
  }

  /** A colour update carries the RGB565 of the three colour bytes, which converts back to them up to 5/6/5 bits. */
  lemma ColorUpdateRoundTrip(data: seq<bv8>)
    requires |data| < 0x1_0000 && IsStudioOneFrame(data) && data[4] == SYSEX_COLOR_UPDATE && |data| >= 11
    ensures var a := StudioOneActions(data).value[0];
      a.SyncColor? && a.track == data[5] && a.bank == data[6] &&
      Rgb565ToRgb24(a.color) == Rgb24Of(data[7] & 0xF8, data[8] & 0xFC, data[9] & 0xF8)
  {
    RgbDownUp(Rgb24Of(data[7], data[8], data[9]));
  }

  /** The bytes of the Studio One colour (1) and value (2) requests. */
  function StudioOneRequest(request: bv8, track: bv8, bank: bv8): (d: seq<bv8>)
    ensures |d| == 8 && IsStudioOneFrame(d) && d[4] == request && d[5] == track && d[6] == bank && d[7] == 0xF7
  {
    [0xF0, 0x00, 0x21, 0x7B, request, track, bank, 0xF7]
  }

  // ================================================================ the queue as a value

  /** Usable slots: one slot stays free to tell a full ring from an empty one. */
  const QUEUE_CAPACITY: nat := MIDI_BUFFER_SIZE - 1

  /** The queued messages, oldest first, and the error counter. */
  datatype QueueState = QueueState(pending: seq<MidiMessage>, errors: uint32)

  /** enqueueMidiMessage on the value: append when there is room, else count one error. */
  function Push(q: QueueState, m: MidiMessage): (r: QueueState)
    ensures |q.pending| < QUEUE_CAPACITY ==> r.pending == q.pending + [m] && r.errors == q.errors
    ensures |q.pending| >= QUEUE_CAPACITY ==> r.pending == q.pending && r.errors == Inc32(q.errors)
  {
    if |q.pending| < QUEUE_CAPACITY then q.(pending := q.pending + [m]) else q.(errors := Inc32(q.errors))
  }

  /** A `send*` call with a valid message: Push, and logMidiError counts a second error on a full queue. */
  function Offer(q: QueueState, m: MidiMessage): (r: QueueState)
    ensures r.pending == Push(q, m).pending
    ensures |q.pending| < QUEUE_CAPACITY ==> r.errors == q.errors
    ensures |q.pending| >= QUEUE_CAPACITY ==> r.errors == Inc32(Inc32(q.errors))
  {
    var r := Push(q, m);
    if |q.pending| < QUEUE_CAPACITY then r else r.(errors := Inc32(r.errors))
  }

  function OfferAll(q: QueueState, ms: seq<MidiMessage>): QueueState
    decreases |ms|
  {
    if ms == [] then q else Offer(OfferAll(q, ms[..|ms| - 1]), ms[|ms| - 1])
  }

  /** Offering messages in order queues them until the capacity is reached and drops the rest. */
  lemma {:induction false} OfferAllQueuesPrefix(q: QueueState, ms: seq<MidiMessage>)
    requires |q.pending| <= QUEUE_CAPACITY
    ensures OfferAll(q, ms).pending == q.pending + ms[..Min(|ms|, QUEUE_CAPACITY - |q.pending|)]
    decreases |ms|
  {
    if ms != [] {
      var init := ms[..|ms| - 1];
      OfferAllQueuesPrefix(q, init);
      var k := Min(|init|, QUEUE_CAPACITY - |q.pending|);
      if |q.pending| + k < QUEUE_CAPACITY {
        assert k == |init|;
        assert init + [ms[|ms| - 1]] == ms;
      } else {
        assert Min(|ms|, QUEUE_CAPACITY - |q.pending|) == k;
        assert ms[..k] == init[..k];
      }
    }
  }

  function Min(a: int, b: int): int { if a <= b then a else b }

  /** From an empty queue, exactly 31 messages fit. */
  lemma FillFromEmpty(e: uint32, ms: seq<MidiMessage>)
    requires |ms| >= MIDI_BUFFER_SIZE
    ensures OfferAll(QueueState([], e), ms).pending == ms[..31]
    ensures |OfferAll(QueueState([], e), ms[..31]).pending| == 31
  {
    OfferAllQueuesPrefix(QueueState([], e), ms);
    OfferAllQueuesPrefix(QueueState([], e), ms[..31]);
  }

  /** sendControlChange on the value: nothing for an invalid channel or controller. */
  function OfferControlChange(q: QueueState, channel: bv8, cc: bv8, value: bv8): (r: QueueState)
    ensures !(IsValidMidiChannel(channel) && IsValidNumber(cc)) ==> r == q
    ensures IsValidMidiChannel(channel) && IsValidNumber(cc) ==> r == Offer(q, MidiMessage(MIDI_TYPE_CC, channel, cc, value))
  {
    if IsValidMidiChannel(channel) && IsValidNumber(cc) then Offer(q, MidiMessage(MIDI_TYPE_CC, channel, cc, value)) else q
  }

  /** One row of sendTestSequence: the controller sent 0, 127 and 64. */
  function TestRow(channel: bv8, cc: bv8): (ms: seq<MidiMessage>)
    ensures |ms| == 3 && forall k :: 0 <= k < 3 ==> ms[k] == MidiMessage(MIDI_TYPE_CC, channel, cc, ms[k].data2)
  {
    [MidiMessage(MIDI_TYPE_CC, channel, cc, 0), MidiMessage(MIDI_TYPE_CC, channel, cc, 127), MidiMessage(MIDI_TYPE_CC, channel, cc, 64)]
  }

  /** sendTestSequence's rows for controllers 7 up to, not including, `stop`. */
  function TestRowsBelow(channel: bv8, stop: bv8): (ms: seq<MidiMessage>)
    requires 7 <= stop <= 15
    ensures forall k :: 0 <= k < |ms| ==> ms[k].kind == MIDI_TYPE_CC && ms[k].channel == channel && 7 <= ms[k].data1 < stop
    decreases stop as int
  {
    if stop == 7 then [] else TestRowsBelow(channel, stop - 1) + TestRow(channel, stop - 1)
  }

  /** The test sequence is 24 messages: one row for each of controllers 7-14. */
  lemma {:induction false} TestRowsLength(channel: bv8, stop: bv8)
    requires 7 <= stop <= 15
    ensures |TestRowsBelow(channel, stop)| == 3 * (stop as int - 7)
    decreases stop as int
  {
    if stop != 7 {
      TestRowsLength(channel, stop - 1);
    }
  }

  /** sendControlChange sent three times with one controller. */
  function OfferRow(q: QueueState, channel: bv8, cc: bv8): QueueState {
    OfferControlChange(OfferControlChange(OfferControlChange(q, channel, cc, 0), channel, cc, 127), channel, cc, 64)
  }

  /** A valid row offered call by call is the row offered as a sequence. */
  lemma OfferRowAppends(q: QueueState, rows: seq<MidiMessage>, channel: bv8, cc: bv8)
    requires IsValidMidiChannel(channel) && IsValidNumber(cc)
    ensures OfferAll(q, rows + TestRow(channel, cc)) == OfferRow(OfferAll(q, rows), channel, cc)
  {
    var row := TestRow(channel, cc);
    var q0 := OfferAll(q, rows);
    var q1 := OfferAll(q, rows + row[..1]);
    var q2 := OfferAll(q, rows + row[..2]);
    assert q1 == Offer(q0, row[0]) by { assert (rows + row[..1])[..|rows|] == rows; }
    assert q2 == Offer(q1, row[1]) by { assert (rows + row[..2])[..|rows| + 1] == rows + row[..1]; }
    assert OfferAll(q, rows + row) == Offer(q2, row[2]) by {
      assert row[..3] == row;
      assert (rows + row)[..|rows| + 2] == rows + row[..2];
    }
  }

  // ================================================================ ring arithmetic

  /** Number of queued messages between tail and head. */
  function Count(head: int, tail: int): (n: nat)
    requires 0 <= head < MIDI_BUFFER_SIZE && 0 <= tail < MIDI_BUFFER_SIZE
    ensures n <= QUEUE_CAPACITY
    ensures n == 0 <==> head == tail
  {
    if head >= tail then head - tail else head + MIDI_BUFFER_SIZE - tail
  }

  /** The buffer index of the i-th queued message. */
  function Slot(tail: int, i: nat): (s: nat)
    requires 0 <= tail < MIDI_BUFFER_SIZE && i < MIDI_BUFFER_SIZE
    ensures s < MIDI_BUFFER_SIZE
  {
    if tail + i < MIDI_BUFFER_SIZE then tail + i else tail + i - MIDI_BUFFER_SIZE
  }

  /** `(x + 1) % MIDI_BUFFER_SIZE`. */
  function NextIndex(x: int): (y: int)
    requires 0 <= x < MIDI_BUFFER_SIZE
    ensures 0 <= y < MIDI_BUFFER_SIZE
    ensures x < MIDI_BUFFER_SIZE - 1 ==> y == x + 1
    ensures x == MIDI_BUFFER_SIZE - 1 ==> y == 0
  {
    (x + 1) % MIDI_BUFFER_SIZE
  }

  /** The full test: the next head is the tail exactly when 31 messages are queued. */
  lemma RingFull(head: int, tail: int)
    requires 0 <= head < MIDI_BUFFER_SIZE && 0 <= tail < MIDI_BUFFER_SIZE
    ensures NextIndex(head) == tail <==> Count(head, tail) == QUEUE_CAPACITY
  {
  }

  /** Storing at head and advancing it appends one message and leaves the queued slots alone. */
  lemma RingPush(head: int, tail: int)
    requires 0 <= head < MIDI_BUFFER_SIZE && 0 <= tail < MIDI_BUFFER_SIZE && NextIndex(head) != tail
    ensures Count(NextIndex(head), tail) == Count(head, tail) + 1
    ensures Slot(tail, Count(head, tail)) == head
    ensures forall i :: 0 <= i < Count(head, tail) ==> Slot(tail, i) != head
  {
  }

  /** Advancing tail drops the oldest message and shifts the rest. */
  lemma RingPop(head: int, tail: int)
    requires 0 <= head < MIDI_BUFFER_SIZE && 0 <= tail < MIDI_BUFFER_SIZE && head != tail
    ensures Count(head, NextIndex(tail)) == Count(head, tail) - 1
    ensures Slot(tail, 0) == tail
    ensures forall i :: 0 <= i < Count(head, tail) - 1 ==> Slot(NextIndex(tail), i) == Slot(tail, i + 1)
  {
  }

  // ================================================================ the engine

  class MidiManager {
    var midiOutHead: int
    var midiOutTail: int
    const midiOutBuffer: array<MidiMessage>
    const sysExOutBuffer: array<bv8>

    var currentMtc: MtcData
    var currentTransport: TransportState
    var currentMidiChannel: bv8
    var mtcSync: bool

    var mtcQuarterFrame: bv8
    var lastMtcTime: uint32
    var mtcTimebaseValid: bool

    var midiMessagesReceived: uint32
    var midiMessagesSent: uint32
    var sysExMessagesProcessed: uint32
    var mtcFramesReceived: uint32
    var errorCount: uint32

    var midiThruEnabled: bool
    var sysExAutoResponse: bool
    var lastActivityTime: uint32

    var wire: seq<seq<bv8>>          // tud_midi_stream_write calls, in order
    var dawActions: seq<DawAction>   // DAW-synchronisation callbacks, in order

    ghost predicate Valid()
      reads this`midiOutHead, this`midiOutTail, midiOutBuffer
    {
      midiOutBuffer.Length == MIDI_BUFFER_SIZE && sysExOutBuffer.Length == SYSEX_BUFFER_SIZE &&
      0 <= midiOutHead < MIDI_BUFFER_SIZE && 0 <= midiOutTail < MIDI_BUFFER_SIZE &&
      forall i :: 0 <= i < MIDI_BUFFER_SIZE ==> Serializable(midiOutBuffer[i])
    }

    /** The queued messages, oldest first. */
    ghost function Pending(): (q: seq<MidiMessage>)
      requires Valid()
      reads this`midiOutHead, this`midiOutTail, midiOutBuffer
      ensures |q| == Count(midiOutHead, midiOutTail)
    {
      var n, t := Count(midiOutHead, midiOutTail), midiOutTail;
      seq(n, i requires 0 <= i < n reads midiOutBuffer => midiOutBuffer[Slot(t, i)])
    }

    ghost function Queue(): QueueState
      requires Valid()
      reads this`midiOutHead, this`midiOutTail, midiOutBuffer, this`errorCount
    {
      QueueState(Pending(), errorCount)
    }

    /** Channel 1, MTC sync enabled, counters zero, time code and transport cleared, queue empty. */
    constructor ()
      ensures Valid() && fresh(midiOutBuffer) && fresh(sysExOutBuffer)
      ensures Pending() == [] && wire == [] && dawActions == []
      ensures currentMidiChannel == MIDI_CHANNEL_DEFAULT as bv8 && mtcSync && !mtcTimebaseValid
      ensures mtcQuarterFrame == 0 && lastMtcTime == 0 && lastActivityTime == 0
      ensures midiMessagesReceived == 0 && midiMessagesSent == 0 && sysExMessagesProcessed == 0
      ensures mtcFramesReceived == 0 && errorCount == 0
      ensures !midiThruEnabled && sysExAutoResponse
      ensures currentMtc == MtcData(0, 0, 0, 0, false) && currentTransport == TransportState(false, false, false)
    {
      midiOutHead := 0;
      midiOutTail := 0;
      midiOutBuffer := new MidiMessage[MIDI_BUFFER_SIZE](_ => MidiMessage(0, 0, 0, 0));
      sysExOutBuffer := new bv8[SYSEX_BUFFER_SIZE](_ => 0);
      currentMidiChannel := MIDI_CHANNEL_DEFAULT as bv8;
      mtcSync := true;
      mtcQuarterFrame := 0;
      lastMtcTime := 0;
      mtcTimebaseValid := false;
      midiMessagesReceived := 0;
      midiMessagesSent := 0;
      sysExMessagesProcessed := 0;
      mtcFramesReceived := 0;
      errorCount := 0;
      midiThruEnabled := false;
      sysExAutoResponse := true;
      lastActivityTime := 0;
      currentMtc := MtcData(0, 0, 0, 0, false);
      currentTransport := TransportState(false, false, false);
      wire := [];
      dawActions := [];
    }

    /** initialize: take the channel as given (no range check) and empty the queue. */
    method Initialize(midiChannel: bv8) returns (ok: bool)
      requires Valid()
      modifies this`currentMidiChannel, this`midiOutHead, this`midiOutTail
      ensures Valid() && ok
      ensures currentMidiChannel == midiChannel && Pending() == []
    {
      currentMidiChannel := midiChannel;
      midiOutHead := 0;
      midiOutTail := 0;
      ok := true;
    }

    /** setMidiChannel: only channels 1-16 are taken. */
    method SetMidiChannel(channel: bv8)
      modifies this`currentMidiChannel
      ensures currentMidiChannel == if 1 <= channel <= 16 then channel else old(currentMidiChannel)
    {
      if channel >= 1 && channel <= 16 {
        currentMidiChannel := channel;
      }
    }

    /** isMtcSynced. */
    function IsMtcSynced(): (synced: bool)
      reads this`mtcSync, this`mtcTimebaseValid
      ensures synced <==> mtcSync && mtcTimebaseValid
    {
      mtcSync && mtcTimebaseValid
    }

    /**
     * enqueueMidiMessage: append at head unless the ring is full, which counts an
     * error and changes nothing else. The caller passes no SysEx longer than the
     * payload buffer.
     */
    method EnqueueMidiMessage(kind: bv8, channel: bv8, data1: bv8, data2: bv8) returns (ok: bool)
      requires Valid() && Serializable(MidiMessage(kind, channel, data1, data2))
      modifies midiOutBuffer, this`midiOutHead, this`errorCount
      ensures Valid()
      ensures ok <==> |old(Pending())| < QUEUE_CAPACITY
      ensures Queue() == Push(old(Queue()), MidiMessage(kind, channel, data1, data2))
    {
      var nextHead := NextIndex(midiOutHead);
      RingFull(midiOutHead, midiOutTail);
      if nextHead == midiOutTail {
        errorCount := Inc32(errorCount);
        return false;
      }
      ghost var P := Pending();
      var m := MidiMessage(kind, channel, data1, data2);
      RingPush(midiOutHead, midiOutTail);
      midiOutBuffer[midiOutHead] := m;
      midiOutHead := nextHead;
      assert Pending() == P + [m];
      ok := true;
    }

    /**
     * enqueueSysExMessage: refuse a payload over 16 bytes or a full ring (one
     * error each); otherwise copy the payload into the one shared buffer and queue
     * a SysEx entry that records only its length.
     */
    method EnqueueSysExMessage(data: seq<bv8>) returns (ok: bool)
      requires Valid() && |data| < 0x1_0000
      modifies midiOutBuffer, sysExOutBuffer, this`midiOutHead, this`errorCount
      ensures Valid()
      ensures ok <==> |data| <= SYSEX_BUFFER_SIZE && |old(Pending())| < QUEUE_CAPACITY
      ensures |data| > SYSEX_BUFFER_SIZE ==>
        Queue() == old(Queue()).(errors := Inc32(old(errorCount))) && sysExOutBuffer[..] == old(sysExOutBuffer[..])
      ensures |data| <= SYSEX_BUFFER_SIZE ==> Queue() == Push(old(Queue()), MidiMessage(MIDI_TYPE_SYSEX, 0, |data| as bv8, 0))
      ensures ok ==> sysExOutBuffer[..] == data + old(sysExOutBuffer[..])[|data|..]
      ensures !ok ==> sysExOutBuffer[..] == old(sysExOutBuffer[..])
    {
      if |data| > SYSEX_BUFFER_SIZE {
        errorCount := Inc32(errorCount);
        return false;
      }
      var nextHead := NextIndex(midiOutHead);
      RingFull(midiOutHead, midiOutTail);
      if nextHead == midiOutTail {
        errorCount := Inc32(errorCount);
        return false;
      }
      ghost var P := Pending();
      forall i | 0 <= i < |data| {
        sysExOutBuffer[i] := data[i];
      }
      assert sysExOutBuffer[..] == data + old(sysExOutBuffer[..])[|data|..];
      var m := MidiMessage(MIDI_TYPE_SYSEX, 0, |data| as bv8, 0);
      RingPush(midiOutHead, midiOutTail);
      midiOutBuffer[midiOutHead] := m;
      midiOutHead := nextHead;
      assert Pending() == P + [m];
      ok := true;
    }

    /**
     * processMidiOutput: on an empty queue nothing happens; otherwise the oldest
     * message is written to the wire (a SysEx entry with the shared buffer's
     * current contents; a kind the switch does not list writes nothing), removed,
     * and counted as sent.
     */
    method ProcessMidiOutput(nowMillis: uint32)
      requires Valid()
      modifies this`midiOutTail, this`midiMessagesSent, this`lastActivityTime, this`wire
      ensures Valid()
      ensures old(Pending()) == [] ==>
        midiOutTail == old(midiOutTail) && midiMessagesSent == old(midiMessagesSent) &&
        lastActivityTime == old(lastActivityTime) && wire == old(wire)
      ensures old(Pending()) != [] ==>
        Pending() == old(Pending())[1..] &&
        wire == old(wire) + (if old(Pending())[0].kind <= MIDI_TYPE_REALTIME
                             then [Serialize(old(Pending())[0], sysExOutBuffer[..])] else []) &&
        midiMessagesSent == Inc32(old(midiMessagesSent)) && lastActivityTime == nowMillis
    {
      if midiOutHead == midiOutTail {
        return;
      }
      ghost var P := Pending();
      var msg := midiOutBuffer[midiOutTail];
      assert msg == P[0];
      if msg.kind <= MIDI_TYPE_REALTIME {
        wire := wire + [Serialize(msg, sysExOutBuffer[..])];
      }
      RingPop(midiOutHead, midiOutTail);
      midiOutTail := NextIndex(midiOutTail);
      assert Pending() == P[1..];
      midiMessagesSent := Inc32(midiMessagesSent);
      lastActivityTime := nowMillis;
    }

    /** Enqueue a validated message; a refusal is logged, which counts a second error. */
    method OfferMessage(m: MidiMessage)
      requires Valid() && m.kind != MIDI_TYPE_SYSEX
      modifies midiOutBuffer, this`midiOutHead, this`errorCount
      ensures Valid()
      ensures Queue() == Offer(old(Queue()), m)
    {
      var ok := EnqueueMidiMessage(m.kind, m.channel, m.data1, m.data2);
      if !ok {
        errorCount := Inc32(errorCount);   // logMidiError
      }
    }

    /** sendControlChange: channel 1-16 and controller 0-127, else nothing. */
    method SendControlChange(channel: bv8, cc: bv8, value: bv8)
      requires Valid()
      modifies midiOutBuffer, this`midiOutHead, this`errorCount
      ensures Valid()
      ensures Queue() == OfferControlChange(old(Queue()), channel, cc, value)
    {
      if !IsValidMidiChannel(channel) || !IsValidNumber(cc) {
        return;
      }
      OfferMessage(MidiMessage(MIDI_TYPE_CC, channel, cc, value));
    }

    /** sendNoteOn: channel 1-16 and note 0-127, else nothing. */
    method SendNoteOn(channel: bv8, note: bv8, velocity: bv8)
      requires Valid()
      modifies midiOutBuffer, this`midiOutHead, this`errorCount
      ensures Valid()
      ensures !(IsValidMidiChannel(channel) && IsValidNumber(note)) ==> Queue() == old(Queue())
      ensures IsValidMidiChannel(channel) && IsValidNumber(note) ==>
        Queue() == Offer(old(Queue()), MidiMessage(MIDI_TYPE_NOTE_ON, channel, note, velocity))
    {
      if !IsValidMidiChannel(channel) || !IsValidNumber(note) {
        return;
      }
      OfferMessage(MidiMessage(MIDI_TYPE_NOTE_ON, channel, note, velocity));
    }

    /** sendNoteOff: channel 1-16 and note 0-127, else nothing. */
    method SendNoteOff(channel: bv8, note: bv8, velocity: bv8)
      requires Valid()
      modifies midiOutBuffer, this`midiOutHead, this`errorCount
      ensures Valid()
      ensures !(IsValidMidiChannel(channel) && IsValidNumber(note)) ==> Queue() == old(Queue())
      ensures IsValidMidiChannel(channel) && IsValidNumber(note) ==>
        Queue() == Offer(old(Queue()), MidiMessage(MIDI_TYPE_NOTE_OFF, channel, note, velocity))
    {
      if !IsValidMidiChannel(channel) || !IsValidNumber(note) {
        return;
      }
      OfferMessage(MidiMessage(MIDI_TYPE_NOTE_OFF, channel, note, velocity));
    }

    /** sendPitchBend: channel 1-16, data bytes as PitchBendBytes. */
    method SendPitchBend(channel: bv8, value: int16)
      requires Valid()
      modifies midiOutBuffer, this`midiOutHead, this`errorCount
      ensures Valid()
      ensures !IsValidMidiChannel(channel) ==> Queue() == old(Queue())
      ensures IsValidMidiChannel(channel) ==>
        Queue() == Offer(old(Queue()), MidiMessage(MIDI_TYPE_PITCH_BEND, channel,
                                                   PitchBendBytes(value).0 as bv8, PitchBendBytes(value).1 as bv8))
    {
      if !IsValidMidiChannel(channel) {
        return;
      }
      var bytes := PitchBendBytes(value);
      OfferMessage(MidiMessage(MIDI_TYPE_PITCH_BEND, channel, bytes.0 as bv8, bytes.1 as bv8));
    }

    /** sendTransportCommand: a realtime byte, with no validation. */
    method SendTransportCommand(command: bv8)
      requires Valid()
      modifies midiOutBuffer, this`midiOutHead, this`errorCount
      ensures Valid()
      ensures Queue() == Offer(old(Queue()), MidiMessage(MIDI_TYPE_REALTIME, 0, command, 0))
    {
      OfferMessage(MidiMessage(MIDI_TYPE_REALTIME, 0, command, 0));
    }

    /** sendJogWheel: CC 60 forward (direction > 0) or 61 otherwise, on the current channel, value |direction|. */
    method SendJogWheel(direction: int8)
      requires Valid()
      modifies midiOutBuffer, this`midiOutHead, this`errorCount
      ensures Valid()
      ensures Queue() == OfferControlChange(old(Queue()), currentMidiChannel,
                                            if direction > 0 then MIDI_JOG_FORWARD as bv8 else MIDI_JOG_BACKWARD as bv8,
                                            (if direction < 0 then -(direction as int) else direction as int) as bv8)
    {
      var cc: bv8 := if direction > 0 then MIDI_JOG_FORWARD as bv8 else MIDI_JOG_BACKWARD as bv8;
      var magnitude: int := if direction < 0 then -(direction as int) else direction as int;
      SendControlChange(currentMidiChannel, cc, magnitude as bv8);
    }

    /** sendAllNotesOff: CC 123 value 0 on a valid channel. */
    method SendAllNotesOff(channel: bv8)
      requires Valid()
      modifies midiOutBuffer, this`midiOutHead, this`errorCount
      ensures Valid()
      ensures Queue() == OfferControlChange(old(Queue()), channel, 123, 0)
    {
      if !IsValidMidiChannel(channel) {
        return;
      }
      SendControlChange(channel, 123, 0);
    }

    /** Enqueue a SysEx payload; a refusal is logged, which counts a second error. */
    method OfferSysEx(data: seq<bv8>)
      requires Valid() && |data| < 0x1_0000
      modifies midiOutBuffer, sysExOutBuffer, this`midiOutHead, this`errorCount
      ensures Valid()
      ensures |data| > SYSEX_BUFFER_SIZE ==>
        Queue() == old(Queue()).(errors := Inc32(Inc32(old(errorCount)))) && sysExOutBuffer[..] == old(sysExOutBuffer[..])
      ensures |data| <= SYSEX_BUFFER_SIZE ==> Queue() == Offer(old(Queue()), MidiMessage(MIDI_TYPE_SYSEX, 0, |data| as bv8, 0))
      ensures |data| <= SYSEX_BUFFER_SIZE && |old(Pending())| < QUEUE_CAPACITY ==>
        sysExOutBuffer[..] == data + old(sysExOutBuffer[..])[|data|..]
      ensures !(|data| <= SYSEX_BUFFER_SIZE && |old(Pending())| < QUEUE_CAPACITY) ==>
        sysExOutBuffer[..] == old(sysExOutBuffer[..])
    {
      var ok := EnqueueSysExMessage(data);
      if !ok {
        errorCount := Inc32(errorCount);   // logMidiError
      }
    }

    /** sendStudioOneColorRequest: F0 00 21 7B 01 track bank F7. */
    method SendStudioOneColorRequest(track: bv8, bank: bv8)
      requires Valid()
      modifies midiOutBuffer, sysExOutBuffer, this`midiOutHead, this`errorCount
      ensures Valid()
      ensures Queue() == Offer(old(Queue()), MidiMessage(MIDI_TYPE_SYSEX, 0, 8, 0))
      ensures |old(Pending())| < QUEUE_CAPACITY ==> sysExOutBuffer[..8] == StudioOneRequest(0x01, track, bank)
      ensures |old(Pending())| >= QUEUE_CAPACITY ==> sysExOutBuffer[..] == old(sysExOutBuffer[..])
    {
      OfferSysEx(StudioOneRequest(0x01, track, bank));
    }

    /** sendStudioOneValueRequest: F0 00 21 7B 02 track bank F7. */
    method SendStudioOneValueRequest(track: bv8, bank: bv8)
      requires Valid()
      modifies midiOutBuffer, sysExOutBuffer, this`midiOutHead, this`errorCount
      ensures Valid()
      ensures Queue() == Offer(old(Queue()), MidiMessage(MIDI_TYPE_SYSEX, 0, 8, 0))
      ensures |old(Pending())| < QUEUE_CAPACITY ==> sysExOutBuffer[..8] == StudioOneRequest(0x02, track, bank)
      ensures |old(Pending())| >= QUEUE_CAPACITY ==> sysExOutBuffer[..] == old(sysExOutBuffer[..])
    {
      OfferSysEx(StudioOneRequest(0x02, track, bank));
    }

    /** sendCustomSysEx. */
    method SendCustomSysEx(data: seq<bv8>)
      requires Valid() && |data| < 0x1_0000
      modifies midiOutBuffer, sysExOutBuffer, this`midiOutHead, this`errorCount
      ensures Valid()
      ensures |data| > SYSEX_BUFFER_SIZE ==> Queue() == old(Queue()).(errors := Inc32(Inc32(old(errorCount))))
      ensures |data| <= SYSEX_BUFFER_SIZE ==> Queue() == Offer(old(Queue()), MidiMessage(MIDI_TYPE_SYSEX, 0, |data| as bv8, 0))
      ensures |data| <= SYSEX_BUFFER_SIZE && |old(Pending())| < QUEUE_CAPACITY ==>
        sysExOutBuffer[..] == data + old(sysExOutBuffer[..])[|data|..]
      ensures !(|data| <= SYSEX_BUFFER_SIZE && |old(Pending())| < QUEUE_CAPACITY) ==>
        sysExOutBuffer[..] == old(sysExOutBuffer[..])
    {
      OfferSysEx(data);
    }

    /**
     * Two SysEx requests queued before a drain share one payload buffer: both
     * entries go out with the second request's bytes.
     */
    method SharedSysExPayload(track1: bv8, track2: bv8, bank: bv8, nowMillis: uint32)
      requires Valid() && Pending() == []
      modifies midiOutBuffer, sysExOutBuffer, this`midiOutHead, this`midiOutTail, this`errorCount
      modifies this`midiMessagesSent, this`lastActivityTime, this`wire
      ensures Valid() && Pending() == []
      ensures wire == old(wire) + [StudioOneRequest(0x02, track2, bank), StudioOneRequest(0x02, track2, bank)]
    {
      SendStudioOneColorRequest(track1, bank);
      SendStudioOneValueRequest(track2, bank);
      assert Pending() == [MidiMessage(MIDI_TYPE_SYSEX, 0, 8, 0), MidiMessage(MIDI_TYPE_SYSEX, 0, 8, 0)];
      ProcessMidiOutput(nowMillis);
      ProcessMidiOutput(nowMillis);
    }

    /** testMidiConnection: CC 7 value 64 on the current channel. */
    method TestMidiConnection() returns (ok: bool)
      requires Valid()
      modifies midiOutBuffer, this`midiOutHead, this`errorCount
      ensures Valid() && ok
      ensures Queue() == OfferControlChange(old(Queue()), currentMidiChannel, 7, 64)
    {
      SendControlChange(currentMidiChannel, 7, 64);
      ok := true;
    }

    /** Three control changes with one controller on the current channel. */
    method SendTestRow(cc: bv8)
      requires Valid()
      modifies midiOutBuffer, this`midiOutHead, this`errorCount
      ensures Valid()
      ensures Queue() == OfferRow(old(Queue()), currentMidiChannel, cc)
    {
      SendControlChange(currentMidiChannel, cc, 0);
      SendControlChange(currentMidiChannel, cc, 127);
      SendControlChange(currentMidiChannel, cc, 64);
    }

    /** sendTestSequence: controllers 7-14 on the current channel, each sent 0, 127 and 64. */
    method SendTestSequence()
      requires Valid()
      modifies midiOutBuffer, this`midiOutHead, this`errorCount
      ensures Valid()
      ensures !(1 <= currentMidiChannel <= 16) ==> Queue() == old(Queue())
      ensures 1 <= currentMidiChannel <= 16 ==> Queue() == OfferAll(old(Queue()), TestRowsBelow(currentMidiChannel, 15))
    {
      ghost var q0 := Queue();
      var cc: bv8 := 7;
      while cc < 15
        invariant Valid() && 7 <= cc <= 15
        invariant !(1 <= currentMidiChannel <= 16) ==> Queue() == q0
        invariant 1 <= currentMidiChannel <= 16 ==> Queue() == OfferAll(q0, TestRowsBelow(currentMidiChannel, cc))
        decreases 15 - cc as int
      {
        if 1 <= currentMidiChannel <= 16 {
          OfferRowAppends(q0, TestRowsBelow(currentMidiChannel, cc), currentMidiChannel, cc);
        }
        SendTestRow(cc);
        cc := cc + 1;
      }
    }

    /** processRealTimeMessage. */
    method ProcessRealTimeMessage(status: bv8)
      modifies this`currentTransport
      ensures currentTransport == RealTimeTransport(old(currentTransport), status)
    {
      if status == 0xFA || status == 0xFB {
        currentTransport := currentTransport.(isPlaying := true, isPaused := false);
      } else if status == 0xFC {
        currentTransport := currentTransport.(isPlaying := false, isPaused := false);
      }
    }

    /**
     * processUsbMidiPacket: a null packet is ignored; channel-voice CINs go to the
     * channel handler, which only logs; CIN 0xF with a realtime status goes to
     * processRealTimeMessage.
     */
    method ProcessUsbMidiPacket(packet: Option<Packet>)
      modifies this`currentTransport
      ensures currentTransport == if packet.Some? then Deliver(old(currentTransport), packet.value) else old(currentTransport)
    {
      if packet.None? {
        return;
      }
      var p := packet.value;
      var codeIndexNumber := p[0] & 0x0F;
      if 0x8 <= codeIndexNumber <= 0xE {
        // processMidiMessage: decodes type and channel for the log only
      } else if codeIndexNumber == 0xF {
        if p[1] >= 0xF8 {
          ProcessRealTimeMessage(p[1]);
        }
      }
    }

    /**
     * processMidiInput: every packet read is counted, stamps the activity time and
     * is dispatched. The packets available are a parameter, read at one instant.
     */
    method ProcessMidiInput(packets: seq<Packet>, nowMillis: uint32)
      modifies this`midiMessagesReceived, this`lastActivityTime, this`currentTransport
      ensures midiMessagesReceived == IncBy(old(midiMessagesReceived), |packets|)
      ensures lastActivityTime == if packets == [] then old(lastActivityTime) else nowMillis
      ensures currentTransport == DeliverAll(old(currentTransport), packets)
    {
      var i := 0;
      while i < |packets|
        invariant 0 <= i <= |packets|
        invariant midiMessagesReceived == IncBy(old(midiMessagesReceived), i)
        invariant lastActivityTime == if i == 0 then old(lastActivityTime) else nowMillis
        invariant currentTransport == DeliverAll(old(currentTransport), packets[..i])
      {
        midiMessagesReceived := Inc32(midiMessagesReceived);
        lastActivityTime := nowMillis;
        ProcessUsbMidiPacket(Some(packets[i]));
        assert packets[..i + 1][..i] == packets[..i];
        i := i + 1;
      }
      assert packets[..i] == packets;
    }

    /** reconstructMtcTime: the timebase is valid exactly when the time code validates; failure counts an error. */
    method ReconstructMtcTime()
      modifies this`mtcTimebaseValid, this`errorCount
      ensures mtcTimebaseValid == ValidMtcData(currentMtc)
      ensures errorCount == if ValidMtcData(currentMtc) then old(errorCount) else Inc32(old(errorCount))
    {
      if ValidMtcData(currentMtc) {
        mtcTimebaseValid := true;
      } else {
        mtcTimebaseValid := false;
        errorCount := Inc32(errorCount);
      }
    }

    /**
     * updateMtcFromQuarterFrame: apply the piece, remember its type and time; piece
     * 7 then re-validates the time code.
     */
    method UpdateMtcFromQuarterFrame(data: bv8, nowMillis: uint32)
      modifies this`currentMtc, this`mtcQuarterFrame, this`lastMtcTime, this`mtcTimebaseValid, this`errorCount
      ensures currentMtc == ApplyQuarterFrame(old(currentMtc), data)
      ensures mtcQuarterFrame == PieceType(data) && lastMtcTime == nowMillis
      ensures PieceType(data) != 7 ==> mtcTimebaseValid == old(mtcTimebaseValid) && errorCount == old(errorCount)
      ensures PieceType(data) == 7 ==>
        mtcTimebaseValid == ValidMtcData(currentMtc) &&
        errorCount == if ValidMtcData(currentMtc) then old(errorCount) else Inc32(old(errorCount))
    {
      var pieceType := (data >> 4) & 0x07;
      var pieceValue := data & 0x0F;
      if pieceType == 0 {
        currentMtc := currentMtc.(frames := (currentMtc.frames & 0xF0) | pieceValue);
      } else if pieceType == 1 {
        currentMtc := currentMtc.(frames := (currentMtc.frames & 0x0F) | (pieceValue << 4));
      } else if pieceType == 2 {
        currentMtc := currentMtc.(seconds := (currentMtc.seconds & 0xF0) | pieceValue);
      } else if pieceType == 3 {
        currentMtc := currentMtc.(seconds := (currentMtc.seconds & 0x0F) | (pieceValue << 4));
      } else if pieceType == 4 {
        currentMtc := currentMtc.(minutes := (currentMtc.minutes & 0xF0) | pieceValue);
      } else if pieceType == 5 {
        currentMtc := currentMtc.(minutes := (currentMtc.minutes & 0x0F) | (pieceValue << 4));
      } else if pieceType == 6 {
        currentMtc := currentMtc.(hours := (currentMtc.hours & 0xF0) | pieceValue);
      } else {
        currentMtc := currentMtc.(hours := (currentMtc.hours & 0x0F) | (pieceValue << 4),
                                  isRunning := (pieceValue & 0x06) != 0);
      }
      mtcQuarterFrame := pieceType;
      lastMtcTime := nowMillis;
      if pieceType == 7 {
        ReconstructMtcTime();
      }
    }

    /** resetMtcTimebase: time code cleared, quarter-frame type 0, timebase invalid. */
    method ResetMtcTimebase()
      modifies this`currentMtc, this`mtcQuarterFrame, this`mtcTimebaseValid
      ensures currentMtc == MtcData(0, 0, 0, 0, false) && mtcQuarterFrame == 0 && !mtcTimebaseValid
    {
      currentMtc := MtcData(0, 0, 0, 0, false);
      mtcQuarterFrame := 0;
      mtcTimebaseValid := false;
    }

    /**
     * processSystemMessage: quarter frames (0xF1) update the time code and are
     * counted; clock, start, continue and stop drive the transport; active sensing
     * stamps the activity time; system reset clears the time code and the transport.
     */
    method ProcessSystemMessage(status: bv8, data1: bv8, data2: bv8, nowMillis: uint32)
      modifies this`currentMtc, this`mtcQuarterFrame, this`lastMtcTime, this`mtcTimebaseValid, this`errorCount
      modifies this`mtcFramesReceived, this`currentTransport, this`lastActivityTime
      ensures currentTransport == SystemTransport(old(currentTransport), status)
      ensures mtcFramesReceived == if status == 0xF1 then Inc32(old(mtcFramesReceived)) else old(mtcFramesReceived)
      ensures lastActivityTime == if status == 0xFE then nowMillis else old(lastActivityTime)
      ensures status == 0xF1 ==>
        currentMtc == ApplyQuarterFrame(old(currentMtc), data1) &&
        mtcQuarterFrame == PieceType(data1) && lastMtcTime == nowMillis &&
        (PieceType(data1) != 7 ==> mtcTimebaseValid == old(mtcTimebaseValid) && errorCount == old(errorCount)) &&
        (PieceType(data1) == 7 ==>
           mtcTimebaseValid == ValidMtcData(currentMtc) &&
           errorCount == if ValidMtcData(currentMtc) then old(errorCount) else Inc32(old(errorCount)))
      ensures status == 0xFF ==>
        currentMtc == MtcData(0, 0, 0, 0, false) && mtcQuarterFrame == 0 && !mtcTimebaseValid &&
        lastMtcTime == old(lastMtcTime) && errorCount == old(errorCount)
      ensures status != 0xF1 && status != 0xFF ==>
        currentMtc == old(currentMtc) && mtcQuarterFrame == old(mtcQuarterFrame) && lastMtcTime == old(lastMtcTime) &&
        mtcTimebaseValid == old(mtcTimebaseValid) && errorCount == old(errorCount)
    {
      if status == 0xF1 {
        UpdateMtcFromQuarterFrame(data1, nowMillis);
        mtcFramesReceived := Inc32(mtcFramesReceived);
      } else if status == 0xF8 {
        currentTransport := currentTransport.(isPlaying := true);
      } else if status == 0xFA || status == 0xFB {
        currentTransport := currentTransport.(isPlaying := true, isPaused := false);
      } else if status == 0xFC {
        currentTransport := currentTransport.(isPlaying := false, isPaused := false);
      } else if status == 0xFE {
        lastActivityTime := nowMillis;
      } else if status == 0xFF {
        ResetMtcTimebase();
        currentTransport := TransportState(false, false, false);
      }
    }

    /** resetStatistics: the five counters back to zero. */
    method ResetStatistics()
      modifies this`midiMessagesReceived, this`midiMessagesSent, this`sysExMessagesProcessed
      modifies this`mtcFramesReceived, this`errorCount
      ensures midiMessagesReceived == 0 && midiMessagesSent == 0 && sysExMessagesProcessed == 0
      ensures mtcFramesReceived == 0 && errorCount == 0
    {
      midiMessagesReceived := 0;
      midiMessagesSent := 0;
      sysExMessagesProcessed := 0;
      mtcFramesReceived := 0;
      errorCount := 0;
    }

    /**
     * processStudioOneMessage: an ignored frame changes nothing; any other frame
     * makes its callbacks and is counted, whether or not it was long enough for
     * its type.
     */
    method ProcessStudioOneMessage(data: seq<bv8>)
      requires |data| < 0x1_0000
      modifies this`dawActions, this`sysExMessagesProcessed
      ensures StudioOneActions(data).None? ==>
        dawActions == old(dawActions) && sysExMessagesProcessed == old(sysExMessagesProcessed)
      ensures StudioOneActions(data).Some? ==>
        dawActions == old(dawActions) + StudioOneActions(data).value &&
        sysExMessagesProcessed == Inc32(old(sysExMessagesProcessed))
    {
      if |data| < 8 || data[0] != 0xF0 || data[1] != 0x00 || data[2] != 0x21 || data[3] != 0x7B {
        return;
      }
      var messageType, track, bank := data[4], data[5], data[6];
      if messageType == SYSEX_COLOR_UPDATE {
        if |data| >= 11 {
          var color := Rgb24ToRgb565(Rgb24Of(data[7], data[8], data[9]));
          dawActions := dawActions + [SyncColor(track, bank, color)];
        }
      } else if messageType == SYSEX_VALUE_UPDATE {
        if |data| >= 9 {
          dawActions := dawActions + [SyncValue(track, bank, data[7])];
        }
      } else if messageType == SYSEX_VU_UPDATE {
        if |data| >= 9 {
          dawActions := dawActions + [VuLevel(track, data[7])];
        }
      } else if messageType == SYSEX_NAME_UPDATE {
        if |data| >= 9 {
          var nameLength := NameLength(|data|);
          dawActions := dawActions + [SyncName(track, bank, data[7..7 + nameLength])];
        }
      } else if messageType == SYSEX_TRANSPORT {
        dawActions := dawActions + [TransportUpdate(data[5])];
      } else if messageType == SYSEX_VALUE_AND_COLOR {
        if |data| >= 12 {
          var value := data[7];
          var color := Rgb24ToRgb565(Rgb24Of(data[8], data[9], data[10]));
          dawActions := dawActions + [SyncValue(track, bank, value), SyncColor(track, bank, color)];
        }
      }
      sysExMessagesProcessed := Inc32(sysExMessagesProcessed);
    }

    /** setMidiThru. */
    method SetMidiThru(enable: bool)
      modifies this`midiThruEnabled
      ensures midiThruEnabled == enable
    {
      midiThruEnabled := enable;
    }

    /** setSysExAutoResponse. */
    method SetSysExAutoResponse(enable: bool)
      modifies this`sysExAutoResponse
      ensures sysExAutoResponse == enable
    {
      sysExAutoResponse := enable;
    }

    /** enableMtcSync. */
    method EnableMtcSync(enable: bool)
      modifies this`mtcSync
      ensures mtcSync == enable
    {
      mtcSync := enable;
    }
  }
}
