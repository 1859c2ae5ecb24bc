/**
 * Encoder bank table: four banks of sixteen track slots (`EncoderConfig`), the
 * current bank, and what happens to a slot when its encoder turns, its switch is
 * pressed or the DAW reports a value, colour or name. Calls into the MIDI engine
 * and the display are recorded, in call order, as `MidiCall` and `DisplayCall`
 * values.
 */
module Encoders {
  import opened Config
  import opened Wrappers

  // ================================================================ recorded calls

  /** The arguments of one call of the MIDI engine's `send*` functions. */
  datatype MidiCall =
    | ControlChangeCall(channel: byte, control: byte, value: byte)
    | NoteOnCall(channel: byte, note: byte, velocity: byte)
    | NoteOffCall(channel: byte, note: byte, velocity: byte)
    | PitchBendCall(channel: byte, bend: int16)

  /** The arguments of one call of the display manager. */
  datatype DisplayCall =
    | MarkChannelDirty(track: byte)
    | SetVuLevel(track: byte, level: byte)

  function CallChannel(m: MidiCall): byte {
    match m
    case ControlChangeCall(ch, _, _) => ch
    case NoteOnCall(ch, _, _) => ch
    case NoteOffCall(ch, _, _) => ch
    case PitchBendCall(ch, _) => ch
  }

  // ================================================================ arithmetic

  function Min(a: int, b: int): int { if a <= b then a else b }
  function Max(a: int, b: int): int { if a <= b then b else a }

  /** Distance between two integers. */
  function Dist(a: int, b: int): nat { if a <= b then b - a else a - b }

  /**
   * Arduino `constrain(x, lo, hi)`. For an ordered range it is the point of
   * [lo, hi] nearest to x; for an inverted range (lo > hi, which nothing in the
   * firmware prevents) it returns lo below lo and hi otherwise.
   */
  function Constrain(x: int, lo: int8, hi: int8): (v: int8)
    ensures lo <= hi ==> lo <= v <= hi
    ensures lo <= hi ==> forall y :: lo <= y <= hi ==> Dist(v, x) <= Dist(y, x)
    ensures lo > hi ==> v == (if x < lo then lo else hi)
  {
    if x < lo then lo else if x > hi then hi else x
  }

  /**
   * Arduino `map(v, 0, 127, -8192, 8191)` on the slot value, with C division
   * (truncation toward zero), then passed as int16_t.
   */
  function PitchBendFromValue(v: int8): (p: int16)
    ensures v == 0 ==> p == -8192
    ensures v == 127 ==> p == 8191
    ensures 0 <= v <= 127 ==> -8192 <= p <= 8191
  {
    PitchBendRange(v);
    CDiv(v * 16383, 127) - 8192
  }

  /** The mapped value fits int16 for every int8 input. */
  lemma PitchBendRange(v: int8)
    ensures -0x8000 <= CDiv(v * 16383, 127) - 8192 < 0x8000
    ensures 0 <= v ==> 0 <= CDiv(v * 16383, 127) <= 16383
  {
    if v >= 0 {
      var x := v * 16383;
      assert 0 <= x <= 127 * 16383;
    } else {
      var x := -(v as int) * 16383;
      assert 0 <= x <= 128 * 16383;
    }
  }

  /** The mapping is monotone: turning up never lowers the bend. */
  lemma {:induction false} PitchBendMonotone(v: int8, w: int8)
    requires 0 <= v <= w
    ensures PitchBendFromValue(v) <= PitchBendFromValue(w)
  {
    DivMonotone(v * 16383, w * 16383, 127);
  }

  lemma DivMonotone(a: nat, b: nat, d: int)
    requires d > 0 && a <= b
    ensures a / d <= b / d
  {
    var qa, ra := a / d, a % d;
    var qb, rb := b / d, b % d;
    assert a == d * qa + ra && b == d * qb + rb;
    assert d * (qa - qb) < d by {
      assert d * (qa - qb) == d * qa - d * qb;
    }
    if qa - qb >= 1 {
      MulMonotone(d, 1, qa - qb);
    }
  }

  lemma MulMonotone(d: nat, x: int, y: int)
    requires x <= y
    ensures d * x <= d * y
  {
  }

  // ================================================================ one slot

  /** processEncoderChange, slot part: the value moves by `change`, clamped to the slot range. */
  function Turn(c: EncoderConfig, change: int8): (d: EncoderConfig)
    ensures d == c.(value := d.value)
    ensures c.minValue <= c.maxValue ==> InRange(d)
    ensures InRange(c) && change >= 0 ==> c.value <= d.value <= c.value + change
    ensures InRange(c) && change <= 0 ==> c.value + change <= d.value <= c.value
    ensures InRange(c) && c.minValue <= c.value + change <= c.maxValue ==> d.value == c.value + change
  {
    c.(value := Constrain(c.value + change, c.minValue, c.maxValue))
  }

  /**
   * processEncoderChange, message part, on the already updated slot: one call
   * chosen by the 2-bit control type; the value 3 fits the field but has no case.
   */
  function TurnCall(d: EncoderConfig, change: int8): (m: Option<MidiCall>)
    ensures m.Some? <==> d.controlType != 3
    ensures m.Some? ==> CallChannel(m.value) == d.channel
    ensures m.Some? && m.value.ControlChangeCall? <==> d.controlType == CT_CC
    ensures m.Some? && m.value.NoteOnCall? <==> d.controlType == CT_NOTE && change > 0
    ensures m.Some? && m.value.NoteOffCall? <==> d.controlType == CT_NOTE && change <= 0
    ensures m.Some? && m.value.PitchBendCall? <==> d.controlType == CT_PITCH
  {
    if d.controlType == CT_CC then Some(ControlChangeCall(d.channel, d.control, ToByte(d.value)))
    else if d.controlType == CT_NOTE then
      (if change > 0 then Some(NoteOnCall(d.channel, d.control, ToByte(d.value)))
       else Some(NoteOffCall(d.channel, d.control, 0)))
    else if d.controlType == CT_PITCH then Some(PitchBendCall(d.channel, PitchBendFromValue(d.value)))
    else None
  }

  /** The message reports the new value: CC and NoteOn carry it, pitch bend its image. */
  lemma TurnCallCarriesValue(c: EncoderConfig, change: int8)
    requires c.controlType != 3
    ensures var d := Turn(c, change); var m := TurnCall(d, change).value;
      (m.ControlChangeCall? ==> m.control == c.control && ToInt8(m.value) == d.value) &&
      (m.NoteOnCall? ==> m.note == c.control && ToInt8(m.velocity) == d.value) &&
      (m.NoteOffCall? ==> m.note == c.control && m.velocity == 0) &&
      (m.PitchBendCall? ==> m.bend == PitchBendFromValue(d.value))
  {
    var d := Turn(c, change);
    ByteInt8RoundTrip(0, d.value);
  }

  /** A turn towards a limit the value already sits at changes nothing. */
  lemma TurnAtLimit(c: EncoderConfig, change: int8)
    requires InRange(c)
    requires (c.value == c.maxValue && change >= 0) || (c.value == c.minValue && change <= 0)
    ensures Turn(c, change) == c
  {
  }

  /** The switch row a switch index addresses: 0-7 mute tracks 0-7, 8-15 solo tracks 0-7. */
  function SwitchTrack(switchIndex: nat): (t: nat)
    requires switchIndex < 16
    ensures t < 8
    ensures switchIndex == t || switchIndex == t + 8
  {
    if switchIndex < 8 then switchIndex else switchIndex - 8
  }

  /** processSwitchPress, slot part: flip mute (0-7) or solo (8-15). */
  function Press(c: EncoderConfig, switchIndex: nat): (d: EncoderConfig)
    requires switchIndex < 16
    ensures switchIndex < 8 ==> d == c.(isMute := !c.isMute)
    ensures switchIndex >= 8 ==> d == c.(isSolo := !c.isSolo)
  {
    if switchIndex < 8 then c.(isMute := !c.isMute) else c.(isSolo := !c.isSolo)
  }

  /** processSwitchPress, message part: CC 120+track (mute) or 110+track (solo), 127 when now set. */
  function PressCall(d: EncoderConfig, switchIndex: nat): (m: MidiCall)
    requires switchIndex < 16
    ensures m.ControlChangeCall? && m.channel == d.channel
    ensures switchIndex < 8 ==> m.control == 120 + switchIndex && (m.value == 127 <==> d.isMute)
    ensures switchIndex >= 8 ==> m.control == 110 + (switchIndex - 8) && (m.value == 127 <==> d.isSolo)
    ensures m.value == 0 || m.value == 127
  {
    var track := SwitchTrack(switchIndex);
    if switchIndex < 8 then ControlChangeCall(d.channel, 120 + track, if d.isMute then 127 else 0)
    else ControlChangeCall(d.channel, 110 + track, if d.isSolo then 127 else 0)
  }

  /** Pressing the same switch twice restores the slot. */
  lemma PressTwiceRestores(c: EncoderConfig, switchIndex: nat)
    requires switchIndex < 16
    ensures Press(Press(c, switchIndex), switchIndex) == c
  {
  }

  /** The uint8_t a DAW value is stored as, read back through `getEncoderDAWValue`. */
  function DawValueOf(c: EncoderConfig): (v: byte)
    ensures ToInt8(v) == c.dawValue
  {
    ByteInt8RoundTrip(0, c.dawValue);
    ToByte(c.dawValue)
  }

  /** syncFromDAW / updateFromDAW(track, bank, value, color), slot part. */
  function SyncSlot(c: EncoderConfig, value: byte, color: bv16): (d: EncoderConfig)
    ensures DawValueOf(d) == value && d.trackColor == color
    ensures d == c.(dawValue := d.dawValue, trackColor := color)
  {
    ByteInt8RoundTrip(value, 0);
    c.(dawValue := ToInt8(value), trackColor := color)
  }

  /** setEncoderDAWValue, slot part. */
  function SetDawValue(c: EncoderConfig, value: byte): (d: EncoderConfig)
    ensures DawValueOf(d) == value
    ensures d == c.(dawValue := d.dawValue)
  {
    ByteInt8RoundTrip(value, 0);
    c.(dawValue := ToInt8(value))
  }

  /**
   * The DAW value copied into the local value on the current bank: a uint8_t stored
   * in an int8_t, with no clamping to the slot range.
   */
  function AdoptValue(c: EncoderConfig, value: byte): (d: EncoderConfig)
    ensures d == c.(value := d.value)
    ensures ToByte(d.value) == value
  {
    ByteInt8RoundTrip(value, 0);
    c.(value := ToInt8(value))
  }

  /** A DAW update can leave the clamp invariant broken: 200 is stored as -56. */
  lemma DawValueBypassesRange()
    ensures InRange(DefaultEncoderConfig())
    ensures AdoptValue(DefaultEncoderConfig(), 200).value == -56
    ensures !InRange(AdoptValue(DefaultEncoderConfig(), 200))
  {
  }

  /** The characters of a C string: everything before the first NUL. */
  function CString(s: seq<char>): (t: seq<char>)
    ensures t <= s && '\0' !in t
    ensures |t| < |s| ==> s[|t|] == '\0'
  {
    if s == [] || s[0] == '\0' then [] else [s[0]] + CString(s[1..])
  }

  /**
   * `strncpy(trackName, name, cap + 1)` followed by `trackName[cap] = '\0'`: the
   * stored name is the C string cut to `cap` characters.
   */
  function StoredName(name: seq<char>, cap: nat): (t: TrackName)
    requires cap <= 4
    ensures t <= CString(name) && |t| == Min(|CString(name)|, cap)
    ensures |CString(name)| <= cap ==> t == CString(name)
    ensures |CString(name)| > cap ==> t == CString(name)[..cap]
  {
    var s := CString(name);
    if |s| <= cap then s else s[..cap]
  }

  // ================================================================ the table as a value

  /** A bank x track table: bank b, track e is `T[b][e]`. */
  predicate IsTable(T: seq<seq<EncoderConfig>>) {
    |T| == NUM_BANKS && forall b :: 0 <= b < NUM_BANKS ==> |T[b]| == NUM_ENCODERS
  }

  /** The table with every slot at its default. */
  function DefaultTable(): (T: seq<seq<EncoderConfig>>)
    ensures IsTable(T)
    ensures forall b, e :: 0 <= b < NUM_BANKS && 0 <= e < NUM_ENCODERS ==> T[b][e] == DefaultEncoderConfig()
  {
    seq(NUM_BANKS, _ => seq(NUM_ENCODERS, _ => DefaultEncoderConfig()))
  }

  /**
   * Writing slot (bank, index): that slot becomes `c` and no other slot changes
   * (banks are independent; compare AsWrittenSlotsAlias).
   */
  function Write(T: seq<seq<EncoderConfig>>, bank: nat, index: nat, c: EncoderConfig): (U: seq<seq<EncoderConfig>>)
    requires IsTable(T) && bank < NUM_BANKS && index < NUM_ENCODERS
    ensures IsTable(U)
    ensures U[bank][index] == c
    ensures forall b, e :: 0 <= b < NUM_BANKS && 0 <= e < NUM_ENCODERS && (b != bank || e != index) ==>
      U[b][e] == T[b][e]
  {
    T[bank := T[bank][index := c]]
  }

  // ================================================================ the table as declared

  /**
   * The table as the source declares it, `EncoderConfig encoderBanks[16][4]`, seen
   * as its 64 consecutive cells; `encoderBanks[bank][index]` is cell `4*bank + index`.
   */
  function AsWrittenCell(bank: nat, index: nat): nat {
    NUM_BANKS * bank + index
  }

  /** A store through `encoderBanks[bank][index]` into the declared [16][4] array. */
  function AsWrittenWrite(F: seq<EncoderConfig>, bank: nat, index: nat, c: EncoderConfig): (G: seq<EncoderConfig>)
    requires |F| == NUM_ENCODERS * NUM_BANKS && bank < NUM_BANKS && index < NUM_ENCODERS
    ensures |G| == |F| && G[AsWrittenCell(bank, index)] == c
  {
    F[AsWrittenCell(bank, index) := c]
  }

  /**
   * With the declared shape, slots alias across banks: whatever is stored for
   * track 0 of bank 1 is what track 4 of bank 0 reads, and track i >= 4 of bank b
   * is track i - 4 of bank b + 1.
   */
  lemma AsWrittenSlotsAlias(F: seq<EncoderConfig>, c: EncoderConfig)
    requires |F| == NUM_ENCODERS * NUM_BANKS
    ensures AsWrittenWrite(F, 1, 0, c)[AsWrittenCell(0, 4)] == c
    ensures forall b, i :: 0 <= b < NUM_BANKS - 1 && 4 <= i < NUM_ENCODERS ==>
      AsWrittenCell(b, i) == AsWrittenCell(b + 1, i - 4)
  {
  }

  // ================================================================ the manager

  class EncoderManager {
    /** encoderBanks, as the intended bank x track table: `banks[bank, track]`. */
    const banks: array2<EncoderConfig>
    var encoderAccelerationEnabled: bool
    var currentBank: byte
    /** The `static EncoderConfig dummy` that out-of-range mutable access returns. */
    var dummy: EncoderConfig

    var sent: seq<MidiCall>          // calls into the MIDI engine, in order
    var display: seq<DisplayCall>    // calls into the display manager, in order

    ghost predicate Valid() {
      banks.Length0 == NUM_BANKS && banks.Length1 == NUM_ENCODERS
    }

    /** The table as a value. */
    ghost function Table(): (T: seq<seq<EncoderConfig>>)
      requires Valid()
      reads banks
      ensures IsTable(T)
    {
      seq(NUM_BANKS, b requires 0 <= b < NUM_BANKS reads banks =>
        seq(NUM_ENCODERS, e requires 0 <= e < NUM_ENCODERS reads banks => banks[b, e]))
    }

    /** Every slot default, acceleration on, bank 0, the dummy default. */
    constructor ()
      ensures Valid() && fresh(banks)
      ensures Table() == DefaultTable()
      ensures encoderAccelerationEnabled && currentBank == 0 && dummy == DefaultEncoderConfig()
      ensures sent == [] && display == []
    {
      banks := new EncoderConfig[NUM_BANKS, NUM_ENCODERS]((_, _) => DefaultEncoderConfig());
      encoderAccelerationEnabled := true;
      currentBank := 0;
      dummy := DefaultEncoderConfig();
      sent := [];
      display := [];
      new;
      assert forall b :: 0 <= b < NUM_BANKS ==> Table()[b] == DefaultTable()[b];
    }

    /** initialize: take the acceleration flag and the bank from the application config. */
    method Initialize(config: AppConfig) returns (ok: bool)
      modifies this`encoderAccelerationEnabled, this`currentBank
      ensures ok
      ensures encoderAccelerationEnabled == config.encoderAcceleration && currentBank == config.currentBank
    {
      encoderAccelerationEnabled := config.encoderAcceleration;
      currentBank := config.currentBank;
      ok := true;
    }

    /** setCurrentBank: any byte is stored, with no range check. */
    method SetCurrentBank(bank: byte)
      modifies this`currentBank
      ensures currentBank == bank
    {
      currentBank := bank;
    }

    /** getEncoderConfig: the slot, or a default-constructed one out of range. */
    function GetEncoderConfig(index: byte, bank: byte): (c: EncoderConfig)
      requires Valid()
      reads this, banks
      ensures index < NUM_ENCODERS && bank < NUM_BANKS ==> c == Table()[bank][index]
      ensures !(index < NUM_ENCODERS && bank < NUM_BANKS) ==> c == DefaultEncoderConfig()
    {
      if index < NUM_ENCODERS && bank < NUM_BANKS then banks[bank, index] else DefaultEncoderConfig()
    }

    /**
     * An assignment through the reference getEncoderConfigMutable returns: the slot
     * when in range, otherwise the shared dummy.
     */
    method StoreThroughMutable(index: byte, bank: byte, c: EncoderConfig)
      requires Valid()
      modifies banks, this`dummy
      ensures Valid()
      ensures index < NUM_ENCODERS && bank < NUM_BANKS ==>
        Table() == Write(old(Table()), bank, index, c) && dummy == old(dummy)
      ensures !(index < NUM_ENCODERS && bank < NUM_BANKS) ==> Table() == old(Table()) && dummy == c
    {
      if index < NUM_ENCODERS && bank < NUM_BANKS {
        WriteSlot(bank, index, c);
      } else {
        dummy := c;
      }
    }

    /** The one store every slot-changing operation ends in. */
    method WriteSlot(bank: nat, index: nat, c: EncoderConfig)
      requires Valid() && bank < NUM_BANKS && index < NUM_ENCODERS
      modifies banks
      ensures Valid()
      ensures Table() == Write(old(Table()), bank, index, c)
    {
      ghost var T := Table();
      banks[bank, index] := c;
      assert forall b :: 0 <= b < NUM_BANKS ==> Table()[b] == Write(T, bank, index, c)[b];
    }

    /**
     * processEncoderChange: out of range nothing happens; otherwise the slot value
     * moves by `change` within the slot range and exactly one MIDI call reports
     * it (none for control type 3).
     */
    method ProcessEncoderChange(encoderIndex: byte, change: int8, bank: byte)
      requires Valid()
      modifies banks, this`sent
      ensures Valid()
      ensures !(encoderIndex < NUM_ENCODERS && bank < NUM_BANKS) ==> Table() == old(Table()) && sent == old(sent)
      ensures encoderIndex < NUM_ENCODERS && bank < NUM_BANKS ==>
        var d := Turn(old(Table())[bank][encoderIndex], change);
        Table() == Write(old(Table()), bank, encoderIndex, d) &&
        sent == old(sent) + ToSeq(TurnCall(d, change))
    {
      if encoderIndex >= NUM_ENCODERS || bank >= NUM_BANKS {
        return;
      }
      var config := banks[bank, encoderIndex];
      config := config.(value := Constrain(config.value + change, config.minValue, config.maxValue));
      WriteSlot(bank, encoderIndex, config);
      if config.controlType == CT_CC {
        sent := sent + [ControlChangeCall(config.channel, config.control, ToByte(config.value))];
      } else if config.controlType == CT_NOTE {
        if change > 0 {
          sent := sent + [NoteOnCall(config.channel, config.control, ToByte(config.value))];
        } else {
          sent := sent + [NoteOffCall(config.channel, config.control, 0)];
        }
      } else if config.controlType == CT_PITCH {
        sent := sent + [PitchBendCall(config.channel, PitchBendFromValue(config.value))];
      }
    }

    /**
     * processSwitchPress: switches 0-7 flip mute and 8-15 flip solo of track
     * index mod 8 in `bank`, and one CC reports the new state; anything else is
     * a no-op.
     */
    method ProcessSwitchPress(switchIndex: byte, bank: byte)
      requires Valid()
      modifies banks, this`sent
      ensures Valid()
      ensures !(switchIndex < 16 && bank < NUM_BANKS) ==> Table() == old(Table()) && sent == old(sent)
      ensures switchIndex < 16 && bank < NUM_BANKS ==>
        var track := SwitchTrack(switchIndex);
        var d := Press(old(Table())[bank][track], switchIndex);
        Table() == Write(old(Table()), bank, track, d) &&
        sent == old(sent) + [PressCall(d, switchIndex)]
    {
      if switchIndex < 8 {
        var track := switchIndex;
        if track < NUM_ENCODERS && bank < NUM_BANKS {
          var c := banks[bank, track];
          c := c.(isMute := !c.isMute);
          WriteSlot(bank, track, c);
          sent := sent + [ControlChangeCall(c.channel, 120 + track, if c.isMute then 127 else 0)];
        }
      } else if switchIndex < 16 {
        var track := switchIndex - 8;
        if track < NUM_ENCODERS && bank < NUM_BANKS {
          var c := banks[bank, track];
          c := c.(isSolo := !c.isSolo);
          WriteSlot(bank, track, c);
          sent := sent + [ControlChangeCall(c.channel, 110 + track, if c.isSolo then 127 else 0)];
        }
      }
    }

    /** syncFromDAW: store the DAW value and colour; the local value and the display are untouched. */
    method SyncFromDAW(track: byte, bank: byte, value: byte, color: bv16)
      requires Valid()
      modifies banks
      ensures Valid()
      ensures track < NUM_ENCODERS && bank < NUM_BANKS ==>
        Table() == Write(old(Table()), bank, track, SyncSlot(old(Table())[bank][track], value, color))
      ensures !(track < NUM_ENCODERS && bank < NUM_BANKS) ==> Table() == old(Table())
    {
      if track < NUM_ENCODERS && bank < NUM_BANKS {
        var c := banks[bank, track];
        WriteSlot(bank, track, c.(dawValue := ToInt8(value), trackColor := color));
      }
    }

    /** setEncoderDAWValue: store the DAW value only. */
    method SetEncoderDAWValue(track: byte, bank: byte, value: byte)
      requires Valid()
      modifies banks
      ensures Valid()
      ensures track < NUM_ENCODERS && bank < NUM_BANKS ==>
        Table() == Write(old(Table()), bank, track, SetDawValue(old(Table())[bank][track], value))
      ensures !(track < NUM_ENCODERS && bank < NUM_BANKS) ==> Table() == old(Table())
    {
      if track < NUM_ENCODERS && bank < NUM_BANKS {
        var c := banks[bank, track];
        WriteSlot(bank, track, c.(dawValue := ToInt8(value)));
      }
    }

    /** getEncoderDAWValue: the stored DAW value as uint8_t, 0 out of range. */
    function GetEncoderDAWValue(track: byte, bank: byte): (v: byte)
      requires Valid()
      reads this, banks
      ensures track < NUM_ENCODERS && bank < NUM_BANKS ==> v == DawValueOf(Table()[bank][track])
      ensures !(track < NUM_ENCODERS && bank < NUM_BANKS) ==> v == 0
    {
      if track < NUM_ENCODERS && bank < NUM_BANKS then ToByte(banks[bank, track].dawValue) else 0
    }

    /**
     * syncNameFromDAW: store up to four characters of the name (`None` is a null
     * pointer) and mark the track dirty when the bank is the current one.
     */
    method SyncNameFromDAW(track: byte, bank: byte, name: Option<seq<char>>)
      requires Valid()
      modifies banks, this`display
      ensures Valid()
      ensures !(track < NUM_ENCODERS && bank < NUM_BANKS && name.Some?) ==>
        Table() == old(Table()) && display == old(display)
      ensures track < NUM_ENCODERS && bank < NUM_BANKS && name.Some? ==>
        Table() == Write(old(Table()), bank, track, old(Table())[bank][track].(trackName := StoredName(name.value, 4))) &&
        display == old(display) + (if bank == currentBank then [MarkChannelDirty(track)] else [])
    {
      if track < NUM_ENCODERS && bank < NUM_BANKS && name.Some? {
        var c := banks[bank, track];
        WriteSlot(bank, track, c.(trackName := StoredName(name.value, 4)));
        if bank == currentBank {
          display := display + [MarkChannelDirty(track)];
        }
      }
    }

    /** resetEncoderConfig: one in-range slot back to its defaults. */
    method ResetEncoderConfig(index: byte, bank: byte)
      requires Valid()
      modifies banks
      ensures Valid()
      ensures index < NUM_ENCODERS && bank < NUM_BANKS ==>
        Table() == Write(old(Table()), bank, index, DefaultEncoderConfig())
      ensures !(index < NUM_ENCODERS && bank < NUM_BANKS) ==> Table() == old(Table())
    {
      if index < NUM_ENCODERS && bank < NUM_BANKS {
        WriteSlot(bank, index, DefaultEncoderConfig());
      }
    }

    /** resetAllBanks: every slot of every bank back to its defaults. */
    method ResetAllBanks()
      requires Valid()
      modifies banks
      ensures Valid()
      ensures Table() == DefaultTable()
    {
      for bank := 0 to NUM_BANKS
        invariant forall b, e :: 0 <= b < bank && 0 <= e < NUM_ENCODERS ==> banks[b, e] == DefaultEncoderConfig()
      {
        for enc := 0 to NUM_ENCODERS
          invariant forall b, e :: 0 <= b < bank && 0 <= e < NUM_ENCODERS ==> banks[b, e] == DefaultEncoderConfig()
          invariant forall e :: 0 <= e < enc ==> banks[bank, e] == DefaultEncoderConfig()
        {
          banks[bank, enc] := DefaultEncoderConfig();
        }
      }
      assert forall b :: 0 <= b < NUM_BANKS ==> Table()[b] == DefaultTable()[b];
    }

    /** getEncoderAcceleration. */
    function GetEncoderAcceleration(): (enabled: bool)
      reads this
      ensures enabled == encoderAccelerationEnabled
    {
      encoderAccelerationEnabled
    }

    /** setEncoderAcceleration. */
    method SetEncoderAcceleration(enabled: bool)
      modifies this`encoderAccelerationEnabled
      ensures encoderAccelerationEnabled == enabled
    {
      encoderAccelerationEnabled := enabled;
    }

    /**
     * updateFromDAW(track, bank, value, color): the DAW value and colour are always
     * stored; on the current bank the local value takes the DAW value unclamped
     * and the track is marked dirty, a second time for tracks 0-7. No MIDI is sent.
     */
    method UpdateFromDAW(track: byte, bank: byte, value: byte, color: bv16)
      requires Valid()
      modifies banks, this`display
      ensures Valid()
      ensures !(track < NUM_ENCODERS && bank < NUM_BANKS) ==> Table() == old(Table()) && display == old(display)
      ensures track < NUM_ENCODERS && bank < NUM_BANKS ==>
        var synced := SyncSlot(old(Table())[bank][track], value, color);
        (bank != currentBank ==> Table() == Write(old(Table()), bank, track, synced) && display == old(display)) &&
        (bank == currentBank ==>
          Table() == Write(old(Table()), bank, track, AdoptValue(synced, value)) &&
          display == old(display) + [MarkChannelDirty(track)] + (if track < 8 then [MarkChannelDirty(track)] else []))
    {
      if track < NUM_ENCODERS && bank < NUM_BANKS {
        var config := banks[bank, track];
        config := config.(dawValue := ToInt8(value), trackColor := color);
        if bank == currentBank {
          config := config.(value := ToInt8(value));
          display := display + [MarkChannelDirty(track)];
          if track < 8 {
            display := display + [MarkChannelDirty(track)];
          }
        }
        WriteSlot(bank, track, config);
      }
    }

    /**
     * updateFromDAW(track, bank, value): the DAW value is stored; on the current
     * bank the local value takes it unclamped and the track is marked dirty once.
     */
    method UpdateValueFromDAW(track: byte, bank: byte, value: byte)
      requires Valid()
      modifies banks, this`display
      ensures Valid()
      ensures !(track < NUM_ENCODERS && bank < NUM_BANKS) ==> Table() == old(Table()) && display == old(display)
      ensures track < NUM_ENCODERS && bank < NUM_BANKS ==>
        var synced := SetDawValue(old(Table())[bank][track], value);
        (bank != currentBank ==> Table() == Write(old(Table()), bank, track, synced) && display == old(display)) &&
        (bank == currentBank ==>
          Table() == Write(old(Table()), bank, track, AdoptValue(synced, value)) &&
          display == old(display) + [MarkChannelDirty(track)])
    {
      if track < NUM_ENCODERS && bank < NUM_BANKS {
        var config := banks[bank, track];
        config := config.(dawValue := ToInt8(value));
        if bank == currentBank {
          config := config.(value := ToInt8(value));
          display := display + [MarkChannelDirty(track)];
        }
        WriteSlot(bank, track, config);
      }
    }

    /**
     * updateFromDAW(track, bank, color): the colour is stored; on the current bank
     * the track is marked dirty once.
     */
    method UpdateColorFromDAW(track: byte, bank: byte, color: bv16)
      requires Valid()
      modifies banks, this`display
      ensures Valid()
      ensures !(track < NUM_ENCODERS && bank < NUM_BANKS) ==> Table() == old(Table()) && display == old(display)
      ensures track < NUM_ENCODERS && bank < NUM_BANKS ==>
        Table() == Write(old(Table()), bank, track, old(Table())[bank][track].(trackColor := color)) &&
        display == old(display) + (if bank == currentBank then [MarkChannelDirty(track)] else [])
    {
      if track < NUM_ENCODERS && bank < NUM_BANKS {
        var config := banks[bank, track];
        WriteSlot(bank, track, config.(trackColor := color));
        if bank == currentBank {
          display := display + [MarkChannelDirty(track)];
        }
      }
    }

    /** updateVULevel: forward the level of tracks 0-15 to the display; the table is untouched. */
    method UpdateVULevel(track: byte, level: byte)
      modifies this`display
      ensures display == old(display) + (if track < NUM_ENCODERS then [SetVuLevel(track, level)] else [])
    {
      if track < NUM_ENCODERS {
        display := display + [SetVuLevel(track, level)];
      }
    }

    /** updateTrackName: store up to three characters of the name; nothing is marked dirty. */
    method UpdateTrackName(track: byte, bank: byte, name: Option<seq<char>>)
      requires Valid()
      modifies banks
      ensures Valid()
      ensures !(track < NUM_ENCODERS && bank < NUM_BANKS && name.Some?) ==> Table() == old(Table())
      ensures track < NUM_ENCODERS && bank < NUM_BANKS && name.Some? ==>
        Table() == Write(old(Table()), bank, track, old(Table())[bank][track].(trackName := StoredName(name.value, 3)))
    {
      if track < NUM_ENCODERS && bank < NUM_BANKS && name.Some? {
        var c := banks[bank, track];
        WriteSlot(bank, track, c.(trackName := StoredName(name.value, 3)));
      }
    }
  }
}
