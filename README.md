# Mackie-style MIDI control surface (ESP32-S3): verified model of the core

The firmware drives a USB MIDI control surface. It has 16 rotary encoders in four banks of track
slots, 16 mute/solo switches, 5 buttons, and a navigation encoder with a push button. It talks to
a DAW (Studio One) over USB MIDI. This project models the three modules that carry the logic, plus
the compile-time defaults they use:

- **Input decoder** (`HardwareManager.cpp`, module `Hardware` in `hardware.dfy`):
  - quadrature decoding of the encoders from MCP23017 pin snapshots;
  - the speed-dependent multiplier and the sub-step accumulator;
  - press detection on the switch and button ports;
  - the rate-limited navigation encoder;
  - the debounced navigation button.
- **Bank table** (`EncoderManager.cpp`, module `Encoders` in `encoders.dfy`):
  - four banks × sixteen `EncoderConfig` slots;
  - what an encoder turn, a switch press or a DAW update does to a slot;
  - which MIDI call or display call results.
- **MIDI engine** (`MidiManager.cpp`, module `Midi` in `midi.dfy`):
  - the 32-entry outbound ring with its single shared 16-byte SysEx payload buffer;
  - the serialiser that drains the ring;
  - USB-MIDI packet dispatch by Code Index Number;
  - transport tracking;
  - MIDI Time Code quarter-frame reconstruction;
  - RGB888/RGB565 conversion;
  - the Studio One SysEx protocol (`F0 00 21 7B type track bank …`).
- **Configuration** (`Config.h`, module `Config` in `config.dfy`):
  - the fixed-width types;
  - the constants;
  - the record types with their constructor defaults.

## How the model is built

- **State the firmware updates in place is a Dafny `class`.** Its fields are the source's fields,
  and its fixed arrays stay arrays:
  - `lastEncoded[16]` and its sibling arrays;
  - the `encoderBanks` table, as an `array2`;
  - `midiOutBuffer[32]`;
  - `sysExOutBuffer[16]`.
- **Each method is proved against a pure function.** Ghost views expose the state as a value:
  `Channels()`, `Table()` and `Pending()`/`Queue()`. Each method's postcondition ties the new view
  to a pure function of the old one:
  - `Step`, `ScanChannels` and `PressEvents` for the decoder;
  - `Write`, `Turn` and `Press` for the bank table;
  - `Push`, `Offer`, `Serialize`, `ApplyQuarterFrame` and `StudioOneActions` for the engine.
  
  The properties of the firmware are lemmas about those functions.
- **Outside calls are recorded, not executed.** Each call into code outside the core is appended to
  a list field, in call order:
  - `onEncoderChange`/`onSwitchPress`/`onButtonPress` (`HardwareManager.events`);
  - `midiManager.send*` from the bank table (`EncoderManager.sent`);
  - `displayManager.*` (`EncoderManager.display`);
  - `tud_midi_stream_write` (`MidiManager.wire`);
  - the DAW-synchronisation callbacks (`MidiManager.dawActions`).
- **Time and hardware reads are parameters.** `millis()` and `micros()` are `uint32` parameters.
  Pin reads and interrupt masks are 16-bit port snapshots (`Port`).
- **Integer widths are explicit:**
  - `uint8_t` bytes of the MIDI engine are `bv8`;
  - `int8_t` slot values are `int8` with explicit two's-complement conversion (`ToByte`/`ToInt8`);
  - `unsigned long` differences wrap (`Sub32`);
  - `uint32_t` counters wrap (`Inc32`).

Behaviour of the code that is easy to misread, stated as the model has it:

- **The ring holds 31 messages, not 32.** The full test `(head + 1) % 32 == tail` keeps one slot
  free (`RingFull`, `FillFromEmpty`).
- **A message refused on a full ring counts two errors, not one.** The `send*` functions log it
  again (`Offer`).
- **A SysEx entry stores only its length.** Its bytes live in the one shared buffer, so two SysEx
  messages queued before a drain both go out with the later payload (`SharedSysExPayload`).
- **Slow turns:** with acceleration off (or at a multiplier of 1), four raw encoder transitions
  produce one ±1 event (`SameDirectionRun`).
- **Fast turns:** at multiplier 2 a ±2 event follows every two transitions. At multiplier 4 every
  transition yields a ±4 event.
- **Encoders 12-15 are never decoded.** `processEncoder` computes their pins as 16-23 on a
  16-pin port (`HighEncodersNeverTriggered`).
- **Encoders 8-11 share pins 8-15 with encoders 4-7** (`UpperHalfSharesPins`).
- **A `controlType` of 3 sends nothing.** The field is 2 bits wide, and 3 has no case in the
  switch (`TurnCall`).
- **A slot channel of 0 sends nothing.** The channel is a 4-bit field (0-15), but
  `sendControlChange` and the other senders accept only channels 1-16 (`IsValidMidiChannel`,
  `OfferControlChange`).
- **DAW values are stored unclamped.** `dawValue` and, on the current bank, `value` are `int8_t`
  taking a `uint8_t`, so 200 becomes −56 and can leave the slot's range (`AdoptValue`,
  `DawValueBypassesRange`).
- **A copy in the SysEx parser is lossy.** It copies `min((uint8_t)(length - 8), 5)` name bytes.
  The `uint8_t` cast wraps, so a 264-byte name frame copies nothing (`NameLength`,
  `NameFrameOf264BytesIsEmpty`).
- **Pitch bend has no centre offset.** The signed value `map(value, 0, 127, -8192, 8191)` goes out
  as its low 14 bits. The wire word jumps from 16319 to 64 between slot values 63 and 64, and
  value 0 sends the centre word 8192 (`EncoderPitchBendOnTheWire`). This follows the code; the
  model does not correct it.
- **MIDI Time Code is reconstructed as written:**
  - piece 7 stores its whole nibble in the high nibble of `hours`;
  - it reads bits 1-2 as "running";
  - so a standard frame with rate code r yields hours = h + 32·r;
  - that frame validates only at rate code 0 (`FullFrameAsWritten`).

## Model

| member | source | states |
|---|---|---|
| Config.ToByte | EncoderManager.cpp:58 | the `uint8_t` a value converts to is congruent to it modulo 256 |
| Config.ToInt8 | EncoderManager.cpp:91 | the `int8_t` a value converts to is congruent to it modulo 256 and lies in [-128, 127] |
| Config.ByteInt8RoundTrip | EncoderManager.cpp:103-108 | `uint8_t`→`int8_t`→`uint8_t` and `int8_t`→`uint8_t`→`int8_t` lose nothing |
| Config.Inc32 | MidiManager.cpp:110 | a `uint32_t` counter's `++` adds one, wrapping 0xFFFFFFFF to 0 |
| Config.Sub32 | HardwareManager.cpp:171 | the `unsigned long` difference is the true elapsed time, also across a wrap of the clock |
| Config.CDiv | EncoderManager.cpp:67 | C integer division truncates toward zero for either sign |
| Config.RgbTo565 | Config.h:104 | the packed colour holds the top 5 bits of red, 6 of green and 5 of blue in its three fields |
| Config.DefaultEncoderConfig | Config.h:184-189 | channel 1, CC 7, absolute CC, value and DAW value 64 within [0, 127], not muted or soloed, white, name "Tr" |
| Config.DefaultAppConfig | Config.h:203-214 | brightness 100, timeout 300, bank 0, offset 0, acceleration on, channel 1, 270°, auto-save, sensitivity 5, decay 1000 |
| Config.DefaultMtcData | Config.h:225 | the time code starts at 00:00:00.00, not running |
| Config.DefaultTransportState | Config.h:233 | the transport starts stopped, not recording, not paused |
| Hardware.Xor | HardwareManager.cpp:218 | a bit of `a ^ b` is set exactly where `a` and `b` differ |
| Hardware.XorZeroIsEqual | HardwareManager.cpp:220 | `a ^ b` is zero exactly when the two snapshots are equal |
| Hardware.PinA | HardwareManager.cpp:153-160 | encoder i < 8 uses pin 2i; encoder i ≥ 8 uses pin 2i − 8 |
| Hardware.Triggered | HardwareManager.cpp:107 | processEncoder runs for encoder i exactly when the captured mask has pin A or pin B of i; its properties are stated by `HighEncodersNeverTriggered` and `UpperHalfSharesPins` |
| Hardware.Encoded | HardwareManager.cpp:162-164 | the two-bit phase code is `(MSB << 1) \| LSB` read from pins A and B; the model reads a pin outside the 16-bit port as 0, a convention for a read the scans never reach (`HighEncodersNeverTriggered`); `UpperHalfSharesPins` states the pin sharing it implies |
| Hardware.PinB | HardwareManager.cpp:153-160 | the second phase pin is the first plus one |
| Hardware.PinSet | HardwareManager.cpp:107 | `interruptPins & (1 << pin)` on the `uint16_t` mask: set only for a pin below 16 whose bit is set, so pins 16-23 are never set; `HighEncodersNeverTriggered` rests on this |
| Hardware.Level | HardwareManager.cpp:162-163 | a pin read is 0 or 1 |
| Hardware.HighEncodersNeverTriggered | HardwareManager.cpp:113-124 | no interrupt mask makes the half scans process encoders 12-15 |
| Hardware.UpperHalfSharesPins | HardwareManager.cpp:153-164 | encoders 8-11 have the pins, the trigger condition and the phase code of encoders 4-7 |
| Hardware.CalculateEncoderChange | HardwareManager.cpp:186-197 | the decoded change is −1, 0 or +1 |
| Hardware.DecodeIsGrayDirection | HardwareManager.cpp:186-197 | the table gives +1 for a step forward, −1 for a step back, 0 otherwise, on the Gray cycle 00→10→11→01 |
| Hardware.DecodeTable | HardwareManager.cpp:189-196 | the codes 13, 4, 2, 11 give +1, 14, 7, 1, 8 give −1 and the other eight give 0, in both directions |
| Hardware.DecodeAntisymmetric | HardwareManager.cpp:186-197 | reversing a transition negates it; no move and a double flip give 0 |
| Hardware.CalculateAcceleration | HardwareManager.cpp:199-205 | with acceleration on, the multiplier is 4 below 1000 µs, 2 from 1000 to 4999 µs and 1 from 5000 µs; with it off it is always 1 |
| Hardware.AccelerationMonotone | HardwareManager.cpp:199-205 | a shorter interval never gets a smaller multiplier |
| Hardware.Threshold | HardwareManager.cpp:177 | `4 / acceleration` is 4, 2 or 1 for multiplier 1, 2 or 4 |
| Hardware.AccumulateBounded | HardwareManager.cpp:175-182 | an event fires exactly when the accumulated magnitude reaches the threshold; it has the multiplier's magnitude and the sum's sign and clears the accumulator; the accumulator stays in [-3, 3] |
| Hardware.SameDirectionRun | HardwareManager.cpp:165-183 | from a clear accumulator, n same-direction transitions emit n / (4/a) events of ±a and leave n mod (4/a) |
| Hardware.RunSame | HardwareManager.cpp:165-183 | n same-direction valid steps of processEncoder at one multiplier; `SameDirectionRun` states the events and the remainder they leave |
| Hardware.StepProperties | HardwareManager.cpp:165-183 | a sample without a valid transition changes only the phase code; a valid one stamps the time; an event clears the accumulator and has the multiplier's magnitude; the accumulator stays in [-3, 3] |
| Hardware.Accumulate | HardwareManager.cpp:175-182 | one raw step is added; at 4 / multiplier in magnitude a step of the multiplier's size with the sum's sign is emitted and the accumulator cleared; `AccumulateBounded` states that an event has the multiplier's magnitude and the kept sum stays in [-3, 3] |
| Hardware.Step | HardwareManager.cpp:162-183 | the phase code is always updated to the sample; the rest of processEncoder for one sample, whose contract is `StepProperties` and `FastStepIsAccelerated` |
| Hardware.AsWrittenStoredTime | HardwareManager.h:20 | the stamp kept in the declared `uint16_t` is `micros()` modulo 65536; `AsWrittenAccelerationNeverEngages` states its consequence |
| Hardware.AsWrittenInterval | HardwareManager.cpp:171 | the interval is the unsigned long difference of the clock and the truncated stamp; `AsWrittenAccelerationNeverEngages` and `AsWrittenIntervalExample` state its consequence |
| Hardware.FastStepIsAccelerated | HardwareManager.cpp:169-182 | with a full timestamp, a valid step under 1000 µs after the last one is emitted at once as ±4 |
| Hardware.AsWrittenAccelerationNeverEngages | HardwareManager.h:20 | with the stamp stored in `uint16_t`, every interval after 70536 µs exceeds 5000 µs and the multiplier is 1 |
| Hardware.AsWrittenIntervalExample | HardwareManager.h:20 | steps 500 µs apart at t = 999500 and t = 1000000 are seen 983540 µs apart and get multiplier 1, not 4 |
| Hardware.PressEventsExact | HardwareManager.cpp:218-245 | the reported presses are exactly the bits that changed and now read low, each once, in ascending order |
| Hardware.NoChangeNoPress | HardwareManager.cpp:220 | an unchanged snapshot reports nothing |
| Hardware.PressIsFallingEdge | HardwareManager.cpp:222-224 | a press is a bit that was high and now reads low |
| Hardware.ScanPort | HardwareManager.cpp:217-230 | one port's scan reports the press events of its changed low bits, and says whether any bit changed |
| Hardware.PressEvents | HardwareManager.cpp:221-243 | the press events of one port, one per changed bit that now reads low, in ascending bit order; `PressEventsExact` and `NoChangeNoPress` state this for every input |
| Hardware.PressedBit | HardwareManager.cpp:222-223 | a bit reports a press when it changed and now reads low; `PressIsFallingEdge` states that this is a high-to-low change |
| Hardware.NavButtonFiresOnConfirmedPress | HardwareManager.cpp:281-296 | the navigation button fires only when a raw "pressed" level has held for more than 50 ms and differs from the stable state; a confirmed release only updates the stable state |
| Hardware.ScanChannelsPointwise | HardwareManager.cpp:100-150 | after a half scan, each encoder of the range whose pins interrupted has taken one step; every other encoder is unchanged |
| Hardware.ScanKeepsAccumulatorsSmall | HardwareManager.cpp:100-150 | a half scan keeps every accumulator in [-3, 3] |
| Hardware.ScanEventsFromTriggered | HardwareManager.cpp:100-150 | a half scan reports only encoders of its range whose pins interrupted, in ascending order |
| Hardware.HardwareManager.constructor | HardwareManager.cpp:11-19 | every channel, snapshot, stamp and button state starts at zero, and no event has fired |
| Hardware.HardwareManager.ProcessEncoder | HardwareManager.cpp:152-184 | the encoder's channel becomes its `Step` on the sampled phase code; other channels stay; the emitted event, if any, is appended |
| Hardware.HardwareManager.ProcessEncoderHalf | HardwareManager.cpp:100-150 | the channels and events after the loop are `ScanChannels`/`ScanEvents` of the channels before it |
| Hardware.HardwareManager.PollSwitchesAndButtons | HardwareManager.cpp:207-246 | within 50 ms nothing changes; otherwise the switch presses (bits 0-15) and then the button presses (bits 0-4) are appended, and both snapshots and the poll time are stored |
| Hardware.HardwareManager.ReadNavigationEncoder | HardwareManager.cpp:248-297 | within 2 ms nothing changes; otherwise the navigation encoder takes a `Step` on pins 8/9 and the button a `DebounceNav` on pin 10 (low = pressed); their events are appended |
| Hardware.DebounceNav | HardwareManager.cpp:281-296 | the navigation button's debounce for one sample; `NavButtonFiresOnConfirmedPress` states when it fires |
| Hardware.HardwareManager.NavEncoderSample | HardwareManager.cpp:258-279 | the navigation encoder's channel becomes its `Step` on the sample and the step's event, if any, is appended |
| Hardware.HardwareManager.NavButtonSample | HardwareManager.cpp:281-296 | the navigation button becomes its `DebounceNav` on the sample and a press event is appended exactly when it fires |
| Hardware.ScanChannels | HardwareManager.cpp:100-150 | the channels after one half scan keep their number; `ScanChannelsPointwise` and `ScanKeepsAccumulatorsSmall` state that each triggered encoder takes one `Step` and the others are unchanged |
| Hardware.ScanEvents | HardwareManager.cpp:100-150 | the events of one half scan in encoder order; `ScanEventsFromTriggered` states they come only from triggered encoders, ascending |
| Hardware.HardwareManager.CalibrateEncoders | HardwareManager.cpp:391-403 | every main and navigation accumulator, phase code and stamp is zero |
| Encoders.Constrain | EncoderManager.cpp:54 | for an ordered range, `constrain` returns the point of the range nearest the input; for an inverted range, lo below lo and hi otherwise |
| Encoders.PitchBendFromValue | EncoderManager.cpp:67 | value 0 maps to −8192 and 127 to 8191, and 0-127 stays within [-8192, 8191] |
| Encoders.PitchBendRange | EncoderManager.cpp:67 | the mapped value fits `int16_t` for every `int8_t` slot value |
| Encoders.PitchBendMonotone | EncoderManager.cpp:67 | turning a slot up never lowers its pitch bend |
| Encoders.Turn | EncoderManager.cpp:53-54 | only the value changes; it stays in an ordered range; it moves in the change's direction by at most the change; it moves by exactly the change when the result is in range |
| Encoders.TurnCall | EncoderManager.cpp:56-69 | control type 0 sends CC, 1 note-on (turning up) or note-off, 2 pitch bend, 3 nothing, on the slot's channel |
| Encoders.TurnCallCarriesValue | EncoderManager.cpp:56-69 | CC and note-on carry the controller and the new value, note-off carries velocity 0, pitch bend the mapped value |
| Encoders.TurnAtLimit | EncoderManager.cpp:54 | turning further into a limit the value already sits at changes nothing |
| Encoders.SwitchTrack | EncoderManager.cpp:74-81 | switch i addresses track i mod 8 |
| Encoders.Press | EncoderManager.cpp:77-83 | switches 0-7 flip mute, 8-15 flip solo; nothing else in the slot changes |
| Encoders.PressCall | EncoderManager.cpp:78-84 | the report is a CC on the slot's channel: controller exactly 120+track for mute switches 0-7 and 110+track for solo switches 8-15, value 127 exactly when the flag is now set and 0 otherwise |
| Encoders.PressTwiceRestores | EncoderManager.cpp:77-83 | pressing the same switch twice restores the slot |
| Encoders.DawValueOf | EncoderManager.cpp:103-108 | the byte read back is the stored `int8_t` DAW value seen as `uint8_t` |
| Encoders.SyncSlot | EncoderManager.cpp:89-94 | the DAW value reads back as given and the colour is stored; nothing else changes |
| Encoders.SetDawValue | EncoderManager.cpp:96-100 | the DAW value reads back as given; nothing else changes |
| Encoders.AdoptValue | EncoderManager.cpp:162 | the local value becomes the DAW byte reinterpreted as `int8_t`, unclamped; nothing else changes |
| Encoders.DawValueBypassesRange | EncoderManager.cpp:162 | a default slot given DAW value 200 holds −56, outside its range [0, 127] |
| Encoders.CString | EncoderManager.cpp:113 | the C string of a buffer is its longest NUL-free prefix |
| Encoders.StoredName | EncoderManager.cpp:113-114 | the stored name is exactly the first min(length, `cap`) characters of the C string: the whole of it when it fits, otherwise its first `cap` characters |
| Encoders.DefaultTable | EncoderManager.cpp:8-16 | every slot of every bank is the default slot |
| Encoders.Write | EncoderManager.cpp:53 | writing slot (bank, index) sets that slot and no other: banks are independent |
| Encoders.AsWrittenWrite | EncoderManager.h:9 | a store through `encoderBanks[bank][index]` into the declared [16][4] array lands in flat cell 4·bank + index |
| Encoders.AsWrittenCell | EncoderManager.h:9 | `encoderBanks[bank][index]` in the declared [16][4] array is flat cell 4·bank + index; `AsWrittenSlotsAlias` states the cross-bank aliasing this gives |
| Encoders.AsWrittenSlotsAlias | EncoderManager.h:9 | with the declared shape, track 0 of bank 1 is track 4 of bank 0, and track i ≥ 4 of bank b is track i−4 of bank b+1 |
| Encoders.EncoderManager.constructor | EncoderManager.cpp:8-16 | all slots default, acceleration on, bank 0, no calls made |
| Encoders.EncoderManager.Initialize | EncoderManager.cpp:20-25 | the acceleration flag and current bank come from the application config, and it succeeds |
| Encoders.EncoderManager.SetCurrentBank | EncoderManager.cpp:27-29 | any byte is stored as the bank, unchecked |
| Encoders.EncoderManager.GetEncoderConfig | EncoderManager.cpp:31-36 | the slot when in range, otherwise a default slot |
| Encoders.EncoderManager.StoreThroughMutable | EncoderManager.cpp:38-44 | a store through the returned reference writes the slot when in range, otherwise only the shared dummy |
| Encoders.EncoderManager.WriteSlot | EncoderManager.cpp:53 | the table becomes `Write` of the old table |
| Encoders.EncoderManager.ProcessEncoderChange | EncoderManager.cpp:50-71 | out of range nothing happens; otherwise the slot becomes its `Turn`, and its `TurnCall` (if any) is recorded |
| Encoders.EncoderManager.ProcessSwitchPress | EncoderManager.cpp:73-87 | for switches 0-15 the addressed track's slot becomes its `Press`, and its `PressCall` (CC 120+track for mute, 110+track for solo) is recorded; otherwise nothing happens |
| Encoders.EncoderManager.SyncFromDAW | EncoderManager.cpp:89-94 | an in-range slot takes the DAW value and colour; nothing else changes |
| Encoders.EncoderManager.SetEncoderDAWValue | EncoderManager.cpp:96-100 | an in-range slot takes the DAW value; nothing else changes |
| Encoders.EncoderManager.GetEncoderDAWValue | EncoderManager.cpp:103-108 | the stored DAW value as `uint8_t` when in range, 0 otherwise |
| Encoders.EncoderManager.SyncNameFromDAW | EncoderManager.cpp:111-128 | an in-range slot with a non-null name takes up to 4 characters of it, and the track is marked dirty on the current bank |
| Encoders.EncoderManager.ResetEncoderConfig | EncoderManager.cpp:130-134 | an in-range slot returns to its defaults; nothing else changes |
| Encoders.EncoderManager.ResetAllBanks | EncoderManager.cpp:136-142 | the whole table is the default table |
| Encoders.EncoderManager.GetEncoderAcceleration | EncoderManager.cpp:144-146 | the stored acceleration flag |
| Encoders.EncoderManager.SetEncoderAcceleration | EncoderManager.cpp:148-150 | the acceleration flag becomes the argument |
| Encoders.EncoderManager.UpdateFromDAW | EncoderManager.cpp:152-183 | DAW value and colour are stored; on the current bank the local value takes the DAW byte unclamped, and the track is marked dirty (twice for tracks 0-7); no MIDI is sent |
| Encoders.EncoderManager.UpdateValueFromDAW | EncoderManager.cpp:186-205 | the DAW value is stored; on the current bank the local value takes it unclamped and the track is marked dirty once |
| Encoders.EncoderManager.UpdateColorFromDAW | EncoderManager.cpp:208-225 | the colour is stored; on the current bank the track is marked dirty once |
| Encoders.EncoderManager.UpdateVULevel | EncoderManager.cpp:228-240 | a level for tracks 0-15 is forwarded to the display; nothing else |
| Encoders.EncoderManager.UpdateTrackName | EncoderManager.cpp:242-247 | an in-range slot with a non-null name takes up to 3 characters of it; nothing is marked dirty |
| Midi.StatusByte | MidiManager.cpp:69 | for a type nibble and a channel 1-16, the status byte has that high nibble and channel − 1 as its low nibble |
| Midi.MessageType | MidiManager.cpp:272 | the decoded message type is a nibble |
| Midi.ChannelOf | MidiManager.cpp:273 | the decoded channel is 1-16 |
| Midi.Serialize | MidiManager.cpp:67-107 | channel-voice kinds give 3 bytes carrying both data bytes; SysEx gives the first `length` payload bytes; realtime gives one byte; unknown kinds give nothing |
| Midi.StatusRoundTrip | MidiManager.cpp:271-281 | decoding a built status byte gives back its type nibble and channel |
| Midi.SerializeVoiceDecodes | MidiManager.cpp:67-98 | a serialised CC, note-on, note-off or pitch bend decodes as MIDI type 0xB, 0x9, 0x8, 0xE on the message's channel |
| Midi.PitchBendBytes | MidiManager.cpp:177-180 | both data bytes are 7-bit, and together, LSB first, they are the value modulo 16384 |
| Midi.EncoderPitchBendOnTheWire | MidiManager.cpp:177-180 | slot values 0, 63, 64, 127 put 8192, 16319, 64, 8191 on the wire |
| Midi.RealTimeTransport | MidiManager.cpp:283-300 | Start and Continue play and unpause, Stop stops and unpauses, anything else changes nothing; recording is never touched |
| Midi.SystemTransport | MidiManager.cpp:501-527 | Timing Clock sets playing, System Reset clears everything, the rest as the realtime handler |
| Midi.RealTimeIdempotent | MidiManager.cpp:283-300 | repeating a realtime command changes nothing more |
| Midi.Cin | MidiManager.cpp:245 | the Code Index Number is a nibble |
| Midi.RouteOf | MidiManager.cpp:241-269 | channel-voice CINs (8-E) go to the channel handler with the three bytes; CIN F with status ≥ 0xF8 goes to the realtime handler; the rest are dropped (both directions) |
| Midi.Deliver | MidiManager.cpp:241-269 | only realtime packets change the transport, as the realtime handler does |
| Midi.DeliverAllKeepsRecording | MidiManager.cpp:47-59 | no sequence of inbound packets sets or clears recording |
| Midi.DeliverAll | MidiManager.cpp:47-59 | the transport after a sequence of inbound packets, each `Deliver`ed in order; `DeliverAllKeepsRecording` states what no sequence can change |
| Midi.IncBy | MidiManager.cpp:53 | n increments add n while no wrap occurs |
| Midi.PieceType | MidiManager.cpp:303 | the piece type is 0-7 |
| Midi.PieceValue | MidiManager.cpp:304 | the piece value is a nibble |
| Midi.QuarterFrameWritesOneNibble | MidiManager.cpp:306-318 | an even piece writes the low nibble and an odd piece the high nibble of its one field; piece 7 also sets running from bits 1-2; nothing else changes |
| Midi.ApplyQuarterFrame | MidiManager.cpp:306-318 | the time code after one quarter-frame byte; its contract is `QuarterFrameWritesOneNibble`, and `FullFrameAsWritten` states what a full frame of eight gives |
| Midi.StandardQuarterFrames | MidiManager.cpp:302-326 | the standard eight quarter frames carry piece types 0-7 in order |
| Midi.FullFrameAsWritten | MidiManager.cpp:302-342 | after a full frame, frames, seconds and minutes are right, hours is h + 32·rate, running is rate ≠ 0, and the time code validates exactly at rate code 0 |
| Midi.ApplyAll | MidiManager.cpp:306-318 | a sequence of quarter-frame bytes applied in order; `FullFrameAsWritten` states what a standard full frame gives |
| Midi.ValidMtcData | MidiManager.cpp:337-342 | the time code validates when frames < 30, seconds < 60, minutes < 60 and hours < 24; `FullFrameAsWritten` and `ReconstructMtcTime` state its use |
| Midi.Rgb24ToRgb565 | MidiManager.cpp:344-349 | the conversion is `RGB_TO_565` of the three bytes of 0xRRGGBB |
| Midi.Rgb565ToRgb24 | MidiManager.cpp:351-356 | the widened colour has zero low bits in each channel and zero top byte |
| Midi.RgbDownUp | MidiManager.cpp:344-356 | down then up keeps exactly the top 5/6/5 bits of each channel |
| Midi.RgbUpDown | MidiManager.cpp:344-356 | up then down loses nothing |
| Midi.Rgb24Of | MidiManager.cpp:435 | the three colour bytes are the three channel bytes of the 24-bit value |
| Midi.NameLength | MidiManager.cpp:459 | at most 5 name bytes are copied, never past the frame; all of them for frames up to 13 bytes, exactly 5 for 13 to 263 bytes, and, because the `uint8_t` length wraps, length − 264 for 264 to 268 bytes |
| Midi.NameFrameOf264BytesIsEmpty | MidiManager.cpp:456-462 | a 264-byte Studio One name frame syncs an empty name, because the `uint8_t` length wraps to 0 |
| Midi.StudioOneActions | MidiManager.cpp:423-484 | frames under 8 bytes or without the F0 00 21 7B prefix are ignored; a known type long enough gives its callbacks (two for type 6), else none; a value frame gives `SyncValue`, a VU frame `VuLevel(track, level)`, a transport frame `TransportUpdate`, a name frame `SyncName` with `NameLength` bytes, and a combined frame `SyncValue` then `SyncColor`, each with the frame's own bytes |
| Midi.IsStudioOneFrame | MidiManager.cpp:424 | a frame is processed only with at least 8 bytes and the prefix F0 00 21 7B; `StudioOneActions` states that every other frame is ignored |
| Midi.MinimumLength | MidiManager.cpp:434-472 | the length guard of each known message type: 11 for colour, 9 for value, VU and name, 8 for transport, 12 for value and colour; `StudioOneActions` states that a frame acts exactly when it meets its type's guard |
| Midi.ColorUpdateRoundTrip | MidiManager.cpp:433-440 | a colour update carries the track, the bank and an RGB565 that widens back to the sent bytes' top 5/6/5 bits |
| Midi.StudioOneRequest | MidiManager.cpp:201-219 | a request is the 8-byte frame F0 00 21 7B type track bank F7 |
| Midi.Push | MidiManager.cpp:114-129 | below capacity the message is appended; at capacity the queue stays and one error is counted |
| Midi.Offer | MidiManager.cpp:180-182 | the queue as `Push`; a refusal costs a second error through the log |
| Midi.OfferAllQueuesPrefix | MidiManager.cpp:114-129 | offering messages in order queues them up to capacity and drops the rest |
| Midi.OfferAll | MidiManager.cpp:150-156 | repeated valid `send*` calls, each an `Offer` in order; `OfferAllQueuesPrefix` states the queue they leave |
| Midi.FillFromEmpty | MidiManager.cpp:115-117 | an empty queue takes exactly 31 messages |
| Midi.OfferControlChange | MidiManager.cpp:150-156 | an invalid channel or controller changes nothing; otherwise the CC is offered |
| Midi.IsValidMidiChannel | MidiManager.cpp:403-405 | the senders accept channels 1 to 16 only; `OfferControlChange` and the `send*` methods state that any other channel changes nothing |
| Midi.IsValidNumber | MidiManager.cpp:407-413 | controllers and notes must be at most 127; `OfferControlChange` and the `send*` methods state that any other number changes nothing |
| Midi.TestRow | MidiManager.cpp:389-391 | a row is three CCs of one controller on one channel |
| Midi.TestRowsBelow | MidiManager.cpp:387-393 | the test rows are CCs on the given channel for controllers 7 up to the bound |
| Midi.TestRowsLength | MidiManager.cpp:388-392 | the full test sequence is 24 messages |
| Midi.OfferRowAppends | MidiManager.cpp:389-391 | offering one row call by call is offering it as a sequence |
| Midi.OfferRow | MidiManager.cpp:389-391 | the three `sendControlChange` calls of one test row, values 0, 127, 64; `OfferRowAppends` states that it offers `TestRow` in order |
| Midi.Count | MidiManager.cpp:62 | the ring holds at most 31 messages, and none exactly when head equals tail |
| Midi.Slot | MidiManager.cpp:64 | the ring index of a queued message is a buffer index |
| Midi.NextIndex | MidiManager.cpp:115 | advancing an index wraps from 31 to 0 |
| Midi.RingFull | MidiManager.cpp:115-117 | the full test holds exactly when 31 messages are queued |
| Midi.RingPush | MidiManager.cpp:122-127 | storing at head and advancing it appends one message and leaves the queued slots alone |
| Midi.RingPop | MidiManager.cpp:109 | advancing tail drops the oldest message and keeps the others in order |
| Midi.MidiManager.constructor | MidiManager.cpp:12-22 | channel 1, MTC sync on, timebase invalid, counters and times zero, thru off, auto-response on, time code and transport clear, queue empty |
| Midi.MidiManager.Initialize | MidiManager.cpp:28-39 | the channel is taken as given and the queue is emptied |
| Midi.MidiManager.SetMidiChannel | MidiManager.cpp:41-45 | only channels 1-16 are taken |
| Midi.MidiManager.IsMtcSynced | MidiManager.h:104 | synced exactly when sync is on and the timebase is valid |
| Midi.MidiManager.EnqueueMidiMessage | MidiManager.cpp:114-129 | succeeds exactly when fewer than 31 are queued; the queue becomes `Push` of the old one |
| Midi.MidiManager.EnqueueSysExMessage | MidiManager.cpp:131-148 | over 16 bytes, one error; otherwise `Push` of a length-only entry; on success the shared buffer starts with the payload |
| Midi.MidiManager.ProcessMidiOutput | MidiManager.cpp:61-112 | an empty queue does nothing; otherwise the oldest message is removed and counted, and, when its kind is one the switch lists, serialised to the wire with the shared buffer's current contents |
| Midi.MidiManager.OfferMessage | MidiManager.cpp:150-156 | the queue becomes `Offer` of the old one |
| Midi.MidiManager.SendControlChange | MidiManager.cpp:150-156 | the queue becomes `OfferControlChange` of the old one |
| Midi.MidiManager.SendNoteOn | MidiManager.cpp:158-164 | an invalid channel or note changes nothing; otherwise a note-on is offered |
| Midi.MidiManager.SendNoteOff | MidiManager.cpp:166-172 | an invalid channel or note changes nothing; otherwise a note-off is offered |
| Midi.MidiManager.SendPitchBend | MidiManager.cpp:174-183 | an invalid channel changes nothing; otherwise a pitch bend with `PitchBendBytes` is offered |
| Midi.MidiManager.SendTransportCommand | MidiManager.cpp:185-189 | the command byte is offered as a realtime message, unvalidated |
| Midi.MidiManager.SendJogWheel | MidiManager.cpp:191-194 | CC 60 for a positive direction and 61 otherwise, value \|direction\|, on the current channel |
| Midi.MidiManager.SendAllNotesOff | MidiManager.cpp:196-199 | CC 123 value 0 on a valid channel, else nothing |
| Midi.MidiManager.OfferSysEx | MidiManager.cpp:221-225 | as `EnqueueSysExMessage`, with a refusal costing a second error |
| Midi.MidiManager.SendStudioOneColorRequest | MidiManager.cpp:201-209 | an 8-byte SysEx entry is offered, and on success the shared buffer holds the colour request |
| Midi.MidiManager.SendStudioOneValueRequest | MidiManager.cpp:211-219 | an 8-byte SysEx entry is offered, and on success the shared buffer holds the value request |
| Midi.MidiManager.SendCustomSysEx | MidiManager.cpp:221-225 | as `OfferSysEx` for the caller's bytes; on refusal (too long, or the queue full) the SysEx buffer is unchanged |
| Midi.MidiManager.SharedSysExPayload | MidiManager.cpp:144-145 | a colour request and a value request queued before a drain both go out as the value request |
| Midi.MidiManager.TestMidiConnection | MidiManager.cpp:382-385 | CC 7 value 64 on the current channel, and it reports success |
| Midi.MidiManager.SendTestRow | MidiManager.cpp:389-391 | the queue becomes `OfferRow` of the old one |
| Midi.MidiManager.SendTestSequence | MidiManager.cpp:387-393 | on a valid channel, the queue becomes the old one with the 24 test messages offered in order; otherwise it does not change |
| Midi.MidiManager.ProcessRealTimeMessage | MidiManager.cpp:283-300 | the transport becomes `RealTimeTransport` of the old one |
| Midi.MidiManager.ProcessUsbMidiPacket | MidiManager.cpp:241-269 | a null packet is ignored; otherwise the transport becomes `Deliver` of the old one |
| Midi.MidiManager.ProcessMidiInput | MidiManager.cpp:47-59 | each packet is counted, stamps the activity time and is delivered in order |
| Midi.MidiManager.ReconstructMtcTime | MidiManager.cpp:328-335 | the timebase is valid exactly when the time code validates; a failure counts one error |
| Midi.MidiManager.UpdateMtcFromQuarterFrame | MidiManager.cpp:302-326 | the time code becomes `ApplyQuarterFrame` of the old one, the piece type and time are remembered, and piece 7 re-validates |
| Midi.MidiManager.ResetMtcTimebase | MidiManager.cpp:358-362 | time code clear, piece 0, timebase invalid |
| Midi.MidiManager.ProcessSystemMessage | MidiManager.cpp:486-530 | 0xF1 updates the time code and is counted; clock/start/continue/stop drive the transport; 0xFE stamps activity; 0xFF clears time code and transport; nothing else changes |
| Midi.MidiManager.ResetStatistics | MidiManager.cpp:374-380 | the five counters are zero |
| Midi.MidiManager.ProcessStudioOneMessage | MidiManager.cpp:423-484 | an ignored frame changes nothing; any other frame appends its `StudioOneActions` callbacks and is counted |
| Midi.MidiManager.SetMidiThru | MidiManager.cpp:395-397 | the thru flag becomes the argument |
| Midi.MidiManager.SetSysExAutoResponse | MidiManager.cpp:399-401 | the auto-response flag becomes the argument |
| Midi.MidiManager.EnableMtcSync | MidiManager.h:106 | the sync flag becomes the argument |

## Left out

- **MCP23017 and I2C:** bring-up, health checks, reset, interrupt clearing and diagnostics are not
  modelled (`initialize`, `initializeMCP`, `configure*MCP`, `setupInterrupts`,
  `validateMCPResponse*`, `handleMCPError`, `checkMCPHealth`, `resetMCPs`, `clearAllInterrupts`,
  `testAllMCPs`, `printDiagnostics`). They are bus and Serial I/O. The pin snapshots and
  interrupt masks they would deliver are parameters.
- **Interrupts:** the handlers and their `volatile` flags are left out. Each half scan is modelled
  as one call, on one pin snapshot and one clock reading (see `ProcessEncoderHalf` below).
- **USB and Serial:** `tud_midi_*` is not modelled; each stream write is recorded in `wire`. All
  Serial printing is left out, including `printMidiStatistics` and the body of `logMidiError`
  other than its error count.
- **`processMidiInput`:** the packets available are a parameter, read at a single `millis()`.
- **`processMidiMessage`:** it only decodes type and channel for the log. The model keeps the
  decoding (`MessageType`, `ChannelOf`) and drops the log.
- **`processTransportState` and `processSysExMessage`:** they are declared but not defined in the
  source files. The Studio One transport message is recorded as a `TransportUpdate` action.
- **The DAW callbacks:** the targets of `syncEncoder*FromDAW` and `updateVUMeterLevel` are defined
  outside these files. They are recorded as `DawAction`s.
- **The display manager:** its calls are recorded as `DisplayCall`s; the display itself is not
  part of this model.
- **`midiThruEnabled` and `sysExAutoResponse`:** they are stored only, because nothing in the core
  reads them.
- **`incrementMessageCount` and `updateLastActivityTime`:** these one-line helpers
  (MidiManager.h:121-122) are called from the read loop (MidiManager.cpp:53-54). They are inlined
  into `ProcessMidiInput` rather than modelled as members of their own. `ProcessMidiOutput` stamps
  `lastActivityTime` itself, as the source does (MidiManager.cpp:111).
- **`tud_midi_rx_cb` and `getInstance`:** the USB receive callback (MidiManager.cpp:227-239) runs
  the same read loop as `processMidiInput` on the singleton instance, so `ProcessMidiInput` models
  it. The singleton accessor `getInstance` is not modelled.
- **`getEncoderBanks`:** it returns a raw pointer to the table, so it is left out. Callers'
  accesses are modelled through `GetEncoderConfig` and `StoreThroughMutable`.
- **`getEncoderConfigMutable`:** it returns a reference. It is modelled only as the assignment made
  through it (`StoreThroughMutable`), not as an alias kept by the caller.
- **Track names:** the model keeps the name as the text the firmware means to store, at most 4 or
  3 characters. `trackName` is declared `char[3]`, so the 5-byte copy in `syncNameFromDAW` and the
  4-byte copy in `updateTrackName` write past the field; that overflow is not modelled. With GCC's
  usual layout `EncoderConfig` is 14 bytes with `trackName` at offset 10, so `syncNameFromDAW`'s
  terminator `trackName[4] = '\0'` would land on the first byte of the next slot in the array and
  zero its `channel` bits, after which that slot's encoder sends nothing; `updateTrackName`'s
  `trackName[3]` lands in padding.
  `EncoderConfig` keeps the name as a sequence.
- **Other firmware files:** `MenuManager`, `FileManager`, `SystemManager` and `Strings.h` are not
  part of this model.
- **`Hardware.HardwareManager.ProcessEncoderHalf`:** both MCPs drive the same channel state, as in
  the source, which passes an MCP index it never uses. The four `processMCP*Encoders` functions
  are one method, parameterised by the first encoder and the port snapshot. The method takes one
  pin snapshot and one `micros()` value for the whole half, whereas the source makes two
  `digitalRead`s and one `micros()` call per processed encoder (HardwareManager.cpp:162-163, :170).
  Pins that change, or time that passes, between encoders of one scan are not modelled.
- **`Encoders.EncoderManager` table:** the class stores the table as the intended independent
  bank × track `array2`. The declared `[16][4]` layout, with its cross-bank aliasing, is modelled
  by `AsWrittenWrite`/`AsWrittenSlotsAlias` (see Findings).
- **`Hardware.HardwareManager` stamps:** the class keeps the full 32-bit `micros()` stamp. The
  truncation of the declared `uint16_t` is modelled by `AsWrittenStoredTime`/`AsWrittenInterval`
  (see Findings).
- **`Midi.StudioOneActions`:** a frame of 64 KiB or more is excluded. The source's `uint16_t`
  length cannot describe one.

## Findings

| source | as written | input that shows it | evidently intended | confidence | as-written member | corrected member |
|---|---|---|---|---|---|---|
| EncoderManager.h:9 | `EncoderConfig encoderBanks[NUM_ENCODERS][NUM_BANKS]` (16 rows of 4) is indexed `[bank][index]` with index up to 15, so slot (bank, index) is flat cell 4·bank + index and banks overlap | a store to bank 1, track 0 is read back as bank 0, track 4 | four independent banks of sixteen slots (`[NUM_BANKS][NUM_ENCODERS]`) | high (not executed) | Encoders.AsWrittenSlotsAlias | Encoders.Write |
| HardwareManager.h:20 | `uint16_t lastEncoderTime[NUM_ENCODERS]` stores `micros()` truncated to 16 bits, and `micros() - lastEncoderTime[i]` compares it with the full 32-bit clock | steps 500 µs apart at t = 999500 µs and t = 1000000 µs are seen 983540 µs apart, so the multiplier is 1 instead of 4; after 70536 µs it is always 1 | a full-width stamp, so that the measured interval is the true one | high (not executed) | Hardware.AsWrittenIntervalExample | Hardware.FastStepIsAccelerated |
