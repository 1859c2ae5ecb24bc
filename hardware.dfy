/**
 * Input decoder: quadrature decoding with acceleration for the 16 main encoders and
 * the navigation encoder, sampling of the 16 switches and 5 buttons, and the
 * time-confirmed navigation button. Bus reads arrive as 16-bit pin snapshots,
 * `millis()`/`micros()` as parameters, and the callbacks (`onEncoderChange`, ...)
 * as events appended to a list.
 */
module Hardware {
  import opened Config
  import opened Wrappers

  // ================================================================ pins and bits

  /**
   * A 16-bit register of one MCP23017 (GPIOAB snapshot or interrupt-flag mask),
   * bit `i` being pin `i`: the uint16_t the firmware reads, as its 16 bits.
   */
  type Port = s: seq<bool> | |s| == 16 witness NoPins()

  /** The register with every bit clear (`0`). */
  function NoPins(): (p: seq<bool>)
    ensures |p| == 16 && forall i :: 0 <= i < 16 ==> !p[i]
  {
    seq(16, _ => false)
  }

  /** Bit `i` of a register: `x & (1 << i)`. */
  predicate Bit(x: Port, i: nat)
    requires i < 16
  {
    x[i]
  }

  /** `a ^ b`: the bits in which two registers differ. */
  function Xor(a: Port, b: Port): (c: Port)
    ensures forall i :: 0 <= i < 16 ==> (Bit(c, i) <==> Bit(a, i) != Bit(b, i))
  {
    seq(16, i requires 0 <= i < 16 => a[i] != b[i])
  }

  /** `a ^ b` is zero exactly when the registers are equal. */
  lemma XorZeroIsEqual(a: Port, b: Port)
    ensures Xor(a, b) == NoPins() <==> a == b
  {
    if Xor(a, b) == NoPins() {
      assert forall i :: 0 <= i < 16 ==> a[i] == b[i] by {
        forall i | 0 <= i < 16
          ensures a[i] == b[i]
        {
          assert !Xor(a, b)[i];
        }
      }
    }
  }

  /** First pin (MSB phase) of encoder `i`, as the half scans and processEncoder compute it. */
  function PinA(i: nat): (p: nat)
    ensures i < 8 ==> p == 2 * i
    ensures i >= 8 ==> p == 2 * i - 8
  {
    if i < 8 then i * 2 else (i - 8) * 2 + 8
  }

  /** Second pin (LSB phase) of encoder `i`. */
  function PinB(i: nat): (p: nat)
    ensures p == PinA(i) + 1
  {
    if i < 8 then i * 2 + 1 else (i - 8) * 2 + 9
  }

  /** `mask & (1 << pin)` on a uint16_t mask: a pin beyond bit 15 is never set. */
  predicate PinSet(mask: Port, pin: nat) {
    pin < 16 && Bit(mask, pin)
  }

  /** The half scans call processEncoder for encoder `i` exactly when one of its pins interrupted. */
  predicate Triggered(mask: Port, i: nat) {
    PinSet(mask, PinA(i)) || PinSet(mask, PinB(i))
  }

  /** `digitalRead(pin)` against a port snapshot (a pin the port does not have reads 0). */
  function Level(levels: Port, pin: nat): (v: uint2)
    ensures v <= 1
  {
    if pin < 16 && Bit(levels, pin) then 1 else 0
  }

  /** `(MSB << 1) | LSB` for encoder `i`. */
  function Encoded(levels: Port, i: nat): uint2 {
    2 * Level(levels, PinA(i)) + Level(levels, PinB(i))
  }

  /** Encoders 12-15 compute pins 16-23, which a 16-pin port does not have: no mask triggers them. */
  lemma HighEncodersNeverTriggered(mask: Port, i: nat)
    requires 12 <= i < NUM_ENCODERS
    ensures !Triggered(mask, i)
  {
  }

  /** Encoders 8-11 are wired by the formula to the same pins as encoders 4-7. */
  lemma UpperHalfSharesPins(mask: Port, levels: Port, i: nat)
    requires 8 <= i < 12
    ensures PinA(i) == PinA(i - 4) && PinB(i) == PinB(i - 4)
    ensures Triggered(mask, i) == Triggered(mask, i - 4)
    ensures Encoded(levels, i) == Encoded(levels, i - 4)
  {
  }

  // ================================================================ quadrature decode

  /** calculateEncoderChange: direction of the transition coded `(last << 2) | new`. */
  function CalculateEncoderChange(encoded: uint2, lastEncoded: uint2): (r: int)
    ensures -1 <= r <= 1
  {
    var sum := lastEncoded * 4 + encoded;
    // 1101, 0100, 0010, 1011 forward; 1110, 0111, 0001, 1000 backward
    if sum == 13 || sum == 4 || sum == 2 || sum == 11 then 1
    else if sum == 14 || sum == 7 || sum == 1 || sum == 8 then -1
    else 0
  }

  /**
   * Independent reference: the position of a phase code on the Gray cycle
   * 00 -> 10 -> 11 -> 01 -> 00 that the encoder walks when turned forward.
   */
  function GrayPosition(code: uint2): (p: uint2) {
    match code
    case 0 => 0
    case 2 => 1
    case 3 => 2
    case 1 => 3
  }

  /** One position forward on the Gray cycle is +1, one back is -1, anything else is 0. */
  function GrayDirection(last: uint2, next: uint2): int {
    if GrayPosition(next) == (GrayPosition(last) + 1) % 4 then 1
    else if GrayPosition(next) == (GrayPosition(last) + 3) % 4 then -1
    else 0
  }

  /** The decode table is exactly the Gray-cycle direction. */
  lemma DecodeIsGrayDirection(last: uint2, next: uint2)
    ensures CalculateEncoderChange(next, last) == GrayDirection(last, next)
  {
  }

  /** The table names eight transitions: four forward, four backward. */
  lemma DecodeTable(last: uint2, next: uint2)
    ensures var code := last * 4 + next;
      (CalculateEncoderChange(next, last) == 1 <==> code in {13, 4, 2, 11}) &&
      (CalculateEncoderChange(next, last) == -1 <==> code in {14, 7, 1, 8}) &&
      (CalculateEncoderChange(next, last) == 0 <==> code in {0, 3, 5, 6, 9, 10, 12, 15})
  {
  }

  /** Reversing a transition reverses its direction; no move and a double bit flip count 0. */
  lemma DecodeAntisymmetric(last: uint2, next: uint2)
    ensures CalculateEncoderChange(next, last) == -CalculateEncoderChange(last, next)
    ensures CalculateEncoderChange(last, last) == 0
    ensures CalculateEncoderChange(3 - last, last) == 0
  {
  }

  // ================================================================ acceleration and accumulation

  predicate IsMultiplier(a: int) {
    a == 1 || a == 2 || a == 4
  }

  /** calculateAcceleration: multiplier from the time between steps, in microseconds. */
  function CalculateAcceleration(timeDiff: uint32, accelerationEnabled: bool): (a: int)
    ensures IsMultiplier(a)
    ensures !accelerationEnabled ==> a == 1
    ensures accelerationEnabled && timeDiff < 1000 ==> a == 4
    ensures accelerationEnabled && 1000 <= timeDiff < 5000 ==> a == 2
    ensures accelerationEnabled && 5000 <= timeDiff ==> a == 1
  {
    if !accelerationEnabled then 1
    else if timeDiff < 1000 then 4
    else if timeDiff < 5000 then 2
    else 1
  }

  /** Faster rotation never gets a smaller multiplier. */
  lemma AccelerationMonotone(t1: uint32, t2: uint32, enabled: bool)
    requires t1 <= t2
    ensures CalculateAcceleration(t1, enabled) >= CalculateAcceleration(t2, enabled)
  {
  }

  function Abs(x: int): nat {
    if x < 0 then -x else x
  }

  /** The accumulator threshold `4 / acceleration` of processEncoder. */
  function Threshold(a: int): (t: nat)
    requires IsMultiplier(a)
    ensures a == 1 ==> t == 4
    ensures a == 2 ==> t == 2
    ensures a == 4 ==> t == 1
  {
    4 / a
  }

  datatype Accumulated = Accumulated(acc: int, emitted: Option<int>)

  /**
   * Add one raw step to the accumulator; once its magnitude reaches `4 / a`, emit
   * a step of magnitude `a` with the accumulator's sign and clear it.
   */
  function Accumulate(acc: int, change: int, a: int): (r: Accumulated)
    requires IsMultiplier(a)
  {
    var next := acc + change;
    if Abs(next) >= Threshold(a) then Accumulated(0, Some(if next > 0 then a else -a))
    else Accumulated(next, None)
  }

  /**
   * An emitted step has magnitude `a`, the sign of the sum, and clears the
   * accumulator; a kept sum is below the threshold, so the accumulator never
   * leaves [-3, 3].
   */
  lemma AccumulateBounded(acc: int, change: int, a: int)
    requires IsMultiplier(a) && -3 <= acc <= 3 && -1 <= change <= 1
    ensures var r := Accumulate(acc, change, a);
      -3 <= r.acc <= 3 &&
      (r.emitted.Some? <==> Abs(acc + change) >= Threshold(a)) &&
      (r.emitted.Some? ==> r.acc == 0 && Abs(r.emitted.value) == a &&
                           (r.emitted.value > 0 <==> acc + change > 0)) &&
      (r.emitted.None? ==> r.acc == acc + change)
  {
  }

  function Repeat(x: int, n: nat): (s: seq<int>)
    ensures |s| == n && forall k :: 0 <= k < n ==> s[k] == x
  {
    if n == 0 then [] else Repeat(x, n - 1) + [x]
  }

  /** `n` raw steps of the same direction `d` at a fixed multiplier, from accumulator `acc`. */
  function RunSame(acc: int, d: int, a: int, n: nat): Accumulated2
    requires IsMultiplier(a)
  {
    if n == 0 then Accumulated2(acc, [])
    else
      var p := RunSame(acc, d, a, n - 1);
      var s := Accumulate(p.acc, d, a);
      Accumulated2(s.acc, p.emitted + ToSeq(s.emitted))
  }

  datatype Accumulated2 = Accumulated2(acc: int, emitted: seq<int>)

  /** `x` with the sign of the direction `d`. */
  function Signed(d: int, x: int): int {
    if d > 0 then x else -x
  }

  /**
   * From a clear accumulator, `n` same-direction raw steps at multiplier `a` emit
   * `n / (4 / a)` steps of magnitude `a` in direction `d` and leave
   * `n % (4 / a)` steps behind: at multiplier 1 one step per 4 raw steps, at 2
   * one per 2, at 4 one per raw step.
   */
  lemma {:induction false} SameDirectionRun(d: int, a: int, n: nat)
    requires d == 1 || d == -1
    requires IsMultiplier(a)
    ensures RunSame(0, d, a, n).acc == Signed(d, n % Threshold(a))
    ensures RunSame(0, d, a, n).emitted == Repeat(Signed(d, a), n / Threshold(a))
  {
    if n > 0 {
      SameDirectionRun(d, a, n - 1);
      var t := Threshold(a);
      var k, q := (n - 1) % t, (n - 1) / t;
      DivModStep(n, t);
      var s := Accumulate(Signed(d, k), d, a);
      assert Signed(d, k) + d == Signed(d, k + 1);
      if k == t - 1 {
        assert s == Accumulated(0, Some(Signed(d, a)));
        assert Repeat(Signed(d, a), q + 1) == Repeat(Signed(d, a), q) + [Signed(d, a)];
      } else {
        assert s == Accumulated(Signed(d, k + 1), None);
      }
    }
  }

  /** Counting one more raw step against a threshold `t` of 1, 2 or 4. */
  lemma DivModStep(n: nat, t: nat)
    requires n > 0 && (t == 1 || t == 2 || t == 4)
    ensures (n - 1) % t == t - 1 ==> n % t == 0 && n / t == (n - 1) / t + 1
    ensures (n - 1) % t < t - 1 ==> n % t == (n - 1) % t + 1 && n / t == (n - 1) / t
  {
  }

  // ================================================================ one quadrature channel

  /** State of one encoder: last phase code, accumulator, time of the last valid step. */
  datatype Channel = Channel(lastEncoded: uint2, value: int, lastTime: uint32)

  datatype StepResult = StepResult(next: Channel, emitted: Option<int>)

  /**
   * processEncoder / the encoder half of readNavigationEncoder for one sample
   * `encoded` taken at time `now`. An invalid or absent transition only updates
   * the phase code; a valid one also stamps the time and feeds the accumulator
   * with the multiplier of the interval since the previous valid step.
   */
  function Step(c: Channel, encoded: uint2, now: uint32, accelerationEnabled: bool): (r: StepResult)
    ensures r.next.lastEncoded == encoded
  {
    var change := CalculateEncoderChange(encoded, c.lastEncoded);
    if change == 0 then StepResult(c.(lastEncoded := encoded), None)
    else
      var a := CalculateAcceleration(Sub32(now, c.lastTime), accelerationEnabled);
      var s := Accumulate(c.value, change, a);
      StepResult(Channel(encoded, s.acc, now), s.emitted)
  }

  predicate SmallAccumulator(c: Channel) {
    -3 <= c.value <= 3
  }

  /**
   * A sample without a valid transition changes nothing but the phase code; a valid
   * one stamps the time; the accumulator stays in [-3, 3]; an emitted step has the
   * magnitude of the multiplier and leaves the accumulator clear.
   */
  lemma StepProperties(c: Channel, encoded: uint2, now: uint32, accel: bool)
    requires SmallAccumulator(c)
    ensures var r := Step(c, encoded, now, accel);
      var change := CalculateEncoderChange(encoded, c.lastEncoded);
      var a := CalculateAcceleration(Sub32(now, c.lastTime), accel);
      SmallAccumulator(r.next) &&
      (change == 0 ==> r.next == c.(lastEncoded := encoded) && r.emitted.None?) &&
      (change != 0 ==> r.next.lastTime == now &&
                       (r.emitted.Some? <==> Abs(c.value + change) >= Threshold(a)) &&
                       (r.emitted.Some? ==> r.next.value == 0 && Abs(r.emitted.value) == a))
  {
    var change := CalculateEncoderChange(encoded, c.lastEncoded);
    if change != 0 {
      AccumulateBounded(c.value, change, CalculateAcceleration(Sub32(now, c.lastTime), accel));
    }
  }

  /**
   * With the full 32-bit timestamp, a valid step less than 1000 us after the
   * previous one is emitted at once with magnitude 4 (unless it cancels the
   * accumulator exactly).
   */
  lemma FastStepIsAccelerated(c: Channel, encoded: uint2, now: uint32)
    requires c.lastTime <= now < c.lastTime + 1000
    requires CalculateEncoderChange(encoded, c.lastEncoded) != 0
    ensures var sum := c.value + CalculateEncoderChange(encoded, c.lastEncoded);
      Step(c, encoded, now, true).emitted == (if sum == 0 then None else Some(if sum > 0 then 4 else -4))
  {
  }

  // ---------------------------------------------------------------- the uint16_t timestamp, as written

  /** As written: `lastEncoderTime[i] = micros()` into a uint16_t keeps the low 16 bits. */
  function AsWrittenStoredTime(now: uint32): uint16 {
    now % 0x1_0000
  }

  /** As written: `micros() - lastEncoderTime[i]`, unsigned long minus the truncated stamp. */
  function AsWrittenInterval(stored: uint16, now: uint32): uint32 {
    Sub32(now, stored)
  }

  /**
   * As written, once `micros()` passes 70536 us (70 ms after boot) every interval
   * is computed from a truncated stamp and exceeds 5000, so the main encoders never
   * accelerate whatever the true speed.
   */
  lemma AsWrittenAccelerationNeverEngages(prev: uint32, now: uint32, enabled: bool)
    requires now >= 70536
    ensures AsWrittenInterval(AsWrittenStoredTime(prev), now) > 5000
    ensures CalculateAcceleration(AsWrittenInterval(AsWrittenStoredTime(prev), now), enabled) == 1
  {
  }

  /** The input that shows it: steps 500 us apart at t = 999500 and t = 1000000. */
  lemma AsWrittenIntervalExample()
    ensures AsWrittenInterval(AsWrittenStoredTime(999500), 1000000) == 983540
    ensures CalculateAcceleration(983540, true) == 1
    ensures CalculateAcceleration(Sub32(1000000, 999500), true) == 4
  {
  }

  // ================================================================ switches, buttons, navigation button

  datatype PressSource = Switch | Button

  datatype InputEvent =
    | EncoderChange(encoder: nat, change: int)   // onEncoderChange
    | Press(source: PressSource, index: nat)      // onSwitchPress / onButtonPress
    | NavEncoderChange(navChange: int)            // onNavigationEncoderChange
    | NavButtonPress                              // onNavigationButtonPress

  /**
   * A press of bit `i`: against the stored snapshot `last`, the bit changed
   * (`state ^ last`) and the pin now reads low (active-low wiring).
   */
  predicate PressedBit(last: Port, state: Port, i: nat)
    requires i < 16
  {
    Bit(Xor(state, last), i) && !Bit(state, i)
  }

  /** Press events, ascending, for the bits below `n` that pass `PressedBit`. */
  function PressEvents(src: PressSource, last: Port, state: Port, n: nat): seq<InputEvent>
    requires n <= 16
  {
    if n == 0 then []
    else PressEvents(src, last, state, n - 1) +
         (if PressedBit(last, state, n - 1) then [Press(src, n - 1)] else [])
  }

  /** `p` holds presses from `src` of bits below `n` that pass `PressedBit`, ascending. */
  predicate PressesAscending(p: seq<InputEvent>, src: PressSource, last: Port, state: Port, n: nat)
    requires n <= 16
  {
    (forall k :: 0 <= k < |p| ==>
       p[k].Press? && p[k].source == src && p[k].index < n && PressedBit(last, state, p[k].index)) &&
    (forall k, l :: 0 <= k < l < |p| ==> p[k].index < p[l].index)
  }

  /**
   * The presses are exactly the bits below `n` that changed and now read low, each
   * once, in ascending order.
   */
  lemma {:induction false} PressEventsExact(src: PressSource, last: Port, state: Port, n: nat)
    requires n <= 16
    ensures PressesAscending(PressEvents(src, last, state, n), src, last, state, n)
    ensures forall i :: 0 <= i < n ==>
      (Press(src, i) in PressEvents(src, last, state, n) <==> PressedBit(last, state, i))
  {
    if n > 0 {
      PressEventsExact(src, last, state, n - 1);
      var p := PressEvents(src, last, state, n - 1);
      var x := if PressedBit(last, state, n - 1) then [Press(src, n - 1)] else [];
      assert PressEvents(src, last, state, n) == p + x;
      forall i | 0 <= i < n
        ensures Press(src, i) in p + x <==> PressedBit(last, state, i)
      {
        if i < n - 1 {
          assert Press(src, i) !in x;
        }
      }
    }
  }

  /** A snapshot equal to the stored one yields no press. */
  lemma {:induction false} NoChangeNoPress(src: PressSource, state: Port, n: nat)
    requires n <= 16
    ensures PressEvents(src, state, state, n) == []
  {
    if n > 0 {
      NoChangeNoPress(src, state, n - 1);
    }
  }

  /** "Changed and now low" is "was high and is now low": a press is a falling edge. */
  lemma PressIsFallingEdge(last: Port, state: Port, i: nat)
    requires i < 16
    ensures PressedBit(last, state, i) <==> Bit(last, i) && !Bit(state, i)
  {
  }

  /**
   * One port of pollSwitchesAndButtons: `changes = state ^ last`; nothing when no
   * bit changed, otherwise the scan over bits 0..count-1.
   */
  method ScanPort(src: PressSource, last: Port, state: Port, count: nat) returns (fired: seq<InputEvent>, changed: bool)
    requires count <= 16
    ensures fired == PressEvents(src, last, state, count)
    ensures changed <==> state != last
  {
    var changes := Xor(state, last);
    XorZeroIsEqual(state, last);
    fired := [];
    changed := changes != NoPins();
    if !changed {
      NoChangeNoPress(src, state, count);
      return;
    }
    for i := 0 to count
      invariant fired == PressEvents(src, last, state, i)
    {
      if Bit(changes, i) && !Bit(state, i) {
        fired := fired + [Press(src, i)];
      }
    }
  }

  /** Navigation button debounce state: time of the last raw change, stable state, last raw state. */
  datatype NavButton = NavButton(lastPressTime: uint32, stable: bool, lastRaw: bool)

  datatype Debounced = Debounced(next: NavButton, fired: bool)

  /** The button part of readNavigationEncoder for one raw sample (`pressed` = pin low). */
  function DebounceNav(b: NavButton, pressed: bool, now: uint32): Debounced {
    var t := if pressed != b.lastRaw then now else b.lastPressTime;
    if Sub32(now, t) > BUTTON_DEBOUNCE_MS && pressed != b.stable then
      Debounced(NavButton(t, pressed, pressed), pressed)
    else
      Debounced(NavButton(t, b.stable, pressed), false)
  }

  /**
   * The press fires only for a raw level that was already seen on the previous
   * sample, has not changed for more than 50 ms, differs from the stable state and
   * is "pressed"; a confirmed release updates the stable state and fires nothing.
   */
  lemma NavButtonFiresOnConfirmedPress(b: NavButton, pressed: bool, now: uint32)
    ensures var r := DebounceNav(b, pressed, now);
      (r.fired <==> pressed == b.lastRaw && Sub32(now, b.lastPressTime) > BUTTON_DEBOUNCE_MS &&
                    pressed != b.stable && pressed) &&
      (r.next.stable != b.stable ==> r.next.stable == pressed && pressed == b.lastRaw) &&
      r.next.lastRaw == pressed
  {
  }

  // ================================================================ the scan of one port half

  function EncoderEvents(i: nat, emitted: Option<int>): seq<InputEvent> {
    match emitted
    case None => []
    case Some(c) => [EncoderChange(i, c)]
  }

  /**
   * Channel states after a scan of encoders lo..hi-1 starting from `C`: every
   * encoder whose pins interrupted takes one step on the levels `levels`.
   */
  function ScanChannels(C: seq<Channel>, lo: nat, hi: nat, mask: Port, levels: Port, now: uint32, accel: bool): (D: seq<Channel>)
    requires lo <= hi <= |C|
    ensures |D| == |C|
    decreases hi - lo
  {
    if hi == lo then C
    else
      var P := ScanChannels(C, lo, hi - 1, mask, levels, now, accel);
      if Triggered(mask, hi - 1) then P[hi - 1 := Step(C[hi - 1], Encoded(levels, hi - 1), now, accel).next] else P
  }

  /** Events of the same scan, in call order. */
  function ScanEvents(C: seq<Channel>, lo: nat, hi: nat, mask: Port, levels: Port, now: uint32, accel: bool): seq<InputEvent>
    requires lo <= hi <= |C|
    decreases hi - lo
  {
    if hi == lo then []
    else ScanEvents(C, lo, hi - 1, mask, levels, now, accel) +
         (if Triggered(mask, hi - 1)
          then EncoderEvents(hi - 1, Step(C[hi - 1], Encoded(levels, hi - 1), now, accel).emitted)
          else [])
  }

  /**
   * After a scan, an encoder of the range whose pins interrupted has taken exactly
   * one step from its state before the scan; every other encoder is unchanged.
   */
  lemma {:induction false} ScanChannelsPointwise(C: seq<Channel>, lo: nat, hi: nat, mask: Port, levels: Port, now: uint32, accel: bool)
    requires lo <= hi <= |C|
    ensures forall j :: 0 <= j < |C| ==>
      ScanChannels(C, lo, hi, mask, levels, now, accel)[j] ==
        if lo <= j < hi && Triggered(mask, j) then Step(C[j], Encoded(levels, j), now, accel).next else C[j]
    decreases hi - lo
  {
    if hi > lo {
      ScanChannelsPointwise(C, lo, hi - 1, mask, levels, now, accel);
    }
  }

  /** A scan keeps every accumulator in [-3, 3]. */
  lemma ScanKeepsAccumulatorsSmall(C: seq<Channel>, lo: nat, hi: nat, mask: Port, levels: Port, now: uint32, accel: bool)
    requires lo <= hi <= |C|
    requires forall j :: 0 <= j < |C| ==> SmallAccumulator(C[j])
    ensures forall j :: 0 <= j < |C| ==> SmallAccumulator(ScanChannels(C, lo, hi, mask, levels, now, accel)[j])
  {
    ScanChannelsPointwise(C, lo, hi, mask, levels, now, accel);
    forall j | 0 <= j < |C|
      ensures SmallAccumulator(ScanChannels(C, lo, hi, mask, levels, now, accel)[j])
    {
      StepProperties(C[j], Encoded(levels, j), now, accel);
    }
  }

  /** Encoder events of encoders in lo..hi-1 whose pins interrupted, in ascending encoder order. */
  predicate TriggeredAscending(e: seq<InputEvent>, lo: nat, hi: nat, mask: Port) {
    (forall k :: 0 <= k < |e| ==> e[k].EncoderChange? && lo <= e[k].encoder < hi && Triggered(mask, e[k].encoder)) &&
    (forall k, l :: 0 <= k < l < |e| ==> e[k].encoder < e[l].encoder)
  }

  lemma AppendTriggered(p: seq<InputEvent>, x: seq<InputEvent>, lo: nat, hi: nat, mask: Port)
    requires lo < hi && TriggeredAscending(p, lo, hi - 1, mask)
    requires x == [] || (Triggered(mask, hi - 1) && |x| == 1 && x[0].EncoderChange? && x[0].encoder == hi - 1)
    ensures TriggeredAscending(p + x, lo, hi, mask)
  {
  }

  /** A scan reports only encoders of its range whose pins interrupted, in ascending order. */
  lemma {:induction false} ScanEventsFromTriggered(C: seq<Channel>, lo: nat, hi: nat, mask: Port, levels: Port, now: uint32, accel: bool)
    requires lo <= hi <= |C|
    ensures TriggeredAscending(ScanEvents(C, lo, hi, mask, levels, now, accel), lo, hi, mask)
    decreases hi - lo
  {
    if hi > lo {
      ScanEventsFromTriggered(C, lo, hi - 1, mask, levels, now, accel);
      var p := ScanEvents(C, lo, hi - 1, mask, levels, now, accel);
      var x := if Triggered(mask, hi - 1)
               then EncoderEvents(hi - 1, Step(C[hi - 1], Encoded(levels, hi - 1), now, accel).emitted)
               else [];
      assert ScanEvents(C, lo, hi, mask, levels, now, accel) == p + x;
      assert x == [] || (Triggered(mask, hi - 1) && |x| == 1 && x[0].EncoderChange? && x[0].encoder == hi - 1);
      AppendTriggered(p, x, lo, hi, mask);
    }
  }

  // ================================================================ the decoder object

  class HardwareManager {
    var lastMCP3State: Port
    var lastMCP4State: Port

    const lastEncoded: array<uint2>
    const encoderValue: array<int>
    const lastEncoderTime: array<uint32>   // full micros() stamp (see README: declared uint16_t)

    var lastEncodedNav: uint2
    var encoderValueNav: int
    var lastEncoderTimeNav: uint32
    var lastNavPressTime: uint32
    var navButtonState: bool
    var lastNavButtonState: bool

    var lastPollTime: uint32      // static local of pollSwitchesAndButtons
    var lastNavReadTime: uint32   // static local of readNavigationEncoder

    var events: seq<InputEvent>   // callbacks, in call order

    /** One slot per main encoder. */
    ghost predicate Valid()
      reads this
    {
      lastEncoded.Length == NUM_ENCODERS && encoderValue.Length == NUM_ENCODERS &&
      lastEncoderTime.Length == NUM_ENCODERS
    }

    /** The 16 main channels as values. */
    ghost function Channels(): (C: seq<Channel>)
      reads this, lastEncoded, encoderValue, lastEncoderTime
      requires Valid()
      ensures |C| == NUM_ENCODERS
    {
      seq(NUM_ENCODERS, j requires 0 <= j < NUM_ENCODERS reads lastEncoded, encoderValue, lastEncoderTime =>
            Channel(lastEncoded[j], encoderValue[j], lastEncoderTime[j]))
    }

    ghost function NavChannel(): Channel
      reads this
    {
      Channel(lastEncodedNav, encoderValueNav, lastEncoderTimeNav)
    }

    ghost function NavButtonState(): NavButton
      reads this
    {
      NavButton(lastNavPressTime, navButtonState, lastNavButtonState)
    }

    /** Constructor: every channel, snapshot, stamp and button state starts at zero. */
    constructor ()
      ensures Valid() && fresh(lastEncoded) && fresh(encoderValue) && fresh(lastEncoderTime)
      ensures Channels() == seq(NUM_ENCODERS, _ => Channel(0, 0, 0))
      ensures NavChannel() == Channel(0, 0, 0) && NavButtonState() == NavButton(0, false, false)
      ensures lastMCP3State == NoPins() && lastMCP4State == NoPins() && lastPollTime == 0 && lastNavReadTime == 0
      ensures events == []
    {
      lastMCP3State, lastMCP4State := NoPins(), NoPins();
      lastEncoded := new uint2[NUM_ENCODERS](_ => 0);
      encoderValue := new int[NUM_ENCODERS](_ => 0);
      lastEncoderTime := new uint32[NUM_ENCODERS](_ => 0);
      lastEncodedNav, encoderValueNav, lastEncoderTimeNav := 0, 0, 0;
      lastNavPressTime, navButtonState, lastNavButtonState := 0, false, false;
      lastPollTime, lastNavReadTime := 0, 0;
      events := [];
    }

    /** processEncoder: one sample of encoder `encoderIndex` from the port snapshot `levels`. */
    method ProcessEncoder(encoderIndex: nat, levels: Port, nowMicros: uint32, accelerationEnabled: bool)
      requires Valid() && encoderIndex < NUM_ENCODERS
      modifies lastEncoded, encoderValue, lastEncoderTime, this`events
      ensures Valid()
      ensures var r := Step(old(Channels())[encoderIndex], Encoded(levels, encoderIndex), nowMicros, accelerationEnabled);
        Channels() == old(Channels())[encoderIndex := r.next] &&
        events == old(events) + EncoderEvents(encoderIndex, r.emitted)
    {
      ghost var C := Channels();
      var encoded := 2 * Level(levels, PinA(encoderIndex)) + Level(levels, PinB(encoderIndex));

      var change := CalculateEncoderChange(encoded, lastEncoded[encoderIndex]);
      lastEncoded[encoderIndex] := encoded;
      if change != 0 {
        var timeDiff := Sub32(nowMicros, lastEncoderTime[encoderIndex]);
        lastEncoderTime[encoderIndex] := nowMicros;
        var acceleration := CalculateAcceleration(timeDiff, accelerationEnabled);
        encoderValue[encoderIndex] := encoderValue[encoderIndex] + change;
        var threshold := 4 / acceleration;
        if Abs(encoderValue[encoderIndex]) >= threshold {
          var finalChange := if encoderValue[encoderIndex] > 0 then acceleration else -acceleration;
          events := events + [EncoderChange(encoderIndex, finalChange)];
          encoderValue[encoderIndex] := 0;
        }
      }
      assert Channels() == C[encoderIndex := Step(C[encoderIndex], encoded, nowMicros, accelerationEnabled).next];
    }

    /**
     * processMCP1AEncoders / processMCP1BEncoders / processMCP2AEncoders /
     * processMCP2BEncoders: scan encoders first..first+7 against the captured
     * interrupt mask of one port. The four source functions differ only in the port
     * read (here: `mask` and `levels`) and in `first` (0 for A, 8 for B); the
     * MCP index they pass is unused, so both ports drive the same channel state.
     */
    method ProcessEncoderHalf(first: nat, mask: Port, levels: Port, nowMicros: uint32, accelerationEnabled: bool)
      requires Valid() && (first == 0 || first == 8)
      modifies lastEncoded, encoderValue, lastEncoderTime, this`events
      ensures Valid()
      ensures Channels() == ScanChannels(old(Channels()), first, first + 8, mask, levels, nowMicros, accelerationEnabled)
      ensures events == old(events) + ScanEvents(old(Channels()), first, first + 8, mask, levels, nowMicros, accelerationEnabled)
    {
      ghost var C := Channels();
      for i := first to first + 8
        invariant Valid()
        invariant Channels() == ScanChannels(C, first, i, mask, levels, nowMicros, accelerationEnabled)
        invariant events == old(events) + ScanEvents(C, first, i, mask, levels, nowMicros, accelerationEnabled)
      {
        if Triggered(mask, i) {
          ScanChannelsPointwise(C, first, i, mask, levels, nowMicros, accelerationEnabled);
          ProcessEncoder(i, levels, nowMicros, accelerationEnabled);
        }
      }
    }

    /**
     * pollSwitchesAndButtons: at most once per 50 ms, report a press for every
     * switch bit (0-15) and button bit (0-4) that changed and now reads low, then
     * store the snapshots.
     */
    method PollSwitchesAndButtons(nowMillis: uint32, mcp3State: Port, mcp4State: Port)
      modifies this`lastPollTime, this`lastMCP3State, this`lastMCP4State, this`events
      ensures Sub32(nowMillis, old(lastPollTime)) < BUTTON_DEBOUNCE_MS ==>
        lastPollTime == old(lastPollTime) && lastMCP3State == old(lastMCP3State) &&
        lastMCP4State == old(lastMCP4State) && events == old(events)
      ensures Sub32(nowMillis, old(lastPollTime)) >= BUTTON_DEBOUNCE_MS ==>
        lastPollTime == nowMillis && lastMCP3State == mcp3State && lastMCP4State == mcp4State &&
        events == old(events) + PressEvents(Switch, old(lastMCP3State), mcp3State, NUM_SWITCHES)
                              + PressEvents(Button, old(lastMCP4State), mcp4State, NUM_BUTTONS)
    {
      if Sub32(nowMillis, lastPollTime) < BUTTON_DEBOUNCE_MS {
        return;
      }
      lastPollTime := nowMillis;

      var switchPresses, switchesChanged := ScanPort(Switch, lastMCP3State, mcp3State, NUM_SWITCHES);
      if switchesChanged {
        lastMCP3State := mcp3State;
      }
      var buttonPresses, buttonsChanged := ScanPort(Button, lastMCP4State, mcp4State, NUM_BUTTONS);
      if buttonsChanged {
        lastMCP4State := mcp4State;
      }
      events := events + switchPresses + buttonPresses;
    }

    /**
     * readNavigationEncoder: at most once per 2 ms, decode the navigation encoder
     * (pins 8 and 9 of the button port) like a main encoder, then debounce the
     * navigation button (pin 10, pressed when low).
     */
    method ReadNavigationEncoder(nowMillis: uint32, nowMicros: uint32, mcp4Levels: Port, accelerationEnabled: bool)
      modifies this`lastNavReadTime, this`lastEncodedNav, this`encoderValueNav, this`lastEncoderTimeNav,
               this`lastNavPressTime, this`navButtonState, this`lastNavButtonState, this`events
      ensures Sub32(nowMillis, old(lastNavReadTime)) < NAV_ENCODER_INTERVAL ==>
        lastNavReadTime == old(lastNavReadTime) && NavChannel() == old(NavChannel()) &&
        NavButtonState() == old(NavButtonState()) && events == old(events)
      ensures Sub32(nowMillis, old(lastNavReadTime)) >= NAV_ENCODER_INTERVAL ==>
        var encoded := 2 * Level(mcp4Levels, ENC_NAV_A_PIN) + Level(mcp4Levels, ENC_NAV_B_PIN);
        var s := Step(old(NavChannel()), encoded, nowMicros, accelerationEnabled);
        var b := DebounceNav(old(NavButtonState()), !Bit(mcp4Levels, ENC_NAV_SW_PIN), nowMillis);
        lastNavReadTime == nowMillis && NavChannel() == s.next && NavButtonState() == b.next &&
        events == old(events) + (if s.emitted.Some? then [NavEncoderChange(s.emitted.value)] else [])
                              + (if b.fired then [NavButtonPress] else [])
    {
      if Sub32(nowMillis, lastNavReadTime) < NAV_ENCODER_INTERVAL {
        return;
      }
      lastNavReadTime := nowMillis;
      var encoded := 2 * Level(mcp4Levels, ENC_NAV_A_PIN) + Level(mcp4Levels, ENC_NAV_B_PIN);
      NavEncoderSample(encoded, nowMicros, accelerationEnabled);
      var currentButtonState := !Bit(mcp4Levels, ENC_NAV_SW_PIN);
      NavButtonSample(currentButtonState, nowMillis);
    }

    /** The encoder half of readNavigationEncoder. */
    method NavEncoderSample(encoded: uint2, nowMicros: uint32, accelerationEnabled: bool)
      modifies this`lastEncodedNav, this`encoderValueNav, this`lastEncoderTimeNav, this`events
      ensures var s := Step(old(NavChannel()), encoded, nowMicros, accelerationEnabled);
        NavChannel() == s.next &&
        events == old(events) + (if s.emitted.Some? then [NavEncoderChange(s.emitted.value)] else [])
    {
      var change := CalculateEncoderChange(encoded, lastEncodedNav);
      lastEncodedNav := encoded;
      if change != 0 {
        var timeDiff := Sub32(nowMicros, lastEncoderTimeNav);
        lastEncoderTimeNav := nowMicros;
        var acceleration := CalculateAcceleration(timeDiff, accelerationEnabled);
        encoderValueNav := encoderValueNav + change;
        var threshold := 4 / acceleration;
        if Abs(encoderValueNav) >= threshold {
          var finalChange := if encoderValueNav > 0 then acceleration else -acceleration;
          events := events + [NavEncoderChange(finalChange)];
          encoderValueNav := 0;
        }
      }
    }

    /** The button half of readNavigationEncoder (`currentButtonState` = pin low). */
    method NavButtonSample(currentButtonState: bool, nowMillis: uint32)
      modifies this`lastNavPressTime, this`navButtonState, this`lastNavButtonState, this`events
      ensures var b := DebounceNav(old(NavButtonState()), currentButtonState, nowMillis);
        NavButtonState() == b.next && events == old(events) + (if b.fired then [NavButtonPress] else [])
    {
      if currentButtonState != lastNavButtonState {
        lastNavPressTime := nowMillis;
      }
      if Sub32(nowMillis, lastNavPressTime) > BUTTON_DEBOUNCE_MS {
        if currentButtonState != navButtonState {
          navButtonState := currentButtonState;
          if navButtonState {
            events := events + [NavButtonPress];
          }
        }
      }
      lastNavButtonState := currentButtonState;
    }

    /** calibrateEncoders: clear every accumulator, phase code and stamp, main and navigation. */
    method CalibrateEncoders()
      requires Valid()
      modifies lastEncoded, encoderValue, lastEncoderTime, this`encoderValueNav, this`lastEncodedNav, this`lastEncoderTimeNav
      ensures Valid()
      ensures Channels() == seq(NUM_ENCODERS, _ => Channel(0, 0, 0))
      ensures NavChannel() == Channel(0, 0, 0)
    {
      forall j | 0 <= j < NUM_ENCODERS {
        encoderValue[j] := 0;
      }
      forall j | 0 <= j < NUM_ENCODERS {
        lastEncoded[j] := 0;
      }
      forall j | 0 <= j < NUM_ENCODERS {
        lastEncoderTime[j] := 0;
      }
      encoderValueNav := 0;
      lastEncodedNav := 0;
      lastEncoderTimeNav := 0;
    }
  }
}
