/** The mock telemetry generator (main/main.c): the driving-cycle dispatch
    that picks the phase, gear, status flags and brake pressure from the
    phase time `t`, and the TLV encoder that writes each tick's ten records
    to the UART. */
module MockData {
  import opened Wire

  // ---------------------------------------------------------------------
  // Type tags (main/main.c:12-21)
  // ---------------------------------------------------------------------

  const TagRpm: byte := 0x01
  const TagBoostPressure: byte := 0x02
  const TagOilPressure: byte := 0x03
  const TagFuelLevel: byte := 0x04
  const TagSpeed: byte := 0x05
  const TagStatusFlags: byte := 0x06
  const TagSteeringAngle: byte := 0x07
  const TagBrakePressure: byte := 0x08
  const TagThrottlePos: byte := 0x09
  const TagGearPos: byte := 0x0A

  // ---------------------------------------------------------------------
  // One tick's readings
  // ---------------------------------------------------------------------

  /** The ten locals of one loop iteration, with their C types. */
  datatype Snapshot = Snapshot(
    rpm: uint16, boost: uint16, oil: uint16, fuel: uint16, speed: uint16,
    status: byte, steering: int16, brake: uint16, throttle: byte, gear: byte)

  /** The values the locals start each iteration with (main/main.c:80-82). */
  const Initial := Snapshot(
    rpm := 1000, boost := 800, oil := 1600, fuel := 3500, speed := 0,
    status := 0, steering := 0, brake := 0, throttle := 0, gear := 1)

  /** The results of the float-to-integer casts of one tick, `(uint16_t)(...)`,
      `(uint8_t)(...)` and `(int16_t)(...)` of sine or ramp expressions.
      Each branch of the dispatch casts at most one expression per field, so
      one value per field suffices; the branch that runs decides which
      expression it stands for. */
  datatype Casts = Casts(
    rpm: uint16, speed: uint16, throttle: byte, boost: uint16, oil: uint16,
    brake: uint16, fuel: uint16, steering: int16)

  // ---------------------------------------------------------------------
  // Phase dispatch (main/main.c:84-136)
  // ---------------------------------------------------------------------

  /** The seven branches of the driving cycle, in source order. */
  datatype Phase =
    | Idle                  // t < 10
    | StartAcceleration     // t < 20
    | FirstToSecond         // t < 22
    | Cruising              // t < 35
    | AccelerationUpshift   // t < 45
    | Braking               // t < 50
    | IdleAgain             // otherwise

  /** Lower end of each phase's half-open interval of the 60 s cycle. */
  function Start(p: Phase): real
  {
    match p
    case Idle => 0.0
    case StartAcceleration => 10.0
    case FirstToSecond => 20.0
    case Cruising => 22.0
    case AccelerationUpshift => 35.0
    case Braking => 45.0
    case IdleAgain => 50.0
  }

  /** Upper end (excluded) of each phase's interval. */
  function End(p: Phase): real
  {
    match p
    case Idle => 10.0
    case StartAcceleration => 20.0
    case FirstToSecond => 22.0
    case Cruising => 35.0
    case AccelerationUpshift => 45.0
    case Braking => 50.0
    case IdleAgain => 60.0
  }

  /** The branch the `if (t < 10) ... else if ...` chain takes: the first
      guard that holds. The phase found lies in its interval, except that
      the first branch also takes every time below 0 and the last every
      time from 60 on. */
  function PhaseAt(t: real): (p: Phase)
    ensures p == Idle || Start(p) <= t
    ensures p == IdleAgain || t < End(p)
  {
    if t < 10.0 then Idle
    else if t < 20.0 then StartAcceleration
    else if t < 22.0 then FirstToSecond
    else if t < 35.0 then Cruising
    else if t < 45.0 then AccelerationUpshift
    else if t < 50.0 then Braking
    else IdleAgain
  }

  /** Inside the cycle the dispatch agrees with the interval table, both
      ways: every time in [0, 60) falls in exactly one phase's interval,
      and that is the phase the guard chain picks. */
  lemma PhaseByInterval(t: real, q: Phase)
    requires 0.0 <= t < 60.0
    ensures PhaseAt(t) == q <==> Start(q) <= t < End(q)
  {
  }

  /** The boundaries belong to the later phase (`<` guards). */
  lemma PhaseBoundaries()
    ensures PhaseAt(9.999) == Idle && PhaseAt(10.0) == StartAcceleration
    ensures PhaseAt(20.0) == FirstToSecond && PhaseAt(22.0) == Cruising
    ensures PhaseAt(35.0) == AccelerationUpshift && PhaseAt(45.0) == Braking
    ensures PhaseAt(50.0) == IdleAgain
  {
  }

  /** The snapshot one loop iteration computes at phase time `t`, given the
      results `c` of its float casts: the branch chosen by PhaseAt overwrites
      some of the initial locals, then the fuel level and steering angle are
      set. Integer arithmetic around a cast is done in `int` and narrowed
      back to the local's type, which wraps. */
  function Compute(t: real, c: Casts): (s: Snapshot)
    ensures s.status == 0
    ensures 1 <= s.gear <= 4
    ensures PhaseAt(t) != Braking ==> s.brake == 0
    ensures PhaseAt(t) == Braking ==> s.throttle == 0 && s.boost == 1000
    ensures s.fuel == Wrap16(3500 - c.fuel) && s.steering == c.steering
  {
    var b :=
      match PhaseAt(t)
      case Idle =>
        Initial.(rpm := Wrap16(1000 + c.rpm), speed := 0,
                 throttle := Wrap8(2 + c.throttle), gear := 1,
                 boost := 800, oil := Wrap16(1600 + c.oil))
      case StartAcceleration =>
        Initial.(rpm := Wrap16(1000 + c.rpm), speed := c.speed,
                 throttle := Wrap8(10 + c.throttle), gear := 1,
                 boost := Wrap16(800 + c.boost), oil := Wrap16(1700 + c.oil))
      case FirstToSecond =>
        Initial.(rpm := Wrap16(4000 - c.rpm), speed := Wrap16(40 + c.speed),
                 throttle := Wrap8(60 - c.throttle), gear := 2,
                 boost := Wrap16(1200 - c.boost))
      case Cruising =>
        Initial.(rpm := Wrap16(2000 + c.rpm), speed := Wrap16(45 + c.speed),
                 throttle := Wrap8(20 + c.throttle), gear := 2,
                 boost := Wrap16(900 + c.boost))
      case AccelerationUpshift =>
        Initial.(rpm := Wrap16(2500 + c.rpm), speed := Wrap16(60 + c.speed),
                 throttle := Wrap8(40 + c.throttle),
                 gear := if t < 40.0 then 2 else if t < 43.0 then 3 else 4,
                 boost := Wrap16(1100 + c.boost))
      case Braking =>
        Initial.(rpm := Wrap16(6000 - c.rpm), speed := Wrap16(120 - c.speed),
                 throttle := 0, brake := c.brake,
                 gear := if t < 48.0 then 4 else 2, boost := 1000)
      case IdleAgain =>
        Initial.(rpm := Wrap16(1000 + c.rpm), speed := 0,
                 throttle := Wrap8(2 + c.throttle), gear := 1,
                 boost := 800, oil := Wrap16(1600 + c.oil), brake := 0);
    b.(fuel := Wrap16(3500 - c.fuel), steering := c.steering)
  }

  /** The gear over the whole cycle, read off the time alone: first gear
      until 20 s, second until 40 s, third until 43 s, fourth until 48 s,
      second until 50 s, then first again. */
  lemma GearByTime(t: real, c: Casts)
    requires 0.0 <= t < 60.0
    ensures var g := Compute(t, c).gear;
      (t < 20.0 ==> g == 1) &&
      (20.0 <= t < 40.0 ==> g == 2) &&
      (40.0 <= t < 43.0 ==> g == 3) &&
      (43.0 <= t < 48.0 ==> g == 4) &&
      (48.0 <= t < 50.0 ==> g == 2) &&
      (50.0 <= t ==> g == 1)
  {
  }

  /** Brake pressure is zero at every time outside the braking interval. */
  lemma BrakeOnlyWhileBraking(t: real, c: Casts)
    requires 0.0 <= t < 60.0
    requires t < 45.0 || 50.0 <= t
    ensures Compute(t, c).brake == 0
  {
  }

  /** Locals a branch does not assign keep their initial value: the oil
      pressure stays at 1600 outside the idle and start phases. */
  lemma UnassignedLocalsKeepDefaults(t: real, c: Casts)
    ensures PhaseAt(t) in {FirstToSecond, Cruising, AccelerationUpshift, Braking} ==>
      Compute(t, c).oil == Initial.oil
  {
  }

  /** Both idle branches set the speed to 0 and the boost pressure to 800,
      whatever the casts. */
  lemma IdleValues(t: real, c: Casts)
    ensures PhaseAt(t) in {Idle, IdleAgain} ==> Compute(t, c).speed == 0 && Compute(t, c).boost == 800
  {
  }

  /** The fuel level never wraps: when the cast is the truncation of
      `t * 50` for a time in the cycle, `3500 - cast` stays in [501, 3500]. */
  lemma FuelLevelNeverWraps(t: real, c: Casts)
    requires 0.0 <= t < 60.0
    requires c.fuel == (t * 50.0).Floor
    ensures Compute(t, c).fuel == 3500 - c.fuel
    ensures 501 <= Compute(t, c).fuel <= 3500
  {
    assert c.fuel <= 2999 by {
      assert (c.fuel as real) <= t * 50.0 < 3000.0;
    }
  }

  /** Narrowing wraps rather than clamps. In the idle branches a negative
      sine gives a cast that is itself a wrapped value `0x1_0000 - k`
      (should the conversion wrap; see the README), and `1000 + cast`,
      narrowed back to `uint16_t`, is then `1000 - k`: the rpm dips below
      1000 as the sine intends. */
  lemma NarrowingWraps(t: real, c: Casts, k: int)
    requires PhaseAt(t) == Idle || PhaseAt(t) == IdleAgain
    requires 1 <= k <= 100 && c.rpm == 0x1_0000 - k
    ensures Compute(t, c).rpm == 1000 - k
  {
  }

  /** Three points of the cycle, with the cast results the float
      expressions give there: at 0 s nothing has started, at 15 s the
      start ramp is half-way, at 47 s braking is under way in fourth. */
  lemma CycleScenarios(c0: Casts, c15: Casts, c47: Casts)
    requires c0.rpm == 0 && c0.throttle == 0 && c0.oil == 0 && c0.fuel == 0 && c0.steering == 0
    requires c15.rpm == 1500 && c15.speed == 20 && c15.throttle == 25 && c15.boost == 200 && c15.oil == 250
    requires c47.rpm == 1800 && c47.speed == 36 && c47.brake == 480
    ensures Compute(0.0, c0) == Snapshot(
      rpm := 1000, boost := 800, oil := 1600, fuel := 3500, speed := 0,
      status := 0, steering := 0, brake := 0, throttle := 2, gear := 1)
    ensures var s := Compute(15.0, c15);
      s.rpm == 2500 && s.speed == 20 && s.throttle == 35 && s.boost == 1000 &&
      s.oil == 1950 && s.gear == 1 && s.brake == 0
    ensures var s := Compute(47.0, c47);
      s.rpm == 4200 && s.speed == 84 && s.throttle == 0 && s.brake == 480 &&
      s.gear == 4 && s.boost == 1000 && s.oil == 1600
  {
  }

  // ---------------------------------------------------------------------
  // TLV records (main/main.c:32-57)
  // ---------------------------------------------------------------------

  /** What one `send_tlv_*` call is given: its helper, tag and value. */
  datatype Field =
    | U16(tag: byte, u: uint16)    // send_tlv_u16
    | I16(tag: byte, i: int16)     // send_tlv_i16
    | U8(tag: byte, b: byte)       // send_tlv_u8

  /** The value bytes a helper passes to `send_tlv`: little-endian for the
      16-bit helpers (two's complement for the signed one), the byte itself
      for the 8-bit one. */
  function Payload(f: Field): (v: seq<byte>)
    ensures |v| == (if f.U8? then 1 else 2)
  {
    match f
    case U16(_, u) => LittleEndian16(u)
    case I16(_, i) => LittleEndian16(ToTwos16(i))
    case U8(_, b) => [b]
  }

  /** The bytes one helper call writes: tag, length, then the value bytes;
      the length byte is the value's width. */
  function Encode(f: Field): seq<byte>
  {
    [f.tag, |Payload(f)|] + Payload(f)
  }

  /** A record is the tag, a length byte equal to the number of value bytes
      (1 for `send_tlv_u8`, 2 for the 16-bit helpers), then exactly those
      bytes. */
  lemma RecordLayout(f: Field)
    ensures var r := Encode(f);
      |r| == 2 + r[1] && r[0] == f.tag && r[1] == (if f.U8? then 1 else 2) &&
      r[2..] == Payload(f)
  {
  }

  /** The bytes a sequence of helper calls writes, in call order. */
  function EncodeAll(fs: seq<Field>): (r: seq<byte>)
  {
    if fs == [] then [] else Encode(fs[0]) + EncodeAll(fs[1..])
  }

  /** The ten calls of one tick (main/main.c:145-154), in emission order. */
  function TickFields(s: Snapshot): seq<Field>
  {
    [ U16(TagRpm, s.rpm),
      U16(TagBoostPressure, s.boost),
      U16(TagOilPressure, s.oil),
      U16(TagFuelLevel, s.fuel),
      U16(TagSpeed, s.speed),
      U8(TagStatusFlags, s.status),
      I16(TagSteeringAngle, s.steering),
      U16(TagBrakePressure, s.brake),
      U8(TagThrottlePos, s.throttle),
      U8(TagGearPos, s.gear) ]
  }

  /** One tick makes ten calls, with the tags 0x01 to 0x0A in that order,
      the 8-bit helper for status flags, throttle and gear, the signed one
      for the steering angle and the unsigned 16-bit one for the rest. */
  lemma TickTagOrder(s: Snapshot)
    ensures |TickFields(s)| == 10
    ensures forall k :: 0 <= k < 10 ==> TickFields(s)[k].tag == k + 1
    ensures forall k :: 0 <= k < 10 ==>
      (TickFields(s)[k].U8? <==> k in {5, 8, 9}) &&
      (TickFields(s)[k].I16? <==> k == 6)
  {
  }

  /** The bytes one tick writes. */
  function TickBytes(s: Snapshot): seq<byte>
  {
    EncodeAll(TickFields(s))
  }

  /** Encoding a concatenation of calls writes the two encodings one after
      the other. */
  lemma {:induction false} EncodeAllAppend(fs: seq<Field>, gs: seq<Field>)
    ensures EncodeAll(fs + gs) == EncodeAll(fs) + EncodeAll(gs)
  {
    if fs == [] {
      assert fs + gs == gs;
    } else {
      assert (fs + gs)[1..] == fs[1..] + gs;
      EncodeAllAppend(fs[1..], gs);
    }
  }

  /** The bytes of the first k + 1 calls are those of the first k followed
      by those of call k. */
  lemma EncodeAllSnoc(fs: seq<Field>, k: nat)
    requires k < |fs|
    ensures EncodeAll(fs[..k + 1]) == EncodeAll(fs[..k]) + Encode(fs[k])
  {
    assert fs[..k + 1] == fs[..k] + [fs[k]];
    EncodeAllAppend(fs[..k], [fs[k]]);
    assert EncodeAll([fs[k]]) == Encode(fs[k]) + EncodeAll([]);
  }

  /** Writing the record of call k after the bytes of the first k calls
      gives the bytes of the first k + 1 calls. */
  lemma WriteStep(before: seq<byte>, fs: seq<Field>, k: nat, prev: seq<byte>, w: seq<byte>)
    requires k < |fs|
    requires prev == before + EncodeAll(fs[..k])
    requires w == prev + Encode(fs[k])
    ensures w == before + EncodeAll(fs[..k + 1])
  {
    EncodeAllSnoc(fs, k);
  }

  /** The engine readings, the first five records of a tick, written
      behind `before`. */
  lemma EngineRecords(s: Snapshot, before: seq<byte>, w: seq<byte>)
    requires w == before +
      Encode(U16(TagRpm, s.rpm)) +
      Encode(U16(TagBoostPressure, s.boost)) +
      Encode(U16(TagOilPressure, s.oil)) +
      Encode(U16(TagFuelLevel, s.fuel)) +
      Encode(U16(TagSpeed, s.speed))
    ensures w == before + EncodeAll(TickFields(s)[..5])
  {
    var fs := TickFields(s);
    var w0 := before;
    assert w0 == before + EncodeAll(fs[..0]);
    var w1 := w0 + Encode(U16(TagRpm, s.rpm));
    WriteStep(before, fs, 0, w0, w1);
    var w2 := w1 + Encode(U16(TagBoostPressure, s.boost));
    WriteStep(before, fs, 1, w1, w2);
    var w3 := w2 + Encode(U16(TagOilPressure, s.oil));
    WriteStep(before, fs, 2, w2, w3);
    var w4 := w3 + Encode(U16(TagFuelLevel, s.fuel));
    WriteStep(before, fs, 3, w3, w4);
    var w5 := w4 + Encode(U16(TagSpeed, s.speed));
    WriteStep(before, fs, 4, w4, w5);
  }

  /** The remaining five records of a tick, written behind the first five. */
  lemma ChassisRecords(s: Snapshot, before: seq<byte>, w5: seq<byte>, w: seq<byte>)
    requires w5 == before + EncodeAll(TickFields(s)[..5])
    requires w == w5 +
      Encode(U8(TagStatusFlags, s.status)) +
      Encode(I16(TagSteeringAngle, s.steering)) +
      Encode(U16(TagBrakePressure, s.brake)) +
      Encode(U8(TagThrottlePos, s.throttle)) +
      Encode(U8(TagGearPos, s.gear))
    ensures w == before + TickBytes(s)
  {
    var fs := TickFields(s);
    var w6 := w5 + Encode(U8(TagStatusFlags, s.status));
    WriteStep(before, fs, 5, w5, w6);
    var w7 := w6 + Encode(I16(TagSteeringAngle, s.steering));
    WriteStep(before, fs, 6, w6, w7);
    var w8 := w7 + Encode(U16(TagBrakePressure, s.brake));
    WriteStep(before, fs, 7, w7, w8);
    var w9 := w8 + Encode(U8(TagThrottlePos, s.throttle));
    WriteStep(before, fs, 8, w8, w9);
    var w10 := w9 + Encode(U8(TagGearPos, s.gear));
    WriteStep(before, fs, 9, w9, w10);
    assert fs[..10] == fs;
  }

  /** The ten records of a tick, written one after another behind
      `before`, are `before` followed by the tick's bytes. */
  lemma TickLayout(s: Snapshot, before: seq<byte>)
    ensures before +
        Encode(U16(TagRpm, s.rpm)) +
        Encode(U16(TagBoostPressure, s.boost)) +
        Encode(U16(TagOilPressure, s.oil)) +
        Encode(U16(TagFuelLevel, s.fuel)) +
        Encode(U16(TagSpeed, s.speed)) +
        Encode(U8(TagStatusFlags, s.status)) +
        Encode(I16(TagSteeringAngle, s.steering)) +
        Encode(U16(TagBrakePressure, s.brake)) +
        Encode(U8(TagThrottlePos, s.throttle)) +
        Encode(U8(TagGearPos, s.gear)) ==
      before + TickBytes(s)
  {
    var w5 := before +
      Encode(U16(TagRpm, s.rpm)) +
      Encode(U16(TagBoostPressure, s.boost)) +
      Encode(U16(TagOilPressure, s.oil)) +
      Encode(U16(TagFuelLevel, s.fuel)) +
      Encode(U16(TagSpeed, s.speed));
    EngineRecords(s, before, w5);
    ChassisRecords(s, before, w5, w5 +
      Encode(U8(TagStatusFlags, s.status)) +
      Encode(I16(TagSteeringAngle, s.steering)) +
      Encode(U16(TagBrakePressure, s.brake)) +
      Encode(U8(TagThrottlePos, s.throttle)) +
      Encode(U8(TagGearPos, s.gear)));
  }

  /** One tick writes 37 bytes: ten two-byte headers, seven 16-bit values
      (six unsigned, one signed) and three 8-bit values. */
  lemma TickSize(s: Snapshot)
    ensures |TickBytes(s)| == 37
  {
    TickLayout(s, []);
  }

  // ---------------------------------------------------------------------
  // The UART and the send helpers
  // ---------------------------------------------------------------------

  /** The serial port as the generator sees it: a sink that only ever
      appends the bytes it is given. */
  class Uart {
    /** Every byte written so far, oldest first. */
    var written: seq<byte>

    constructor ()
      ensures written == []
    {
      written := [];
    }

    /** `send_tlv`: three writes, the tag, the length, then `len` bytes
        read from `value`. */
    method SendTlv(tag: byte, len: byte, value: array<byte>)
      requires len <= value.Length
      modifies this
      ensures written == old(written) + [tag, len] + value[..len]
    {
      written := written + [tag];
      written := written + [len];
      written := written + value[..len];
    }

    /** `send_tlv_u16`: the value split into `value & 0xFF` and
        `(value >> 8) & 0xFF` in a two-byte buffer. */
    method SendTlvU16(tag: byte, value: uint16)
      modifies this
      ensures written == old(written) + Encode(U16(tag, value))
    {
      var buf := new byte[2];
      buf[0] := value % 256;
      buf[1] := (value / 256) % 256;
      SendTlv(tag, 2, buf);
    }

    /** `send_tlv_i16`: the same split of a signed value. `& 0xFF` of a
        two's-complement int is its remainder modulo 256 and `>> 8` an
        arithmetic shift, i.e. division rounding down; Dafny's `%` and `/`
        by a positive divisor are exactly these. */
    method SendTlvI16(tag: byte, value: int16)
      modifies this
      ensures written == old(written) + Encode(I16(tag, value))
    {
      var buf := new byte[2];
      buf[0] := value % 256;
      buf[1] := (value / 256) % 256;
      SignedSplit(value);
      SendTlv(tag, 2, buf);
    }

    /** `send_tlv_u8`: the address of the one-byte parameter is passed as
        the value buffer. */
    method SendTlvU8(tag: byte, value: byte)
      modifies this
      ensures written == old(written) + Encode(U8(tag, value))
    {
      var cell := new byte[1];
      cell[0] := value;
      SendTlv(tag, 1, cell);
    }

    /** The ten sends of one tick (main/main.c:145-154). */
    method SendSnapshot(s: Snapshot)
      modifies this
      ensures written == old(written) +
        Encode(U16(TagRpm, s.rpm)) +
        Encode(U16(TagBoostPressure, s.boost)) +
        Encode(U16(TagOilPressure, s.oil)) +
        Encode(U16(TagFuelLevel, s.fuel)) +
        Encode(U16(TagSpeed, s.speed)) +
        Encode(U8(TagStatusFlags, s.status)) +
        Encode(I16(TagSteeringAngle, s.steering)) +
        Encode(U16(TagBrakePressure, s.brake)) +
        Encode(U8(TagThrottlePos, s.throttle)) +
        Encode(U8(TagGearPos, s.gear))
    {
      SendTlvU16(TagRpm, s.rpm);
      SendTlvU16(TagBoostPressure, s.boost);
      SendTlvU16(TagOilPressure, s.oil);
      SendTlvU16(TagFuelLevel, s.fuel);
      SendTlvU16(TagSpeed, s.speed);
      SendTlvU8(TagStatusFlags, s.status);
      SendTlvI16(TagSteeringAngle, s.steering);
      SendTlvU16(TagBrakePressure, s.brake);
      SendTlvU8(TagThrottlePos, s.throttle);
      SendTlvU8(TagGearPos, s.gear);
    }

    /** One iteration of the generator loop at phase time `t`: compute the
        readings, then send them. */
    method Tick(t: real, c: Casts)
      modifies this
      ensures written == old(written) + TickBytes(Compute(t, c))
    {
      var s := Compute(t, c);
      ghost var before := written;
      SendSnapshot(s);
      TickLayout(s, before);
    }
  }

  /** The byte split of `send_tlv_i16` is the little-endian encoding of the
      value's two's-complement pattern. */
  lemma SignedSplit(v: int16)
    ensures [v % 256, (v / 256) % 256] == LittleEndian16(ToTwos16(v))
  {
    var u := ToTwos16(v);
    if v < 0 {
      assert u == v + 0x1_0000;
      assert (v + 0x1_0000) / 256 == v / 256 + 256;
      assert (v + 0x1_0000) % 256 == v % 256;
    }
  }
}
