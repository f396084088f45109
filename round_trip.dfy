/** The serial link end to end: records written by the generator's send
    helpers (main/main.c) and read back by the monitor's framer and decoder
    (esp32_debug.py). The generator's tags and helper widths agree with the
    monitor's table, so each record decodes to the value that was sent, and
    one tick's bytes reproduce all ten readings whatever way the stream is
    cut into reads. */
module RoundTrip {
  import opened Wire
  import opened MockData
  import opened DebugMonitor

  /** The format the monitor's table should give a field's tag: the
      width and signedness of the helper that sent it. */
  function FormatOf(f: Field): Format
  {
    match f
    case U16(_, _) => UnsignedShort
    case I16(_, _) => SignedShort
    case U8(_, _) => UnsignedChar
  }

  /** The number a helper call sends. */
  function ValueOf(f: Field): int
  {
    match f
    case U16(_, u) => u
    case I16(_, i) => i
    case U8(_, b) => b
  }

  /** The monitor knows the field's tag, with the format the field was
      sent in. */
  predicate Agrees(f: Field)
  {
    f.tag in TlvTypes && TlvTypes[f.tag].format == FormatOf(f)
  }

  /** The name under which the monitor shows a known field. */
  function NameOf(f: Field): string
    requires Agrees(f)
  {
    TlvTypes[f.tag].name
  }

  /** Unpacking the value bytes of a helper call with the helper's format
      gives back the number sent: little-endian for the 16-bit helpers,
      and two's complement read back as signed for `send_tlv_i16`. */
  lemma UnpackPayload(f: Field)
    ensures Unpack(FormatOf(f), Payload(f)) == Some(ValueOf(f))
  {
    match f
    case U16(_, u) =>
      LittleEndian16RoundTrip(u, 0, 0);
    case I16(_, i) =>
      LittleEndian16RoundTrip(ToTwos16(i), 0, 0);
      Twos16RoundTrip(i, 0);
    case U8(_, _) =>
  }

  /** Every record of a tick carries a tag the monitor knows, in the
      format the table gives that tag. */
  lemma TickAgreesWithTable(s: Snapshot)
    ensures |TickFields(s)| == 10
    ensures forall k :: 0 <= k < 10 ==> Agrees(TickFields(s)[k])
  {
  }

  /** The length byte of every record of a tick is the value width the
      table expects for its tag. */
  lemma TickWidthsMatchTable(s: Snapshot)
    ensures forall k :: 0 <= k < 10 ==> TickFields(s)[k].tag in TlvTypes
    ensures forall k :: 0 <= k < 10 ==>
      Encode(TickFields(s)[k])[1] == Width(TlvTypes[TickFields(s)[k].tag].format)
  {
  }

  /** One record at the front of the buffer is consumed whole and stores
      the number sent under its tag's name. */
  lemma DecodeRecord(f: Field, rest: seq<byte>, values: Values)
    requires Agrees(f)
    ensures Drain(Encode(f) + rest, values) ==
      Drain(rest, values[NameOf(f) := Received(ValueOf(f))])
  {
    var buffer := Encode(f) + rest;
    var l: int := buffer[1];
    assert l == |Payload(f)|;
    assert buffer[..2 + l] == Encode(f);
    assert buffer[2 + l..] == rest;
    UnpackPayload(f);
    assert ValueBytes(Encode(f)) == Payload(f);
  }

  /** The current values after the monitor has decoded the given calls in
      order. */
  function Apply(values: Values, fs: seq<Field>): Values
    requires forall k :: 0 <= k < |fs| ==> Agrees(fs[k])
    decreases |fs|
  {
    if fs == [] then values
    else Apply(values[NameOf(fs[0]) := Received(ValueOf(fs[0]))], fs[1..])
  }

  /** A run of records in the table's formats is consumed whole, in order,
      each storing its number, and framing continues after it. */
  lemma {:induction false} DecodeRecords(fs: seq<Field>, rest: seq<byte>, values: Values)
    requires forall k :: 0 <= k < |fs| ==> Agrees(fs[k])
    ensures Drain(EncodeAll(fs) + rest, values) == Drain(rest, Apply(values, fs))
    decreases |fs|
  {
    if fs == [] {
      assert EncodeAll(fs) + rest == rest;
    } else {
      var f := fs[0];
      var next := values[NameOf(f) := Received(ValueOf(f))];
      assert EncodeAll(fs) + rest == Encode(f) + (EncodeAll(fs[1..]) + rest);
      DecodeRecord(f, EncodeAll(fs[1..]) + rest, values);
      DecodeRecords(fs[1..], rest, next);
    }
  }

  /** Any prefix of a run of records frames without an exception: the
      complete records in it decode, and the cut-off one waits. */
  lemma {:induction false} PrefixFramesCleanly(fs: seq<Field>, k: nat, values: Values)
    requires forall j :: 0 <= j < |fs| ==> Agrees(fs[j])
    requires k <= |EncodeAll(fs)|
    ensures Drain(EncodeAll(fs)[..k], values).error == None
    decreases |fs|
  {
    if fs != [] {
      var e := Encode(fs[0]);
      var tail := EncodeAll(fs[1..]);
      assert EncodeAll(fs) == e + tail;
      if k < |e| {
        assert EncodeAll(fs)[..k] == e[..k];
        assert Stable(e[..k]);
      } else {
        assert EncodeAll(fs)[..k] == e + tail[..k - |e|];
        DecodeRecord(fs[0], tail[..k - |e|], values);
        PrefixFramesCleanly(fs[1..], k - |e|, values[NameOf(fs[0]) := Received(ValueOf(fs[0]))]);
      }
    }
  }

  /** The values one tick leaves on the monitor: the ten readings, each
      under its name, stored in emission order. */
  function AfterTick(values: Values, s: Snapshot): Values
  {
    values["RPM" := Received(s.rpm)]
          ["Boost Pressure (mbar)" := Received(s.boost)]
          ["Oil Pressure" := Received(s.oil)]
          ["Fuel Level" := Received(s.fuel)]
          ["Speed" := Received(s.speed)]
          ["Status Flags" := Received(s.status)]
          ["Steering Angle" := Received(s.steering)]
          ["Brake Pressure" := Received(s.brake)]
          ["Throttle Position" := Received(s.throttle)]
          ["Gear Position" := Received(s.gear)]
  }

  /** Decoding call k of a run, which the monitor shows under `name` with
      the number `v`, is one update of the current values. */
  lemma ApplyStep(values: Values, fs: seq<Field>, k: nat, name: string, v: int)
    requires k < |fs|
    requires forall j :: 0 <= j < |fs| ==> Agrees(fs[j])
    requires NameOf(fs[k]) == name && ValueOf(fs[k]) == v
    ensures Apply(values, fs[k..]) == Apply(values[name := Received(v)], fs[k + 1..])
  {
    assert fs[k..][1..] == fs[k + 1..];
  }

  /** Decoding the engine readings, the first five calls of a tick. */
  lemma ApplyEngine(values: Values, s: Snapshot)
    requires forall k :: 0 <= k < 10 ==> Agrees(TickFields(s)[k])
    ensures Apply(values, TickFields(s)[0..]) ==
      Apply(values
              ["RPM" := Received(s.rpm)]
              ["Boost Pressure (mbar)" := Received(s.boost)]
              ["Oil Pressure" := Received(s.oil)]
              ["Fuel Level" := Received(s.fuel)]
              ["Speed" := Received(s.speed)],
        TickFields(s)[5..])
  {
    var fs := TickFields(s);
    var m0 := values;
    ApplyStep(m0, fs, 0, "RPM", s.rpm);
    var m1 := m0["RPM" := Received(s.rpm)];
    ApplyStep(m1, fs, 1, "Boost Pressure (mbar)", s.boost);
    var m2 := m1["Boost Pressure (mbar)" := Received(s.boost)];
    ApplyStep(m2, fs, 2, "Oil Pressure", s.oil);
    var m3 := m2["Oil Pressure" := Received(s.oil)];
    ApplyStep(m3, fs, 3, "Fuel Level", s.fuel);
    var m4 := m3["Fuel Level" := Received(s.fuel)];
    ApplyStep(m4, fs, 4, "Speed", s.speed);
    var m5 := m4["Speed" := Received(s.speed)];
  }

  /** Decoding the remaining five calls of a tick. */
  lemma ApplyChassis(values: Values, s: Snapshot)
    requires forall k :: 0 <= k < 10 ==> Agrees(TickFields(s)[k])
    ensures Apply(values, TickFields(s)[5..]) == values
        ["Status Flags" := Received(s.status)]
        ["Steering Angle" := Received(s.steering)]
        ["Brake Pressure" := Received(s.brake)]
        ["Throttle Position" := Received(s.throttle)]
        ["Gear Position" := Received(s.gear)]
  {
    var fs := TickFields(s);
    var m5 := values;
    ApplyStep(m5, fs, 5, "Status Flags", s.status);
    var m6 := m5["Status Flags" := Received(s.status)];
    ApplyStep(m6, fs, 6, "Steering Angle", s.steering);
    var m7 := m6["Steering Angle" := Received(s.steering)];
    ApplyStep(m7, fs, 7, "Brake Pressure", s.brake);
    var m8 := m7["Brake Pressure" := Received(s.brake)];
    ApplyStep(m8, fs, 8, "Throttle Position", s.throttle);
    var m9 := m8["Throttle Position" := Received(s.throttle)];
    ApplyStep(m9, fs, 9, "Gear Position", s.gear);
    var m10 := m9["Gear Position" := Received(s.gear)];
    assert fs[10..] == [];
  }

  /** Decoding the ten calls of a tick in order stores the ten readings. */
  lemma ApplyTick(values: Values, s: Snapshot)
    ensures forall k :: 0 <= k < 10 ==> Agrees(TickFields(s)[k])
    ensures Apply(values, TickFields(s)) == AfterTick(values, s)
  {
    TickAgreesWithTable(s);
    assert TickFields(s)[0..] == TickFields(s);
    ApplyEngine(values, s);
    ApplyChassis(values
                   ["RPM" := Received(s.rpm)]
                   ["Boost Pressure (mbar)" := Received(s.boost)]
                   ["Oil Pressure" := Received(s.oil)]
                   ["Fuel Level" := Received(s.fuel)]
                   ["Speed" := Received(s.speed)], s);
  }

  /** The headline round trip: the bytes of one tick, framed and decoded,
      reproduce the ten readings exactly, the steering angle as a signed
      number, with nothing left in the buffer and no exception. */
  lemma TickRoundTrip(s: Snapshot, values: Values)
    ensures Drain(TickBytes(s), values) == Framed([], AfterTick(values, s), None)
  {
    ApplyTick(values, s);
    DecodeRecords(TickFields(s), [], values);
    assert TickBytes(s) + [] == TickBytes(s);
  }

  /** One tick delivered in two reads, cut at any byte: the first read
      frames cleanly and leaves the cut-off record waiting, and the second
      completes it, ending exactly where one read of the whole tick ends. */
  lemma TwoReads(s: Snapshot, cut: nat, values: Values)
    requires cut <= |TickBytes(s)|
    ensures var w := TickBytes(s); var r := Drain(w[..cut], values);
      r.error == None &&
      Drain(r.rest + w[cut..], r.values) == Framed([], AfterTick(values, s), None)
  {
    var w := TickBytes(s);
    TickAgreesWithTable(s);
    PrefixFramesCleanly(TickFields(s), cut, values);
    DrainAppend(w[..cut], w[cut..], values);
    assert w[..cut] + w[cut..] == w;
    TickRoundTrip(s, values);
  }

  /** The generator and the monitor connected: one tick written to a fresh
      UART and delivered to a freshly started monitor in two reads, cut at
      any byte. Neither read raises, the monitor then shows the tick's ten
      readings and its buffer is empty. */
  method StreamOneTick(t: real, c: Casts, cut: nat)
    returns (shown: Values, leftover: seq<byte>, first: Option<ParseError>, second: Option<ParseError>)
    requires cut <= 37
    ensures shown == AfterTick(InitialValues(), Compute(t, c))
    ensures leftover == []
    ensures first == None && second == None
  {
    var s := Compute(t, c);
    var uart := new Uart();
    uart.Tick(t, c);
    var wire := uart.written;
    assert wire == TickBytes(s);
    TickSize(s);
    TwoReads(s, cut, InitialValues());
    assert [] + wire[..cut] == wire[..cut];

    var monitor := new Monitor();
    first := monitor.Receive(wire[..cut]);
    second := monitor.Receive(wire[cut..]);
    shown, leftover := monitor.values, monitor.buffer;
  }
}
