/** The serial monitor (esp32_debug.py): the tag table, the decoder of one
    TLV record into the table of current values, and the framer that carves
    complete records off the front of the receive buffer. */
module DebugMonitor {
  import opened Wire

  // ---------------------------------------------------------------------
  // The tag table (esp32_debug.py:6-17)
  // ---------------------------------------------------------------------

  /** The `struct` format codes the table uses. */
  datatype Format =
    | UnsignedShort   // "H"
    | SignedShort     // "h"
    | UnsignedChar    // "B"

  /** Number of bytes `struct` requires for a format. */
  function Width(fmt: Format): nat
  {
    match fmt
    case UnsignedShort => 2
    case SignedShort => 2
    case UnsignedChar => 1
  }

  /** A table row: the display name and the value format of a tag. */
  datatype Entry = Entry(name: string, format: Format)

  const TlvTypes: map<byte, Entry> := map[
    0x01 := Entry("RPM", UnsignedShort),
    0x02 := Entry("Boost Pressure (mbar)", UnsignedShort),
    0x03 := Entry("Oil Pressure", UnsignedShort),
    0x04 := Entry("Fuel Level", UnsignedShort),
    0x05 := Entry("Speed", UnsignedShort),
    0x06 := Entry("Status Flags", UnsignedChar),
    0x07 := Entry("Steering Angle", SignedShort),
    0x08 := Entry("Brake Pressure", UnsignedShort),
    0x09 := Entry("Throttle Position", UnsignedChar),
    0x0A := Entry("Gear Position", UnsignedChar)
  ]

  /** The display names of the table. */
  function Names(): set<string>
  {
    set tag | tag in TlvTypes :: TlvTypes[tag].name
  }

  /** `struct.unpack("<" + fmt, v)[0]`: the little-endian value of `v`, or
      None where `struct` raises because `v` is not exactly as long as the
      format. Each decoded value is the one whose encoding is `v`. */
  function Unpack(fmt: Format, v: seq<byte>): (r: Option<int>)
    ensures r.Some? <==> |v| == Width(fmt)
    ensures r.Some? && fmt == UnsignedShort ==>
      0 <= r.value < 0x1_0000 && LittleEndian16(r.value) == v
    ensures r.Some? && fmt == SignedShort ==>
      -0x8000 <= r.value < 0x8000 && LittleEndian16(ToTwos16(r.value)) == v
    ensures r.Some? && fmt == UnsignedChar ==> 0 <= r.value < 256 && [r.value] == v
  {
    if |v| != Width(fmt) then None
    else
      match fmt
      case UnsignedShort => Some(FromLittleEndian16(v[0], v[1]) as int)
      case SignedShort => Some(FromTwos16(FromLittleEndian16(v[0], v[1])) as int)
      case UnsignedChar => Some(v[0] as int)
  }

  // ---------------------------------------------------------------------
  // Current values and one record (esp32_debug.py:23-35)
  // ---------------------------------------------------------------------

  /** What the table of current values shows for a name: the string "---"
      until a record for it arrives, then the decoded number. */
  datatype Reading = Placeholder | Received(value: int)

  type Values = map<string, Reading>

  /** `current_values` at start: every name of the table, showing "---". */
  function InitialValues(): (m: Values)
    ensures m.Keys == Names()
    ensures forall n :: n in m ==> m[n] == Placeholder
  {
    map tag | tag in TlvTypes :: TlvTypes[tag].name := Placeholder
  }

  /** The names the table lists. */
  lemma NamesListed()
    ensures Names() == {"RPM", "Boost Pressure (mbar)", "Oil Pressure", "Fuel Level",
                        "Speed", "Status Flags", "Steering Angle", "Brake Pressure",
                        "Throttle Position", "Gear Position"}
  {
    forall n | n in Names()
      ensures n in {"RPM", "Boost Pressure (mbar)", "Oil Pressure", "Fuel Level",
                        "Speed", "Status Flags", "Steering Angle", "Brake Pressure",
                        "Throttle Position", "Gear Position"}
    {
      var tag :| tag in TlvTypes && TlvTypes[tag].name == n;
    }
    assert TlvTypes[1].name == "RPM";
    assert TlvTypes[2].name == "Boost Pressure (mbar)";
    assert TlvTypes[3].name == "Oil Pressure";
    assert TlvTypes[4].name == "Fuel Level";
    assert TlvTypes[5].name == "Speed";
    assert TlvTypes[6].name == "Status Flags";
    assert TlvTypes[7].name == "Steering Angle";
    assert TlvTypes[8].name == "Brake Pressure";
    assert TlvTypes[9].name == "Throttle Position";
    assert TlvTypes[10].name == "Gear Position";
  }

  /** The ten listed names are pairwise distinct strings. */
  lemma ListedNamesDistinct()
    ensures |{"RPM", "Boost Pressure (mbar)", "Oil Pressure", "Fuel Level",
              "Speed", "Status Flags", "Steering Angle", "Brake Pressure",
              "Throttle Position", "Gear Position"}| == 10
  {
    var n0: set<string> := {};
    assert "RPM" !in n0;
    var n1 := n0 + {"RPM"};
    assert "Boost Pressure (mbar)" !in n1;
    var n2 := n1 + {"Boost Pressure (mbar)"};
    assert "Oil Pressure" !in n2;
    var n3 := n2 + {"Oil Pressure"};
    assert "Fuel Level" !in n3;
    var n4 := n3 + {"Fuel Level"};
    assert "Speed" !in n4;
    var n5 := n4 + {"Speed"};
    assert "Status Flags" !in n5;
    var n6 := n5 + {"Status Flags"};
    assert "Steering Angle" !in n6;
    var n7 := n6 + {"Steering Angle"};
    assert "Brake Pressure" !in n7;
    var n8 := n7 + {"Brake Pressure"};
    assert "Throttle Position" !in n8;
    var n9 := n8 + {"Throttle Position"};
    assert "Gear Position" !in n9;
    var n10 := n9 + {"Gear Position"};
    assert n10 == {"RPM", "Boost Pressure (mbar)", "Oil Pressure", "Fuel Level",
                   "Speed", "Status Flags", "Steering Angle", "Brake Pressure",
                   "Throttle Position", "Gear Position"};
  }

  /** The ten names of the table are distinct. */
  lemma TenNames()
    ensures |Names()| == 10
  {
    NamesListed();
    ListedNamesDistinct();
  }

  /** `current_values` starts with ten entries, each showing "---". */
  lemma TenInitialValues()
    ensures |InitialValues()| == 10
  {
    TenNames();
    assert InitialValues().Keys == Names();
  }

  /** The exceptions `parse_tlv_packet` can raise: IndexError when the
      record has no length byte, struct.error when a known tag's value is
      not as wide as its format. */
  datatype ParseError = IndexError | StructError(tag: byte, length: byte)

  datatype Result<T> = Ok(value: T) | Err(error: ParseError)

  /** `data[2:2+l]`: Python slicing stops at the end of the data, so the
      value has `l` bytes when there are that many after the header and
      all the remaining ones otherwise, each the byte at its offset. */
  function ValueBytes(data: seq<byte>): (v: seq<byte>)
    requires |data| >= 2
    ensures |v| == if |data| >= 2 + data[1] as int then data[1] as int else |data| - 2
    ensures forall k | 0 <= k < |v| :: v[k] == data[2 + k]
  {
    if |data| < 2 + data[1] as int then data[2..] else data[2..2 + data[1] as int]
  }

  /** `parse_tlv_packet(data)` applied to the current values: a known tag
      stores its decoded value under its name and changes no other entry;
      an unknown tag changes nothing. */
  function ParsePacket(data: seq<byte>, values: Values): (r: Result<Values>)
  {
    if |data| < 2 then Err(IndexError)
    else
      var t, l, v := data[0], data[1], ValueBytes(data);
      if t in TlvTypes then
        var entry := TlvTypes[t];
        match Unpack(entry.format, v)
        case None => Err(StructError(t, l))
        case Some(x) => Ok(values[entry.name := Received(x)])
      else
        Ok(values)
  }

  /** A known tag whose length matches its format: the entry of its name
      now holds the little-endian value of the record's value bytes. */
  lemma ParseKnownTag(data: seq<byte>, values: Values)
    requires |data| >= 2 && data[0] in TlvTypes
    requires |ValueBytes(data)| == Width(TlvTypes[data[0]].format)
    ensures ParsePacket(data, values).Ok?
    ensures var entry, v := TlvTypes[data[0]], ValueBytes(data);
      ParsePacket(data, values).value == values[entry.name := Received(Unpack(entry.format, v).value)]
  {
  }

  /** An unknown tag leaves the current values as they were. */
  lemma ParseUnknownTag(data: seq<byte>, values: Values)
    requires |data| >= 2 && data[0] !in TlvTypes
    ensures ParsePacket(data, values) == Ok(values)
  {
  }

  /** `parse_tlv_packet` raises exactly when the record has no length
      byte, or its tag is known and its value bytes are not as many as the
      tag's format needs. */
  lemma ParseFailsIff(data: seq<byte>, values: Values)
    ensures ParsePacket(data, values).Err? <==>
      |data| < 2 ||
      (data[0] in TlvTypes && |ValueBytes(data)| != Width(TlvTypes[data[0]].format))
  {
  }

  /** A successful parse changes at most the entry of its own tag's name:
      every other name keeps its value, and no other name appears. */
  lemma ParseChangesOnlyItsName(data: seq<byte>, values: Values, n: string)
    requires ParsePacket(data, values).Ok?
    requires n in values || n in ParsePacket(data, values).value
    requires |data| >= 2 ==> data[0] !in TlvTypes || n != TlvTypes[data[0]].name
    ensures n in values && n in ParsePacket(data, values).value
    ensures ParsePacket(data, values).value[n] == values[n]
  {
  }

  // ---------------------------------------------------------------------
  // The framer (esp32_debug.py:48-61)
  // ---------------------------------------------------------------------

  /** The buffer holds no complete record at its front: fewer than two
      bytes, or fewer than the record its length byte announces. */
  predicate Stable(buffer: seq<byte>)
  {
    |buffer| < 2 || |buffer| < 2 + buffer[1] as int
  }

  /** Where the inner `while len(buffer) >= 2` loop leaves the buffer and
      the current values, and the exception that ended it, if any. */
  datatype Framed = Framed(rest: seq<byte>, values: Values, error: Option<ParseError>)

  /** The inner loop as a function: consume complete records from the
      front until the buffer is stable or a record raises. What is left is
      a suffix of the buffer; with no error it holds no complete record;
      after an error the record that raised is still at its front and the
      values are those from before it. */
  function Drain(buffer: seq<byte>, values: Values): (r: Framed)
    ensures r.error.None? <==> Stable(r.rest)
    decreases |buffer|
  {
    if |buffer| < 2 then Framed(buffer, values, None)
    else
      var l: int := buffer[1];
      if |buffer| < 2 + l then Framed(buffer, values, None)
      else
        match ParsePacket(buffer[..2 + l], values)
        case Err(e) => Framed(buffer, values, Some(e))
        case Ok(v) => Drain(buffer[2 + l..], v)
  }

  /** When framing stops on an exception, the record that raised it is
      still at the front of the buffer left, and parsing it against the
      values reached raises exactly that exception. */
  lemma {:induction false} DrainRaisesAtFront(buffer: seq<byte>, values: Values)
    ensures var r := Drain(buffer, values);
      r.error.Some? ==>
        |r.rest| >= 2 && |r.rest| >= 2 + r.rest[1] as int &&
        ParsePacket(r.rest[..2 + r.rest[1] as int], r.values) == Err(r.error.value)
    decreases |buffer|
  {
    if |buffer| >= 2 && |buffer| >= 2 + buffer[1] as int {
      var l: int := buffer[1];
      var p := ParsePacket(buffer[..2 + l], values);
      if p.Ok? {
        DrainRaisesAtFront(buffer[2 + l..], p.value);
      }
    }
  }

  /** A buffer holding no complete record is left as it is: the framer
      waits for more data. */
  lemma DrainWaitsForMore(buffer: seq<byte>, values: Values)
    requires Stable(buffer)
    ensures Drain(buffer, values) == Framed(buffer, values, None)
  {
  }

  /** A complete record at the front is consumed whole, `2 + l` bytes and
      never fewer than two, and framing continues after it. */
  lemma DrainConsumesRecord(buffer: seq<byte>, values: Values)
    requires !Stable(buffer)
    requires ParsePacket(buffer[..2 + buffer[1] as int], values).Ok?
    ensures var l := buffer[1] as int;
      Drain(buffer, values) ==
        Drain(buffer[2 + l..], ParsePacket(buffer[..2 + l], values).value)
    ensures |buffer[2 + buffer[1] as int..]| <= |buffer| - 2
  {
  }

  /** A suffix of a suffix of `buffer` is a suffix of `buffer`. */
  lemma SuffixOfSuffix(buffer: seq<byte>, n: nat, tail: seq<byte>, rest: seq<byte>)
    requires n <= |buffer| && tail == buffer[n..]
    requires |rest| <= |tail| && rest == tail[|tail| - |rest|..]
    ensures |rest| <= |buffer| && rest == buffer[|buffer| - |rest|..]
  {
  }

  /** What the framer leaves is a suffix of the buffer it was given. */
  lemma {:induction false} DrainLeavesSuffix(buffer: seq<byte>, values: Values)
    ensures var r := Drain(buffer, values);
      |r.rest| <= |buffer| && r.rest == buffer[|buffer| - |r.rest|..]
    decreases |buffer|
  {
    if !Stable(buffer) {
      var l: int := buffer[1];
      var p := ParsePacket(buffer[..2 + l], values);
      if p.Ok? {
        var tail := buffer[2 + l..];
        DrainConsumesRecord(buffer, values);
        DrainLeavesSuffix(tail, p.value);
        SuffixOfSuffix(buffer, 2 + l, tail, Drain(tail, p.value).rest);
      }
    }
  }

  /** The framer never adds a name to the current values; it only updates
      the names it already shows. */
  lemma {:induction false} DrainKeepsNames(buffer: seq<byte>, values: Values)
    requires values.Keys == Names()
    ensures Drain(buffer, values).values.Keys == Names()
    decreases |buffer|
  {
    if |buffer| >= 2 && |buffer| >= 2 + buffer[1] as int {
      var l: int := buffer[1];
      var p := ParsePacket(buffer[..2 + l], values);
      if p.Ok? {
        assert p.value.Keys == Names();
        DrainKeepsNames(buffer[2 + l..], p.value);
      }
    }
  }

  /** Framing does not depend on how the stream is cut into reads: framing
      `a`, then framing what it left followed by `b`, ends where framing
      `a + b` at once ends, provided `a` raised nothing. */
  lemma {:induction false} DrainAppend(a: seq<byte>, b: seq<byte>, values: Values)
    requires Drain(a, values).error.None?
    ensures var r := Drain(a, values); Drain(r.rest + b, r.values) == Drain(a + b, values)
    decreases |a|
  {
    if |a| >= 2 && |a| >= 2 + a[1] as int {
      var l: int := a[1];
      assert (a + b)[..2 + l] == a[..2 + l];
      assert (a + b)[2 + l..] == a[2 + l..] + b;
      var p := ParsePacket(a[..2 + l], values);
      assert p.Ok?;
      assert Drain(a, values) == Drain(a[2 + l..], p.value);
      assert Drain(a + b, values) == Drain(a[2 + l..] + b, p.value);
      DrainAppend(a[2 + l..], b, p.value);
    }
  }

  // ---------------------------------------------------------------------
  // The monitor's state
  // ---------------------------------------------------------------------

  /** The global `current_values` and the receive buffer of `main`. */
  class Monitor {
    var buffer: seq<byte>
    var values: Values

    /** Between reads the values show exactly the table's names and the
        buffer holds no complete record. */
    ghost predicate Valid()
      reads this
    {
      values.Keys == Names() && Stable(buffer)
    }

    /** Module start-up (`current_values`) and `buffer = bytearray()`. */
    constructor ()
      ensures Valid()
      ensures buffer == [] && values == InitialValues()
    {
      buffer := [];
      values := InitialValues();
    }

    /** `parse_tlv_packet`: update `current_values` from one record, or
        raise and leave them as they were. */
    method ParseTlvPacket(data: seq<byte>) returns (err: Option<ParseError>)
      modifies this`values
      ensures ParsePacket(data, old(values)).Ok? ==>
        err == None && values == ParsePacket(data, old(values)).value
      ensures ParsePacket(data, old(values)).Err? ==>
        err == Some(ParsePacket(data, old(values)).error) && values == old(values)
    {
      var r := ParsePacket(data, values);
      if r.Ok? {
        values := r.value;
        err := None;
      } else {
        err := Some(r.error);
      }
    }

    /** One turn of `main`'s outer loop after `ser.read` returned `data`:
        if it is not empty, append it to the buffer and consume every
        complete record at the front. An exception from
        `parse_tlv_packet` ends the turn with the offending record still at
        the front of the buffer. */
    method Receive(data: seq<byte>) returns (err: Option<ParseError>)
      requires Valid()
      modifies this
      ensures data == [] ==> buffer == old(buffer) && values == old(values) && err == None
      ensures data != [] ==>
        var r := Drain(old(buffer) + data, old(values));
        buffer == r.rest && values == r.values && err == r.error
      ensures values.Keys == Names()
      ensures err.None? ==> Valid()
    {
      err := None;
      if data == [] {
        return;
      }
      buffer := buffer + data;
      ghost var start := buffer;
      DrainKeepsNames(start, values);
      while |buffer| >= 2
        invariant Drain(buffer, values) == Drain(start, old(values))
        invariant values.Keys == Names()
        invariant err == None
        decreases |buffer|
      {
        var l: int := buffer[1];
        if |buffer| < 2 + l {
          break;
        }
        var packet := buffer[..2 + l];
        err := ParseTlvPacket(packet);
        if err.Some? {
          return;
        }
        buffer := buffer[2 + l..];
      }
    }
  }
}
