# Mock vehicle telemetry over a TLV serial link, modelled in Dafny

The system fabricates a repeating 60-second driving cycle on an ESP32
(`main/main.c`) and streams, every 50 ms, ten sensor readings as
Type-Length-Value records over the UART. A Python serial monitor
(`esp32_debug.py`) reads the byte stream, carves complete records off the
front of its receive buffer, decodes each with a constant tag table and
keeps a table of current values.

The model has four modules, one file each:

- `wire.dfy` (`Wire`): octets, the C integer ranges, narrowing to
  `uint16_t`/`uint8_t`, the little-endian byte pair and two's complement.
- `mock_data.dfy` (`MockData`, `main/main.c`): the tag constants; the phase
  dispatch on the phase time `t` (a `real`); the snapshot a tick computes;
  the UART as a class `Uart` whose field `written` only grows; and the
  `send_tlv*` helpers and the per-tick emission as methods on it.
- `debug_monitor.dfy` (`DebugMonitor`, `esp32_debug.py`): the `TLV_TYPES`
  table, `struct.unpack` for the three formats, `parse_tlv_packet` as a
  function with its exceptions as error results, the framing loop as the
  function `Drain`, and a class `Monitor` holding `current_values` and the
  receive buffer, with a looping method `Receive` proved against `Drain`.
- `round_trip.dfy` (`RoundTrip`): both ends joined. The generator's tags and
  widths agree with the table. Each record decodes to the value sent. One
  tick's bytes reproduce the ten readings exactly, whichever byte the
  stream is cut at between two reads.

How the model relates to the code:

- The float expressions are not modelled. The result of each
  float-to-integer cast (`(uint16_t)(sin(t) * 100)`, `(uint16_t)(f * 3000)`,
  ...) is an input, the datatype `Casts`. Each branch casts at most one
  expression per field, so one value per field is enough. Everything
  around the casts is modelled exactly: which branch runs, the constants,
  the locals a branch leaves alone, and the `int` arithmetic narrowed back
  to `uint16_t`/`uint8_t`. Narrowing wraps modulo 2^16 or 2^8, as C does;
  `NarrowingWraps` shows the wrap in the idle branches.
- C's `value & 0xFF` is `value % 256`. C's `(value >> 8) & 0xFF` is
  `(value / 256) % 256`: an arithmetic shift rounds down, and so do Dafny's
  `/` and `%` when the divisor is positive. `SignedSplit` proves this
  equals the little-endian form of the two's-complement pattern.
- The byte sink is `Uart.written`. Each `uart_write_bytes` call appends to
  it.
- Python's uncaught exceptions (`IndexError`, `struct.error`) are the
  `ParseError` values. `Receive` stops at the first one and returns it. The
  record that raised is still at the front of the buffer.

Three facts about the code that the model makes explicit:

- One tick is 37 bytes: seven 16-bit fields (six unsigned and the signed
  steering angle) and three 8-bit fields (status flags, throttle and
  gear), that is 20 header bytes, 14 bytes of 16-bit values and 3 of
  8-bit ones (`TickSize`).
- The fuel level stays in [501, 3500]: for `t < 60`, `(uint16_t)(t * 50)`
  is at most 2999 (`FuelLevelNeverWraps`, in exact real arithmetic).
- The `(int16_t)` cast truncates the steering angle. The cast result is an
  input of the model.

## Model

| member | source | states |
|---|---|---|
| Wire.Wrap16 | main/main.c:85-139 | narrowing an `int` to `uint16_t` keeps it modulo 2^16 and leaves in-range values alone |
| Wire.Wrap8 | main/main.c:87-131 | narrowing an `int` to `uint8_t` keeps it modulo 2^8 and leaves in-range values alone |
| Wire.LittleEndian16 | main/main.c:39-44 | a 16-bit value becomes two bytes |
| Wire.LittleEndian16Value | main/main.c:39-44 | of those two bytes the first is the low one: `b0 + 256*b1` is the value |
| Wire.FromLittleEndian16 | esp32_debug.py:31-32 | reading a byte pair little-endian is the inverse of the encoding |
| Wire.ToTwos16 | main/main.c:47-52 | the stored pattern of an `int16_t` is congruent to it modulo 2^16 and is below 0x8000 exactly when the value is non-negative |
| Wire.FromTwos16 | esp32_debug.py:13 | reading a pattern as signed 16-bit is the inverse of two's complement |
| Wire.LittleEndian16RoundTrip | main/main.c:39-44 | encode then decode is the identity, and a pair encodes a value iff it decodes to it |
| Wire.Twos16RoundTrip | main/main.c:47-52 | two's complement is a bijection between int16 and uint16, in both directions |
| MockData.Initial | main/main.c:80-82 | the locals start each iteration at rpm 1000, speed 0, oil 1600, boost 800, brake 0, fuel 3500, throttle 0, gear 1, status 0, steering 0 |
| MockData.PhaseAt | main/main.c:84-128 | the first guard that holds picks a phase whose half-open interval contains `t` (below 0 only Idle, from 60 on only the last branch) |
| MockData.PhaseByInterval | main/main.c:84-128 | for `t` in [0,60): the dispatch picks phase q iff `t` lies in q's interval, so exactly one branch runs |
| MockData.PhaseBoundaries | main/main.c:84-120 | each boundary time belongs to the later phase (`t == 10` is acceleration, not idle) |
| MockData.Compute | main/main.c:80-142 | status flags are 0; gear is in 1..4; brake pressure is 0 outside braking; braking forces throttle 0 and boost 1000; fuel is `3500 - cast` wrapped; steering is the cast |
| MockData.GearByTime | main/main.c:88-132 | gear along [0,60): 1 until 20, 2 until 40, 3 until 43, 4 until 48, 2 until 50, then 1 |
| MockData.BrakeOnlyWhileBraking | main/main.c:80-136 | brake pressure is 0 at every time outside [45,50) |
| MockData.UnassignedLocalsKeepDefaults | main/main.c:80-126 | oil pressure stays 1600 in the four branches that do not assign it |
| MockData.IdleValues | main/main.c:84-134 | both idle branches set speed 0 and boost 800 |
| MockData.FuelLevelNeverWraps | main/main.c:139 | with the cast equal to the truncation of `t*50`, the fuel level is `3500 - cast`, in [501, 3500] |
| MockData.NarrowingWraps | main/main.c:84-129 | in the idle branches a cast that is the wrapped pattern `65536 - k` of a small negative sine makes the rpm `1000 - k`: `1000 + cast` wraps modulo 2^16 |
| MockData.CycleScenarios | main/main.c:84-127 | the snapshots at 0 s, 15 s and 47 s for the cast values the ramps give there |
| MockData.Payload | main/main.c:39-57 | the value bytes a helper passes to `send_tlv` are 2 wide for the 16-bit helpers and 1 for the 8-bit one |
| MockData.Encode | main/main.c:32-36 | the bytes of one `send_tlv` call: the tag, the length byte, then the value bytes |
| MockData.RecordLayout | main/main.c:32-57 | a record is tag, then a length byte equal to the value width, then exactly the value bytes |
| MockData.TickFields | main/main.c:145-154 | the ten helper calls of one tick, in emission order, each with its tag, its helper and its local |
| MockData.EncodeAll | main/main.c:32-36 | the bytes of a run of helper calls: each call's record, one after the other |
| MockData.TickTagOrder | main/main.c:145-154 | one tick makes ten calls whose tags are 0x01..0x0A in order, 8-bit for status flags, throttle and gear, signed for the steering angle |
| MockData.TickLayout | main/main.c:145-154 | the ten records written back to back in emission order are exactly the tick's bytes |
| MockData.TickSize | main/main.c:145-154 | one tick writes exactly 37 bytes |
| MockData.SignedSplit | main/main.c:47-52 | `[v & 0xFF, (v >> 8) & 0xFF]` of an `int16_t` is the little-endian form of its two's-complement pattern |
| MockData.Uart.constructor | main/main.c:73 | the sink starts empty |
| MockData.Uart.SendTlv | main/main.c:32-36 | appends exactly `[type, len] + value[0..len]` and nothing else |
| MockData.Uart.SendTlvU16 | main/main.c:39-44 | appends `[type, 2, v % 256, v / 256]` |
| MockData.Uart.SendTlvI16 | main/main.c:47-52 | appends the tag, 2 and the little-endian two's-complement bytes of `v` |
| MockData.Uart.SendTlvU8 | main/main.c:55-57 | appends `[type, 1, v]` |
| MockData.Uart.SendSnapshot | main/main.c:145-154 | appends exactly the ten records of the snapshot, one per call, in emission order |
| MockData.Uart.Tick | main/main.c:77-156 | one loop iteration appends exactly the records of the snapshot computed at `t` |
| DebugMonitor.TlvTypes | esp32_debug.py:6-17 | the ten tags 0x01..0x0A with their display names and formats: `<H` for six of them (0x01 to 0x05 and 0x08), `<h` for the steering angle, `<B` for status flags, throttle and gear |
| DebugMonitor.Unpack | esp32_debug.py:31-32 | `struct.unpack` succeeds iff the value is as wide as the format; the number it yields encodes back to those bytes (unsigned, signed or single byte) |
| DebugMonitor.NamesListed | esp32_debug.py:6-17 | the table's display names are the ten listed |
| DebugMonitor.ListedNamesDistinct | esp32_debug.py:7-16 | the ten listed display names are pairwise distinct strings |
| DebugMonitor.TenNames | esp32_debug.py:6-17 | the ten names of the table are distinct |
| DebugMonitor.TenInitialValues | esp32_debug.py:23 | `current_values` starts with ten entries |
| DebugMonitor.InitialValues | esp32_debug.py:23 | `current_values` starts with every table name, each showing "---" |
| DebugMonitor.ValueBytes | esp32_debug.py:28 | Python's slice `data[2:2+l]`: `l` bytes when the data holds that many after the header, else all the rest, each equal to the byte at its offset from 2 |
| DebugMonitor.ParsePacket | esp32_debug.py:25-35 | `parse_tlv_packet`: IndexError without a length byte; for a known tag, the unpacked value stored under its name, or struct.error when the width is wrong; an unknown tag changes nothing (its properties are the four lemmas below) |
| DebugMonitor.ParseFailsIff | esp32_debug.py:25-32 | parsing raises iff there is no length byte, or a known tag's value is not as wide as its format |
| DebugMonitor.ParseKnownTag | esp32_debug.py:29-33 | a known tag with the right width stores the unpacked value under its name |
| DebugMonitor.ParseUnknownTag | esp32_debug.py:29-35 | an unknown tag leaves `current_values` unchanged |
| DebugMonitor.ParseChangesOnlyItsName | esp32_debug.py:29-33 | a successful parse adds no name other than its tag's and changes no other entry |
| DebugMonitor.Drain | esp32_debug.py:54-61 | framing stops with no error iff the buffer left holds no complete record |
| DebugMonitor.DrainRaisesAtFront | esp32_debug.py:54-61 | after an exception, the record that raised it is complete at the front of the buffer left, and parsing it raises exactly that exception |
| DebugMonitor.DrainWaitsForMore | esp32_debug.py:54-58 | a buffer with fewer than 2 bytes or fewer than `2 + l` bytes is left unchanged |
| DebugMonitor.DrainConsumesRecord | esp32_debug.py:57-61 | a complete record is removed whole, `2 + l >= 2` bytes, and framing continues after it |
| DebugMonitor.DrainLeavesSuffix | esp32_debug.py:54-61 | the buffer left is a suffix of the buffer given |
| DebugMonitor.DrainKeepsNames | esp32_debug.py:29-33 | framing keeps the set of names in `current_values` |
| DebugMonitor.DrainAppend | esp32_debug.py:49-61 | framing `a` and then its leftover plus `b` ends where framing `a + b` at once ends |
| DebugMonitor.Monitor.constructor | esp32_debug.py:48 | the buffer starts empty and the values start as `current_values` does |
| DebugMonitor.Monitor.ParseTlvPacket | esp32_debug.py:25-35 | updates the values as the parse says, or returns its exception and changes nothing |
| DebugMonitor.Monitor.Receive | esp32_debug.py:50-61 | an empty read changes nothing; otherwise buffer, values and exception are those of framing the old buffer plus the chunk; the names are kept, and an error-free read leaves no complete record |
| RoundTrip.UnpackPayload | main/main.c:39-57 | unpacking a helper's value bytes with the matching format returns the number sent (signed for `send_tlv_i16`) |
| RoundTrip.TickAgreesWithTable | esp32_debug.py:6-17 | every tag a tick sends is in the table, with the format of the helper that sent it |
| RoundTrip.TickWidthsMatchTable | esp32_debug.py:6-17 | the length byte of every record of a tick is the width of its tag's format in the table |
| RoundTrip.DecodeRecord | esp32_debug.py:54-61 | one encoded record at the front is consumed whole and stores the number sent under its name |
| RoundTrip.DecodeRecords | esp32_debug.py:54-61 | a run of encoded records is consumed in order, each storing its number |
| RoundTrip.PrefixFramesCleanly | esp32_debug.py:54-58 | any prefix of a run of records frames without an exception |
| RoundTrip.ApplyTick | main/main.c:145-154 | decoding a tick's ten calls stores the ten readings under their names |
| RoundTrip.TickRoundTrip | main/main.c:145-154 | framing one tick's bytes leaves an empty buffer, no error, and the ten readings shown exactly, steering signed |
| RoundTrip.TwoReads | esp32_debug.py:49-61 | a tick cut at any byte into two reads ends exactly as one read of the whole tick |
| RoundTrip.StreamOneTick | main/main.c:145-154 | a tick sent to a fresh UART and read by a fresh monitor in two reads raises in neither read, shows the ten readings and leaves the buffer empty |

## Left out

- UART set-up (`uart_param_config`, `uart_set_pin`, `uart_driver_install`), the `ESP_ERROR_CHECK` abort and `ESP_LOGI` (main/main.c:62-75): hardware I/O and logging. The UART is the append-only sink `Uart.written`. The return value of `uart_write_bytes` is ignored by the code, and a write is assumed to take all its bytes.
- The clock and the pacing (main/main.c:78, 156): `esp_timer_get_time`, `fmod` and `vTaskDelay` are a host clock and an RTOS scheduler. The phase time `t` is a parameter, and `Uart.Tick` is one iteration of the endless `while (1)`.
- MockData.Compute: the sine and ramp magnitudes (rpm, speed, throttle, boost, oil pressure, brake ramp, fuel level, steering angle) are floating-point expressions: the ramps `f * k` and `t * 50` in `float`, the sine terms in `double` (`sin` takes and returns `double`). Their casts are inputs (`Casts`). Casting a negative float to an unsigned type, e.g. `(uint16_t)(sin(t) * 100)` at main/main.c:85, is undefined behaviour in C, so no particular value is assumed.
- MockData.FuelLevelNeverWraps: uses exact real arithmetic for `t * 50`, not float rounding.
- `serial.Serial` and `ser.read(64)` (esp32_debug.py:46, 50): serial I/O. A read is the arbitrary byte sequence `Receive` is given. The 64-byte bound of a read is not imposed, because the model accepts any length.
- The `print` of an unknown record, `display_values` and `os.system('clear')` (esp32_debug.py:35-43): terminal output only. None of them changes the buffer or the values.
- DebugMonitor.Monitor.Receive: an exception ends the Python program. The model only returns the error and the state at that point; nothing after it is modelled.
- The outer endless `while True` of `main` (esp32_debug.py:49): it is modelled one turn at a time by `Receive`.
