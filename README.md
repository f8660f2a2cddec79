# BLE motor board: pin-level control logic in Dafny

This project models the control logic of two firmware variants for one ESP32 motor board.

**Arduino variant (`arduino.py`, Arduino C++).** A write-only BLE characteristic receives binary frames of the form `[0xAA][command][speed?]`. Each command drives a two-motor H-bridge. The bridge has four direction pins and two 8-bit PWM duties, and each command is a fixed sequence of `digitalWrite`/`ledcWrite` calls. Module `BinaryProtocol` (`binary_protocol.dfy`) models this variant:

- the frame check and the speed default as pure functions (`DecodeFrame`, `ParseBody`);
- every command as the list of writes it performs, in source order (`CommandWrites`, `StopWrites`);
- a reference table of the final state each command must reach (`Outcome`);
- the sketch's global state as the class `MotorController`. Its methods perform the writes one call at a time, and a ghost history records every write since `setup`.

The safety invariant is that no motor ever has both its forward and its backward pin HIGH, as stored levels (see "## Left out" for the PWM-attached forward pins). It is proved after every single write, not only at the end of a command. The proof uses the "clear before set" discipline the source follows: a write never drives a pin HIGH unless the other pin of that motor is already known to be LOW (`ClearsBeforeSetting`, `ClearingKeepsSafe`). The class invariant `MotorController.Valid` states that every state the board has passed through since `setup` was safe.

**MicroPython variant (`main.py`).** A UART-style BLE service receives the texts `start` and `stop`. One motor is driven through `in1` (backward) and `in2` (forward). Module `TextProtocol` (`text_protocol.dfy`) models the interrupt handler `ble_irq`, `stop_motors` and `forward` as methods of the class `BleServer`. That class holds the pins, the global `program_running`, the `connected` flag and the log of advertising payloads. Its invariant is that both pins are LOW between handler calls, that `in1` has never been raised, and that no state since start-up has had both pins HIGH.

Module `Advertising` (`advertising.dfy`) models the payload `advertise()` builds: a Flags AD structure followed by a Complete Local Name AD structure. Each structure has the layout given in Vol 3, Part C, section 11 of the Bluetooth Core Specification. The Flags and Complete Local Name AD types are defined in sections 1.3 and 1.2 of Part A of the Core Specification Supplement. An independent AD-structure reader is proved to read the payload back as exactly those two structures.

Module `Common` (`common.dfy`) holds bytes, pin levels, `Option`, and the UTF-8 encoding of section 3 of RFC 3629 together with its one-byte-per-character form for ASCII text.

Two behaviours of the Arduino code are worth stating:

- A frame holding only the header (`[0xAA]`) is ignored, because `processCommand` returns on an empty body.
- Backward always writes duty 0, whatever the speed byte.

## Model

| member | source | states |
|---|---|---|
| `BinaryProtocol.ParseBody` | arduino.py:150-153 | An empty body gives no command. Otherwise the first byte is the command. The speed is the second byte, or 128 when the body has one byte. Later bytes are ignored. |
| `BinaryProtocol.DecodeFrame` | arduino.py:62-69 | A frame is dropped exactly when it is shorter than two bytes or its first byte is not `0xAA`. An accepted frame starts with the header and the command byte. Its speed is the third byte, or `DEFAULT_SPEED` (128) when the frame stops after the command. |
| `BinaryProtocol.DecodeEncode` | arduino.py:150-153 | Decoding a header/command/speed frame gives back that command, whatever bytes follow the speed byte. |
| `BinaryProtocol.DecodeShortFrame` | arduino.py:153 | `[0xAA, code]` decodes to `code` with speed 128. |
| `BinaryProtocol.EncodeDecode` | arduino.py:150-153 | Every three-byte frame that decodes is the encoding of what it decodes to. |
| `BinaryProtocol.StopWrites` | arduino.py:135-142 | `stopMotors` is six writes: each of the four direction pins is written LOW and each of the two channels gets duty 0. No write is HIGH or non-zero. |
| `BinaryProtocol.CommandWrites` | arduino.py:160-219 | Codes above 4 perform no write, and every code up to 4 performs some. Stop performs exactly `stopMotors`' writes. Forward and backward write six times, left and right five times. Every duty written is the speed or 0, and backward and stop write only duty 0. |
| `BinaryProtocol.Outcome` | arduino.py:160-219 | Every known code ends in a safe bridge. Each movement code drives each motor in exactly one direction. Stop ends in the set-up state, and any other code leaves the bridge as it was. Each duty ends as it was, as the speed, or as 0. |
| `BinaryProtocol.Apply` | arduino.py:136-142 | One `digitalWrite`/`ledcWrite` sets exactly the pin or channel it names. Every other pin and duty keeps its value. |
| `BinaryProtocol.ClearingKeepsSafe` | arduino.py:160-209 | A write sequence that only raises a pin whose partner is known LOW keeps a safe bridge safe after every single write. |
| `BinaryProtocol.CommandClearsBeforeSetting` | arduino.py:160-214 | Every command clears the partner of each pin before it drives that pin HIGH. |
| `BinaryProtocol.CommandSafeAtEveryStep` | arduino.py:160-214 | Starting from a bridge where no motor has both pins HIGH, no intermediate state of any command has a motor with both pins HIGH, and neither does the final state. |
| `BinaryProtocol.CommandReachesOutcome` | arduino.py:160-219 | The ordered writes of each code reach the table's final state. Forward: both forward pins HIGH, both backward pins LOW, both duties = speed. Backward: the reverse pattern with both duties 0. Left and right: crossed patterns, writing the speed to channel 2 (left) or channel 1 (right) only. Stop: all LOW, duties 0. Any other code: no change. |
| `BinaryProtocol.BackwardIgnoresSpeed` | arduino.py:174-185 | Backward ends with forward pins LOW, backward pins HIGH and both duties 0, whatever the speed byte. |
| `BinaryProtocol.TurnsKeepOtherDuty` | arduino.py:187-209 | Left writes the speed to channel 2 and leaves channel 1's duty as it was. Right writes it to channel 1 and leaves channel 2's duty as it was. |
| `BinaryProtocol.StopIdempotent` | arduino.py:135-145 | `stopMotors` leaves all four pins LOW and both duties 0 from any state. Stopping twice is the same as stopping once. |
| `BinaryProtocol.UnknownCodeIsIgnored` | arduino.py:216-219 | A code above 4 performs no write and changes nothing. |
| `BinaryProtocol.HistoryStaysSafe` | arduino.py:148-220 | Appending any command's writes to a history in which every state was safe keeps every state safe, and moves the board to the command's outcome. |
| `BinaryProtocol.MotorController.constructor` | arduino.py:86-89 | After `setup`, all four pins are LOW, the duties are 0, the device is not connected and the write history is empty. |
| `BinaryProtocol.MotorController.WritePin` | arduino.py:136-139 | `digitalWrite` changes one pin as `Apply` says and appends that write to the history. The flags are unchanged. |
| `BinaryProtocol.MotorController.WriteDuty` | arduino.py:141-142 | `ledcWrite` changes one duty as `Apply` says and appends that write to the history. The flags are unchanged. |
| `BinaryProtocol.MotorController.StopMotors` | arduino.py:135-145 | Performs the six stop writes in order. All pins end LOW and the duties 0. The safety invariant is kept and the connection state is unchanged. |
| `BinaryProtocol.MotorController.ProcessCommand` | arduino.py:148-221 | An empty body changes nothing. Otherwise the command's writes are appended in source order and the board reaches the command's outcome. The safety invariant holds over the whole history. |
| `BinaryProtocol.MotorController.OnWrite` | arduino.py:59-72 | Empty frames, frames without the header and the header alone leave pins, duties, history and flags unchanged. Any other frame acts as its decoded command. |
| `BinaryProtocol.MotorController.OnConnect` | arduino.py:40-43 | Only `deviceConnected` changes, to true. |
| `BinaryProtocol.MotorController.OnDisconnect` | arduino.py:45-54 | `deviceConnected` becomes false and the motors are stopped. Advertising is restarted exactly once. |
| `Common.Utf8EncodeChar` | main.py:121 | A character takes exactly 1 byte below U+0080, 2 bytes below U+0800, 3 bytes below U+10000 and 4 bytes above, so no overlong form is allowed. The first byte gives the length (`0xxxxxxx`, `110xxxxx`, `1110xxxx`, `11110xxx`). Every later byte is a continuation byte `10xxxxxx`. The free bits of the bytes, most significant first, are the code point. |
| `Common.Utf8Encode` | main.py:121 | `bytes(s, 'utf-8')` has between `len(s)` and `4 * len(s)` bytes, and exactly `len(s)` bytes when `s` is ASCII and only then. |
| `Common.Utf8EncodeAppend` | main.py:121 | The encoding of a concatenation is the concatenation of the encodings. |
| `Common.AsciiIsUtf8` | main.py:121 | On ASCII text, `bytes(s, 'utf-8')` is one byte per character, equal to the character's code point. |
| `Advertising.AdvertisingPayload` | main.py:121-128 | The payload is the Flags header `0x02 0x01 0x06`, a length octet, the type `0x09`, then the name, 5 bytes more than the name. The length octet is `len(name) + 1` reduced modulo 256, because MicroPython's `struct.pack('B', ...)` keeps the low byte without a range check. It equals `len(name) + 1` for names shorter than 255 bytes and is smaller for longer names. |
| `Advertising.ParseSerialize` | main.py:124-128 | Reading serialised AD structures (length octet, type, data) gives back exactly those structures. |
| `Advertising.PayloadParses` | main.py:124-128 | For a name shorter than 255 bytes, the payload reads as exactly two AD structures: Flags with data `0x06`, then Complete Local Name with data the name. This is the layout `[0x02, 0x01, 0x06, len(name)+1, 0x09] ++ name`. |
| `Advertising.OverlongNameIsMisread` | main.py:124-128 | For a name of 255 bytes or more, the wrapped length octet makes the payload read as something other than the Flags and name structures. |
| `Advertising.PayloadFitsLegacyAdvertising` | main.py:131 | The payload fits the 31 bytes of legacy advertising data exactly when the name has at most 26 bytes. |
| `TextProtocol.DeviceNameBytes` | main.py:50 | The name `MotorControl` is ASCII, and its UTF-8 bytes are the byte constant the payload is built from. |
| `TextProtocol.DevicePayload` | main.py:121-131 | The payload `advertise()` hands to `gap_advertise` is 17 bytes, within the 31 bytes of legacy advertising data. It reads as a Flags structure holding `0x06` followed by a Complete Local Name structure holding the bytes of `MotorControl`. `DeviceNameBytes` proves these are the name's UTF-8 encoding. |
| `TextProtocol.ApplyPin` | main.py:24-30 | One `Pin.value` call sets the pin it names and leaves the other pin as it was. |
| `TextProtocol.StopWrites` | main.py:23-25 | `stop_motors` writes LOW to both `in1` and `in2`, and writes nothing HIGH. |
| `TextProtocol.ForwardWrites` | main.py:28-32 | `forward()` is five writes. Its only HIGH write raises `in2`, and it ends with the two writes of `stop_motors`. |
| `TextProtocol.StopIdempotent` | main.py:23-25 | `stop_motors` leaves `in1` and `in2` LOW from any state. Stopping twice is the same as stopping once. |
| `TextProtocol.ForwardShape` | main.py:28-32 | `forward()` never raises `in1`. Its only HIGH write is to `in2`, placed between two stops, and it ends with both pins LOW. |
| `TextProtocol.In1LowKeepsMotorSafe` | main.py:12-32 | If `in1` starts LOW and no write raises it, no state along the writes has both pins HIGH. |
| `TextProtocol.CommandBytesAreTexts` | main.py:90-94 | The byte constants compared against are the UTF-8 encodings (RFC 3629) of `start` and `stop`. |
| `TextProtocol.ParseText` | main.py:84-98 | A buffer is Start exactly when it is the bytes of `start`, and Stop exactly when it is the bytes of `stop`. Every other buffer is ignored: empty ones, other texts and invalid UTF-8. |
| `TextProtocol.BleServer.constructor` | main.py:49-62 | At start-up both pins are LOW, `program_running` and `connected` are false, and one advertising payload has been issued. |
| `TextProtocol.BleServer.SetPin` | main.py:24-25 | `Pin.value` changes one pin and appends that write to the log. Everything else is unchanged. |
| `TextProtocol.BleServer.StopMotors` | main.py:23-25 | Both pins end LOW after the two writes `in1 := 0`, `in2 := 0`. The flags are unchanged. |
| `TextProtocol.BleServer.Forward` | main.py:28-32 | Performs exactly the forward writes. The invariant is kept and the flags are unchanged. |
| `TextProtocol.BleServer.Advertise` | main.py:119-132 | Appends one device payload to the advertising log and changes nothing else. |
| `TextProtocol.BleServer.BleIrq` | main.py:64-100 | Connect sets only `connected`. Disconnect clears `connected` and `program_running`, stops the motors and advertises once more. A `start` write sets `program_running` and runs `forward()`. A `stop` write clears it and stops. Any other write and any other event change nothing. Both pins are LOW after every call, `in1` is never raised, and no state since start-up has had both pins HIGH. |

## Left out

- BLE stack set-up and transport (`setup`'s BLE calls, `register_services`, `gatts_read`, `gap_advertise`, `BLEDevice::startAdvertising`) are foreign library calls. A restart of advertising is a counter in the Arduino variant and a log of payloads in the MicroPython variant. The buffer a write delivers is a parameter.
- Timing is not modelled: `time.sleep`, `delay`, the `duration` argument of `forward` and both main loops. `forward()` is its sequence of pin writes only.
- `run_program` and the main loop that runs it while `program_running` is set are not modelled, because `run_program` calls `backward`, `left` and `right`, which main.py never defines.
- `led.value(...)` in `ble_irq` is taken to do nothing. main.py never defines `led`. If nothing else provides it, the call raises before the disconnect handler's safety stop and before it clears `program_running`.
- Concurrency between the interrupt handler and the main loop is not modelled. Each handler call is one atomic step.
- PWM frequency and resolution set-up is not modelled, nor the electrical effect of `digitalWrite` on a pin attached to an LEDC channel. Pins and duties are stored values, and the safety invariant is about stored levels. On hardware where `ledcAttachPin` (arduino.py:94-95) hands each forward pin to its PWM channel, that pin follows the duty rather than `digitalWrite`. Read that way, Left after Forward would leave motor 1's forward pin switching at the old duty while its backward pin is HIGH, and Right after Forward would do the same to motor 2. Backward after Forward would pass through such a state for both motors: it raises both backward pins (arduino.py:179-180) before it zeroes the duties (arduino.py:183-184). The model does not capture this. `setup` never writes a duty, so the initial duties are taken to be the LEDC default 0.
- Serial and `print` logging are not modelled.
- Full UTF-8 decoding is not modelled. A buffer decodes to `start` or `stop` exactly when its bytes are those ASCII bytes, so invalid UTF-8 always falls into the ignored case.
- The pin levels before main.py's start-up writes (lines 16-17) are unknown. The model starts from both pins LOW with an empty write log.
