/** The MicroPython variant of the board (main.py): a UART-style BLE service whose RX
    characteristic receives the texts `start` and `stop`, driving one motor through two
    digital pins, `in1` (backward, GPIO 7) and `in2` (forward, GPIO 8). */
module TextProtocol {
  import opened Common
  import Advertising

  /** Event codes `ble_irq` distinguishes. */
  const IRQ_CENTRAL_CONNECT: int := 1
  const IRQ_CENTRAL_DISCONNECT: int := 2
  const IRQ_GATTS_WRITE: int := 3

  /** The name the server advertises. */
  const DEVICE_NAME: string := "MotorControl"

  // ---------------------------------------------------------------------------
  // Pin writes

  datatype Pin = In1 | In2

  /** One `Pin.value(level)` call. */
  datatype PinWrite = PinWrite(pin: Pin, level: Level)

  /** The two stored pin levels. */
  datatype Pins = Pins(in1: Level, in2: Level)

  /** The effect of one write: it sets the pin it names and keeps the other. */
  function ApplyPin(p: Pins, w: PinWrite): (r: Pins)
    ensures w.pin == In1 ==> r.in1 == w.level && r.in2 == p.in2
    ensures w.pin == In2 ==> r.in2 == w.level && r.in1 == p.in1
  {
    match w.pin
    case In1 => p.(in1 := w.level)
    case In2 => p.(in2 := w.level)
  }

  function RunPins(p: Pins, ws: seq<PinWrite>): Pins
    decreases |ws|
  {
    if ws == [] then p else RunPins(ApplyPin(p, ws[0]), ws[1..])
  }

  /** The writes of `stop_motors`. */
  function StopWrites(): (r: seq<PinWrite>)
    ensures forall i :: 0 <= i < |r| ==> r[i].level == Low
    ensures PinWrite(In1, Low) in r && PinWrite(In2, Low) in r
  {
    [PinWrite(In1, Low), PinWrite(In2, Low)]
  }

  /** The writes of `forward()`: stop, raise `in2`, (sleep,) stop. */
  function ForwardWrites(): (r: seq<PinWrite>)
    ensures forall i :: 0 <= i < |r| && r[i].level == High ==> r[i] == PinWrite(In2, High)
    ensures PinWrite(In2, High) in r
    ensures |r| == 5 && r[3..] == StopWrites()
  {
    StopWrites() + [PinWrite(In2, High)] + StopWrites()
  }

  /** No write in `ws` drives `in1` (backward) HIGH. */
  predicate NeverRaisesIn1(ws: seq<PinWrite>)
  {
    forall i :: 0 <= i < |ws| && ws[i].pin == In1 ==> ws[i].level == Low
  }

  /** Every state passed through while performing `ws`, the first and the last
      included, has at most one of the motor's two pins HIGH. */
  predicate NeverBothHigh(p: Pins, ws: seq<PinWrite>)
    decreases |ws|
  {
    !(p.in1 == High && p.in2 == High) && (ws != [] ==> NeverBothHigh(ApplyPin(p, ws[0]), ws[1..]))
  }

  /** If `in1` starts LOW and is never raised, the motor is never driven both ways at once. */
  lemma {:induction false} In1LowKeepsMotorSafe(p: Pins, ws: seq<PinWrite>)
    requires p.in1 == Low && NeverRaisesIn1(ws)
    ensures NeverBothHigh(p, ws)
    ensures RunPins(p, ws).in1 == Low
    decreases |ws|
  {
    if ws != [] {
      assert ws[0].pin == In1 ==> ws[0].level == Low;
      assert NeverRaisesIn1(ws[1..]) by {
        forall i | 0 <= i < |ws[1..]| && ws[1..][i].pin == In1
          ensures ws[1..][i].level == Low
        {
          assert ws[1..][i] == ws[i + 1];
        }
      }
      In1LowKeepsMotorSafe(ApplyPin(p, ws[0]), ws[1..]);
    }
  }

  /** `stop_motors` leaves both pins LOW from any state, so applying it twice is
      applying it once. */
  lemma StopIdempotent(p: Pins)
    ensures RunPins(p, StopWrites()) == Pins(Low, Low)
    ensures RunPins(RunPins(p, StopWrites()), StopWrites()) == RunPins(p, StopWrites())
  {
  }

  /** `forward()` never raises `in1`, raises only `in2` and only between two stops, and
      ends with both pins LOW. */
  lemma ForwardShape(p: Pins)
    ensures NeverRaisesIn1(ForwardWrites())
    ensures forall i :: 0 <= i < |ForwardWrites()| && ForwardWrites()[i].level == High ==> i == 2
    ensures ForwardWrites()[2] == PinWrite(In2, High)
    ensures ForwardWrites()[..2] == StopWrites() && ForwardWrites()[3..] == StopWrites()
    ensures RunPins(p, ForwardWrites()) == Pins(Low, Low)
  {
  }

  // ---------------------------------------------------------------------------
  // Text commands

  const START_BYTES: seq<Byte> := [0x73, 0x74, 0x61, 0x72, 0x74]
  const STOP_BYTES: seq<Byte> := [0x73, 0x74, 0x6f, 0x70]

  /** The byte constants are the UTF-8 encodings of the two command texts. */
  lemma CommandBytesAreTexts()
    ensures IsAscii("start") && START_BYTES == AsciiBytes("start") == Utf8Encode("start")
    ensures IsAscii("stop") && STOP_BYTES == AsciiBytes("stop") == Utf8Encode("stop")
  {
    AsciiIsUtf8("start");
    AsciiIsUtf8("stop");
  }

  datatype TextCommand = Start | Stop | Ignored

  /** What the write branch of `ble_irq` makes of the received buffer. An empty buffer
      is skipped by `if buffer:`; a buffer that decodes to `start` or `stop` is a
      command. UTF-8 decoding is one-to-one and maps the bytes of an ASCII text to that
      text, so comparing the bytes decides the comparison of the decoded string, and a
      buffer that fails to decode is never one of the two texts. */
  function ParseText(buffer: seq<Byte>): (r: TextCommand)
    ensures r == Start <==> buffer == START_BYTES
    ensures r == Stop <==> buffer == STOP_BYTES
    ensures r == Ignored <==> buffer != START_BYTES && buffer != STOP_BYTES
  {
    if |buffer| == 0 then Ignored
    else if buffer == START_BYTES then Start
    else if buffer == STOP_BYTES then Stop
    else Ignored
  }

  /** The UTF-8 bytes of `DEVICE_NAME`. */
  const DEVICE_NAME_BYTES: seq<Byte> := [0x4d, 0x6f, 0x74, 0x6f, 0x72, 0x43, 0x6f, 0x6e, 0x74, 0x72, 0x6f, 0x6c]

  lemma DeviceNameBytes()
    ensures IsAscii(DEVICE_NAME) && AsciiBytes(DEVICE_NAME) == DEVICE_NAME_BYTES
    ensures Utf8Encode(DEVICE_NAME) == DEVICE_NAME_BYTES
  {
    assert IsAscii(DEVICE_NAME) && AsciiBytes(DEVICE_NAME) == DEVICE_NAME_BYTES;
    AsciiIsUtf8(DEVICE_NAME);
  }

  /** The payload `advertise()` builds for the device name: 17 bytes, within the 31
      bytes of legacy advertising data, reading as the Flags structure and the
      Complete Local Name structure holding the name's UTF-8 bytes (`DeviceNameBytes`). */
  function DevicePayload(): (r: seq<Byte>)
    ensures |r| == 17 && |r| <= Advertising.LEGACY_ADV_DATA_MAX
    ensures Advertising.ParseAdStructures(r) ==
      Some(Advertising.IntendedStructures(DEVICE_NAME_BYTES))
  {
    Advertising.PayloadParses(DEVICE_NAME_BYTES);
    Advertising.AdvertisingPayload(DEVICE_NAME_BYTES)
  }

  // ---------------------------------------------------------------------------
  // The server and its interrupt handler

  /** The server together with the module state it changes: the two pins, the global
      `program_running`, the `connected` flag, and the payloads passed to
      `gap_advertise`, in order. */
  class BleServer {
    var in1: Level
    var in2: Level
    var programRunning: bool
    var connected: bool
    var advertisements: seq<seq<Byte>>
    /** Every `Pin.value` call since start-up, in order. */
    ghost var pinWrites: seq<PinWrite>

    function CurrentPins(): Pins
      reads this
    {
      Pins(in1, in2)
    }

    /** Between handler calls both pins are LOW, they are what the writes since
        start-up produce, none of those writes raised `in1`, and no state since
        start-up had both pins HIGH. */
    ghost predicate Valid()
      reads this
    {
      in1 == Low && in2 == Low &&
      RunPins(Pins(Low, Low), pinWrites) == CurrentPins() &&
      NeverRaisesIn1(pinWrites) &&
      NeverBothHigh(Pins(Low, Low), pinWrites)
    }

    /** Start-up: both pins LOW, `program_running` false, then `BLEServer()` clears
        `connected` and advertises once. */
    constructor ()
      ensures Valid() && pinWrites == []
      ensures !programRunning && !connected
      ensures advertisements == [DevicePayload()]
    {
      in1, in2 := Low, Low;
      programRunning := false;
      connected := false;
      advertisements := [DevicePayload()];
      pinWrites := [];
    }

    /** `in1_pin.value(level)` or `in2_pin.value(level)`. */
    method SetPin(pin: Pin, level: Level)
      modifies this
      ensures CurrentPins() == ApplyPin(old(CurrentPins()), PinWrite(pin, level))
      ensures pinWrites == old(pinWrites) + [PinWrite(pin, level)]
      ensures programRunning == old(programRunning) && connected == old(connected)
      ensures advertisements == old(advertisements)
    {
      match pin {
        case In1 => in1 := level;
        case In2 => in2 := level;
      }
      pinWrites := pinWrites + [PinWrite(pin, level)];
    }

    /** `stop_motors`. */
    method StopMotors()
      modifies this
      ensures in1 == Low && in2 == Low
      ensures pinWrites == old(pinWrites) + StopWrites()
      ensures programRunning == old(programRunning) && connected == old(connected)
      ensures advertisements == old(advertisements)
    {
      SetPin(In1, Low);
      SetPin(In2, Low);
    }

    /** `forward()`, without its sleep. */
    method Forward()
      requires Valid()
      modifies this
      ensures Valid()
      ensures pinWrites == old(pinWrites) + ForwardWrites()
      ensures programRunning == old(programRunning) && connected == old(connected)
      ensures advertisements == old(advertisements)
    {
      StopMotors();
      SetPin(In2, High);
      StopMotors();
      assert pinWrites == old(pinWrites) + ForwardWrites();
      KeepValid(old(pinWrites), ForwardWrites());
    }

    /** `advertise()`: one more payload handed to `gap_advertise`. */
    method Advertise()
      modifies this
      ensures advertisements == old(advertisements) + [DevicePayload()]
      ensures CurrentPins() == old(CurrentPins()) && pinWrites == old(pinWrites)
      ensures programRunning == old(programRunning) && connected == old(connected)
    {
      advertisements := advertisements + [DevicePayload()];
    }

    /** `ble_irq(event, data)`; `buffer` is what `gatts_read` returns for a write.
        The `led.value(...)` calls are taken to do nothing. */
    method BleIrq(event: int, buffer: seq<Byte>)
      requires Valid()
      modifies this
      ensures Valid()
      ensures event == IRQ_CENTRAL_CONNECT ==>
        connected && programRunning == old(programRunning) &&
        pinWrites == old(pinWrites) && advertisements == old(advertisements)
      ensures event == IRQ_CENTRAL_DISCONNECT ==>
        !connected && !programRunning &&
        pinWrites == old(pinWrites) + StopWrites() &&
        advertisements == old(advertisements) + [DevicePayload()]
      ensures event == IRQ_GATTS_WRITE ==>
        connected == old(connected) && advertisements == old(advertisements) &&
        match ParseText(buffer)
        case Start => programRunning && pinWrites == old(pinWrites) + ForwardWrites()
        case Stop => !programRunning && pinWrites == old(pinWrites) + StopWrites()
        case Ignored => programRunning == old(programRunning) && pinWrites == old(pinWrites)
      ensures event !in {IRQ_CENTRAL_CONNECT, IRQ_CENTRAL_DISCONNECT, IRQ_GATTS_WRITE} ==>
        connected == old(connected) && programRunning == old(programRunning) &&
        pinWrites == old(pinWrites) && advertisements == old(advertisements)
    {
      if event == IRQ_CENTRAL_CONNECT {
        connected := true;
      } else if event == IRQ_CENTRAL_DISCONNECT {
        connected := false;
        programRunning := false;
        StopMotors();
        KeepValid(old(pinWrites), StopWrites());
        Advertise();
      } else if event == IRQ_GATTS_WRITE {
        if |buffer| > 0 {
          if buffer == START_BYTES {
            programRunning := true;
            Forward();
          } else if buffer == STOP_BYTES {
            programRunning := false;
            StopMotors();
            KeepValid(old(pinWrites), StopWrites());
          }
        }
      }
    }
  }

  /** Appending writes that never raise `in1` and end with both pins LOW keeps the
      server's invariant, including that the motor was never driven both ways. */
  lemma KeepValid(h: seq<PinWrite>, ws: seq<PinWrite>)
    requires NeverRaisesIn1(h) && NeverRaisesIn1(ws)
    requires RunPins(Pins(Low, Low), h) == Pins(Low, Low)
    requires ws == StopWrites() || ws == ForwardWrites()
    ensures NeverRaisesIn1(h + ws)
    ensures RunPins(Pins(Low, Low), h + ws) == Pins(Low, Low)
    ensures NeverBothHigh(Pins(Low, Low), h + ws)
  {
    RunPinsAppend(Pins(Low, Low), h, ws);
    ForwardShape(Pins(Low, Low));
    StopIdempotent(Pins(Low, Low));
    assert forall i :: 0 <= i < |h + ws| ==> (h + ws)[i] == if i < |h| then h[i] else ws[i - |h|];
    In1LowKeepsMotorSafe(Pins(Low, Low), h + ws);
  }

  lemma {:induction false} RunPinsAppend(p: Pins, ws: seq<PinWrite>, vs: seq<PinWrite>)
    ensures RunPins(p, ws + vs) == RunPins(RunPins(p, ws), vs)
    decreases |ws|
  {
    if ws == [] {
      assert ws + vs == vs;
    } else {
      assert (ws + vs)[1..] == ws[1..] + vs;
      RunPinsAppend(ApplyPin(p, ws[0]), ws[1..], vs);
    }
  }
}
