/** The Arduino variant of the board (arduino.py, which is Arduino C++ despite its name):
    a write-only BLE characteristic receives binary frames `[0xAA][command][speed?]` and
    each command drives a two-motor H-bridge through a fixed, ordered series of
    `digitalWrite` and `ledcWrite` calls. */
module BinaryProtocol {
  import opened Common

  /** First byte of every accepted frame. */
  const HEADER: Byte := 0xAA
  /** Speed used when a frame carries no speed byte (50% of the 8-bit PWM range). */
  const DEFAULT_SPEED: Byte := 128

  /** Command codes of the `switch` in `processCommand`. */
  const STOP: Byte := 0
  const FORWARD: Byte := 1
  const BACKWARD: Byte := 2
  const LEFT: Byte := 3
  const RIGHT: Byte := 4

  // ---------------------------------------------------------------------------
  // Frames

  /** A decoded command: the command byte and the speed byte (or its default). */
  datatype Command = Command(code: Byte, speed: Byte)

  /** What `processCommand` makes of the frame body left after the header byte:
      nothing when the body is empty, otherwise its first byte as the command and
      its second byte, when present, as the speed. */
  function ParseBody(body: seq<Byte>): (r: Option<Command>)
    ensures r.None? <==> body == []
    ensures |body| == 1 ==> r == Some(Command(body[0], DEFAULT_SPEED))
    ensures |body| >= 2 ==> r == Some(Command(body[0], body[1]))
  {
    if |body| < 1 then None
    else Some(Command(body[0], if |body| > 1 then body[1] else DEFAULT_SPEED))
  }

  /** What `onWrite` hands on to `processCommand`: frames that are empty or lack the
      header are dropped, and so are frames that hold the header alone. */
  function DecodeFrame(frame: seq<Byte>): (r: Option<Command>)
    ensures r.None? <==> |frame| < 2 || frame[0] != HEADER
    ensures r.Some? ==> frame[..2] == [HEADER, r.value.code]
    ensures r.Some? && |frame| == 2 ==> r.value.speed == DEFAULT_SPEED
    ensures r.Some? && |frame| > 2 ==> r.value.speed == frame[2]
  {
    if |frame| > 0 && frame[0] == HEADER then ParseBody(frame[1..]) else None
  }

  /** The three-byte frame a controller sends for `c`. */
  function EncodeFrame(c: Command): seq<Byte>
  {
    [HEADER, c.code, c.speed]
  }

  /** Decoding inverts encoding, and bytes after the speed byte are ignored. */
  lemma DecodeEncode(c: Command, trailer: seq<Byte>)
    ensures DecodeFrame(EncodeFrame(c) + trailer) == Some(c)
  {
  }

  /** A frame without a speed byte decodes to the default speed. */
  lemma DecodeShortFrame(code: Byte)
    ensures DecodeFrame([HEADER, code]) == Some(Command(code, DEFAULT_SPEED))
  {
  }

  /** Every three-byte frame that decodes is the encoding of what it decodes to. */
  lemma EncodeDecode(frame: seq<Byte>)
    requires |frame| == 3 && DecodeFrame(frame).Some?
    ensures EncodeFrame(DecodeFrame(frame).value) == frame
  {
  }

  // ---------------------------------------------------------------------------
  // The H-bridge

  /** The four direction pins (GPIO 8, 7, 9 and 10). */
  datatype Pin = Motor1Forward | Motor1Backward | Motor2Forward | Motor2Backward

  /** The two LEDC PWM channels (0 and 1), attached to the two forward pins. */
  datatype PwmChannel = Channel1 | Channel2

  /** The other direction pin of the same motor. */
  function Partner(p: Pin): (q: Pin)
    ensures q != p
  {
    match p
    case Motor1Forward => Motor1Backward
    case Motor1Backward => Motor1Forward
    case Motor2Forward => Motor2Backward
    case Motor2Backward => Motor2Forward
  }

  /** The stored levels of the four direction pins and the stored duties of the two
      PWM channels. */
  datatype Bridge = Bridge(m1Forward: Level, m1Backward: Level,
                           m2Forward: Level, m2Backward: Level,
                           duty1: Byte, duty2: Byte)
  {
    function LevelOf(p: Pin): Level
    {
      match p
      case Motor1Forward => m1Forward
      case Motor1Backward => m1Backward
      case Motor2Forward => m2Forward
      case Motor2Backward => m2Backward
    }

    function DutyOf(c: PwmChannel): Byte
    {
      match c
      case Channel1 => duty1
      case Channel2 => duty2
    }
  }

  /** No motor has both its forward and its backward pin HIGH (which would short the
      H-bridge). */
  predicate Safe(b: Bridge)
  {
    !(b.m1Forward == High && b.m1Backward == High) &&
    !(b.m2Forward == High && b.m2Backward == High)
  }

  /** All pins LOW and both duties 0: the state `setup` leaves behind. */
  function SetupState(): Bridge
  {
    Bridge(Low, Low, Low, Low, 0, 0)
  }

  /** One peripheral call: `digitalWrite(pin, level)` or `ledcWrite(channel, duty)`. */
  datatype Write = DigitalWrite(pin: Pin, level: Level) | LedcWrite(channel: PwmChannel, duty: Byte)

  /** The effect of one write: it sets exactly the pin or channel it names. */
  function Apply(b: Bridge, w: Write): (r: Bridge)
    ensures forall p :: r.LevelOf(p) == (if w.DigitalWrite? && w.pin == p then w.level else b.LevelOf(p))
    ensures forall c :: r.DutyOf(c) == (if w.LedcWrite? && w.channel == c then w.duty else b.DutyOf(c))
  {
    match w
    case DigitalWrite(Motor1Forward, l) => b.(m1Forward := l)
    case DigitalWrite(Motor1Backward, l) => b.(m1Backward := l)
    case DigitalWrite(Motor2Forward, l) => b.(m2Forward := l)
    case DigitalWrite(Motor2Backward, l) => b.(m2Backward := l)
    case LedcWrite(Channel1, d) => b.(duty1 := d)
    case LedcWrite(Channel2, d) => b.(duty2 := d)
  }

  /** The state after performing `ws` in order. */
  function Run(b: Bridge, ws: seq<Write>): Bridge
    decreases |ws|
  {
    if ws == [] then b else Run(Apply(b, ws[0]), ws[1..])
  }

  /** Every state passed through while performing `ws` in order, the first and the
      last included, is safe. */
  predicate SafeThroughout(b: Bridge, ws: seq<Write>)
    decreases |ws|
  {
    Safe(b) && (ws != [] ==> SafeThroughout(Apply(b, ws[0]), ws[1..]))
  }

  lemma {:induction false} RunAppend(b: Bridge, ws: seq<Write>, vs: seq<Write>)
    ensures Run(b, ws + vs) == Run(Run(b, ws), vs)
    decreases |ws|
  {
    if ws == [] {
      assert ws + vs == vs;
    } else {
      assert (ws + vs)[1..] == ws[1..] + vs;
      RunAppend(Apply(b, ws[0]), ws[1..], vs);
    }
  }

  /** Safety over a concatenation is safety over each part, the second part starting
      where the first ends. */
  lemma {:induction false} SafeThroughoutAppend(b: Bridge, ws: seq<Write>, vs: seq<Write>)
    ensures SafeThroughout(b, ws + vs) <==> SafeThroughout(b, ws) && SafeThroughout(Run(b, ws), vs)
    decreases |ws|
  {
    if ws == [] {
      assert ws + vs == vs;
    } else {
      assert (ws + vs)[1..] == ws[1..] + vs;
      SafeThroughoutAppend(Apply(b, ws[0]), ws[1..], vs);
    }
  }

  lemma {:induction false} SafeThroughoutEnds(b: Bridge, ws: seq<Write>)
    requires SafeThroughout(b, ws)
    ensures Safe(Run(b, ws))
    decreases |ws|
  {
    if ws != [] {
      SafeThroughoutEnds(Apply(b, ws[0]), ws[1..]);
    }
  }

  // ---------------------------------------------------------------------------
  // Clearing before setting

  /** The writes of `ws` from index `i` on never drive a pin HIGH unless the other pin
      of its motor is known to be LOW at that moment. `low` holds the pins known to be
      LOW before write `i`: a LOW write adds its pin, a HIGH write needs its partner
      present and removes its own pin. */
  predicate ClearsBeforeSetting(low: set<Pin>, ws: seq<Write>, i: nat)
    decreases |ws| - i
  {
    if i >= |ws| then true
    else match ws[i]
      case DigitalWrite(p, Low) => ClearsBeforeSetting(low + {p}, ws, i + 1)
      case DigitalWrite(p, High) => Partner(p) in low && ClearsBeforeSetting(low - {p}, ws, i + 1)
      case LedcWrite(_, _) => ClearsBeforeSetting(low, ws, i + 1)
  }

  /** Writes that clear before they set keep a safe bridge safe after every single write. */
  lemma {:induction false} ClearingKeepsSafe(b: Bridge, low: set<Pin>, ws: seq<Write>, i: nat)
    requires i <= |ws|
    requires Safe(b)
    requires forall p :: p in low ==> b.LevelOf(p) == Low
    requires ClearsBeforeSetting(low, ws, i)
    ensures SafeThroughout(b, ws[i..])
    decreases |ws| - i
  {
    if i < |ws| {
      var b' := Apply(b, ws[i]);
      assert ws[i..][1..] == ws[i + 1..];
      match ws[i]
      case DigitalWrite(p, Low) =>
        assert Safe(b') by {
          assert b'.LevelOf(p) == Low;
        }
        ClearingKeepsSafe(b', low + {p}, ws, i + 1);
      case DigitalWrite(p, High) =>
        assert b'.LevelOf(Partner(p)) == Low;
        assert Safe(b');
        ClearingKeepsSafe(b', low - {p}, ws, i + 1);
      case LedcWrite(_, _) =>
        assert forall p :: b'.LevelOf(p) == b.LevelOf(p);
        ClearingKeepsSafe(b', low, ws, i + 1);
    }
  }

  // ---------------------------------------------------------------------------
  // Commands

  /** The writes of `stopMotors`, in source order. */
  function StopWrites(): (r: seq<Write>)
    ensures |r| == 6
    ensures forall i :: 0 <= i < |r| && r[i].DigitalWrite? ==> r[i].level == Low
    ensures forall i :: 0 <= i < |r| && r[i].LedcWrite? ==> r[i].duty == 0
    ensures forall p: Pin :: DigitalWrite(p, Low) in r
    ensures forall ch: PwmChannel :: LedcWrite(ch, 0) in r
  {
    var r := [DigitalWrite(Motor1Forward, Low), DigitalWrite(Motor1Backward, Low),
              DigitalWrite(Motor2Forward, Low), DigitalWrite(Motor2Backward, Low),
              LedcWrite(Channel1, 0), LedcWrite(Channel2, 0)];
    assert forall p: Pin :: DigitalWrite(p, Low) in r by {
      forall p: Pin ensures DigitalWrite(p, Low) in r {
        if p == Motor1Forward { assert r[0] == DigitalWrite(p, Low); }
        else if p == Motor1Backward { assert r[1] == DigitalWrite(p, Low); }
        else if p == Motor2Forward { assert r[2] == DigitalWrite(p, Low); }
        else { assert r[3] == DigitalWrite(p, Low); }
      }
    }
    assert forall ch: PwmChannel :: LedcWrite(ch, 0) in r by {
      forall ch: PwmChannel ensures LedcWrite(ch, 0) in r {
        if ch == Channel1 { assert r[4] == LedcWrite(ch, 0); }
        else { assert r[5] == LedcWrite(ch, 0); }
      }
    }
    r
  }

  /** The writes `processCommand` performs for a decoded command, in source order. */
  function CommandWrites(c: Command): (r: seq<Write>)
    ensures c.code > RIGHT <==> r == []
    ensures c.code == STOP ==> r == StopWrites()
    ensures c.code == LEFT || c.code == RIGHT ==> |r| == 5
    ensures c.code == FORWARD || c.code == BACKWARD ==> |r| == 6
    ensures forall i :: 0 <= i < |r| && r[i].LedcWrite? ==> r[i].duty == c.speed || r[i].duty == 0
    ensures c.code == BACKWARD || c.code == STOP ==>
      forall i :: 0 <= i < |r| && r[i].LedcWrite? ==> r[i].duty == 0
  {
    if c.code == FORWARD then
      [DigitalWrite(Motor1Backward, Low), DigitalWrite(Motor2Backward, Low),
       LedcWrite(Channel1, c.speed), LedcWrite(Channel2, c.speed),
       DigitalWrite(Motor1Forward, High), DigitalWrite(Motor2Forward, High)]
    else if c.code == BACKWARD then
      [DigitalWrite(Motor1Forward, Low), DigitalWrite(Motor2Forward, Low),
       DigitalWrite(Motor1Backward, High), DigitalWrite(Motor2Backward, High),
       LedcWrite(Channel1, 0), LedcWrite(Channel2, 0)]
    else if c.code == LEFT then
      [DigitalWrite(Motor1Forward, Low), DigitalWrite(Motor2Backward, Low),
       DigitalWrite(Motor1Backward, High), DigitalWrite(Motor2Forward, High),
       LedcWrite(Channel2, c.speed)]
    else if c.code == RIGHT then
      [DigitalWrite(Motor1Backward, Low), DigitalWrite(Motor2Forward, Low),
       DigitalWrite(Motor1Forward, High), DigitalWrite(Motor2Backward, High),
       LedcWrite(Channel1, c.speed)]
    else if c.code == STOP then
      StopWrites()
    else
      []
  }

  /** The final state each command is meant to reach, as a table: forward runs both
      motors forward at `speed`; backward runs both backward with duty 0 whatever the
      speed (full speed, no PWM); left and right cross the motors and set the duty of
      one channel only; stop clears everything; other codes change nothing. */
  function Outcome(b: Bridge, c: Command): (r: Bridge)
    ensures c.code <= RIGHT ==> Safe(r)
    ensures FORWARD <= c.code <= RIGHT ==> r.m1Forward != r.m1Backward && r.m2Forward != r.m2Backward
    ensures c.code == STOP ==> r == SetupState()
    ensures c.code > RIGHT ==> r == b
    ensures r.duty1 == b.duty1 || r.duty1 == c.speed || r.duty1 == 0
    ensures r.duty2 == b.duty2 || r.duty2 == c.speed || r.duty2 == 0
  {
    if c.code == FORWARD then Bridge(High, Low, High, Low, c.speed, c.speed)
    else if c.code == BACKWARD then Bridge(Low, High, Low, High, 0, 0)
    else if c.code == LEFT then b.(m1Forward := Low, m1Backward := High, m2Forward := High, m2Backward := Low, duty2 := c.speed)
    else if c.code == RIGHT then b.(m1Forward := High, m1Backward := Low, m2Forward := Low, m2Backward := High, duty1 := c.speed)
    else if c.code == STOP then SetupState()
    else b
  }

  /** The ordered writes of every command reach the state of the table. */
  lemma CommandReachesOutcome(b: Bridge, c: Command)
    ensures Run(b, CommandWrites(c)) == Outcome(b, c)
  {
    var ws := CommandWrites(c);
    var b1 := if ws == [] then b else Apply(b, ws[0]);
    if |ws| == 6 {
      var b6 := Apply(Apply(Apply(Apply(Apply(b1, ws[1]), ws[2]), ws[3]), ws[4]), ws[5]);
      assert Run(b, ws) == b6 by { RunSix(b, ws); }
    } else if |ws| == 5 {
      var b5 := Apply(Apply(Apply(Apply(b1, ws[1]), ws[2]), ws[3]), ws[4]);
      assert Run(b, ws) == b5 by { RunFive(b, ws); }
    }
  }

  lemma RunFive(b: Bridge, ws: seq<Write>)
    requires |ws| == 5
    ensures Run(b, ws) == Apply(Apply(Apply(Apply(Apply(b, ws[0]), ws[1]), ws[2]), ws[3]), ws[4])
  {
    var b1 := Apply(b, ws[0]);
    var b2 := Apply(b1, ws[1]);
    var b3 := Apply(b2, ws[2]);
    var b4 := Apply(b3, ws[3]);
    var b5 := Apply(b4, ws[4]);
    assert Run(b5, ws[5..]) == b5;
    assert Run(b4, ws[4..]) == b5;
    assert Run(b3, ws[3..]) == b5;
    assert Run(b2, ws[2..]) == b5;
    assert Run(b1, ws[1..]) == b5;
  }

  lemma RunSix(b: Bridge, ws: seq<Write>)
    requires |ws| == 6
    ensures Run(b, ws) == Apply(Apply(Apply(Apply(Apply(Apply(b, ws[0]), ws[1]), ws[2]), ws[3]), ws[4]), ws[5])
  {
    RunFive(Apply(b, ws[0]), ws[1..]);
  }

  /** Every command clears the partner of each pin before it drives that pin HIGH. */
  lemma CommandClearsBeforeSetting(c: Command)
    ensures ClearsBeforeSetting({}, CommandWrites(c), 0)
  {
    var ws := CommandWrites(c);
    if c.code == FORWARD {
      var low := {} + {Motor1Backward} + {Motor2Backward};
      assert ClearsBeforeSetting(low - {Motor1Forward}, ws, 5);
      assert ClearsBeforeSetting(low, ws, 2);
    } else if c.code == BACKWARD {
      var low := {} + {Motor1Forward} + {Motor2Forward};
      assert ClearsBeforeSetting(low - {Motor1Backward} - {Motor2Backward}, ws, 4);
      assert ClearsBeforeSetting(low, ws, 2);
    } else if c.code == LEFT {
      var low := {} + {Motor1Forward} + {Motor2Backward};
      assert ClearsBeforeSetting(low - {Motor1Backward} - {Motor2Forward}, ws, 4);
      assert ClearsBeforeSetting(low, ws, 2);
    } else if c.code == RIGHT {
      var low := {} + {Motor1Backward} + {Motor2Forward};
      assert ClearsBeforeSetting(low - {Motor1Forward} - {Motor2Backward}, ws, 4);
      assert ClearsBeforeSetting(low, ws, 2);
    } else if c.code == STOP {
      var low := {} + {Motor1Forward} + {Motor1Backward} + {Motor2Forward} + {Motor2Backward};
      assert ClearsBeforeSetting(low, ws, 4);
    }
  }

  /** The safety invariant: from a safe bridge, no single write of any command leaves
      a motor with both pins HIGH. */
  lemma CommandSafeAtEveryStep(b: Bridge, c: Command)
    requires Safe(b)
    ensures SafeThroughout(b, CommandWrites(c))
    ensures Safe(Outcome(b, c))
  {
    CommandClearsBeforeSetting(c);
    ClearingKeepsSafe(b, {}, CommandWrites(c), 0);
    assert CommandWrites(c)[0..] == CommandWrites(c);
    SafeThroughoutEnds(b, CommandWrites(c));
    CommandReachesOutcome(b, c);
  }

  /** Backward ignores the speed byte: its duties are 0 whatever the speed. */
  lemma BackwardIgnoresSpeed(b: Bridge, speed: Byte)
    ensures Run(b, CommandWrites(Command(BACKWARD, speed))) == Bridge(Low, High, Low, High, 0, 0)
  {
    CommandReachesOutcome(b, Command(BACKWARD, speed));
  }

  /** Left sets only channel 2's duty and right only channel 1's; the other channel
      keeps the duty it had. */
  lemma TurnsKeepOtherDuty(b: Bridge, speed: Byte)
    ensures Run(b, CommandWrites(Command(LEFT, speed))).duty1 == b.duty1
    ensures Run(b, CommandWrites(Command(LEFT, speed))).duty2 == speed
    ensures Run(b, CommandWrites(Command(RIGHT, speed))).duty2 == b.duty2
    ensures Run(b, CommandWrites(Command(RIGHT, speed))).duty1 == speed
  {
    CommandReachesOutcome(b, Command(LEFT, speed));
    CommandReachesOutcome(b, Command(RIGHT, speed));
  }

  /** Stopping leaves all pins LOW and both duties 0, and stopping twice is stopping once. */
  lemma StopIdempotent(b: Bridge)
    ensures Run(b, StopWrites()) == SetupState()
    ensures Run(Run(b, StopWrites()), StopWrites()) == Run(b, StopWrites())
  {
  }

  /** A code above 4 performs no write at all. */
  lemma UnknownCodeIsIgnored(b: Bridge, c: Command)
    requires c.code > RIGHT
    ensures CommandWrites(c) == [] && Run(b, CommandWrites(c)) == b
  {
  }

  /** Appending a command's writes to a safe history keeps every state of the history
      safe and moves the board to the command's outcome. */
  lemma HistoryStaysSafe(h: seq<Write>, c: Command)
    requires SafeThroughout(SetupState(), h)
    ensures Run(SetupState(), h + CommandWrites(c)) == Outcome(Run(SetupState(), h), c)
    ensures SafeThroughout(SetupState(), h + CommandWrites(c))
  {
    var b := Run(SetupState(), h);
    RunAppend(SetupState(), h, CommandWrites(c));
    SafeThroughoutAppend(SetupState(), h, CommandWrites(c));
    SafeThroughoutEnds(SetupState(), h);
    CommandSafeAtEveryStep(b, c);
    CommandReachesOutcome(b, c);
  }

  // ---------------------------------------------------------------------------
  // The sketch's global state and callbacks

  /** The board as the sketch drives it: the four direction pins, the two PWM duties,
      the `deviceConnected` flag and the number of times advertising was restarted. */
  class MotorController {
    var m1Forward: Level
    var m1Backward: Level
    var m2Forward: Level
    var m2Backward: Level
    var duty1: Byte
    var duty2: Byte
    var deviceConnected: bool
    var advertisingRestarts: nat
    /** Every `digitalWrite` and `ledcWrite` since `setup`, in the order performed. */
    ghost var history: seq<Write>

    function Current(): Bridge
      reads this
    {
      Bridge(m1Forward, m1Backward, m2Forward, m2Backward, duty1, duty2)
    }

    /** The stored pins and duties are what the history of writes produces, and no
        state the board passed through since `setup` had a motor with both pins HIGH. */
    ghost predicate Valid()
      reads this
    {
      Run(SetupState(), history) == Current() && SafeThroughout(SetupState(), history)
    }

    /** The motor part of `setup`: all four direction pins driven LOW. */
    constructor ()
      ensures Valid() && Current() == SetupState() && history == []
      ensures !deviceConnected && advertisingRestarts == 0
    {
      m1Forward, m1Backward, m2Forward, m2Backward := Low, Low, Low, Low;
      duty1, duty2 := 0, 0;
      deviceConnected := false;
      advertisingRestarts := 0;
      history := [];
    }

    /** `digitalWrite(pin, level)`. */
    method WritePin(pin: Pin, level: Level)
      modifies this
      ensures Current() == Apply(old(Current()), DigitalWrite(pin, level))
      ensures history == old(history) + [DigitalWrite(pin, level)]
      ensures deviceConnected == old(deviceConnected) && advertisingRestarts == old(advertisingRestarts)
    {
      match pin {
        case Motor1Forward => m1Forward := level;
        case Motor1Backward => m1Backward := level;
        case Motor2Forward => m2Forward := level;
        case Motor2Backward => m2Backward := level;
      }
      history := history + [DigitalWrite(pin, level)];
    }

    /** `ledcWrite(channel, duty)`. */
    method WriteDuty(channel: PwmChannel, duty: Byte)
      modifies this
      ensures Current() == Apply(old(Current()), LedcWrite(channel, duty))
      ensures history == old(history) + [LedcWrite(channel, duty)]
      ensures deviceConnected == old(deviceConnected) && advertisingRestarts == old(advertisingRestarts)
    {
      match channel {
        case Channel1 => duty1 := duty;
        case Channel2 => duty2 := duty;
      }
      history := history + [LedcWrite(channel, duty)];
    }

    /** `stopMotors`: all four pins LOW, then both duties 0. */
    method StopMotors()
      requires Valid()
      modifies this
      ensures Valid()
      ensures history == old(history) + StopWrites()
      ensures Current() == SetupState()
      ensures deviceConnected == old(deviceConnected) && advertisingRestarts == old(advertisingRestarts)
    {
      WritePin(Motor1Forward, Low);
      WritePin(Motor1Backward, Low);
      WritePin(Motor2Forward, Low);
      WritePin(Motor2Backward, Low);
      WriteDuty(Channel1, 0);
      WriteDuty(Channel2, 0);
      assert history == old(history) + CommandWrites(Command(STOP, 0));
      HistoryStaysSafe(old(history), Command(STOP, 0));
    }

    /** `processCommand` on the frame body after the header: an empty body is ignored;
        otherwise the command's writes are performed in source order. */
    method ProcessCommand(body: seq<Byte>)
      requires Valid()
      modifies this
      ensures Valid()
      ensures ParseBody(body).None? ==> history == old(history) && Current() == old(Current())
      ensures ParseBody(body).Some? ==>
        history == old(history) + CommandWrites(ParseBody(body).value) &&
        Current() == Outcome(old(Current()), ParseBody(body).value)
      ensures deviceConnected == old(deviceConnected) && advertisingRestarts == old(advertisingRestarts)
    {
      if |body| < 1 {
        return;
      }
      var command := body[0];
      var speed := if |body| > 1 then body[1] else DEFAULT_SPEED;
      ghost var c := Command(command, speed);
      assert ParseBody(body) == Some(c);
      if command == FORWARD {
        WritePin(Motor1Backward, Low);
        WritePin(Motor2Backward, Low);
        WriteDuty(Channel1, speed);
        WriteDuty(Channel2, speed);
        WritePin(Motor1Forward, High);
        WritePin(Motor2Forward, High);
        assert history == old(history) + CommandWrites(c);
      } else if command == BACKWARD {
        WritePin(Motor1Forward, Low);
        WritePin(Motor2Forward, Low);
        WritePin(Motor1Backward, High);
        WritePin(Motor2Backward, High);
        WriteDuty(Channel1, 0);
        WriteDuty(Channel2, 0);
        assert history == old(history) + CommandWrites(c);
      } else if command == LEFT {
        WritePin(Motor1Forward, Low);
        WritePin(Motor2Backward, Low);
        WritePin(Motor1Backward, High);
        WritePin(Motor2Forward, High);
        WriteDuty(Channel2, speed);
        assert history == old(history) + CommandWrites(c);
      } else if command == RIGHT {
        WritePin(Motor1Backward, Low);
        WritePin(Motor2Forward, Low);
        WritePin(Motor1Forward, High);
        WritePin(Motor2Backward, High);
        WriteDuty(Channel1, speed);
        assert history == old(history) + CommandWrites(c);
      } else if command == STOP {
        StopMotors();
      }
      HistoryStaysSafe(old(history), c);
    }

    /** `onWrite`: a non-empty frame that starts with the header has its body processed;
        every other frame is ignored. */
    method OnWrite(frame: seq<Byte>)
      requires Valid()
      modifies this
      ensures Valid()
      ensures DecodeFrame(frame).None? ==> history == old(history) && Current() == old(Current())
      ensures DecodeFrame(frame).Some? ==>
        history == old(history) + CommandWrites(DecodeFrame(frame).value) &&
        Current() == Outcome(old(Current()), DecodeFrame(frame).value)
      ensures deviceConnected == old(deviceConnected) && advertisingRestarts == old(advertisingRestarts)
    {
      if |frame| > 0 {
        if |frame| > 0 && frame[0] == HEADER {
          ProcessCommand(frame[1..]);
        }
      }
    }

    /** `onConnect`: only the connection flag changes. */
    method OnConnect()
      requires Valid()
      modifies this
      ensures Valid() && deviceConnected
      ensures Current() == old(Current()) && history == old(history)
      ensures advertisingRestarts == old(advertisingRestarts)
    {
      deviceConnected := true;
    }

    /** `onDisconnect`: clear the flag, stop the motors, restart advertising once. */
    method OnDisconnect()
      requires Valid()
      modifies this
      ensures Valid() && !deviceConnected
      ensures Current() == SetupState() && history == old(history) + StopWrites()
      ensures advertisingRestarts == old(advertisingRestarts) + 1
    {
      deviceConnected := false;
      StopMotors();
      advertisingRestarts := advertisingRestarts + 1;
    }
  }
}
