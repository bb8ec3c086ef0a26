/** The fish's two motors as values: what is written to their pins, the
    fixed pulse-then-hold write sequences of each transition, and the state
    every transition leaves behind. The class in fish.dfy performs these
    writes one by one; this module says what they amount to. */
module Actuators {

  /** Motor indices, as used for ENABLE_PINS = [12, 13] and DIR_PINS = [5, 6]. */
  const HEAD: nat := 0
  const MOUTH: nat := 1

  /** motorSpeed scales a percentage by this factor for the hardware PWM call,
      whose full duty is MAX_DUTY. */
  const DUTY_SCALE: nat := 10000
  const MAX_DUTY: nat := 1_000_000

  /** Calls into the base classes of the audio helpers, whose code is not
      part of this model: only the fact and the order of the call is kept. */
  datatype Call = SuperWrite(samples: seq<int>) | SuperStartRecording | SuperStopRecording

  /** One observable action: a direction-pin write, a speed (PWM) write given
      as the percentage handed to motorSpeed, a sleep, or a delegated call. */
  datatype Event =
    | Dir(motor: nat, level: nat)
    | Speed(motor: nat, speed: nat)
    | Sleep(ms: nat)
    | Delegate(call: Call)

  /** What the two pins of one motor last received: the direction level and the
      PWM duty in the hardware's units. */
  datatype MotorPins = MotorPins(level: nat, duty: nat)
  datatype Pins = Pins(head: MotorPins, mouth: MotorPins)

  /** The pins together with the Fish object's three flags. */
  datatype FishState = FishState(pins: Pins, headOut: bool, mouthOpen: bool, randMouth: bool)

  /** Every pin low and no PWM output. */
  const Idle: Pins := Pins(MotorPins(0, 0), MotorPins(0, 0))

  /** The duty handed to the hardware for a speed percentage. */
  function DutyCycle(speed: nat): (d: nat)
    ensures d % DUTY_SCALE == 0 && d / DUTY_SCALE == speed
    ensures d <= MAX_DUTY <==> speed <= 100
  {
    speed * DUTY_SCALE
  }

  /** The five speeds any transition or reset ever passes to motorSpeed. */
  predicate IsSpeed(speed: nat) {
    speed == 0 || speed == 30 || speed == 50 || speed == 80 || speed == 100
  }

  predicate Drives(e: Event, motor: nat) {
    (e.Dir? || e.Speed?) && e.motor == motor
  }

  /** A write goes to one of the two motors, with a level of 0 or 1 or one of
      the five speeds. */
  predicate SafeWrite(e: Event) {
    match e
    case Dir(m, level) => m < 2 && level < 2
    case Speed(m, speed) => m < 2 && IsSpeed(speed)
    case _ => true
  }

  predicate SafeWrites(es: seq<Event>) {
    forall e | e in es :: SafeWrite(e)
  }

  lemma SafeWritesAppend(a: seq<Event>, b: seq<Event>)
    requires SafeWrites(a) && SafeWrites(b)
    ensures SafeWrites(a + b)
  {
  }

  /** Every duty a safe trace hands to the hardware is within its range. */
  lemma SafeDutyInRange(es: seq<Event>, i: nat)
    requires SafeWrites(es) && i < |es| && es[i].Speed?
    ensures DutyCycle(es[i].speed) <= MAX_DUTY
  {
    assert SafeWrite(es[i]);
  }

  function Motor(p: Pins, motor: nat): MotorPins {
    if motor == HEAD then p.head else p.mouth
  }

  function WithMotor(p: Pins, motor: nat, m: MotorPins): Pins {
    if motor == HEAD then p.(head := m)
    else if motor == MOUTH then p.(mouth := m)
    else p
  }

  /** The pin state after one event: a write replaces the level or duty of the
      motor it names; sleeps and delegated calls touch no pin. */
  function Apply(p: Pins, e: Event): Pins {
    match e
    case Dir(m, level) => WithMotor(p, m, Motor(p, m).(level := level))
    case Speed(m, speed) => WithMotor(p, m, Motor(p, m).(duty := DutyCycle(speed)))
    case _ => p
  }

  /** The pin state after a sequence of events, in order. */
  function Replay(p: Pins, es: seq<Event>): Pins
    decreases |es|
  {
    if es == [] then p else Replay(Apply(p, es[0]), es[1..])
  }

  /** Replaying a concatenation is replaying its two parts one after the other. */
  lemma {:induction false} ReplayAppend(p: Pins, a: seq<Event>, b: seq<Event>)
    ensures Replay(p, a + b) == Replay(Replay(p, a), b)
    decreases |a|
  {
    if a == [] {
      assert a + b == b;
    } else {
      assert (a + b)[0] == a[0];
      assert (a + b)[1..] == a[1..] + b;
      ReplayAppend(Apply(p, a[0]), a[1..], b);
    }
  }

  /** Replaying the four events of a pulse-then-hold sequence, or of a reset,
      applies them one at a time. */
  lemma ReplayFour(p: Pins, a: Event, b: Event, c: Event, d: Event)
    ensures Replay(p, [a, b, c, d]) == Apply(Apply(Apply(Apply(p, a), b), c), d)
  {
    var p1 := Apply(p, a);
    var p2 := Apply(p1, b);
    var p3 := Apply(p2, c);
    assert [a, b, c, d][1..] == [b, c, d];
    assert [b, c, d][1..] == [c, d];
    assert [c, d][1..] == [d];
    assert [d][1..] == [];
    assert Replay(p3, [d]) == Apply(p3, d);
    assert Replay(p2, [c, d]) == Replay(p3, [d]);
    assert Replay(p1, [b, c, d]) == Replay(p2, [c, d]);
  }

  /** Events that do not drive a motor leave that motor's pins as they were. */
  lemma {:induction false} ReplayFrame(p: Pins, es: seq<Event>, motor: nat)
    requires motor < 2
    requires forall e | e in es :: !Drives(e, motor)
    ensures Motor(Replay(p, es), motor) == Motor(p, motor)
    decreases |es|
  {
    if es != [] {
      assert es[0] in es;
      assert Motor(Apply(p, es[0]), motor) == Motor(p, motor);
      ReplayFrame(Apply(p, es[0]), es[1..], motor);
    }
  }

  /** resetMotors: both speeds to 0, then both directions to 0. */
  const ResetWrites: seq<Event> := [Speed(HEAD, 0), Speed(MOUTH, 0), Dir(HEAD, 0), Dir(MOUTH, 0)]

  /** Hold speed of the mouth: 80 keeps it open against the spring. */
  function MouthHold(open: bool): nat {
    if open then 80 else 0
  }

  /** Hold speed of the head: 30 keeps it out. */
  function HeadHold(out: bool): nat {
    if out then 30 else 0
  }

  /** Every motor rests at the hold duty of its discrete state. */
  predicate Holding(s: FishState) {
    s.pins.mouth.duty == DutyCycle(MouthHold(s.mouthOpen)) &&
    s.pins.head.duty == DutyCycle(HeadHold(s.headOut))
  }

  /** The writes of changeMouth(wantOpen) when the mouth is `open`:
      closing pulses in reverse at full speed for 5 ms, then stops;
      opening pulses forward at full speed for 140 ms, then holds at 80. */
  function MouthWrites(open: bool, wantOpen: bool): (es: seq<Event>)
    ensures es == [] <==> open == wantOpen
    ensures SafeWrites(es)
    ensures forall e | e in es :: !Drives(e, HEAD)
  {
    if open && !wantOpen then
      [Dir(MOUTH, 1), Speed(MOUTH, 100), Sleep(5), Speed(MOUTH, 0)]
    else if !open && wantOpen then
      [Dir(MOUTH, 0), Speed(MOUTH, 100), Sleep(140), Speed(MOUTH, MouthHold(true))]
    else
      []
  }

  /** The writes of changeHead(wantOut) when the head is `out`:
      pulling in runs in reverse at 50 for 110 ms, then stops;
      pushing out runs forward at full speed for 230 ms, then holds at 30. */
  function HeadWrites(out: bool, wantOut: bool): (es: seq<Event>)
    ensures es == [] <==> out == wantOut
    ensures SafeWrites(es)
    ensures forall e | e in es :: !Drives(e, MOUTH)
  {
    if out && !wantOut then
      [Dir(HEAD, 1), Speed(HEAD, 50), Sleep(110), Speed(HEAD, 0)]
    else if !out && wantOut then
      [Dir(HEAD, 0), Speed(HEAD, 100), Sleep(230), Speed(HEAD, HeadHold(true))]
    else
      []
  }

  /** The state resetMotors leaves: the reset writes replayed over any pins,
      and all three flags cleared. */
  function AfterReset(s: FishState): (r: FishState)
    ensures r.pins == Idle
    ensures !r.headOut && !r.mouthOpen && !r.randMouth
    ensures Holding(r)
  {
    ReplayFour(s.pins, ResetWrites[0], ResetWrites[1], ResetWrites[2], ResetWrites[3]);
    FishState(Replay(s.pins, ResetWrites), false, false, false)
  }

  /** The state changeMouth(wantOpen) leaves: its writes replayed, the flag set. */
  function MouthAfter(s: FishState, wantOpen: bool): (r: FishState)
    ensures r.mouthOpen == wantOpen
    ensures r.pins.head == s.pins.head && r.headOut == s.headOut && r.randMouth == s.randMouth
    ensures s.mouthOpen == wantOpen ==> r == s
    ensures s.mouthOpen != wantOpen ==>
      r.pins.mouth == MotorPins(if wantOpen then 0 else 1, DutyCycle(MouthHold(wantOpen)))
    ensures Holding(s) ==> Holding(r)
    ensures MouthWrites(r.mouthOpen, wantOpen) == []
  {
    var es := MouthWrites(s.mouthOpen, wantOpen);
    var r := s.(pins := Replay(s.pins, es), mouthOpen := wantOpen);
    ReplayFrame(s.pins, es, HEAD);
    if es == [] then
      r
    else
      ReplayFour(s.pins, es[0], es[1], es[2], es[3]);
      r
  }

  /** The state changeHead(wantOut) leaves: its writes replayed, the flag set. */
  function HeadAfter(s: FishState, wantOut: bool): (r: FishState)
    ensures r.headOut == wantOut
    ensures r.pins.mouth == s.pins.mouth && r.mouthOpen == s.mouthOpen && r.randMouth == s.randMouth
    ensures s.headOut == wantOut ==> r == s
    ensures s.headOut != wantOut ==>
      r.pins.head == MotorPins(if wantOut then 0 else 1, DutyCycle(HeadHold(wantOut)))
    ensures Holding(s) ==> Holding(r)
    ensures HeadWrites(r.headOut, wantOut) == []
  {
    var es := HeadWrites(s.headOut, wantOut);
    var r := s.(pins := Replay(s.pins, es), headOut := wantOut);
    ReplayFrame(s.pins, es, MOUTH);
    if es == [] then
      r
    else
      ReplayFour(s.pins, es[0], es[1], es[2], es[3]);
      r
  }

  /** resetMotors is idempotent, and its result does not depend on the state
      it started from. */
  lemma ResetIdempotent(s: FishState, t: FishState)
    ensures AfterReset(AfterReset(s)) == AfterReset(s) == AfterReset(t)
  {
  }

  /** A second changeMouth with the same argument writes nothing and changes nothing. */
  lemma MouthIdempotent(s: FishState, wantOpen: bool)
    ensures MouthAfter(MouthAfter(s, wantOpen), wantOpen) == MouthAfter(s, wantOpen)
    ensures MouthWrites(s.mouthOpen, wantOpen) + MouthWrites(MouthAfter(s, wantOpen).mouthOpen, wantOpen)
         == MouthWrites(s.mouthOpen, wantOpen)
  {
  }

  /** A second changeHead with the same argument writes nothing and changes nothing. */
  lemma HeadIdempotent(s: FishState, wantOut: bool)
    ensures HeadAfter(HeadAfter(s, wantOut), wantOut) == HeadAfter(s, wantOut)
    ensures HeadWrites(s.headOut, wantOut) + HeadWrites(HeadAfter(s, wantOut).headOut, wantOut)
         == HeadWrites(s.headOut, wantOut)
  {
  }

  /** Opening then closing the mouth leaves it closed with no PWM output,
      whatever it was before, and the head untouched. */
  lemma MouthOpenThenClose(s: FishState)
    ensures var r := MouthAfter(MouthAfter(s, true), false);
      !r.mouthOpen && r.pins.mouth.duty == 0 && r.pins.head == s.pins.head
  {
  }
}
