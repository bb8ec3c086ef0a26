/** The Fish object: two motors driven through a direction pin and a PWM
    enable pin each, and the flags that record where the head and the mouth
    are. Pin writes land in two small arrays that stand for the hardware's
    pin state; a ghost trace logs every write, sleep and delegated call in
    program order. */
module FishMotors {
  import opened Actuators

  class Fish {
    /** Duty last handed to the PWM of ENABLE_PINS[m], per motor. */
    const duty: array<nat>
    /** Level last written to DIR_PINS[m], per motor. */
    const dir: array<nat>
    var headOut: bool
    var mouthOpen: bool
    /** Set by the audio tap when a chunk is loud; read by the mouth randomizer. */
    var randMouth: bool
    /** Everything this process did to the outside world, oldest first. */
    ghost var trace: seq<Event>

    ghost predicate Wired()
      reads this
    {
      duty.Length == 2 && dir.Length == 2 && duty != dir
    }

    ghost function PinsNow(): Pins
      requires Wired()
      reads this, duty, dir
    {
      Pins(MotorPins(dir[HEAD], duty[HEAD]), MotorPins(dir[MOUTH], duty[MOUTH]))
    }

    ghost function State(): FishState
      requires Wired()
      reads this, duty, dir
    {
      FishState(PinsNow(), headOut, mouthOpen, randMouth)
    }

    /** The pins are exactly what the logged writes produce from idle pins, and
        every logged write is one of the safe ones. */
    ghost predicate Logged()
      reads this, duty, dir
    {
      Wired() && PinsNow() == Replay(Idle, trace) && SafeWrites(trace)
    }

    /** Logged, and both motors rest at the hold duty of their discrete state. */
    ghost predicate Valid()
      reads this, duty, dir
    {
      Logged() && Holding(State())
    }

    /** The hardware set-up is not modelled; the constructor ends, as the
        source's does, by resetting the motors. */
    constructor ()
      ensures Valid() && fresh(duty) && fresh(dir)
      ensures State() == FishState(Idle, false, false, false)
      ensures trace == ResetWrites
    {
      duty := new nat[2](_ => 0);
      dir := new nat[2](_ => 0);
      headOut, mouthOpen, randMouth := false, false, false;
      trace := [];
      new;
      ResetMotors();
    }

    method MotorSpeed(motor: nat, speed: nat)
      requires Wired() && motor < 2
      modifies this`trace, duty
      ensures PinsNow() == Apply(old(PinsNow()), Speed(motor, speed))
      ensures trace == old(trace) + [Speed(motor, speed)]
    {
      duty[motor] := DutyCycle(speed);
      trace := trace + [Speed(motor, speed)];
    }

    method MotorDir(motor: nat, level: nat)
      requires Wired() && motor < 2
      modifies this`trace, dir
      ensures PinsNow() == Apply(old(PinsNow()), Dir(motor, level))
      ensures trace == old(trace) + [Dir(motor, level)]
    {
      dir[motor] := level;
      trace := trace + [Dir(motor, level)];
    }

    /** time.sleep: only its place in the trace is kept. */
    method TimeSleep(ms: nat)
      modifies this`trace
      ensures trace == old(trace) + [Sleep(ms)]
    {
      trace := trace + [Sleep(ms)];
    }

    /** A call into a base class whose code is not modelled: it touches no
        pin, so a logged fish stays logged. */
    method Delegated(call: Call)
      requires Logged()
      modifies this`trace
      ensures Logged()
      ensures trace == old(trace) + [Delegate(call)]
    {
      ReplayAppend(Idle, trace, [Delegate(call)]);
      assert [Delegate(call)][1..] == [];
      trace := trace + [Delegate(call)];
    }

    /** Adding writes to a logged trace keeps it logged when the pins moved
        exactly as the new writes say. */
    lemma Extend(before: seq<Event>, writes: seq<Event>)
      requires Wired() && SafeWrites(before) && SafeWrites(writes)
      requires trace == before + writes
      requires PinsNow() == Replay(Replay(Idle, before), writes)
      ensures Logged()
    {
      ReplayAppend(Idle, before, writes);
      SafeWritesAppend(before, writes);
    }

    /** resetMotors, from any pin state and any flags. */
    method ResetMotors()
      requires Logged()
      modifies this, duty, dir
      ensures Valid()
      ensures State() == AfterReset(old(State()))
      ensures trace == old(trace) + ResetWrites
    {
      ghost var before := trace;
      ghost var p0 := PinsNow();
      randMouth := false;
      MotorSpeed(HEAD, 0);
      MotorSpeed(MOUTH, 0);
      MotorDir(HEAD, 0);
      MotorDir(MOUTH, 0);
      headOut := false;
      mouthOpen := false;
      ReplayFour(p0, ResetWrites[0], ResetWrites[1], ResetWrites[2], ResetWrites[3]);
      Extend(before, ResetWrites);
    }

    /** changeMouth: a no-op when the mouth already is where it is wanted,
        otherwise the pulse-then-hold sequence of MouthWrites. */
    method ChangeMouth(wantOpen: bool)
      requires Valid()
      modifies this, duty, dir
      ensures Valid()
      ensures State() == MouthAfter(old(State()), wantOpen)
      ensures trace == old(trace) + MouthWrites(old(mouthOpen), wantOpen)
    {
      ghost var before := trace;
      ghost var p0 := PinsNow();
      ghost var writes := MouthWrites(mouthOpen, wantOpen);
      if mouthOpen && !wantOpen {
        MotorDir(MOUTH, 1);
        MotorSpeed(MOUTH, 100);
        TimeSleep(5);
        MotorSpeed(MOUTH, 0);
        mouthOpen := false;
      } else if !mouthOpen && wantOpen {
        MotorDir(MOUTH, 0);
        MotorSpeed(MOUTH, 100);
        TimeSleep(140);
        MotorSpeed(MOUTH, 80);
        mouthOpen := true;
      }
      if writes != [] {
        ReplayFour(p0, writes[0], writes[1], writes[2], writes[3]);
      } else {
        assert before + writes == before;
      }
      Extend(before, writes);
    }

    /** changeHead: a no-op when the head already is where it is wanted,
        otherwise the pulse-then-hold sequence of HeadWrites. */
    method ChangeHead(wantOut: bool)
      requires Valid()
      modifies this, duty, dir
      ensures Valid()
      ensures State() == HeadAfter(old(State()), wantOut)
      ensures trace == old(trace) + HeadWrites(old(headOut), wantOut)
    {
      ghost var before := trace;
      ghost var p0 := PinsNow();
      ghost var writes := HeadWrites(headOut, wantOut);
      if headOut && !wantOut {
        MotorDir(HEAD, 1);
        MotorSpeed(HEAD, 50);
        TimeSleep(110);
        MotorSpeed(HEAD, 0);
        headOut := false;
      } else if !headOut && wantOut {
        MotorDir(HEAD, 0);
        MotorSpeed(HEAD, 100);
        TimeSleep(230);
        MotorSpeed(HEAD, 30);
        headOut := true;
      }
      if writes != [] {
        ReplayFour(p0, writes[0], writes[1], writes[2], writes[3]);
      } else {
        assert before + writes == before;
      }
      Extend(before, writes);
    }

    /** One pass of mouthRandomizer; `coin` stands for `random() > 0.5`.
        While the audio is loud the mouth goes where the coin says, otherwise
        it closes. */
    method MouthRandomizerStep(coin: bool)
      requires Valid()
      modifies this, duty, dir
      ensures Valid()
      ensures mouthOpen == (old(randMouth) && coin)
      ensures State() == MouthAfter(old(State()), old(randMouth) && coin)
      ensures trace == old(trace) + MouthWrites(old(mouthOpen), old(randMouth) && coin)
                                 + [Sleep(if old(randMouth) then 60 else 50)]
    {
      if randMouth {
        ChangeMouth(coin);
        TimeSleep(60);
      } else {
        ChangeMouth(false);
        TimeSleep(50);
      }
      SafeWritesAppend(old(trace) + MouthWrites(old(mouthOpen), old(randMouth) && coin),
                       [Sleep(if old(randMouth) then 60 else 50)]);
      ReplayAppend(Idle, old(trace) + MouthWrites(old(mouthOpen), old(randMouth) && coin),
                   [Sleep(if old(randMouth) then 60 else 50)]);
    }
  }
}
