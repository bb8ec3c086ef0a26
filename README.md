# Animatronic fish: actuator state machine and audio tap

This project models the core of `fish.py`, the controller of a singing
animatronic fish. The fish has two DC motors. Motor 0 moves the head and
motor 1 moves the mouth. Each motor has a direction pin and a PWM enable pin.

- `Actuators` (actuators.dfy) describes the fish as values:
  - the events the program produces: direction writes, speed writes, sleeps
    and calls into the unseen audio-helper base classes;
  - the pin state those events leave (`Replay`);
  - the fixed pulse-then-hold write sequences of each transition;
  - the state after `resetMotors`, `changeMouth` and `changeHead`.
- `FishMotors` (fish.dfy) holds the `Fish` class. Its methods perform those
  writes one at a time on two 2-entry arrays standing for the pins
  (`duty`, `dir`). They update the `headOut`, `mouthOpen` and `randMouth`
  flags in place and log each action in a ghost `trace`. Its invariant has
  three parts:
  - the pins are exactly the replay of the trace;
  - every speed ever written is one of 0, 30, 50, 80 or 100, so every duty
    handed to the hardware is at most 1,000,000;
  - each motor rests at the hold duty of its discrete state (mouth 80 when
    open, else 0; head 30 when out, else 0).
- `Chunking` (chunking.dfy) covers how `FishDeviceStream.write` cuts decoded
  samples into chunks of 400. It proves that this cutting is the unique
  partition of the samples into non-empty chunks, all of exactly 400 except
  the last. It also defines the loudness test `max - min > 250`.
- `Streams` (streams.dfy) holds `FishDeviceStream` and
  `FishConversationStream`:
  - `FishDeviceStream` is the audio tap. Its `audioFifo` is a queue of
    chunks, and one pass of its mover thread is one method call.
  - `FishConversationStream` holds the recording hooks. They order the
    actuator writes relative to the base-class call.

Notes on the code that the model keeps:

- The last chunk of a buffer may be shorter than 400 samples
  (fish.py:26-27), so chunks are not all of one length.
- The mouth randomizer's target is `random() > 0.5` (fish.py:87).
- `stop_recording` resets the motors first and only then calls the base
  class's `stop_recording` (fish.py:50-52).

## Model

| member | source | states |
|---|---|---|
| Actuators.DutyCycle | fish.py:99-100 | the duty handed to hardware_PWM is a multiple of 10000 that gives the speed back, and is within the full duty 1,000,000 exactly when the speed is at most 100 |
| Actuators.SafeDutyInRange | fish.py:99-144 | in a trace of safe writes, every speed write hands the hardware a duty of at most 1,000,000 |
| Actuators.ReplayFrame | fish.py:99-103 | writes that name one motor never change the pins of the other |
| Actuators.MouthWrites | fish.py:114-128 | changeMouth writes nothing exactly when the mouth is already where it is wanted; its writes are safe and never drive the head |
| Actuators.HeadWrites | fish.py:130-144 | changeHead writes nothing exactly when the head is already where it is wanted; its writes are safe and never drive the mouth |
| Actuators.AfterReset | fish.py:105-112 | from any state, resetMotors leaves both motors with speed 0 and direction 0 and all three flags false, which is a holding state |
| Actuators.MouthAfter | fish.py:114-128 | after changeMouth(w) the mouth flag is w; the head pins and the head and randMouth flags are unchanged; a request equal to the current state changes nothing; a real transition ends with direction 0 and duty 80 when opening, direction 1 and duty 0 when closing; holding is preserved; a repeat of the request writes nothing |
| Actuators.HeadAfter | fish.py:130-144 | after changeHead(w) the head flag is w; the mouth pins and the mouth and randMouth flags are unchanged; a request equal to the current state changes nothing; a real transition ends with direction 0 and duty 30 when going out, direction 1 and duty 0 when coming in; holding is preserved; a repeat writes nothing |
| Actuators.ResetIdempotent | fish.py:105-112 | resetting twice is resetting once, and the result does not depend on the prior state |
| Actuators.MouthIdempotent | fish.py:114-128 | calling changeMouth twice with the same argument has the same writes and the same effect as calling it once |
| Actuators.HeadIdempotent | fish.py:130-144 | calling changeHead twice with the same argument has the same writes and the same effect as calling it once |
| Actuators.MouthOpenThenClose | fish.py:114-128 | opening and then closing the mouth leaves it closed with duty 0 and the head untouched |
| FishMotors.Fish.constructor | fish.py:55-71 | a new Fish has just performed the reset writes, is at rest with idle pins and all flags false, and satisfies the invariant |
| FishMotors.Fish.MotorSpeed | fish.py:99-100 | motorSpeed sets the named motor's duty to speed * 10000 and logs the write; nothing else changes |
| FishMotors.Fish.MotorDir | fish.py:102-103 | motorDir sets the named motor's direction level and logs the write; nothing else changes |
| FishMotors.Fish.TimeSleep | fish.py:84-144 | a time.sleep call (fish.py:88, 91, 119, 126, 135, 142) appends exactly one sleep of the given length in milliseconds to the trace and changes nothing else |
| FishMotors.Fish.Delegated | fish.py:28-52 | a call into the audio-helper base class (fish.py:28, 48, 52) appends exactly one delegate event to the trace, touches no pin and keeps the pins equal to the replay of the trace |
| FishMotors.Fish.ResetMotors | fish.py:105-112 | from any logged state, the new state is AfterReset of the old one, the trace gains exactly speed 0, speed 0, direction 0, direction 0 (head, mouth, head, mouth), and the invariant holds |
| FishMotors.Fish.ChangeMouth | fish.py:114-128 | the new state is MouthAfter of the old one and the trace gains exactly MouthWrites (open: dir 0, speed 100, sleep 140 ms, speed 80; close: dir 1, speed 100, sleep 5 ms, speed 0; none when unchanged); the invariant is preserved |
| FishMotors.Fish.ChangeHead | fish.py:130-144 | the new state is HeadAfter of the old one and the trace gains exactly HeadWrites (out: dir 0, speed 100, sleep 230 ms, speed 30; in: dir 1, speed 50, sleep 110 ms, speed 0; none when unchanged); the invariant is preserved |
| FishMotors.Fish.MouthRandomizerStep | fish.py:84-91 | one pass ends with the mouth open exactly when randMouth was set and the random draw said open, then logs a 60 ms sleep (flag set) or a 50 ms sleep (flag clear) |
| Chunking.ChunksFrom | fish.py:26-27 | the slices `samples[i:i+400]` for i = start, start + 400, ... are each 1 to 400 samples long, and there are ceil((n - start) / 400) of them |
| Chunking.ChunksFromPartition | fish.py:26-27 | the slices from `start` on, concatenated in order, are the samples from `start` on; all but the last are exactly 400 long |
| Chunking.Chunks | fish.py:24-27 | the chunks write enqueues, concatenated in order, are the input samples; each is non-empty and at most 400 long, all but the last are exactly 400, and n samples make ceil(n / 400) chunks |
| Chunking.PartitionUnique | fish.py:26-27 | any cutting of the samples into non-empty chunks of 400 except a shorter last one is exactly the one write produces |
| Chunking.Max | fish.py:36 | max of a non-empty chunk is one of its samples and no sample exceeds it |
| Chunking.Min | fish.py:36 | min of a non-empty chunk is one of its samples and no sample is below it |
| Chunking.Amplitude | fish.py:36 | max - min is the largest difference between two samples of the chunk: it bounds every such difference and some pair of samples attains it; it is non-negative |
| Chunking.Loud | fish.py:18-36 | the test max - min > 250 holds exactly when two of the chunk's samples lie more than 250 apart |
| Streams.FishDeviceStream.constructor | fish.py:13-19 | a new tap has an empty queue and its mover thread is not parked |
| Streams.FishDeviceStream.Write | fish.py:24-28 | the queue becomes the old queue followed by the chunks of the samples; the fish's state is untouched; the buffer is then handed to the base class's write |
| Streams.FishDeviceStream.MouthMoverStep | fish.py:30-36 | on an empty queue the motors are reset once and the thread parks, and a parked thread does nothing more while the queue stays empty; otherwise exactly the front chunk is removed, the rest of the queue is kept, and randMouth becomes whether that chunk is loud, with no other change to the fish |
| Streams.FishConversationStream.constructor | fish.py:42-44 | a new conversation stream drives the given fish |
| Streams.FishConversationStream.StartRecording | fish.py:46-48 | the head transition to out is performed (exactly once, or not at all if already out) before the base class's start_recording is called |
| Streams.FishConversationStream.StopRecording | fish.py:50-52 | the motors are reset before the base class's stop_recording is called |

## Left out

- pigpio set-up is not modelled: `pigpio.pi()`, `set_mode`, and the button's pull-up.
- Pin numbers and the PWM frequency are not modelled. Events name the motor
  (0 head, 1 mouth), not ENABLE_PINS and DIR_PINS. The constant 249,900 Hz
  handed to every `hardware_PWM` call is not carried.
- The model's pin arrays start at zero. The real pins' state before the
  constructor is unknown. The constructor's reset overwrites all four pins
  either way.
- Threads are not modelled. The two background threads and their
  `while True` loops appear only as single passes (`MouthRandomizerStep`,
  `MouthMoverStep`). A sequential model cannot show the race between a reset
  and a mouth transition in flight.
- `MouthMoverStep` does not model the pacing at the end of each pass. That
  pass reads `time.time()`, computes `UPDATE_INTERVAL = 400 / sample_rate`
  in floating point, and sleeps `max(interval - elapsed, 0)`.
- `MouthMoverStep` models the blocking `audioFifo.get()` with a `waiting`
  flag. A pass that finds the queue empty resets and parks. The dequeue that
  ends the wait is the next pass.
- Byte decoding with `array('h', buf)` is not modelled. `Write` takes the
  already decoded samples as integers and does not restrict them to 16 bits.
- `random()` is not modelled. `MouthRandomizerStep` receives the outcome of
  `random() > 0.5` as a parameter.
- Logging is not modelled.
- `__enter__`/`__exit__`, `getTriggerButton` and `setIndicator` are not
  modelled. They are pin pass-throughs or context-manager glue.
- The audio-helper base classes are not part of this model. Their
  `write`, `start_recording` and `stop_recording` become `Delegate` events
  in the fish's trace.
