/** The two drivers adcHack talks to, seen only through the calls it makes on them.

    `mmapGpio` (a memory-mapped GPIO driver) is used to make one pin an input and to read
    pins; `rpiPWM1` (the PWM1 peripheral, used as a DAC) is given a frequency, a count range,
    a duty-cycle count and a mode. Neither driver's internals are modelled: every call is an
    `Event` in a trace, and the PWM's current settings are the effect of the calls recorded
    so far (`PwmRun`). */
module Peripherals {

  /** C++ `unsigned int` and `int` on the target (32 bits). */
  type UInt32 = x: int | 0 <= x < 0x1_0000_0000
  type Int32 = x: int | -0x8000_0000 <= x < 0x8000_0000

  /** `mmapGpio::INPUT` / `mmapGpio::OUTPUT`. */
  datatype PinDir = Input | Output

  /** `rpiPWM1::PWMMODE`, the mode that spreads the on-time evenly over the period
      (the only mode adcHack selects). */
  datatype PwmMode = PwmMode

  /** One call on a peripheral, or one settling wait. */
  datatype Event =
    | SetPinDir(pin: UInt32, dir: PinDir)      // inFromComparator.setPinDir(pin, dir)
    | ReadPin(pin: UInt32, level: nat)         // inFromComparator.readPin(pin), with the value it returned
    | SetFrequency(hz: nat)                    // dac.setFrequency(hz)
    | SetCounts(counts: nat)                   // dac.setCounts(counts)
    | SetDutyCycleCount(duty: nat)             // dac.setDutyCycleCount(duty)
    | SetMode(mode: PwmMode)                   // dac.setMode(mode)
    | SleepUs(us: UInt32)                      // usleep(us)

  /** What the PWM driver has been told so far; `None` until the first call of that kind. */
  datatype PwmConfig = PwmConfig(
    frequency: Option<nat>, counts: Option<nat>, duty: Option<nat>, mode: Option<PwmMode>)

  datatype Option<T> = None | Some(value: T)

  const Unconfigured := PwmConfig(None, None, None, None)

  /** A PWM call updates the one setting it names; GPIO calls and waits leave the PWM alone. */
  function Apply(c: PwmConfig, e: Event): PwmConfig
  {
    match e
    case SetFrequency(hz) => c.(frequency := Some(hz))
    case SetCounts(n) => c.(counts := Some(n))
    case SetDutyCycleCount(n) => c.(duty := Some(n))
    case SetMode(m) => c.(mode := Some(m))
    case _ => c
  }

  /** The PWM settings after the calls of `t`, starting from `c`. */
  function PwmRun(c: PwmConfig, t: seq<Event>): PwmConfig
    decreases |t|
  {
    if t == [] then c else PwmRun(Apply(c, t[0]), t[1..])
  }

  /** Running two traces one after the other is running their concatenation. */
  lemma {:induction false} PwmRunAppend(c: PwmConfig, t: seq<Event>, u: seq<Event>)
    ensures PwmRun(c, t + u) == PwmRun(PwmRun(c, t), u)
    decreases |t|
  {
    if t != [] {
      assert (t + u)[0] == t[0] && (t + u)[1..] == t[1..] + u;
      PwmRunAppend(Apply(c, t[0]), t[1..], u);
      assert PwmRun(c, t + u) == PwmRun(Apply(c, t[0]), t[1..] + u);
    } else {
      assert t + u == u;
    }
  }

  /** A trace that never sets the frequency, the counts or the mode keeps those three. */
  lemma {:induction false} PwmRunKeepsBundle(c: PwmConfig, t: seq<Event>)
    requires forall k :: 0 <= k < |t| ==> !t[k].SetFrequency? && !t[k].SetCounts? && !t[k].SetMode?
    ensures PwmRun(c, t).frequency == c.frequency
    ensures PwmRun(c, t).counts == c.counts
    ensures PwmRun(c, t).mode == c.mode
    decreases |t|
  {
    if t != [] {
      assert forall k :: 0 <= k < |t[1..]| ==> t[1..][k] == t[k + 1];
      PwmRunKeepsBundle(Apply(c, t[0]), t[1..]);
    }
  }

  /** The duty-cycle counts written in `t`, in order. */
  function DutyWrites(t: seq<Event>): seq<nat>
    decreases |t|
  {
    if t == [] then []
    else (if t[0].SetDutyCycleCount? then [t[0].duty] else []) + DutyWrites(t[1..])
  }

  /** The pins read in `t`, in order. */
  function PinReads(t: seq<Event>): seq<UInt32>
    decreases |t|
  {
    if t == [] then []
    else (if t[0].ReadPin? then [t[0].pin] else []) + PinReads(t[1..])
  }

  lemma {:induction false} DutyWritesAppend(t: seq<Event>, u: seq<Event>)
    ensures DutyWrites(t + u) == DutyWrites(t) + DutyWrites(u)
    decreases |t|
  {
    if t != [] {
      assert (t + u)[0] == t[0] && (t + u)[1..] == t[1..] + u;
      DutyWritesAppend(t[1..], u);
      assert DutyWrites(t + u) == (if t[0].SetDutyCycleCount? then [t[0].duty] else []) + DutyWrites(t[1..] + u);
    } else {
      assert t + u == u;
    }
  }

  lemma {:induction false} PinReadsAppend(t: seq<Event>, u: seq<Event>)
    ensures PinReads(t + u) == PinReads(t) + PinReads(u)
    decreases |t|
  {
    if t != [] {
      assert (t + u)[0] == t[0] && (t + u)[1..] == t[1..] + u;
      PinReadsAppend(t[1..], u);
      assert PinReads(t + u) == (if t[0].ReadPin? then [t[0].pin] else []) + PinReads(t[1..] + u);
    } else {
      assert t + u == u;
    }
  }
}
