/** Successive approximation over `n` bits, as `adcHack::adcRead` runs it.

    With `n` bits left to try (bits n-1 down to 0) and the bits already decided held in
    `accum`, one step tentatively sets bit n-1, writes that trial count to the PWM, waits
    the settling time, reads the comparator, and clears the bit again if the comparator
    read 0. `Approximate` is the code this ends with, `Trials` the counts written, `Steps`
    the peripheral calls made. */
module Sar {
  import opened Peripherals

  /** The comparator as the conversion sees it: the value `readPin` returns while the PWM
      holds the given duty-cycle count. One conversion never writes the same count twice
      (`TrialBits`: the k-th trial's lowest set bit is bit n-1-k), so a function of the
      count can give any sequence of reads, glitches included. */
  type Comparator = nat -> nat

  /** The pin `adcRead` samples: it is written as the literal 4, whatever pin the
      constructor made an input. */
  const SampledPin: UInt32 := 4

  /** `1 << i`. */
  function Pow2(i: nat): (p: nat)
    ensures p >= 1
    decreases i
  {
    if i == 0 then 1 else 2 * Pow2(i - 1)
  }

  lemma Pow2Values()
    ensures Pow2(7) == 128 && Pow2(8) == 256 && Pow2(9) == 512 && Pow2(10) == 1024
  {
  }

  /** Bit `i` of `a`. */
  predicate Bit(a: nat, i: nat)
    decreases i
  {
    if i == 0 then a % 2 == 1 else Bit(a / 2, i - 1)
  }

  /** Bits 0 .. i-1 of `a` are all zero. */
  predicate LowBitsClear(a: nat, i: nat)
    decreases i
  {
    i == 0 || (a % 2 == 0 && LowBitsClear(a / 2, i - 1))
  }

  function Min(a: int, b: int): int
  {
    if a <= b then a else b
  }

  /** The accumulator after bit `i` has been tried: the bit stays set unless the
      comparator read 0 at the trial count. */
  function Next(cmp: Comparator, accum: nat, i: nat): nat
  {
    var trial := accum + Pow2(i);
    if cmp(trial) == 0 then accum else trial
  }

  /** The code left in the accumulator once bits n-1 down to 0 have been tried. */
  function Approximate(cmp: Comparator, accum: nat, n: nat): nat
    decreases n
  {
    if n == 0 then accum else Approximate(cmp, Next(cmp, accum, n - 1), n - 1)
  }

  /** The duty-cycle counts written, one per bit, most significant bit first. */
  function Trials(cmp: Comparator, accum: nat, n: nat): seq<nat>
    decreases n
  {
    if n == 0 then []
    else [accum + Pow2(n - 1)] + Trials(cmp, Next(cmp, accum, n - 1), n - 1)
  }

  /** The peripheral calls made, three per bit: the duty write, the settling wait, the pin read. */
  function Steps(cmp: Comparator, accum: nat, n: nat, sett: UInt32): seq<Event>
    decreases n
  {
    if n == 0 then []
    else
      var trial := accum + Pow2(n - 1);
      [SetDutyCycleCount(trial), SleepUs(sett), ReadPin(SampledPin, cmp(trial))]
        + Steps(cmp, Next(cmp, accum, n - 1), n - 1, sett)
  }

  /** One step of the loop: if the calls `done` made so far followed by the steps from
      `accum` over bits i..0 are `whole`, then trying bit i (write, wait, read) and moving to
      `Next` leaves the steps over bits i-1..0 to make, and the same final code. */
  lemma StepExtends(cmp: Comparator, accum: nat, i: nat, sett: UInt32, done: seq<Event>, whole: seq<Event>)
    requires done + Steps(cmp, accum, i + 1, sett) == whole
    ensures Approximate(cmp, Next(cmp, accum, i), i) == Approximate(cmp, accum, i + 1)
    ensures (done + [SetDutyCycleCount(accum + Pow2(i)), SleepUs(sett), ReadPin(SampledPin, cmp(accum + Pow2(i)))])
            + Steps(cmp, Next(cmp, accum, i), i, sett) == whole
  {
  }

  /** Zero has no bit set. */
  lemma {:induction false} ZeroBitsClear(n: nat)
    ensures LowBitsClear(0, n)
    decreases n
  {
    if n > 0 {
      ZeroBitsClear(n - 1);
    }
  }

  // ----- The code -----

  /** The conversion only touches the bits it tries: the code lies in
      [accum, accum + 2^n - 1]. */
  lemma {:induction false} ApproximateRange(cmp: Comparator, accum: nat, n: nat)
    ensures accum <= Approximate(cmp, accum, n) <= accum + Pow2(n) - 1
    decreases n
  {
    if n > 0 {
      ApproximateRange(cmp, Next(cmp, accum, n - 1), n - 1);
    }
  }

  /** A comparator that never reads 0 keeps every bit. */
  lemma {:induction false} ApproximateAllHigh(cmp: Comparator, accum: nat, n: nat)
    requires forall t: nat :: cmp(t) != 0
    ensures Approximate(cmp, accum, n) == accum + Pow2(n) - 1
    decreases n
  {
    if n > 0 {
      ApproximateAllHigh(cmp, Next(cmp, accum, n - 1), n - 1);
    }
  }

  /** A comparator that always reads 0 clears every bit. */
  lemma {:induction false} ApproximateAllLow(cmp: Comparator, accum: nat, n: nat)
    requires forall t: nat :: cmp(t) == 0
    ensures Approximate(cmp, accum, n) == accum
    decreases n
  {
    if n > 0 {
      ApproximateAllLow(cmp, Next(cmp, accum, n - 1), n - 1);
    }
  }

  /** Exact reconstruction: against a comparator that reads nonzero exactly when the trial
      count is at most `threshold`, the code is the threshold, clipped to the top of the range. */
  lemma {:induction false} ApproximateThreshold(cmp: Comparator, threshold: nat, accum: nat, n: nat)
    requires forall t: nat :: cmp(t) != 0 <==> t <= threshold
    requires accum <= threshold
    ensures Approximate(cmp, accum, n) == Min(threshold, accum + Pow2(n) - 1)
    decreases n
  {
    if n > 0 {
      var trial := accum + Pow2(n - 1);
      if trial <= threshold {
        ApproximateThreshold(cmp, threshold, trial, n - 1);
      } else {
        ApproximateThreshold(cmp, threshold, accum, n - 1);
      }
    }
  }

  /** Every trial count lies above the accumulator it started from and within the range
      the remaining bits can reach. */
  lemma {:induction false} TrialsRange(cmp: Comparator, accum: nat, n: nat)
    ensures forall k :: 0 <= k < |Trials(cmp, accum, n)| ==>
              accum < Trials(cmp, accum, n)[k] <= accum + Pow2(n) - 1
    decreases n
  {
    if n > 0 {
      TrialsRange(cmp, Next(cmp, accum, n - 1), n - 1);
    }
  }

  // ----- Bits -----

  /** Setting bit `i` of a number whose bits 0 .. i are clear sets exactly that bit. */
  lemma {:induction false} SetBit(a: nat, i: nat)
    requires LowBitsClear(a, i + 1)
    ensures !Bit(a, i) && LowBitsClear(a, i)
    ensures Bit(a + Pow2(i), i) && LowBitsClear(a + Pow2(i), i)
    decreases i
  {
    if i > 0 {
      SetBit(a / 2, i - 1);
      assert (a + Pow2(i)) / 2 == a / 2 + Pow2(i - 1);
    }
  }

  /** Adding less than 2^m to a number whose bits 0 .. m-1 are clear changes no bit from m up. */
  lemma {:induction false} HighBitsUnchanged(a: nat, d: nat, m: nat, j: nat)
    requires LowBitsClear(a, m) && d < Pow2(m) && m <= j
    ensures Bit(a + d, j) == Bit(a, j)
    decreases m
  {
    if m > 0 {
      assert (a + d) / 2 == a / 2 + d / 2;
      HighBitsUnchanged(a / 2, d / 2, m - 1, j - 1);
    }
  }

  /** Before bit n-1-k is tried, the bits below it are clear: the k-th trial count has that
      bit set and every lower bit clear, so the bit index strictly descends. */
  lemma {:induction false} TrialBits(cmp: Comparator, accum: nat, n: nat)
    requires LowBitsClear(accum, n)
    ensures |Trials(cmp, accum, n)| == n
    ensures forall k :: 0 <= k < n ==>
              Bit(Trials(cmp, accum, n)[k], n - 1 - k) && LowBitsClear(Trials(cmp, accum, n)[k], n - 1 - k)
    decreases n
  {
    if n > 0 {
      SetBit(accum, n - 1);
      TrialBits(cmp, Next(cmp, accum, n - 1), n - 1);
    }
  }

  /** Each read decides one bit and nothing else: bit n-1-k of the code is set exactly when
      the k-th comparator read was nonzero. */
  lemma {:induction false} ApproximateBits(cmp: Comparator, accum: nat, n: nat, k: nat)
    requires LowBitsClear(accum, n) && k < n
    ensures |Trials(cmp, accum, n)| == n
    ensures Bit(Approximate(cmp, accum, n), n - 1 - k) <==> cmp(Trials(cmp, accum, n)[k]) != 0
    decreases n
  {
    TrialBits(cmp, accum, n);
    var next := Next(cmp, accum, n - 1);
    SetBit(accum, n - 1);
    if k == 0 {
      ApproximateRange(cmp, next, n - 1);
      var code := Approximate(cmp, next, n - 1);
      HighBitsUnchanged(next, code - next, n - 1, n - 1);
      assert next + (code - next) == code;
    } else {
      ApproximateBits(cmp, next, n - 1, k - 1);
    }
  }

  // ----- The calls -----

  /** Three calls per bit, in this order: write the k-th trial count, wait `sett` µs, read
      pin 4 (the read returning the comparator's level at that count). */
  lemma {:induction false} StepsAt(cmp: Comparator, accum: nat, n: nat, sett: UInt32, k: nat)
    requires k < n
    ensures |Trials(cmp, accum, n)| == n && |Steps(cmp, accum, n, sett)| == 3 * n
    ensures Steps(cmp, accum, n, sett)[3 * k] == SetDutyCycleCount(Trials(cmp, accum, n)[k])
    ensures Steps(cmp, accum, n, sett)[3 * k + 1] == SleepUs(sett)
    ensures Steps(cmp, accum, n, sett)[3 * k + 2] == ReadPin(SampledPin, cmp(Trials(cmp, accum, n)[k]))
    decreases n
  {
    StepsLength(cmp, accum, n, sett);
    var trial, next := accum + Pow2(n - 1), Next(cmp, accum, n - 1);
    var head := [SetDutyCycleCount(trial), SleepUs(sett), ReadPin(SampledPin, cmp(trial))];
    var steps, rest := Steps(cmp, accum, n, sett), Steps(cmp, next, n - 1, sett);
    var trials, later := Trials(cmp, accum, n), Trials(cmp, next, n - 1);
    assert steps == head + rest;
    assert trials == [trial] + later;
    if k > 0 {
      StepsAt(cmp, next, n - 1, sett, k - 1);
      ShiftThree(head, rest, 3 * (k - 1));
      assert trials[k] == later[k - 1];
    }
  }

  /** Past a three-call head, call j+3+o of the whole is call j+o of the rest. */
  lemma ShiftThree(head: seq<Event>, rest: seq<Event>, j: nat)
    requires |head| == 3 && j + 2 < |rest|
    ensures (head + rest)[j + 3] == rest[j] && (head + rest)[j + 4] == rest[j + 1] && (head + rest)[j + 5] == rest[j + 2]
  {
  }

  /** A conversion over n bits tries n counts with three calls each. */
  lemma {:induction false} StepsLength(cmp: Comparator, accum: nat, n: nat, sett: UInt32)
    ensures |Trials(cmp, accum, n)| == n && |Steps(cmp, accum, n, sett)| == 3 * n
    decreases n
  {
    if n > 0 {
      StepsLength(cmp, Next(cmp, accum, n - 1), n - 1, sett);
    }
  }

  /** `StepsAt` for every bit at once. */
  lemma StepsShape(cmp: Comparator, accum: nat, n: nat, sett: UInt32)
    ensures |Trials(cmp, accum, n)| == n && |Steps(cmp, accum, n, sett)| == 3 * n
    ensures forall k :: 0 <= k < n ==>
              Steps(cmp, accum, n, sett)[3 * k] == SetDutyCycleCount(Trials(cmp, accum, n)[k])
              && Steps(cmp, accum, n, sett)[3 * k + 1] == SleepUs(sett)
              && Steps(cmp, accum, n, sett)[3 * k + 2] == ReadPin(SampledPin, cmp(Trials(cmp, accum, n)[k]))
  {
    StepsLength(cmp, accum, n, sett);
    forall k | 0 <= k < n
      ensures Steps(cmp, accum, n, sett)[3 * k] == SetDutyCycleCount(Trials(cmp, accum, n)[k])
      ensures Steps(cmp, accum, n, sett)[3 * k + 1] == SleepUs(sett)
      ensures Steps(cmp, accum, n, sett)[3 * k + 2] == ReadPin(SampledPin, cmp(Trials(cmp, accum, n)[k]))
    {
      StepsAt(cmp, accum, n, sett, k);
    }
  }

  /** Exactly n duty-cycle writes (the trial counts, in order) and exactly n reads, all of pin 4. */
  lemma {:induction false} StepsWritesAndReads(cmp: Comparator, accum: nat, n: nat, sett: UInt32)
    ensures DutyWrites(Steps(cmp, accum, n, sett)) == Trials(cmp, accum, n)
    ensures |PinReads(Steps(cmp, accum, n, sett))| == n
    ensures forall k :: 0 <= k < n ==> PinReads(Steps(cmp, accum, n, sett))[k] == SampledPin
    decreases n
  {
    if n > 0 {
      var trial := accum + Pow2(n - 1);
      var head := [SetDutyCycleCount(trial), SleepUs(sett), ReadPin(SampledPin, cmp(trial))];
      var rest := Steps(cmp, Next(cmp, accum, n - 1), n - 1, sett);
      StepsWritesAndReads(cmp, Next(cmp, accum, n - 1), n - 1, sett);
      DutyWritesAppend(head, rest);
      PinReadsAppend(head, rest);
      assert head[1..][1..][1..] == [];
      assert DutyWrites(head[1..][1..]) == [];
      assert DutyWrites(head) == [trial];
      assert PinReads(head[1..][1..]) == [SampledPin];
      assert PinReads(head) == [SampledPin];
    }
  }

  /** A conversion sets no frequency, no count range and no mode. */
  lemma {:induction false} StepsOnlyWriteDuty(cmp: Comparator, accum: nat, n: nat, sett: UInt32)
    ensures forall k :: 0 <= k < |Steps(cmp, accum, n, sett)| ==>
              var e := Steps(cmp, accum, n, sett)[k];
              e.SetDutyCycleCount? || e.SleepUs? || e.ReadPin?
    decreases n
  {
    if n > 0 {
      StepsOnlyWriteDuty(cmp, Next(cmp, accum, n - 1), n - 1, sett);
    }
  }
}
