# adcHack: a software successive-approximation ADC, in Dafny

`adcHack` turns a Raspberry Pi into an analog-to-digital converter. The PWM1 peripheral is
used as a DAC, through an RC low-pass filter. A comparator sits on one GPIO input and tells
whether the analog input is above the DAC's output. A conversion tries the bits from the most
significant down: it sets the bit in an accumulator, writes the accumulator as the PWM duty
count, waits a settling delay, reads the comparator, and clears the bit again if the
comparator read 0. Two resolutions exist. 8-bit runs at 37500 Hz with 256 counts. 10-bit, the
default, runs at 9370 Hz with 1024 counts.

The project has three modules:

- `Peripherals` (`peripherals.dfy`) covers the two drivers, `mmapGpio` and `rpiPWM1`, and the
  settling wait. They are seen only through the calls `adcHack` makes on them: every call is
  an `Event` in a trace. The PWM's current frequency, count range, duty count and mode are
  the fold of that trace (`PwmRun`). `UInt32` and `Int32` are the target's `unsigned int`
  and `int`.
- `Sar` (`sar.dfy`) is the conversion as pure functions over `n` bits. `Approximate` gives
  the resulting code, `Trials` the counts written and `Steps` the calls made. The lemmas here
  cover ranges, comparators that always or never read 0, threshold comparators, bit
  structure and call shape.
- `SoftAdc` (`adchack.dfy`) is the class `AdcHack`. Its fields are `res` and `sett` from the
  source, plus a ghost `trace` of peripheral calls. It has the three constructors, `AdcRead`,
  the two setters, the two getters and the three constants.

The comparator is a parameter of `AdcRead`: a function from the duty count just written to
the value `readPin(4)` returns. One conversion never writes the same count twice, because
the k-th trial's lowest set bit is bit n-1-k. So a function of the count can describe any
sequence of reads.

The source has these points, and the model keeps each as written:

- `adcRead` always reads GPIO 4 (`Sar.SampledPin`), whatever pin the constructor made an
  input (adcHack.cpp:88, 98). `SoftAdc.ConversionCalls` states that every read is of pin 4.
- The two-argument constructor stores `resolution` without checking it
  (adcHack.cpp:56). Every value other than `ADC_RES_8` then gets the 10-bit bundle and
  10-bit conversions.
- The two-argument constructor sets a settling delay of 69 µs. Its comment says 60
  (adcHack.cpp:46, 57).
- The header says the default delay is 55 µs (adcHack.h:73). The constructors use 60 µs.
- `ERR_RES` is 1, the same value as `ADC_RES_10` (adcHack.h:79-80). A caller cannot tell
  the error code of `setResolution` apart from that resolution identifier.
- `setResolution` does not re-apply the PWM settings. See "Findings".

## Model

| member | source | states |
|---|---|---|
| SoftAdc.AdcHack.constructor | adcHack.cpp:15-23 | The default object is 10-bit with a 60 µs delay. It makes GPIO 4 an input, then applies the 10-bit bundle: 9370 Hz, 1024 counts, duty 512, PWMMODE. Afterwards the PWM matches the resolution (`DacConsistent`). |
| SoftAdc.AdcHack.WithPin | adcHack.cpp:34-42 | Gives the same state and calls as the default constructor, except that the input pin is `pinnum`. |
| SoftAdc.AdcHack.WithPinAndResolution | adcHack.cpp:54-72 | Stores `resolution` unchecked and sets the delay to 69 µs. It applies the 8-bit bundle (37500 Hz, 256 counts, duty 128) exactly when `resolution == ADC_RES_8`, and the 10-bit bundle for every other value. The PWM then matches the stored resolution. |
| SoftAdc.AdcHack.AdcRead | adcHack.cpp:80-105 | The returned code is the successive-approximation code over 8 bits for `ADC_RES_8` and over 10 bits otherwise. It is at most 255 or 1023. The calls made are exactly the write-wait-read steps of that conversion. The PWM's frequency, count range and mode are unchanged. |
| SoftAdc.AdcHack.SuccessiveApproximation | adcHack.cpp:84-101 | The bit loop over bits n-1 down to 0. Its loop invariant keeps the code still reachable and the calls still to make, and it ends with `Approximate` and `Steps` of the whole conversion. |
| SoftAdc.AdcHack.TryBit | adcHack.cpp:85-90 | One pass of the loop. It appends a write of the trial count (accumulator plus 2^i), one wait of `sett` and one read of pin 4, in that order. The bit stays set exactly when that read is nonzero. |
| SoftAdc.AdcHack.SetResolution | adcHack.cpp:116-124 | For `ADC_RES_8` or `ADC_RES_10`, stores the value and returns 0. For any other value, returns `ERR_RES` and keeps the old resolution. Either way the delay and every peripheral setting are unchanged. |
| SoftAdc.AdcHack.SetSettlingTimeUs | adcHack.cpp:132-134 | Every unsigned delay, 0 included, is stored as given. The getter then returns it, and the resolution and peripherals are unchanged. |
| SoftAdc.AdcHack.GetSettlingTime | adcHack.h:75 | Returns the stored delay and reads nothing else. |
| SoftAdc.AdcHack.GetAdcResolution | adcHack.h:76 | Returns the stored resolution and reads nothing else. |
| SoftAdc.ResolutionCodes | adcHack.h:78-80 | `ADC_RES_8` is 0 and `ADC_RES_10` is 1, so they are distinct. `ERR_RES` is 1: it differs from the success code 0 but equals `ADC_RES_10`. |
| SoftAdc.Bundle | adcHack.cpp:58-70 | The four PWM calls for a resolution: frequency, count range, duty, mode. The count range is 2^bits, one count per code. The initial duty is the first trial count (midscale). |
| SoftAdc.BundleSettings | adcHack.cpp:58-70 | Applying a bundle sets all four PWM settings to its values, whatever they were before. |
| SoftAdc.BundleThenConversions | adcHack.cpp:19-22 | A trace that ends with the bundle for `res`, followed only by duty writes, waits and reads, leaves the PWM configured for `res`. |
| SoftAdc.ConversionKeepsBundle | adcHack.cpp:84-101 | A conversion never changes the frequency, count range or mode. It preserves the PWM-matches-resolution invariant in both directions. |
| SoftAdc.ConversionRange | adcHack.cpp:80-105 | For every comparator, the code is in [0, 255] for `ADC_RES_8` and in [0, 1023] for any other resolution. |
| SoftAdc.ConversionAllHigh | adcHack.cpp:84-101 | A comparator that never reads 0 gives 255 for `ADC_RES_8`, and 1023 otherwise. |
| SoftAdc.ConversionAllLow | adcHack.cpp:84-101 | A comparator that always reads 0 gives 0. |
| SoftAdc.ConversionThreshold | adcHack.cpp:84-101 | Against a comparator that reads nonzero exactly when the count is at most T, the code is min(T, 255) for `ADC_RES_8` and min(T, 1023) otherwise. |
| SoftAdc.ConversionCalls | adcHack.cpp:84-101 | A conversion makes exactly 8 (for `ADC_RES_8`) or 10 duty writes and the same number of reads, all of pin 4. Every count written is in [1, 255] for `ADC_RES_8` and in [1, 1023] otherwise. Call 3k writes the k-th trial, call 3k+1 waits `sett` and call 3k+2 reads the comparator at that trial. The k-th trial has bit (bits-1-k) set and all lower bits clear, so the bit index strictly descends. |
| Sar.Next | adcHack.cpp:85-90 | One bit of the loop as a reference definition: the bit is set in the accumulator and stays set exactly when the comparator's value at that trial count is nonzero. |
| Sar.Approximate | adcHack.cpp:84-101 | The reference definition of the code a conversion ends with: bits n-1 down to 0 tried in turn with `Next`. `AdcRead` and `SuccessiveApproximation` are proved equal to it. |
| Sar.Trials | adcHack.cpp:85-86 | The reference definition of the duty counts a conversion writes, in order: the accumulator with the bit under trial added. |
| Sar.Steps | adcHack.cpp:86-88 | The reference definition of the calls a conversion makes: for each trial, a duty write, a wait of `sett` and a read of pin 4 at that count. `AdcRead` is proved to append exactly these. |
| Peripherals.Apply | adcHack.cpp:19-22 | One `dac.*` call updates the one PWM setting it names; GPIO calls and waits leave the PWM as it was. |
| Peripherals.PwmRun | adcHack.cpp:58-70 | The PWM's frequency, count range, duty count and mode are the effect of the calls recorded so far, applied in order. |
| Sar.TrialsRange | adcHack.cpp:85-86 | Every trial count is above the starting accumulator and at most accum + 2^n - 1. |
| Sar.ApproximateRange | adcHack.cpp:84-101 | Trying bits n-1..0 from `accum` gives a code in [accum, accum + 2^n - 1]. |
| Sar.ApproximateAllHigh | adcHack.cpp:84-101 | If the comparator never reads 0, every bit is kept: the code is accum + 2^n - 1. |
| Sar.ApproximateAllLow | adcHack.cpp:84-101 | If the comparator always reads 0, every bit is cleared: the code is accum. |
| Sar.ApproximateThreshold | adcHack.cpp:84-101 | Exact reconstruction: with a threshold comparator and accum ≤ T, the code is min(T, accum + 2^n - 1). |
| Sar.TrialBits | adcHack.cpp:84-101 | Before bit i is tried, the bits below i are all clear. The k-th trial count has bit n-1-k set and every lower bit clear. |
| Sar.ApproximateBits | adcHack.cpp:84-101 | Each read decides its own bit: bit n-1-k of the code is set if and only if the k-th read was nonzero. |
| Sar.SetBit | adcHack.cpp:85 | Adding 2^i to a number whose bits 0..i are clear sets bit i and leaves the lower bits clear. |
| Sar.HighBitsUnchanged | adcHack.cpp:84-101 | Adding less than 2^m to a number whose bits below m are clear changes no bit from m up. Later steps cannot undo a decided bit. |
| Sar.StepExtends | adcHack.cpp:85-90 | The calls made so far plus those still to make stay equal to the whole conversion's calls after one more bit is tried. The code to reach is also unchanged. |
| Sar.StepsAt | adcHack.cpp:86-88 | Calls 3k, 3k+1 and 3k+2 are the k-th trial's write, its wait and its read. |
| Sar.StepsLength | adcHack.cpp:84-101 | n bits give n trials and 3n calls. |
| Sar.StepsShape | adcHack.cpp:84-101 | The three-calls-per-bit layout holds for every k below n. |
| Sar.StepsWritesAndReads | adcHack.cpp:86-98 | The duty counts written are exactly the trials, in order. There are exactly n pin reads, all of pin 4. |
| Sar.StepsOnlyWriteDuty | adcHack.cpp:84-101 | A conversion sets no frequency, count range or mode. It only writes duty counts, waits and reads. |
| SoftAdc.BundleMismatch | adcHack.cpp:116-124 | As written, `setResolution` can leave the PWM mismatched. After the bundle of a resolution with one bit width, the PWM matches that resolution and not one of the other width. |
| SoftAdc.StaleBundleScenario | adcHack.cpp:116-124 | Building the default object and calling `setResolution(ADC_RES_8)` returns 0 and stores `ADC_RES_8`. The returned object's PWM is still at 1024 counts and 9370 Hz, so it no longer matches the stored resolution. |
| SoftAdc.AdcHack.SetResolutionAndReconfigure | adcHack.cpp:116-124 | The corrected setter. It accepts and rejects the same values with the same codes, and for a valid resolution it also applies that resolution's bundle. A valid value leaves the PWM matching the resolution; an invalid one changes nothing, so whatever held before still holds. |

## Left out

- The internals of `mmapGpio` and `rpiPWM1` (adcHack.h:61-62, 83-84). These are
  memory-mapped register drivers and are not part of this model. Their calls are recorded
  as events, and the PWM's settings are derived from those events.
- Timing. `usleep(sett)` is recorded as one `SleepUs(sett)` event per bit. Nothing about
  elapsed time or the sample rate is modelled.
- Analog behaviour: the RC filter, the comparator's electronics and the effective PWM
  frequency (adcHack.h:49-56). The comparator is a function parameter instead.
- customAdc.cpp, the demo program: a print loop, a 100 µs wait and a floating-point voltage
  formula.
- The frequencies `9370.0` and `37500.0` are `double` in the source. Here they are the
  integers 9370 and 37500.
- Default construction of the two driver members before a constructor body runs is not
  modelled. Only the calls each constructor body makes appear in the trace.
- SoftAdc.AdcHack.SuccessiveApproximation: the source writes the bit loop twice, once for 8
  and once for 10 bits. The model has one loop over `n` bits, with `unsigned int` arithmetic
  replaced by unbounded integers. No wrap-around can occur: `AdcRead` proves its result is
  at most 1023, and `1 << i` is used only for i ≤ 9.
- SoftAdc.AdcHack.WithPin: the pin number is recorded only in the `setPinDir` event.
  `adcHack` keeps no pin field, so the model has none either.

## Findings

| source | as written | input that shows it | evidently intended | confidence | as-written member | corrected member |
|---|---|---|---|---|---|---|
| adcHack.cpp:116-124 | `setResolution` stores a new resolution but leaves the PWM frequency, count range and duty as the constructor set them | `adcHack()` then `setResolution(ADC_RES_8)` returns 0. The PWM stays at 9370 Hz and 1024 counts, while conversions write counts of at most 255, and the first trial, 128, is an eighth of the range instead of its middle | changing the resolution also applies that resolution's PWM bundle, as the constructors do | medium (the header describes the setter as changing the resolution between the two modes); not executed | SoftAdc.StaleBundleScenario | SoftAdc.AdcHack.SetResolutionAndReconfigure |
