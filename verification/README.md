# adConvert — potentiometer rescaling, modelled in Dafny

`adConvert.py` reads a potentiometer through a 16-bit ADC and rescales the
raw reading (0–65536) to a percentage (100–0). The rescaling is the line
through two points, `(minPotValue, 100)` and `(maxPotValue = 65536, 0)`:
`calcSlope` gives its slope `m`, and each reading `x` is shown as
`m*(x - x1) + y1`. At start-up `minPotValue` is calibrated as the mean of
`NUMSAMPLES = 500` readings taken with the pot turned fully
counter-clockwise.

`adconvert.dfy` holds one module, `AdConvert`:

- the linear scaler: `CalcSlope`, `Scale`, the `Transform` (the globals
  `m`, `x1`, `y1` that the scaling reads), `Line`, and the two start-up
  transforms `AsWritten` and `Corrected`;
- the calibrator: the loop of `calibrateMinPotValuePossible` as a method
  over a sequence of ADC readings, specified by `Sum` and `Mean`;
- start-up (lines 73-74): calibration, then the slope.

Numbers are `real`. Python's `/` on these operands is true division, so no
truncation is modelled. The ADC is a `seq<int>` whose readings are consumed
in order; `IsRaw` is the range `[0, 65536)` that `read_u16` returns. Both
divisions in the code raise `ZeroDivisionError` on a zero divisor, and
nothing catches it. The model returns `Err(ZeroDivisionError)` there
instead of forbidding the input: `CalcSlope` when both points share their
raw coordinate, `CalibrateMinPotValuePossible` when `numSamples == 0`.

The program keeps two different `x1`s. `point1` is built from the initial
`x1 = 528` before calibration runs, so the slope always uses 528. The
scaling reads the global `x1`, which line 73 reassigns to the calibrated
mean. The assignment inside `calibrateMinPotValuePossible` (line 64) binds
locals only and has no effect. `Transform` therefore keeps the slope and
the anchor `x1` apart, and `AsWritten` reproduces this behaviour.

The header comment (lines 3-9) and the comment on line 24 ("updated by
calibration") say that the line passes through the calibrated point
`(minPotValue, 100)`. The code keeps the slope of the line through
`(528, 100)`; the model follows the code, and Findings records the
difference.

## Model

| member | source | states |
|---|---|---|
| `AdConvert.CalcSlope` | adConvert.py:31-33 | fails exactly when both points have the same raw coordinate; otherwise the slope times the run `x2 - x1` equals the rise `y2 - y1` |
| `AdConvert.Scale` | adConvert.py:35-37 | the scaled value equals `y1` at raw value `x1`; with a negative slope it is above `y1` below `x1` and below `y1` above `x1` |
| `AdConvert.Line` | adConvert.py:3-7 | the line through two points is anchored at the first point, and its slope times the run `x2 - x1` is the rise `y2 - y1` |
| `AdConvert.AsWritten` | adConvert.py:72-74 | the running transform has slope `-100/65008` whatever the calibration returned, anchor `x1` equal to the calibrated mean, and `y1 = 100` |
| `AdConvert.Corrected` | adConvert.py:3-7 | the intended transform is anchored at `(calibrated, 100)`, and its slope times `65536 - calibrated` is `-100` |
| `AdConvert.LineThroughBothPoints` | adConvert.py:5-7 | when the slope and the anchor come from the same two points, scaling maps `x1` to `y1` and `x2` to `y2` exactly |
| `AdConvert.ScaleStrictlyDecreasing` | adConvert.py:37 | with a negative slope, a larger raw value gives a strictly smaller scaled value |
| `AdConvert.SlopeIndependentOfCalibration` | adConvert.py:24-29 | any two calibration results give the same slope, `-100/65008`, which is negative |
| `AdConvert.BelowMinimumExceedsHundred` | adConvert.py:35-37 | the output is not clamped: a raw value below the calibrated minimum scales to more than 100 |
| `AdConvert.AsWrittenFarEndIsZeroIff` | adConvert.py:72-74 | as written, 65536 scales to 0 if and only if calibration returned exactly 528 |
| `AdConvert.AsWrittenFarEndCounterexample` | adConvert.py:72-74 | a calibrated mean of 1000 makes 65536 scale to `47200/65008`, not 0 |
| `AdConvert.AsWrittenLargestReadingCounterexample` | adConvert.py:72-74 | with a calibrated mean of 1000, the largest reading 65535 scales to `47300/65008` as written but to `100/64536` on the intended line |
| `AdConvert.CorrectedEndpoints` | adConvert.py:3-7 | with the intended transform, the calibrated minimum scales to 100 and 65536 scales to 0, for every calibration result other than 65536 |
| `AdConvert.CorrectedInRange` | adConvert.py:3-7 | with the intended transform, every raw value from the calibrated minimum up to 65536 scales into `[0, 100]` |
| `AdConvert.EndToEndAt528` | adConvert.py:24-37 | when calibration returns 528, raw 528 scales to 100, raw 65536 to 0 and raw 33032 to 50 |
| `AdConvert.CalibrateMinPotValuePossible` | adConvert.py:56-68 | reads exactly `numSamples` readings; after `k` iterations `total` is the sum of the first `k`; the result is their arithmetic mean, and it is an error exactly when `numSamples` is 0 |
| `AdConvert.Mean` | adConvert.py:63 | the mean of the readings is the value whose product with their count is their sum |
| `AdConvert.Min` | adConvert.py:59-63 | the smallest reading is one of the readings and is at most every reading |
| `AdConvert.Max` | adConvert.py:59-63 | the largest reading is one of the readings and is at least every reading |
| `AdConvert.SumBounds` | adConvert.py:59-61 | `n` readings between `lo` and `hi` sum to between `n*lo` and `n*hi` |
| `AdConvert.MeanBounds` | adConvert.py:59-63 | the mean lies within any common bounds of the readings |
| `AdConvert.MeanBetweenMinAndMax` | adConvert.py:59-63 | the mean lies between the smallest and the largest reading |
| `AdConvert.MeanOfRawReadingsIsInRange` | adConvert.py:23-24 | when every reading is in `[0, 65536)`, so is the calibrated mean |
| `AdConvert.CalibrationExample` | adConvert.py:59-63 | readings 500, 510, 520 and 530 average to 515 |
| `AdConvert.Startup` | adConvert.py:72-74 | after calibrating from the first 500 readings the program runs with slope `-100/65008`, `y1 = 100` and `x1` equal to their mean, which lies in `[0, 65536)` when the readings do |

## Findings

| source | as written | input that shows it | evidently intended | confidence | as-written member | corrected member |
|---|---|---|---|---|---|---|
| adConvert.py:28 | `point1` is built from the initial `x1 = 528` before calibration, so the slope at line 74 ignores the calibrated `x1`, while the scaling at line 37 is anchored at the calibrated `x1` | calibration readings averaging 1000: raw 65536 scales to `47200/65008` (about 0.73) instead of 0; at the largest reachable reading, 65535, it scales to `47300/65008` (about 0.73) where the intended line gives `100/64536` (about 0.0015) | the line through `(minPotValue, 100)` and `(65536, 0)` of the header comment, with the slope computed from the calibrated point | high (not executed) | `AdConvert.AsWrittenFarEndCounterexample` | `AdConvert.CorrectedEndpoints` |

`AdConvert.AsWrittenFarEndIsZeroIff` shows that the two agree only when
calibration returns exactly 528. `AdConvert.AsWrittenLargestReadingCounterexample`
exhibits the difference at a reading that `read_u16` can return. `Startup`
reproduces the code as written.

## Left out

- Hardware collaborators: the `ADC`, `Pin` and `I2C` objects and the `ssd1306` OLED driver, including `initializeI2C`, `initializeOLED` and `displayOled` (lines 39-54). They are foreign library calls whose code is not part of this model.
- The ADC itself: readings are a parameter sequence. Sensor read failures are not modelled.
- Operator prompts (`input`), console `print`s and every `sleep` (lines 57-58, 62, 65-67, 80, 82). These are I/O and timing.
- The `while True` acquisition loop and the `KeyboardInterrupt` / `sys.exit` handling (lines 72-84). This control flow never terminates and is driven by an interrupt. Only start-up (lines 73-74) and the value computed in one iteration (`Scale`) are modelled.
- The text formatting `f'{x:0}'` and `f'{...:0.2f}'` (line 37). `Scale` is the numeric value before it is rounded to text.
- Floating-point rounding: MicroPython on this board (it imports `machine`, line 15) typically uses single-precision IEEE-754 floats. All arithmetic is exact over `real`, so the endpoint equalities hold exactly here, while the floats may differ in the last bits.
- CalibrateMinPotValuePossible: takes `numSamples` as a `nat`, so it covers non-negative sample counts only. In Python a negative count makes `range` empty and `0/numSamples` returns `-0.0` without an error. The only call (line 73) passes `NUMSAMPLES = 500`.
