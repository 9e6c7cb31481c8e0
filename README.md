# Vital-sign range checkers

A Dafny model of the two classifiers of a small patient-monitor program that
checks three readings — body temperature, pulse rate and blood oxygen
saturation (SpO2) — against configured ranges, with readings and bounds as
exact `real` numbers.

- **Three-zone checker** (`vitals.py`, module `VitalsChecker`): each reading
  is out of range, in a warning band next to a bound, or normal. The bands
  are `(min, min + t]` and `[max - t, max)` with `t = 1.5% of max`;
  out-of-range is decided first, then the low band, then the high band.
  SpO2 has only a minimum and a low band of `1.5% of the minimum`. The
  composite `CheckVitalsWithWarning` runs temperature, pulse, SpO2 and
  returns the first report that failed or carries a message.
- **Two-zone checker** (`monitor.py`, module `Monitor`): inclusive range
  tests, the composite `CheckVitals` returning the first failure, the
  alerting `VitalsOk`, and the `Vitals` class holding six readonly fields.
- Shared values (module `Readings`): ranges, a structured `Message`
  (`OutOfRange(name, lo, hi)`, `OutOfRangeMin(name, lo)`, `Warning(condition)`)
  instead of formatted strings, the `(ok, msg)` `Report`, and
  `FirstFlaggedIndex`, the "first report that failed or carries a message,
  else the last" rule that both composites are proved to follow.
- Module `Agreement` relates the two checkers: per real-valued reading they agree on
  pass/fail and on the failure message, and a warning on an earlier vital
  hides a later failure from the three-zone composite only
  (`WarningMasksLaterFailure`: temperature 95.5 with SpO2 80).

The alert side effect (print the message, run a console animation) is
modelled as the list of alerts a call fires, each carrying the message it
prints.

Behaviour of the code worth noting:

- `vitals.py` decides "above max" before any warning band, so a value above
  the maximum that also lies in a wide low band is out of range, not a warning.
- The SpO2 tolerance is fixed at 1.5% of the minimum; it is not configurable.
- For a range with min < max, both bounds are normal exactly when the
  tolerance is below the width of the range (`BoundsNormalIff`), so in
  particular when the bands are separate (`BandsSeparate`: tolerance below
  half the width, true of both default ranges). A one-point range
  (min == max) is always normal at its value (`PointRangeIsNormal`). In a
  narrow range the maximum itself draws the low-side warning
  (`NarrowRangeWarnsAtMaximum`).
- SpO2 exactly at its minimum is normal (`Spo2AtMinimumIsNormal`), because
  the band test `min < spo2` is strict; the test at `monitor_test.py:90-94`
  expects a hypoxemia warning there. Other tests are stale as well: they
  import the three-zone composite from `monitor`, import
  `is_temperature_ok`/`is_pulse_rate_ok` (present only in commented-out
  code) and expect an old message text. The model follows the live code.

## Model

| member | source | states |
|---|---|---|
| `Readings.Flagged` | vitals.py:107-113 | the composite's test `not ok or msg` holds exactly when the report is not `(True, None)` |
| `Readings.FirstFlagged` | vitals.py:107-116 | the composite's choice is one of the reports: the first flagged one if any, otherwise the last |
| `Readings.FirstFlaggedIndex` | vitals.py:107-116 | the chosen report is the first that failed or carries a message, every earlier one is neither, and it is the last one when none is flagged |
| `VitalsChecker.GetWarningRanges` | vitals.py:1-9 | the low band starts at min, the high band ends at max, both are `pct/100 * max` wide, and non-empty for non-negative pct and max |
| `VitalsChecker.CheckOutOfRange` | vitals.py:12-18 | a failure with the `(min-max)` message exactly when value < min or value > max |
| `VitalsChecker.WarningLevel` | vitals.py:21-27 | a warning exactly in `(min, nearLow.end]` or `[nearHigh.start, max)`; the low message whenever the low band holds, the high message otherwise |
| `VitalsChecker.CheckBounded` | vitals.py:30-73 | ok is false exactly outside `[min, max]`, with the out-of-range message; inside, the low warning in the low band, else the high warning in the high band; no message exactly in the normal zone |
| `VitalsChecker.CheckTemperature` | vitals.py:30-50 | fails exactly outside the temperature range with the Temperature message; any other message is the hypothermia or hyperthermia warning |
| `VitalsChecker.CheckPulse` | vitals.py:53-73 | fails exactly outside the pulse range with the Pulse Rate message; any other message is the bradycardia or tachycardia warning |
| `VitalsChecker.CheckSpo2` | vitals.py:76-83 | fails exactly below the minimum with the `(min ...)` message; warns exactly in `(min, min * 1.015]`; the only warning is hypoxemia (no high band) |
| `VitalsChecker.CheckVitalsWithWarning` | vitals.py:99-116 | the result is one of the three reports, normal exactly when all three are, and fails only if some reading is out of range |
| `VitalsChecker.WithWarningIsFirstFlagged` | vitals.py:107-116 | the composite is the first-flagged rule over temperature, pulse, SpO2 in that order |
| `VitalsChecker.TemperatureWarningMasks` | vitals.py:107-109 | a temperature warning is returned whatever the pulse and SpO2 readings are |
| `VitalsChecker.BoundsAreNormal` | vitals.py:23-27 | with separate bands, a value exactly at min or at max is `(True, None)` |
| `VitalsChecker.BoundsNormalIff` | vitals.py:23-27 | for a range with min < max, both bounds are `(True, None)` exactly when the tolerance is below the range width |
| `VitalsChecker.PointRangeIsNormal` | vitals.py:12-27 | in a one-point range (min == max) the single value is `(True, None)` |
| `VitalsChecker.LowBandWinsOnOverlap` | vitals.py:23-26 | a value in both bands gets the low-band warning |
| `VitalsChecker.DefaultBandsSeparate` | vitals.py:30-55 | the default temperature and pulse ranges have separate bands |
| `VitalsChecker.NarrowRangeWarnsAtMaximum` | vitals.py:23-26 | in range (100, 101) the bands overlap and the maximum 101 draws the low-side warning |
| `VitalsChecker.Spo2AtMinimumIsNormal` | vitals.py:79-83 | SpO2 exactly at its minimum is `(True, None)`, alone and in the composite |
| `VitalsChecker.DefaultScenarios` | monitor_test.py:6-114 | the composite's results on the documented readings under the default ranges, including the exact-bound and combined cases |
| `Monitor.IsValueInRange` | monitor.py:201-203 | holds exactly when the value is neither below the minimum nor above the maximum (inclusive at both ends), and only for a non-empty range |
| `Monitor.IsSpo2Ok` | monitor.py:205-207 | holds exactly when SpO2 is not below its minimum |
| `Monitor.CheckVitals` | monitor.py:209-216 | ok exactly when temperature and pulse are in their inclusive ranges and SpO2 is at least its minimum; a message exactly on failure, naming the first failing vital in the order temperature, pulse, SpO2, with its bounds |
| `Monitor.AlertOnFailure` | monitor.py:220-227 | returns the ok flag unchanged and fires one alert, with the message, exactly when it is false |
| `Monitor.VitalsOk` | monitor.py:241-243 | true exactly when all readings are in range; exactly one alert, with a message, when false, none when true |
| `Monitor.Vitals.constructor` | monitor.py:248-255 | the six fields hold the arguments unchanged |
| `Monitor.Vitals.Status` | monitor.py:257-259 | equals `CheckVitals` on the six stored fields: ok exactly when all are in range, a message exactly on failure |
| `Monitor.Vitals.CheckAndAlert` | monitor.py:261-266 | returns the status's ok flag; one alert with the status's message exactly when it is false |
| `Monitor.InclusiveBounds` | monitor.py:201-207 | both range tests accept their bounds |
| `Monitor.AlertScenarios` | monitor.test.py:67-86 | the decorated check alerts once for each out-of-range case and not for normal readings |
| `Agreement.SingleChecksAgree` | monitor.py:201-207 | per reading, the three-zone ok flag equals the two-zone range test, and a failure of each vital carries the same message in both |
| `Agreement.WithWarningFailureIsCheckVitalsFailure` | vitals.py:99-116 | whenever the three-zone composite fails, it returns exactly the two-zone composite's report |
| `Agreement.CheckVitalsFailureReportedOrMasked` | monitor.py:209-216 | a two-zone failure is either reported by the three-zone composite or replaced by a warning |
| `Agreement.NoEarlyWarningMeansSameVerdict` | vitals.py:107-113 | without a temperature or pulse warning both composites give the same ok flag, and the same report on failure |
| `Agreement.WarningMasksLaterFailure` | vitals.py:107-109 | readings (95.5, 80, 80): the three-zone composite returns the hypothermia warning, the two-zone one the SpO2 failure |
| `Agreement.CheckVitalsIsFirstFlagged` | monitor.py:209-216 | the two-zone composite is the first-flagged rule over the per-vital pass/fail reports |

## Left out

- `_check_temperature`, `_check_pulse`, `_check_spo2` (vitals.py:87-96) forward their arguments unchanged; the composite calls `CheckTemperature`, `CheckPulse` and `CheckSpo2` directly.
- The console animation (`animate_alert`) and the printing of messages: I/O with sleeps; an alert is an entry in the returned list of alerts.
- `alerts.py` (`alert_if_not_ok`) is not part of this model; it is not called by the modelled code.
- The `__main__` block of monitor.py: program wiring.
- The commented-out earlier versions in monitor.py and monitor.test.py: dead code.
- NaN and infinite readings are not modelled (`real` has neither). In the program a NaN reading makes every comparison false, so the three-zone check reports it normal while the two-zone range test fails it; the agreement lemmas hold for real-valued readings only.
- Floating point: `(1.5 / 100) * max` is exact here; IEEE-754 rounding may move a reading exactly at a band edge to the other side.
- Number formatting in messages (`95` versus `95.0`): messages are structured values carrying the bounds.
- The generic `*args/**kwargs` decorator: `VitalsOk` is modelled as the composition the decorator produces.
- Python attributes of `Vitals` could be reassigned from outside the class; the source never does, so the fields are readonly.
- `get_warning_ranges` takes a tolerance percentage, but every caller uses the default 1.5; the checks use the default.
