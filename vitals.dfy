/** The three-zone checker: each reading is out of range, in a warning band
    next to a bound, or normal; the composite reports the first reading that
    is not normal, in the order temperature, pulse rate, SpO2. */
module VitalsChecker {
  import opened Readings

  const DefaultTolerancePercent: real := 1.5

  /** The warning band next to each bound, as `(start, end)` pairs. */
  datatype WarningRanges = WarningRanges(nearLow: Range, nearHigh: Range)

  /** Width of both warning bands of a range: a percentage of its maximum. */
  function Tolerance(maxValue: real, tolerancePercent: real := DefaultTolerancePercent): real {
    tolerancePercent / 100.0 * maxValue
  }

  /** The low band starts at the minimum, the high band ends at the maximum,
      and both are as wide as the tolerance. */
  function GetWarningRanges(minValue: real, maxValue: real,
                            tolerancePercent: real := DefaultTolerancePercent): (w: WarningRanges)
    ensures w.nearLow.lo == minValue && w.nearHigh.hi == maxValue
    ensures w.nearLow.hi - w.nearLow.lo == Tolerance(maxValue, tolerancePercent)
    ensures w.nearHigh.hi - w.nearHigh.lo == Tolerance(maxValue, tolerancePercent)
    ensures 0.0 <= tolerancePercent && 0.0 <= maxValue ==>
              w.nearLow.lo <= w.nearLow.hi && w.nearHigh.lo <= w.nearHigh.hi
  {
    var tolerance := tolerancePercent / 100.0 * maxValue;
    WarningRanges(Range(minValue, minValue + tolerance), Range(maxValue - tolerance, maxValue))
  }

  /** A failure exactly when the value lies strictly outside `[minVal, maxVal]`. */
  function CheckOutOfRange(value: real, minVal: real, maxVal: real, name: string): (r: Option<Report>)
    ensures r.Some? <==> value < minVal || maxVal < value
    ensures r.Some? ==> r.value == Report(false, Some(OutOfRange(name, minVal, maxVal)))
  {
    if value < minVal then Some(Report(false, Some(OutOfRange(name, minVal, maxVal))))
    else if value > maxVal then Some(Report(false, Some(OutOfRange(name, minVal, maxVal))))
    else None
  }

  /** A warning exactly when the value lies in the low band `(minVal, nearLow.hi]`
      or in the high band `[nearHigh.lo, maxVal)`; the low band is tested first. */
  function WarningLevel(value: real, minVal: real, maxVal: real, nearLow: Range, nearHigh: Range,
                        lowMsg: string, highMsg: string): (r: Option<Report>)
    ensures r.Some? <==> (minVal < value <= nearLow.hi) || (nearHigh.lo <= value < maxVal)
    ensures minVal < value <= nearLow.hi ==> r == Some(Report(true, Some(Warning(lowMsg))))
    ensures !(minVal < value <= nearLow.hi) && nearHigh.lo <= value < maxVal ==>
              r == Some(Report(true, Some(Warning(highMsg))))
  {
    if minVal < value <= nearLow.hi then Some(Report(true, Some(Warning(lowMsg))))
    else if nearHigh.lo <= value < maxVal then Some(Report(true, Some(Warning(highMsg))))
    else None
  }

  /** The low warning band `(min, min + t]` of a range, `t` its tolerance. */
  predicate InLowBand(value: real, rng: Range) {
    rng.lo < value <= rng.lo + Tolerance(rng.hi)
  }

  /** The high warning band `[max - t, max)` of a range. */
  predicate InHighBand(value: real, rng: Range) {
    rng.hi - Tolerance(rng.hi) <= value < rng.hi
  }

  /** The bands of a range are disjoint and leave its bounds outside them:
      the tolerance is non-negative and less than half the width of the range. */
  predicate BandsSeparate(rng: Range) {
    0.0 <= Tolerance(rng.hi) && rng.lo + Tolerance(rng.hi) < rng.hi - Tolerance(rng.hi)
  }

  /** The decision shared by the temperature and pulse checks: a failure
      exactly outside the range; inside it, the low-band warning, else the
      high-band warning, else normal. */
  function CheckBounded(value: real, rng: Range, name: string, lowMsg: string, highMsg: string): (r: Report)
    ensures !r.ok <==> value < rng.lo || rng.hi < value
    ensures !r.ok ==> r.msg == Some(OutOfRange(name, rng.lo, rng.hi))
    ensures r.ok && InLowBand(value, rng) ==> r.msg == Some(Warning(lowMsg))
    ensures r.ok && !InLowBand(value, rng) && InHighBand(value, rng) ==> r.msg == Some(Warning(highMsg))
    ensures r.msg.None? <==> r.ok && !InLowBand(value, rng) && !InHighBand(value, rng)
  {
    var w := GetWarningRanges(rng.lo, rng.hi);
    match CheckOutOfRange(value, rng.lo, rng.hi, name)
    case Some(out) => out
    case None =>
      match WarningLevel(value, rng.lo, rng.hi, w.nearLow, w.nearHigh, lowMsg, highMsg)
      case Some(warn) => warn
      case None => Normal
  }

  /** Fails exactly outside the temperature range; otherwise any message is
      the hypothermia or the hyperthermia warning. */
  function CheckTemperature(temp: real, tempRange: Range := DefaultTempRange): (r: Report)
    ensures !r.ok <==> !(tempRange.lo <= temp <= tempRange.hi)
    ensures !r.ok ==> r.msg == Some(OutOfRange(TemperatureLabel, tempRange.lo, tempRange.hi))
    ensures r.ok && r.msg.Some? ==>
              r.msg.value == Warning(Hypothermia) || r.msg.value == Warning(Hyperthermia)
  {
    CheckBounded(temp, tempRange, TemperatureLabel, Hypothermia, Hyperthermia)
  }

  /** Fails exactly outside the pulse range; otherwise any message is the
      bradycardia or the tachycardia warning. */
  function CheckPulse(pulse: real, pulseRange: Range := DefaultPulseRange): (r: Report)
    ensures !r.ok <==> !(pulseRange.lo <= pulse <= pulseRange.hi)
    ensures !r.ok ==> r.msg == Some(OutOfRange(PulseLabel, pulseRange.lo, pulseRange.hi))
    ensures r.ok && r.msg.Some? ==>
              r.msg.value == Warning(Bradycardia) || r.msg.value == Warning(Tachycardia)
  {
    CheckBounded(pulse, pulseRange, PulseLabel, Bradycardia, Tachycardia)
  }

  /** Single-bound check: fails exactly below the minimum, warns exactly in
      `(min, min * 1.015]` (a fixed 1.5% tolerance of the minimum), and has no
      high-side warning. */
  function CheckSpo2(spo2: real, spo2Min: real := DefaultSpo2Min): (r: Report)
    ensures !r.ok <==> spo2 < spo2Min
    ensures !r.ok ==> r.msg == Some(OutOfRangeMin(Spo2Label, spo2Min))
    ensures (r.ok && r.msg.Some?) <==> (spo2Min < spo2 <= spo2Min * 1.015)
    ensures r.ok && r.msg.Some? ==> r.msg.value == Warning(Hypoxemia)
  {
    var spo2Tolerance := 1.5 / 100.0 * spo2Min;
    if spo2 < spo2Min then Report(false, Some(OutOfRangeMin(Spo2Label, spo2Min)))
    else if spo2Min < spo2 <= spo2Min + spo2Tolerance then Report(true, Some(Warning(Hypoxemia)))
    else Normal
  }

  /** Runs temperature, pulse, then SpO2 and returns the first report that
      failed or carries a message, else the SpO2 report. The result is one of
      the three reports; it is normal exactly when all three are; it fails
      only if some reading is out of range. */
  function CheckVitalsWithWarning(temp: real, pulse: real, spo2: real,
                                  tempRange: Range := DefaultTempRange,
                                  pulseRange: Range := DefaultPulseRange,
                                  spo2Min: real := DefaultSpo2Min): (r: Report)
    ensures r == CheckTemperature(temp, tempRange) || r == CheckPulse(pulse, pulseRange)
            || r == CheckSpo2(spo2, spo2Min)
    ensures r == Normal <==>
              CheckTemperature(temp, tempRange) == Normal && CheckPulse(pulse, pulseRange) == Normal
              && CheckSpo2(spo2, spo2Min) == Normal
    ensures !r.ok ==> !(tempRange.lo <= temp <= tempRange.hi) || !(pulseRange.lo <= pulse <= pulseRange.hi)
                      || spo2 < spo2Min
  {
    var t := CheckTemperature(temp, tempRange);
    if Flagged(t) then t
    else
      var p := CheckPulse(pulse, pulseRange);
      if Flagged(p) then p
      else CheckSpo2(spo2, spo2Min)
  }

  /** The composite is the first-flagged rule applied to the three checks in
      the fixed order temperature, pulse, SpO2. */
  lemma {:induction false} WithWarningIsFirstFlagged(temp: real, pulse: real, spo2: real,
                                                     tempRange: Range, pulseRange: Range, spo2Min: real)
    ensures CheckVitalsWithWarning(temp, pulse, spo2, tempRange, pulseRange, spo2Min)
            == FirstFlagged([CheckTemperature(temp, tempRange), CheckPulse(pulse, pulseRange),
                             CheckSpo2(spo2, spo2Min)])
  {
    var rs := [CheckTemperature(temp, tempRange), CheckPulse(pulse, pulseRange), CheckSpo2(spo2, spo2Min)];
    var k := FirstFlaggedIndex(rs);
    if k > 0 { assert !Flagged(rs[0]); }
    if k > 1 { assert !Flagged(rs[1]); }
  }

  /** An earlier warning masks everything after it: a temperature warning is
      returned whatever the pulse and SpO2 readings are. */
  lemma TemperatureWarningMasks(temp: real, pulse: real, spo2: real,
                                tempRange: Range, pulseRange: Range, spo2Min: real)
    requires CheckTemperature(temp, tempRange).ok && CheckTemperature(temp, tempRange).msg.Some?
    ensures CheckVitalsWithWarning(temp, pulse, spo2, tempRange, pulseRange, spo2Min)
            == CheckTemperature(temp, tempRange)
  {
  }

  /** At the exact minimum or maximum of a range whose bands are separate, a
      reading is normal: both band comparisons are strict at the bound. */
  lemma BoundsAreNormal(value: real, rng: Range, name: string, lowMsg: string, highMsg: string)
    requires BandsSeparate(rng)
    requires value == rng.lo || value == rng.hi
    ensures CheckBounded(value, rng, name, lowMsg, highMsg) == Normal
  {
  }

  /** For a range with min < max, both bounds are normal exactly when the
      tolerance is below the width of the range: otherwise the minimum falls
      in the high band or the maximum in the low band. */
  lemma BoundsNormalIff(rng: Range, name: string, lowMsg: string, highMsg: string)
    requires rng.lo < rng.hi
    ensures (CheckBounded(rng.lo, rng, name, lowMsg, highMsg) == Normal
             && CheckBounded(rng.hi, rng, name, lowMsg, highMsg) == Normal)
            <==> Tolerance(rng.hi) < rng.hi - rng.lo
  {
  }

  /** A one-point range (min == max) is normal at its single value: both
      band comparisons are strict there, whatever the tolerance. */
  lemma PointRangeIsNormal(v: real, name: string, lowMsg: string, highMsg: string)
    ensures CheckBounded(v, Range(v, v), name, lowMsg, highMsg) == Normal
  {
  }

  /** When the bands overlap, a reading in both gets the low-band message. */
  lemma LowBandWinsOnOverlap(value: real, rng: Range, name: string, lowMsg: string, highMsg: string)
    requires InLowBand(value, rng) && InHighBand(value, rng)
    ensures CheckBounded(value, rng, name, lowMsg, highMsg) == Report(true, Some(Warning(lowMsg)))
  {
  }

  /** The default temperature and pulse ranges have separate bands:
      95 + 1.53 < 102 - 1.53 and 60 + 1.5 < 100 - 1.5. */
  lemma DefaultBandsSeparate()
    ensures BandsSeparate(DefaultTempRange) && BandsSeparate(DefaultPulseRange)
  {
  }

  /** In a narrow range the low band reaches the maximum, so the maximum
      itself draws the low-side warning: with range (100, 101) the tolerance
      is 1.515 and 101 lies in (100, 101.515]. */
  lemma NarrowRangeWarnsAtMaximum()
    ensures !BandsSeparate(Range(100.0, 101.0))
    ensures CheckTemperature(101.0, Range(100.0, 101.0)) == Report(true, Some(Warning(Hypothermia)))
  {
  }

  /** SpO2 exactly at its minimum is normal, not a hypoxemia warning. */
  lemma Spo2AtMinimumIsNormal(spo2Min: real)
    ensures CheckSpo2(spo2Min, spo2Min) == Normal
    ensures CheckVitalsWithWarning(98.0, 80.0, 90.0) == Normal
  {
  }

  /** The composite's documented scenarios under the default configuration. */
  lemma DefaultScenarios()
    ensures CheckVitalsWithWarning(98.0, 80.0, 95.0) == Normal
    ensures CheckVitalsWithWarning(95.5, 80.0, 95.0) == Report(true, Some(Warning(Hypothermia)))
    ensures CheckVitalsWithWarning(101.5, 80.0, 95.0) == Report(true, Some(Warning(Hyperthermia)))
    ensures CheckVitalsWithWarning(94.5, 80.0, 95.0) == Report(false, Some(OutOfRange(TemperatureLabel, 95.0, 102.0)))
    ensures CheckVitalsWithWarning(98.0, 61.5, 95.0) == Report(true, Some(Warning(Bradycardia)))
    ensures CheckVitalsWithWarning(98.0, 98.5, 95.0) == Report(true, Some(Warning(Tachycardia)))
    ensures CheckVitalsWithWarning(98.0, 80.0, 90.5) == Report(true, Some(Warning(Hypoxemia)))
    ensures CheckVitalsWithWarning(98.0, 80.0, 89.0) == Report(false, Some(OutOfRangeMin(Spo2Label, 90.0)))
    ensures CheckVitalsWithWarning(94.0, 59.0, 89.0) == Report(false, Some(OutOfRange(TemperatureLabel, 95.0, 102.0)))
    ensures CheckVitalsWithWarning(95.5, 61.5, 90.5) == Report(true, Some(Warning(Hypothermia)))
    ensures CheckVitalsWithWarning(102.5, 80.0, 95.0) == Report(false, Some(OutOfRange(TemperatureLabel, 95.0, 102.0)))
    ensures CheckVitalsWithWarning(95.0, 80.0, 95.0) == Normal
    ensures CheckVitalsWithWarning(102.0, 80.0, 95.0) == Normal
    ensures CheckVitalsWithWarning(98.0, 60.0, 95.0) == Normal
    ensures CheckVitalsWithWarning(98.0, 100.0, 95.0) == Normal
    ensures CheckVitalsWithWarning(100.0, 70.0, 96.0) == Normal
    ensures CheckVitalsWithWarning(97.0, 90.0, 99.0) == Normal
  {
  }
}
