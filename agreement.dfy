/** How the three-zone checker relates to the two-zone checker: per reading
    they agree on pass/fail and on the failure message; in the composites a
    warning on an earlier vital can hide a later failure from the three-zone
    composite, but never from the two-zone one. */
module Agreement {
  import opened Readings
  import opened VitalsChecker
  import opened Monitor

  /** Per reading, the three-zone check fails exactly when the two-zone
      range test does, with the same message. */
  lemma SingleChecksAgree(temp: real, pulse: real, spo2: real,
                          tempRange: Range, pulseRange: Range, spo2Min: real)
    ensures CheckTemperature(temp, tempRange).ok == IsValueInRange(temp, tempRange.lo, tempRange.hi)
    ensures CheckPulse(pulse, pulseRange).ok == IsValueInRange(pulse, pulseRange.lo, pulseRange.hi)
    ensures CheckSpo2(spo2, spo2Min).ok == IsSpo2Ok(spo2, spo2Min)
    ensures !IsValueInRange(temp, tempRange.lo, tempRange.hi) ==>
              CheckTemperature(temp, tempRange) == CheckVitals(temp, pulse, spo2, tempRange, pulseRange, spo2Min)
    ensures !CheckTemperature(temp, tempRange).ok ==>
              CheckTemperature(temp, tempRange) == InRangeReport(temp, tempRange, TemperatureLabel)
    ensures !CheckPulse(pulse, pulseRange).ok ==>
              CheckPulse(pulse, pulseRange) == InRangeReport(pulse, pulseRange, PulseLabel)
    ensures !CheckSpo2(spo2, spo2Min).ok ==>
              CheckSpo2(spo2, spo2Min) == Report(false, Some(OutOfRangeMin(Spo2Label, spo2Min)))
  {
  }

  /** A failure reported by the three-zone composite is exactly the failure
      the two-zone composite reports for the same readings. */
  lemma WithWarningFailureIsCheckVitalsFailure(temp: real, pulse: real, spo2: real,
                                               tempRange: Range, pulseRange: Range, spo2Min: real)
    requires !CheckVitalsWithWarning(temp, pulse, spo2, tempRange, pulseRange, spo2Min).ok
    ensures CheckVitalsWithWarning(temp, pulse, spo2, tempRange, pulseRange, spo2Min)
            == CheckVitals(temp, pulse, spo2, tempRange, pulseRange, spo2Min)
  {
  }

  /** A failure found by the two-zone composite is either reported by the
      three-zone composite or hidden behind a warning it returns instead. */
  lemma CheckVitalsFailureReportedOrMasked(temp: real, pulse: real, spo2: real,
                                           tempRange: Range, pulseRange: Range, spo2Min: real)
    requires !CheckVitals(temp, pulse, spo2, tempRange, pulseRange, spo2Min).ok
    ensures var w := CheckVitalsWithWarning(temp, pulse, spo2, tempRange, pulseRange, spo2Min);
            !w.ok || (w.msg.Some? && w.msg.value.Warning?)
  {
  }

  /** Without a temperature or pulse warning nothing is masked: both
      composites then give the same verdict, and the same report on failure. */
  lemma NoEarlyWarningMeansSameVerdict(temp: real, pulse: real, spo2: real,
                                       tempRange: Range, pulseRange: Range, spo2Min: real)
    requires !(CheckTemperature(temp, tempRange).ok && CheckTemperature(temp, tempRange).msg.Some?)
    requires !(CheckPulse(pulse, pulseRange).ok && CheckPulse(pulse, pulseRange).msg.Some?)
    ensures CheckVitalsWithWarning(temp, pulse, spo2, tempRange, pulseRange, spo2Min).ok
            == CheckVitals(temp, pulse, spo2, tempRange, pulseRange, spo2Min).ok
    ensures !CheckVitals(temp, pulse, spo2, tempRange, pulseRange, spo2Min).ok ==>
              CheckVitalsWithWarning(temp, pulse, spo2, tempRange, pulseRange, spo2Min)
              == CheckVitals(temp, pulse, spo2, tempRange, pulseRange, spo2Min)
  {
  }

  /** The masking is real: a temperature of 95.5 is a hypothermia warning,
      which the three-zone composite returns although SpO2 80 is below its
      minimum; the two-zone composite reports the SpO2 failure. */
  lemma WarningMasksLaterFailure()
    ensures CheckVitalsWithWarning(95.5, 80.0, 80.0) == Report(true, Some(Warning(Hypothermia)))
    ensures CheckVitals(95.5, 80.0, 80.0) == Report(false, Some(OutOfRangeMin(Spo2Label, 90.0)))
  {
  }

  /** Both composites apply the same first-flagged rule: the two-zone one to
      per-vital pass/fail reports, the three-zone one to the three-zone reports. */
  lemma {:induction false} CheckVitalsIsFirstFlagged(temp: real, pulse: real, spo2: real,
                                                     tempRange: Range, pulseRange: Range, spo2Min: real)
    ensures CheckVitals(temp, pulse, spo2, tempRange, pulseRange, spo2Min)
            == FirstFlagged([InRangeReport(temp, tempRange, TemperatureLabel),
                             InRangeReport(pulse, pulseRange, PulseLabel),
                             if IsSpo2Ok(spo2, spo2Min) then Normal
                             else Report(false, Some(OutOfRangeMin(Spo2Label, spo2Min)))])
  {
    var rs := [InRangeReport(temp, tempRange, TemperatureLabel),
               InRangeReport(pulse, pulseRange, PulseLabel),
               if IsSpo2Ok(spo2, spo2Min) then Normal
               else Report(false, Some(OutOfRangeMin(Spo2Label, spo2Min)))];
    var k := FirstFlaggedIndex(rs);
    if k > 0 { assert !Flagged(rs[0]); }
    if k > 1 { assert !Flagged(rs[1]); }
  }

  /** The two-zone verdict on one bounded reading, as a report. */
  function InRangeReport(value: real, rng: Range, name: string): Report {
    if IsValueInRange(value, rng.lo, rng.hi) then Normal
    else Report(false, Some(OutOfRange(name, rng.lo, rng.hi)))
  }
}
