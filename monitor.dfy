/** The two-zone checker: each reading is either inside its inclusive range
    or out of range; the composite reports the first failure in the order
    temperature, pulse rate, SpO2, and an alert fires exactly on failure. */
module Monitor {
  import opened Readings

  /** `min <= value <= max`, inclusive at both ends: holds exactly when the
      value is neither below the minimum nor above the maximum, and only for
      a non-empty range. */
  function IsValueInRange(value: real, minValue: real, maxValue: real): (b: bool)
    ensures b <==> !(value < minValue || maxValue < value)
    ensures b ==> minValue <= maxValue
  {
    minValue <= value <= maxValue
  }

  /** SpO2 is acceptable at or above its minimum: exactly when it is not
      below it. */
  function IsSpo2Ok(spo2: real, minValue: real := DefaultSpo2Min): (b: bool)
    ensures b <==> !(spo2 < minValue)
  {
    spo2 >= minValue
  }

  /** The readings pass exactly when all three are in range, and a report
      carries a message exactly when it fails; a failure names the first
      vital out of range, in the order temperature, pulse, SpO2, with its
      configured bounds. */
  function CheckVitals(temp: real, pulse: real, spo2: real,
                       tempRange: Range := DefaultTempRange,
                       pulseRange: Range := DefaultPulseRange,
                       spo2Min: real := DefaultSpo2Min): (r: Report)
    ensures r.ok <==> r.msg.None?
    ensures r.ok <==> IsValueInRange(temp, tempRange.lo, tempRange.hi)
                      && IsValueInRange(pulse, pulseRange.lo, pulseRange.hi)
                      && IsSpo2Ok(spo2, spo2Min)
    ensures !IsValueInRange(temp, tempRange.lo, tempRange.hi) ==>
              r.msg == Some(OutOfRange(TemperatureLabel, tempRange.lo, tempRange.hi))
    ensures IsValueInRange(temp, tempRange.lo, tempRange.hi)
            && !IsValueInRange(pulse, pulseRange.lo, pulseRange.hi) ==>
              r.msg == Some(OutOfRange(PulseLabel, pulseRange.lo, pulseRange.hi))
    ensures IsValueInRange(temp, tempRange.lo, tempRange.hi)
            && IsValueInRange(pulse, pulseRange.lo, pulseRange.hi) && !IsSpo2Ok(spo2, spo2Min) ==>
              r.msg == Some(OutOfRangeMin(Spo2Label, spo2Min))
  {
    if !IsValueInRange(temp, tempRange.lo, tempRange.hi) then
      Report(false, Some(OutOfRange(TemperatureLabel, tempRange.lo, tempRange.hi)))
    else if !IsValueInRange(pulse, pulseRange.lo, pulseRange.hi) then
      Report(false, Some(OutOfRange(PulseLabel, pulseRange.lo, pulseRange.hi)))
    else if !IsSpo2Ok(spo2, spo2Min) then
      Report(false, Some(OutOfRangeMin(Spo2Label, spo2Min)))
    else
      Normal
  }

  /** What a call that may alert returns, and the alerts it fired: each
      alert prints the message and then runs the console animation once. */
  datatype Alerted = Alerted(ok: bool, alerts: seq<Option<Message>>)

  /** Passes a report's ok flag through and alerts, once, exactly when it is
      false. */
  function AlertOnFailure(r: Report): (a: Alerted)
    ensures a.ok == r.ok
    ensures a.alerts == if r.ok then [] else [r.msg]
  {
    if !r.ok then Alerted(false, [r.msg]) else Alerted(true, [])
  }

  /** True exactly when all three readings are in range; alerts once, with
      a message, when not, and never otherwise. */
  function VitalsOk(temperature: real, pulseRate: real, spo2: real,
                    tempRange: Range := DefaultTempRange,
                    pulseRange: Range := DefaultPulseRange,
                    spo2Min: real := DefaultSpo2Min): (a: Alerted)
    ensures a.ok <==> IsValueInRange(temperature, tempRange.lo, tempRange.hi)
                      && IsValueInRange(pulseRate, pulseRange.lo, pulseRange.hi)
                      && IsSpo2Ok(spo2, spo2Min)
    ensures |a.alerts| == if a.ok then 0 else 1
    ensures forall m :: m in a.alerts ==> m.Some?
  {
    AlertOnFailure(CheckVitals(temperature, pulseRate, spo2, tempRange, pulseRange, spo2Min))
  }

  /** A set of readings with their configuration, stored once at creation. */
  class Vitals {
    const temperature: real
    const pulseRate: real
    const spo2: real
    const tempRange: Range
    const pulseRange: Range
    const spo2Min: real

    constructor (temperature: real, pulseRate: real, spo2: real,
                 tempRange: Range := DefaultTempRange,
                 pulseRange: Range := DefaultPulseRange,
                 spo2Min: real := DefaultSpo2Min)
      ensures this.temperature == temperature && this.pulseRate == pulseRate && this.spo2 == spo2
      ensures this.tempRange == tempRange && this.pulseRange == pulseRange && this.spo2Min == spo2Min
    {
      this.temperature := temperature;
      this.pulseRate := pulseRate;
      this.spo2 := spo2;
      this.tempRange := tempRange;
      this.pulseRange := pulseRange;
      this.spo2Min := spo2Min;
    }

    /** The two-zone verdict on the stored readings: the composite check of
        the six stored fields, so it passes exactly when all three are in
        range, and carries a message exactly when it fails. */
    function Status(): (r: Report)
      ensures r == CheckVitals(temperature, pulseRate, spo2, tempRange, pulseRange, spo2Min)
      ensures r.ok <==> IsValueInRange(temperature, tempRange.lo, tempRange.hi)
                        && IsValueInRange(pulseRate, pulseRange.lo, pulseRange.hi)
                        && IsSpo2Ok(spo2, spo2Min)
      ensures r.ok <==> r.msg.None?
    {
      CheckVitals(temperature, pulseRate, spo2, tempRange, pulseRange, spo2Min)
    }

    /** Returns the status's ok flag and alerts, once and with the status's
        message, exactly when it is false. */
    method CheckAndAlert() returns (ok: bool, alerts: seq<Option<Message>>)
      ensures ok == Status().ok
      ensures alerts == if ok then [] else [Status().msg]
      ensures forall m :: m in alerts ==> m.Some?
    {
      var r := Status();
      ok := r.ok;
      if !ok {
        alerts := [r.msg];
      } else {
        alerts := [];
      }
    }
  }

  /** Both range tests include their bounds. */
  lemma InclusiveBounds(lo: real, hi: real)
    requires lo <= hi
    ensures IsValueInRange(lo, lo, hi) && IsValueInRange(hi, lo, hi)
    ensures IsSpo2Ok(lo, lo)
    ensures IsSpo2Ok(90.0) && IsSpo2Ok(95.0) && !IsSpo2Ok(89.0)
  {
  }

  /** The alerting cases of the decorated check under the default ranges. */
  lemma AlertScenarios()
    ensures VitalsOk(98.6, 72.0, 96.0) == Alerted(true, [])
    ensures VitalsOk(104.0, 72.0, 96.0) == Alerted(false, [Some(OutOfRange(TemperatureLabel, 95.0, 102.0))])
    ensures VitalsOk(98.6, 110.0, 96.0) == Alerted(false, [Some(OutOfRange(PulseLabel, 60.0, 100.0))])
    ensures VitalsOk(98.6, 72.0, 85.0) == Alerted(false, [Some(OutOfRangeMin(Spo2Label, 90.0))])
  {
  }
}
