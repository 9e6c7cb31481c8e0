/** Values shared by both vital-sign checkers: configured ranges, the
    structured messages and the `(ok, msg)` report every check returns. */
module Readings {

  datatype Option<+T> = None | Some(value: T)

  /** A `(min, max)` pair: a configured range, or one of the warning bands. */
  datatype Range = Range(lo: real, hi: real)

  /** The default configuration of both checkers. */
  const DefaultTempRange: Range := Range(95.0, 102.0)
  const DefaultPulseRange: Range := Range(60.0, 100.0)
  const DefaultSpo2Min: real := 90.0

  /** Labels used in the out-of-range messages. */
  const TemperatureLabel: string := "Temperature"
  const PulseLabel: string := "Pulse Rate"
  const Spo2Label: string := "Oxygen Saturation"

  /** Conditions named by the warning messages. */
  const Hypothermia: string := "Approaching hypothermia"
  const Hyperthermia: string := "Approaching hyperthermia"
  const Bradycardia: string := "Approaching bradycardia"
  const Tachycardia: string := "Approaching tachycardia"
  const Hypoxemia: string := "Approaching hypoxemia"

  /** A message, kept structured so that no number formatting is involved:
        OutOfRange(name, lo, hi)  renders as  "<name> out of range! (<lo>-<hi>)"
        OutOfRangeMin(name, lo)   renders as  "<name> out of range! (min <lo>)"
        Warning(condition)         renders as  "Warning: <condition>"            */
  datatype Message =
    | OutOfRange(name: string, lo: real, hi: real)
    | OutOfRangeMin(name: string, lo: real)
    | Warning(condition: string)

  /** The `(ok, msg)` pair returned by every check; `msg == None` is Python's `None`. */
  datatype Report = Report(ok: bool, msg: Option<Message>)

  /** The normal zone: `(True, None)`. */
  const Normal: Report := Report(true, None)

  /** The composite checkers' test `not ok or msg`: the reading failed, or it
      carries a message (every message the checkers produce is non-empty, so
      its truth value is that of being present). */
  function Flagged(r: Report): (b: bool)
    ensures b <==> r != Normal
  {
    !r.ok || r.msg.Some?
  }

  /** Position of the report a composite check returns: the first flagged one
      in the given order, or the last one when none is flagged. */
  function FirstFlaggedIndex(rs: seq<Report>): (k: nat)
    requires |rs| > 0
    ensures k < |rs|
    ensures forall j :: 0 <= j < k ==> !Flagged(rs[j])
    ensures Flagged(rs[k]) || k == |rs| - 1
  {
    if Flagged(rs[0]) || |rs| == 1 then 0 else 1 + FirstFlaggedIndex(rs[1..])
  }

  /** The report a composite check returns: one of the given reports; the
      first flagged one, if any; and otherwise the last one. */
  function FirstFlagged(rs: seq<Report>): (r: Report)
    requires |rs| > 0
    ensures r in rs
    ensures forall k :: 0 <= k < |rs| && Flagged(rs[k]) && (forall j :: 0 <= j < k ==> !Flagged(rs[j])) ==>
              r == rs[k]
    ensures !Flagged(r) ==> r == rs[|rs| - 1] && forall i :: 0 <= i < |rs| ==> !Flagged(rs[i])
  {
    rs[FirstFlaggedIndex(rs)]
  }
}
