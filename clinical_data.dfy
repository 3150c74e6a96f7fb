/** Values the calculators read: dates, observations, encounters, programme
    enrolments, and the calendar arithmetic of EptsCalculationUtils. */
module ClinicalData {
  import opened Wrappers

  /** A point in time, in milliseconds since the epoch, as `java.util.Date` holds it. */
  type Date = int

  type PatientId = int

  type LocationId = int

  const MillisPerDay: int := 86_400_000

  /** An OpenMRS observation, reduced to the parts the calculators read.
      `encounterDatetime` is the date of the observation's encounter: `None` when the
      encounter or its date is missing. */
  datatype Obs = Obs(
    obsId: int,
    obsDatetime: Option<Date>,
    valueNumeric: Option<real>,
    valueDatetime: Option<Date>,
    encounterDatetime: Option<Date>)

  datatype Encounter = Encounter(encounterDatetime: Option<Date>)

  datatype PatientProgram = PatientProgram(location: Option<LocationId>, dateEnrolled: Option<Date>)

  /** `EptsCalculationUtils.addMonths` and `monthsSince`, and the `Calendar.add(MONTH, n)`
      shift, whose definitions are not part of this model. They are left abstract:
      every calculator receives them as a parameter. */
  datatype MonthArithmetic = MonthArithmetic(
    addMonths: (Date, int) -> Date,
    monthsSince: (Date, Date) -> int)

  /** The single result a per-patient result map holds for `p`, or `None` (a missing entry). */
  function Lookup<V>(m: map<PatientId, V>, p: PatientId): Option<V> {
    if p in m then Some(m[p]) else None
  }

  /** The list a per-patient list-result map holds for `p`; a missing entry reads as the
      empty list, as `extractResultValues` does with a null result. */
  function ListFor<V>(m: map<PatientId, seq<V>>, p: PatientId): seq<V> {
    if p in m then m[p] else []
  }

  /** Joda's `Days.daysIn(new Interval(start, end))`: the number of whole days from
      `start` to `end`. Joda refuses an interval that ends before it starts. */
  function WholeDays(start: Date, end: Date): (days: nat)
    requires start <= end
    ensures days * MillisPerDay <= end - start < (days + 1) * MillisPerDay
  {
    (end - start) / MillisPerDay
  }
}
