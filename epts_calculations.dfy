/** The vital-status rule of EptsCalculations: `alive` and `living`. The vital status
    of each patient is an input map; a patient without an entry has no record. */
module EptsCalculations {
  import opened Wrappers
  import opened ClinicalData

  /** The reporting module's `VitalStatus`: whether the person is dead, and the death
      date when one is recorded. */
  datatype VitalStatus = VitalStatus(dead: bool, deathDate: Option<Date>)

  /** `OpenmrsUtil.compareWithNullAsEarliest` for a present second date: a null date
      compares below every date. */
  function CompareWithNullAsEarliest(d: Option<Date>, other: Date): (r: int)
    ensures -1 <= r <= 1
    ensures r > 0 <==> d.Some? && d.value > other
    ensures r == 0 <==> d == Some(other)
  {
    match d
    case None => -1
    case Some(v) => if v < other then -1 else if v == other then 0 else 1
  }

  /** The test `alive` applies to a patient with a vital-status record. */
  predicate AliveAt(vs: VitalStatus, now: Date) {
    !vs.dead || CompareWithNullAsEarliest(vs.deathDate, now) > 0
  }

  /** A patient is alive unless dead with a death date on or before `now`; a
      missing death date counts as the earliest date, so a dead patient without one
      is not alive. */
  lemma AliveAtCases(vs: VitalStatus, now: Date)
    ensures !vs.dead ==> AliveAt(vs, now)
    ensures vs.dead ==> (AliveAt(vs, now) <==> vs.deathDate.Some? && vs.deathDate.value > now)
  {
  }

  predicate IsAlive(vitals: map<PatientId, VitalStatus>, p: PatientId, now: Date) {
    p in vitals && AliveAt(vitals[p], now)
  }

  /** `EptsCalculations.alive`: one boolean per cohort patient. */
  method Alive(cohort: seq<PatientId>, vitals: map<PatientId, VitalStatus>, now: Date)
    returns (ret: map<PatientId, bool>)
    ensures forall p :: p in ret <==> p in cohort
    ensures forall p :: p in ret ==> ret[p] == IsAlive(vitals, p, now)
    ensures forall p :: p in cohort && p !in vitals ==> !ret[p]
    ensures forall p :: p in cohort && p in vitals && !vitals[p].dead ==> ret[p]
    ensures forall p :: p in cohort && p in vitals && vitals[p].dead ==>
      (ret[p] <==> vitals[p].deathDate.Some? && vitals[p].deathDate.value > now)
  {
    ret := map[];
    for i := 0 to |cohort|
      invariant forall p :: p in ret <==> p in cohort[..i]
      invariant forall p :: p in ret ==> ret[p] == IsAlive(vitals, p, now)
    {
      var ptId := cohort[i];
      var alive := false;
      if ptId in vitals {
        var vs := vitals[ptId];
        alive := !vs.dead || CompareWithNullAsEarliest(vs.deathDate, now) > 0;
      }
      ret := ret[ptId := alive];
    }
    assert cohort[..|cohort|] == cohort;
    forall p | p in cohort && p in vitals
      ensures vitals[p].dead ==> (ret[p] <==> vitals[p].deathDate.Some? && vitals[p].deathDate.value > now)
    {
      AliveAtCases(vitals[p], now);
    }
  }

  /** `EptsCalculationUtils.patientsThatPass`: the patients whose boolean result is true. */
  function PatientsThatPass(results: map<PatientId, bool>): (passed: set<PatientId>)
    ensures passed <= results.Keys
    ensures forall p :: p in results ==> (p in passed <==> results[p])
  {
    set p | p in results && results[p]
  }

  /** `EptsCalculations.living`: exactly the cohort patients that `alive` finds alive. */
  method Living(cohort: seq<PatientId>, vitals: map<PatientId, VitalStatus>, now: Date)
    returns (living: set<PatientId>)
    ensures living <= set p | p in cohort
    ensures forall p :: p in living <==> p in cohort && IsAlive(vitals, p, now)
  {
    var alive := Alive(cohort, vitals, now);
    living := PatientsThatPass(alive);
    forall p | p in living ensures p in set q | q in cohort {
      assert p in alive;
    }
  }
}
