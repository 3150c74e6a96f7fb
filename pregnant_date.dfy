/** PregnantDateCalculation: for each female patient of the cohort, the most recent
    date of pregnancy evidence in the 9 months that end at her latest viral load of
    the last 12 months, or null. Four classes of evidence are looked at: a coded
    "pregnant" obs, a "weeks pregnant" obs, a "due date" obs, and an enrolment in the
    PTV/ETV programme at the report's location. */
module PregnantDate {
  import opened Wrappers
  import opened ClinicalData
  import opened Sorting

  /** What the data store returns: which patients are female; the three pregnancy obs
      lists and the programme enrolments; and the last viral-load obs recorded between
      two dates. */
  datatype PregnancyData = PregnancyData(
    female: set<PatientId>,
    pregnantObs: map<PatientId, seq<Obs>>,
    weeksPregnantObs: map<PatientId, seq<Obs>>,
    dueDateObs: map<PatientId, seq<Obs>>,
    programs: map<PatientId, seq<PatientProgram>>,
    lastVl: (Date, Date) -> map<PatientId, Obs>)

  /** `EptsCalculationUtils.female`: the female patients of the cohort. */
  function FemaleCohort(cohort: seq<PatientId>, data: PregnancyData): set<PatientId> {
    set p | p in cohort && p in data.female
  }

  /** `isInPregnantViralLoadRange`: `pregnancyDate` lies in [viral-load date - 9 months,
      viral-load date], both ends included. */
  predicate InPregnantViralLoadRange(viralLoadDate: Date, pregnancyDate: Date, cal: MonthArithmetic)
    ensures InPregnantViralLoadRange(viralLoadDate, pregnancyDate, cal) ==> pregnancyDate <= viralLoadDate
    ensures pregnancyDate > viralLoadDate || pregnancyDate < cal.addMonths(viralLoadDate, -9) ==>
      !InPregnantViralLoadRange(viralLoadDate, pregnancyDate, cal)
  {
    cal.addMonths(viralLoadDate, -9) <= pregnancyDate <= viralLoadDate
  }

  /** Both ends of the range are included: the viral-load date itself and the date 9
      months before it, whenever the calendar puts that date no later. */
  lemma PregnancyRangeIncludesBothEnds(viralLoadDate: Date, cal: MonthArithmetic)
    requires cal.addMonths(viralLoadDate, -9) <= viralLoadDate
    ensures InPregnantViralLoadRange(viralLoadDate, viralLoadDate, cal)
    ensures InPregnantViralLoadRange(viralLoadDate, cal.addMonths(viralLoadDate, -9), cal)
  {
  }

  /** The date each element of a class offers, before the range test; `None` when the
      element does not qualify whatever its date. */
  function EncounterDates(obsList: seq<Obs>): seq<Option<Date>> {
    seq(|obsList|, i requires 0 <= i < |obsList| => obsList[i].encounterDatetime)
  }

  /** The weeks class also requires a numeric value. */
  function WeeksDates(obsList: seq<Obs>): seq<Option<Date>> {
    seq(|obsList|, i requires 0 <= i < |obsList| =>
      if obsList[i].valueNumeric.Some? then obsList[i].encounterDatetime else None)
  }

  /** The programme class requires the enrolment to be at `location` and to have a date. */
  function EnrolmentDates(programs: seq<PatientProgram>, location: LocationId): seq<Option<Date>> {
    seq(|programs|, i requires 0 <= i < |programs| =>
      if programs[i].location == Some(location) then programs[i].dateEnrolled else None)
  }

  predicate Qualifies(candidate: Option<Date>, viralLoadDate: Date, cal: MonthArithmetic) {
    candidate.Some? && InPregnantViralLoadRange(viralLoadDate, candidate.value, cal)
  }

  /** The date a class keeps: that of its last qualifying element, since the loop
      overwrites. */
  function LastQualifying(candidates: seq<Option<Date>>, viralLoadDate: Date, cal: MonthArithmetic): Option<Date> {
    if candidates == [] then None
    else if Qualifies(candidates[|candidates| - 1], viralLoadDate, cal) then candidates[|candidates| - 1]
    else LastQualifying(candidates[..|candidates| - 1], viralLoadDate, cal)
  }

  /** The kept date is that of the last qualifying element in list order, and is
      null iff no element qualifies. */
  lemma {:induction false} LastQualifyingIsLast(candidates: seq<Option<Date>>, viralLoadDate: Date, cal: MonthArithmetic)
    ensures var r := LastQualifying(candidates, viralLoadDate, cal);
      && (r.None? <==> forall j :: 0 <= j < |candidates| ==> !Qualifies(candidates[j], viralLoadDate, cal))
      && (r.Some? ==> exists i :: 0 <= i < |candidates| && candidates[i] == r && Qualifies(r, viralLoadDate, cal) &&
                        forall j :: i < j < |candidates| ==> !Qualifies(candidates[j], viralLoadDate, cal))
  {
    if candidates != [] {
      var n := |candidates|;
      var prefix := candidates[..n - 1];
      LastQualifyingIsLast(prefix, viralLoadDate, cal);
      if !Qualifies(candidates[n - 1], viralLoadDate, cal) {
        var r := LastQualifying(prefix, viralLoadDate, cal);
        assert forall j :: 0 <= j < n - 1 ==> candidates[j] == prefix[j];
        if r.Some? {
          var i :| 0 <= i < |prefix| && prefix[i] == r && Qualifies(r, viralLoadDate, cal) &&
                   forall j :: i < j < |prefix| ==> !Qualifies(prefix[j], viralLoadDate, cal);
          assert candidates[i] == r;
        }
      }
    }
  }

  /** The latest of the non-null dates, or null when all are null. */
  function MaxDate(dates: seq<Option<Date>>): (r: Option<Date>)
    ensures r.None? <==> forall i :: 0 <= i < |dates| ==> dates[i].None?
    ensures r.Some? ==> r in dates && forall i :: 0 <= i < |dates| && dates[i].Some? ==> dates[i].value <= r.value
  {
    if dates == [] then None
    else
      var rest := MaxDate(dates[..|dates| - 1]);
      var last := dates[|dates| - 1];
      assert forall i :: 0 <= i < |dates| - 1 ==> dates[..|dates| - 1][i] == dates[i];
      if last.None? then rest
      else if rest.None? || rest.value <= last.value then last
      else rest
  }

  /** The result for one female patient. */
  function PregnancyDateFor(lastVlObs: Option<Obs>, pregnantObs: seq<Obs>, weeksPregnantObs: seq<Obs>,
                            dueDateObs: seq<Obs>, programs: seq<PatientProgram>, location: LocationId,
                            cal: MonthArithmetic): Option<Date>
  {
    if lastVlObs.Some? && lastVlObs.value.obsDatetime.Some? then
      var lastVlDate := lastVlObs.value.obsDatetime.value;
      MaxDate([
        LastQualifying(EncounterDates(pregnantObs), lastVlDate, cal),
        LastQualifying(WeeksDates(weeksPregnantObs), lastVlDate, cal),
        LastQualifying(EncounterDates(dueDateObs), lastVlDate, cal),
        LastQualifying(EnrolmentDates(programs, location), lastVlDate, cal)])
    else None
  }

  function LastVlMap(data: PregnancyData, now: Date, cal: MonthArithmetic): map<PatientId, Obs> {
    data.lastVl(cal.addMonths(now, -12), now)
  }

  function ResultFor(data: PregnancyData, p: PatientId, now: Date, location: LocationId, cal: MonthArithmetic): Option<Date> {
    PregnancyDateFor(
      Lookup(LastVlMap(data, now, cal), p),
      ListFor(data.pregnantObs, p), ListFor(data.weeksPregnantObs, p), ListFor(data.dueDateObs, p),
      ListFor(data.programs, p), location, cal)
  }

  /** The source reads each obs' encounter date without a null check (the weeks class
      only for obs with a numeric value) once the patient has a dated viral load. */
  predicate Dereferenceable(data: PregnancyData, p: PatientId, now: Date, cal: MonthArithmetic) {
    var vl := Lookup(LastVlMap(data, now, cal), p);
    vl.Some? && vl.value.obsDatetime.Some? ==>
      && (forall o :: o in ListFor(data.pregnantObs, p) ==> o.encounterDatetime.Some?)
      && (forall o :: o in ListFor(data.weeksPregnantObs, p) && o.valueNumeric.Some? ==> o.encounterDatetime.Some?)
      && (forall o :: o in ListFor(data.dueDateObs, p) ==> o.encounterDatetime.Some?)
  }

  /** `isPregnantDate` and `isPregnantDueDate`: the encounter date of the last obs whose
      encounter date is in range. */
  method IsPregnantDate(lastVlDate: Date, pregnantObsList: seq<Obs>, cal: MonthArithmetic)
    returns (pregnancyDate: Option<Date>)
    requires forall o :: o in pregnantObsList ==> o.encounterDatetime.Some?
    ensures pregnancyDate == LastQualifying(EncounterDates(pregnantObsList), lastVlDate, cal)
  {
    pregnancyDate := None;
    for i := 0 to |pregnantObsList|
      invariant pregnancyDate == LastQualifying(EncounterDates(pregnantObsList[..i]), lastVlDate, cal)
    {
      var obs := pregnantObsList[i];
      assert EncounterDates(pregnantObsList[..i + 1])[..i] == EncounterDates(pregnantObsList[..i]);
      if InPregnantViralLoadRange(lastVlDate, obs.encounterDatetime.value, cal) {
        pregnancyDate := obs.encounterDatetime;
      }
    }
    assert pregnantObsList[..|pregnantObsList|] == pregnantObsList;
  }

  /** `isPregnantByWeeks`: as `IsPregnantDate`, for obs that carry a numeric value. */
  method IsPregnantByWeeks(lastVlDate: Date, pregnantByWeeksObsList: seq<Obs>, cal: MonthArithmetic)
    returns (inWeeksDate: Option<Date>)
    requires forall o :: o in pregnantByWeeksObsList && o.valueNumeric.Some? ==> o.encounterDatetime.Some?
    ensures inWeeksDate == LastQualifying(WeeksDates(pregnantByWeeksObsList), lastVlDate, cal)
  {
    inWeeksDate := None;
    for i := 0 to |pregnantByWeeksObsList|
      invariant inWeeksDate == LastQualifying(WeeksDates(pregnantByWeeksObsList[..i]), lastVlDate, cal)
    {
      var obs := pregnantByWeeksObsList[i];
      assert WeeksDates(pregnantByWeeksObsList[..i + 1])[..i] == WeeksDates(pregnantByWeeksObsList[..i]);
      if obs.valueNumeric.Some? && InPregnantViralLoadRange(lastVlDate, obs.encounterDatetime.value, cal) {
        inWeeksDate := obs.encounterDatetime;
      }
    }
    assert pregnantByWeeksObsList[..|pregnantByWeeksObsList|] == pregnantByWeeksObsList;
  }

  /** `isPregnantInProgram`: the enrolment date of the last enrolment at `location`
      with an enrolment date in range. */
  method IsPregnantInProgram(lastVlDate: Date, patientPrograms: seq<PatientProgram>, location: LocationId,
                             cal: MonthArithmetic)
    returns (inProgramDate: Option<Date>)
    ensures inProgramDate == LastQualifying(EnrolmentDates(patientPrograms, location), lastVlDate, cal)
  {
    inProgramDate := None;
    for i := 0 to |patientPrograms|
      invariant inProgramDate == LastQualifying(EnrolmentDates(patientPrograms[..i], location), lastVlDate, cal)
    {
      var patientProgram := patientPrograms[i];
      assert EnrolmentDates(patientPrograms[..i + 1], location)[..i] == EnrolmentDates(patientPrograms[..i], location);
      if Some(location) == patientProgram.location && patientProgram.dateEnrolled.Some?
         && InPregnantViralLoadRange(lastVlDate, patientProgram.dateEnrolled.value, cal)
      {
        inProgramDate := patientProgram.dateEnrolled;
      }
    }
    assert patientPrograms[..|patientPrograms|] == patientPrograms;
  }

  function DateKey(d: Date): int {
    d
  }

  /** The non-null dates of `dates`, in order. */
  function NonNull(dates: seq<Option<Date>>): (r: seq<Date>)
    ensures forall d :: d in r <==> Some(d) in dates
  {
    if dates == [] then []
    else
      var rest := NonNull(dates[..|dates| - 1]);
      var last := dates[|dates| - 1];
      assert dates == dates[..|dates| - 1] + [last];
      if last.Some? then rest + [last.value] else rest
  }

  /** Gathers the non-null class dates in `resultantList`, sorts it and takes its last
      entry: the most recent date. */
  method MostRecent(allPregnancyDates: seq<Option<Date>>) returns (requiredDate: Option<Date>)
    ensures requiredDate == MaxDate(allPregnancyDates)
  {
    requiredDate := None;
    var resultantList: seq<Date> := [];
    for i := 0 to |allPregnancyDates|
      invariant resultantList == NonNull(allPregnancyDates[..i])
    {
      var eventDate := allPregnancyDates[i];
      assert allPregnancyDates[..i + 1][..i] == allPregnancyDates[..i];
      if eventDate.Some? {
        resultantList := resultantList + [eventDate.value];
      }
    }
    assert allPregnancyDates[..|allPregnancyDates|] == allPregnancyDates;
    if |resultantList| > 0 {
      var unsorted := resultantList;
      resultantList := SortBy(resultantList, DateKey);
      requiredDate := Some(resultantList[|resultantList| - 1]);
      LastOfSortedIsMaxDate(allPregnancyDates, resultantList);
    } else {
      NoNonNullIsNoDate(allPregnancyDates);
    }
  }

  lemma LastOfSortedIsMaxDate(dates: seq<Option<Date>>, sorted: seq<Date>)
    requires SortedBy(sorted, DateKey) && multiset(sorted) == multiset(NonNull(dates)) && NonNull(dates) != []
    ensures |sorted| > 0 && MaxDate(dates) == Some(sorted[|sorted| - 1])
  {
    var nonNull := NonNull(dates);
    LastOfSortedIsLargest(nonNull, sorted, DateKey);
    var last := sorted[|sorted| - 1];
    assert Some(last) in dates;
    var m := MaxDate(dates);
    var k :| 0 <= k < |dates| && dates[k] == Some(last);
    assert last <= m.value;
    assert m.value in nonNull;
  }

  lemma NoNonNullIsNoDate(dates: seq<Option<Date>>)
    requires NonNull(dates) == []
    ensures MaxDate(dates) == None
  {
  }

  /** The body of the loop in `evaluate`, for one female patient. */
  method EvaluatePatient(pId: PatientId, lastVl: map<PatientId, Obs>, data: PregnancyData,
                         location: LocationId, cal: MonthArithmetic)
    returns (requiredDate: Option<Date>)
    requires var vl := Lookup(lastVl, pId);
      vl.Some? && vl.value.obsDatetime.Some? ==>
        && (forall o :: o in ListFor(data.pregnantObs, pId) ==> o.encounterDatetime.Some?)
        && (forall o :: o in ListFor(data.weeksPregnantObs, pId) && o.valueNumeric.Some? ==> o.encounterDatetime.Some?)
        && (forall o :: o in ListFor(data.dueDateObs, pId) ==> o.encounterDatetime.Some?)
    ensures requiredDate == PregnancyDateFor(Lookup(lastVl, pId),
      ListFor(data.pregnantObs, pId), ListFor(data.weeksPregnantObs, pId), ListFor(data.dueDateObs, pId),
      ListFor(data.programs, pId), location, cal)
  {
    var lastVlObs := Lookup(lastVl, pId);
    requiredDate := None;
    if lastVlObs.Some? && lastVlObs.value.obsDatetime.Some? {
      var lastVlDate := lastVlObs.value.obsDatetime.value;
      var pregnant := IsPregnantDate(lastVlDate, ListFor(data.pregnantObs, pId), cal);
      var byWeeks := IsPregnantByWeeks(lastVlDate, ListFor(data.weeksPregnantObs, pId), cal);
      var dueDate := IsPregnantDate(lastVlDate, ListFor(data.dueDateObs, pId), cal);
      var inProgram := IsPregnantInProgram(lastVlDate, ListFor(data.programs, pId), location, cal);
      requiredDate := MostRecent([pregnant, byWeeks, dueDate, inProgram]);
    }
  }

  /** `PregnantDateCalculation.evaluate`: one entry, a date or null, for each female
      patient of the cohort and none for anyone else. */
  method Evaluate(cohort: seq<PatientId>, data: PregnancyData, now: Date, location: LocationId, cal: MonthArithmetic)
    returns (resultMap: map<PatientId, Option<Date>>)
    requires forall p :: p in FemaleCohort(cohort, data) ==> Dereferenceable(data, p, now, cal)
    ensures resultMap.Keys == FemaleCohort(cohort, data)
    ensures forall p :: p in resultMap ==> resultMap[p] == ResultFor(data, p, now, location, cal)
  {
    resultMap := map[];
    var oneYearBefore := cal.addMonths(now, -12);
    var lastVl := data.lastVl(oneYearBefore, now);
    for i := 0 to |cohort|
      invariant resultMap.Keys == FemaleCohort(cohort[..i], data)
      invariant forall p :: p in resultMap ==> resultMap[p] == ResultFor(data, p, now, location, cal)
    {
      var pId := cohort[i];
      assert cohort[..i + 1] == cohort[..i] + [pId];
      if pId in data.female {
        assert pId in FemaleCohort(cohort, data);
        assert Dereferenceable(data, pId, now, cal);
        var requiredDate := EvaluatePatient(pId, lastVl, data, location, cal);
        resultMap := resultMap[pId := requiredDate];
      }
    }
    assert cohort[..|cohort|] == cohort;
  }

  // ---------------------------------------------------------------------------
  // Properties of the rule

  /** Without a dated latest viral load in the 12-month window, the result is null. */
  lemma NoViralLoadNoDate(data: PregnancyData, p: PatientId, now: Date, location: LocationId, cal: MonthArithmetic)
    requires var vl := Lookup(LastVlMap(data, now, cal), p); vl.None? || vl.value.obsDatetime.None?
    ensures ResultFor(data, p, now, location, cal).None?
  {
  }

  /** The result is the maximum of the four class dates: null iff all four are null,
      and otherwise one of them and no earlier than any other. */
  lemma ResultIsLatestClassDate(lastVlObs: Obs, pregnantObs: seq<Obs>, weeksPregnantObs: seq<Obs>,
                                dueDateObs: seq<Obs>, programs: seq<PatientProgram>, location: LocationId,
                                cal: MonthArithmetic)
    requires lastVlObs.obsDatetime.Some?
    ensures var v := lastVlObs.obsDatetime.value;
      var classes := [
        LastQualifying(EncounterDates(pregnantObs), v, cal),
        LastQualifying(WeeksDates(weeksPregnantObs), v, cal),
        LastQualifying(EncounterDates(dueDateObs), v, cal),
        LastQualifying(EnrolmentDates(programs, location), v, cal)];
      var r := PregnancyDateFor(Some(lastVlObs), pregnantObs, weeksPregnantObs, dueDateObs, programs, location, cal);
      && (r.None? <==> forall c :: c in classes ==> c.None?)
      && (r.Some? ==> r in classes && forall c :: c in classes && c.Some? ==> c.value <= r.value)
  {
  }

  /** A non-null result lies in [viral-load date - 9 months, viral-load date]. */
  lemma ResultInPregnancyWindow(lastVlObs: Obs, pregnantObs: seq<Obs>, weeksPregnantObs: seq<Obs>,
                                dueDateObs: seq<Obs>, programs: seq<PatientProgram>, location: LocationId,
                                cal: MonthArithmetic)
    requires lastVlObs.obsDatetime.Some?
    ensures var r := PregnancyDateFor(Some(lastVlObs), pregnantObs, weeksPregnantObs, dueDateObs, programs, location, cal);
      r.Some? ==> cal.addMonths(lastVlObs.obsDatetime.value, -9) <= r.value <= lastVlObs.obsDatetime.value
  {
    var v := lastVlObs.obsDatetime.value;
    LastQualifyingIsLast(EncounterDates(pregnantObs), v, cal);
    LastQualifyingIsLast(WeeksDates(weeksPregnantObs), v, cal);
    LastQualifyingIsLast(EncounterDates(dueDateObs), v, cal);
    LastQualifyingIsLast(EnrolmentDates(programs, location), v, cal);
  }

  /** The worked example: a viral load on 2020-06-01, a coded "pregnant" obs on
      2020-02-01 and a due-date obs on 2020-04-01, both within the 9 months before it,
      give 2020-04-01. */
  lemma LaterEvidenceWins(cal: MonthArithmetic)
    requires cal.addMonths(1_590_969_600_000, -9) <= 1_580_515_200_000
    ensures var vl := Obs(1, Some(1_590_969_600_000), Some(400.0), None, Some(1_590_969_600_000));
      var pregnant := Obs(2, Some(1_580_515_200_000), None, None, Some(1_580_515_200_000));
      var dueDate := Obs(3, Some(1_585_699_200_000), None, Some(1_601_510_400_000), Some(1_585_699_200_000));
      PregnancyDateFor(Some(vl), [pregnant], [], [dueDate], [], 0, cal) == Some(1_585_699_200_000)
  {
    var v := 1_590_969_600_000;
    var pregnant := Obs(2, Some(1_580_515_200_000), None, None, Some(1_580_515_200_000));
    var dueDate := Obs(3, Some(1_585_699_200_000), None, Some(1_601_510_400_000), Some(1_585_699_200_000));
    assert EncounterDates([pregnant]) == [Some(1_580_515_200_000)];
    assert EncounterDates([dueDate]) == [Some(1_585_699_200_000)];
    assert LastQualifying([Some(1_580_515_200_000)], v, cal) == Some(1_580_515_200_000);
    assert LastQualifying([Some(1_585_699_200_000)], v, cal) == Some(1_585_699_200_000);
    assert WeeksDates([]) == [] && EnrolmentDates([], 0) == [];
    var classes := [Some(1_580_515_200_000), None, Some(1_585_699_200_000), None];
    assert classes[..3] == [Some(1_580_515_200_000), None, Some(1_585_699_200_000)];
    assert classes[..3][..2] == [Some(1_580_515_200_000), None];
    assert classes[..3][..2][..1] == [Some(1_580_515_200_000)];
    assert [Some(1_580_515_200_000)][..0] == [];
    assert MaxDate([Some(1_580_515_200_000)]) == Some(1_580_515_200_000);
    assert MaxDate([Some(1_580_515_200_000), None]) == Some(1_580_515_200_000);
    assert MaxDate(classes[..3]) == Some(1_585_699_200_000);
    assert MaxDate(classes) == Some(1_585_699_200_000);
  }
}
