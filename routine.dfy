/** RoutineForAdultsAndChildrenCalculation: is a patient's viral-load monitoring
    routine? One boolean per cohort patient, true when one of three criteria holds:
    (a) a single viral-load result in the last 12 months, 6 to 9 months after ART
    start; (b) the last two results of the last 12 months, by obsId, the earlier one
    below 1000 copies and the two 12 to 15 months apart; (c) a regimen change before
    the latest result, unless another result falls between the first follow-up
    encounter and the latest result. */
module RoutineForAdultsAndChildren {
  import opened Wrappers
  import opened ClinicalData
  import opened Sorting

  /** The viral load, in copies, below which the earlier result of criterion (b) must lie. */
  const SuppressedViralLoad: real := 1000.0

  /** What the calculation reads for one patient: the ART start date (computed by the
      initial-ART-start calculation), all viral-load obs, the last viral-load obs, the
      last regimen obs, and the first adult and paediatric follow-up encounters. */
  datatype RoutineInput = RoutineInput(
    artStart: Option<Date>,
    allVl: seq<Obs>,
    lastVl: Option<Obs>,
    lastRegimen: Option<Obs>,
    firstAdult: Option<Encounter>,
    firstPaediatric: Option<Encounter>)

  /** The per-patient result maps the calculation fetches before its loop. */
  datatype RoutineData = RoutineData(
    artStart: map<PatientId, Date>,
    allVl: map<PatientId, seq<Obs>>,
    lastRegimen: map<PatientId, Obs>,
    lastVl: map<PatientId, Obs>,
    firstAdult: map<PatientId, Encounter>,
    firstPaediatric: map<PatientId, Encounter>)

  function InputFor(data: RoutineData, p: PatientId): RoutineInput {
    RoutineInput(
      Lookup(data.artStart, p), ListFor(data.allVl, p), Lookup(data.lastVl, p),
      Lookup(data.lastRegimen, p), Lookup(data.firstAdult, p), Lookup(data.firstPaediatric, p))
  }

  function LatestVlDate(pt: RoutineInput): Option<Date> {
    if pt.lastVl.Some? then pt.lastVl.value.obsDatetime else None
  }

  /** The guard of the whole rule: an ART start date and a dated latest viral load. */
  predicate HasBaseline(pt: RoutineInput) {
    pt.artStart.Some? && LatestVlDate(pt).Some?
  }

  /** now - 12 months, the exclusive lower end of the 12-month window. */
  function LowerLimit(now: Date, cal: MonthArithmetic): Date {
    cal.addMonths(now, -12)
  }

  /** `o` is dated strictly between `from` and `to`. */
  predicate DatedBetween(o: Obs, from: Date, to: Date) {
    o.obsDatetime.Some? && from < o.obsDatetime.value < to
  }

  /** The obs of `s` dated strictly between `lower` and `now`, in list order. */
  function TakenWithin(s: seq<Obs>, lower: Date, now: Date): (r: seq<Obs>)
    ensures |r| <= |s|
    ensures forall o :: o in r ==> o in s && DatedBetween(o, lower, now)
  {
    if s == [] then []
    else
      var last := s[|s| - 1];
      TakenWithin(s[..|s| - 1], lower, now) + (if DatedBetween(last, lower, now) then [last] else [])
  }

  lemma {:induction false} TakenWithinKeepsEveryMatch(s: seq<Obs>, lower: Date, now: Date)
    ensures forall o :: o in s && DatedBetween(o, lower, now) ==> o in TakenWithin(s, lower, now)
  {
    if s != [] {
      TakenWithinKeepsEveryMatch(s[..|s| - 1], lower, now);
      assert s == s[..|s| - 1] + [s[|s| - 1]];
    }
  }

  /** The latest viral load lies in the open 12-month window. */
  predicate LatestInWindow(pt: RoutineInput, now: Date, cal: MonthArithmetic)
    requires HasBaseline(pt)
  {
    LowerLimit(now, cal) < LatestVlDate(pt).value < now
  }

  /** `viralLoadForPatientTakenWithin12Months` before it is sorted. */
  function Window(pt: RoutineInput, now: Date, cal: MonthArithmetic): seq<Obs> {
    if HasBaseline(pt) && LatestInWindow(pt, now, cal) then TakenWithin(pt.allVl, LowerLimit(now, cal), now)
    else []
  }

  function ObsIdKey(o: Obs): int {
    o.obsId
  }

  /** Criterion (a) on the window. */
  predicate CriterionA(w: seq<Obs>, artStart: Date, cal: MonthArithmetic) {
    |w| == 1 && w[0].obsDatetime.Some? &&
    6 < cal.monthsSince(artStart, w[0].obsDatetime.value) <= 9
  }

  /** The test criterion (b) applies to the previous and the current result. */
  predicate SuppressedThenRoutine(previous: Obs, current: Obs, cal: MonthArithmetic) {
    && previous.valueNumeric.Some?
    && previous.obsDatetime.Some?
    && previous.valueNumeric.value < SuppressedViralLoad
    && current.obsDatetime.Some?
    && previous.obsDatetime.value < current.obsDatetime.value
    && 12 <= cal.monthsSince(previous.obsDatetime.value, current.obsDatetime.value) <= 15
  }

  /** Criterion (b) on the window sorted by obsId. */
  predicate CriterionB(sorted: seq<Obs>, cal: MonthArithmetic) {
    |sorted| > 1 && SuppressedThenRoutine(sorted[|sorted| - 2], sorted[|sorted| - 1], cal)
  }

  /** The date of the first adult follow-up encounter, or, when that is absent, of the
      first paediatric one. */
  function FollowUpDate(pt: RoutineInput): (date: Option<Date>)
    ensures pt.firstAdult.Some? && pt.firstAdult.value.encounterDatetime.Some? ==>
      date == pt.firstAdult.value.encounterDatetime
    ensures date.Some? ==>
      || (pt.firstAdult.Some? && date == pt.firstAdult.value.encounterDatetime)
      || (pt.firstPaediatric.Some? && date == pt.firstPaediatric.value.encounterDatetime)
    ensures date.None? <==>
      && (pt.firstAdult.None? || pt.firstAdult.value.encounterDatetime.None?)
      && (pt.firstPaediatric.None? || pt.firstPaediatric.value.encounterDatetime.None?)
  {
    if pt.firstAdult.Some? && pt.firstAdult.value.encounterDatetime.Some? then pt.firstAdult.value.encounterDatetime
    else if pt.firstPaediatric.Some? then pt.firstPaediatric.value.encounterDatetime
    else None
  }

  /** Some viral load of `s` is dated strictly between `from` and `to`. */
  predicate VlBetween(s: seq<Obs>, from: Date, to: Date) {
    exists i :: 0 <= i < |s| && DatedBetween(s[i], from, to)
  }

  /** Criterion (c), with its spoiler check over the full, unfiltered viral-load list. */
  predicate CriterionC(pt: RoutineInput) {
    && LatestVlDate(pt).Some?
    && FollowUpDate(pt).Some?
    && pt.lastRegimen.Some?
    && pt.lastRegimen.value.obsDatetime.Some?
    && pt.lastRegimen.value.obsDatetime.value < LatestVlDate(pt).value
    && !VlBetween(pt.allVl, FollowUpDate(pt).value, LatestVlDate(pt).value)
  }

  /** The value the calculation puts in the result map for the patient. */
  predicate OnRoutine(pt: RoutineInput, now: Date, cal: MonthArithmetic)
    ensures OnRoutine(pt, now, cal) ==>
      HasBaseline(pt) && LatestInWindow(pt, now, cal) && |Window(pt, now, cal)| > 0
  {
    && HasBaseline(pt)
    && var w := Window(pt, now, cal);
       || CriterionA(w, pt.artStart.value, cal)
       || CriterionB(SortBy(w, ObsIdKey), cal)
       || (|w| > 0 && CriterionC(pt))
  }

  /** The loop over all viral loads that fills the window runs. */
  predicate WindowScanned(pt: RoutineInput, now: Date, cal: MonthArithmetic) {
    HasBaseline(pt) && LatestInWindow(pt, now, cal) && |pt.allVl| > 0
  }

  /** Criterion (c) reaches the step where the last regimen's date is compared with the
      latest viral load's. */
  predicate RegimenCompared(pt: RoutineInput, now: Date, cal: MonthArithmetic) {
    && HasBaseline(pt)
    && var w := Window(pt, now, cal);
       && |w| > 0
       && !CriterionA(w, pt.artStart.value, cal)
       && !CriterionB(SortBy(w, ObsIdKey), cal)
       && pt.lastRegimen.Some?
       && FollowUpDate(pt).Some?
  }

  /** The obs dates the source reads without a null check are present on the paths
      where it reads them. */
  predicate Dereferenceable(pt: RoutineInput, now: Date, cal: MonthArithmetic) {
    && (WindowScanned(pt, now, cal) ==> forall o :: o in pt.allVl ==> o.obsDatetime.Some?)
    && (RegimenCompared(pt, now, cal) ==> pt.lastRegimen.value.obsDatetime.Some?)
  }

  /** The loop that fills `viralLoadForPatientTakenWithin12Months`. */
  method CollectTakenWithin(vLoadList: seq<Obs>, lower: Date, now: Date) returns (within: seq<Obs>)
    requires forall o :: o in vLoadList ==> o.obsDatetime.Some?
    ensures within == TakenWithin(vLoadList, lower, now)
  {
    within := [];
    for i := 0 to |vLoadList|
      invariant within == TakenWithin(vLoadList[..i], lower, now)
    {
      var obs := vLoadList[i];
      assert vLoadList[..i + 1][..i] == vLoadList[..i];
      if lower < obs.obsDatetime.value && obs.obsDatetime.value < now {
        within := within + [obs];
      }
    }
    assert vLoadList[..|vLoadList|] == vLoadList;
  }

  /** The spoiler loop of criterion (c): stops at the first viral load dated strictly
      between the follow-up date and the latest viral-load date. */
  method HasVlBetween(allVlsForPatient: seq<Obs>, finalDate: Date, latestVlDate: Date) returns (found: bool)
    ensures found <==> VlBetween(allVlsForPatient, finalDate, latestVlDate)
  {
    found := false;
    for i := 0 to |allVlsForPatient|
      invariant !found
      invariant forall j :: 0 <= j < i ==> !DatedBetween(allVlsForPatient[j], finalDate, latestVlDate)
    {
      var obs1 := allVlsForPatient[i];
      if obs1.obsDatetime.Some? && finalDate < obs1.obsDatetime.value && obs1.obsDatetime.value < latestVlDate {
        found := true;
        break;
      }
    }
  }

  /** The body of the calculation's loop for one patient. */
  method EvaluatePatient(pt: RoutineInput, now: Date, cal: MonthArithmetic) returns (isOnRoutine: bool)
    requires Dereferenceable(pt, now, cal)
    ensures isOnRoutine == OnRoutine(pt, now, cal)
  {
    isOnRoutine := false;
    if pt.artStart.Some? && pt.lastVl.Some? && pt.lastVl.value.obsDatetime.Some? {
      var artInitiationDate := pt.artStart.value;
      var lastVlObs := pt.lastVl.value;
      var latestVlLowerDateLimit := cal.addMonths(now, -12);
      var within: seq<Obs> := [];
      if latestVlLowerDateLimit < lastVlObs.obsDatetime.value && lastVlObs.obsDatetime.value < now {
        if |pt.allVl| > 0 {
          within := CollectTakenWithin(pt.allVl, latestVlLowerDateLimit, now);
        }
      }
      assert within == Window(pt, now, cal);
      ghost var w := within;

      // criterion (a)
      if |within| == 1 {
        var vlObs := within[0];
        if vlObs.obsDatetime.Some? {
          var vlDate := vlObs.obsDatetime.value;
          if cal.monthsSince(artInitiationDate, vlDate) > 6 && cal.monthsSince(artInitiationDate, vlDate) <= 9 {
            isOnRoutine := true;
          }
        }
      }
      assert isOnRoutine == CriterionA(w, artInitiationDate, cal);

      // criterion (b)
      if |within| > 1 {
        within := SortBy(within, ObsIdKey);
        var previousObs := within[|within| - 2];
        var currentObs := within[|within| - 1];
        if previousObs.valueNumeric.Some? && previousObs.obsDatetime.Some?
           && previousObs.valueNumeric.value < SuppressedViralLoad
           && currentObs.obsDatetime.Some?
           && previousObs.obsDatetime.value < currentObs.obsDatetime.value
        {
          var gap := cal.monthsSince(previousObs.obsDatetime.value, currentObs.obsDatetime.value);
          if gap >= 12 && gap <= 15 {
            isOnRoutine := true;
          }
        }
      }
      assert |within| == |w|;
      assert isOnRoutine == (CriterionA(w, artInitiationDate, cal) || CriterionB(SortBy(w, ObsIdKey), cal));

      // criterion (c)
      if !isOnRoutine && |within| > 0 {
        var finalDate: Option<Date> := None;
        if pt.firstAdult.Some? {
          finalDate := pt.firstAdult.value.encounterDatetime;
        }
        if finalDate.None? && pt.firstPaediatric.Some? {
          finalDate := pt.firstPaediatric.value.encounterDatetime;
        }
        assert finalDate == FollowUpDate(pt);
        var latestVlDate := lastVlObs.obsDatetime;
        if pt.lastRegimen.Some? && latestVlDate.Some? && finalDate.Some? {
          assert RegimenCompared(pt, now, cal);
          if pt.lastRegimen.value.obsDatetime.value < latestVlDate.value {
            isOnRoutine := true;
            var spoiled := HasVlBetween(pt.allVl, finalDate.value, latestVlDate.value);
            if spoiled {
              isOnRoutine := false;
            }
          }
        }
      }
    }
  }

  /** `RoutineForAdultsAndChildrenCalculation.evaluate`: one boolean per cohort patient. */
  method Evaluate(cohort: seq<PatientId>, data: RoutineData, now: Date, cal: MonthArithmetic)
    returns (results: map<PatientId, bool>)
    requires forall p :: p in cohort ==> Dereferenceable(InputFor(data, p), now, cal)
    ensures forall p :: p in results <==> p in cohort
    ensures forall p :: p in results ==> results[p] == OnRoutine(InputFor(data, p), now, cal)
  {
    results := map[];
    for i := 0 to |cohort|
      invariant forall p :: p in results <==> p in cohort[..i]
      invariant forall p :: p in results ==> results[p] == OnRoutine(InputFor(data, p), now, cal)
    {
      var pId := cohort[i];
      var isOnRoutine := EvaluatePatient(InputFor(data, pId), now, cal);
      results := results[pId := isOnRoutine];
    }
    assert cohort[..|cohort|] == cohort;
  }

  // ---------------------------------------------------------------------------
  // Properties of the rule

  /** Without an ART start date, a latest viral load, or a date on that viral load,
      the patient is not on routine monitoring. */
  lemma NoBaselineNotOnRoutine(pt: RoutineInput, now: Date, cal: MonthArithmetic)
    requires pt.artStart.None? || pt.lastVl.None? || pt.lastVl.value.obsDatetime.None?
    ensures !OnRoutine(pt, now, cal)
  {
  }

  /** The window holds exactly the viral loads dated strictly inside (now - 12 months,
      now), and is empty unless the latest viral load itself lies in that open window. */
  lemma WindowContents(pt: RoutineInput, now: Date, cal: MonthArithmetic)
    ensures forall o :: o in Window(pt, now, cal) ==> o in pt.allVl && DatedBetween(o, LowerLimit(now, cal), now)
    ensures Window(pt, now, cal) != [] ==> HasBaseline(pt) && LatestInWindow(pt, now, cal)
    ensures HasBaseline(pt) && LatestInWindow(pt, now, cal) ==>
      forall o :: o in pt.allVl && DatedBetween(o, LowerLimit(now, cal), now) ==> o in Window(pt, now, cal)
  {
    TakenWithinKeepsEveryMatch(pt.allVl, LowerLimit(now, cal), now);
  }

  /** An empty window gives false, whatever the regimen and encounter evidence. */
  lemma EmptyWindowNotOnRoutine(pt: RoutineInput, now: Date, cal: MonthArithmetic)
    requires Window(pt, now, cal) == []
    ensures !OnRoutine(pt, now, cal)
  {
  }

  /** Criterion (a): with exactly one viral load in the window, the patient is on
      routine monitoring iff that result is more than 6 and at most 9 months after ART
      start, or criterion (c) holds. */
  lemma CriterionAExact(pt: RoutineInput, now: Date, cal: MonthArithmetic)
    requires |Window(pt, now, cal)| == 1
    ensures HasBaseline(pt)
    ensures var vl := Window(pt, now, cal)[0];
      && vl.obsDatetime.Some?
      && (OnRoutine(pt, now, cal) <==>
          6 < cal.monthsSince(pt.artStart.value, vl.obsDatetime.value) <= 9 || CriterionC(pt))
  {
    var w := Window(pt, now, cal);
    assert w[0] in w;
  }

  /** Criterion (b): with two or more viral loads in the window, sorted ascending by
      obsId, the previous result is the second-to-last and the current the last, they
      carry the two largest obsIds, and the patient is on routine monitoring iff the
      previous is below 1000, dated strictly before the current and 12 to 15 months
      before it, or criterion (c) holds. */
  lemma CriterionBExact(pt: RoutineInput, now: Date, cal: MonthArithmetic)
    requires |Window(pt, now, cal)| >= 2
    ensures var w := Window(pt, now, cal);
      var sorted := SortBy(w, ObsIdKey);
      var n := |sorted|;
      && n == |w|
      && multiset(sorted) == multiset(w)
      && (forall k :: 0 <= k < n - 2 ==> sorted[k].obsId <= sorted[n - 2].obsId)
      && sorted[n - 2].obsId <= sorted[n - 1].obsId
      && (OnRoutine(pt, now, cal) <==>
          || (&& sorted[n - 2].valueNumeric.Some?
              && sorted[n - 2].valueNumeric.value < 1000.0
              && sorted[n - 2].obsDatetime.Some?
              && sorted[n - 1].obsDatetime.Some?
              && sorted[n - 2].obsDatetime.value < sorted[n - 1].obsDatetime.value
              && 12 <= cal.monthsSince(sorted[n - 2].obsDatetime.value, sorted[n - 1].obsDatetime.value) <= 15)
          || CriterionC(pt))
  {
    var w := Window(pt, now, cal);
    var sorted := SortBy(w, ObsIdKey);
    var n := |sorted|;
    assert forall k :: 0 <= k < n - 2 ==> ObsIdKey(sorted[k]) <= ObsIdKey(sorted[n - 2]);
    assert ObsIdKey(sorted[n - 2]) <= ObsIdKey(sorted[n - 1]);
  }

  /** Criterion (c) decides exactly when the window is non-empty and (a) and (b) fail. */
  lemma CriterionCDecidesLast(pt: RoutineInput, now: Date, cal: MonthArithmetic)
    requires HasBaseline(pt)
    requires |Window(pt, now, cal)| > 0
    requires !CriterionA(Window(pt, now, cal), pt.artStart.value, cal)
    requires !CriterionB(SortBy(Window(pt, now, cal), ObsIdKey), cal)
    ensures OnRoutine(pt, now, cal) <==>
      && FollowUpDate(pt).Some?
      && pt.lastRegimen.Some? && pt.lastRegimen.value.obsDatetime.Some?
      && pt.lastRegimen.value.obsDatetime.value < LatestVlDate(pt).value
      && forall o :: o in pt.allVl ==> !DatedBetween(o, FollowUpDate(pt).value, LatestVlDate(pt).value)
  {
    if FollowUpDate(pt).Some? && !VlBetween(pt.allVl, FollowUpDate(pt).value, LatestVlDate(pt).value) {
      forall o | o in pt.allVl ensures !DatedBetween(o, FollowUpDate(pt).value, LatestVlDate(pt).value) {
        var i :| 0 <= i < |pt.allVl| && pt.allVl[i] == o;
      }
    }
  }

  /** The spoiler: once (a) and (b) have failed, any viral load in the full list dated
      strictly after the follow-up date and strictly before the latest viral load
      makes the result false. */
  lemma SpoilerCancelsCriterionC(pt: RoutineInput, now: Date, cal: MonthArithmetic, spoiler: Obs)
    requires HasBaseline(pt) && FollowUpDate(pt).Some?
    requires spoiler in pt.allVl && DatedBetween(spoiler, FollowUpDate(pt).value, LatestVlDate(pt).value)
    requires !CriterionA(Window(pt, now, cal), pt.artStart.value, cal)
    requires !CriterionB(SortBy(Window(pt, now, cal), ObsIdKey), cal)
    ensures !OnRoutine(pt, now, cal)
  {
    var i :| 0 <= i < |pt.allVl| && pt.allVl[i] == spoiler;
    assert VlBetween(pt.allVl, FollowUpDate(pt).value, LatestVlDate(pt).value);
  }

  /** When the first adult encounter has a date, the paediatric encounter plays no part. */
  lemma AdultFollowUpOverridesPaediatric(pt: RoutineInput, now: Date, cal: MonthArithmetic, other: Option<Encounter>)
    requires pt.firstAdult.Some? && pt.firstAdult.value.encounterDatetime.Some?
    ensures OnRoutine(pt, now, cal) == OnRoutine(pt.(firstPaediatric := other), now, cal)
  {
    assert Window(pt, now, cal) == Window(pt.(firstPaediatric := other), now, cal);
  }

  /** When the adult encounter or its date is absent, the paediatric encounter's date
      acts as if it were the adult one. */
  lemma PaediatricFollowUpIsFallback(pt: RoutineInput, now: Date, cal: MonthArithmetic)
    requires pt.firstAdult.None? || pt.firstAdult.value.encounterDatetime.None?
    requires pt.firstPaediatric.Some?
    ensures OnRoutine(pt, now, cal) ==
      OnRoutine(pt.(firstAdult := Some(Encounter(pt.firstPaediatric.value.encounterDatetime))), now, cal)
  {
    var moved := pt.(firstAdult := Some(Encounter(pt.firstPaediatric.value.encounterDatetime)));
    assert Window(pt, now, cal) == Window(moved, now, cal);
    assert FollowUpDate(pt) == FollowUpDate(moved);
  }

  // ---------------------------------------------------------------------------
  // Worked examples of criterion (a), and the reach of criterion (b)

  /** A patient who started ART on 2020-01-01 and has the single viral load `vl`. */
  function SingleResultPatient(vl: Obs): RoutineInput {
    RoutineInput(Some(1_577_836_800_000), [vl], Some(vl), None, None, None)
  }

  /** Criterion (a): a single viral load on 2020-08-15, 7 whole months after ART start,
      evaluated on 2020-09-01, is routine monitoring. */
  lemma SingleResultAtSevenMonths(cal: MonthArithmetic)
    requires cal.addMonths(1_598_918_400_000, -12) < 1_597_449_600_000
    requires cal.monthsSince(1_577_836_800_000, 1_597_449_600_000) == 7
    ensures OnRoutine(SingleResultPatient(Obs(1, Some(1_597_449_600_000), Some(50.0), None, None)),
                      1_598_918_400_000, cal)
  {
    var vl := Obs(1, Some(1_597_449_600_000), Some(50.0), None, None);
    assert TakenWithin([vl], cal.addMonths(1_598_918_400_000, -12), 1_598_918_400_000) == [vl];
  }

  /** Criterion (a) counts whole months and accepts 9 of them: a single viral load on
      2020-10-15, 9 whole months (9.5 calendar months) after ART start, evaluated on
      2020-11-01, is routine monitoring. */
  lemma SingleResultAtNineWholeMonths(cal: MonthArithmetic)
    requires cal.addMonths(1_604_188_800_000, -12) < 1_602_720_000_000
    requires cal.monthsSince(1_577_836_800_000, 1_602_720_000_000) == 9
    ensures OnRoutine(SingleResultPatient(Obs(1, Some(1_602_720_000_000), Some(50.0), None, None)),
                      1_604_188_800_000, cal)
  {
    var vl := Obs(1, Some(1_602_720_000_000), Some(50.0), None, None);
    assert TakenWithin([vl], cal.addMonths(1_604_188_800_000, -12), 1_604_188_800_000) == [vl];
  }

  /** Criterion (a) rejects a single viral load 10 whole months after ART start, and
      without a regimen change criterion (c) cannot apply: 2020-11-15, evaluated on
      2020-12-01, is not routine monitoring. */
  lemma SingleResultAtTenMonthsNotRoutine(cal: MonthArithmetic)
    requires cal.addMonths(1_606_780_800_000, -12) < 1_605_398_400_000
    requires cal.monthsSince(1_577_836_800_000, 1_605_398_400_000) == 10
    ensures !OnRoutine(SingleResultPatient(Obs(1, Some(1_605_398_400_000), Some(50.0), None, None)),
                       1_606_780_800_000, cal)
  {
    var vl := Obs(1, Some(1_605_398_400_000), Some(50.0), None, None);
    var pt := SingleResultPatient(vl);
    assert TakenWithin([vl], cal.addMonths(1_606_780_800_000, -12), 1_606_780_800_000) == [vl];
    var w := Window(pt, 1_606_780_800_000, cal);
    assert w == [vl];
    assert !CriterionA(w, 1_577_836_800_000, cal);
    assert |SortBy(w, ObsIdKey)| == 1;
    assert !CriterionC(pt);
  }

  /** On such a calendar, two dates strictly inside the 12 months before `now` are less
      than 12 months apart. */
  lemma LessThanAYearApart(p: Date, c: Date, now: Date, cal: MonthArithmetic)
    requires forall a, b :: cal.monthsSince(a, b) >= 12 ==> cal.addMonths(a, 12) <= b
    requires forall a, b :: a <= b ==> cal.addMonths(a, 12) <= cal.addMonths(b, 12)
    requires cal.addMonths(cal.addMonths(now, -12), 12) >= now
    requires cal.addMonths(now, -12) < p && c < now
    ensures cal.monthsSince(p, c) < 12
  {
    var lower := cal.addMonths(now, -12);
    assert cal.addMonths(lower, 12) <= cal.addMonths(p, 12);
  }

  /** Criterion (b) never holds on a calendar where a gap of 12 or more months means the
      later date is at least 12 months on, adding 12 months is monotone, and going back
      12 months from `now` and forward again does not land before `now`: both results
      it compares lie strictly inside the 12 months before `now`, so they are less than
      12 months apart. */
  lemma CriterionBUnreachable(pt: RoutineInput, now: Date, cal: MonthArithmetic)
    requires forall a, b :: cal.monthsSince(a, b) >= 12 ==> cal.addMonths(a, 12) <= b
    requires forall a, b :: a <= b ==> cal.addMonths(a, 12) <= cal.addMonths(b, 12)
    requires cal.addMonths(cal.addMonths(now, -12), 12) >= now
    ensures !CriterionB(SortBy(Window(pt, now, cal), ObsIdKey), cal)
  {
    var w := Window(pt, now, cal);
    var sorted := SortBy(w, ObsIdKey);
    var n := |sorted|;
    if n > 1 {
      WindowContents(pt, now, cal);
      var previous, current := sorted[n - 2], sorted[n - 1];
      assert previous in multiset(sorted) && current in multiset(sorted);
      assert previous in w && current in w;
      assert DatedBetween(previous, LowerLimit(now, cal), now) && DatedBetween(current, LowerLimit(now, cal), now);
      LessThanAYearApart(previous.obsDatetime.value, current.obsDatetime.value, now, cal);
    }
  }
}
