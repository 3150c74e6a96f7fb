/** CompletedIsoniazidProphylaticTreatmentCalculation: which patients completed
    isoniazid prophylaxis. The result map holds `true` for each patient who completed
    and has no entry for anyone else. Completion is decided by one of two mutually
    exclusive branches: with a start and an end date, at least 180 days between them;
    with a start date only, at least 6 "yes" usage answers within 7 months of it.
    Patients whose dates are inconsistent get no entry. */
module CompletedIsoniazidProphylaxis {
  import opened Wrappers
  import opened ClinicalData

  const NumberIsoniazidUsageToConsiderCompleted: nat := 6

  const MonthsToCheckForIsoniazidUsage: int := 7

  const MinimumDurationInDays: nat := 180

  const BeginPeriodStartDate: string := "beginPeriodStartDate"

  const BeginPeriodEndDate: string := "beginPeriodEndDate"

  const CompletionPeriodStartDate: string := "completionPeriodStartDate"

  const CompletionPeriodEndDate: string := "completionPeriodEndDate"

  /** The `parameterValues` map of one evaluation: `None` is a null map, and a key may
      be present with a null value. */
  type ParameterValues = Option<map<string, Option<Date>>>

  /** The date-valued part of the calculation context's cache. */
  type ContextCache = map<string, Option<Date>>

  /** What the data store returns for the patients of the cohort: the first start-date
      obs recorded in a begin period, the last end-date obs recorded in a completion
      period (each a function of the period's two bounds), and every "yes" answer to
      the isoniazid-usage question in a follow-up consultation. */
  datatype IsoniazidStore = IsoniazidStore(
    firstStartObs: (Option<Date>, Option<Date>) -> map<PatientId, Obs>,
    lastEndObs: (Option<Date>, Option<Date>) -> map<PatientId, Obs>,
    usageObs: map<PatientId, seq<Obs>>)

  /** The parameter is given a non-null value in `parameterValues`. */
  predicate Supplied(parameterValues: ParameterValues, parameterName: string) {
    parameterValues.Some? && parameterName in parameterValues.value && parameterValues.value[parameterName].Some?
  }

  function CacheValue(cache: ContextCache, parameterName: string): Option<Date> {
    if parameterName in cache then cache[parameterName] else None
  }

  /** `getDateParameter`: the value of `parameterValues` wins when present and not
      null; otherwise the context cache is consulted. */
  function GetDateParameter(parameterValues: ParameterValues, cache: ContextCache, parameterName: string): (date: Option<Date>)
    ensures date.Some? <==> Supplied(parameterValues, parameterName) || CacheValue(cache, parameterName).Some?
    ensures Supplied(parameterValues, parameterName) ==> date == parameterValues.value[parameterName]
    ensures !Supplied(parameterValues, parameterName) ==> date == CacheValue(cache, parameterName)
  {
    var date := if parameterValues.Some? && parameterName in parameterValues.value then parameterValues.value[parameterName] else None;
    if date.None? then CacheValue(cache, parameterName) else date
  }

  function StartObservations(store: IsoniazidStore, parameterValues: ParameterValues, cache: ContextCache): map<PatientId, Obs> {
    store.firstStartObs(
      GetDateParameter(parameterValues, cache, BeginPeriodStartDate),
      GetDateParameter(parameterValues, cache, BeginPeriodEndDate))
  }

  function EndObservations(store: IsoniazidStore, parameterValues: ParameterValues, cache: ContextCache): map<PatientId, Obs> {
    store.lastEndObs(
      GetDateParameter(parameterValues, cache, CompletionPeriodStartDate),
      GetDateParameter(parameterValues, cache, CompletionPeriodEndDate))
  }

  /** `getDateFromObs`: the date an obs records as its value; null without an obs. */
  function DateFromObs(obs: Option<Obs>): (date: Option<Date>)
    ensures date.Some? <==> obs.Some? && obs.value.valueDatetime.Some?
    ensures date.Some? ==> date == obs.value.valueDatetime
  {
    if obs.Some? then obs.value.valueDatetime else None
  }

  /** The end precedes the start, or there is an end without a start. */
  predicate Inconsistent(startDate: Option<Date>, endDate: Option<Date>) {
    || (startDate.Some? && endDate.Some? && startDate.value > endDate.value)
    || (startDate.None? && endDate.Some?)
  }

  /** `getIsoniazidUsageEndDate`: the start date shifted by 7 calendar months. */
  function IsoniazidUsageEndDate(startDate: Date, cal: MonthArithmetic): (endDate: Date)
    ensures endDate == cal.addMonths(startDate, 7)
  {
    cal.addMonths(startDate, MonthsToCheckForIsoniazidUsage)
  }

  predicate DatedFromTo(o: Obs, from: Date, to: Date) {
    o.obsDatetime.Some? && from <= o.obsDatetime.value <= to
  }

  /** The usage obs dated in [from, to], both ends included, in list order. */
  function UsageWithin(s: seq<Obs>, from: Date, to: Date): (r: seq<Obs>)
    ensures |r| <= |s|
    ensures forall o :: o in r ==> o in s && DatedFromTo(o, from, to)
  {
    if s == [] then []
    else
      var last := s[|s| - 1];
      UsageWithin(s[..|s| - 1], from, to) + (if DatedFromTo(last, from, to) then [last] else [])
  }

  lemma {:induction false} UsageWithinKeepsEveryMatch(s: seq<Obs>, from: Date, to: Date)
    ensures forall o :: o in s && DatedFromTo(o, from, to) ==> o in UsageWithin(s, from, to)
  {
    if s != [] {
      UsageWithinKeepsEveryMatch(s[..|s| - 1], from, to);
      assert s == s[..|s| - 1] + [s[|s| - 1]];
    }
  }

  function YesAnswers(usage: seq<Obs>, startDate: Date, cal: MonthArithmetic): nat {
    |UsageWithin(usage, startDate, IsoniazidUsageEndDate(startDate, cal))|
  }

  /** The per-patient outcome: true iff the patient gets a `true` entry. */
  predicate Completed(startObs: Option<Obs>, endObs: Option<Obs>, usage: seq<Obs>, cal: MonthArithmetic)
    ensures Completed(startObs, endObs, usage, cal) ==>
      && DateFromObs(startObs).Some?
      && !Inconsistent(DateFromObs(startObs), DateFromObs(endObs))
      && (DateFromObs(endObs).Some? ==>
            DateFromObs(endObs).value - DateFromObs(startObs).value >= 180 * MillisPerDay)
  {
    var startDate := DateFromObs(startObs);
    var endDate := DateFromObs(endObs);
    && !Inconsistent(startDate, endDate)
    && startDate.Some?
    && if endDate.Some? then WholeDays(startDate.value, endDate.value) >= MinimumDurationInDays
       else YesAnswers(usage, startDate.value, cal) >= NumberIsoniazidUsageToConsiderCompleted
  }

  /** The usage answers are counted (start date only, consistent). */
  predicate UsageCounted(startObs: Option<Obs>, endObs: Option<Obs>) {
    var startDate := DateFromObs(startObs);
    var endDate := DateFromObs(endObs);
    !Inconsistent(startDate, endDate) && startDate.Some? && endDate.None?
  }

  /** The count's loop compares every usage obs' date without a null check. */
  predicate Dereferenceable(startObs: Option<Obs>, endObs: Option<Obs>, usage: seq<Obs>) {
    UsageCounted(startObs, endObs) ==> forall o :: o in usage ==> o.obsDatetime.Some?
  }

  predicate PatientDereferenceable(store: IsoniazidStore, parameterValues: ParameterValues, cache: ContextCache, p: PatientId) {
    Dereferenceable(
      Lookup(StartObservations(store, parameterValues, cache), p),
      Lookup(EndObservations(store, parameterValues, cache), p),
      ListFor(store.usageObs, p))
  }

  predicate PatientCompleted(store: IsoniazidStore, parameterValues: ParameterValues, cache: ContextCache, p: PatientId, cal: MonthArithmetic) {
    Completed(
      Lookup(StartObservations(store, parameterValues, cache), p),
      Lookup(EndObservations(store, parameterValues, cache), p),
      ListFor(store.usageObs, p), cal)
  }

  /** `calculateNumberOfYesAnswers`: the usage obs dated from the start date to 7 months
      after it, both ends included. */
  method CalculateNumberOfYesAnswers(isoniazidUsageObservations: seq<Obs>, startDate: Date, cal: MonthArithmetic)
    returns (count: nat)
    requires forall o :: o in isoniazidUsageObservations ==> o.obsDatetime.Some?
    ensures count == YesAnswers(isoniazidUsageObservations, startDate, cal)
    ensures count <= |isoniazidUsageObservations|
  {
    count := 0;
    var isoniazidUsageEndDate := IsoniazidUsageEndDate(startDate, cal);
    for i := 0 to |isoniazidUsageObservations|
      invariant count == |UsageWithin(isoniazidUsageObservations[..i], startDate, isoniazidUsageEndDate)|
    {
      var date := isoniazidUsageObservations[i].obsDatetime.value;
      assert isoniazidUsageObservations[..i + 1][..i] == isoniazidUsageObservations[..i];
      if date >= startDate && date <= isoniazidUsageEndDate {
        count := count + 1;
      }
    }
    assert isoniazidUsageObservations[..|isoniazidUsageObservations|] == isoniazidUsageObservations;
  }

  /** `CompletedIsoniazidProphylaticTreatmentCalculation.evaluate`. */
  method Evaluate(cohort: seq<PatientId>, parameterValues: ParameterValues, cache: ContextCache,
                  store: IsoniazidStore, cal: MonthArithmetic)
    returns (results: map<PatientId, bool>)
    requires forall p :: p in cohort ==> PatientDereferenceable(store, parameterValues, cache, p)
    ensures forall p :: p in results ==> results[p]
    ensures forall p :: p in results <==> p in cohort && PatientCompleted(store, parameterValues, cache, p, cal)
  {
    results := map[];
    var beginPeriodStartDate := GetDateParameter(parameterValues, cache, BeginPeriodStartDate);
    var beginPeriodEndDate := GetDateParameter(parameterValues, cache, BeginPeriodEndDate);
    var completionPeriodStartDate := GetDateParameter(parameterValues, cache, CompletionPeriodStartDate);
    var completionPeriodEndDate := GetDateParameter(parameterValues, cache, CompletionPeriodEndDate);
    var startProfilaxiaObservations := store.firstStartObs(beginPeriodStartDate, beginPeriodEndDate);
    var endProfilaxiaObservations := store.lastEndObs(completionPeriodStartDate, completionPeriodEndDate);

    for i := 0 to |cohort|
      invariant forall p :: p in results ==> results[p]
      invariant forall p :: p in results <==> p in cohort[..i] && PatientCompleted(store, parameterValues, cache, p, cal)
    {
      var patientId := cohort[i];
      var startProfilaxiaObs := Lookup(startProfilaxiaObservations, patientId);
      var endProfilaxiaObs := Lookup(endProfilaxiaObservations, patientId);
      var startDate := DateFromObs(startProfilaxiaObs);
      var endDate := DateFromObs(endProfilaxiaObs);
      var inconsistent :=
        (startDate.Some? && endDate.Some? && startDate.value > endDate.value)
        || (startDate.None? && endDate.Some?);
      if !inconsistent && startDate.Some? {
        var completed := startDate.Some? && endDate.Some?;
        if completed {
          var profilaxiaDuration := WholeDays(startDate.value, endDate.value);
          if profilaxiaDuration >= MinimumDurationInDays {
            results := results[patientId := true];
          }
        } else {
          assert PatientDereferenceable(store, parameterValues, cache, patientId);
          var yesAnswers := CalculateNumberOfYesAnswers(ListFor(store.usageObs, patientId), startDate.value, cal);
          if yesAnswers >= NumberIsoniazidUsageToConsiderCompleted {
            results := results[patientId := true];
          }
        }
      }
    }
    assert cohort[..|cohort|] == cohort;
  }

  // ---------------------------------------------------------------------------
  // Properties of the rule

  /** A patient with inconsistent dates never gets an entry. */
  lemma InconsistentNeverCompletes(startObs: Option<Obs>, endObs: Option<Obs>, usage: seq<Obs>, cal: MonthArithmetic)
    requires Inconsistent(DateFromObs(startObs), DateFromObs(endObs))
    ensures !Completed(startObs, endObs, usage, cal)
  {
  }

  /** With both dates present and in order, completion is at least 180 whole days from
      start to end, and the usage answers are never consulted. */
  lemma BothDatesBranch(startObs: Option<Obs>, endObs: Option<Obs>, usage: seq<Obs>, otherUsage: seq<Obs>, cal: MonthArithmetic)
    requires DateFromObs(startObs).Some? && DateFromObs(endObs).Some?
    requires DateFromObs(startObs).value <= DateFromObs(endObs).value
    ensures Completed(startObs, endObs, usage, cal) <==>
      (DateFromObs(endObs).value - DateFromObs(startObs).value) / MillisPerDay >= 180
    ensures Completed(startObs, endObs, usage, cal) == Completed(startObs, endObs, otherUsage, cal)
  {
  }

  /** With a start date only, completion is at least 6 usage answers, counting exactly
      the answers dated from the start date to 7 months after it, both ends included. */
  lemma StartOnlyBranch(startObs: Option<Obs>, endObs: Option<Obs>, usage: seq<Obs>, cal: MonthArithmetic)
    requires DateFromObs(startObs).Some? && DateFromObs(endObs).None?
    ensures var s := DateFromObs(startObs).value;
      var counted := UsageWithin(usage, s, cal.addMonths(s, 7));
      && (Completed(startObs, endObs, usage, cal) <==> |counted| >= 6)
      && |counted| <= |usage|
      && forall o :: o in counted <==>
           o in usage && o.obsDatetime.Some? && s <= o.obsDatetime.value <= cal.addMonths(s, 7)
  {
    var s := DateFromObs(startObs).value;
    UsageWithinKeepsEveryMatch(usage, s, cal.addMonths(s, 7));
  }

  /** The start and end dates are the obs' recorded values: obs that differ in
      everything but `valueDatetime` give the same outcome. */
  lemma OnlyValueDatetimesMatter(startObs: Option<Obs>, endObs: Option<Obs>, startObs': Option<Obs>, endObs': Option<Obs>,
                                 usage: seq<Obs>, cal: MonthArithmetic)
    requires startObs.Some? && startObs'.Some? && startObs.value.valueDatetime == startObs'.value.valueDatetime
    requires endObs.Some? && endObs'.Some? && endObs.value.valueDatetime == endObs'.value.valueDatetime
    ensures Completed(startObs, endObs, usage, cal) == Completed(startObs', endObs', usage, cal)
  {
  }

  /** A missing start obs counts as no start date, the same as a start obs without a value. */
  lemma MissingObsIsNullDate(endObs: Option<Obs>, usage: seq<Obs>, cal: MonthArithmetic)
    ensures !Completed(None, endObs, usage, cal)
  {
  }

  /** The boundary case: a start on 2020-01-01 and an end on 2020-06-29 (UTC) are exactly
      180 days apart, so the patient completed. */
  lemma HalfYearCompletes(cal: MonthArithmetic)
    ensures var start := Obs(1, None, None, Some(1_577_836_800_000), None);
      var end := Obs(2, None, None, Some(1_593_388_800_000), None);
      && WholeDays(1_577_836_800_000, 1_593_388_800_000) == 180
      && Completed(Some(start), Some(end), [], cal)
  {
  }

  /** One millisecond less is 179 whole days, and the patient did not complete. */
  lemma JustUnderHalfYearDoesNotComplete(cal: MonthArithmetic)
    ensures var start := Obs(1, None, None, Some(1_577_836_800_000), None);
      var end := Obs(2, None, None, Some(1_593_388_799_999), None);
      && WholeDays(1_577_836_800_000, 1_593_388_799_999) == 179
      && !Completed(Some(start), Some(end), [], cal)
  {
  }
}
