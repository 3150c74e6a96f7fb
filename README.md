# A verified model of the ePTS reporting calculations

This project models part of the ePTS reports module for OpenMRS. It covers four
patient calculations and one cohort-query builder:

- **Routine viral-load monitoring** (`RoutineForAdultsAndChildren`). A patient with
  an ART start date and a dated last viral load is "on routine" if the viral loads
  taken strictly inside the 12 months before *now* meet one of three rules:
  - (a) a single result more than 6 and at most 9 months after ART start;
  - (b) the second-to-last result, by obsId, is below 1000 copies and 12 to 15
    months before the last one;
  - (c) there is an earlier regimen change and no viral load between the first
    follow-up encounter and the latest viral load.
- **Completed isoniazid prophylaxis** (`CompletedIsoniazidProphylaxis`). The four
  period dates are resolved from the parameters, with the context cache as a
  fallback. Inconsistent start and end dates are rejected. A start date plus an
  end date at least 180 days later counts as completed. So does a start date
  alone followed by at least six "yes" usage answers within 7 months.
- **Pregnancy date** (`PregnantDate`). For each female patient with a dated last
  viral load in the past 12 months, the model looks at four kinds of evidence:
  - a coded "pregnant" obs;
  - a weeks-pregnant obs;
  - a due-date obs;
  - a PTV/ETV programme enrolment at the location.

  Each kind offers the date of its last element that falls in the 9 months up to
  the viral load. The result is the latest of these dates.
- **Vital status** (`EptsCalculations`). This gives alive-ness per patient (not
  dead, or a death date after *now*) and the `living` filter.
- **TX_NEW cohort queries** (`TxNewCohortQueries`):
  - the three sub-definition builders;
  - the parameter mappings;
  - the breastfeeding composition;
  - the TX_NEW composition.

  They rest on a small model of composition cohort definitions
  (`CohortComposition`). It has composition expressions with their set meaning,
  parameter mappings and binding, and a `CompositionCohortDefinition` class whose
  setters update its fields in place.

Shared modules:

- `Wrappers` holds `Option`, which stands for Java's null.
- `ClinicalData` holds:
  - dates, as milliseconds;
  - obs, encounters and programme enrolments;
  - the calendar operations `addMonths` and `monthsSince`, passed in as
    `MonthArithmetic`, since their implementation is not part of this model;
  - whole-day differences.
- `Sorting` holds an insertion sort, proved sorted and a permutation of its input. It
  stands in for `Collections.sort`.

Data that the source fetches through its services becomes input maps; a missing key
is a null result or an empty list. Where a fetch takes a window computed in the
calculation, the input is a function of that window, so the computed window is part
of the model. Where the source dereferences a value without a null check, the model
states a precondition that is exactly the non-null condition on the path where the
dereference happens.

## Model

| member | source | states |
|---|---|---|
| ClinicalData.WholeDays | api/src/main/java/org/openmrs/module/eptsreports/reporting/calculation/prev/CompletedIsoniazidProphylaticTreatmentCalculation.java:123-124 | the day count of an interval is the number of whole days in it: count × day ≤ length < (count+1) × day |
| Sorting.InsertBy | api/src/main/java/org/openmrs/module/eptsreports/reporting/calculation/pvls/PregnantDateCalculation.java:150 | inserting into a sorted list keeps it sorted and adds exactly the one element |
| Sorting.SortBy | api/src/main/java/org/openmrs/module/eptsreports/reporting/calculation/pvls/RoutineForAdultsAndChildrenCalculation.java:128-133 | the sort returns a sorted permutation of its input |
| Sorting.LastOfSortedIsLargest | api/src/main/java/org/openmrs/module/eptsreports/reporting/calculation/pvls/PregnantDateCalculation.java:150-152 | the last element of a sorted permutation is an element of the input whose key is no smaller than any other |
| EptsCalculations.AliveAtCases | api/src/main/java/org/openmrs/module/eptsreports/reporting/calculation/EptsCalculations.java:47 | a patient not marked dead is alive; a dead patient is alive only if a death date exists and is after now (a null death date counts as earliest) |
| EptsCalculations.CompareWithNullAsEarliest | api/src/main/java/org/openmrs/module/eptsreports/reporting/calculation/EptsCalculations.java:47 | the comparison is positive iff the date is present and later than the other, zero iff it equals it, and negative for a null date |
| EptsCalculations.Alive | api/src/main/java/org/openmrs/module/eptsreports/reporting/calculation/EptsCalculations.java:38-52 | one result for every cohort patient and no other; false without a vital status; true when not dead; when dead, true iff the death date is after now |
| EptsCalculations.Living | api/src/main/java/org/openmrs/module/eptsreports/reporting/calculation/EptsCalculations.java:176-178 | the living set is exactly the cohort patients who are alive |
| EptsCalculations.PatientsThatPass | api/src/main/java/org/openmrs/module/eptsreports/reporting/calculation/EptsCalculations.java:177 | the passing patients are exactly the result-map keys whose value is true |
| RoutineForAdultsAndChildren.TakenWithin | api/src/main/java/org/openmrs/module/eptsreports/reporting/calculation/pvls/RoutineForAdultsAndChildrenCalculation.java:101-106 | the window holds only viral loads of the list dated strictly between lower and now, and is no longer than the list |
| RoutineForAdultsAndChildren.TakenWithinKeepsEveryMatch | api/src/main/java/org/openmrs/module/eptsreports/reporting/calculation/pvls/RoutineForAdultsAndChildrenCalculation.java:101-106 | every viral load of the list dated strictly between lower and now is in the window |
| RoutineForAdultsAndChildren.CollectTakenWithin | api/src/main/java/org/openmrs/module/eptsreports/reporting/calculation/pvls/RoutineForAdultsAndChildrenCalculation.java:99-106 | the collecting loop builds exactly the window |
| RoutineForAdultsAndChildren.HasVlBetween | api/src/main/java/org/openmrs/module/eptsreports/reporting/calculation/pvls/RoutineForAdultsAndChildrenCalculation.java:172-179 | the scan reports true iff some viral load is dated strictly between the follow-up date and the latest viral load date |
| RoutineForAdultsAndChildren.FollowUpDate | api/src/main/java/org/openmrs/module/eptsreports/reporting/calculation/pvls/RoutineForAdultsAndChildrenCalculation.java:156-162 | a dated first adult encounter gives the follow-up date; otherwise it is the paediatric encounter's; null iff neither is present with a date |
| RoutineForAdultsAndChildren.OnRoutine | api/src/main/java/org/openmrs/module/eptsreports/reporting/calculation/pvls/RoutineForAdultsAndChildrenCalculation.java:80-185 | the verdict the loop puts in the result map; true only with a baseline whose latest viral load lies strictly inside the 12 months before now and a non-empty window |
| RoutineForAdultsAndChildren.EvaluatePatient | api/src/main/java/org/openmrs/module/eptsreports/reporting/calculation/pvls/RoutineForAdultsAndChildrenCalculation.java:80-185 | the per-patient loop body computes the routine-monitoring verdict OnRoutine |
| RoutineForAdultsAndChildren.Evaluate | api/src/main/java/org/openmrs/module/eptsreports/reporting/calculation/pvls/RoutineForAdultsAndChildrenCalculation.java:58-189 | one result per cohort patient and no other, each the OnRoutine verdict for that patient's data |
| RoutineForAdultsAndChildren.NoBaselineNotOnRoutine | api/src/main/java/org/openmrs/module/eptsreports/reporting/calculation/pvls/RoutineForAdultsAndChildrenCalculation.java:93 | without an ART start date or a dated last viral load the patient is not on routine |
| RoutineForAdultsAndChildren.WindowContents | api/src/main/java/org/openmrs/module/eptsreports/reporting/calculation/pvls/RoutineForAdultsAndChildrenCalculation.java:94-108 | the window holds only viral loads dated strictly inside the 12 months before now; it is non-empty only with a baseline whose latest viral load is strictly inside that period, and then it holds every viral load so dated |
| RoutineForAdultsAndChildren.EmptyWindowNotOnRoutine | api/src/main/java/org/openmrs/module/eptsreports/reporting/calculation/pvls/RoutineForAdultsAndChildrenCalculation.java:112-148 | with no viral load in the window no criterion applies and the patient is not on routine |
| RoutineForAdultsAndChildren.CriterionAExact | api/src/main/java/org/openmrs/module/eptsreports/reporting/calculation/pvls/RoutineForAdultsAndChildrenCalculation.java:112-123 | with exactly one viral load in the window the patient is on routine iff it is more than 6 and at most 9 months after ART start, or criterion (c) holds |
| RoutineForAdultsAndChildren.CriterionBExact | api/src/main/java/org/openmrs/module/eptsreports/reporting/calculation/pvls/RoutineForAdultsAndChildrenCalculation.java:126-145 | with two or more, after sorting by obsId the last two carry the largest obsIds, and the patient is on routine iff the previous is below 1000, dated before the current and 12 to 15 months before it, or criterion (c) holds |
| RoutineForAdultsAndChildren.CriterionCDecidesLast | api/src/main/java/org/openmrs/module/eptsreports/reporting/calculation/pvls/RoutineForAdultsAndChildrenCalculation.java:148-182 | when (a) and (b) fail, on routine iff a follow-up date exists, the last regimen change is dated before the latest viral load, and no viral load lies strictly between the follow-up date and the latest viral load |
| RoutineForAdultsAndChildren.SpoilerCancelsCriterionC | api/src/main/java/org/openmrs/module/eptsreports/reporting/calculation/pvls/RoutineForAdultsAndChildrenCalculation.java:173-179 | one viral load between the follow-up date and the latest viral load makes the result false once (a) and (b) fail |
| RoutineForAdultsAndChildren.AdultFollowUpOverridesPaediatric | api/src/main/java/org/openmrs/module/eptsreports/reporting/calculation/pvls/RoutineForAdultsAndChildrenCalculation.java:156-162 | when the first adult encounter is dated, the paediatric encounter does not affect the result |
| RoutineForAdultsAndChildren.PaediatricFollowUpIsFallback | api/src/main/java/org/openmrs/module/eptsreports/reporting/calculation/pvls/RoutineForAdultsAndChildrenCalculation.java:156-162 | when the adult encounter or its date is missing, the paediatric encounter's date is used as the follow-up date |
| RoutineForAdultsAndChildren.SingleResultAtSevenMonths | api/src/main/java/org/openmrs/module/eptsreports/reporting/calculation/pvls/RoutineForAdultsAndChildrenCalculation.java:112-123 | ART start on 2020-01-01 and a single viral load on 2020-08-15, 7 whole months later, is routine monitoring |
| RoutineForAdultsAndChildren.SingleResultAtNineWholeMonths | api/src/main/java/org/openmrs/module/eptsreports/reporting/calculation/pvls/RoutineForAdultsAndChildrenCalculation.java:112-123 | a single viral load on 2020-10-15, 9 whole months after ART start, is routine monitoring, since the test accepts 9 months |
| RoutineForAdultsAndChildren.SingleResultAtTenMonthsNotRoutine | api/src/main/java/org/openmrs/module/eptsreports/reporting/calculation/pvls/RoutineForAdultsAndChildrenCalculation.java:112-123 | a single viral load 10 whole months after ART start, without a regimen change, is not routine monitoring |
| RoutineForAdultsAndChildren.LessThanAYearApart | api/src/main/java/org/openmrs/module/eptsreports/reporting/calculation/pvls/RoutineForAdultsAndChildrenCalculation.java:94-108 | on a calendar where a gap of 12 months means the later date is at least 12 months on, two dates strictly inside the 12 months before now are less than 12 months apart |
| RoutineForAdultsAndChildren.CriterionBUnreachable | api/src/main/java/org/openmrs/module/eptsreports/reporting/calculation/pvls/RoutineForAdultsAndChildrenCalculation.java:126-145 | on such a calendar criterion (b) never holds, because both results it compares come from the 12-month window and cannot be 12 to 15 months apart |
| CompletedIsoniazidProphylaxis.GetDateParameter | api/src/main/java/org/openmrs/module/eptsreports/reporting/calculation/prev/CompletedIsoniazidProphylaticTreatmentCalculation.java:170-182 | a non-null supplied parameter wins; otherwise the context cache value is used; null iff neither gives one |
| CompletedIsoniazidProphylaxis.UsageWithin | api/src/main/java/org/openmrs/module/eptsreports/reporting/calculation/prev/CompletedIsoniazidProphylaticTreatmentCalculation.java:147-152 | the counted answers are usage obs dated within [start, start + 7 months], no more than the list |
| CompletedIsoniazidProphylaxis.UsageWithinKeepsEveryMatch | api/src/main/java/org/openmrs/module/eptsreports/reporting/calculation/prev/CompletedIsoniazidProphylaticTreatmentCalculation.java:147-152 | every usage obs dated in that range is counted |
| CompletedIsoniazidProphylaxis.IsoniazidUsageEndDate | api/src/main/java/org/openmrs/module/eptsreports/reporting/calculation/prev/CompletedIsoniazidProphylaticTreatmentCalculation.java:156-161 | the usage window ends 7 calendar months after the start date |
| CompletedIsoniazidProphylaxis.DateFromObs | api/src/main/java/org/openmrs/module/eptsreports/reporting/calculation/prev/CompletedIsoniazidProphylaticTreatmentCalculation.java:163-168 | the date is present iff the obs and its value date are, and is then that value date |
| CompletedIsoniazidProphylaxis.Completed | api/src/main/java/org/openmrs/module/eptsreports/reporting/calculation/prev/CompletedIsoniazidProphylaticTreatmentCalculation.java:117-135 | a patient completes only with a start date, consistent dates and, when there is an end date, at least 180 days between the two |
| CompletedIsoniazidProphylaxis.CalculateNumberOfYesAnswers | api/src/main/java/org/openmrs/module/eptsreports/reporting/calculation/prev/CompletedIsoniazidProphylaticTreatmentCalculation.java:140-161 | the counting loop returns the number of usage answers in the 7 months from the start date, at most the list length |
| CompletedIsoniazidProphylaxis.Evaluate | api/src/main/java/org/openmrs/module/eptsreports/reporting/calculation/prev/CompletedIsoniazidProphylaticTreatmentCalculation.java:63-138 | the result map holds true exactly for the cohort patients who completed prophylaxis, with the observation windows taken from the resolved date parameters |
| CompletedIsoniazidProphylaxis.InconsistentNeverCompletes | api/src/main/java/org/openmrs/module/eptsreports/reporting/calculation/prev/CompletedIsoniazidProphylaticTreatmentCalculation.java:117-120 | a start after the end, or an end without a start, never completes |
| CompletedIsoniazidProphylaxis.BothDatesBranch | api/src/main/java/org/openmrs/module/eptsreports/reporting/calculation/prev/CompletedIsoniazidProphylaticTreatmentCalculation.java:121-127 | with both dates in order, completed iff the interval has at least 180 whole days, whatever the usage answers |
| CompletedIsoniazidProphylaxis.StartOnlyBranch | api/src/main/java/org/openmrs/module/eptsreports/reporting/calculation/prev/CompletedIsoniazidProphylaticTreatmentCalculation.java:128-133 | with a start date only, completed iff at least 6 usage answers fall in the 7 months from the start |
| CompletedIsoniazidProphylaxis.OnlyValueDatetimesMatter | api/src/main/java/org/openmrs/module/eptsreports/reporting/calculation/prev/CompletedIsoniazidProphylaticTreatmentCalculation.java:163-168 | the start and end obs contribute only their value dates |
| CompletedIsoniazidProphylaxis.MissingObsIsNullDate | api/src/main/java/org/openmrs/module/eptsreports/reporting/calculation/prev/CompletedIsoniazidProphylaticTreatmentCalculation.java:163-168 | a missing start obs gives a null start date, so the patient never completes |
| CompletedIsoniazidProphylaxis.HalfYearCompletes | api/src/main/java/org/openmrs/module/eptsreports/reporting/calculation/prev/CompletedIsoniazidProphylaticTreatmentCalculation.java:123-127 | the boundary case: a start on 2020-01-01 and an end on 2020-06-29, exactly 180 whole days later, completes |
| CompletedIsoniazidProphylaxis.JustUnderHalfYearDoesNotComplete | api/src/main/java/org/openmrs/module/eptsreports/reporting/calculation/prev/CompletedIsoniazidProphylaticTreatmentCalculation.java:123-127 | one millisecond less is 179 whole days, and the patient does not complete |
| PregnantDate.LastQualifyingIsLast | api/src/main/java/org/openmrs/module/eptsreports/reporting/calculation/pvls/PregnantDateCalculation.java:160-168 | a kind of evidence yields null iff none of its dates lies in [viral load − 9 months, viral load], and otherwise the date of the last one that does |
| PregnantDate.InPregnantViralLoadRange | api/src/main/java/org/openmrs/module/eptsreports/reporting/calculation/pvls/PregnantDateCalculation.java:205-209 | a date in range is never after the viral load, and a date after it or before the 9-month start is out of range |
| PregnantDate.PregnancyRangeIncludesBothEnds | api/src/main/java/org/openmrs/module/eptsreports/reporting/calculation/pvls/PregnantDateCalculation.java:205-209 | both ends of the range are included: the viral-load date itself and the date 9 months before it |
| PregnantDate.MaxDate | api/src/main/java/org/openmrs/module/eptsreports/reporting/calculation/pvls/PregnantDateCalculation.java:141-153 | the most recent date is null iff all are null, otherwise one of them and no earlier than any other |
| PregnantDate.IsPregnantDate | api/src/main/java/org/openmrs/module/eptsreports/reporting/calculation/pvls/PregnantDateCalculation.java:160-168 | the loop returns the encounter date of the last obs in the 9-month range; it also models the identical isPregnantDueDate at lines 182-190 |
| PregnantDate.IsPregnantByWeeks | api/src/main/java/org/openmrs/module/eptsreports/reporting/calculation/pvls/PregnantDateCalculation.java:170-180 | as above, counting only obs with a numeric value |
| PregnantDate.IsPregnantInProgram | api/src/main/java/org/openmrs/module/eptsreports/reporting/calculation/pvls/PregnantDateCalculation.java:192-203 | the enrolment date of the last enrolment at the location, with a date, in the 9-month range |
| PregnantDate.NonNull | api/src/main/java/org/openmrs/module/eptsreports/reporting/calculation/pvls/PregnantDateCalculation.java:141-148 | the resultant list holds exactly the non-null candidate dates |
| PregnantDate.MostRecent | api/src/main/java/org/openmrs/module/eptsreports/reporting/calculation/pvls/PregnantDateCalculation.java:141-153 | filtering, sorting and taking the last element gives the maximum candidate date, or null when there is none |
| PregnantDate.LastOfSortedIsMaxDate | api/src/main/java/org/openmrs/module/eptsreports/reporting/calculation/pvls/PregnantDateCalculation.java:149-152 | the last element of the sorted non-null dates is the maximum |
| PregnantDate.NoNonNullIsNoDate | api/src/main/java/org/openmrs/module/eptsreports/reporting/calculation/pvls/PregnantDateCalculation.java:149 | with no non-null date the result stays null |
| PregnantDate.EvaluatePatient | api/src/main/java/org/openmrs/module/eptsreports/reporting/calculation/pvls/PregnantDateCalculation.java:114-155 | the loop body computes the patient's pregnancy date from the last viral load and the four kinds of evidence |
| PregnantDate.Evaluate | api/src/main/java/org/openmrs/module/eptsreports/reporting/calculation/pvls/PregnantDateCalculation.java:43-158 | one result for each female cohort patient and no other, each computed against the last viral load of the 12 months before now |
| PregnantDate.NoViralLoadNoDate | api/src/main/java/org/openmrs/module/eptsreports/reporting/calculation/pvls/PregnantDateCalculation.java:117 | without a dated last viral load the result is null |
| PregnantDate.ResultIsLatestClassDate | api/src/main/java/org/openmrs/module/eptsreports/reporting/calculation/pvls/PregnantDateCalculation.java:134-153 | the result is null iff all four kinds give null, and otherwise the latest of the four dates |
| PregnantDate.ResultInPregnancyWindow | api/src/main/java/org/openmrs/module/eptsreports/reporting/calculation/pvls/PregnantDateCalculation.java:205-209 | a non-null result lies in [viral load − 9 months, viral load] |
| PregnantDate.LaterEvidenceWins | api/src/main/java/org/openmrs/module/eptsreports/reporting/calculation/pvls/PregnantDateCalculation.java:134-153 | a pregnant obs on 2020-02-01 and a due-date obs on 2020-04-01, with a viral load on 2020-06-01, give 2020-04-01 |
| CohortComposition.Eval | api/src/main/java/org/openmrs/module/eptsreports/reporting/library/cohorts/TxNewCohortQueries.java:172-175 | a composition evaluates within the base cohort; NOT is the complement in it |
| CohortComposition.EvalMeansHolds | api/src/main/java/org/openmrs/module/eptsreports/reporting/library/cohorts/TxNewCohortQueries.java:172-175 | a patient is selected iff it is in the base cohort and the boolean reading of the composition string holds for it |
| CohortComposition.Bind | api/src/main/java/org/openmrs/module/eptsreports/reporting/library/cohorts/TxNewCohortQueries.java:142-144 | a mapping binds exactly its target parameters, each to the value of its source parameter when targets are distinct |
| CohortComposition.SplitLast | api/src/main/java/org/openmrs/module/eptsreports/reporting/library/cohorts/TxNewCohortQueries.java:142-144 | the targets and sources of a mapping are those of its prefix plus those of its last assignment |
| CohortComposition.SearchMembers | api/src/main/java/org/openmrs/module/eptsreports/reporting/library/cohorts/TxNewCohortQueries.java:140-170 | each registered search key yields a member set, and no other key does |
| CohortComposition.SearchMemberAt | api/src/main/java/org/openmrs/module/eptsreports/reporting/library/cohorts/TxNewCohortQueries.java:140-170 | a search's members are its definition evaluated with its mapping bound to the composition's parameters |
| CohortComposition.EvaluateComposition | api/src/main/java/org/openmrs/module/eptsreports/reporting/library/cohorts/TxNewCohortQueries.java:172-175 | a well-formed composition can be evaluated with its parameters bound, and selects within the base cohort when its searches do |
| CohortComposition.EvaluateCompositionMeansHolds | api/src/main/java/org/openmrs/module/eptsreports/reporting/library/cohorts/TxNewCohortQueries.java:172-175 | a patient is selected iff it is in the base cohort and the composition's boolean formula holds for it |
| CohortComposition.EvalUnionAnd | api/src/main/java/org/openmrs/module/eptsreports/reporting/library/cohorts/TxNewCohortQueries.java:172-173 | "(A OR B OR C OR D) AND F" names the five searches and denotes (A ∪ B ∪ C ∪ D) ∩ F |
| CohortComposition.EvalAndNot | api/src/main/java/org/openmrs/module/eptsreports/reporting/library/cohorts/TxNewCohortQueries.java:209 | "A NOT (B OR C)" names the three searches and denotes A minus (B ∪ C) within the base cohort |
| CohortComposition.CompositionCohortDefinition.constructor | api/src/main/java/org/openmrs/module/eptsreports/reporting/library/cohorts/TxNewCohortQueries.java:186 | a new definition has no name, description, parameters, searches or composition string |
| CohortComposition.CompositionCohortDefinition.SetName | api/src/main/java/org/openmrs/module/eptsreports/reporting/library/cohorts/TxNewCohortQueries.java:187 | sets the name and changes nothing else |
| CohortComposition.CompositionCohortDefinition.SetDescription | api/src/main/java/org/openmrs/module/eptsreports/reporting/library/cohorts/TxNewCohortQueries.java:135 | sets the description and changes nothing else |
| CohortComposition.CompositionCohortDefinition.AddParameter | api/src/main/java/org/openmrs/module/eptsreports/reporting/library/cohorts/TxNewCohortQueries.java:136-138 | appends one parameter and changes nothing else |
| CohortComposition.CompositionCohortDefinition.AddSearch | api/src/main/java/org/openmrs/module/eptsreports/reporting/library/cohorts/TxNewCohortQueries.java:205-207 | registers (or replaces) one search under its key and changes nothing else |
| CohortComposition.CompositionCohortDefinition.SetCompositionString | api/src/main/java/org/openmrs/module/eptsreports/reporting/library/cohorts/TxNewCohortQueries.java:175 | sets the composition string and changes nothing else |
| TxNewCohortQueries.GetTxNewBreastfeedingComposition | api/src/main/java/org/openmrs/module/eptsreports/reporting/library/cohorts/TxNewCohortQueries.java:133-177 | returns a new definition with the description, three parameters, five mapped searches and composition string of the breastfeeding composition |
| TxNewCohortQueries.GetTxNewCompositionCohort | api/src/main/java/org/openmrs/module/eptsreports/reporting/library/cohorts/TxNewCohortQueries.java:185-211 | returns a new definition named after the argument, with TX_NEW's three parameters, three mapped searches and composition string |
| TxNewCohortQueries.PatientsWithUpdatedDepartureInART | api/src/main/java/org/openmrs/module/eptsreports/reporting/library/cohorts/TxNewCohortQueries.java:61-81 | a date-obs definition with time modifier ANY, operators >= and <=, declaring exactly value1, value2 and locationList |
| TxNewCohortQueries.PatientsPregnantEnrolledOnART | api/src/main/java/org/openmrs/module/eptsreports/reporting/library/cohorts/TxNewCohortQueries.java:90-106 | an SQL definition named patientsPregnantEnrolledOnART declaring exactly startDate, endDate and location |
| TxNewCohortQueries.PatientsWhoGaveBirthWithinReportingPeriod | api/src/main/java/org/openmrs/module/eptsreports/reporting/library/cohorts/TxNewCohortQueries.java:114-125 | an SQL definition named patientsWhoGaveBirthWithinReportingPeriod declaring exactly startDate, endDate and location |
| TxNewCohortQueries.SubDefinitionParameterKinds | api/src/main/java/org/openmrs/module/eptsreports/reporting/library/cohorts/TxNewCohortQueries.java:75-78 | in each sub-definition the location parameter is the only one of location type; the others are dates |
| TxNewCohortQueries.DateObsCohort | api/src/main/java/org/openmrs/module/eptsreports/reporting/library/cohorts/TxNewCohortQueries.java:62-78 | the date-obs definition selects only patients with obs, and with operators >= and <= exactly those with an obs at the location dated from value1 to value2, both included |
| TxNewCohortQueries.ThreeNames | api/src/main/java/org/openmrs/module/eptsreports/reporting/library/cohorts/TxNewCohortQueries.java:136-138 | three declared parameters have exactly their three names |
| TxNewCohortQueries.ThreeAssignments | api/src/main/java/org/openmrs/module/eptsreports/reporting/library/cohorts/TxNewCohortQueries.java:144 | a three-assignment mapping has exactly its three targets and three sources |
| TxNewCohortQueries.CompositionParametersDeclared | api/src/main/java/org/openmrs/module/eptsreports/reporting/library/cohorts/TxNewCohortQueries.java:188-190 | both compositions declare exactly onOrAfter, onOrBefore and location |
| TxNewCohortQueries.SearchesWellFormed | api/src/main/java/org/openmrs/module/eptsreports/reporting/library/cohorts/TxNewCohortQueries.java:140-170 | every search's mapping assigns each target once, uses only the composition's parameters, and for the definitions built here covers their declared parameters |
| TxNewCohortQueries.ArgumentsCover | api/src/main/java/org/openmrs/module/eptsreports/reporting/library/cohorts/TxNewCohortQueries.java:188-203 | values for onOrAfter, onOrBefore and location cover every parameter and every mapping source of both compositions |
| TxNewCohortQueries.BreastfeedingWellFormed | api/src/main/java/org/openmrs/module/eptsreports/reporting/library/cohorts/TxNewCohortQueries.java:133-177 | every name in the breastfeeding composition string is a registered, well-formed search |
| TxNewCohortQueries.TxNewWellFormed | api/src/main/java/org/openmrs/module/eptsreports/reporting/library/cohorts/TxNewCohortQueries.java:185-211 | every name in the TX_NEW composition string is a registered, well-formed search |
| TxNewCohortQueries.MappingsMatchDeclaredParameters | api/src/main/java/org/openmrs/module/eptsreports/reporting/library/cohorts/TxNewCohortQueries.java:72-78 | the DATAPARTO and LACTANTEPROGRAMA mappings assign exactly the parameters their definitions declare, and FEMININO's empty mapping text is the empty list of assignments |
| TxNewCohortQueries.BreastfeedingIsFemaleUnion | api/src/main/java/org/openmrs/module/eptsreports/reporting/library/cohorts/TxNewCohortQueries.java:140-175 | the breastfeeding cohort is (DATAPARTO ∪ INICIOLACTANTE ∪ LACTANTEPROGRAMA ∪ LACTANTE) ∩ FEMININO, so only female patients |
| TxNewCohortQueries.DatapartoMembers | api/src/main/java/org/openmrs/module/eptsreports/reporting/library/cohorts/TxNewCohortQueries.java:140-144 | DATAPARTO evaluates the delivery-date definition with value1, value2 and locationList bound to onOrAfter, onOrBefore and location |
| TxNewCohortQueries.DatapartoBinding | api/src/main/java/org/openmrs/module/eptsreports/reporting/library/cohorts/TxNewCohortQueries.java:144 | the DATAPARTO mapping binds value1, value2 and locationList to onOrAfter, onOrBefore and location |
| TxNewCohortQueries.TxNewExcludesTransfersAndRestarts | api/src/main/java/org/openmrs/module/eptsreports/reporting/library/cohorts/TxNewCohortQueries.java:192-209 | TX_NEW is startedART minus (transferredIn ∪ restartedTreatment) within the base cohort: a subset of startedART disjoint from both |
| TxNewCohortQueries.DeliveryDateWindowInclusive | api/src/main/java/org/openmrs/module/eptsreports/reporting/library/cohorts/TxNewCohortQueries.java:61-81 | through the DATAPARTO mapping, a patient qualifies iff some delivery-date obs at the location has onOrAfter ≤ date ≤ onOrBefore, both ends included |
| TxNewCohortQueries.TxNewExample | api/src/main/java/org/openmrs/module/eptsreports/reporting/library/cohorts/TxNewCohortQueries.java:209 | with {1,2,3} started, 2 transferred in and 3 restarted, TX_NEW in {1,2,3,4} is {1} |

## Left out

- Data retrieval: the calculation services, the reporting data definitions and the
  SQL queries are not part of this model. Their results are inputs. The location
  and encounter-type filters they apply are assumed to be applied to those inputs.
- The concept, encounter-type and programme metadata are not part of this model.
  They only select which data is fetched.
- InitialArtStartDateCalculation, which gives the routine calculation its ART start
  date, is not part of this model. Its result is an input.
- Calendar arithmetic (`addMonths`, `Calendar.add`, Joda month differences) is a
  parameter: time zones, daylight saving and month-end rounding are not modelled.
- ClinicalData.Obs: a numeric value (Java `Double`) is a `real`. No behaviour is
  lost: the calculations only test the value for null and compare it with 1000, and
  `real` and `Double` agree on both tests for every finite value.
- ClinicalData.WholeDays: Joda's `Days.daysIn` counts local calendar days, while the
  model counts fixed 24-hour days. The two differ across a daylight-saving change.
- Sorting.SortBy: the model does not prove that the sort is stable. Stability matters
  only for criterion (b) when two viral loads share an obsId, and obsIds are distinct
  keys.
- Criterion (b) of the routine calculation asks for a 12 to 15 month gap, but both
  results it compares come from the window strictly inside the 12 months before
  now. RoutineForAdultsAndChildren.CriterionBUnreachable proves that (b) never
  holds on a calendar with three properties:
  - a gap of 12 or more months means the later date is at or after the earlier
    date plus 12 months;
  - adding 12 months is monotone;
  - going back 12 months from now and then forward 12 months does not land before
    now.
- (b) can hold only where month-end clamping breaks the third property. For
  example, when now is 29 February, going back 12 months gives 28 February of the
  year before, and going forward again gives 28 February, which is before now. Two
  results then, such as 2019-02-28 at 06:00 and 2020-02-28 at 23:00, can both lie in
  the window and be 12 whole months apart.
- Outside such a case, a patient with 800 copies on 2020-01-01 and a later result on
  2021-02-01, 13 months apart, is never on routine through (b). The model keeps the
  code's behaviour and does not guess at the intended window.
- Criterion (a) tests `monthsSince > 6 && <= 9` on whole months, so a result 9.5
  months after ART start counts as 9 months and passes
  (RoutineForAdultsAndChildren.SingleResultAtNineWholeMonths). The model keeps the
  code's behaviour.
- The composition-string parser of the reporting framework is not part of this
  model. Each composition string is given as its expression (`BreastfeedingExpr`,
  `TxNewExpr`), and a bare `NOT` between two operands is read as "and not".
- `EptsReportUtils.map` and `Mapped.map` parse `key=${param}` strings. Those parsers
  are not part of this model, so each mapping is given as its list of assignments.
- The parameters that the library definitions (hasCodedObs, getStartedArtOnPeriod,
  the transfer and restart queries, the female cohort) declare are not part of
  this model. Their searches are checked only against the composition's own
  parameters.
- The three sub-definition builders are modelled as the values they build. Only
  the composition definition is a mutable class.
- Result wrappers, memoisation and the calculation context are reduced to plain
  maps and values.
- Runtime exceptions are not modelled:
  - a null dereference the source performs without a check is a precondition;
  - a `ClassCastException` on a wrongly typed parameter is excluded by typing.
- PregnantDate.Evaluate: the context location is taken to be present, since a
  missing location would make every programme-enrolment comparison throw.
- PregnantDate.Evaluate: the iteration order over the female set does not matter
  to the result map, and is not modelled.
- RoutineForAdultsAndChildren.CriterionAExact: criterion (a) does not decide alone,
  because the source falls through to criterion (c). The lemma therefore states
  "(a) or (c)", which is what the code computes.
