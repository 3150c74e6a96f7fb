/** TxNewCohortQueries: the TX_NEW composition (patients who started ART in the period,
    excluding those transferred in or restarting), the breastfeeding composition, and
    the sub-definitions built here that they use. */
module TxNewCohortQueries {
  import opened Wrappers
  import opened ClinicalData
  import opened CohortComposition

  // ---------------------------------------------------------------------------
  // Sub-definitions

  const Value1 := Parameter("value1", "After Date", DateParameter)
  const Value2 := Parameter("value2", "Before Date", DateParameter)
  const LocationList := Parameter("locationList", "Location", LocationParameter)
  const StartDate := Parameter("startDate", "Start Date", DateParameter)
  const EndDate := Parameter("endDate", "End Date", DateParameter)
  const SubLocation := Parameter("location", "Location", LocationParameter)

  /** `getPatientsWithUpdatedDepartureInART`: patients with any prior-delivery-date obs
      whose date is >= value1 and <= value2. */
  function PatientsWithUpdatedDepartureInART(): (d: Definition)
    ensures d.DateObsDefinition? && d.timeModifier == Any
    ensures d.operator1 == GreaterEqual && d.operator2 == LessEqual
    ensures ParameterNames(d.parameters) == {"value1", "value2", "locationList"}
  {
    ThreeNames([Value1, Value2, LocationList]);
    DateObsDefinition("patientsWithUpdatedDepartureInART", Any, GreaterEqual, LessEqual, [Value1, Value2, LocationList])
  }

  /** `getPatientsPregnantEnrolledOnART` (its SQL is not part of this model). */
  function PatientsPregnantEnrolledOnART(): (d: Definition)
    ensures d.SqlDefinition? && d.name == "patientsPregnantEnrolledOnART"
    ensures ParameterNames(d.parameters) == {"startDate", "endDate", "location"}
  {
    ThreeNames([StartDate, EndDate, SubLocation]);
    SqlDefinition("patientsPregnantEnrolledOnART", [StartDate, EndDate, SubLocation])
  }

  /** `getPatientsWhoGaveBirthWithinReportingPeriod` (its SQL is not part of this model). */
  function PatientsWhoGaveBirthWithinReportingPeriod(): (d: Definition)
    ensures d.SqlDefinition? && d.name == "patientsWhoGaveBirthWithinReportingPeriod"
    ensures ParameterNames(d.parameters) == {"startDate", "endDate", "location"}
  {
    ThreeNames([StartDate, EndDate, SubLocation]);
    SqlDefinition("patientsWhoGaveBirthWithinReportingPeriod", [StartDate, EndDate, SubLocation])
  }

  /** The location parameter is the only one of location type; the others are dates. */
  lemma SubDefinitionParameterKinds()
    ensures forall q :: q in PatientsWithUpdatedDepartureInART().parameters ==>
      (q.kind == LocationParameter <==> q.name == "locationList")
    ensures forall q :: q in PatientsPregnantEnrolledOnART().parameters ==>
      (q.kind == LocationParameter <==> q.name == "location")
    ensures forall q :: q in PatientsWhoGaveBirthWithinReportingPeriod().parameters ==>
      (q.kind == LocationParameter <==> q.name == "location")
  {
  }

  // ---------------------------------------------------------------------------
  // Mappings

  /** `value1=${onOrAfter},value2=${onOrBefore},locationList=${location}` */
  const DatapartoMappings := [Assignment("value1", "onOrAfter"), Assignment("value2", "onOrBefore"),
                              Assignment("locationList", "location")]
  /** `onOrAfter=${onOrAfter},onOrBefore=${onOrBefore},locationList=${location}` */
  const CodedObsMappings := [Assignment("onOrAfter", "onOrAfter"), Assignment("onOrBefore", "onOrBefore"),
                             Assignment("locationList", "location")]
  /** `startDate=${onOrAfter},endDate=${onOrBefore},location=${location}` */
  const ProgramMappings := [Assignment("startDate", "onOrAfter"), Assignment("endDate", "onOrBefore"),
                            Assignment("location", "location")]
  /** `onOrAfter=${onOrAfter},onOrBefore=${onOrBefore},location=${location}` */
  const PeriodMappings := [Assignment("onOrAfter", "onOrAfter"), Assignment("onOrBefore", "onOrBefore"),
                           Assignment("location", "location")]

  const OnOrAfter := Parameter("onOrAfter", "onOrAfter", DateParameter)
  const OnOrBefore := Parameter("onOrBefore", "onOrBefore", DateParameter)
  const CompositionLocation := Parameter("location", "location", LocationParameter)
  const CompositionParameters := [OnOrAfter, OnOrBefore, CompositionLocation]

  // ---------------------------------------------------------------------------
  // The breastfeeding composition

  const InicioLactante := LibraryDefinition("hasCodedObs(criteriaForArtStart, FIRST, IN, [adultoSeguimento], [breastfeeding])")
  const Lactante := LibraryDefinition("hasCodedObs(breastfeeding, LAST, IN, [adultoSeguimento], [yes])")
  const Feminino := LibraryDefinition("FemaleCohort()")

  const BreastfeedingCompositionString := "(DATAPARTO OR INICIOLACTANTE OR LACTANTEPROGRAMA OR LACTANTE) AND FEMININO"

  /** What `getTxNewBreastfeedingComposition` builds; its name is never set. */
  function TxNewBreastfeedingComposition(): Composition {
    Composition(
      None, Some("breastfeedingComposition"), CompositionParameters,
      map[
        "DATAPARTO" := Mapped(PatientsWithUpdatedDepartureInART(), DatapartoMappings),
        "INICIOLACTANTE" := Mapped(InicioLactante, CodedObsMappings),
        "LACTANTEPROGRAMA" := Mapped(PatientsWhoGaveBirthWithinReportingPeriod(), ProgramMappings),
        "FEMININO" := Mapped(Feminino, []),
        "LACTANTE" := Mapped(Lactante, CodedObsMappings)],
      Some(BreastfeedingCompositionString))
  }

  /** The set meaning of `BreastfeedingCompositionString`. */
  const BreastfeedingExpr :=
    And(Or(Or(Or(Search("DATAPARTO"), Search("INICIOLACTANTE")), Search("LACTANTEPROGRAMA")), Search("LACTANTE")),
        Search("FEMININO"))

  method GetTxNewBreastfeedingComposition() returns (cd: CompositionCohortDefinition)
    ensures fresh(cd) && cd.Value() == TxNewBreastfeedingComposition()
  {
    cd := new CompositionCohortDefinition();
    cd.SetDescription("breastfeedingComposition");
    cd.AddParameter(OnOrAfter);
    cd.AddParameter(OnOrBefore);
    cd.AddParameter(CompositionLocation);
    cd.AddSearch("DATAPARTO", Mapped(PatientsWithUpdatedDepartureInART(), DatapartoMappings));
    cd.AddSearch("INICIOLACTANTE", Mapped(InicioLactante, CodedObsMappings));
    cd.AddSearch("LACTANTEPROGRAMA", Mapped(PatientsWhoGaveBirthWithinReportingPeriod(), ProgramMappings));
    cd.AddSearch("FEMININO", Mapped(Feminino, []));
    cd.AddSearch("LACTANTE", Mapped(Lactante, CodedObsMappings));
    cd.SetCompositionString(BreastfeedingCompositionString);
  }

  // ---------------------------------------------------------------------------
  // The TX_NEW composition

  const StartedArt := LibraryDefinition("getStartedArtOnPeriod(false, true)")
  const TransferredIn := LibraryDefinition("getPatientsTransferredFromOtherHealthFacility()")
  const RestartedTreatment := LibraryDefinition("getPatientsWhoRestartedTreatment()")
  /** `onOrAfter=${onOrAfter},onOrBefore=${onOrBefore},locationList=${location}` */
  const RestartedMappings := CodedObsMappings

  const TxNewCompositionString := "startedART NOT (transferredIn OR restartedTreatment)"

  /** What `getTxNewCompositionCohort(cohortName)` builds. */
  function TxNewCompositionCohort(cohortName: string): Composition {
    Composition(
      Some(cohortName), None, CompositionParameters,
      map[
        "startedART" := Mapped(StartedArt, PeriodMappings),
        "transferredIn" := Mapped(TransferredIn, PeriodMappings),
        "restartedTreatment" := Mapped(RestartedTreatment, RestartedMappings)],
      Some(TxNewCompositionString))
  }

  /** The set meaning of `TxNewCompositionString`, reading the bare `NOT` as `AND NOT`. */
  const TxNewExpr := And(Search("startedART"), Not(Or(Search("transferredIn"), Search("restartedTreatment"))))

  method GetTxNewCompositionCohort(cohortName: string) returns (txNewComposition: CompositionCohortDefinition)
    ensures fresh(txNewComposition) && txNewComposition.Value() == TxNewCompositionCohort(cohortName)
  {
    txNewComposition := new CompositionCohortDefinition();
    txNewComposition.SetName(cohortName);
    txNewComposition.AddParameter(OnOrAfter);
    txNewComposition.AddParameter(OnOrBefore);
    txNewComposition.AddParameter(CompositionLocation);
    var startedART := Mapped(StartedArt, PeriodMappings);
    var transferredIn := Mapped(TransferredIn, PeriodMappings);
    var restartedTreatment := Mapped(RestartedTreatment, RestartedMappings);
    txNewComposition.AddSearch("startedART", startedART);
    txNewComposition.AddSearch("transferredIn", transferredIn);
    txNewComposition.AddSearch("restartedTreatment", restartedTreatment);
    txNewComposition.SetCompositionString(TxNewCompositionString);
  }

  // ---------------------------------------------------------------------------
  // Evaluation

  /** Values for the three composition parameters. */
  function Arguments(onOrAfter: Date, onOrBefore: Date, location: LocationId): map<string, ParamValue> {
    map["onOrAfter" := DateValue(onOrAfter), "onOrBefore" := DateValue(onOrBefore), "location" := LocationValue(location)]
  }

  /** A prior-delivery-date obs: its date value and where it was recorded. */
  datatype DeliveryObs = DeliveryObs(valueDatetime: Date, location: LocationId)

  function Compare(op: RangeComparator, value: Date, bound: Date): bool {
    match op
    case GreaterEqual => value >= bound
    case LessEqual => value <= bound
  }

  predicate DateObsArguments(bound: map<string, ParamValue>) {
    && "value1" in bound && bound["value1"].DateValue?
    && "value2" in bound && bound["value2"].DateValue?
    && "locationList" in bound && bound["locationList"].LocationValue?
  }

  predicate Passes(d: Definition, bound: map<string, ParamValue>, o: DeliveryObs)
    requires d.DateObsDefinition? && DateObsArguments(bound)
  {
    && o.location == bound["locationList"].location
    && Compare(d.operator1, o.valueDatetime, bound["value1"].date)
    && Compare(d.operator2, o.valueDatetime, bound["value2"].date)
  }

  /** At the bound location, dated from value1 to value2, both ends included. */
  predicate DeliveredWithin(o: DeliveryObs, bound: map<string, ParamValue>)
    requires DateObsArguments(bound)
  {
    o.location == bound["locationList"].location && bound["value1"].date <= o.valueDatetime <= bound["value2"].date
  }

  /** A date-obs definition with time modifier ANY: the patients with some obs at the
      location whose date passes both comparisons. */
  function DateObsCohort(d: Definition, bound: map<string, ParamValue>, obs: map<PatientId, seq<DeliveryObs>>): (r: set<PatientId>)
    requires d.DateObsDefinition? && DateObsArguments(bound)
    ensures r <= obs.Keys
    ensures d.operator1 == GreaterEqual && d.operator2 == LessEqual ==>
      forall p :: p in r <==> p in obs && exists o :: o in obs[p] && DeliveredWithin(o, bound)
  {
    set p | p in obs && exists o :: o in obs[p] && Passes(d, bound, o)
  }

  // ---------------------------------------------------------------------------
  // Well-formedness of the two compositions

  const CompositionParameterNames := {"onOrAfter", "onOrBefore", "location"}
  const BreastfeedingKeys := {"DATAPARTO", "INICIOLACTANTE", "LACTANTEPROGRAMA", "LACTANTE", "FEMININO"}

  lemma ThreeNames(ps: seq<Parameter>)
    requires |ps| == 3
    ensures ParameterNames(ps) == {ps[0].name, ps[1].name, ps[2].name}
  {
    forall n | n in ParameterNames(ps) ensures n in {ps[0].name, ps[1].name, ps[2].name} {
      var i :| 0 <= i < 3 && ps[i].name == n;
    }
  }

  /** A mapping of three assignments: its targets and its sources. */
  lemma ThreeAssignments(m: seq<Assignment>)
    requires |m| == 3
    ensures Targets(m) == {m[0].target, m[1].target, m[2].target}
    ensures Sources(m) == {m[0].source, m[1].source, m[2].source}
  {
    forall t | t in Targets(m) ensures t in {m[0].target, m[1].target, m[2].target} {
      var i :| 0 <= i < 3 && m[i].target == t;
    }
    forall t | t in Sources(m) ensures t in {m[0].source, m[1].source, m[2].source} {
      var i :| 0 <= i < 3 && m[i].source == t;
    }
  }

  lemma CompositionParametersDeclared()
    ensures ParameterNames(CompositionParameters) == CompositionParameterNames
  {
    ThreeNames(CompositionParameters);
  }

  /** Each distinct search used by the two compositions is well formed. */
  lemma SearchesWellFormed()
    ensures SearchWellFormed(Mapped(PatientsWithUpdatedDepartureInART(), DatapartoMappings), CompositionParameterNames)
    ensures SearchWellFormed(Mapped(PatientsWhoGaveBirthWithinReportingPeriod(), ProgramMappings), CompositionParameterNames)
    ensures forall d: Definition :: d.LibraryDefinition? ==>
      && SearchWellFormed(Mapped(d, CodedObsMappings), CompositionParameterNames)
      && SearchWellFormed(Mapped(d, PeriodMappings), CompositionParameterNames)
      && SearchWellFormed(Mapped(d, []), CompositionParameterNames)
  {
    ThreeAssignments(DatapartoMappings);
    ThreeAssignments(ProgramMappings);
    ThreeAssignments(CodedObsMappings);
    ThreeAssignments(PeriodMappings);
    ThreeNames(PatientsWithUpdatedDepartureInART().parameters);
    ThreeNames(PatientsWhoGaveBirthWithinReportingPeriod().parameters);
    assert Sources([]) == {};
  }

  /** Values for onOrAfter, onOrBefore and location cover every mapping of a
      composition declaring those three parameters. */
  lemma ArgumentsCover(c: Composition, onOrAfter: Date, onOrBefore: Date, location: LocationId)
    requires c == TxNewBreastfeedingComposition() || exists name :: c == TxNewCompositionCohort(name)
    ensures WellFormed(c, if c == TxNewBreastfeedingComposition() then BreastfeedingExpr else TxNewExpr)
    ensures ParameterNames(c.parameters) <= Arguments(onOrAfter, onOrBefore, location).Keys
    ensures forall k :: k in c.searches ==> Sources(c.searches[k].mappings) <= Arguments(onOrAfter, onOrBefore, location).Keys
  {
    CompositionParametersDeclared();
    if c == TxNewBreastfeedingComposition() {
      BreastfeedingWellFormed();
    } else {
      var name :| c == TxNewCompositionCohort(name);
      TxNewWellFormed(name);
    }
  }

  // ---------------------------------------------------------------------------
  // Properties

  /** Every name in the breastfeeding composition string is a registered search, and
      every mapping assigns each sub-definition parameter once, uses only onOrAfter,
      onOrBefore and location, and for the sub-definitions built here assigns exactly
      their declared parameters. */
  lemma BreastfeedingWellFormed()
    ensures WellFormed(TxNewBreastfeedingComposition(), BreastfeedingExpr)
  {
    var c := TxNewBreastfeedingComposition();
    CompositionParametersDeclared();
    SearchesWellFormed();
    assert Names(BreastfeedingExpr) == {"DATAPARTO", "INICIOLACTANTE", "LACTANTEPROGRAMA", "LACTANTE", "FEMININO"};
    assert c.searches.Keys == {"DATAPARTO", "INICIOLACTANTE", "LACTANTEPROGRAMA", "FEMININO", "LACTANTE"};
    assert ParameterNames(c.parameters) == CompositionParameterNames;
    forall k | k in c.searches ensures SearchWellFormed(c.searches[k], CompositionParameterNames) {
      assert k == "DATAPARTO" || k == "INICIOLACTANTE" || k == "LACTANTEPROGRAMA" || k == "FEMININO" || k == "LACTANTE";
    }
  }

  /** The same for the TX_NEW composition, whatever its name. */
  lemma TxNewWellFormed(cohortName: string)
    ensures WellFormed(TxNewCompositionCohort(cohortName), TxNewExpr)
  {
    var c := TxNewCompositionCohort(cohortName);
    CompositionParametersDeclared();
    SearchesWellFormed();
    assert Names(TxNewExpr) == {"startedART", "transferredIn", "restartedTreatment"};
    assert c.searches.Keys == {"startedART", "transferredIn", "restartedTreatment"};
  }

  /** The DATAPARTO and LACTANTEPROGRAMA mappings assign exactly the parameters those
      definitions declare; FEMININO's empty mapping text is the empty list of assignments. */
  lemma MappingsMatchDeclaredParameters()
    ensures Targets(DatapartoMappings) == ParameterNames(PatientsWithUpdatedDepartureInART().parameters)
          == {"value1", "value2", "locationList"}
    ensures Targets(ProgramMappings) == ParameterNames(PatientsWhoGaveBirthWithinReportingPeriod().parameters)
          == {"startDate", "endDate", "location"}
    ensures TxNewBreastfeedingComposition().searches["FEMININO"].mappings == []
  {
    ThreeAssignments(DatapartoMappings);
    ThreeAssignments(ProgramMappings);
    ThreeNames(PatientsWithUpdatedDepartureInART().parameters);
    ThreeNames(PatientsWhoGaveBirthWithinReportingPeriod().parameters);
  }

  /** The breastfeeding composition selects (DATAPARTO ∪ INICIOLACTANTE ∪
      LACTANTEPROGRAMA ∪ LACTANTE) ∩ FEMININO, hence only female patients. */
  lemma BreastfeedingIsFemaleUnion(onOrAfter: Date, onOrBefore: Date, location: LocationId,
                                   provider: (Definition, map<string, ParamValue>) -> set<PatientId>,
                                   universe: set<PatientId>)
    ensures
      var c := TxNewBreastfeedingComposition();
      var args := Arguments(onOrAfter, onOrBefore, location);
      var m := SearchMembers(c, args, provider);
      && WellFormed(c, BreastfeedingExpr) && ParameterNames(c.parameters) <= args.Keys
      && BreastfeedingKeys <= m.Keys
      && EvaluateComposition(c, BreastfeedingExpr, args, provider, universe)
         == (m["DATAPARTO"] + m["INICIOLACTANTE"] + m["LACTANTEPROGRAMA"] + m["LACTANTE"]) * m["FEMININO"]
      && EvaluateComposition(c, BreastfeedingExpr, args, provider, universe) <= m["FEMININO"]
      && m["FEMININO"] == provider(Feminino, map[])
  {
    var c := TxNewBreastfeedingComposition();
    var args := Arguments(onOrAfter, onOrBefore, location);
    ArgumentsCover(c, onOrAfter, onOrBefore, location);
    EvalUnionAnd(SearchMembers(c, args, provider), universe,
                 "DATAPARTO", "INICIOLACTANTE", "LACTANTEPROGRAMA", "LACTANTE", "FEMININO");
    SearchMemberAt(c, args, provider, "FEMININO", Mapped(Feminino, []));
  }

  /** The DATAPARTO search evaluates the delivery-date definition with value1, value2
      and locationList bound to onOrAfter, onOrBefore and location. */
  lemma DatapartoMembers(onOrAfter: Date, onOrBefore: Date, location: LocationId,
                         provider: (Definition, map<string, ParamValue>) -> set<PatientId>)
    ensures
      var args := Arguments(onOrAfter, onOrBefore, location);
      var m := SearchMembers(TxNewBreastfeedingComposition(), args, provider);
      && "DATAPARTO" in m
      && m["DATAPARTO"] == provider(PatientsWithUpdatedDepartureInART(),
           map["value1" := DateValue(onOrAfter), "value2" := DateValue(onOrBefore), "locationList" := LocationValue(location)])
  {
    var c := TxNewBreastfeedingComposition();
    var args := Arguments(onOrAfter, onOrBefore, location);
    ArgumentsCover(c, onOrAfter, onOrBefore, location);
    SearchMemberAt(c, args, provider, "DATAPARTO", Mapped(PatientsWithUpdatedDepartureInART(), DatapartoMappings));
    DatapartoBinding(onOrAfter, onOrBefore, location);
  }

  /** What the DATAPARTO mapping binds. */
  lemma DatapartoBinding(onOrAfter: Date, onOrBefore: Date, location: LocationId)
    ensures Sources(DatapartoMappings) <= Arguments(onOrAfter, onOrBefore, location).Keys
    ensures Bind(DatapartoMappings, Arguments(onOrAfter, onOrBefore, location))
         == map["value1" := DateValue(onOrAfter), "value2" := DateValue(onOrBefore), "locationList" := LocationValue(location)]
  {
    ThreeAssignments(DatapartoMappings);
    var bound := Bind(DatapartoMappings, Arguments(onOrAfter, onOrBefore, location));
    assert bound["value1"] == DateValue(onOrAfter);
    assert bound["value2"] == DateValue(onOrBefore);
    assert bound["locationList"] == LocationValue(location);
  }

  /** TX_NEW selects the patients who started ART and are neither transferred in nor
      restarting (within the base cohort): a subset of startedART disjoint from
      transferredIn ∪ restartedTreatment. */
  lemma TxNewExcludesTransfersAndRestarts(cohortName: string, onOrAfter: Date, onOrBefore: Date, location: LocationId,
                                          provider: (Definition, map<string, ParamValue>) -> set<PatientId>,
                                          universe: set<PatientId>)
    ensures
      var c := TxNewCompositionCohort(cohortName);
      var args := Arguments(onOrAfter, onOrBefore, location);
      var started := provider(StartedArt, Bind(PeriodMappings, args));
      var transferred := provider(TransferredIn, Bind(PeriodMappings, args));
      var restarted := provider(RestartedTreatment, Bind(RestartedMappings, args));
      && WellFormed(c, TxNewExpr) && ParameterNames(c.parameters) <= args.Keys
      && EvaluateComposition(c, TxNewExpr, args, provider, universe) == (started * universe) - (transferred + restarted)
      && EvaluateComposition(c, TxNewExpr, args, provider, universe) <= started
      && EvaluateComposition(c, TxNewExpr, args, provider, universe) * (transferred + restarted) == {}
  {
    var c := TxNewCompositionCohort(cohortName);
    var args := Arguments(onOrAfter, onOrBefore, location);
    ArgumentsCover(c, onOrAfter, onOrBefore, location);
    EvalAndNot(SearchMembers(c, args, provider), universe, "startedART", "transferredIn", "restartedTreatment");
    SearchMemberAt(c, args, provider, "startedART", Mapped(StartedArt, PeriodMappings));
    SearchMemberAt(c, args, provider, "transferredIn", Mapped(TransferredIn, PeriodMappings));
    SearchMemberAt(c, args, provider, "restartedTreatment", Mapped(RestartedTreatment, RestartedMappings));
  }

  /** Bound through the DATAPARTO mapping, the delivery-date criterion is
      onOrAfter <= date <= onOrBefore, both ends included, at the given location. */
  lemma DeliveryDateWindowInclusive(onOrAfter: Date, onOrBefore: Date, location: LocationId,
                                    obs: map<PatientId, seq<DeliveryObs>>, p: PatientId)
    ensures var bound := Bind(DatapartoMappings, Arguments(onOrAfter, onOrBefore, location));
      && DateObsArguments(bound)
      && (p in DateObsCohort(PatientsWithUpdatedDepartureInART(), bound, obs) <==>
           p in obs && exists o :: o in obs[p] && o.location == location && onOrAfter <= o.valueDatetime <= onOrBefore)
  {
    DatapartoBinding(onOrAfter, onOrBefore, location);
  }

  /** A worked example: of the patients {1, 2, 3} who started ART, 2 transferred in and
      3 restarted, so TX_NEW is {1}. */
  lemma TxNewExample()
    ensures Eval(TxNewExpr, map["startedART" := {1, 2, 3}, "transferredIn" := {2}, "restartedTreatment" := {3}],
                 {1, 2, 3, 4}) == {1}
  {
  }
}
