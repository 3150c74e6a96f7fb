/** Composition cohort definitions: named searches, each a sub-definition with a
    parameter mapping, combined by a boolean expression over the search names. */
module CohortComposition {
  import opened Wrappers
  import opened ClinicalData

  // ---------------------------------------------------------------------------
  // Boolean expressions over search names and their set meaning

  datatype CohortExpr =
    | Search(key: string)
    | And(left: CohortExpr, right: CohortExpr)
    | Or(left: CohortExpr, right: CohortExpr)
    | Not(operand: CohortExpr)

  /** The search names an expression refers to. */
  function Names(e: CohortExpr): set<string> {
    match e
    case Search(key) => {key}
    case And(l, r) => Names(l) + Names(r)
    case Or(l, r) => Names(l) + Names(r)
    case Not(x) => Names(x)
  }

  predicate MembersWithin(members: map<string, set<PatientId>>, universe: set<PatientId>) {
    forall k :: k in members ==> members[k] <= universe
  }

  /** The patients an expression selects, given each search's members; `NOT` is the
      complement within `universe`, the base cohort of the evaluation. */
  function Eval(e: CohortExpr, members: map<string, set<PatientId>>, universe: set<PatientId>): (r: set<PatientId>)
    requires Names(e) <= members.Keys
    ensures MembersWithin(members, universe) ==> r <= universe
  {
    match e
    case Search(key) => members[key]
    case And(l, r) => Eval(l, members, universe) * Eval(r, members, universe)
    case Or(l, r) => Eval(l, members, universe) + Eval(r, members, universe)
    case Not(x) => universe - Eval(x, members, universe)
  }

  /** The meaning of an expression for one patient, as a formula. */
  predicate Holds(e: CohortExpr, members: map<string, set<PatientId>>, p: PatientId)
    requires Names(e) <= members.Keys
  {
    match e
    case Search(key) => p in members[key]
    case And(l, r) => Holds(l, members, p) && Holds(r, members, p)
    case Or(l, r) => Holds(l, members, p) || Holds(r, members, p)
    case Not(x) => !Holds(x, members, p)
  }

  /** Set evaluation agrees with the per-patient formula on the base cohort. */
  lemma {:induction false} EvalMeansHolds(e: CohortExpr, members: map<string, set<PatientId>>, universe: set<PatientId>, p: PatientId)
    requires Names(e) <= members.Keys && MembersWithin(members, universe)
    ensures p in Eval(e, members, universe) <==> p in universe && Holds(e, members, p)
  {
    match e
    case Search(key) =>
    case And(l, r) =>
      EvalMeansHolds(l, members, universe, p);
      EvalMeansHolds(r, members, universe, p);
    case Or(l, r) =>
      EvalMeansHolds(l, members, universe, p);
      EvalMeansHolds(r, members, universe, p);
    case Not(x) =>
      EvalMeansHolds(x, members, universe, p);
  }

  // ---------------------------------------------------------------------------
  // Parameters, definitions and mappings

  datatype ParameterKind = DateParameter | LocationParameter
  datatype Parameter = Parameter(name: string, caption: string, kind: ParameterKind)

  datatype ParamValue = DateValue(date: Date) | LocationValue(location: LocationId)

  datatype RangeComparator = GreaterEqual | LessEqual
  datatype TimeModifier = Any | First | Last

  /** A sub-definition: one built in this file, whose declared parameters are known,
      or one obtained from another query library. */
  datatype Definition =
    | DateObsDefinition(name: string, timeModifier: TimeModifier, operator1: RangeComparator,
                        operator2: RangeComparator, parameters: seq<Parameter>)
    | SqlDefinition(name: string, parameters: seq<Parameter>)
    | LibraryDefinition(builder: string)

  function ParameterNames(parameters: seq<Parameter>): set<string> {
    set i | 0 <= i < |parameters| :: parameters[i].name
  }

  /** `target=${source}`: the sub-definition's parameter `target` receives the value of
      the composition's parameter `source`. */
  datatype Assignment = Assignment(target: string, source: string)

  datatype Mapped = Mapped(definition: Definition, mappings: seq<Assignment>)

  function Targets(mappings: seq<Assignment>): set<string> {
    set i | 0 <= i < |mappings| :: mappings[i].target
  }

  function Sources(mappings: seq<Assignment>): set<string> {
    set i | 0 <= i < |mappings| :: mappings[i].source
  }

  predicate DistinctTargets(mappings: seq<Assignment>) {
    forall i, j :: 0 <= i < j < |mappings| ==> mappings[i].target != mappings[j].target
  }

  /** The arguments a sub-definition is evaluated with. */
  function Bind(mappings: seq<Assignment>, params: map<string, ParamValue>): (bound: map<string, ParamValue>)
    requires Sources(mappings) <= params.Keys
    ensures bound.Keys == Targets(mappings)
    ensures DistinctTargets(mappings) ==>
      forall i :: 0 <= i < |mappings| ==> bound[mappings[i].target] == params[mappings[i].source]
  {
    if mappings == [] then map[]
    else
      var n := |mappings|;
      var last := mappings[n - 1];
      SplitLast(mappings);
      var rest := Bind(mappings[..n - 1], params);
      assert DistinctTargets(mappings) ==> DistinctTargets(mappings[..n - 1]) && last.target !in rest;
      rest[last.target := params[last.source]]
  }

  /** The sources and targets of a non-empty mapping: those of all but its last
      assignment, and the last's. */
  lemma SplitLast(mappings: seq<Assignment>)
    requires mappings != []
    ensures var n := |mappings|; var prefix := mappings[..n - 1];
      && (forall i :: 0 <= i < n - 1 ==> prefix[i] == mappings[i])
      && Sources(mappings) == Sources(prefix) + {mappings[n - 1].source}
      && Targets(mappings) == Targets(prefix) + {mappings[n - 1].target}
  {
    var n := |mappings|;
    var prefix := mappings[..n - 1];
    forall s | s in Sources(mappings) ensures s in Sources(prefix) + {mappings[n - 1].source} {
      var i :| 0 <= i < n && mappings[i].source == s;
      if i < n - 1 { assert prefix[i].source == s; }
    }
    forall t | t in Targets(mappings) ensures t in Targets(prefix) + {mappings[n - 1].target} {
      var i :| 0 <= i < n && mappings[i].target == t;
      if i < n - 1 { assert prefix[i].target == t; }
    }
    forall s | s in Sources(prefix) ensures s in Sources(mappings) {
      var i :| 0 <= i < n - 1 && prefix[i].source == s;
      assert mappings[i].source == s;
    }
    forall t | t in Targets(prefix) ensures t in Targets(mappings) {
      var i :| 0 <= i < n - 1 && prefix[i].target == t;
      assert mappings[i].target == t;
    }
    assert mappings[n - 1].source in Sources(mappings);
    assert mappings[n - 1].target in Targets(mappings);
  }

  // ---------------------------------------------------------------------------
  // Composition definitions

  /** The content of a `CompositionCohortDefinition`: null fields are `None`. */
  datatype Composition = Composition(
    name: Option<string>,
    description: Option<string>,
    parameters: seq<Parameter>,
    searches: map<string, Mapped>,
    compositionString: Option<string>)

  /** A search's mapping assigns each sub-definition parameter at most once, uses only
      the composition's own parameters, and, when the sub-definition's declared
      parameters are known, assigns exactly those. */
  predicate SearchWellFormed(m: Mapped, compositionParameters: set<string>) {
    && DistinctTargets(m.mappings)
    && Sources(m.mappings) <= compositionParameters
    && (m.definition.LibraryDefinition? || Targets(m.mappings) == ParameterNames(m.definition.parameters))
  }

  /** Every name the expression uses is a registered search, and every search is well formed. */
  predicate WellFormed(c: Composition, e: CohortExpr) {
    && Names(e) <= c.searches.Keys
    && forall k :: k in c.searches ==> SearchWellFormed(c.searches[k], ParameterNames(c.parameters))
  }

  /** Each search's members: its sub-definition evaluated with the bound arguments. */
  function SearchMembers(c: Composition, params: map<string, ParamValue>,
                         provider: (Definition, map<string, ParamValue>) -> set<PatientId>): (members: map<string, set<PatientId>>)
    requires forall k :: k in c.searches ==> Sources(c.searches[k].mappings) <= params.Keys
    ensures members.Keys == c.searches.Keys
  {
    map k | k in c.searches :: provider(c.searches[k].definition, Bind(c.searches[k].mappings, params))
  }

  /** The members of one registered search. */
  lemma SearchMemberAt(c: Composition, params: map<string, ParamValue>,
                       provider: (Definition, map<string, ParamValue>) -> set<PatientId>, key: string, m: Mapped)
    requires forall k :: k in c.searches ==> Sources(c.searches[k].mappings) <= params.Keys
    requires key in c.searches && c.searches[key] == m
    ensures Sources(m.mappings) <= params.Keys
    ensures SearchMembers(c, params, provider)[key] == provider(m.definition, Bind(m.mappings, params))
  {
  }

  /** A well-formed composition can be evaluated with any values for its parameters. */
  function EvaluateComposition(c: Composition, e: CohortExpr, params: map<string, ParamValue>,
                               provider: (Definition, map<string, ParamValue>) -> set<PatientId>,
                               universe: set<PatientId>): (r: set<PatientId>)
    requires WellFormed(c, e) && ParameterNames(c.parameters) <= params.Keys
    ensures MembersWithin(SearchMembers(c, params, provider), universe) ==> r <= universe
  {
    Eval(e, SearchMembers(c, params, provider), universe)
  }

  /** When every search selects within the base cohort, a composition selects exactly
      the patients of the base cohort for whom its boolean formula holds. */
  lemma EvaluateCompositionMeansHolds(c: Composition, e: CohortExpr, params: map<string, ParamValue>,
                                      provider: (Definition, map<string, ParamValue>) -> set<PatientId>,
                                      universe: set<PatientId>, p: PatientId)
    requires WellFormed(c, e) && ParameterNames(c.parameters) <= params.Keys
    requires MembersWithin(SearchMembers(c, params, provider), universe)
    ensures p in EvaluateComposition(c, e, params, provider, universe) <==>
      p in universe && Holds(e, SearchMembers(c, params, provider), p)
  {
    EvalMeansHolds(e, SearchMembers(c, params, provider), universe, p);
  }

  /** `(A OR B OR C OR D) AND F` selects the union of the first four searches' members,
      intersected with F's. */
  lemma EvalUnionAnd(members: map<string, set<PatientId>>, universe: set<PatientId>,
                     a: string, b: string, x: string, y: string, f: string)
    requires {a, b, x, y, f} <= members.Keys
    ensures Names(And(Or(Or(Or(Search(a), Search(b)), Search(x)), Search(y)), Search(f))) == {a, b, x, y, f}
    ensures Eval(And(Or(Or(Or(Search(a), Search(b)), Search(x)), Search(y)), Search(f)), members, universe)
            == (members[a] + members[b] + members[x] + members[y]) * members[f]
  {
    assert Names(Or(Search(a), Search(b))) == {a, b};
    assert Names(Or(Or(Search(a), Search(b)), Search(x))) == {a, b, x};
    assert Names(Or(Or(Or(Search(a), Search(b)), Search(x)), Search(y))) == {a, b, x, y};
    assert Eval(Search(a), members, universe) == members[a];
    assert Eval(Or(Search(a), Search(b)), members, universe) == members[a] + members[b];
    assert Eval(Or(Or(Search(a), Search(b)), Search(x)), members, universe) == members[a] + members[b] + members[x];
    assert Eval(Or(Or(Or(Search(a), Search(b)), Search(x)), Search(y)), members, universe)
        == members[a] + members[b] + members[x] + members[y];
  }

  /** `A AND NOT (B OR C)` selects A's members in the base cohort outside B and C. */
  lemma EvalAndNot(members: map<string, set<PatientId>>, universe: set<PatientId>, a: string, b: string, x: string)
    requires {a, b, x} <= members.Keys
    ensures Names(And(Search(a), Not(Or(Search(b), Search(x))))) == {a, b, x}
    ensures Eval(And(Search(a), Not(Or(Search(b), Search(x)))), members, universe)
            == (members[a] * universe) - (members[b] + members[x])
  {
    assert Names(Or(Search(b), Search(x))) == {b, x};
    assert Eval(Search(b), members, universe) == members[b];
    assert Eval(Or(Search(b), Search(x)), members, universe) == members[b] + members[x];
    assert Eval(Not(Or(Search(b), Search(x))), members, universe) == universe - (members[b] + members[x]);
  }

  /** The library object the builders fill in step by step. */
  class CompositionCohortDefinition {
    var name: Option<string>
    var description: Option<string>
    var parameters: seq<Parameter>
    var searches: map<string, Mapped>
    var compositionString: Option<string>

    function Value(): Composition
      reads this
    {
      Composition(name, description, parameters, searches, compositionString)
    }

    constructor ()
      ensures Value() == Composition(None, None, [], map[], None)
    {
      name := None;
      description := None;
      parameters := [];
      searches := map[];
      compositionString := None;
    }

    method SetName(value: string)
      modifies this
      ensures Value() == old(Value()).(name := Some(value))
    {
      name := Some(value);
    }

    method SetDescription(value: string)
      modifies this
      ensures Value() == old(Value()).(description := Some(value))
    {
      description := Some(value);
    }

    method AddParameter(parameter: Parameter)
      modifies this
      ensures Value() == old(Value()).(parameters := old(parameters) + [parameter])
    {
      parameters := parameters + [parameter];
    }

    /** `addSearch(key, mapped)`, and equally `getSearches().put(key, mapped)`. */
    method AddSearch(key: string, mapped: Mapped)
      modifies this
      ensures Value() == old(Value()).(searches := old(searches)[key := mapped])
    {
      searches := searches[key := mapped];
    }

    method SetCompositionString(value: string)
      modifies this
      ensures Value() == old(Value()).(compositionString := Some(value))
    {
      compositionString := Some(value);
    }
  }
}
