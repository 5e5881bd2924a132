/**
 * The behaviour of every mutator of the use case, stated as a pure function
 * from the suite sequence before the call to the outcome of the call and the
 * suite sequence after it. The `UseCase` class is proved against these.
 *
 * The identifier a creation would draw from the supplier is a parameter
 * (`freshId`); it is used only on the success path.
 */
module Hierarchy {
  import opened Entities
  import opened Lookup

  /** What a call returns (or throws) and the suites it leaves behind. */
  datatype Transition<T> = Transition(result: Result<T>, after: seq<Suite>)

  /** `after` differs from `before` at most at index `i`. */
  ghost predicate OnlySuiteChanged(before: seq<Suite>, after: seq<Suite>, i: nat)
  {
    && |after| == |before|
    && i < |before|
    && forall k :: 0 <= k < |before| && k != i ==> after[k] == before[k]
  }

  /** `after` differs from `before` at most at index `j`. */
  ghost predicate OnlyScenarioChanged(before: seq<Scenario>, after: seq<Scenario>, j: nat)
  {
    && |after| == |before|
    && j < |before|
    && forall k :: 0 <= k < |before| && k != j ==> after[k] == before[k]
  }

  /** `after` is `before` with the element at index `i` taken out. */
  ghost predicate RemovedAt<T>(before: seq<T>, after: seq<T>, i: nat)
  {
    && i < |before|
    && |after| == |before| - 1
    && (forall k :: 0 <= k < i ==> after[k] == before[k])
    && (forall k :: i <= k < |after| ==> after[k] == before[k + 1])
  }

  /** The suites with the scenario list of suite `i` replaced. */
  function WithScenarios(suites: seq<Suite>, i: nat, scenarios: seq<Scenario>): (r: seq<Suite>)
    requires i < |suites|
    ensures OnlySuiteChanged(suites, r, i)
    ensures r[i].id == suites[i].id && r[i].name == suites[i].name && r[i].scenarios == scenarios
  {
    suites[i := suites[i].(scenarios := scenarios)]
  }

  /** addSuite (UseCase.swift:26-36). */
  function AddSuite(suites: seq<Suite>, name: string, freshId: string): (t: Transition<SuiteId>)
    ensures t.result.Err? <==> exists i :: 0 <= i < |suites| && suites[i].name == name
    ensures t.result.Err? ==> t.result.error == RecurringSuiteName(name) && t.after == suites
    ensures t.result.Ok? ==>
      && t.result.value.value == freshId
      && |t.after| == |suites| + 1
      && t.after[..|suites|] == suites
      && t.after[|suites|] == Suite(t.result.value, name, [])
  {
    if SuiteNameExists(suites, name) then
      Transition(Err(RecurringSuiteName(name)), suites)
    else
      var id := SuiteId(freshId);
      Transition(Ok(id), suites + [Suite(id, name, [])])
  }

  /** addScenario (UseCase.swift:39-53). */
  function AddScenario(suites: seq<Suite>, name: string, suiteId: SuiteId, freshId: string)
    : (t: Transition<ScenarioId>)
    ensures t.result.Err? ==> t.after == suites
    ensures t.result == Err(SuiteNotFound(suiteId)) <==>
      forall k :: 0 <= k < |suites| ==> suites[k].id != suiteId
    ensures SuiteIndex(suites, suiteId).Some? ==>
      var i := SuiteIndex(suites, suiteId).value;
      && (t.result.Err? <==>
            exists j :: 0 <= j < |suites[i].scenarios| && suites[i].scenarios[j].name == name)
      && (t.result.Err? ==> t.result.error == RecurringScenarioName(suites[i].name, name))
      && (t.result.Ok? ==>
            && t.result.value == ScenarioId(suiteId.value, freshId)
            && OnlySuiteChanged(suites, t.after, i)
            && t.after[i].id == suites[i].id
            && t.after[i].name == suites[i].name
            && t.after[i].scenarios == suites[i].scenarios + [Scenario(t.result.value, name, [])])
  {
    match SuiteIndex(suites, suiteId)
    case None => Transition(Err(SuiteNotFound(suiteId)), suites)
    case Some(i) =>
      var suite := suites[i];
      if ScenarioNameExists(suite, name) then
        assert SuiteIndex(suites, suiteId).value == i;
        Transition(Err(RecurringScenarioName(suite.name, name)), suites)
      else
        var id := ScenarioId(suite.id.value, freshId);
        Transition(Ok(id), WithScenarios(suites, i, suite.scenarios + [Scenario(id, name, [])]))
  }

  /** renameSuite (UseCase.swift:55-63): no uniqueness check on the new name. */
  function RenameSuite(suites: seq<Suite>, newName: string, suiteId: SuiteId): (t: Transition<()>)
    ensures t.result.Err? <==> forall k :: 0 <= k < |suites| ==> suites[k].id != suiteId
    ensures t.result.Err? ==> t.result.error == SuiteNotFound(suiteId) && t.after == suites
    ensures t.result.Ok? ==>
      var i := SuiteIndex(suites, suiteId).value;
      && OnlySuiteChanged(suites, t.after, i)
      && t.after[i].id == suites[i].id
      && t.after[i].name == newName
      && t.after[i].scenarios == suites[i].scenarios
  {
    match SuiteIndex(suites, suiteId)
    case None => Transition(Err(SuiteNotFound(suiteId)), suites)
    case Some(i) => Transition(Ok(()), suites[i := suites[i].(name := newName)])
  }

  /** deleteSuite (UseCase.swift:75-82): removes the first suite with the id, scenarios included. */
  function DeleteSuite(suites: seq<Suite>, suiteId: SuiteId): (t: Transition<()>)
    ensures t.result.Err? <==> forall k :: 0 <= k < |suites| ==> suites[k].id != suiteId
    ensures t.result.Err? ==> t.result.error == SuiteNotFound(suiteId) && t.after == suites
    ensures t.result.Ok? ==> RemovedAt(suites, t.after, SuiteIndex(suites, suiteId).value)
  {
    match SuiteIndex(suites, suiteId)
    case None => Transition(Err(SuiteNotFound(suiteId)), suites)
    case Some(i) => Transition(Ok(()), suites[..i] + suites[i + 1..])
  }

  /** renameScenario (UseCase.swift:65-73): no uniqueness check on the new name. */
  function RenameScenario(suites: seq<Suite>, newName: string, scenarioId: ScenarioId)
    : (t: Transition<()>)
    ensures t.result.Err? <==> ScenarioIndex(suites, scenarioId).None?
    ensures t.result.Err? ==> t.result.error == ScenarioNotFound(scenarioId) && t.after == suites
    ensures t.result.Ok? ==>
      var p := ScenarioIndex(suites, scenarioId).value;
      var before := suites[p.suite].scenarios[p.scenario];
      && OnlySuiteChanged(suites, t.after, p.suite)
      && t.after[p.suite].id == suites[p.suite].id
      && t.after[p.suite].name == suites[p.suite].name
      && OnlyScenarioChanged(suites[p.suite].scenarios, t.after[p.suite].scenarios, p.scenario)
      && t.after[p.suite].scenarios[p.scenario] == Scenario(before.id, newName, before.steps)
  {
    match ScenarioIndex(suites, scenarioId)
    case None => Transition(Err(ScenarioNotFound(scenarioId)), suites)
    case Some(p) =>
      var scenarios := suites[p.suite].scenarios;
      var renamed := scenarios[p.scenario].(name := newName);
      Transition(Ok(()), WithScenarios(suites, p.suite, scenarios[p.scenario := renamed]))
  }

  /** deleteScenario (UseCase.swift:84-91): removes only the targeted scenario. */
  function DeleteScenario(suites: seq<Suite>, scenarioId: ScenarioId): (t: Transition<()>)
    ensures t.result.Err? <==> ScenarioIndex(suites, scenarioId).None?
    ensures t.result.Err? ==> t.result.error == ScenarioNotFound(scenarioId) && t.after == suites
    ensures t.result.Ok? ==>
      var p := ScenarioIndex(suites, scenarioId).value;
      && OnlySuiteChanged(suites, t.after, p.suite)
      && t.after[p.suite].id == suites[p.suite].id
      && t.after[p.suite].name == suites[p.suite].name
      && RemovedAt(suites[p.suite].scenarios, t.after[p.suite].scenarios, p.scenario)
  {
    match ScenarioIndex(suites, scenarioId)
    case None => Transition(Err(ScenarioNotFound(scenarioId)), suites)
    case Some(p) =>
      var scenarios := suites[p.suite].scenarios;
      Transition(Ok(()), WithScenarios(suites, p.suite, scenarios[..p.scenario] + scenarios[p.scenario + 1..]))
  }

  /** addStep (UseCase.swift:93-103): the element is not checked against the catalogue. */
  function AddStep(suites: seq<Suite>, action: Action, element: Element, scenarioId: ScenarioId)
    : (t: Transition<()>)
    ensures t.result.Err? <==> ScenarioIndex(suites, scenarioId).None?
    ensures t.result.Err? ==> t.result.error == ScenarioNotFound(scenarioId) && t.after == suites
    ensures t.result.Ok? ==>
      var p := ScenarioIndex(suites, scenarioId).value;
      var before := suites[p.suite].scenarios[p.scenario];
      && OnlySuiteChanged(suites, t.after, p.suite)
      && t.after[p.suite].id == suites[p.suite].id
      && t.after[p.suite].name == suites[p.suite].name
      && OnlyScenarioChanged(suites[p.suite].scenarios, t.after[p.suite].scenarios, p.scenario)
      && t.after[p.suite].scenarios[p.scenario]
         == Scenario(before.id, before.name, before.steps + [Step(action, element)])
  {
    match ScenarioIndex(suites, scenarioId)
    case None => Transition(Err(ScenarioNotFound(scenarioId)), suites)
    case Some(p) =>
      var scenarios := suites[p.suite].scenarios;
      var extended := scenarios[p.scenario].(steps := scenarios[p.scenario].steps + [Step(action, element)]);
      Transition(Ok(()), WithScenarios(suites, p.suite, scenarios[p.scenario := extended]))
  }
}
