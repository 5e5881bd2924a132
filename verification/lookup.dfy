/**
 * The private queries of the use case: name tests built on
 * `contains(where:)` and index searches built on `firstIndex(where:)`.
 * Each search returns the FIRST match; nothing here assumes ids are unique.
 */
module Lookup {
  import opened Entities

  /** A resolved scenario: the index of its suite and its index in that suite. */
  datatype Position = Position(suite: nat, scenario: nat)

  /** Whether some suite is called `name` (isSuiteExist). */
  function SuiteNameExists(suites: seq<Suite>, name: string): (r: bool)
    ensures r <==> exists i :: 0 <= i < |suites| && suites[i].name == name
  {
    if |suites| == 0 then false
    else suites[0].name == name || SuiteNameExists(suites[1..], name)
  }

  /** Whether `suite` already holds a scenario called `name` (isScenarioExist). */
  function ScenarioNameExists(suite: Suite, name: string): (r: bool)
    ensures r <==> exists j :: 0 <= j < |suite.scenarios| && suite.scenarios[j].name == name
  {
    ScenarioNameIn(suite.scenarios, name)
  }

  function ScenarioNameIn(scenarios: seq<Scenario>, name: string): (r: bool)
    ensures r <==> exists j :: 0 <= j < |scenarios| && scenarios[j].name == name
  {
    if |scenarios| == 0 then false
    else scenarios[0].name == name || ScenarioNameIn(scenarios[1..], name)
  }

  /** The index of the first suite whose id is `id` (suiteIndex). */
  function SuiteIndex(suites: seq<Suite>, id: SuiteId): (r: Option<nat>)
    ensures r.Some? ==> r.value < |suites| && suites[r.value].id == id
    ensures r.Some? ==> forall k :: 0 <= k < r.value ==> suites[k].id != id
    ensures r.None? <==> forall k :: 0 <= k < |suites| ==> suites[k].id != id
  {
    if |suites| == 0 then None
    else if suites[0].id == id then Some(0)
    else match SuiteIndex(suites[1..], id)
      case None => None
      case Some(k) => Some(k + 1)
  }

  /** The index of the first scenario whose composite id is `id`. */
  function ScenarioIndexIn(scenarios: seq<Scenario>, id: ScenarioId): (r: Option<nat>)
    ensures r.Some? ==> r.value < |scenarios| && scenarios[r.value].id == id
    ensures r.Some? ==> forall k :: 0 <= k < r.value ==> scenarios[k].id != id
    ensures r.None? <==> forall k :: 0 <= k < |scenarios| ==> scenarios[k].id != id
  {
    if |scenarios| == 0 then None
    else if scenarios[0].id == id then Some(0)
    else match ScenarioIndexIn(scenarios[1..], id)
      case None => None
      case Some(k) => Some(k + 1)
  }

  /**
   * Resolves a scenario id in two stages (scenarioIndex): first the suite
   * whose id is `.id(id.suiteId)`, then, inside that suite only, the
   * scenario whose whole composite id is `id`.
   */
  function ScenarioIndex(suites: seq<Suite>, id: ScenarioId): (r: Option<Position>)
    ensures r.Some? ==>
      && r.value.suite < |suites|
      && r.value.scenario < |suites[r.value.suite].scenarios|
      && suites[r.value.suite].id == SuiteId(id.suiteId)
      && suites[r.value.suite].scenarios[r.value.scenario].id == id
    ensures r.Some? ==> SuiteIndex(suites, SuiteId(id.suiteId)) == Some(r.value.suite)
    ensures r.Some? ==> forall k :: 0 <= k < r.value.scenario ==>
      suites[r.value.suite].scenarios[k].id != id
    ensures (forall k :: 0 <= k < |suites| ==> suites[k].id.value != id.suiteId) ==> r.None?
    ensures r.None? <==>
      || SuiteIndex(suites, SuiteId(id.suiteId)).None?
      || (var i := SuiteIndex(suites, SuiteId(id.suiteId)).value;
          forall j :: 0 <= j < |suites[i].scenarios| ==> suites[i].scenarios[j].id != id)
  {
    match SuiteIndex(suites, SuiteId(id.suiteId))
    case None => None
    case Some(i) =>
      match ScenarioIndexIn(suites[i].scenarios, id)
      case None => None
      case Some(j) => Some(Position(i, j))
  }
}
