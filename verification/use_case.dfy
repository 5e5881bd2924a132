/**
 * The `UseCase` class: the sole owner and mutator of the suite hierarchy.
 * Its mutators change the `suites` field in place; each is proved to do
 * exactly what the matching function of `Hierarchy` describes, and to keep
 * the invariants of `Invariants`.
 */
module UseCaseModel {
  import opened Entities
  import opened Lookup
  import Hierarchy
  import opened Invariants
  import opened IdSupply

  class UseCase {
    /** The hierarchy, in creation order. */
    var suites: seq<Suite>
    /** The read-only element catalogue given at construction. */
    const elements: seq<Element>
    /** The injected supplier: `generateId(k)` is what its (k+1)-th call returns. */
    const generateId: nat -> string
    /** How many ids have been drawn from the supplier so far. */
    var idCalls: nat

    /** The ids the supplier has handed out so far. */
    ghost function Drawn(): set<string>
      reads this
    {
      set k: nat | k < idCalls :: generateId(k)
    }

    ghost predicate Valid()
      reads this
    {
      && Owned(suites)
      && DrawnFrom(suites, Drawn())
      && (Fresh(generateId) ==> UniqueIds(suites))
    }

    constructor (elements: seq<Element>, generateId: nat -> string)
      ensures Valid()
      ensures this.elements == elements && this.generateId == generateId
      ensures suites == [] && idCalls == 0
    {
      this.elements := elements;
      this.generateId := generateId;
      suites := [];
      idCalls := 0;
    }

    /** The id the next call to the supplier returns is not among those drawn so far. */
    lemma NextIdIsNew()
      requires Fresh(generateId)
      ensures generateId(idCalls) !in Drawn()
    {
      forall k: nat | k < idCalls ensures generateId(k) != generateId(idCalls) {
      }
    }

    /** Drawing one more id leaves every earlier id drawn. */
    lemma DrawnAfterCall(before: set<string>, calls: nat)
      requires idCalls == calls + 1
      requires before == set k: nat | k < calls :: generateId(k)
      ensures before + {generateId(calls)} <= Drawn()
    {
    }

    method AddSuite(name: string) returns (r: Result<SuiteId>)
      requires Valid()
      modifies this
      ensures Valid()
      ensures var t := Hierarchy.AddSuite(old(suites), name, generateId(old(idCalls)));
        r == t.result && suites == t.after
      ensures idCalls == if r.Ok? then old(idCalls) + 1 else old(idCalls)
      ensures Fresh(generateId) && r.Ok? ==>
        forall i :: 0 <= i < |old(suites)| ==> old(suites)[i].id != r.value
    {
      if SuiteNameExists(suites, name) {
        return Err(RecurringSuiteName(name));
      }
      ghost var drawn := Drawn();
      AddSuiteKeeps(suites, name, generateId(idCalls), drawn);
      if Fresh(generateId) {
        NextIdIsNew();
      }
      var id := SuiteId(generateId(idCalls));
      idCalls := idCalls + 1;
      suites := suites + [Suite(id, name, [])];
      DrawnAfterCall(drawn, idCalls - 1);
      DrawnFromGrows(suites, drawn + {id.value}, Drawn());
      r := Ok(id);
    }

    method AddScenario(name: string, suiteId: SuiteId) returns (r: Result<ScenarioId>)
      requires Valid()
      modifies this
      ensures Valid()
      ensures var t := Hierarchy.AddScenario(old(suites), name, suiteId, generateId(old(idCalls)));
        r == t.result && suites == t.after
      ensures idCalls == if r.Ok? then old(idCalls) + 1 else old(idCalls)
      ensures Fresh(generateId) && r.Ok? ==>
        forall i, j :: 0 <= i < |old(suites)| && 0 <= j < |old(suites)[i].scenarios| ==>
          old(suites)[i].scenarios[j].id.value != r.value.value
    {
      var index := SuiteIndex(suites, suiteId);
      if index.None? {
        return Err(SuiteNotFound(suiteId));
      }
      var i := index.value;
      var suite := suites[i];
      if ScenarioNameExists(suite, name) {
        return Err(RecurringScenarioName(suite.name, name));
      }
      ghost var drawn := Drawn();
      ghost var before := suites;
      AddScenarioKeeps(suites, name, suiteId, generateId(idCalls), drawn);
      if Fresh(generateId) {
        NextIdIsNew();
        assert forall i, j :: 0 <= i < |before| && 0 <= j < |before[i].scenarios| ==>
          IdsIn(before[i], drawn) && before[i].scenarios[j].id.value in drawn;
      }
      var id := ScenarioId(suite.id.value, generateId(idCalls));
      idCalls := idCalls + 1;
      suites := suites[i := suite.(scenarios := suite.scenarios + [Scenario(id, name, [])])];
      DrawnAfterCall(drawn, idCalls - 1);
      DrawnFromGrows(suites, drawn + {id.value}, Drawn());
      r := Ok(id);
    }

    method RenameSuite(newName: string, suiteId: SuiteId) returns (r: Result<()>)
      requires Valid()
      modifies this
      ensures Valid()
      ensures var t := Hierarchy.RenameSuite(old(suites), newName, suiteId);
        r == t.result && suites == t.after
      ensures idCalls == old(idCalls)
    {
      RenameSuiteKeeps(suites, newName, suiteId, Drawn());
      var index := SuiteIndex(suites, suiteId);
      if index.None? {
        return Err(SuiteNotFound(suiteId));
      }
      suites := suites[index.value := suites[index.value].(name := newName)];
      r := Ok(());
    }

    method RenameScenario(newName: string, scenarioId: ScenarioId) returns (r: Result<()>)
      requires Valid()
      modifies this
      ensures Valid()
      ensures var t := Hierarchy.RenameScenario(old(suites), newName, scenarioId);
        r == t.result && suites == t.after
      ensures idCalls == old(idCalls)
    {
      RenameScenarioKeeps(suites, newName, scenarioId, Drawn());
      var index := ScenarioIndex(suites, scenarioId);
      if index.None? {
        return Err(ScenarioNotFound(scenarioId));
      }
      var p := index.value;
      var suite := suites[p.suite];
      var scenario := suite.scenarios[p.scenario];
      suites := suites[p.suite := suite.(scenarios := suite.scenarios[p.scenario := scenario.(name := newName)])];
      r := Ok(());
    }

    method DeleteSuite(suiteId: SuiteId) returns (r: Result<()>)
      requires Valid()
      modifies this
      ensures Valid()
      ensures var t := Hierarchy.DeleteSuite(old(suites), suiteId);
        r == t.result && suites == t.after
      ensures idCalls == old(idCalls)
    {
      DeleteSuiteKeeps(suites, suiteId, Drawn());
      var index := SuiteIndex(suites, suiteId);
      if index.None? {
        return Err(SuiteNotFound(suiteId));
      }
      suites := suites[..index.value] + suites[index.value + 1..];
      r := Ok(());
    }

    method DeleteScenario(scenarioId: ScenarioId) returns (r: Result<()>)
      requires Valid()
      modifies this
      ensures Valid()
      ensures var t := Hierarchy.DeleteScenario(old(suites), scenarioId);
        r == t.result && suites == t.after
      ensures idCalls == old(idCalls)
    {
      DeleteScenarioKeeps(suites, scenarioId, Drawn());
      var index := ScenarioIndex(suites, scenarioId);
      if index.None? {
        return Err(ScenarioNotFound(scenarioId));
      }
      var p := index.value;
      var suite := suites[p.suite];
      var remaining := suite.scenarios[..p.scenario] + suite.scenarios[p.scenario + 1..];
      suites := suites[p.suite := suite.(scenarios := remaining)];
      r := Ok(());
    }

    method AddStep(action: Action, element: Element, scenarioId: ScenarioId) returns (r: Result<()>)
      requires Valid()
      modifies this
      ensures Valid()
      ensures var t := Hierarchy.AddStep(old(suites), action, element, scenarioId);
        r == t.result && suites == t.after
      ensures idCalls == old(idCalls)
    {
      AddStepKeeps(suites, action, element, scenarioId, Drawn());
      var index := ScenarioIndex(suites, scenarioId);
      if index.None? {
        return Err(ScenarioNotFound(scenarioId));
      }
      var p := index.value;
      var suite := suites[p.suite];
      var scenario := suite.scenarios[p.scenario];
      var extended := scenario.(steps := scenario.steps + [Step(action, element)]);
      suites := suites[p.suite := suite.(scenarios := suite.scenarios[p.scenario := extended])];
      r := Ok(());
    }

    /** getAvailableActions: every action, in declaration order, whatever the state. */
    method GetAvailableActions() returns (r: seq<Action>)
      ensures r == [Tap, SwipeLeft, SwipeRight, SwipeUp, SwipeDown, TypeText]
      ensures forall a: Action :: a in r
      ensures forall i, j :: 0 <= i < j < |r| ==> r[i] != r[j]
    {
      AllActionsEnumerates();
      r := AllActions;
    }

    /** getAvailableElements: the catalogue exactly as it was supplied. */
    method GetAvailableElements() returns (r: seq<Element>)
      ensures r == elements
    {
      r := elements;
    }

    /** buildSuites: a snapshot of the whole hierarchy in its current order. */
    method BuildSuites() returns (r: seq<Suite>)
      ensures r == suites
    {
      r := suites;
    }
  }
}
