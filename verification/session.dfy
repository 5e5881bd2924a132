/**
 * Sessions against the `UseCase` class with the counting supply of the test
 * suite ("uniqueId_1", "uniqueId_2", ...). Each returns what the
 * corresponding test case inspects and states in its `ensures` the value
 * the test expects, proved from the class's contracts alone.
 */
module Session {
  import opened Entities
  import opened IdSupply
  import opened Lookup
  import opened UseCaseModel

  /** A use case with the counting supply and one empty suite, "Home screen" (test_add_suite). */
  method HomeScreenFixture(elements: seq<Element>) returns (useCase: UseCase, home: Result<SuiteId>)
    ensures fresh(useCase) && useCase.Valid()
    ensures useCase.generateId == CountingSupply && useCase.elements == elements
    ensures useCase.idCalls == 1
    ensures home == Ok(SuiteId("uniqueId_1"))
    ensures useCase.suites == [Suite(SuiteId("uniqueId_1"), "Home screen", [])]
  {
    CountingSupplyStart();
    useCase := new UseCase(elements, CountingSupply);
    home := useCase.AddSuite("Home screen");
  }

  /** A use case with the counting supply and two empty suites (the start of test_add_multiple_suites). */
  method TwoSuitesFixture() returns (useCase: UseCase, home: Result<SuiteId>, login: Result<SuiteId>)
    ensures fresh(useCase) && useCase.Valid()
    ensures useCase.generateId == CountingSupply && useCase.idCalls == 2
    ensures home == Ok(SuiteId("uniqueId_1")) && login == Ok(SuiteId("uniqueId_2"))
    ensures useCase.suites == [Suite(SuiteId("uniqueId_1"), "Home screen", []),
                               Suite(SuiteId("uniqueId_2"), "Log in screen", [])]
  {
    CountingSupplyStart();
    useCase, home := HomeScreenFixture([]);
    login := useCase.AddSuite("Log in screen");
  }

  /** test_add_multiple_suites and test_add_suite_with_recurring_name. */
  method AddSuitesSession() returns (home: Result<SuiteId>, login: Result<SuiteId>, built: seq<Suite>,
                                     again: Result<SuiteId>, after: seq<Suite>)
    ensures home == Ok(SuiteId("uniqueId_1")) && login == Ok(SuiteId("uniqueId_2"))
    ensures built == [Suite(SuiteId("uniqueId_1"), "Home screen", []),
                      Suite(SuiteId("uniqueId_2"), "Log in screen", [])]
    ensures again == Err(RecurringSuiteName("Home screen"))
    ensures after == built
  {
    var useCase;
    useCase, home, login := TwoSuitesFixture();
    built := useCase.BuildSuites();
    assert built[0].name == "Home screen";
    again := useCase.AddSuite("Home screen");
    after := useCase.BuildSuites();
  }

  /** "Home screen" holding one empty scenario called `name`, whose id is ("uniqueId_1", "uniqueId_2") (test_add_scenario). */
  method OneScenarioFixture(elements: seq<Element>, name: string) returns (useCase: UseCase, scenarioId: Result<ScenarioId>)
    ensures fresh(useCase) && useCase.Valid()
    ensures useCase.generateId == CountingSupply && useCase.elements == elements
    ensures useCase.idCalls == 2
    ensures scenarioId == Ok(ScenarioId("uniqueId_1", "uniqueId_2"))
    ensures useCase.suites == [Suite(SuiteId("uniqueId_1"), "Home screen",
                                     [Scenario(ScenarioId("uniqueId_1", "uniqueId_2"), name, [])])]
  {
    CountingSupplyStart();
    var home;
    useCase, home := HomeScreenFixture(elements);
    assert SuiteIndex(useCase.suites, SuiteId("uniqueId_1")) == Some(0);
    scenarioId := useCase.AddScenario(name, SuiteId("uniqueId_1"));
    assert |useCase.suites| == 1 && useCase.suites[0].id == SuiteId("uniqueId_1");
    assert useCase.suites[0].scenarios == [Scenario(ScenarioId("uniqueId_1", "uniqueId_2"), name, [])];
  }

  /** The second scenario of test_add_mutliple_scenarios_for_same_suite, appended after the first. */
  method SecondScenarioFixture() returns (useCase: UseCase, first: Result<ScenarioId>, second: Result<ScenarioId>)
    ensures fresh(useCase)
    ensures first == Ok(ScenarioId("uniqueId_1", "uniqueId_2"))
    ensures second == Ok(ScenarioId("uniqueId_1", "uniqueId_3"))
    ensures |useCase.suites| == 1
    ensures useCase.suites[0].id == SuiteId("uniqueId_1") && useCase.suites[0].name == "Home screen"
    ensures useCase.suites[0].scenarios
      == [Scenario(ScenarioId("uniqueId_1", "uniqueId_2"), "Show welcome message", []),
          Scenario(ScenarioId("uniqueId_1", "uniqueId_3"), "Show discount message", [])]
  {
    CountingSupplyStart();
    useCase, first := OneScenarioFixture([], "Show welcome message");
    var home := SuiteId("uniqueId_1");
    var start := useCase.suites;
    assert SuiteIndex(start, home) == Some(0);
    assert "Show welcome message"[5] != "Show discount message"[5];
    second := useCase.AddScenario("Show discount message", home);
    assert useCase.suites[0].scenarios == start[0].scenarios + [Scenario(ScenarioId("uniqueId_1", "uniqueId_3"), "Show discount message", [])];
  }

  /** test_add_mutliple_scenarios_for_same_suite. */
  method SameSuiteScenariosSession() returns (first: Result<ScenarioId>, second: Result<ScenarioId>, suites: seq<Suite>)
    ensures first == Ok(ScenarioId("uniqueId_1", "uniqueId_2"))
    ensures second == Ok(ScenarioId("uniqueId_1", "uniqueId_3"))
    ensures suites == [Suite(SuiteId("uniqueId_1"), "Home screen",
                             [Scenario(ScenarioId("uniqueId_1", "uniqueId_2"), "Show welcome message", []),
                              Scenario(ScenarioId("uniqueId_1", "uniqueId_3"), "Show discount message", [])])]
  {
    var useCase;
    useCase, first, second := SecondScenarioFixture();
    suites := useCase.BuildSuites();
    assert suites == [Suite(suites[0].id, suites[0].name, suites[0].scenarios)];
  }

  /** test_add_scenarios_for_different_suite. */
  method AddScenariosSession() returns (welcome: Result<ScenarioId>, discount: Result<ScenarioId>, suites: seq<Suite>)
    ensures welcome == Ok(ScenarioId("uniqueId_1", "uniqueId_3"))
    ensures discount == Ok(ScenarioId("uniqueId_2", "uniqueId_4"))
    ensures |suites| == 2
    ensures suites[0] == Suite(SuiteId("uniqueId_1"), "Home screen",
                               [Scenario(ScenarioId("uniqueId_1", "uniqueId_3"), "Show welcome message", [])])
    ensures suites[1] == Suite(SuiteId("uniqueId_2"), "Log in screen",
                               [Scenario(ScenarioId("uniqueId_2", "uniqueId_4"), "Show discount message", [])])
  {
    CountingSupplyStart();
    var useCase, home, login := TwoSuitesFixture();
    var start := useCase.suites;
    assert SuiteIndex(start, SuiteId("uniqueId_1")) == Some(0);
    welcome := useCase.AddScenario("Show welcome message", SuiteId("uniqueId_1"));
    assert welcome == Ok(ScenarioId("uniqueId_1", "uniqueId_3"));
    var middle := useCase.BuildSuites();
    assert |middle| == 2 && middle[1] == start[1];
    assert "uniqueId_1"[9] != "uniqueId_2"[9];
    assert SuiteIndex(middle, SuiteId("uniqueId_2")) == Some(1);
    discount := useCase.AddScenario("Show discount message", SuiteId("uniqueId_2"));
    assert discount == Ok(ScenarioId("uniqueId_2", "uniqueId_4"));
    suites := useCase.BuildSuites();
    assert |suites| == 2 && suites[0] == middle[0];
    assert suites[0].scenarios == [Scenario(welcome.value, "Show welcome message", [])];
    assert suites[1].scenarios == [Scenario(discount.value, "Show discount message", [])];
  }

  /** test_add_scenario_with_recurring_name_for_same_suite and test_add_scenario_with_wrong_suiteId. */
  method RejectedScenariosSession() returns (twice: Result<ScenarioId>, wrong: Result<ScenarioId>, suites: seq<Suite>)
    ensures twice == Err(RecurringScenarioName("Home screen", "Show welcome message"))
    ensures wrong == Err(SuiteNotFound(SuiteId("wrongId")))
    ensures suites == [Suite(SuiteId("uniqueId_1"), "Home screen",
                             [Scenario(ScenarioId("uniqueId_1", "uniqueId_2"), "Show welcome message", [])])]
  {
    var useCase, welcome := OneScenarioFixture([], "Show welcome message");
    var home := SuiteId("uniqueId_1");
    var middle := useCase.suites;
    assert SuiteIndex(middle, home) == Some(0);
    assert middle[0].scenarios[0].name == "Show welcome message";
    twice := useCase.AddScenario("Show welcome message", home);
    assert "wrongId" != "uniqueId_1";
    wrong := useCase.AddScenario("Show welcome message", SuiteId("wrongId"));
    suites := useCase.BuildSuites();
  }

  /** Two steps appended to one scenario, in order; the element catalogue as supplied. */
  method StepsSession(someElement: Element, otherElement: Element) returns (steps: seq<Step>, elements: seq<Element>)
    ensures steps == [Step(Tap, someElement), Step(TypeText, otherElement)]
    ensures elements == [someElement, otherElement]
  {
    var useCase, welcome := OneScenarioFixture([someElement, otherElement], "Welcome");
    var id := ScenarioId("uniqueId_1", "uniqueId_2");
    assert ScenarioIndex(useCase.suites, id) == Some(Position(0, 0));
    var first := useCase.AddStep(Tap, someElement, id);
    var next := useCase.BuildSuites();
    assert |next| == 1 && next[0].id == SuiteId("uniqueId_1") && |next[0].scenarios| == 1;
    assert next[0].scenarios[0] == Scenario(id, "Welcome", [Step(Tap, someElement)]);
    assert ScenarioIndex(next, id) == Some(Position(0, 0));
    var second := useCase.AddStep(TypeText, otherElement, id);
    var suites := useCase.BuildSuites();
    steps := suites[0].scenarios[0].steps;
    elements := useCase.GetAvailableElements();
  }

  /** A scenario id with the wrong suite half is not found; deleting the suite empties the tree. */
  method DeletionSession() returns (wrong: Result<()>, deleted: Result<()>, suites: seq<Suite>)
    ensures wrong == Err(ScenarioNotFound(ScenarioId("wrong_suite", "uniqueId_2")))
    ensures deleted == Ok(())
    ensures suites == []
  {
    var useCase, welcome := OneScenarioFixture([], "Welcome");
    var home := SuiteId("uniqueId_1");
    assert "wrong_suite" != "uniqueId_1";
    wrong := useCase.RenameScenario("New name", ScenarioId("wrong_suite", "uniqueId_2"));
    assert SuiteIndex(useCase.suites, home) == Some(0);
    deleted := useCase.DeleteSuite(home);
    suites := useCase.BuildSuites();
  }
}
