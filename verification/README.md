# Testoria use case, modelled in Dafny

Testoria is a tool for writing UI test specifications. Its core is the
`UseCase` class (`Testoria/UseCase.swift`). The class owns a three-level
tree: a list of test **suites**, each holding **scenarios**, each holding
an ordered list of **steps**. A step is an action applied to a UI element.
Every public operation is either a lookup or one in-place update of that
tree, guarded by a precondition. When the guard fails, the operation throws
one typed `UseCaseError` and changes nothing.

The model has these parts:

- `entities.dfy` (module `Entities`): the value types `Suite`, `Scenario`,
  `Step`, `Action` and `Element`, the two id types, and `UseCaseError`.
  `ScenarioId` is a two-field datatype compared field by field. A throwing
  call returns `Result<T>`: `Ok(value)` or `Err(error)`.
- `lookup.dfy` (module `Lookup`): the private helpers `isSuiteExist`,
  `suiteIndex`, `isScenarioExist` and `scenarioIndex`. They are recursive
  functions that return the *first* match, as `contains(where:)` and
  `firstIndex(where:)` do.
- `hierarchy.dfy` (module `Hierarchy`): each mutator as a pure function.
  It maps the suite sequence before the call to a `Transition`: the
  result, plus the suite sequence after the call. These functions are the
  specification the class is proved against.
- `invariants.dfy` (module `Invariants`): three invariants, each proved to
  be kept by every operation.
  - Ownership: a scenario's `id.suiteId` is its suite's `id.value`.
  - Provenance: every id value in the tree was drawn from the supplier.
  - Uniqueness: if the supplier never repeats a value, suite ids are
    pairwise distinct, and scenario ids are distinct within each suite.
- `id_supply.dfy` (module `IdSupply`): the injected `generateId` closure
  is modelled as a function `nat -> string`. Call number `k` returns
  `generateId(k)`. The module defines the counting supply that the tests
  use (`"uniqueId_1"`, `"uniqueId_2"`, …) and proves it never repeats a
  value.
- `use_case.dfy` (module `UseCaseModel`): class `UseCase`. Its fields are
  `suites: seq<Suite>`, the `elements` catalogue, the `generateId` supply
  and `idCalls`, the number of ids drawn so far. Each mutator updates
  `suites` in place. Its `ensures` equate the result and the new `suites`
  with the matching `Hierarchy` function applied to the old state.
  `idCalls` advances only when an id is drawn. A failed `addSuite` or
  `addScenario` therefore draws no id, because the source checks before it
  calls `generateId`.
- `properties.dfy` (module `Properties`): properties that span several
  calls, such as resolving a returned id, cascade deletion, creation order
  and name checks scoped to one suite.
- `session.dfy` (module `Session`): one client method per test case of
  `TestoriaTests/UseCaseTests.swift`, plus a two-step append and a
  deletion walkthrough. Each method starts from fixtures built with the
  counting supply. It returns the ids, errors and suites that its test
  inspects, and its `ensures` state the values the test expects. These are
  proved from the class contracts alone.

Two properties one might expect of the hierarchy are not invariants of the
code, and the model does not claim them:

- Name uniqueness. Only `addSuite` and `addScenario` check names
  (`Testoria/UseCase.swift:29`, `:47`). `renameSuite` and `renameScenario`
  write the new name without a check (`:62`, `:72`), so they can create
  duplicates. Name uniqueness therefore appears only in the contracts of
  the two creation operations.
- Suite id uniqueness. The code never compares a new id with the existing
  ones (`:32-34`). The model proves uniqueness from freshness of the
  supply, stated as `IdSupply.Fresh`. Without a fresh supply, the lookups
  still act on the first match, as `firstIndex` does.

## Model

| member | source | states |
|---|---|---|
| `Entities.AllActionsEnumerates` | Testoria/UseCase.swift:209-216 | `Action.allCases` lists each of the six actions exactly once |
| `Lookup.SuiteNameExists` | Testoria/UseCase.swift:120-124 | true exactly when some suite has that name |
| `Lookup.ScenarioNameExists` | Testoria/UseCase.swift:132-137 | true exactly when the given suite holds a scenario with that name; other suites are not consulted |
| `Lookup.SuiteIndex` | Testoria/UseCase.swift:126-130 | returns the index of the first suite with the id; returns none exactly when no suite has it |
| `Lookup.ScenarioIndexIn` | Testoria/UseCase.swift:143 | returns the index of the first scenario whose whole composite id matches; returns none exactly when none matches |
| `Lookup.ScenarioIndex` | Testoria/UseCase.swift:139-147 | a hit is the first suite with id `.id(suiteId)`, and inside it the first scenario with the full id; no hit exactly when no suite has that id or the first such suite holds no scenario with the full id |
| `Hierarchy.AddSuite` | Testoria/UseCase.swift:25-36 | fails with `recurringSuiteName(name)` exactly when the name is taken, and leaves suites unchanged; otherwise returns the fresh id and appends exactly one `Suite(id, name, [])`, earlier suites untouched and in order |
| `Hierarchy.AddScenario` | Testoria/UseCase.swift:38-53 | `suiteNotFound` exactly when no suite has the id; `recurringScenarioName(suite.name, name)` exactly when that suite has the name; both leave state unchanged; on success returns `(suiteId.value, fresh)` and appends the empty scenario to that suite only |
| `Hierarchy.RenameSuite` | Testoria/UseCase.swift:55-63 | `suiteNotFound` exactly when no suite has the id, with state unchanged; otherwise only the name of the first matching suite changes, with no uniqueness check |
| `Hierarchy.DeleteSuite` | Testoria/UseCase.swift:75-82 | `suiteNotFound` exactly when the id is absent, with state unchanged; otherwise removes the first matching suite and keeps the others in order |
| `Hierarchy.RenameScenario` | Testoria/UseCase.swift:65-73 | `scenarioNotFound` exactly when the two-stage lookup fails, with state unchanged; otherwise only the resolved scenario's name changes |
| `Hierarchy.DeleteScenario` | Testoria/UseCase.swift:84-91 | `scenarioNotFound` exactly when the lookup fails, with state unchanged; otherwise removes only the resolved scenario, siblings in order, and leaves other suites untouched |
| `Hierarchy.AddStep` | Testoria/UseCase.swift:93-103 | `scenarioNotFound` exactly when the lookup fails, with state unchanged; otherwise appends exactly one `Step(action, element)` to the end of the resolved scenario's steps and changes nothing else |
| `Invariants.AddSuiteKeeps` | Testoria/UseCase.swift:32-34 | addSuite keeps ownership and records the drawn id; with an id not drawn before, suite ids stay distinct |
| `Invariants.AddScenarioKeeps` | Testoria/UseCase.swift:50-51 | the new scenario's id carries its suite's id value; with a new id, scenario ids stay distinct within the suite |
| `Invariants.RenameSuiteKeeps` | Testoria/UseCase.swift:62 | a rename writes only `name`, so suite ids are never reassigned and all invariants hold |
| `Invariants.DeleteSuiteKeeps` | Testoria/UseCase.swift:81 | removing a suite keeps every invariant |
| `Invariants.RenameScenarioKeeps` | Testoria/UseCase.swift:72 | renaming a scenario keeps every invariant |
| `Invariants.DeleteScenarioKeeps` | Testoria/UseCase.swift:90 | removing a scenario keeps every invariant |
| `Invariants.AddStepKeeps` | Testoria/UseCase.swift:102 | appending a step keeps every invariant |
| `IdSupply.Decimal` | TestoriaTests/UseCaseTests.swift:209 | the interpolated counter is a non-empty string of digits, at least two long from 10 on |
| `IdSupply.DecimalInjective` | TestoriaTests/UseCaseTests.swift:209 | distinct counter values give distinct numerals |
| `IdSupply.CountingSupply` | TestoriaTests/UseCaseTests.swift:205-211 | every id of the test supply starts with `uniqueId_` |
| `IdSupply.CountingSupplyIsFresh` | TestoriaTests/UseCaseTests.swift:205-211 | the test supply never returns the same id twice |
| `IdSupply.CountingSupplyStart` | TestoriaTests/UseCaseTests.swift:205-211 | the test supply's first four ids are `uniqueId_1` to `uniqueId_4` |
| `UseCaseModel.UseCase.constructor` | Testoria/UseCase.swift:17-23 | starts with no suites and keeps the given catalogue and supply |
| `UseCaseModel.UseCase.NextIdIsNew` | Testoria/UseCase.swift:32 | with a fresh supply, the next id differs from every id drawn before |
| `UseCaseModel.UseCase.AddSuite` | Testoria/UseCase.swift:25-36 | behaves as `Hierarchy.AddSuite` and keeps the invariants; draws an id only on success; with a fresh supply, the returned id differs from every existing suite id |
| `UseCaseModel.UseCase.AddScenario` | Testoria/UseCase.swift:38-53 | behaves as `Hierarchy.AddScenario` and keeps the invariants; draws an id only on success; with a fresh supply, the new id value differs from every existing scenario's |
| `UseCaseModel.UseCase.RenameSuite` | Testoria/UseCase.swift:55-63 | behaves as `Hierarchy.RenameSuite`, keeps the invariants, and draws no id |
| `UseCaseModel.UseCase.RenameScenario` | Testoria/UseCase.swift:65-73 | behaves as `Hierarchy.RenameScenario`, keeps the invariants, and draws no id |
| `UseCaseModel.UseCase.DeleteSuite` | Testoria/UseCase.swift:75-82 | behaves as `Hierarchy.DeleteSuite`, keeps the invariants, and draws no id |
| `UseCaseModel.UseCase.DeleteScenario` | Testoria/UseCase.swift:84-91 | behaves as `Hierarchy.DeleteScenario`, keeps the invariants, and draws no id |
| `UseCaseModel.UseCase.AddStep` | Testoria/UseCase.swift:93-103 | behaves as `Hierarchy.AddStep`, keeps the invariants, and draws no id |
| `UseCaseModel.UseCase.GetAvailableActions` | Testoria/UseCase.swift:105-107 | always `[tap, swipeLeft, swipeRight, swipeUp, swipeDown, typeText]`: complete, without repeats, in declaration order |
| `UseCaseModel.UseCase.GetAvailableElements` | Testoria/UseCase.swift:109-111 | the catalogue exactly as supplied |
| `UseCaseModel.UseCase.BuildSuites` | Testoria/UseCase.swift:113-115 | the whole current hierarchy, in order |
| `Properties.SuiteIndexStable` | Testoria/UseCase.swift:129 | suite lookup depends only on the ids at each position |
| `Properties.ScenarioIndexStable` | Testoria/UseCase.swift:139-147 | scenario lookup depends only on ids and positions, never on names or steps |
| `Properties.ScenarioIndexFindsStored` | Testoria/UseCase.swift:139-147 | under the invariants, the two-stage lookup succeeds exactly when some suite stores a scenario with that full composite id |
| `Properties.UnknownSuiteHalfNotFound` | Testoria/UseCase.swift:65-103 | a scenario id whose suite half names no suite makes renameScenario, deleteScenario and addStep throw `scenarioNotFound(id)` with state unchanged |
| `Properties.TwoSuitesInCreationOrder` | TestoriaTests/UseCaseTests.swift:25-50 | two suites with distinct new names are both appended, in creation order, with their drawn ids |
| `Properties.RecurringSuiteNameRejected` | TestoriaTests/UseCaseTests.swift:52-61 | after a suite is created, a second addSuite with that name throws `recurringSuiteName` and changes nothing |
| `Properties.RecurringScenarioNameRejected` | TestoriaTests/UseCaseTests.swift:130-140 | after a scenario is created, the same name in the same suite throws `recurringScenarioName(suite name, name)` and changes nothing |
| `Properties.SameScenarioNameInAnotherSuite` | TestoriaTests/UseCaseTests.swift:142-189 | a name used in one suite never blocks creating that name in a different suite |
| `Properties.AppendedScenarioIsFirstMatch` | Testoria/UseCase.swift:143 | a scenario appended after scenarios with other ids is the first match for its id |
| `Properties.AddedScenarioResolves` | Testoria/UseCase.swift:50-52 | the id addScenario returns resolves to the scenario just appended, at the end of its suite |
| `Properties.StepsKeepAppendOrder` | Testoria/UseCase.swift:93-103 | two addStep calls on one scenario both succeed and leave the steps in call order |
| `Properties.DeleteSuiteCascades` | Testoria/UseCase.swift:75-82 | after deleteSuite, no suite has that id and no scenario refers to it; every other suite remains |
| `Properties.DeletedScenarioIsGone` | Testoria/UseCase.swift:84-91 | after deleteScenario, the id no longer resolves, so later operations on it throw `scenarioNotFound` |
| `Session.HomeScreenFixture` | TestoriaTests/UseCaseTests.swift:7-23 | with the test supply, `addSuite("Home screen")` returns `.id("uniqueId_1")` and yields `[Suite(.id("uniqueId_1"), "Home screen")]` |
| `Session.TwoSuitesFixture` | TestoriaTests/UseCaseTests.swift:25-36 | two suites get `uniqueId_1` and `uniqueId_2`, in creation order |
| `Session.AddSuitesSession` | TestoriaTests/UseCaseTests.swift:25-61 | both ids and the two-suite hierarchy as expected; a second "Home screen" throws `recurringSuiteName("Home screen")` and the hierarchy stays the same |
| `Session.OneScenarioFixture` | TestoriaTests/UseCaseTests.swift:63-90 | a scenario added to the first suite gets id `("uniqueId_1", "uniqueId_2")` and no steps, and it is the suite's only scenario |
| `Session.SecondScenarioFixture` | TestoriaTests/UseCaseTests.swift:92-108 | a second scenario in the same suite gets `("uniqueId_1", "uniqueId_3")` and follows the first |
| `Session.SameSuiteScenariosSession` | TestoriaTests/UseCaseTests.swift:92-128 | both scenario ids and the one-suite, two-scenario hierarchy as expected |
| `Session.AddScenariosSession` | TestoriaTests/UseCaseTests.swift:142-189 | scenarios in two suites get `("uniqueId_1", "uniqueId_3")` and `("uniqueId_2", "uniqueId_4")`, each in its own suite |
| `Session.RejectedScenariosSession` | TestoriaTests/UseCaseTests.swift:130-140 | the repeated name throws `recurringScenarioName("Home screen", "Show welcome message")`; `.id("wrongId")` throws `suiteNotFound`; the hierarchy is unchanged |
| `Session.StepsSession` | Testoria/UseCase.swift:93-111 | two addStep calls leave `[tap someElement, typeText otherElement]`; the catalogue is returned as supplied |
| `Session.DeletionSession` | Testoria/UseCase.swift:65-91 | a scenario id with a wrong suite half throws `scenarioNotFound`; deleting the only suite succeeds and leaves no suites |

## Left out

- The default generator `{ UUID().uuidString }` is a Foundation call. The
  model takes the supply as a parameter of the constructor. Freshness is a
  stated assumption (`IdSupply.Fresh`), and it is proved only for the
  counting supply of the tests.
- Swift `String` equality is Unicode canonical equivalence. Names and ids
  here are `seq<char>` compared element by element.
- The copy-on-return semantics of `buildSuites` and `getAvailableElements`
  are not modelled separately. Dafny sequences are immutable values, so
  the returned value is already a snapshot.
- `Element.type` is called `kind` here, because `type` is a Dafny keyword.
- The test helper `makeSUT` omits the `elements:` argument that the
  initializer requires. The model follows `UseCase.swift`, and the test
  fixtures pass a catalogue explicitly.
- XCTest and CustomDump are not modelled. The test cases appear only as
  the client methods of `Session`.
- Exclusive, single-threaded access is assumed. Each method runs to
  completion with nothing interleaved.
