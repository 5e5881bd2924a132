/**
 * The invariants every operation of the use case keeps:
 *  - ownership: each scenario's id carries the id value of the suite that
 *    holds it (the id is built from `suite.id.value` and neither ids nor
 *    scenario positions across suites ever change);
 *  - provenance: every id value in the tree was drawn from the supplier;
 *  - uniqueness: when the supplier never repeats itself, suite ids are
 *    pairwise distinct and so are the scenario ids inside each suite.
 * Name uniqueness is NOT an invariant: the renames can introduce duplicates.
 */
module Invariants {
  import opened Entities
  import opened Lookup
  import opened Hierarchy

  ghost predicate OwnsScenarios(s: Suite)
  {
    forall j :: 0 <= j < |s.scenarios| ==> s.scenarios[j].id.suiteId == s.id.value
  }

  ghost predicate Owned(suites: seq<Suite>)
  {
    forall i :: 0 <= i < |suites| ==> OwnsScenarios(suites[i])
  }

  ghost predicate IdsIn(s: Suite, ids: set<string>)
  {
    && s.id.value in ids
    && forall j :: 0 <= j < |s.scenarios| ==> s.scenarios[j].id.value in ids
  }

  /** Every suite id value and scenario id value occurs in `ids`. */
  ghost predicate DrawnFrom(suites: seq<Suite>, ids: set<string>)
  {
    forall i :: 0 <= i < |suites| ==> IdsIn(suites[i], ids)
  }

  ghost predicate DistinctScenarioIds(s: Suite)
  {
    forall j, l :: 0 <= j < l < |s.scenarios| ==> s.scenarios[j].id != s.scenarios[l].id
  }

  ghost predicate UniqueIds(suites: seq<Suite>)
  {
    && (forall i, k :: 0 <= i < k < |suites| ==> suites[i].id != suites[k].id)
    && (forall i :: 0 <= i < |suites| ==> DistinctScenarioIds(suites[i]))
  }

  lemma DrawnFromGrows(suites: seq<Suite>, ids: set<string>, more: set<string>)
    requires DrawnFrom(suites, ids) && ids <= more
    ensures DrawnFrom(suites, more)
  {
  }

  /** A successful addSuite keeps ownership, records the drawn id, and keeps ids unique when it is fresh. */
  lemma AddSuiteKeeps(suites: seq<Suite>, name: string, freshId: string, ids: set<string>)
    requires Owned(suites) && DrawnFrom(suites, ids)
    ensures var t := AddSuite(suites, name, freshId);
      && Owned(t.after)
      && DrawnFrom(t.after, if t.result.Ok? then ids + {freshId} else ids)
      && (UniqueIds(suites) && freshId !in ids ==> UniqueIds(t.after))
  {
    var t := AddSuite(suites, name, freshId);
    if t.result.Ok? {
      assert forall i :: 0 <= i < |suites| ==> t.after[i] == suites[i] by {
        forall i | 0 <= i < |suites| ensures t.after[i] == suites[i] {
          assert t.after[i] == t.after[..|suites|][i];
        }
      }
    }
  }

  /** A successful addScenario builds an id its suite owns; with a fresh id, ids stay unique. */
  lemma AddScenarioKeeps(suites: seq<Suite>, name: string, suiteId: SuiteId, freshId: string, ids: set<string>)
    requires Owned(suites) && DrawnFrom(suites, ids)
    ensures var t := AddScenario(suites, name, suiteId, freshId);
      && Owned(t.after)
      && DrawnFrom(t.after, if t.result.Ok? then ids + {freshId} else ids)
      && (UniqueIds(suites) && freshId !in ids ==> UniqueIds(t.after))
  {
    var t := AddScenario(suites, name, suiteId, freshId);
    if t.result.Ok? {
      var i := SuiteIndex(suites, suiteId).value;
      var s, s' := suites[i], t.after[i];
      assert s'.scenarios[|s.scenarios|].id == ScenarioId(s.id.value, freshId);
      assert OwnsScenarios(s');
      assert IdsIn(s', ids + {freshId});
      if UniqueIds(suites) && freshId !in ids {
        assert DistinctScenarioIds(s');
      }
    }
  }

  /** renameSuite writes only a name: ids and scenarios stay where they were. */
  lemma RenameSuiteKeeps(suites: seq<Suite>, newName: string, suiteId: SuiteId, ids: set<string>)
    requires Owned(suites) && DrawnFrom(suites, ids)
    ensures var t := RenameSuite(suites, newName, suiteId);
      && Owned(t.after) && DrawnFrom(t.after, ids)
      && (UniqueIds(suites) ==> UniqueIds(t.after))
  {
    var t := RenameSuite(suites, newName, suiteId);
    if t.result.Ok? {
      var i := SuiteIndex(suites, suiteId).value;
      assert OwnsScenarios(t.after[i]) && IdsIn(t.after[i], ids);
    }
  }

  /** deleteSuite removes one suite; what is left keeps every invariant. */
  lemma DeleteSuiteKeeps(suites: seq<Suite>, suiteId: SuiteId, ids: set<string>)
    requires Owned(suites) && DrawnFrom(suites, ids)
    ensures var t := DeleteSuite(suites, suiteId);
      && Owned(t.after) && DrawnFrom(t.after, ids)
      && (UniqueIds(suites) ==> UniqueIds(t.after))
  {
  }

  /** renameScenario writes only a name inside one suite. */
  lemma RenameScenarioKeeps(suites: seq<Suite>, newName: string, scenarioId: ScenarioId, ids: set<string>)
    requires Owned(suites) && DrawnFrom(suites, ids)
    ensures var t := RenameScenario(suites, newName, scenarioId);
      && Owned(t.after) && DrawnFrom(t.after, ids)
      && (UniqueIds(suites) ==> UniqueIds(t.after))
  {
    var t := RenameScenario(suites, newName, scenarioId);
    if t.result.Ok? {
      var p := ScenarioIndex(suites, scenarioId).value;
      assert OwnsScenarios(t.after[p.suite]) && IdsIn(t.after[p.suite], ids);
      if UniqueIds(suites) {
        assert DistinctScenarioIds(t.after[p.suite]);
      }
    }
  }

  /** deleteScenario removes one scenario of one suite. */
  lemma DeleteScenarioKeeps(suites: seq<Suite>, scenarioId: ScenarioId, ids: set<string>)
    requires Owned(suites) && DrawnFrom(suites, ids)
    ensures var t := DeleteScenario(suites, scenarioId);
      && Owned(t.after) && DrawnFrom(t.after, ids)
      && (UniqueIds(suites) ==> UniqueIds(t.after))
  {
    var t := DeleteScenario(suites, scenarioId);
    if t.result.Ok? {
      var p := ScenarioIndex(suites, scenarioId).value;
      assert OwnsScenarios(t.after[p.suite]) && IdsIn(t.after[p.suite], ids);
      if UniqueIds(suites) {
        assert DistinctScenarioIds(t.after[p.suite]);
      }
    }
  }

  /** addStep touches only the step list of one scenario. */
  lemma AddStepKeeps(suites: seq<Suite>, action: Action, element: Element, scenarioId: ScenarioId, ids: set<string>)
    requires Owned(suites) && DrawnFrom(suites, ids)
    ensures var t := AddStep(suites, action, element, scenarioId);
      && Owned(t.after) && DrawnFrom(t.after, ids)
      && (UniqueIds(suites) ==> UniqueIds(t.after))
  {
    var t := AddStep(suites, action, element, scenarioId);
    if t.result.Ok? {
      var p := ScenarioIndex(suites, scenarioId).value;
      assert OwnsScenarios(t.after[p.suite]) && IdsIn(t.after[p.suite], ids);
      if UniqueIds(suites) {
        assert DistinctScenarioIds(t.after[p.suite]);
      }
    }
  }
}
