/**
 * Properties that relate several operations of the use case, or that say
 * what a lookup means once the invariants hold.
 */
module Properties {
  import opened Entities
  import opened Lookup
  import opened Hierarchy
  import opened Invariants

  /** Two hierarchies with the same ids at the same places, suites and scenarios alike. */
  ghost predicate SameShape(before: seq<Suite>, after: seq<Suite>)
  {
    && |after| == |before|
    && (forall k :: 0 <= k < |before| ==> after[k].id == before[k].id)
    && (forall k :: 0 <= k < |before| ==> |after[k].scenarios| == |before[k].scenarios|)
    && (forall k, j :: 0 <= k < |before| && 0 <= j < |before[k].scenarios| ==>
          after[k].scenarios[j].id == before[k].scenarios[j].id)
  }

  lemma {:induction false} SuiteIndexStable(before: seq<Suite>, after: seq<Suite>, id: SuiteId)
    requires |after| == |before|
    requires forall k :: 0 <= k < |before| ==> after[k].id == before[k].id
    ensures SuiteIndex(after, id) == SuiteIndex(before, id)
  {
    if |before| > 0 && before[0].id != id {
      SuiteIndexStable(before[1..], after[1..], id);
    }
  }

  lemma {:induction false} ScenarioIndexInStable(before: seq<Scenario>, after: seq<Scenario>, id: ScenarioId)
    requires |after| == |before|
    requires forall k :: 0 <= k < |before| ==> after[k].id == before[k].id
    ensures ScenarioIndexIn(after, id) == ScenarioIndexIn(before, id)
  {
    if |before| > 0 && before[0].id != id {
      ScenarioIndexInStable(before[1..], after[1..], id);
    }
  }

  /** Scenario lookups depend on ids and positions only, never on names or steps. */
  lemma ScenarioIndexStable(before: seq<Suite>, after: seq<Suite>, id: ScenarioId)
    requires SameShape(before, after)
    ensures ScenarioIndex(after, id) == ScenarioIndex(before, id)
  {
    SuiteIndexStable(before, after, SuiteId(id.suiteId));
    var found := SuiteIndex(before, SuiteId(id.suiteId));
    if found.Some? {
      var i := found.value;
      ScenarioIndexInStable(before[i].scenarios, after[i].scenarios, id);
    }
  }

  /**
   * With the invariants in place, the two-stage lookup finds a scenario
   * exactly when some suite stores a scenario with that composite id.
   */
  lemma ScenarioIndexFindsStored(suites: seq<Suite>, id: ScenarioId)
    requires Owned(suites) && UniqueIds(suites)
    ensures ScenarioIndex(suites, id).Some? <==>
      exists i, j :: 0 <= i < |suites| && 0 <= j < |suites[i].scenarios| && suites[i].scenarios[j].id == id
  {
    if i, j :| 0 <= i < |suites| && 0 <= j < |suites[i].scenarios| && suites[i].scenarios[j].id == id {
      assert OwnsScenarios(suites[i]);
      var found := SuiteIndex(suites, SuiteId(id.suiteId));
      assert found.Some? && found.value == i;
      assert ScenarioIndexIn(suites[i].scenarios, id).Some?;
    }
  }

  /**
   * A scenario id whose suite half names no suite is rejected by every
   * operation that takes one, whatever scenario values exist elsewhere.
   */
  lemma UnknownSuiteHalfNotFound(suites: seq<Suite>, id: ScenarioId, newName: string, action: Action, element: Element)
    requires forall k :: 0 <= k < |suites| ==> suites[k].id.value != id.suiteId
    ensures RenameScenario(suites, newName, id) == Transition(Err(ScenarioNotFound(id)), suites)
    ensures DeleteScenario(suites, id) == Transition(Err(ScenarioNotFound(id)), suites)
    ensures AddStep(suites, action, element, id) == Transition(Err(ScenarioNotFound(id)), suites)
  {
  }

  /** Creating two differently named suites appends both, in creation order. */
  lemma TwoSuitesInCreationOrder(suites: seq<Suite>, first: string, second: string, id1: string, id2: string)
    requires first != second
    requires forall k :: 0 <= k < |suites| ==> suites[k].name != first && suites[k].name != second
    ensures var t1 := AddSuite(suites, first, id1);
      var t2 := AddSuite(t1.after, second, id2);
      && t1.result == Ok(SuiteId(id1))
      && t2.result == Ok(SuiteId(id2))
      && t2.after == suites + [Suite(SuiteId(id1), first, []), Suite(SuiteId(id2), second, [])]
  {
    var t1 := AddSuite(suites, first, id1);
    assert t1.after == suites + [Suite(SuiteId(id1), first, [])];
    var t2 := AddSuite(t1.after, second, id2);
    assert t2.after == t1.after + [Suite(SuiteId(id2), second, [])];
  }

  /** Once a suite is created, creating another with the same name fails and changes nothing. */
  lemma RecurringSuiteNameRejected(suites: seq<Suite>, name: string, id1: string, id2: string)
    requires AddSuite(suites, name, id1).result.Ok?
    ensures var after := AddSuite(suites, name, id1).after;
      AddSuite(after, name, id2) == Transition(Err(RecurringSuiteName(name)), after)
  {
    var after := AddSuite(suites, name, id1).after;
    assert after[|suites|].name == name;
  }

  /** Once a scenario is created, the same name is rejected in the same suite. */
  lemma RecurringScenarioNameRejected(suites: seq<Suite>, name: string, suiteId: SuiteId, id1: string, id2: string)
    requires AddScenario(suites, name, suiteId, id1).result.Ok?
    ensures var after := AddScenario(suites, name, suiteId, id1).after;
      var i := SuiteIndex(suites, suiteId).value;
      AddScenario(after, name, suiteId, id2)
        == Transition(Err(RecurringScenarioName(suites[i].name, name)), after)
  {
    var after := AddScenario(suites, name, suiteId, id1).after;
    var i := SuiteIndex(suites, suiteId).value;
    SuiteIndexStable(suites, after, suiteId);
    assert after[i].scenarios[|suites[i].scenarios|].name == name;
  }

  /**
   * Scenario names are checked only inside the target suite: whatever
   * happened to another suite, a name new to suite `other` is accepted there.
   */
  lemma SameScenarioNameInAnotherSuite(
    suites: seq<Suite>, name: string, suiteId: SuiteId, other: SuiteId, id1: string, id2: string)
    requires suiteId != other
    requires SuiteIndex(suites, other).Some?
    requires forall j :: 0 <= j < |suites[SuiteIndex(suites, other).value].scenarios| ==>
      suites[SuiteIndex(suites, other).value].scenarios[j].name != name
    ensures var after := AddScenario(suites, name, suiteId, id1).after;
      AddScenario(after, name, other, id2).result == Ok(ScenarioId(other.value, id2))
  {
    var t := AddScenario(suites, name, suiteId, id1);
    var k := SuiteIndex(suites, other).value;
    SuiteIndexStable(suites, t.after, other);
    if t.result.Ok? {
      assert t.after[k] == suites[k];
    }
  }

  /** A scenario appended after others with different ids is the first match for its id. */
  lemma AppendedScenarioIsFirstMatch(scenarios: seq<Scenario>, added: Scenario)
    requires forall k :: 0 <= k < |scenarios| ==> scenarios[k].id != added.id
    ensures ScenarioIndexIn(scenarios + [added], added.id) == Some(|scenarios|)
  {
    var all := scenarios + [added];
    assert all[|scenarios|].id == added.id;
    assert forall k :: 0 <= k < |scenarios| ==> all[k] == scenarios[k];
  }

  /** The id addScenario returns resolves to the scenario it appended. */
  lemma AddedScenarioResolves(suites: seq<Suite>, name: string, suiteId: SuiteId, freshId: string, ids: set<string>)
    requires DrawnFrom(suites, ids) && freshId !in ids
    requires AddScenario(suites, name, suiteId, freshId).result.Ok?
    ensures var t := AddScenario(suites, name, suiteId, freshId);
      var i := SuiteIndex(suites, suiteId).value;
      ScenarioIndex(t.after, t.result.value) == Some(Position(i, |suites[i].scenarios|))
  {
    var t := AddScenario(suites, name, suiteId, freshId);
    var i := SuiteIndex(suites, suiteId).value;
    var id := t.result.value;
    SuiteIndexStable(suites, t.after, suiteId);
    assert SuiteId(id.suiteId) == suiteId;
    assert IdsIn(suites[i], ids);
    AppendedScenarioIsFirstMatch(suites[i].scenarios, Scenario(id, name, []));
  }

  /** Steps appended to a scenario keep the order in which they were appended. */
  lemma StepsKeepAppendOrder(suites: seq<Suite>, id: ScenarioId, a1: Action, e1: Element, a2: Action, e2: Element)
    requires ScenarioIndex(suites, id).Some?
    ensures var t1 := AddStep(suites, a1, e1, id);
      var t2 := AddStep(t1.after, a2, e2, id);
      var p := ScenarioIndex(suites, id).value;
      && t2.result.Ok?
      && t2.after[p.suite].scenarios[p.scenario].steps
         == suites[p.suite].scenarios[p.scenario].steps + [Step(a1, e1), Step(a2, e2)]
  {
    var t1 := AddStep(suites, a1, e1, id);
    var p := ScenarioIndex(suites, id).value;
    assert SameShape(suites, t1.after);
    ScenarioIndexStable(suites, t1.after, id);
    var t2 := AddStep(t1.after, a2, e2, id);
    var steps := suites[p.suite].scenarios[p.scenario].steps;
    assert t2.after[p.suite].scenarios[p.scenario].steps == (steps + [Step(a1, e1)]) + [Step(a2, e2)];
  }

  /**
   * Deleting a suite takes all its scenarios with it: afterwards no suite
   * has that id and no scenario id refers to it; every other suite remains.
   */
  lemma DeleteSuiteCascades(suites: seq<Suite>, suiteId: SuiteId)
    requires Owned(suites) && UniqueIds(suites)
    requires DeleteSuite(suites, suiteId).result.Ok?
    ensures var after := DeleteSuite(suites, suiteId).after;
      && |after| == |suites| - 1
      && (forall k :: 0 <= k < |after| ==> after[k].id != suiteId)
      && (forall k, j :: 0 <= k < |after| && 0 <= j < |after[k].scenarios| ==>
            after[k].scenarios[j].id.suiteId != suiteId.value)
      && (forall k :: 0 <= k < |suites| && suites[k].id != suiteId ==> suites[k] in after)
  {
    var after := DeleteSuite(suites, suiteId).after;
    var i := SuiteIndex(suites, suiteId).value;
    forall k | 0 <= k < |after| ensures after[k].id != suiteId && OwnsScenarios(after[k]) {
      if k < i {
        assert after[k] == suites[k];
      } else {
        assert after[k] == suites[k + 1];
      }
    }
    forall k | 0 <= k < |suites| && suites[k].id != suiteId ensures suites[k] in after {
      if k < i {
        assert after[k] == suites[k];
      } else {
        assert k != i;
        assert after[k - 1] == suites[k];
      }
    }
  }

  /**
   * Deleting a scenario makes its id unresolvable, so later renames, deletes
   * and step appends with that id fail.
   */
  lemma DeletedScenarioIsGone(suites: seq<Suite>, id: ScenarioId)
    requires Owned(suites) && UniqueIds(suites)
    requires DeleteScenario(suites, id).result.Ok?
    ensures ScenarioIndex(DeleteScenario(suites, id).after, id).None?
  {
    var after := DeleteScenario(suites, id).after;
    var p := ScenarioIndex(suites, id).value;
    var found := ScenarioIndex(after, id);
    if found.Some? {
      assert false;
    }
  }
}
