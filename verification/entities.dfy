/**
 * The value types of the test-authoring model: UI elements, actions, steps,
 * scenarios, suites, their identities and the typed errors of the use case.
 * All of them are immutable values; the hierarchy is updated by replacing
 * values, never through shared references.
 */
module Entities {

  /** The kind of an addressable UI control. */
  datatype ElementType = View | Button

  /** A UI control from the externally supplied catalogue. */
  datatype Element = Element(name: string, id: string, kind: ElementType)

  /** The closed set of gestures a step can perform. */
  datatype Action = Tap | SwipeLeft | SwipeRight | SwipeUp | SwipeDown | TypeText

  /** Every action, in declaration order (the order of `Action.allCases`). */
  const AllActions: seq<Action> := [Tap, SwipeLeft, SwipeRight, SwipeUp, SwipeDown, TypeText]

  /** One instruction of a scenario: an action applied to an element. */
  datatype Step = Step(action: Action, element: Element)

  /** The identity of a suite: an opaque string. */
  datatype SuiteId = SuiteId(value: string)

  /**
   * The identity of a scenario: the `value` of its owning suite's id and a
   * value of its own; two ids are equal when both fields are.
   */
  datatype ScenarioId = ScenarioId(suiteId: string, value: string)

  datatype Scenario = Scenario(id: ScenarioId, name: string, steps: seq<Step>)

  datatype Suite = Suite(id: SuiteId, name: string, scenarios: seq<Scenario>)

  /** The four ways an operation of the use case can fail. */
  datatype UseCaseError =
    | RecurringSuiteName(name: string)
    | RecurringScenarioName(suiteName: string, scenarioName: string)
    | SuiteNotFound(suiteId: SuiteId)
    | ScenarioNotFound(scenarioId: ScenarioId)

  datatype Option<T> = None | Some(value: T)

  /** The outcome of a throwing operation: its value, or the error it throws. */
  datatype Result<T> = Ok(value: T) | Err(error: UseCaseError)

  /** `AllActions` lists every action exactly once. */
  lemma AllActionsEnumerates()
    ensures forall a: Action :: a in AllActions
    ensures forall i, j :: 0 <= i < j < |AllActions| ==> AllActions[i] != AllActions[j]
  {
    forall a: Action ensures a in AllActions {
      match a
      case Tap => assert AllActions[0] == a;
      case SwipeLeft => assert AllActions[1] == a;
      case SwipeRight => assert AllActions[2] == a;
      case SwipeUp => assert AllActions[3] == a;
      case SwipeDown => assert AllActions[4] == a;
      case TypeText => assert AllActions[5] == a;
    }
  }
}
