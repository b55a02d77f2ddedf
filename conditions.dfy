/** `evaluateResponse` (webmetric.go:111-152): the success and failure
    conditions of a metric, either of which may be empty, combined into one
    phase. The expression language itself is an injected evaluator. */
module Conditions {
  import opened Wrappers
  import opened Primitive
  import opened Analysis

  /** evaluate.EvalCondition: whether an expression holds of a value, or an error. */
  type Evaluator = (Value, string) -> Result<bool, string>

  datatype Condition = SuccessCondition | FailureCondition

  /** What lines 112-128 leave behind: both flags, or the first condition
      whose evaluation failed (only that of the success condition is logged). */
  datatype Evaluated = Evaluated(success: bool, failure: bool) | EvalFailed(failing: Condition, msg: string)

  /** Lines 112-128: the success condition is evaluated first, the failure
      condition only if the success condition did not fail; an empty
      condition is not evaluated and leaves its flag false. */
  function EvaluateConditions(metric: Metric, result: Value, eval: Evaluator): (e: Evaluated)
    ensures metric.successCondition != "" && eval(result, metric.successCondition).Failure? ==>
              e == EvalFailed(SuccessCondition, eval(result, metric.successCondition).error)
    ensures (e.EvalFailed? && e.failing == FailureCondition) <==>
              (metric.successCondition == "" || eval(result, metric.successCondition).Success?) &&
              metric.failureCondition != "" && eval(result, metric.failureCondition).Failure?
    ensures e.EvalFailed? && e.failing == SuccessCondition ==>
              metric.successCondition != "" && eval(result, metric.successCondition).Failure?
    ensures e.EvalFailed? && e.failing == FailureCondition ==>
              e.msg == eval(result, metric.failureCondition).error
    ensures e.Evaluated? <==>
              !(metric.successCondition != "" && eval(result, metric.successCondition).Failure?) &&
              !(metric.failureCondition != "" && eval(result, metric.failureCondition).Failure?)
    ensures e.Evaluated? ==>
              (e.success <==> metric.successCondition != "" && eval(result, metric.successCondition) == Success(true)) &&
              (e.failure <==> metric.failureCondition != "" && eval(result, metric.failureCondition) == Success(true))
  {
    var s := if metric.successCondition == "" then Success(false) else eval(result, metric.successCondition);
    if s.Failure? then EvalFailed(SuccessCondition, s.error)
    else
      var f := if metric.failureCondition == "" then Success(false) else eval(result, metric.failureCondition);
      if f.Failure? then EvalFailed(FailureCondition, f.error)
      else Evaluated(s.value, f.value)
  }

  /** Lines 130-151: a missing condition is the negation of the present one,
      then failure wins, and neither holding is Inconclusive. */
  function Decide(metric: Metric, successCondition: bool, failCondition: bool): AnalysisPhase
  {
    if metric.successCondition == "" && metric.failureCondition == "" then Successful
    else
      var failCondition :=
        if metric.successCondition != "" && metric.failureCondition == "" then !successCondition else failCondition;
      var successCondition :=
        if metric.successCondition == "" && metric.failureCondition != "" then !failCondition else successCondition;
      if failCondition then Failed
      else if !failCondition && !successCondition then Inconclusive
      else Successful
  }

  /** The outcome of one condition, as a column of the decision table. */
  datatype Outcome = Unset | Holds | DoesNotHold | Errs

  function OutcomeOf(condition: string, result: Value, eval: Evaluator): Outcome
  {
    if condition == "" then Unset
    else match eval(result, condition)
      case Failure(_) => Errs
      case Success(b) => if b then Holds else DoesNotHold
  }

  /** The decision table, written out row by row independently of the code:
      (success outcome, failure outcome) to phase. */
  function Table(success: Outcome, failure: Outcome): AnalysisPhase
  {
    match (success, failure)
    case (Errs, _) => Error
    case (_, Errs) => Error
    case (Unset, Unset) => Successful
    case (Unset, Holds) => Failed
    case (Unset, DoesNotHold) => Successful
    case (Holds, Unset) => Successful
    case (DoesNotHold, Unset) => Failed
    case (Holds, Holds) => Failed
    case (Holds, DoesNotHold) => Successful
    case (DoesNotHold, Holds) => Failed
    case (DoesNotHold, DoesNotHold) => Inconclusive
  }

  /** evaluateResponse. */
  function EvaluateResponse(metric: Metric, result: Value, eval: Evaluator): (phase: AnalysisPhase)
    ensures phase == Table(OutcomeOf(metric.successCondition, result, eval),
                           OutcomeOf(metric.failureCondition, result, eval))
    ensures phase != NoPhase
    // no condition: always Successful
    ensures metric.successCondition == "" && metric.failureCondition == "" ==> phase == Successful
    // an evaluation error, of either condition, and nothing else gives Error
    ensures phase == Error <==>
              (metric.successCondition != "" && eval(result, metric.successCondition).Failure?) ||
              (metric.failureCondition != "" && eval(result, metric.failureCondition).Failure?)
    // one condition only: never Inconclusive, the missing one is the negation
    ensures metric.successCondition != "" && metric.failureCondition == "" ==>
              (phase == Successful <==> eval(result, metric.successCondition) == Success(true)) &&
              (phase == Failed <==> eval(result, metric.successCondition) == Success(false))
    ensures metric.successCondition == "" && metric.failureCondition != "" ==>
              (phase == Failed <==> eval(result, metric.failureCondition) == Success(true)) &&
              (phase == Successful <==> eval(result, metric.failureCondition) == Success(false))
    // both conditions: failure wins, neither holding is Inconclusive
    ensures metric.successCondition != "" && metric.failureCondition != "" ==>
              (phase == Successful <==>
                 eval(result, metric.successCondition) == Success(true) &&
                 eval(result, metric.failureCondition) == Success(false)) &&
              (phase == Inconclusive <==>
                 eval(result, metric.successCondition) == Success(false) &&
                 eval(result, metric.failureCondition) == Success(false)) &&
              ((eval(result, metric.successCondition) == Success(true) &&
                eval(result, metric.failureCondition) == Success(true)) ==> phase == Failed)
  {
    match EvaluateConditions(metric, result, eval)
    case EvalFailed(_, _) => Error
    case Evaluated(successCondition, failCondition) => Decide(metric, successCondition, failCondition)
  }
}
