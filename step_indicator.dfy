/**
 * The form's step indicator: step `n` (counting from 1) is completed below
 * the current step, active at it and inactive above it; completed steps show
 * a check mark, and the connector after a step fills once the step is
 * completed.
 */
module StepIndicator {
  datatype Status = Completed | Active | Inactive

  /** What the indicator draws for one step. */
  datatype StepView = StepView(status: Status, showsCheck: bool, number: int)

  /** The three flags for step `stepNumber`; exactly one holds. */
  function StatusOf(stepNumber: int, currentStep: int): (s: Status)
    ensures s == Completed <==> stepNumber < currentStep
    ensures s == Active <==> stepNumber == currentStep
    ensures s == Inactive <==> stepNumber > currentStep
  {
    if stepNumber < currentStep then Completed
    else if stepNumber == currentStep then Active
    else Inactive
  }

  /** Every step as the indicator draws it. */
  function Steps(count: nat, currentStep: int): (vs: seq<StepView>)
    ensures |vs| == count
    ensures forall i :: 0 <= i < count ==> vs[i].number == i + 1
  {
    seq(count, i requires 0 <= i < count =>
      var status := StatusOf(i + 1, currentStep);
      StepView(status, status == Completed, i + 1))
  }

  /** Connector `i` follows step `i + 1`; it exists only below the last step. */
  function Connectors(count: nat, currentStep: int): (filled: seq<bool>)
    ensures |filled| == if count == 0 then 0 else count - 1
  {
    seq(if count == 0 then 0 else count - 1, i requires 0 <= i => StatusOf(i + 1, currentStep) == Completed)
  }

  /** A step shows a check mark exactly when it is completed, and its number otherwise. */
  lemma CheckMeansCompleted(count: nat, currentStep: int, i: nat)
    requires i < count
    ensures Steps(count, currentStep)[i].showsCheck <==> i + 1 < currentStep
  {
  }

  /** A connector is filled exactly when the step before it is completed. */
  lemma ConnectorFill(count: nat, currentStep: int, i: nat)
    requires i + 1 < count
    ensures Connectors(count, currentStep)[i] <==> Steps(count, currentStep)[i].status == Completed
  {
  }

  /** Exactly one step is active when the current step is within 1 to count, and none otherwise. */
  lemma ActiveStep(count: nat, currentStep: int)
    ensures 1 <= currentStep <= count ==> Steps(count, currentStep)[currentStep - 1].status == Active
    ensures forall i, j ::
      (0 <= i < count && 0 <= j < count &&
       Steps(count, currentStep)[i].status == Active && Steps(count, currentStep)[j].status == Active) ==> i == j
    ensures !(1 <= currentStep <= count) ==>
      forall i :: 0 <= i < count ==> Steps(count, currentStep)[i].status != Active
  {
  }
}
