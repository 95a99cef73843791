/**
 * The upload progress modal: four fixed steps, the current one found by its
 * id, and every step shown as active, completed or pending by comparing
 * its position with the current one.
 */
module ProgressModal {
  /** The step ids, in the order the modal lists them. */
  const StepIds: seq<string> := ["uploading", "saving", "email", "complete"]

  /** `findIndex`: the first position holding `id`, or -1. */
  function IndexOf(ids: seq<string>, id: string): (i: int)
    ensures -1 <= i < |ids|
    ensures i == -1 <==> id !in ids
    ensures 0 <= i ==> ids[i] == id && forall j :: 0 <= j < i ==> ids[j] != id
  {
    if ids == [] then -1
    else if ids[0] == id then 0
    else
      var k := IndexOf(ids[1..], id);
      if k == -1 then -1 else k + 1
  }

  /** `getCurrentStepIndex` */
  function CurrentStepIndex(current: string): (i: int)
    ensures -1 <= i < |StepIds|
  {
    IndexOf(StepIds, current)
  }

  /** The steps' ids are distinct, so each id is found at its own position. */
  lemma StepIndexOfEachId(k: nat)
    requires k < |StepIds|
    ensures CurrentStepIndex(StepIds[k]) == k
  {
    var i := CurrentStepIndex(StepIds[k]);
    assert 0 <= i;
    assert StepIds[i] == StepIds[k];
  }

  datatype Status = Active | Completed | Pending

  /** The three flags of a step and the class they pick, active taking precedence. */
  function StatusOf(currentIndex: int, index: int): (s: Status)
    ensures s == Active <==> currentIndex == index
    ensures s == Completed <==> currentIndex > index
    ensures s == Pending <==> currentIndex < index
  {
    var isActive := currentIndex == index;
    var isCompleted := currentIndex > index;
    if isActive then Active else if isCompleted then Completed else Pending
  }

  /** How each step is shown for the given current id. */
  function Statuses(current: string): (ss: seq<Status>)
    ensures |ss| == |StepIds|
  {
    var ci := CurrentStepIndex(current);
    seq(|StepIds|, i requires 0 <= i < |StepIds| => StatusOf(ci, i))
  }

  /**
   * For a known id, the steps before it are completed, the ones after it
   * pending, and it alone is active.
   */
  lemma KnownStepPartition(current: string)
    requires current in StepIds
    ensures var ss := Statuses(current);
      var k := CurrentStepIndex(current);
      && 0 <= k < |StepIds| && StepIds[k] == current
      && (forall i :: 0 <= i < k ==> ss[i] == Completed)
      && ss[k] == Active
      && (forall i :: k < i < |ss| ==> ss[i] == Pending)
      && (forall i, j :: 0 <= i < |ss| && 0 <= j < |ss| && ss[i] == Active && ss[j] == Active ==> i == j)
  {
  }

  /** For an unknown id, every step is pending and none is active. */
  lemma UnknownStepAllPending(current: string)
    requires current !in StepIds
    ensures forall i :: 0 <= i < |StepIds| ==> Statuses(current)[i] == Pending
  {
  }
}
