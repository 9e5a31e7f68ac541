/** `src/components/ComplaintProgressBar.tsx`: how a complaint's status is
    drawn as eight numbered steps with a fill bar, or as a rejection banner. */
module ProgressBar {
  import opened Types
  import opened StatusFlow
  import Seqs

  /** What a step circle shows: a check mark or its 1-based number. */
  datatype StepLabel = CheckMark | Number(n: nat)

  datatype Step = Step(status: ComplaintStatus, completed: bool, current: bool, mark: StepLabel)

  /** The fill bar width is `fillNumerator / fillDenominator` of the track. */
  datatype ProgressView =
    | RejectedBanner
    | Steps(steps: seq<Step>, fillNumerator: int, fillDenominator: nat)

  /** The status of the complaint lies at or after position `i` of the flow. */
  predicate ReachedStep(status: ComplaintStatus, i: nat)
  {
    exists k :: i <= k < |STATUS_FLOW| && STATUS_FLOW[k] == status
  }

  /** The status of the complaint lies strictly after position `i` of the flow. */
  predicate PassedStep(status: ComplaintStatus, i: nat)
  {
    exists k :: i < k < |STATUS_FLOW| && STATUS_FLOW[k] == status
  }

  function MakeStep(i: nat, currentIndex: int): Step
    requires i < |STATUS_FLOW|
  {
    var completed := i <= currentIndex;
    Step(STATUS_FLOW[i], completed, i == currentIndex,
      if completed && i < currentIndex then CheckMark else Number(i + 1))
  }

  /** Renders the progress bar for a status. */
  function Render(status: ComplaintStatus): (v: ProgressView)
    ensures status == Rejected <==> v.RejectedBanner?
    ensures v.Steps? ==> |v.steps| == |STATUS_FLOW| == 8
    ensures v.Steps? ==> v.fillDenominator == 7 && 0 <= v.fillNumerator <= 7
    ensures v.Steps? ==> STATUS_FLOW[v.fillNumerator] == status
    ensures v.Steps? ==> v.fillNumerator == FlowIndex(status)
    ensures v.Steps? ==> forall i :: 0 <= i < |v.steps| ==> v.steps[i] == MakeStep(i, v.fillNumerator)
  {
    if status == Rejected then RejectedBanner
    else
      var ci := FlowIndex(status);
      FlowIndexRange(status);
      FlowShape();
      var steps := seq(|STATUS_FLOW|, i requires 0 <= i < |STATUS_FLOW| => MakeStep(i, ci));
      Steps(steps, ci, |STATUS_FLOW| - 1)
  }

  /** Off the rejection branch, the steps are the flow in order; a step is
      current exactly when it shows the status itself, completed exactly when
      the status has reached it, and shows a check mark exactly when the status
      has moved past it (otherwise its 1-based number). */
  lemma StepsClassified(status: ComplaintStatus)
    requires status != Rejected
    ensures Render(status).Steps?
    ensures forall i :: 0 <= i < |Render(status).steps| ==>
      && Render(status).steps[i].status == STATUS_FLOW[i]
      && (Render(status).steps[i].current <==> STATUS_FLOW[i] == status)
      && (Render(status).steps[i].completed <==> ReachedStep(status, i))
      && (Render(status).steps[i].mark == CheckMark <==> PassedStep(status, i))
      && (Render(status).steps[i].mark != CheckMark ==> Render(status).steps[i].mark == Number(i + 1))
  {
    var v := Render(status);
    forall i | 0 <= i < |v.steps|
      ensures ReachedStep(status, i) <==> i <= v.fillNumerator
      ensures PassedStep(status, i) <==> i < v.fillNumerator
      ensures STATUS_FLOW[i] == status <==> i == v.fillNumerator
    {
      StepPosition(status, i);
    }
  }

  /** Where step `i` stands relative to the status's own position. */
  lemma StepPosition(status: ComplaintStatus, i: nat)
    requires status != Rejected
    requires i < 8
    ensures ReachedStep(status, i) <==> i <= FlowIndex(status)
    ensures PassedStep(status, i) <==> i < FlowIndex(status)
    ensures STATUS_FLOW[i] == status <==> i == FlowIndex(status)
  {
    FlowIndexRange(status);
    var ci := FlowIndex(status);
    if ReachedStep(status, i) {
      var k :| i <= k < |STATUS_FLOW| && STATUS_FLOW[k] == status;
      FlowPositionUnique(k, ci);
    }
    if PassedStep(status, i) {
      var k :| i < k < |STATUS_FLOW| && STATUS_FLOW[k] == status;
      FlowPositionUnique(k, ci);
    }
    if STATUS_FLOW[i] == status {
      FlowPositionUnique(i, ci);
    }
    if i <= ci {
      assert i <= ci < |STATUS_FLOW| && STATUS_FLOW[ci] == status;
    }
    if i < ci {
      assert i < ci < |STATUS_FLOW| && STATUS_FLOW[ci] == status;
    }
  }

  function IsCompleted(s: Step): bool
  {
    s.completed
  }

  function IsCurrent(s: Step): bool
  {
    s.current
  }

  /** Off the rejection branch, the completed steps are the first
      `currentIndex + 1`, and exactly one step is current. */
  lemma {:induction false} CompletedStepsFormPrefix(status: ComplaintStatus)
    requires status != Rejected
    ensures Render(status).Steps?
    ensures Seqs.Count(IsCompleted, Render(status).steps) == FlowIndex(status) + 1
    ensures Seqs.Count(IsCurrent, Render(status).steps) == 1
    ensures forall i, j :: 0 <= i < j < 8 && Render(status).steps[j].completed ==>
      Render(status).steps[i].completed
  {
    var v := Render(status);
    var ci: nat := v.fillNumerator;
    CountFlagPrefix(v.steps, ci);
    CountSingleCurrent(v.steps, ci);
  }

  /** Steps completed exactly up to `ci` number `ci + 1`. */
  lemma CountFlagPrefix(steps: seq<Step>, ci: nat)
    requires ci < |steps|
    requires forall i :: 0 <= i < |steps| ==> (steps[i].completed <==> i <= ci)
    ensures Seqs.Count(IsCompleted, steps) == ci + 1
  {
    var pre := steps[..ci + 1];
    var post := steps[ci + 1..];
    assert steps == pre + post;
    Seqs.FilterAppend(IsCompleted, pre, post);
    Seqs.FilterKeepsAll(IsCompleted, pre);
    Seqs.FilterDropsAll(IsCompleted, post);
  }

  /** Exactly one step is current when only position `ci` is. */
  lemma CountSingleCurrent(steps: seq<Step>, ci: nat)
    requires ci < |steps|
    requires forall i :: 0 <= i < |steps| ==> (steps[i].current <==> i == ci)
    ensures Seqs.Count(IsCurrent, steps) == 1
  {
    var before := steps[..ci];
    var at := [steps[ci]];
    var after := steps[ci + 1..];
    assert steps == before + at + after;
    Seqs.FilterAppend(IsCurrent, before + at, after);
    Seqs.FilterAppend(IsCurrent, before, at);
    Seqs.FilterDropsAll(IsCurrent, before);
    Seqs.FilterDropsAll(IsCurrent, after);
    Seqs.FilterKeepsAll(IsCurrent, at);
  }

  /** A status sits at one position of the flow only. */
  lemma FlowPositionUnique(a: nat, b: nat)
    requires a < 8 && b < 8
    requires STATUS_FLOW[a] == STATUS_FLOW[b]
    ensures a == b
  {
    FlowShape();
  }

  /** The fill grows strictly along the flow. */
  lemma FillIncreasing(i: nat, j: nat)
    requires i < j < 8
    ensures Render(STATUS_FLOW[i]).fillNumerator < Render(STATUS_FLOW[j]).fillNumerator
  {
    FlowShape();
    var vi := Render(STATUS_FLOW[i]);
    var vj := Render(STATUS_FLOW[j]);
    FlowPositionUnique(vi.fillNumerator, i);
    FlowPositionUnique(vj.fillNumerator, j);
  }

  /** The fill is empty at `New` and full at `Closed`. */
  lemma FillEnds()
    ensures Render(New).fillNumerator == 0
    ensures Render(Closed).fillNumerator == Render(Closed).fillDenominator
  {
    FlowShape();
    var vn := Render(New);
    FlowPositionUnique(vn.fillNumerator, 0);
    var vc := Render(Closed);
    FlowPositionUnique(vc.fillNumerator, 7);
  }
}
