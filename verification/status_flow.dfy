/** The lifecycle lists of `src/lib/mockData.ts`: `STATUSES` (all nine
    statuses, in display order) and `STATUS_FLOW` (the eight-step happy path,
    without `Rejected`). */
module StatusFlow {
  import opened Types
  import Seqs

  const STATUSES: seq<ComplaintStatus> :=
    [New, Categorized, Assigned, InProgress, SentToDirectorate, AssessmentCompleted, Responded, Closed, Rejected]

  const STATUS_FLOW: seq<ComplaintStatus> :=
    [New, Categorized, Assigned, InProgress, SentToDirectorate, AssessmentCompleted, Responded, Closed]

  /** `arr.indexOf(x)`: the first position holding `x`, or -1 when there is none. */
  function IndexOf<T(==)>(s: seq<T>, x: T): (r: int)
    ensures -1 <= r < |s|
    ensures r >= 0 ==> s[r] == x
    ensures r >= 0 ==> forall j :: 0 <= j < r ==> s[j] != x
    ensures r == -1 <==> x !in s
    decreases |s|
  {
    if |s| == 0 then -1
    else if s[0] == x then 0
    else
      var k := IndexOf(s[1..], x);
      if k == -1 then -1 else k + 1
  }

  predicate NotRejected(s: ComplaintStatus)
  {
    s != Rejected
  }

  /** `STATUS_FLOW` is `STATUSES` with `Rejected` removed, in the same order. */
  lemma FlowIsStatusesWithoutRejected()
    ensures STATUS_FLOW == Seqs.Filter(NotRejected, STATUSES)
  {
    assert STATUSES == STATUS_FLOW + [Rejected];
    assert Seqs.Filter(NotRejected, [Rejected]) == [] by {
      Seqs.FilterDropsAll(NotRejected, [Rejected]);
    }
    assert Seqs.Filter(NotRejected, STATUS_FLOW) == STATUS_FLOW by {
      Seqs.FilterKeepsAll(NotRejected, STATUS_FLOW);
    }
    Seqs.FilterAppend(NotRejected, STATUS_FLOW, [Rejected]);
    assert STATUS_FLOW + [] == STATUS_FLOW;
  }

  /** `STATUSES` lists every status exactly once. */
  lemma StatusesListEveryStatusOnce()
    ensures |STATUSES| == 9
    ensures forall s: ComplaintStatus :: s in STATUSES
    ensures forall i, j :: 0 <= i < j < |STATUSES| ==> STATUSES[i] != STATUSES[j]
  {
    forall s: ComplaintStatus ensures s in STATUSES {
      match s
      case New => assert STATUSES[0] == s;
      case Categorized => assert STATUSES[1] == s;
      case Assigned => assert STATUSES[2] == s;
      case InProgress => assert STATUSES[3] == s;
      case SentToDirectorate => assert STATUSES[4] == s;
      case AssessmentCompleted => assert STATUSES[5] == s;
      case Responded => assert STATUSES[6] == s;
      case Closed => assert STATUSES[7] == s;
      case Rejected => assert STATUSES[8] == s;
    }
  }

  /** The flow has eight distinct steps from `New` to `Closed`. */
  lemma FlowShape()
    ensures |STATUS_FLOW| == 8
    ensures STATUS_FLOW[0] == New && STATUS_FLOW[7] == Closed
    ensures forall i, j :: 0 <= i < j < |STATUS_FLOW| ==> STATUS_FLOW[i] != STATUS_FLOW[j]
    ensures Rejected !in STATUS_FLOW
  {
  }

  /** `c => c.status === s`, the predicate every per-status count filters by. */
  function HasStatus(s: ComplaintStatus): Complaint -> bool
  {
    (c: Complaint) => c.status == s
  }

  /** A status's position on the happy path. */
  function FlowIndex(s: ComplaintStatus): int
  {
    IndexOf(STATUS_FLOW, s)
  }

  /** Every status but `Rejected` has a position 0..7 holding it; `Rejected` has -1. */
  lemma FlowIndexRange(s: ComplaintStatus)
    ensures s == Rejected <==> FlowIndex(s) == -1
    ensures s != Rejected ==> 0 <= FlowIndex(s) <= 7 && STATUS_FLOW[FlowIndex(s)] == s
  {
    FlowShape();
    if s != Rejected {
      assert s in STATUS_FLOW;
    }
  }
}
