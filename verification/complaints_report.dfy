/** `src/pages/dashboard/reports/ComplaintsReportPage.tsx`: a count per status,
    in `STATUSES` order, and the Total/Open/Closed/Rejected summary. */
module ComplaintsReport {
  import opened Types
  import opened StatusFlow
  import Queues
  import Seqs

  datatype StatusCount = StatusCount(status: ComplaintStatus, count: nat)

  /** One entry per status of `statuses`, counting the complaints holding it. */
  function CountsFor(statuses: seq<ComplaintStatus>, cs: seq<Complaint>): (r: seq<StatusCount>)
    ensures |r| == |statuses|
    ensures forall i :: 0 <= i < |r| ==> r[i].status == statuses[i] && r[i].count <= |cs|
  {
    if |statuses| == 0 then []
    else [StatusCount(statuses[0], Seqs.Count(HasStatus(statuses[0]), cs))] + CountsFor(statuses[1..], cs)
  }

  /** The report's `statusCounts`: one entry per status, in `STATUSES` order. */
  function StatusCounts(cs: seq<Complaint>): (r: seq<StatusCount>)
    ensures |r| == |STATUSES| == 9
    ensures forall i :: 0 <= i < |r| ==> r[i].status == STATUSES[i] && r[i].count <= |cs|
  {
    CountsFor(STATUSES, cs)
  }

  /** Each entry counts exactly the complaints with its status. */
  lemma {:induction false} CountsForEntry(statuses: seq<ComplaintStatus>, cs: seq<Complaint>, i: nat)
    requires i < |statuses|
    ensures CountsFor(statuses, cs)[i].count == Seqs.Count(HasStatus(statuses[i]), cs)
    decreases i
  {
    if i > 0 {
      CountsForEntry(statuses[1..], cs, i - 1);
    }
  }

  function SumCounts(r: seq<StatusCount>): nat
  {
    if |r| == 0 then 0 else r[0].count + SumCounts(r[1..])
  }

  lemma {:induction false} CountsForNoComplaints(statuses: seq<ComplaintStatus>)
    ensures SumCounts(CountsFor(statuses, [])) == 0
    decreases |statuses|
  {
    if |statuses| > 0 {
      CountsForNoComplaints(statuses[1..]);
    }
  }

  /** Adding a complaint in front raises the sum by the number of entries
      for its status. */
  lemma {:induction false} CountsForCons(statuses: seq<ComplaintStatus>, c: Complaint, cs: seq<Complaint>)
    ensures SumCounts(CountsFor(statuses, [c] + cs)) ==
      Seqs.Occurrences(statuses, c.status) + SumCounts(CountsFor(statuses, cs))
    decreases |statuses|
  {
    if |statuses| > 0 {
      CountsForCons(statuses[1..], c, cs);
      Seqs.CountCons(HasStatus(statuses[0]), c, cs);
    }
  }

  /** Over a list naming every status exactly once, the counts add up to the
      number of complaints: each complaint is counted under one entry. */
  lemma {:induction false} CountsForSumToTotal(statuses: seq<ComplaintStatus>, cs: seq<Complaint>)
    requires forall i, j :: 0 <= i < j < |statuses| ==> statuses[i] != statuses[j]
    requires forall s: ComplaintStatus :: s in statuses
    ensures SumCounts(CountsFor(statuses, cs)) == |cs|
    decreases |cs|
  {
    if |cs| == 0 {
      CountsForNoComplaints(statuses);
    } else {
      CountsForSumToTotal(statuses, cs[1..]);
      assert cs == [cs[0]] + cs[1..];
      CountsForCons(statuses, cs[0], cs[1..]);
      Seqs.OccurrencesOfDistinct(statuses, cs[0].status);
    }
  }

  /** The report's per-status counts add up to the number of complaints. */
  lemma StatusCountsSumToTotal(cs: seq<Complaint>)
    ensures SumCounts(StatusCounts(cs)) == |cs|
  {
    StatusesListEveryStatusOnce();
    CountsForSumToTotal(STATUSES, cs);
  }

  predicate IsOpen(c: Complaint)
  {
    c.status != Closed && c.status != Rejected
  }

  datatype Summary = Summary(total: nat, open: nat, closed: nat, rejected: nat)

  function MakeSummary(cs: seq<Complaint>): (s: Summary)
    ensures s.total == |cs|
  {
    Summary(|cs|, Seqs.Count(IsOpen, cs), Seqs.Count(HasStatus(Closed), cs), Seqs.Count(HasStatus(Rejected), cs))
  }

  /** Open, Closed and Rejected add up to Total, and the Closed and Rejected
      figures are the matching per-status entries. */
  lemma SummaryAddsUp(cs: seq<Complaint>)
    ensures MakeSummary(cs).open + MakeSummary(cs).closed + MakeSummary(cs).rejected == MakeSummary(cs).total
    ensures MakeSummary(cs).closed == StatusCounts(cs)[7].count
    ensures MakeSummary(cs).rejected == StatusCounts(cs)[8].count
  {
    Seqs.CountDisjointUnion(HasStatus(Closed), HasStatus(Rejected), Queues.IsFinished, cs);
    Seqs.CountComplement(Queues.IsFinished, IsOpen, cs);
    CountsForEntry(STATUSES, cs, 7);
    CountsForEntry(STATUSES, cs, 8);
  }

  /** The closed-complaints queue is as long as the report's Closed and
      Rejected figures together. */
  lemma ClosedQueueMatchesReport(cs: seq<Complaint>)
    ensures |Queues.ClosedQueue(cs)| == MakeSummary(cs).closed + MakeSummary(cs).rejected
  {
    Seqs.CountDisjointUnion(HasStatus(Closed), HasStatus(Rejected), Queues.IsFinished, cs);
  }
}
