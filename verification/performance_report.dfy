/** `src/pages/dashboard/reports/PerformanceReportPage.tsx`: one metric row per
    officer, with assigned, resolved and assessment counts and a rate. */
module PerformanceReport {
  import opened JsValues
  import opened Types
  import opened Percent
  import Queues
  import Seqs

  /** An officer's record with the four figures the page adds to it. */
  datatype OfficerMetric = OfficerMetric(
    officer: StaffUser, total: nat, resolved: nat, assessments: nat, rate: nat)

  function AssignedTo(id: string): Complaint -> bool
  {
    (c: Complaint) => c.assignedOfficer == Some(id)
  }

  predicate IsResolved(c: Complaint)
  {
    c.status == Responded || c.status == Closed
  }

  /** Assigned to the officer and resolved. */
  function ResolvedBy(id: string): Complaint -> bool
  {
    (c: Complaint) => c.assignedOfficer == Some(id) && IsResolved(c)
  }

  function AssessedBy(id: string): Assessment -> bool
  {
    (a: Assessment) => a.assessedBy == id
  }

  /** The metric row for one officer. */
  function Metric(o: StaffUser, cs: seq<Complaint>, assessments: seq<Assessment>): (m: OfficerMetric)
    ensures m.officer == o
    ensures m.total == Seqs.Count(AssignedTo(o.id), cs)
    ensures m.resolved == Seqs.Count(IsResolved, Seqs.Filter(AssignedTo(o.id), cs)) <= m.total
    ensures m.resolved == Seqs.Count(ResolvedBy(o.id), cs)
    ensures m.total > 0 ==> 2 * m.rate * m.total <= 200 * m.resolved + m.total < 2 * (m.rate + 1) * m.total
    ensures m.assessments == Seqs.Count(AssessedBy(o.id), assessments) <= |assessments|
    ensures m.rate <= 100
    ensures m.total == 0 ==> m.rate == 0
    ensures m.total > 0 && m.resolved == m.total ==> m.rate == 100
    ensures m.resolved == 0 ==> m.rate == 0
  {
    Seqs.FilterFilter(AssignedTo(o.id), IsResolved, ResolvedBy(o.id), cs);
    var own := Seqs.Filter(AssignedTo(o.id), cs);
    var resolved := Seqs.Count(IsResolved, own);
    var total := |own|;
    var rate :=
      if total > 0 then
        RoundPercentRange(resolved, total);
        RoundPercent(resolved, total)
      else 0;
    OfficerMetric(o, total, resolved, Seqs.Count(AssessedBy(o.id), assessments), rate)
  }

  /** The report: one row per officer, in staff order, and nobody else. */
  function OfficerMetrics(staff: seq<StaffUser>, cs: seq<Complaint>, assessments: seq<Assessment>)
    : (r: seq<OfficerMetric>)
    ensures |r| == |Queues.Officers(staff)|
    ensures forall i :: 0 <= i < |r| ==>
      r[i].officer == Queues.Officers(staff)[i] && r[i].officer.role == Officer && r[i].officer in staff
    ensures forall i :: 0 <= i < |r| ==> r[i].resolved <= r[i].total && r[i].rate <= 100
  {
    var officers := Queues.Officers(staff);
    seq(|officers|, i requires 0 <= i < |officers| => Metric(officers[i], cs, assessments))
  }

  /** The directorate cell as the page writes it: a missing directorate shows
      the garbled three-character text. */
  function DirectorateCellAsWritten(m: OfficerMetric): (r: string)
    ensures Truthy(m.officer.directorate) ==> r == m.officer.directorate.value
    ensures !Truthy(m.officer.directorate) ==> r == GarbledPlaceholder
  {
    OrElse(m.officer.directorate, GarbledPlaceholder)
  }

  /** An officer without a directorate gets text other than the em dash. */
  lemma DirectorateCellGarbled(m: OfficerMetric)
    requires m.officer.directorate.None?
    ensures DirectorateCellAsWritten(m) != Placeholder
  {
    GarbledIsNotPlaceholder();
  }

  /** The directorate cell as intended: the directorate, or the em dash. */
  function DirectorateCell(m: OfficerMetric): (r: string)
    ensures Truthy(m.officer.directorate) ==> r == m.officer.directorate.value
    ensures !Truthy(m.officer.directorate) ==> r == Placeholder && r != ""
  {
    OrElse(m.officer.directorate, Placeholder)
  }
}
