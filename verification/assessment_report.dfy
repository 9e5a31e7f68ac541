/** `src/pages/dashboard/reports/AssessmentReportPage.tsx`: the Total, Officer
    and Directorate figures, and one table row per assessment. */
module AssessmentReport {
  import opened Types
  import Seqs

  predicate ByOfficerType(a: Assessment)
  {
    a.kind == ByOfficer
  }

  predicate ByDirectorateType(a: Assessment)
  {
    a.kind == ByDirectorate
  }

  datatype Figures = Figures(total: nat, officer: nat, directorate: nat)

  function MakeFigures(assessments: seq<Assessment>): (f: Figures)
    ensures f.total == |assessments|
    ensures f.officer == Seqs.Count(ByOfficerType, assessments)
    ensures f.directorate == Seqs.Count(ByDirectorateType, assessments)
  {
    Figures(|assessments|, Seqs.Count(ByOfficerType, assessments), Seqs.Count(ByDirectorateType, assessments))
  }

  /** Officer and Directorate add up to Total, because an assessment has one
      of exactly two types. */
  lemma FiguresAddUp(assessments: seq<Assessment>)
    ensures MakeFigures(assessments).officer + MakeFigures(assessments).directorate == MakeFigures(assessments).total
  {
    Seqs.CountComplement(ByOfficerType, ByDirectorateType, assessments);
  }

  /** A table row: id, complaint, type name and content. */
  datatype Row = Row(id: string, complaint: string, kind: string, content: string)

  function MakeRow(a: Assessment): Row
  {
    Row(a.id, a.complaintId, AssessmentTypeName(a.kind), a.content)
  }

  /** The table: one row per assessment, in array order, showing its type as
      "officer" or "directorate". */
  function Rows(assessments: seq<Assessment>): (r: seq<Row>)
    ensures |r| == |assessments|
    ensures forall i :: 0 <= i < |r| ==> r[i].id == assessments[i].id && r[i].complaint == assessments[i].complaintId
    ensures forall i :: 0 <= i < |r| ==> (r[i].kind == "officer" <==> assessments[i].kind == ByOfficer)
    ensures forall i :: 0 <= i < |r| ==> (r[i].kind == "directorate" <==> assessments[i].kind == ByDirectorate)
  {
    seq(|assessments|, i requires 0 <= i < |assessments| => MakeRow(assessments[i]))
  }
}
