/** The three work queues of the dashboard: complaints waiting to be assigned
    (`src/pages/dashboard/AssignComplaintsPage.tsx`), complaints without an
    assignee (`UnassignedComplaintsPage.tsx`) and finished complaints
    (`ClosedComplaintsPage.tsx`), each drawn as a table or a one-line message. */
module Queues {
  import opened JsValues
  import opened Types
  import opened StatusFlow
  import Seqs

  /** A queue table: one row per entry, or a single message row when empty. */
  datatype Table<T> = Rows(rows: seq<T>) | Message(text: string)

  /** Draws a queue: the rows when there are entries, the message otherwise. */
  function DrawTable<T>(rows: seq<T>, emptyText: string): (t: Table<T>)
    ensures t.Message? <==> |rows| == 0
    ensures t.Message? ==> t.text == emptyText
    ensures t.Rows? ==> t.rows == rows
  {
    if |rows| > 0 then Rows(rows) else Message(emptyText)
  }

  predicate IsOfficer(u: StaffUser)
  {
    u.role == Officer
  }

  /** The staff users an assignment may name, in staff order. */
  function Officers(staff: seq<StaffUser>): (r: seq<StaffUser>)
    ensures Seqs.IsSubsequence(r, staff)
    ensures forall i :: 0 <= i < |r| ==> r[i].role == Officer && r[i] in staff
    ensures forall i :: 0 <= i < |staff| && staff[i].role == Officer ==> staff[i] in r
    ensures forall x :: Seqs.Occurrences(r, x) == if IsOfficer(x) then Seqs.Occurrences(staff, x) else 0
  {
    Seqs.FilterOccurrencesAll(IsOfficer, staff);
    Seqs.FilterIsSubsequence(IsOfficer, staff);
    Seqs.Filter(IsOfficer, staff)
  }

  predicate IsAssignable(c: Complaint)
  {
    c.status == Categorized || c.status == New
  }

  /** Complaints still waiting for an officer: status New or Categorized, in order. */
  function Assignable(cs: seq<Complaint>): (r: seq<Complaint>)
    ensures Seqs.IsSubsequence(r, cs)
    ensures forall i :: 0 <= i < |r| ==> r[i].status == New || r[i].status == Categorized
    ensures forall i :: 0 <= i < |cs| && (cs[i].status == New || cs[i].status == Categorized) ==> cs[i] in r
    ensures forall x :: Seqs.Occurrences(r, x) == if IsAssignable(x) then Seqs.Occurrences(cs, x) else 0
  {
    Seqs.FilterOccurrencesAll(IsAssignable, cs);
    Seqs.FilterIsSubsequence(IsAssignable, cs);
    Seqs.Filter(IsAssignable, cs)
  }

  /** Every assignable complaint sits at flow position 0 or 1, so none is
      assigned or further along, closed or rejected. */
  lemma AssignableEarlyInFlow(cs: seq<Complaint>)
    ensures forall i :: 0 <= i < |Assignable(cs)| ==>
      0 <= FlowIndex(Assignable(cs)[i].status) <= 1
  {
    var r := Assignable(cs);
    FlowShape();
    forall i | 0 <= i < |r|
      ensures 0 <= FlowIndex(r[i].status) <= 1
    {
      if r[i].status == New {
        assert STATUS_FLOW[0] == New;
      } else {
        assert STATUS_FLOW[1] == Categorized && STATUS_FLOW[0] != Categorized;
      }
    }
  }

  /** One row of the assign table: the complaint and the officers offered for it. */
  datatype AssignRow = AssignRow(complaint: Complaint, choices: seq<StaffUser>)

  function MakeAssignRow(officers: seq<StaffUser>, c: Complaint): AssignRow
  {
    AssignRow(c, officers)
  }

  /** The assign table: a row per assignable complaint, each offering the
      officers and nobody else, or "No complaints to assign". */
  function AssignTable(cs: seq<Complaint>, staff: seq<StaffUser>): (t: Table<AssignRow>)
    ensures t.Message? <==> |Assignable(cs)| == 0
    ensures t.Message? ==> t.text == "No complaints to assign"
    ensures t.Rows? ==> |t.rows| == |Assignable(cs)|
    ensures t.Rows? ==> forall i :: 0 <= i < |t.rows| ==> t.rows[i].complaint == Assignable(cs)[i]
    ensures t.Rows? ==> forall i, j :: 0 <= i < |t.rows| && 0 <= j < |t.rows[i].choices| ==>
      t.rows[i].choices[j].role == Officer && t.rows[i].choices[j] in staff
    ensures t.Rows? ==> forall i :: 0 <= i < |t.rows| ==> t.rows[i].choices == Officers(staff)
  {
    var officers := Officers(staff);
    var a := Assignable(cs);
    DrawTable(seq(|a|, i requires 0 <= i < |a| => MakeAssignRow(officers, a[i])), "No complaints to assign")
  }

  predicate IsUnassigned(c: Complaint)
  {
    !Truthy(c.assignedOfficer)
  }

  /** Complaints with no assignee: the field is absent or the empty string. */
  function Unassigned(cs: seq<Complaint>): (r: seq<Complaint>)
    ensures Seqs.IsSubsequence(r, cs)
    ensures forall i :: 0 <= i < |r| ==> r[i].assignedOfficer.None? || r[i].assignedOfficer.value == ""
    ensures forall i :: 0 <= i < |cs| && (cs[i].assignedOfficer.None? || cs[i].assignedOfficer.value == "") ==>
      cs[i] in r
    ensures forall x :: Seqs.Occurrences(r, x) == if IsUnassigned(x) then Seqs.Occurrences(cs, x) else 0
  {
    Seqs.FilterOccurrencesAll(IsUnassigned, cs);
    Seqs.FilterIsSubsequence(IsUnassigned, cs);
    Seqs.Filter(IsUnassigned, cs)
  }

  /** Taking the unassigned complaints of the unassigned complaints changes nothing. */
  lemma UnassignedIdempotent(cs: seq<Complaint>)
    ensures Unassigned(Unassigned(cs)) == Unassigned(cs)
  {
    Seqs.FilterIdempotent(IsUnassigned, cs);
  }

  /** One row of the unassigned table: id, complainant name and category text. */
  datatype UnassignedRow = UnassignedRow(id: string, name: string, category: string)

  /** The category cell as the page writes it: a missing category shows the
      garbled three-character text, not the em dash. */
  function UnassignedCategoryAsWritten(c: Complaint): (r: string)
    ensures Truthy(c.category) ==> r == c.category.value
    ensures !Truthy(c.category) ==> r == GarbledPlaceholder
  {
    OrElse(c.category, GarbledPlaceholder)
  }

  /** With no category, the cell as written differs from the placeholder
      every other table prints. */
  lemma UnassignedCategoryGarbled(c: Complaint)
    requires c.category.None?
    ensures UnassignedCategoryAsWritten(c) != Placeholder
  {
    GarbledIsNotPlaceholder();
  }

  /** The category cell as intended: the category, or the em dash. */
  function UnassignedCategory(c: Complaint): (r: string)
    ensures Truthy(c.category) ==> r == c.category.value
    ensures !Truthy(c.category) ==> r == Placeholder
    ensures r != ""
  {
    OrElse(c.category, Placeholder)
  }

  function MakeUnassignedRow(c: Complaint): (r: UnassignedRow)
  {
    UnassignedRow(c.id, c.fullName, UnassignedCategory(c))
  }

  /** The unassigned table: a row per unassigned complaint, with a non-empty
      category cell, or "All complaints are assigned". */
  function UnassignedTable(cs: seq<Complaint>): (t: Table<UnassignedRow>)
    ensures t.Message? <==> |Unassigned(cs)| == 0
    ensures t.Message? ==> t.text == "All complaints are assigned"
    ensures t.Rows? ==> |t.rows| == |Unassigned(cs)|
    ensures t.Rows? ==> forall i :: 0 <= i < |t.rows| ==>
      t.rows[i].id == Unassigned(cs)[i].id && t.rows[i].name == Unassigned(cs)[i].fullName &&
      t.rows[i].category != ""
    ensures t.Rows? ==> forall i :: 0 <= i < |t.rows| ==>
      (Truthy(Unassigned(cs)[i].category) ==> t.rows[i].category == Unassigned(cs)[i].category.value) &&
      (!Truthy(Unassigned(cs)[i].category) ==> t.rows[i].category == Placeholder)
  {
    var u := Unassigned(cs);
    DrawTable(seq(|u|, i requires 0 <= i < |u| => MakeUnassignedRow(u[i])), "All complaints are assigned")
  }

  predicate IsFinished(c: Complaint)
  {
    c.status == Closed || c.status == Rejected
  }

  /** Finished complaints: status Closed or Rejected, in order. */
  function ClosedQueue(cs: seq<Complaint>): (r: seq<Complaint>)
    ensures Seqs.IsSubsequence(r, cs)
    ensures forall i :: 0 <= i < |r| ==> r[i].status == Closed || r[i].status == Rejected
    ensures forall i :: 0 <= i < |cs| && (cs[i].status == Closed || cs[i].status == Rejected) ==> cs[i] in r
    ensures forall x :: Seqs.Occurrences(r, x) == if IsFinished(x) then Seqs.Occurrences(cs, x) else 0
  {
    Seqs.FilterOccurrencesAll(IsFinished, cs);
    Seqs.FilterIsSubsequence(IsFinished, cs);
    Seqs.Filter(IsFinished, cs)
  }

  /** The closed table: a row per finished complaint, or "No closed complaints". */
  function ClosedTable(cs: seq<Complaint>): (t: Table<Complaint>)
    ensures t.Message? <==> |ClosedQueue(cs)| == 0
    ensures t.Message? ==> t.text == "No closed complaints"
    ensures t.Rows? ==> t.rows == ClosedQueue(cs)
  {
    DrawTable(ClosedQueue(cs), "No closed complaints")
  }

  /** No complaint is both waiting for assignment and finished. */
  lemma ClosedDisjointFromAssignable(cs: seq<Complaint>)
    ensures forall i, j :: 0 <= i < |ClosedQueue(cs)| && 0 <= j < |Assignable(cs)| ==>
      ClosedQueue(cs)[i] != Assignable(cs)[j]
  {
  }
}
