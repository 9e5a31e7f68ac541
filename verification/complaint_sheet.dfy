/** `src/components/ComplaintDetailSheet.tsx`: the text record the Download
    button assembles, the assignee choices, and the sheet's edit session. */
module ComplaintSheet {
  import opened JsValues
  import opened Types
  import opened Records
  import opened Lookup
  import EditSession

  /** `staffMap[id]`: the name of the last staff user with that id. */
  function StaffName(staff: seq<StaffUser>, id: string): (r: Option<string>)
    ensures r.None? <==> forall i :: 0 <= i < |staff| ==> staff[i].id != id
    ensures r.Some? ==> exists i :: 0 <= i < |staff| && staff[i].id == id && staff[i].name == r.value &&
                                    (forall j :: i < j < |staff| ==> staff[j].id != id)
  {
    match LastWith(staff, StaffId, id)
    case Some(u) => Some(u.name)
    case None => None
  }

  /** The Assigned To text: the staff name when the id is known, the id
      itself when it is not, and the em dash when nobody is assigned. */
  function AssignedToText(c: ComplaintRecord, staff: seq<StaffUser>): (r: string)
    ensures !Truthy(c.assignedTo) ==> r == Placeholder
    ensures Truthy(c.assignedTo) && StaffName(staff, c.assignedTo.value).Some? ==>
      r == StaffName(staff, c.assignedTo.value).value
    ensures Truthy(c.assignedTo) && (forall i :: 0 <= i < |staff| ==> staff[i].id != c.assignedTo.value) ==>
      r == c.assignedTo.value
  {
    if Truthy(c.assignedTo) then Coalesce(StaffName(staff, c.assignedTo.value), c.assignedTo.value)
    else Placeholder
  }

  /** With distinct staff ids, an assignee who is a staff user shows by name. */
  lemma AssignedToShowsName(c: ComplaintRecord, staff: seq<StaffUser>, i: nat)
    requires i < |staff|
    requires forall a, b :: 0 <= a < b < |staff| ==> staff[a].id != staff[b].id
    requires c.assignedTo == Some(staff[i].id) && staff[i].id != ""
    ensures AssignedToText(c, staff) == staff[i].name
  {
    LastWithDistinct(staff, StaffId, i);
  }

  /** `${a || b}`: the first field when non-empty, else the second, printed
      as `undefined` when that one is missing too. */
  function EitherText(a: Option<string>, b: Option<string>): (r: string)
    ensures Truthy(a) ==> r == a.value
    ensures !Truthy(a) && b.Some? ==> r == b.value
    ensures !Truthy(a) && b.None? ==> r == "undefined"
  {
    Show(Or(a, b))
  }

  /** Line `i` of the downloaded record. */
  function RecordLine(c: ComplaintRecord, staff: seq<StaffUser>, generated: string, i: nat): string
    requires i < 33
  {
    match i
    case 0 => "MINISTRY OF REVENUES — COMPLAINT RECORD"
    case 1 => "================================================"
    case 2 => ""
    case 3 => "Complaint Code : " + Show(c.complaintCode)
    case 4 => "Case Status    : " + Show(c.caseStatus)
    case 5 => "Applied Date   : " + Show(c.appliedDate)
    case 6 => "Case Type      : " + Show(c.caseType)
    case 7 => ""
    case 8 => "--- TAXPAYER INFORMATION ---"
    case 9 => "Name           : " + Show(c.taxpayerName)
    case 10 => "TIN            : " + c.tin
    case 11 => "Phone          : " + Show(c.taxpayerPhone)
    case 12 => ""
    case 13 => "--- COMPLAINANT INFORMATION ---"
    case 14 => "Name           : " + Show(c.complainantName)
    case 15 => "Phone          : " + Show(c.complainantPhone)
    case 16 => "Email          : " + Show(c.complainantEmail)
    case 17 => ""
    case 18 => "--- COMPLAINT DETAILS ---"
    case 19 => "Title          : " + Show(c.complaintTitle)
    case 20 => "Category       : " + EitherText(c.category, c.categoryId)
    case 21 => "Sub-Category   : " + EitherText(c.subcategory, c.subCategoryId)
    case 22 => "Complaints On  : " + Show(c.complaintsOn)
    case 23 => "Tax Center     : " + OrElse(c.taxCenter, Placeholder)
    case 24 => "Reference No.  : " + OrElse(c.referenceNumber, Placeholder)
    case 25 => "Machine Code   : " + OrElse(c.machineCode, Placeholder)
    case 26 => "Assigned To    : " + AssignedToText(c, staff)
    case 27 => ""
    case 28 => "--- DESCRIPTION ---"
    case 29 => c.details
    case 30 => ""
    case 31 => "================================================"
    case _ => "Generated: " + generated
  }

  /** The lines of the downloaded record, before they are joined with newlines.
      `generated` is the local time text the download is stamped with. */
  function DownloadLines(c: ComplaintRecord, staff: seq<StaffUser>, generated: string): (r: seq<string>)
    ensures |r| == 33
    ensures forall i :: 0 <= i < 33 ==> r[i] == RecordLine(c, staff, generated, i)
  {
    seq(33, i requires 0 <= i < 33 => RecordLine(c, staff, generated, i))
  }

  /** The record names the complaint by its code, carries the TIN as typed and
      the description verbatim, and ends with the generation stamp. */
  lemma DownloadIdentifies(c: ComplaintRecord, staff: seq<StaffUser>, generated: string)
    ensures DownloadLines(c, staff, generated)[3] == "Complaint Code : " + Show(c.complaintCode)
    ensures DownloadLines(c, staff, generated)[10] == "TIN            : " + c.tin
    ensures DownloadLines(c, staff, generated)[29] == c.details
    ensures DownloadLines(c, staff, generated)[32] == "Generated: " + generated
  {
    var r := DownloadLines(c, staff, generated);
    assert r[3] == RecordLine(c, staff, generated, 3);
    assert r[10] == RecordLine(c, staff, generated, 10);
    assert r[29] == RecordLine(c, staff, generated, 29);
    assert r[32] == RecordLine(c, staff, generated, 32);
  }

  /** The category lines fall back from the name to the id; the tax-center,
      reference and machine-code lines fall back to the em dash. */
  lemma DownloadFallbacks(c: ComplaintRecord, staff: seq<StaffUser>, generated: string)
    ensures DownloadLines(c, staff, generated)[20] == "Category       : " + EitherText(c.category, c.categoryId)
    ensures DownloadLines(c, staff, generated)[21] == "Sub-Category   : " + EitherText(c.subcategory, c.subCategoryId)
    ensures DownloadLines(c, staff, generated)[23] == "Tax Center     : " + OrElse(c.taxCenter, Placeholder)
    ensures DownloadLines(c, staff, generated)[24] == "Reference No.  : " + OrElse(c.referenceNumber, Placeholder)
    ensures DownloadLines(c, staff, generated)[25] == "Machine Code   : " + OrElse(c.machineCode, Placeholder)
    ensures Truthy(c.category) ==> DownloadLines(c, staff, generated)[20] == "Category       : " + c.category.value
    ensures !Truthy(c.category) && c.categoryId.Some? ==>
      DownloadLines(c, staff, generated)[20] == "Category       : " + c.categoryId.value
    ensures !Truthy(c.category) && c.categoryId.None? ==>
      DownloadLines(c, staff, generated)[20] == "Category       : undefined"
    ensures Truthy(c.taxCenter) ==> DownloadLines(c, staff, generated)[23] == "Tax Center     : " + c.taxCenter.value
    ensures !Truthy(c.taxCenter) ==> DownloadLines(c, staff, generated)[23] == "Tax Center     : —"
    ensures !Truthy(c.referenceNumber) ==> DownloadLines(c, staff, generated)[24] == "Reference No.  : —"
    ensures !Truthy(c.machineCode) ==> DownloadLines(c, staff, generated)[25] == "Machine Code   : —"
  {
    var r := DownloadLines(c, staff, generated);
    assert r[20] == RecordLine(c, staff, generated, 20);
    assert r[21] == RecordLine(c, staff, generated, 21);
    assert r[23] == RecordLine(c, staff, generated, 23);
    assert r[24] == RecordLine(c, staff, generated, 24);
    assert r[25] == RecordLine(c, staff, generated, 25);
  }

  /** The Assigned To line shows the assignee's name, raw id or the em dash. */
  lemma DownloadAssignee(c: ComplaintRecord, staff: seq<StaffUser>, generated: string)
    ensures DownloadLines(c, staff, generated)[26] == "Assigned To    : " + AssignedToText(c, staff)
  {
    var r := DownloadLines(c, staff, generated);
    assert r[26] == RecordLine(c, staff, generated, 26);
  }

  /** The Download button with no complaint shown produces nothing. */
  function Download(shown: Option<ComplaintRecord>, staff: seq<StaffUser>, generated: string)
    : (r: Option<seq<string>>)
    ensures r.None? <==> shown.None?
    ensures r.Some? ==> |r.value| == 33
  {
    match shown
    case Some(c) => Some(DownloadLines(c, staff, generated))
    case None => None
  }

  /** One option of a select: the value stored and the text shown. */
  datatype Choice = Choice(value: string, caption: string)

  /** The assignee select offers every staff user, whatever the role: the
      id is stored and the name is shown. */
  function AssigneeChoices(staff: seq<StaffUser>): (r: seq<Choice>)
    ensures |r| == |staff|
    ensures forall i :: 0 <= i < |staff| ==> r[i].value == staff[i].id && r[i].caption == staff[i].name
  {
    seq(|staff|, i requires 0 <= i < |staff| => Choice(staff[i].id, staff[i].name))
  }

  /** Picking an option and saving makes the sheet show that option's text as
      the assignee, when staff ids are distinct and non-empty. */
  lemma ChosenAssigneeShown(c: ComplaintRecord, staff: seq<StaffUser>, k: nat)
    requires k < |staff|
    requires forall a, b :: 0 <= a < b < |staff| ==> staff[a].id != staff[b].id
    requires staff[k].id != ""
    ensures AssignedToText(c.(assignedTo := Some(AssigneeChoices(staff)[k].value)), staff) == AssigneeChoices(staff)[k].caption
  {
    AssignedToShowsName(c.(assignedTo := Some(staff[k].id)), staff, k);
  }

  /** The sheet's state: its edit session over complaint records. */
  type Sheet = EditSession.Session<ComplaintRecord>
}
