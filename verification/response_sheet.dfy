/** `src/components/ResponseDetailSheet.tsx`: a sheet with three modes (detail,
    edit, send), a working copy of the response, a send form, and the text
    document its Download button assembles. Callbacks it makes are returned
    as events; `nowIso` is `new Date().toISOString()`. */
module ResponseSheet {
  import opened JsValues
  import opened Types
  import opened Records
  import opened Text
  import opened Lookup
  import Seqs

  datatype Mode = Detail | Edit | Send

  /** The four fields of the send form, each a string. */
  datatype SendForm = SendForm(recipientName: string, recipientEmail: string, subject: string, notes: string)

  datatype Sheet = Sheet(mode: Mode, deleteDialog: bool, form: Option<ResponseRecord>, sendForm: SendForm)

  datatype Event = Updated(record: ResponseRecord) | Deleted(id: string) | SheetClosed

  datatype Outcome = Outcome(sheet: Sheet, events: seq<Event>)

  /** The state a sheet is created in: the requested mode, no form, an empty send form. */
  function Initial(initialMode: Mode): (s: Sheet)
    ensures s.mode == initialMode && s.form.None? && !s.deleteDialog
    ensures s.sendForm == SendForm("", "", "", "")
  {
    Sheet(initialMode, false, None, SendForm("", "", "", ""))
  }

  /** The send form seeded from a response: each field, or '' when it is absent or empty. */
  function SeedSendForm(r: ResponseRecord): (f: SendForm)
    ensures Truthy(r.recipientName) ==> f.recipientName == r.recipientName.value
    ensures !Truthy(r.recipientName) ==> f.recipientName == ""
    ensures Truthy(r.recipientEmail) ==> f.recipientEmail == r.recipientEmail.value
    ensures !Truthy(r.recipientEmail) ==> f.recipientEmail == ""
    ensures Truthy(r.subject) ==> f.subject == r.subject.value
    ensures !Truthy(r.subject) ==> f.subject == ""
    ensures Truthy(r.notes) ==> f.notes == r.notes.value
    ensures !Truthy(r.notes) ==> f.notes == ""
  {
    SendForm(OrElse(r.recipientName, ""), OrElse(r.recipientEmail, ""), OrElse(r.subject, ""), OrElse(r.notes, ""))
  }

  /** The effect run when `open`, `initialMode` or the response id changes:
      opening on a response enters the requested mode with a copy of it and a
      seeded send form; closing returns to detail and drops the copy (the send
      form is kept); open without a response changes nothing. */
  function OnOpenChange(s: Sheet, open: bool, response: Option<ResponseRecord>, initialMode: Mode): (t: Sheet)
    ensures open && response.Some? ==>
      t.mode == initialMode && t.form == response && t.sendForm == SeedSendForm(response.value)
    ensures !open ==> t.mode == Detail && t.form.None? && t.sendForm == s.sendForm
    ensures open && response.None? ==> t == s
    ensures t.deleteDialog == s.deleteDialog
  {
    if open && response.Some? then
      s.(mode := initialMode, form := response, sendForm := SeedSendForm(response.value))
    else if !open then
      s.(mode := Detail, form := None)
    else s
  }

  /** A tab of the mode bar: any mode can be chosen from any mode. */
  function ChooseMode(s: Sheet, m: Mode): (t: Sheet)
    ensures t.mode == m
    ensures t.form == s.form && t.sendForm == s.sendForm && t.deleteDialog == s.deleteDialog
  {
    s.(mode := m)
  }

  /** Cancel in the edit or send panel: back to detail, nothing else changes. */
  function CancelPanel(s: Sheet): (t: Sheet)
    ensures t.mode == Detail
    ensures t.form == s.form && t.sendForm == s.sendForm && t.deleteDialog == s.deleteDialog
  {
    s.(mode := Detail)
  }

  /** A field edit in the edit panel, shown while in edit mode with a form. */
  function Revise(s: Sheet, revised: ResponseRecord): (t: Sheet)
    ensures s.mode == Edit && s.form.Some? ==> t == s.(form := Some(revised))
    ensures !(s.mode == Edit && s.form.Some?) ==> t == s
  {
    if s.mode == Edit && s.form.Some? then s.(form := Some(revised)) else s
  }

  /** A field edit in the send panel. */
  function ReviseSend(s: Sheet, revised: SendForm): (t: Sheet)
    ensures s.mode == Send ==> t == s.(sendForm := revised)
    ensures s.mode != Send ==> t == s
  {
    if s.mode == Send then s.(sendForm := revised) else s
  }

  /** `saveEdit`: with a form, reports it verbatim and returns to detail (the
      copy is kept); without one, does nothing. */
  function SaveEdit(s: Sheet): (o: Outcome)
    ensures s.form.Some? ==> o.events == [Updated(s.form.value)] && o.sheet == s.(mode := Detail)
    ensures s.form.None? ==> o == Outcome(s, [])
  {
    match s.form
    case Some(f) => Outcome(s.(mode := Detail), [Updated(f)])
    case None => Outcome(s, [])
  }

  /** The response as sent: the shown response with the send form laid over
      it, marked sent, status "Sent", and sent on the date part of `nowIso`. */
  function SentVersion(r: ResponseRecord, f: SendForm, nowIso: string): ResponseRecord
  {
    r.(recipientName := Some(f.recipientName), recipientEmail := Some(f.recipientEmail),
       subject := Some(f.subject), notes := Some(f.notes),
       sentToUser := true, responseStatus := Some("Sent"), sentDate := Some(Before(nowIso, 'T')))
  }

  /** `confirmSend`: with a response shown, reports its sent version and returns
      to detail. It checks neither the current status, nor an approver, nor a
      recipient, and it ignores unsaved edits in the edit copy. */
  function ConfirmSend(s: Sheet, shown: Option<ResponseRecord>, nowIso: string): (o: Outcome)
    ensures shown.None? ==> o == Outcome(s, [])
    ensures shown.Some? ==> |o.events| == 1 && o.events[0].Updated? && o.sheet == s.(mode := Detail)
    ensures shown.Some? ==>
      var sent := o.events[0].record;
      && sent.sentToUser
      && sent.responseStatus == Some("Sent")
      && sent.recipientName == Some(s.sendForm.recipientName)
      && sent.recipientEmail == Some(s.sendForm.recipientEmail)
      && sent.subject == Some(s.sendForm.subject)
      && sent.notes == Some(s.sendForm.notes)
      && sent.sentDate.Some? && IsPrefix(sent.sentDate.value, nowIso) && 'T' !in sent.sentDate.value
      && (|sent.sentDate.value| < |nowIso| ==> nowIso[|sent.sentDate.value|] == 'T')
      && sent.sentDate == Some(Split(nowIso, 'T')[0])
      && sent.id == shown.value.id && sent.complaintId == shown.value.complaintId
      && sent.respondedBy == shown.value.respondedBy && sent.content == shown.value.content
      && sent.createdAt == shown.value.createdAt
      && sent.approvedBy == shown.value.approvedBy && sent.approvedDate == shown.value.approvedDate
  {
    BeforeIsFirstPart(nowIso, 'T');
    match shown
    case Some(r) => Outcome(s.(mode := Detail), [Updated(SentVersion(r, s.sendForm, nowIso))])
    case None => Outcome(s, [])
  }

  /** Sending twice reports the same record twice: nothing prevents a resend. */
  lemma ResendAllowed(s: Sheet, r: ResponseRecord, nowIso: string)
    ensures ConfirmSend(ConfirmSend(s, Some(r), nowIso).sheet, Some(r), nowIso).events ==
      ConfirmSend(s, Some(r), nowIso).events
  {
  }

  /** Opening in any mode, then cancelling, lands in detail with the copy of the response. */
  lemma OpenThenCancel(s: Sheet, r: ResponseRecord, m: Mode)
    ensures CancelPanel(OnOpenChange(s, true, Some(r), m)).mode == Detail
    ensures CancelPanel(OnOpenChange(s, true, Some(r), m)).form == Some(r)
  {
  }

  /** Opening and saving without edits reports the response unchanged. */
  lemma OpenSaveUnchanged(s: Sheet, r: ResponseRecord, m: Mode)
    ensures SaveEdit(OnOpenChange(s, true, Some(r), m)).events == [Updated(r)]
  {
  }

  /** The Delete button opens the confirmation dialog. */
  function AskDelete(s: Sheet): (t: Sheet)
    ensures t == s.(deleteDialog := true)
  {
    s.(deleteDialog := true)
  }

  /** Confirming the dialog reports the deletion, shuts the dialog and closes the sheet. */
  function ConfirmDelete(s: Sheet, id: string): (o: Outcome)
    ensures o.events == [Deleted(id), SheetClosed]
    ensures o.sheet == s.(deleteDialog := false)
  {
    Outcome(s.(deleteDialog := false), [Deleted(id), SheetClosed])
  }

  /** Cancel in the dialog, or dismissing it, only shuts the dialog: nothing is reported. */
  function CancelDelete(s: Sheet): (o: Outcome)
    ensures o.events == []
    ensures !o.sheet.deleteDialog
    ensures o.sheet.mode == s.mode && o.sheet.form == s.form && o.sheet.sendForm == s.sendForm
  {
    Outcome(s.(deleteDialog := false), [])
  }

  /** Asking to delete and then cancelling leaves a sheet without an open
      dialog exactly as it was. */
  lemma AskThenCancel(s: Sheet)
    requires !s.deleteDialog
    ensures CancelDelete(AskDelete(s)).sheet == s
    ensures CancelDelete(AskDelete(s)).events == []
  {
  }

  function ComplaintId(c: ComplaintRecord): string
  {
    c.id
  }

  /** `complaint?.field`: a missing complaint reads every field as absent. */
  function FieldOf(c: Option<ComplaintRecord>, field: ComplaintRecord -> Option<string>): Option<string>
  {
    match c
    case Some(r) => field(r)
    case None => None
  }

  function TaxpayerName(c: ComplaintRecord): Option<string>
  {
    c.taxpayerName
  }

  function ComplainantEmail(c: ComplaintRecord): Option<string>
  {
    c.complainantEmail
  }

  /** The recipient shown in the document: the response's own value, else
      the complaint's, else the em dash. */
  function Fallback3(own: Option<string>, fromComplaint: Option<string>): (r: string)
    ensures Truthy(own) ==> r == own.value
    ensures !Truthy(own) && Truthy(fromComplaint) ==> r == fromComplaint.value
    ensures !Truthy(own) && !Truthy(fromComplaint) ==> r == Placeholder
    ensures r != ""
  {
    OrElse(Or(own, fromComplaint), Placeholder)
  }

  /** `cond ? label + value : ''`: a labelled line, or an empty line when the value is missing. */
  function OptionalLine(caption: string, v: Option<string>): (r: string)
    ensures Truthy(v) ==> r == caption + v.value
    ensures !Truthy(v) ==> r == ""
  {
    if Truthy(v) then caption + v.value else ""
  }

  /** Line `i` of the response document; `created` and `generated` are the
      locale date texts the page prints. */
  function DocumentLine(r: ResponseRecord, staff: seq<StaffUser>, complaints: seq<ComplaintRecord>,
                        created: string, generated: string, i: nat): string
    requires i < 24
  {
    var complaint := LastWith(complaints, ComplaintId, r.complaintId);
    var author := match LastWith(staff, StaffId, r.respondedBy)
      case Some(u) => u.name
      case None => r.respondedBy;
    match i
    case 0 => "MINISTRY OF REVENUES — OFFICIAL RESPONSE DOCUMENT"
    case 1 => "===================================================="
    case 2 => ""
    case 3 => "Response ID    : " + r.id
    case 4 => "Complaint ID   : " + r.complaintId
    case 5 => "Status         : " + Show(r.responseStatus)
    case 6 => "Created        : " + created
    case 7 => "Responded By   : " + author
    case 8 => ""
    case 9 => "--- RECIPIENT INFORMATION ---"
    case 10 => "Name           : " + Fallback3(r.recipientName, FieldOf(complaint, TaxpayerName))
    case 11 => "Email          : " + Fallback3(r.recipientEmail, FieldOf(complaint, ComplainantEmail))
    case 12 => ""
    case 13 => "--- RESPONSE CONTENT ---"
    case 14 => "Subject        : " + OrElse(r.subject, Placeholder)
    case 15 => ""
    case 16 => r.content
    case 17 => ""
    case 18 => OptionalLine("Approved By    : ", r.approvedBy)
    case 19 => OptionalLine("Approved Date  : ", r.approvedDate)
    case 20 => OptionalLine("Sent Date      : ", r.sentDate)
    case 21 => ""
    case 22 => "===================================================="
    case _ => "Generated: " + generated
  }

  /** The document's lines before joining. The page's `l !== undefined` filter
      removes nothing, since every line is a string. */
  function DocumentLines(r: ResponseRecord, staff: seq<StaffUser>, complaints: seq<ComplaintRecord>,
                         created: string, generated: string): (lines: seq<string>)
    ensures |lines| == 24
    ensures forall i :: 0 <= i < 24 ==> lines[i] == DocumentLine(r, staff, complaints, created, generated, i)
  {
    seq(24, i requires 0 <= i < 24 => DocumentLine(r, staff, complaints, created, generated, i))
  }

  /** The recipient lines fall back from the response to its complaint to the
      em dash, so they are never blank after the label. */
  lemma DocumentRecipient(r: ResponseRecord, staff: seq<StaffUser>, complaints: seq<ComplaintRecord>,
                          created: string, generated: string)
    ensures DocumentLines(r, staff, complaints, created, generated)[10] ==
      "Name           : " + Fallback3(r.recipientName,
        FieldOf(LastWith(complaints, ComplaintId, r.complaintId), TaxpayerName))
    ensures DocumentLines(r, staff, complaints, created, generated)[11] ==
      "Email          : " + Fallback3(r.recipientEmail,
        FieldOf(LastWith(complaints, ComplaintId, r.complaintId), ComplainantEmail))
    ensures Truthy(r.recipientName) ==>
      DocumentLines(r, staff, complaints, created, generated)[10] == "Name           : " + r.recipientName.value
    ensures Truthy(r.recipientEmail) ==>
      DocumentLines(r, staff, complaints, created, generated)[11] == "Email          : " + r.recipientEmail.value
  {
    var lines := DocumentLines(r, staff, complaints, created, generated);
    assert lines[10] == DocumentLine(r, staff, complaints, created, generated, 10);
    assert lines[11] == DocumentLine(r, staff, complaints, created, generated, 11);
  }

  /** A response without its own recipient, whose complaint is not in the
      list, gets the em dash on both recipient lines. */
  lemma DocumentRecipientMissing(r: ResponseRecord, staff: seq<StaffUser>, complaints: seq<ComplaintRecord>,
                                 created: string, generated: string)
    requires !Truthy(r.recipientName) && !Truthy(r.recipientEmail)
    requires forall i :: 0 <= i < |complaints| ==> complaints[i].id != r.complaintId
    ensures DocumentLines(r, staff, complaints, created, generated)[10] == "Name           : —"
    ensures DocumentLines(r, staff, complaints, created, generated)[11] == "Email          : —"
  {
    assert forall i :: 0 <= i < |complaints| ==> ComplaintId(complaints[i]) != r.complaintId;
    assert LastWith(complaints, ComplaintId, r.complaintId).None?;
    DocumentRecipient(r, staff, complaints, created, generated);
  }

  /** A response with no approval and no sent date still has 24 lines: its
      three approval lines are empty rather than dropped. */
  lemma DocumentKeepsEmptyApprovalLines(r: ResponseRecord, staff: seq<StaffUser>,
                                        complaints: seq<ComplaintRecord>, created: string, generated: string)
    requires r.approvedBy.None? && r.approvedDate.None? && r.sentDate.None?
    ensures |DocumentLines(r, staff, complaints, created, generated)| == 24
    ensures DocumentLines(r, staff, complaints, created, generated)[18] == ""
    ensures DocumentLines(r, staff, complaints, created, generated)[19] == ""
    ensures DocumentLines(r, staff, complaints, created, generated)[20] == ""
  {
    var lines := DocumentLines(r, staff, complaints, created, generated);
    assert lines[18] == DocumentLine(r, staff, complaints, created, generated, 18);
    assert lines[19] == DocumentLine(r, staff, complaints, created, generated, 19);
    assert lines[20] == DocumentLine(r, staff, complaints, created, generated, 20);
  }

  /** After a send, the document shows the sent date line. */
  lemma DocumentShowsSentDate(s: Sheet, shown: ResponseRecord, nowIso: string, staff: seq<StaffUser>,
                              complaints: seq<ComplaintRecord>, created: string, generated: string)
    requires nowIso != "" && nowIso[0] != 'T'
    ensures var sent := ConfirmSend(s, Some(shown), nowIso).events[0].record;
      DocumentLines(sent, staff, complaints, created, generated)[20] == "Sent Date      : " + Before(nowIso, 'T')
  {
    var sent := ConfirmSend(s, Some(shown), nowIso).events[0].record;
    var lines := DocumentLines(sent, staff, complaints, created, generated);
    assert lines[20] == DocumentLine(sent, staff, complaints, created, generated, 20);
  }

  /** Team leaders and directors may approve a response. */
  predicate IsApprover(u: StaffUser)
  {
    u.role == TeamLeader || u.role == Director
  }

  /** Some approver in `staff` bears the name `n`. */
  ghost predicate ApproverNamed(staff: seq<StaffUser>, n: string)
  {
    exists j :: 0 <= j < |staff| && staff[j].name == n && IsApprover(staff[j])
  }

  /** The approver select offers the team leaders and directors, by name, in staff order. */
  function ApproverChoices(staff: seq<StaffUser>): (r: seq<string>)
    ensures forall i :: 0 <= i < |r| ==> ApproverNamed(staff, r[i])
    ensures forall j :: 0 <= j < |staff| && IsApprover(staff[j]) ==> staff[j].name in r
    ensures |r| == Seqs.Count(IsApprover, staff) <= |staff|
    ensures forall i :: 0 <= i < |r| ==> r[i] == Seqs.Filter(IsApprover, staff)[i].name
  {
    var approvers := Seqs.Filter(IsApprover, staff);
    var r := seq(|approvers|, i requires 0 <= i < |approvers| => approvers[i].name);
    assert forall i :: 0 <= i < |r| ==> ApproverNamed(staff, r[i]) by {
      forall i | 0 <= i < |r|
        ensures ApproverNamed(staff, r[i])
      {
        var j :| 0 <= j < |staff| && staff[j] == approvers[i];
      }
    }
    assert forall j :: 0 <= j < |staff| && IsApprover(staff[j]) ==> staff[j].name in r by {
      forall j | 0 <= j < |staff| && IsApprover(staff[j])
        ensures staff[j].name in r
      {
        var k :| 0 <= k < |approvers| && approvers[k] == staff[j];
        assert r[k] == staff[j].name;
      }
    }
    r
  }

}
