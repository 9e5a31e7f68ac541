/** `src/components/AssessmentDetailSheet.tsx`: the Add Assessment dialog (its
    fresh form, its enable rule and its add handler) and the sheet's edit
    session. The clock and the random draw are parameters: `year` is
    `getFullYear()`, `draw` is `Math.floor(Math.random() * 900)`, `nowIso` is
    `toISOString()` and `nowMillis` is `Date.now()`. */
module AssessmentSheet {
  import opened JsValues
  import opened Records
  import opened Text
  import Seqs
  import EditSession

  /** The dialog's form: an assessment without its id, every field a string. */
  datatype AssessmentForm = AssessmentForm(
    complaintId: string,
    assessmentStatus: string,
    assessNo: string,
    explanationTopic: string,
    sentTo: string,
    sentDate: string,
    sentBy: string,
    explanationDate: string)

  /** "ASN-<year>-<n>" with a three-digit `n` from 100 to 999. */
  ghost predicate AssessNoShape(s: string, year: nat)
  {
    exists suffix: string ::
      && s == "ASN-" + NatToString(year) + "-" + suffix
      && |suffix| == 3
      && (forall i :: 0 <= i < 3 ==> IsDigit(suffix[i]))
      && 100 <= ParseDigits(suffix) <= 999
  }

  /** The assess number for a draw: "ASN-<year>-<draw + 100>". */
  function AssessNo(year: nat, draw: nat): (s: string)
    requires draw < 900
    ensures AssessNoShape(s, year)
  {
    var suffix := NatToString(draw + 100);
    ThreeDigits(draw + 100);
    ParseNatToString(draw + 100);
    "ASN-" + NatToString(year) + "-" + suffix
  }

  /** `emptyForm()`: status Pending, a fresh assess number, today's date
      (the first ten characters of the ISO time) and every other field empty. */
  function EmptyForm(year: nat, draw: nat, nowIso: string): (f: AssessmentForm)
    requires draw < 900
    ensures f.complaintId == "" && f.explanationTopic == "" && f.sentTo == ""
    ensures f.sentBy == "" && f.explanationDate == ""
    ensures f.assessmentStatus == "Pending"
    ensures AssessNoShape(f.assessNo, year)
    ensures |f.sentDate| == (if |nowIso| < 10 then |nowIso| else 10) && IsPrefix(f.sentDate, nowIso)
  {
    AssessmentForm("", "Pending", AssessNo(year, draw), "", "", Seqs.Take(nowIso, 10), "", "")
  }

  /** The Add button is enabled when complaint, topic, recipient and sender are all filled in. */
  predicate AddEnabled(f: AssessmentForm)
  {
    f.complaintId != "" && f.explanationTopic != "" && f.sentTo != "" && f.sentBy != ""
  }

  /** A fresh form never enables Add: the complaint must be chosen first. */
  lemma EmptyFormDisablesAdd(year: nat, draw: nat, nowIso: string)
    requires draw < 900
    ensures !AddEnabled(EmptyForm(year, draw, nowIso))
  {
  }

  /** The record an add produces: the form's fields, the id "ASS-<millis>",
      and an empty explanation date left out. */
  function RecordOf(f: AssessmentForm, nowMillis: nat): (r: AssessmentRecord)
    ensures r.id == "ASS-" + NatToString(nowMillis)
    ensures r.explanationDate.None? <==> f.explanationDate == ""
    ensures r.explanationDate.Some? ==> r.explanationDate.value == f.explanationDate
  {
    AssessmentRecord("ASS-" + NatToString(nowMillis), f.complaintId, f.assessmentStatus, f.assessNo,
      f.explanationTopic, f.sentTo, f.sentDate, f.sentBy,
      if f.explanationDate == "" then None else Some(f.explanationDate))
  }

  /** The form a record reads back as: its fields, with a missing explanation date empty. */
  function FormOf(r: AssessmentRecord): AssessmentForm
  {
    AssessmentForm(r.complaintId, r.assessmentStatus, r.assessNo, r.explanationTopic, r.sentTo,
      r.sentDate, r.sentBy, Coalesce(r.explanationDate, ""))
  }

  /** Every field of the form survives into the added record unchanged. */
  lemma RecordOfKeepsForm(f: AssessmentForm, nowMillis: nat)
    ensures FormOf(RecordOf(f, nowMillis)) == f
  {
  }

  /** A callback the dialog makes. */
  datatype DialogEvent = Added(record: AssessmentRecord) | DialogClosed

  datatype DialogOutcome = DialogOutcome(form: AssessmentForm, events: seq<DialogEvent>)

  /** `handleAdd`: reports the new record once, resets the form to a fresh one
      and closes the dialog. It checks nothing itself. */
  function HandleAdd(f: AssessmentForm, nowMillis: nat, year: nat, draw: nat, nowIso: string)
    : (o: DialogOutcome)
    requires draw < 900
    ensures |o.events| == 2 && o.events[0].Added? && o.events[1] == DialogClosed
    ensures FormOf(o.events[0].record) == f
    ensures o.events[0].record.id == "ASS-" + NatToString(nowMillis)
    ensures o.form == EmptyForm(year, draw, nowIso)
  {
    RecordOfKeepsForm(f, nowMillis);
    DialogOutcome(EmptyForm(year, draw, nowIso), [Added(RecordOf(f, nowMillis)), DialogClosed])
  }

  /** A click on Add: nothing happens while the button is disabled. */
  function ClickAdd(f: AssessmentForm, nowMillis: nat, year: nat, draw: nat, nowIso: string)
    : (o: DialogOutcome)
    requires draw < 900
    ensures !AddEnabled(f) ==> o == DialogOutcome(f, [])
    ensures AddEnabled(f) ==> o == HandleAdd(f, nowMillis, year, draw, nowIso)
  {
    if AddEnabled(f) then HandleAdd(f, nowMillis, year, draw, nowIso) else DialogOutcome(f, [])
  }

  /** A click on Add reports something only when the form is filled in, and
      the record it reports has a complaint, topic, recipient and sender. */
  lemma AddedRecordsAreFilledIn(f: AssessmentForm, nowMillis: nat, year: nat, draw: nat, nowIso: string)
    requires draw < 900
    ensures ClickAdd(f, nowMillis, year, draw, nowIso).events != [] ==> AddEnabled(f)
    ensures ClickAdd(f, nowMillis, year, draw, nowIso).events != [] ==>
      (var r := ClickAdd(f, nowMillis, year, draw, nowIso).events[0].record;
       r.complaintId != "" && r.explanationTopic != "" && r.sentTo != "" && r.sentBy != "")
  {
    if AddEnabled(f) {
      RecordOfKeepsForm(f, nowMillis);
    }
  }

  /** Cancel closes the dialog but keeps what was typed. */
  function Cancel(f: AssessmentForm): (o: DialogOutcome)
    ensures o.form == f
    ensures o.events == [DialogClosed]
  {
    DialogOutcome(f, [DialogClosed])
  }

  /** The sheet's state: its edit session over assessment records. */
  type Sheet = EditSession.Session<AssessmentRecord>
}
