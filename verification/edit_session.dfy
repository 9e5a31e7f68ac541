/** The edit/cancel/save and delete-confirmation state shared, line for line,
    by `src/components/ComplaintDetailSheet.tsx` (lines 38-58, 359) and
    `src/components/AssessmentDetailSheet.tsx` (lines 141-161, 351). The sheet
    holds an `editing` flag, a working copy `form`, and a delete-dialog flag;
    the callbacks it invokes are returned as a list of events. */
module EditSession {
  import opened JsValues

  /** A callback invocation made by a sheet. */
  datatype Event<T> = Updated(record: T) | Deleted(id: string) | SheetClosed

  datatype Session<T> = Session(editing: bool, form: Option<T>, deleteDialog: bool)

  /** What a handler leaves behind: the new state and the callbacks it made, in order. */
  datatype Outcome<T> = Outcome(session: Session<T>, events: seq<Event<T>>)

  /** The state a sheet starts in: not editing, no form, dialog shut. */
  function Initial<T>(): (s: Session<T>)
    ensures !s.editing && s.form.None? && !s.deleteDialog
  {
    Session(false, None, false)
  }

  /** `startEdit`: the form becomes a copy of the shown record (or stays empty
      when there is none) and editing starts either way. */
  function StartEdit<T>(s: Session<T>, shown: Option<T>): (r: Session<T>)
    ensures r.editing
    ensures r.form == shown
    ensures r.deleteDialog == s.deleteDialog
  {
    s.(editing := true, form := shown)
  }

  /** A field edit in the form: only possible while the form is shown, which
      the page does when editing with a form. */
  function Revise<T>(s: Session<T>, revised: T): (r: Session<T>)
    ensures s.editing && s.form.Some? ==> r.form == Some(revised) && r.editing
    ensures !(s.editing && s.form.Some?) ==> r == s
  {
    if s.editing && s.form.Some? then s.(form := Some(revised)) else s
  }

  /** `cancelEdit`: editing stops and the form is dropped; nothing is reported. */
  function CancelEdit<T>(s: Session<T>): (o: Outcome<T>)
    ensures !o.session.editing && o.session.form.None?
    ensures o.session.deleteDialog == s.deleteDialog
    ensures o.events == []
  {
    Outcome(s.(editing := false, form := None), [])
  }

  /** `saveEdit`: with a form, reports it once through `onUpdate` and resets;
      without one, does nothing at all. */
  function SaveEdit<T>(s: Session<T>): (o: Outcome<T>)
    ensures s.form.Some? ==> o.events == [Updated(s.form.value)]
    ensures s.form.Some? ==> !o.session.editing && o.session.form.None?
    ensures s.form.None? ==> o == Outcome(s, [])
    ensures o.session.deleteDialog == s.deleteDialog
  {
    match s.form
    case Some(f) => Outcome(s.(editing := false, form := None), [Updated(f)])
    case None => Outcome(s, [])
  }

  /** The Delete button opens the confirmation dialog. */
  function AskDelete<T>(s: Session<T>): (r: Session<T>)
    ensures r.deleteDialog
    ensures r.editing == s.editing && r.form == s.form
  {
    s.(deleteDialog := true)
  }

  /** Confirming the dialog reports the deletion, shuts the dialog and closes the sheet. */
  function ConfirmDelete<T>(s: Session<T>, id: string): (o: Outcome<T>)
    ensures o.events == [Deleted(id), SheetClosed]
    ensures !o.session.deleteDialog
    ensures o.session.editing == s.editing && o.session.form == s.form
  {
    Outcome(s.(deleteDialog := false), [Deleted(id), SheetClosed])
  }

  /** Cancel in the dialog, or dismissing it, only shuts the dialog: nothing is reported. */
  function CancelDelete<T>(s: Session<T>): (o: Outcome<T>)
    ensures o.events == []
    ensures !o.session.deleteDialog
    ensures o.session.editing == s.editing && o.session.form == s.form
  {
    Outcome(s.(deleteDialog := false), [])
  }

  /** Asking to delete and then cancelling leaves a session without an open
      dialog exactly as it was. */
  lemma AskThenCancel<T>(s: Session<T>)
    requires !s.deleteDialog
    ensures CancelDelete(AskDelete(s)).session == s
    ensures CancelDelete(AskDelete(s)).events == []
  {
  }

  /** Editing a shown record, revising it, and saving reports the last
      revision once and leaves the session idle. */
  lemma EditReviseSave<T>(s: Session<T>, shown: T, revised: T)
    ensures SaveEdit(Revise(StartEdit(s, Some(shown)), revised)).events == [Updated(revised)]
    ensures !SaveEdit(Revise(StartEdit(s, Some(shown)), revised)).session.editing
  {
  }

  /** Editing and saving without a change reports the shown record unchanged. */
  lemma EditSaveUnchanged<T>(s: Session<T>, shown: T)
    ensures SaveEdit(StartEdit(s, Some(shown))).events == [Updated(shown)]
  {
  }

  /** Editing and then cancelling reports nothing and ends with no form,
      whatever was revised in between. */
  lemma EditReviseCancel<T>(s: Session<T>, shown: T, revised: T)
    ensures CancelEdit(Revise(StartEdit(s, Some(shown)), revised)).events == []
    ensures CancelEdit(Revise(StartEdit(s, Some(shown)), revised)).session.form.None?
  {
  }

  /** Saving twice reports once: the second save finds no form. */
  lemma SaveTwiceReportsOnce<T>(s: Session<T>)
    ensures SaveEdit(SaveEdit(s).session).events == []
  {
  }
}
