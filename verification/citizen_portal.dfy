/** `src/pages/Index.tsx`: the public page where a citizen verifies a TIN,
    submits a complaint and tracks one. The random draw for the tracking id
    is a parameter: `draw` is `Math.floor(Math.random() * 999)`. */
module CitizenPortal {
  import opened JsValues
  import opened Types
  import opened Text
  import MockData

  datatype Tab = SubmitTab | TrackTab

  /** The submit form: four strings. */
  datatype IntakeForm = IntakeForm(tin: string, fullName: string, contact: string, details: string)

  const EMPTY_FORM: IntakeForm := IntakeForm("", "", "", "")

  /** The page's state. */
  datatype Portal = Portal(
    activeTab: Option<Tab>,
    tinSearch: string,
    tinVerified: bool,
    trackCode: string,
    tracked: Option<Complaint>,
    form: IntakeForm)

  /** The page as first shown: no tab, nothing typed, nothing verified or tracked. */
  function Initial(): (p: Portal)
    ensures p.activeTab.None? && !p.tinVerified && p.tracked.None?
    ensures p.tinSearch == "" && p.trackCode == "" && p.form == EMPTY_FORM
  {
    Portal(None, "", false, "", None, EMPTY_FORM)
  }

  /** The shortest TIN the page accepts. */
  const MIN_TIN_LENGTH: nat := 5

  /** `handleTinVerify`: a TIN of five or more characters is accepted and
      copied into the form; a shorter one changes nothing (the page only
      shows an error). Nothing checks that the characters are digits. */
  function VerifyTin(p: Portal): (q: Portal)
    ensures |p.tinSearch| >= MIN_TIN_LENGTH ==> q == p.(tinVerified := true, form := p.form.(tin := p.tinSearch))
    ensures |p.tinSearch| < MIN_TIN_LENGTH ==> q == p
  {
    if |p.tinSearch| >= MIN_TIN_LENGTH then p.(tinVerified := true, form := p.form.(tin := p.tinSearch))
    else p
  }

  /** Verification succeeds exactly for long-enough input, and afterwards the
      form carries the TIN that was verified. */
  lemma VerifyTinOutcome(p: Portal)
    requires !p.tinVerified
    ensures VerifyTin(p).tinVerified <==> |p.tinSearch| >= MIN_TIN_LENGTH
    ensures VerifyTin(p).tinVerified ==> VerifyTin(p).form.tin == p.tinSearch
  {
  }

  /** `c.id === code || c.tin === code`. */
  predicate MatchesCode(c: Complaint, code: string)
  {
    c.id == code || c.tin == code
  }

  /** `cs[i]` matches the code and nothing before it does. */
  predicate FirstMatch(cs: seq<Complaint>, code: string, i: nat)
  {
    && i < |cs|
    && MatchesCode(cs[i], code)
    && forall j :: 0 <= j < i ==> !MatchesCode(cs[j], code)
  }

  /** `complaints.find(...)`: the first complaint whose id or TIN is exactly the code. */
  function FindByCode(cs: seq<Complaint>, code: string): (r: Option<Complaint>)
    ensures r.None? <==> forall i :: 0 <= i < |cs| ==> !MatchesCode(cs[i], code)
    ensures r.Some? ==> exists i :: 0 <= i < |cs| && cs[i] == r.value && FirstMatch(cs, code, i)
  {
    if |cs| == 0 then None
    else if MatchesCode(cs[0], code) then
      assert FirstMatch(cs, code, 0);
      Some(cs[0])
    else
      assert forall i :: 1 <= i < |cs| ==> cs[i] == cs[1..][i - 1];
      var rest := FindByCode(cs[1..], code);
      if rest.Some? then
        var i :| 0 <= i < |cs[1..]| && cs[1..][i] == rest.value && FirstMatch(cs[1..], code, i);
        assert FirstMatch(cs, code, i + 1);
        rest
      else rest
  }

  /** `handleTrack`: shows the first matching complaint, or nothing (with an error). */
  function Track(p: Portal, cs: seq<Complaint>): (q: Portal)
    ensures q == p.(tracked := FindByCode(cs, p.trackCode))
    ensures q.tracked.Some? ==> MatchesCode(q.tracked.value, p.trackCode)
    ensures q.tracked.None? <==> forall i :: 0 <= i < |cs| ==> !MatchesCode(cs[i], p.trackCode)
  {
    p.(tracked := FindByCode(cs, p.trackCode))
  }

  /** Tracking by a complaint's own id finds it when ids and TINs never collide. */
  lemma TrackById(p: Portal, cs: seq<Complaint>, k: nat)
    requires k < |cs|
    requires p.trackCode == cs[k].id
    requires forall i :: 0 <= i < |cs| && i != k ==> cs[i].id != cs[k].id && cs[i].tin != cs[k].id
    ensures Track(p, cs).tracked == Some(cs[k])
  {
    var r := FindByCode(cs, p.trackCode);
    var i :| 0 <= i < |cs| && cs[i] == r.value && FirstMatch(cs, p.trackCode, i);
  }

  /** The tracking id: "CMP-2026-" and the draw padded with zeros to three digits. */
  function TrackingId(draw: nat): (id: string)
    requires draw < 999
    ensures |id| == 12
    ensures IsPrefix("CMP-2026-", id)
    ensures forall i :: 9 <= i < 12 ==> IsDigit(id[i])
    ensures ParseDigits(id[9..]) == draw
  {
    var digits := NatToString(draw);
    AtMostThreeDigits(draw);
    var padded := PadStart(digits, 3, '0');
    var z :| padded == z + digits && forall i :: 0 <= i < |z| ==> z[i] == '0';
    ParseLeadingZeros(z, digits);
    ParseNatToString(draw);
    var id := "CMP-2026-" + padded;
    assert id[9..] == padded;
    id
  }

  /** Different draws give different tracking ids. */
  lemma TrackingIdInjective(a: nat, b: nat)
    requires a < 999 && b < 999
    requires TrackingId(a) == TrackingId(b)
    ensures a == b
  {
    assert TrackingId(a)[9..] == TrackingId(b)[9..];
  }

  /** `handleSubmit`: issues a tracking id and resets the tab, the TIN
      verification, the TIN input and every form field. The complaint itself
      is not stored anywhere. */
  datatype Submission = Submission(portal: Portal, trackingId: string)

  function Submit(p: Portal, draw: nat): (s: Submission)
    requires draw < 999
    ensures s.portal.activeTab.None? && !s.portal.tinVerified && s.portal.tinSearch == ""
    ensures s.portal.form == EMPTY_FORM
    ensures s.portal.trackCode == p.trackCode && s.portal.tracked == p.tracked
    ensures s.trackingId == TrackingId(draw)
  {
    Submission(p.(activeTab := None, tinVerified := false, tinSearch := "", form := EMPTY_FORM), TrackingId(draw))
  }

  /** The submit form is on screen only on the submit tab after the TIN is
      verified, and the browser submits it only when the three `required`
      fields are non-empty. */
  predicate SubmitEnabled(p: Portal)
  {
    && p.activeTab == Some(SubmitTab)
    && p.tinVerified
    && p.form.fullName != "" && p.form.contact != "" && p.form.details != ""
  }

  /** A click on Submit: `handleSubmit` runs only when the form is shown and
      its required fields are filled in; otherwise nothing happens. */
  function ClickSubmit(p: Portal, draw: nat): (s: Option<Submission>)
    requires draw < 999
    ensures s.Some? <==> p.activeTab == Some(SubmitTab) && p.tinVerified &&
                         p.form.fullName != "" && p.form.contact != "" && p.form.details != ""
    ensures s.Some? ==> s.value == Submit(p, draw)
  {
    if SubmitEnabled(p) then Some(Submit(p, draw)) else None
  }

  /** The page a submission leaves cannot submit again: the tab is closed,
      the TIN must be verified anew and the form is empty. */
  lemma SubmitNeedsFreshVerification(p: Portal, draw: nat, draw2: nat)
    requires draw < 999 && draw2 < 999
    ensures ClickSubmit(p, draw).Some? ==> ClickSubmit(ClickSubmit(p, draw).value.portal, draw2).None?
  {
  }

  /** The submitted complaint is not stored, and the id issued for it can
      be a seeded complaint's id: tracking the id issued for a draw of 1
      shows the seeded complaint CMP-2026-001 of another taxpayer. */
  lemma IssuedIdCanNameAnotherComplaint()
    ensures TrackingId(1) == MockData.COMPLAINTS[0].id
    ensures FindByCode(MockData.COMPLAINTS, TrackingId(1)) == Some(MockData.COMPLAINTS[0])
  {
    assert NatToString(1) == "1";
    assert PadStart("1", 3, '0') == "001" by {
      assert Repeat('0', 2) == "00";
    }
  }

  /** Opening the submit tab clears a tracked complaint. */
  function OpenSubmit(p: Portal): (q: Portal)
    ensures q.activeTab == Some(SubmitTab) && q.tracked.None?
    ensures q.tinVerified == p.tinVerified && q.tinSearch == p.tinSearch && q.form == p.form
  {
    p.(activeTab := Some(SubmitTab), tracked := None)
  }

  /** Opening the track tab clears TIN verification and the TIN input. */
  function OpenTrack(p: Portal): (q: Portal)
    ensures q.activeTab == Some(TrackTab) && !q.tinVerified && q.tinSearch == ""
    ensures q.tracked == p.tracked && q.form == p.form
  {
    p.(activeTab := Some(TrackTab), tinVerified := false, tinSearch := "")
  }

  /** Going to tracking and back to submitting needs the TIN verified again,
      while the form keeps what was typed (including the verified TIN). */
  lemma TrackThenSubmitNeedsVerification(p: Portal, draw: nat)
    requires draw < 999
    ensures !OpenSubmit(OpenTrack(p)).tinVerified
    ensures ClickSubmit(OpenSubmit(OpenTrack(p)), draw).None?
    ensures OpenSubmit(OpenTrack(p)).form == p.form
    ensures OpenSubmit(OpenTrack(p)).tracked.None?
  {
  }
}
