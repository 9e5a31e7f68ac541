/** The seed records of `src/lib/mockData.ts` and the well-formedness facts
    the pages silently rely on: distinct ids and emails, resolvable
    references, and an assignee exactly on complaints past triage. */
module MockData {
  import opened JsValues
  import opened Types

  datatype Category = Category(name: string, subcategories: seq<string>)

  const CATEGORIES: seq<Category> := [
    Category("Tax Assessment", ["Income Tax", "VAT", "Corporate Tax", "Withholding Tax"]),
    Category("Service Delivery", ["Delay", "Quality", "Accessibility", "Staff Behavior"]),
    Category("Refund", ["Pending Refund", "Incorrect Amount", "Delayed Processing"]),
    Category("Registration", ["TIN Issue", "Business Registration", "Update Request"])
  ]

  const DIRECTORATES: seq<string> :=
    ["Domestic Tax", "Customs & Excise", "Legal Affairs", "Taxpayer Services", "Audit & Investigation"]

  const STAFF: seq<StaffUser> := [
    StaffUser("1", "Admin User", "admin@portal.gov", Admin, None),
    StaffUser("2", "Director General", "director@portal.gov", Director, None),
    StaffUser("3", "Team Lead A", "teamlead@portal.gov", TeamLeader, None),
    StaffUser("4", "Officer Ahmed", "ahmed@portal.gov", Officer, Some("Domestic Tax")),
    StaffUser("5", "Officer Sara", "sara@portal.gov", Officer, Some("Customs & Excise")),
    StaffUser("6", "Dir. Domestic Tax", "domestic@portal.gov", Directorate, Some("Domestic Tax"))
  ]

  const COMPLAINTS: seq<Complaint> := [
    Complaint("CMP-2026-001", "1234567890", "John Doe", "+251911223344",
      "Incorrect tax assessment on my annual income tax filing for 2025.",
      Some("Tax Assessment"), Some("Income Tax"), InProgress, Some("4"), Some("Domestic Tax"),
      "2026-01-15T09:30:00Z", "2026-02-01T14:20:00Z"),
    Complaint("CMP-2026-002", "0987654321", "Jane Smith", "+251922334455",
      "Delayed VAT refund for Q3 2025, submitted documents 3 months ago.",
      Some("Refund"), Some("Delayed Processing"), SentToDirectorate, Some("5"), Some("Customs & Excise"),
      "2026-01-20T11:00:00Z", "2026-02-05T16:45:00Z"),
    Complaint("CMP-2026-003", "1122334455", "Ali Hassan", "+251933445566",
      "Unable to update my business registration details online.",
      Some("Registration"), Some("Update Request"), New, None, None,
      "2026-02-10T08:15:00Z", "2026-02-10T08:15:00Z"),
    Complaint("CMP-2026-004", "5566778899", "Fatima Yusuf", "+251944556677",
      "Staff at the branch office were unhelpful during my visit.",
      Some("Service Delivery"), Some("Staff Behavior"), Assigned, Some("4"), Some("Taxpayer Services"),
      "2026-02-08T13:00:00Z", "2026-02-09T10:30:00Z"),
    Complaint("CMP-2026-005", "6677889900", "Michael Tesfaye", "+251955667788",
      "Withholding tax amount is incorrectly calculated on my payslip.",
      Some("Tax Assessment"), Some("Withholding Tax"), Responded, Some("5"), Some("Domestic Tax"),
      "2026-01-25T07:45:00Z", "2026-02-11T09:00:00Z")
  ]

  const ASSESSMENTS: seq<Assessment> := [
    Assessment("ASS-001", "CMP-2026-001", "4", ByOfficer,
      "Reviewed tax filing. Found discrepancy in reported income vs employer records.", "2026-01-28T10:00:00Z"),
    Assessment("ASS-002", "CMP-2026-002", "5", ByOfficer,
      "All refund documents verified. Amount eligible for refund confirmed.", "2026-02-03T11:30:00Z"),
    Assessment("ASS-003", "CMP-2026-005", "6", ByDirectorate,
      "Confirmed withholding tax calculation error. Correction issued.", "2026-02-08T14:00:00Z")
  ]

  const RESPONSES: seq<Response> := [
    Response("RES-001", "CMP-2026-005", "5",
      "Dear Mr. Tesfaye, the withholding tax error has been corrected. Your updated tax certificate is available.",
      true, "2026-02-11T09:00:00Z")
  ]

  function StaffIds(staff: seq<StaffUser>): (r: seq<string>)
    ensures |r| == |staff|
    ensures forall i :: 0 <= i < |staff| ==> r[i] == staff[i].id
  {
    seq(|staff|, i requires 0 <= i < |staff| => staff[i].id)
  }

  function ComplaintIds(cs: seq<Complaint>): (r: seq<string>)
    ensures |r| == |cs|
    ensures forall i :: 0 <= i < |cs| ==> r[i] == cs[i].id
  {
    seq(|cs|, i requires 0 <= i < |cs| => cs[i].id)
  }

  /** No two staff users share an id, and no two share an email. */
  predicate StaffKeysDistinct(staff: seq<StaffUser>)
  {
    forall i, j :: 0 <= i < j < |staff| ==> staff[i].id != staff[j].id && staff[i].email != staff[j].email
  }

  /** Exactly the officer and directorate users carry a home directorate. */
  predicate DirectorateOnFieldStaff(staff: seq<StaffUser>)
  {
    forall i :: 0 <= i < |staff| ==>
      (staff[i].directorate.Some? <==> staff[i].role == Officer || staff[i].role == Directorate)
  }

  /** Every assessment names an existing complaint and an existing staff author. */
  predicate AssessmentRefsResolve(assessments: seq<Assessment>, cs: seq<Complaint>, staff: seq<StaffUser>)
  {
    forall i :: 0 <= i < |assessments| ==>
      assessments[i].complaintId in ComplaintIds(cs) && assessments[i].assessedBy in StaffIds(staff)
  }

  /** Every response names an existing complaint and an existing staff author. */
  predicate ResponseRefsResolve(rs: seq<Response>, cs: seq<Complaint>, staff: seq<StaffUser>)
  {
    forall i :: 0 <= i < |rs| ==>
      rs[i].complaintId in ComplaintIds(cs) && rs[i].respondedBy in StaffIds(staff)
  }

  /** `id` is the id of an officer. */
  predicate IsOfficerId(staff: seq<StaffUser>, id: string)
  {
    exists i :: 0 <= i < |staff| && staff[i].id == id && staff[i].role == Officer
  }

  /** A complaint has an assignee exactly when it is past New/Categorized, and
      the assignee is an officer. */
  predicate AssignmentConsistent(cs: seq<Complaint>, staff: seq<StaffUser>)
  {
    forall i :: 0 <= i < |cs| ==>
      && (cs[i].assignedOfficer.Some? <==> cs[i].status != New && cs[i].status != Categorized)
      && (cs[i].assignedOfficer.Some? ==> IsOfficerId(staff, cs[i].assignedOfficer.value))
  }

  /** Category names are distinct and every category has a subcategory. */
  predicate CategoriesWellFormed(cats: seq<Category>)
  {
    && (forall i, j :: 0 <= i < j < |cats| ==> cats[i].name != cats[j].name)
    && (forall i :: 0 <= i < |cats| ==> |cats[i].subcategories| >= 1)
  }

  /** The staff seed has distinct ids and emails, and directorates only on field staff. */
  lemma SeedStaffWellFormed()
    ensures StaffKeysDistinct(STAFF)
    ensures DirectorateOnFieldStaff(STAFF)
  {
  }

  /** Every seeded assessment and response points at a seeded complaint and staff user. */
  lemma SeedReferencesResolve()
    ensures AssessmentRefsResolve(ASSESSMENTS, COMPLAINTS, STAFF)
    ensures ResponseRefsResolve(RESPONSES, COMPLAINTS, STAFF)
  {
    var cids := ComplaintIds(COMPLAINTS);
    var sids := StaffIds(STAFF);
    assert cids[0] == "CMP-2026-001" && cids[1] == "CMP-2026-002" && cids[4] == "CMP-2026-005";
    assert sids[3] == "4" && sids[4] == "5" && sids[5] == "6";
  }

  /** Seeded complaints have an officer exactly when they are past triage. */
  lemma SeedAssignmentConsistent()
    ensures AssignmentConsistent(COMPLAINTS, STAFF)
  {
    assert STAFF[3].id == "4" && STAFF[3].role == Officer;
    assert STAFF[4].id == "5" && STAFF[4].role == Officer;
  }

  /** The seeded categories are well formed. */
  lemma SeedCategoriesWellFormed()
    ensures CategoriesWellFormed(CATEGORIES)
  {
  }
}
