/** The records of `src/lib/types.ts`: staff roles, the complaint lifecycle
    statuses, and the Complaint, StaffUser, Assessment and Response shapes the
    mock data, the list pages and the reports read. */
module Types {
  import opened JsValues

  /** The five staff roles. */
  datatype UserRole = Admin | Director | TeamLeader | Officer | Directorate

  /** The nine complaint statuses. */
  datatype ComplaintStatus =
    | New
    | Categorized
    | Assigned
    | InProgress
    | SentToDirectorate
    | AssessmentCompleted
    | Responded
    | Closed
    | Rejected

  /** A complaint: the optional fields are category, subcategory, assigned
      officer and directorate; everything else is required. */
  datatype Complaint = Complaint(
    id: string,
    tin: string,
    fullName: string,
    contact: string,
    details: string,
    category: Option<string>,
    subcategory: Option<string>,
    status: ComplaintStatus,
    assignedOfficer: Option<string>,
    directorate: Option<string>,
    createdAt: string,
    updatedAt: string)

  datatype StaffUser = StaffUser(
    id: string,
    name: string,
    email: string,
    role: UserRole,
    directorate: Option<string>)

  /** The key the staff maps are built on. */
  function StaffId(u: StaffUser): string
  {
    u.id
  }

  /** Who wrote an assessment: the two values `'officer' | 'directorate'`. */
  datatype AssessmentType = ByOfficer | ByDirectorate

  datatype Assessment = Assessment(
    id: string,
    complaintId: string,
    assessedBy: string,
    kind: AssessmentType,
    content: string,
    createdAt: string)

  /** A response: a required `sentToUser` flag and no status field. */
  datatype Response = Response(
    id: string,
    complaintId: string,
    respondedBy: string,
    content: string,
    sentToUser: bool,
    createdAt: string)

  /** Every role, in declaration order. */
  const ALL_ROLES: seq<UserRole> := [Admin, Director, TeamLeader, Officer, Directorate]

  /** The string a role is stored and compared as. */
  function RoleName(r: UserRole): string
  {
    match r
    case Admin => "admin"
    case Director => "director"
    case TeamLeader => "team_leader"
    case Officer => "officer"
    case Directorate => "directorate"
  }

  /** Reads a stored role string; anything other than the five names is unknown. */
  function ParseRole(s: string): (r: Option<UserRole>)
    ensures r.Some? ==> RoleName(r.value) == s
  {
    if s == "admin" then Some(Admin)
    else if s == "director" then Some(Director)
    else if s == "team_leader" then Some(TeamLeader)
    else if s == "officer" then Some(Officer)
    else if s == "directorate" then Some(Directorate)
    else None
  }

  /** Every role is listed once, and its name reads back as itself. */
  lemma RolesComplete()
    ensures |ALL_ROLES| == 5
    ensures forall r: UserRole :: r in ALL_ROLES
    ensures forall i, j :: 0 <= i < j < |ALL_ROLES| ==> ALL_ROLES[i] != ALL_ROLES[j]
    ensures forall r: UserRole :: ParseRole(RoleName(r)) == Some(r)
  {
    forall r: UserRole ensures r in ALL_ROLES && ParseRole(RoleName(r)) == Some(r) {
      match r
      case Admin =>
      case Director =>
      case TeamLeader =>
      case Officer =>
      case Directorate =>
    }
  }

  /** The text a status is displayed and compared as. */
  function StatusName(s: ComplaintStatus): string
  {
    match s
    case New => "New"
    case Categorized => "Categorized"
    case Assigned => "Assigned"
    case InProgress => "In Progress"
    case SentToDirectorate => "Sent to Directorate"
    case AssessmentCompleted => "Assessment Completed"
    case Responded => "Responded"
    case Closed => "Closed"
    case Rejected => "Rejected"
  }

  /** Reads a status string; anything other than the nine names is unknown. */
  function ParseStatus(s: string): (r: Option<ComplaintStatus>)
    ensures r.Some? ==> StatusName(r.value) == s
  {
    if s == "New" then Some(New)
    else if s == "Categorized" then Some(Categorized)
    else if s == "Assigned" then Some(Assigned)
    else if s == "In Progress" then Some(InProgress)
    else if s == "Sent to Directorate" then Some(SentToDirectorate)
    else if s == "Assessment Completed" then Some(AssessmentCompleted)
    else if s == "Responded" then Some(Responded)
    else if s == "Closed" then Some(Closed)
    else if s == "Rejected" then Some(Rejected)
    else None
  }

  /** Status names are pairwise distinct and read back as themselves. */
  lemma StatusNamesRoundTrip(s: ComplaintStatus)
    ensures ParseStatus(StatusName(s)) == Some(s)
  {
  }

  /** The string an assessment type is stored as. */
  function AssessmentTypeName(t: AssessmentType): string
  {
    match t
    case ByOfficer => "officer"
    case ByDirectorate => "directorate"
  }
}
