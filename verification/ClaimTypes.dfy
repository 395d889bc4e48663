/** The closed enumerations and record shapes every view works over
    (the TypeScript string-literal unions and interfaces of the claims types). */
module ClaimTypes {
  import opened Wrappers

  datatype UserRole = Customer | Adjuster | Admin

  datatype ClaimStatus = Processing | HitlReview | Approved | Rejected | Pending

  datatype ClaimType = Collision | Theft | Fire | Flood | Liability | Other

  /** The four pipeline stages that emit agent messages. */
  datatype AgentKind = ClaimsAgent | VerifierAgent | CagAgent | SupervisorAgent

  datatype Severity = Info | Warning | Error | Success

  datatype CorrectionStatus = CorrectionPending | CorrectionApproved | CorrectionRejected | CorrectionEdited

  datatype User = User(id: string, name: string, email: string, role: UserRole)

  /** `editable` is an optional boolean; only `Some(true)` is truthy. */
  datatype ExtractedField = ExtractedField(field: string, value: string, confidence: int, editable: Option<bool>)

  datatype AgentMessage = AgentMessage(id: string, agent: AgentKind, message: string, timestamp: string, severity: Severity)

  datatype CAGCorrection = CAGCorrection(
    id: string,
    field: string,
    issue: string,
    suggestedValue: string,
    originalValue: string,
    status: CorrectionStatus)

  /** Confidence and flag counts are JavaScript numbers; the model uses integers. */
  datatype Claim = Claim(
    id: string,
    policyNumber: string,
    incidentDate: string,
    claimType: ClaimType,
    status: ClaimStatus,
    confidence: int,
    flagsCount: int,
    createdAt: string,
    updatedAt: string,
    claimAmount: Option<real>,
    description: Option<string>,
    extractedFields: Option<seq<ExtractedField>>,
    agentMessages: Option<seq<AgentMessage>>,
    cagCorrections: Option<seq<CAGCorrection>>,
    assignedAdjuster: Option<string>)

  /** The "pending review" test both dashboards apply to a claim. */
  predicate AwaitingReview(c: Claim) {
    c.status == HitlReview || c.status == Processing
  }

  /** The review view's reading of the optional lists: absent means empty. */
  function FieldsOf(c: Claim): (fs: seq<ExtractedField>)
    ensures c.extractedFields.None? ==> fs == []
    ensures c.extractedFields.Some? ==> fs == c.extractedFields.value
  {
    c.extractedFields.GetOr([])
  }

  function MessagesOf(c: Claim): (ms: seq<AgentMessage>)
    ensures c.agentMessages.None? ==> ms == []
    ensures c.agentMessages.Some? ==> ms == c.agentMessages.value
  {
    c.agentMessages.GetOr([])
  }

  function CorrectionsOf(c: Claim): (cs: seq<CAGCorrection>)
    ensures c.cagCorrections.None? ==> cs == []
    ensures c.cagCorrections.Some? ==> cs == c.cagCorrections.value
  {
    c.cagCorrections.GetOr([])
  }

  // The string literals of the unions, and their parsers.

  function RoleName(r: UserRole): string {
    match r
    case Customer => "customer"
    case Adjuster => "adjuster"
    case Admin => "admin"
  }

  /** A role string is exactly one of the three literals. */
  function ParseRole(s: string): (r: Option<UserRole>)
    ensures r.Some? ==> RoleName(r.value) == s
    ensures forall role :: s == RoleName(role) ==> r == Some(role)
  {
    if s == "customer" then Some(Customer)
    else if s == "adjuster" then Some(Adjuster)
    else if s == "admin" then Some(Admin)
    else None
  }

  function StatusName(st: ClaimStatus): string {
    match st
    case Processing => "processing"
    case HitlReview => "hitl_review"
    case Approved => "approved"
    case Rejected => "rejected"
    case Pending => "pending"
  }

  /** A claim-status string is exactly one of the five literals. */
  function ParseStatus(s: string): (r: Option<ClaimStatus>)
    ensures r.Some? ==> StatusName(r.value) == s
    ensures forall st :: s == StatusName(st) ==> r == Some(st)
  {
    if s == "processing" then Some(Processing)
    else if s == "hitl_review" then Some(HitlReview)
    else if s == "approved" then Some(Approved)
    else if s == "rejected" then Some(Rejected)
    else if s == "pending" then Some(Pending)
    else None
  }

  function ClaimTypeName(t: ClaimType): string {
    match t
    case Collision => "collision"
    case Theft => "theft"
    case Fire => "fire"
    case Flood => "flood"
    case Liability => "liability"
    case Other => "other"
  }

  /** A claim-type string is exactly one of the six literals. */
  function ParseClaimType(s: string): (r: Option<ClaimType>)
    ensures r.Some? ==> ClaimTypeName(r.value) == s
    ensures forall t :: s == ClaimTypeName(t) ==> r == Some(t)
  {
    if s == "collision" then Some(Collision)
    else if s == "theft" then Some(Theft)
    else if s == "fire" then Some(Fire)
    else if s == "flood" then Some(Flood)
    else if s == "liability" then Some(Liability)
    else if s == "other" then Some(Other)
    else None
  }

  function CorrectionStatusName(st: CorrectionStatus): string {
    match st
    case CorrectionPending => "pending"
    case CorrectionApproved => "approved"
    case CorrectionRejected => "rejected"
    case CorrectionEdited => "edited"
  }

  /** A correction-status string is exactly one of the four literals. */
  function ParseCorrectionStatus(s: string): (r: Option<CorrectionStatus>)
    ensures r.Some? ==> CorrectionStatusName(r.value) == s
    ensures forall st :: s == CorrectionStatusName(st) ==> r == Some(st)
  {
    if s == "pending" then Some(CorrectionPending)
    else if s == "approved" then Some(CorrectionApproved)
    else if s == "rejected" then Some(CorrectionRejected)
    else if s == "edited" then Some(CorrectionEdited)
    else None
  }

  function AgentName(a: AgentKind): string {
    match a
    case ClaimsAgent => "claims"
    case VerifierAgent => "verifier"
    case CagAgent => "cag"
    case SupervisorAgent => "supervisor"
  }

  /** An agent string is exactly one of the four stage names. */
  function ParseAgent(s: string): (r: Option<AgentKind>)
    ensures r.Some? ==> AgentName(r.value) == s
    ensures forall a :: s == AgentName(a) ==> r == Some(a)
  {
    if s == "claims" then Some(ClaimsAgent)
    else if s == "verifier" then Some(VerifierAgent)
    else if s == "cag" then Some(CagAgent)
    else if s == "supervisor" then Some(SupervisorAgent)
    else None
  }

  function SeverityName(t: Severity): string {
    match t
    case Info => "info"
    case Warning => "warning"
    case Error => "error"
    case Success => "success"
  }

  /** A message-type string is exactly one of the four severities. */
  function ParseSeverity(s: string): (r: Option<Severity>)
    ensures r.Some? ==> SeverityName(r.value) == s
    ensures forall t :: s == SeverityName(t) ==> r == Some(t)
  {
    if s == "info" then Some(Info)
    else if s == "warning" then Some(Warning)
    else if s == "error" then Some(Error)
    else if s == "success" then Some(Success)
    else None
  }
}
