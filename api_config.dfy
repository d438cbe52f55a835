/** The endpoint tables of the backend services and the shared response
    rule.  Each table entry is a fixed path or a path builder; a builder
    splices its arguments between fixed pieces. */
module ApiConfig {
  import opened Js
  import opened Web
  import opened Text

  /** A table entry: a constant path, or a template with one or two arguments. */
  datatype Route =
    | Fixed(path: string)
    | One(prefix: string, suffix: string)
    | Two(prefix: string, middle: string, suffix: string)
  {
    function Arity(): nat {
      match this
      case Fixed(_) => 0
      case One(_, _) => 1
      case Two(_, _, _) => 2
    }
  }

  /** A path starts with "/", and every argument slot is bounded by "/" on
      the left and by "/" or the end of the path on the right. */
  predicate Delimited(r: Route) {
    match r
    case Fixed(p) => |p| > 0 && p[0] == '/'
    case One(p, s) => |p| > 0 && p[0] == '/' && p[|p| - 1] == '/' && (s == "" || s[0] == '/')
    case Two(p, m, s) =>
      && |p| > 0 && p[0] == '/' && p[|p| - 1] == '/'
      && |m| > 0 && m[0] == '/' && m[|m| - 1] == '/'
      && (s == "" || s[0] == '/')
  }

  /** The path an entry gives for its arguments (the template literal). */
  function PathOf(r: Route, args: seq<string>): (path: string)
    requires |args| == r.Arity()
    ensures Delimited(r) ==> |path| > 0 && path[0] == '/'
  {
    match r
    case Fixed(p) => p
    case One(p, s) => p + args[0] + s
    case Two(p, m, s) => p + args[0] + m + args[1] + s
  }

  /** The entries of `AUTH_ENDPOINTS`. */
  datatype AuthEndpoint =
    | Login
    | Logout
    | LogoutAll
    | RefreshToken
    | Register

  function AuthRoute(e: AuthEndpoint): (r: Route)
    ensures Delimited(r)
  {
    match e
    case Login => Fixed("/auth/login")
    case Logout => Fixed("/auth/logout")
    case LogoutAll => Fixed("/auth/logout/all")
    case RefreshToken => Fixed("/auth/refresh-token")
    case Register => Fixed("/auth/register")
  }

  /** The entries of `ADMIN_ENDPOINTS.ORGANIZATIONS`. */
  datatype AdminOrganizationsEndpoint =
    | List
    | Get
    | Create
    | Update
    | Delete
    | Deactivate
    | AllowedUsersList
    | AllowedUsersAdd
    | AllowedUsersRemove
    | ConfigurationsList
    | ConfigurationsCreate
    | ConfigurationsUpdate
    | ConfigurationsDelete
    | LocationsList
    | LocationsCreate
    | LocationsGet
    | LocationsUpdate
    | LocationsDelete
    | BasicDataCountries
    | BasicDataStates

  function AdminOrganizationsRoute(e: AdminOrganizationsEndpoint): (r: Route)
    ensures Delimited(r)
  {
    match e
    case List => Fixed("/organizations/list")
    case Get => One("/organizations/", "")
    case Create => Fixed("/organizations/create")
    case Update => One("/organizations/update/", "")
    case Delete => One("/organizations/delete/", "")
    case Deactivate => One("/organizations/deactivate/", "")
    case AllowedUsersList => Fixed("/organizations/allowed-users/list")
    case AllowedUsersAdd => Fixed("/organizations/allowed-users/add")
    case AllowedUsersRemove => Fixed("/organizations/allowed-users/remove")
    case ConfigurationsList => One("/organizations/configurations/", "")
    case ConfigurationsCreate => Fixed("/organizations/configurations/create")
    case ConfigurationsUpdate => Fixed("/organizations/configurations/update")
    case ConfigurationsDelete => Two("/organizations/configurations/delete/", "/", "")
    case LocationsList => One("/organizations/locations/", "")
    case LocationsCreate => Fixed("/organizations/locations/create")
    case LocationsGet => One("/organizations/locations/", "")
    case LocationsUpdate => One("/organizations/locations/update/", "")
    case LocationsDelete => One("/organizations/locations/delete/", "")
    case BasicDataCountries => Fixed("/organizations/basic-data/countries")
    case BasicDataStates => Fixed("/organizations/basic-data/states")
  }

  /** The entries of `ADMIN_ENDPOINTS.ACCOUNTS`. */
  datatype AdminAccountsEndpoint =
    | List
    | Get
    | Create
    | Update
    | Delete
    | Deactivate
    | Activate
    | RemoveUser
    | SettingsList
    | SettingsCreate
    | SettingsUpdate
    | SettingsDelete

  function AdminAccountsRoute(e: AdminAccountsEndpoint): (r: Route)
    ensures Delimited(r)
  {
    match e
    case List => Fixed("/accounts/list")
    case Get => One("/accounts/", "")
    case Create => Fixed("/accounts/create")
    case Update => One("/accounts/update/", "")
    case Delete => One("/accounts/delete/", "")
    case Deactivate => One("/accounts/deactivate/", "")
    case Activate => One("/accounts/activate/", "")
    case RemoveUser => Two("/accounts/", "/users/", "/remove")
    case SettingsList => One("/accounts/", "/settings")
    case SettingsCreate => One("/accounts/", "/settings")
    case SettingsUpdate => Two("/accounts/", "/settings/", "")
    case SettingsDelete => Two("/accounts/", "/settings/", "")
  }

  /** The entries of `ADMIN_ENDPOINTS.USERS`. */
  datatype AdminUsersEndpoint =
    | List
    | Get
    | Create
    | Update
    | Delete
    | Activate
    | Deactivate
    | ResetPassword
    | UpdatePassword
    | ResetPasswordWithToken
    | CompleteResetPassword
    | ResetToken
    | ForgotPassword
    | ValidateResetToken
    | RegisterWithInvite

  function AdminUsersRoute(e: AdminUsersEndpoint): (r: Route)
    ensures Delimited(r)
  {
    match e
    case List => Fixed("/users/list")
    case Get => One("/users/", "")
    case Create => Fixed("/users/create")
    case Update => One("/users/update/", "")
    case Delete => One("/users/delete/", "")
    case Activate => One("/users/activate/", "")
    case Deactivate => One("/users/deactivate/", "")
    case ResetPassword => One("/users/reset-password/", "")
    case UpdatePassword => One("/users/update-password/", "")
    case ResetPasswordWithToken => Fixed("/users/reset-password")
    case CompleteResetPassword => One("/users/complete-reset/", "")
    case ResetToken => One("/users/reset-token/", "")
    case ForgotPassword => Fixed("/users/forgot-password")
    case ValidateResetToken => One("/users/validate-reset-token/", "")
    case RegisterWithInvite => Fixed("/users/register-with-invite")
  }

  /** The entries of `ADMIN_ENDPOINTS.INVITES`. */
  datatype AdminInvitesEndpoint =
    | Create
    | BatchCreate
    | ValidateToken
    | Resend

  function AdminInvitesRoute(e: AdminInvitesEndpoint): (r: Route)
    ensures Delimited(r)
  {
    match e
    case Create => Fixed("/invites/create")
    case BatchCreate => Fixed("/invites/batch")
    case ValidateToken => One("/invites/validate-token/", "")
    case Resend => One("/invites/resend/", "")
  }

  /** The entries of `ADMIN_ENDPOINTS.SUSPECT_EVIDENCES`. */
  datatype AdminSuspectEvidencesEndpoint =
    | List
    | Get
    | Create
    | Update
    | Delete
    | Reject
    | Publish
    | Duplicate

  function AdminSuspectEvidencesRoute(e: AdminSuspectEvidencesEndpoint): (r: Route)
    ensures Delimited(r)
  {
    match e
    case List => Fixed("/suspect-evidences/list")
    case Get => One("/suspect-evidences/", "")
    case Create => Fixed("/suspect-evidences/create")
    case Update => One("/suspect-evidences/update/", "")
    case Delete => One("/suspect-evidences/delete/", "")
    case Reject => One("/suspect-evidences/reject/", "")
    case Publish => One("/suspect-evidences/publish/", "")
    case Duplicate => One("/suspect-evidences/duplicate/", "")
  }

  /** The entries of `ADMIN_ENDPOINTS.PAYORS`. */
  datatype AdminPayorsEndpoint =
    | List
    | Get
    | Create
    | Update
    | Delete

  function AdminPayorsRoute(e: AdminPayorsEndpoint): (r: Route)
    ensures Delimited(r)
  {
    match e
    case List => Fixed("/payors/list")
    case Get => One("/payors/", "")
    case Create => Fixed("/payors/create")
    case Update => One("/payors/update/", "")
    case Delete => One("/payors/delete/", "")
  }

  /** The entries of `ADMIN_ENDPOINTS.PROVIDERS`. */
  datatype AdminProvidersEndpoint =
    | List
    | Get
    | Create
    | Update
    | Delete

  function AdminProvidersRoute(e: AdminProvidersEndpoint): (r: Route)
    ensures Delimited(r)
  {
    match e
    case List => Fixed("/providers/list")
    case Get => One("/providers/", "")
    case Create => Fixed("/providers/create")
    case Update => One("/providers/update/", "")
    case Delete => One("/providers/delete/", "")
  }

  /** The entries of `ADMIN_ENDPOINTS.EMR_INTEGRATION_MAPPINGS`. */
  datatype AdminEmrIntegrationMappingsEndpoint =
    | List
    | Get
    | Create
    | Update
    | Delete

  function AdminEmrIntegrationMappingsRoute(e: AdminEmrIntegrationMappingsEndpoint): (r: Route)
    ensures Delimited(r)
  {
    match e
    case List => Fixed("/emr-integration-mappings/list")
    case Get => One("/emr-integration-mappings/", "")
    case Create => Fixed("/emr-integration-mappings/create")
    case Update => One("/emr-integration-mappings/update/", "")
    case Delete => One("/emr-integration-mappings/delete/", "")
  }

  /** The entries of `ADMIN_ENDPOINTS.FILES`. */
  datatype AdminFilesEndpoint =
    | PresignedUrl
    | ConfirmUpload

  function AdminFilesRoute(e: AdminFilesEndpoint): (r: Route)
    ensures Delimited(r)
  {
    match e
    case PresignedUrl => Fixed("/files/presigned-url")
    case ConfirmUpload => Fixed("/files/confirm-upload")
  }

  /** The entries of `ADMIN_ENDPOINTS.SYSTEM`. */
  datatype AdminSystemEndpoint =
    | Config
    | UpdateConfig

  function AdminSystemRoute(e: AdminSystemEndpoint): (r: Route)
    ensures Delimited(r)
  {
    match e
    case Config => Fixed("/system/configs")
    case UpdateConfig => Fixed("/system/configs/update")
  }

  /** The entries of `ADMIN_ENDPOINTS`. */
  datatype AdminEndpoint =
    | Organizations(organizations: AdminOrganizationsEndpoint)
    | Accounts(accounts: AdminAccountsEndpoint)
    | Users(users: AdminUsersEndpoint)
    | Invites(invites: AdminInvitesEndpoint)
    | SuspectEvidences(suspectEvidences: AdminSuspectEvidencesEndpoint)
    | Payors(payors: AdminPayorsEndpoint)
    | Providers(providers: AdminProvidersEndpoint)
    | EmrIntegrationMappings(emrIntegrationMappings: AdminEmrIntegrationMappingsEndpoint)
    | Files(files: AdminFilesEndpoint)
    | System(system: AdminSystemEndpoint)

  function AdminRoute(e: AdminEndpoint): (r: Route)
    ensures Delimited(r)
  {
    match e
    case Organizations(sub) => AdminOrganizationsRoute(sub)
    case Accounts(sub) => AdminAccountsRoute(sub)
    case Users(sub) => AdminUsersRoute(sub)
    case Invites(sub) => AdminInvitesRoute(sub)
    case SuspectEvidences(sub) => AdminSuspectEvidencesRoute(sub)
    case Payors(sub) => AdminPayorsRoute(sub)
    case Providers(sub) => AdminProvidersRoute(sub)
    case EmrIntegrationMappings(sub) => AdminEmrIntegrationMappingsRoute(sub)
    case Files(sub) => AdminFilesRoute(sub)
    case System(sub) => AdminSystemRoute(sub)
  }

  /** The entries of `PATIENT_ENDPOINTS.AUTH`. */
  datatype PatientAuthEndpoint =
    | Login

  function PatientAuthRoute(e: PatientAuthEndpoint): (r: Route)
    ensures Delimited(r)
  {
    match e
    case Login => Fixed("/api/auth/login")
  }

  /** The entries of `PATIENT_ENDPOINTS.PATIENTS`. */
  datatype PatientPatientsEndpoint =
    | List
    | Get
    | SendEmail
    | SetManagedCare
    | AssignPcp
    | EncountersList
    | AllergiesList
    | AllergiesGet
    | CareplansList
    | CareplansGet
    | CoverageList
    | CoverageGet
    | DiagnosisList
    | DiagnosisGet
    | MedicationsList
    | MedicationsGet
    | VitalsList
    | VitalsGet
    | VitalsByType
    | ReferralsList
    | ReferralsGet
    | ReferralsBySpecialty
    | ClaimsList
    | ClaimsGet
    | ClaimsBySpecialty
    | DocumentsList
    | DocumentsGet
    | DocumentsView
    | DocumentsDownload
    | LabResultsList
    | LabResultsGet
    | LabResultsByCategory

  function PatientPatientsRoute(e: PatientPatientsEndpoint): (r: Route)
    ensures Delimited(r)
  {
    match e
    case List => Fixed("/patients/list")
    case Get => One("/patients/retrieve/", "")
    case SendEmail => Fixed("/patients/send-email")
    case SetManagedCare => Fixed("/patients/set-managed-care")
    case AssignPcp => Fixed("/patients/assign-primary-care-provider")
    case EncountersList => One("/patients/encounters/", "/encounters/list")
    case AllergiesList => One("/patients/allergies/", "/allergies/list")
    case AllergiesGet => Two("/patients/allergies/", "/allergies/retrieve/", "")
    case CareplansList => One("/patients/careplans/", "/careplans/list")
    case CareplansGet => Two("/patients/careplans/", "/careplans/retrieve/", "")
    case CoverageList => One("/patients/coverages/", "/coverages/list")
    case CoverageGet => Two("/patients/coverages/", "/coverages/retrieve/", "")
    case DiagnosisList => One("/patients/diagnoses/", "/diagnoses/list")
    case DiagnosisGet => Two("/patients/diagnoses/", "/diagnoses/retrieve/", "")
    case MedicationsList => One("/patients/medications/", "/medications/list")
    case MedicationsGet => Two("/patients/medications/", "/medications/retrieve/", "")
    case VitalsList => One("/patients/vitals/", "/vitals/list")
    case VitalsGet => Two("/patients/vitals/", "/vitals/retrieve/", "")
    case VitalsByType => One("/patients/vitals/", "/vitals/by-type")
    case ReferralsList => One("/patients/referrals/", "/referrals/list")
    case ReferralsGet => Two("/patients/referrals/", "/referrals/retrieve/", "")
    case ReferralsBySpecialty => One("/patients/referrals/", "/referrals/by-specialty")
    case ClaimsList => One("/patients/claims/", "/claims/list")
    case ClaimsGet => Two("/patients/claims/", "/claims/retrieve/", "")
    case ClaimsBySpecialty => One("/patients/claims/", "/claims/by-specialty")
    case DocumentsList => One("/patients/documents/", "/documents/list")
    case DocumentsGet => Two("/patients/documents/", "/documents/retrieve/", "")
    case DocumentsView => Two("/patients/documents/", "/documents/view/", "")
    case DocumentsDownload => Two("/patients/documents/", "/documents/download/", "")
    case LabResultsList => One("/patients/lab-results/", "/lab-results/list")
    case LabResultsGet => Two("/patients/lab-results/", "/lab-results/retrieve/", "")
    case LabResultsByCategory => One("/patients/lab-results/", "/lab-results/by-category")
  }

  /** The entries of `PATIENT_ENDPOINTS.HCC_EVIDENCES`. */
  datatype PatientHccEvidencesEndpoint =
    | GroupedByPatient
    | ByPatient
    | ByExecution
    | Create
    | CreateMultiple
    | Get
    | DeleteByExecution
    | EvidenceDetails

  function PatientHccEvidencesRoute(e: PatientHccEvidencesEndpoint): (r: Route)
    ensures Delimited(r)
  {
    match e
    case GroupedByPatient => Fixed("/hcc-evidences/grouped-by-patient")
    case ByPatient => Fixed("/hcc-evidences/by-patient")
    case ByExecution => Fixed("/hcc-evidences/by-execution")
    case Create => Fixed("/hcc-evidences/create")
    case CreateMultiple => Fixed("/hcc-evidences/create-multiple")
    case Get => One("/hcc-evidences/", "")
    case DeleteByExecution => One("/hcc-evidences/delete-by-execution/", "")
    case EvidenceDetails => Fixed("/hcc-evidences/evidence-details")
  }

  /** The entries of `PATIENT_ENDPOINTS.HCC_RISK`. */
  datatype PatientHccRiskEndpoint =
    | ByPatientBatch
    | UpdateStatus
    | BulkUpdateStatus
    | PatientBatches
    | LatestBatch
    | Get

  function PatientHccRiskRoute(e: PatientHccRiskEndpoint): (r: Route)
    ensures Delimited(r)
  {
    match e
    case ByPatientBatch => Fixed("/hcc-risk/by-patient-batch")
    case UpdateStatus => Fixed("/hcc-risk/update-status")
    case BulkUpdateStatus => Fixed("/hcc-risk/bulk-update-status")
    case PatientBatches => Fixed("/hcc-risk/patient-batches")
    case LatestBatch => One("/hcc-risk/latest-batch/", "")
    case Get => One("/hcc-risk/", "")
  }

  /** The entries of `PATIENT_ENDPOINTS.SCHEDULE`. */
  datatype PatientScheduleEndpoint =
    | AvailableSlots
    | CreateAppointment

  function PatientScheduleRoute(e: PatientScheduleEndpoint): (r: Route)
    ensures Delimited(r)
  {
    match e
    case AvailableSlots => One("/schedule/available-slots/list/", "")
    case CreateAppointment => One("/schedule/appointment/create/", "")
  }

  /** The entries of `PATIENT_ENDPOINTS.INSURANCE`. */
  datatype PatientInsuranceEndpoint =
    | GetByPatient

  function PatientInsuranceRoute(e: PatientInsuranceEndpoint): (r: Route)
    ensures Delimited(r)
  {
    match e
    case GetByPatient => Fixed("/api/patient-coverage/")
  }

  /** The entries of `PATIENT_ENDPOINTS`. */
  datatype PatientEndpoint =
    | Auth(auth: PatientAuthEndpoint)
    | Patients(patients: PatientPatientsEndpoint)
    | HccEvidences(hccEvidences: PatientHccEvidencesEndpoint)
    | HccRisk(hccRisk: PatientHccRiskEndpoint)
    | Schedule(schedule: PatientScheduleEndpoint)
    | Insurance(insurance: PatientInsuranceEndpoint)

  function PatientRoute(e: PatientEndpoint): (r: Route)
    ensures Delimited(r)
  {
    match e
    case Auth(sub) => PatientAuthRoute(sub)
    case Patients(sub) => PatientPatientsRoute(sub)
    case HccEvidences(sub) => PatientHccEvidencesRoute(sub)
    case HccRisk(sub) => PatientHccRiskRoute(sub)
    case Schedule(sub) => PatientScheduleRoute(sub)
    case Insurance(sub) => PatientInsuranceRoute(sub)
  }

  /** The entries of `CONFIGURATOR_ENDPOINTS.CONFIGURATOR`. */
  datatype ConfiguratorConfiguratorEndpoint =
    | GetHccs

  function ConfiguratorConfiguratorRoute(e: ConfiguratorConfiguratorEndpoint): (r: Route)
    ensures Delimited(r)
  {
    match e
    case GetHccs => Fixed("/configurators/suspected-hcc-code/" + "{patient_id}")
  }

  /** The entries of `CONFIGURATOR_ENDPOINTS`. */
  datatype ConfiguratorEndpoint =
    | Configurator(configurator: ConfiguratorConfiguratorEndpoint)

  function ConfiguratorRoute(e: ConfiguratorEndpoint): (r: Route)
    ensures Delimited(r)
  {
    match e
    case Configurator(sub) => ConfiguratorConfiguratorRoute(sub)
  }

  /** Any entry of any table. */
  datatype Endpoint =
    | AuthTable(auth: AuthEndpoint)
    | AdminTable(admin: AdminEndpoint)
    | PatientTable(patient: PatientEndpoint)
    | ConfiguratorTable(configurator: ConfiguratorEndpoint)

  function RouteOf(e: Endpoint): (r: Route)
    ensures Delimited(r)
  {
    match e
    case AuthTable(a) => AuthRoute(a)
    case AdminTable(a) => AdminRoute(a)
    case PatientTable(p) => PatientRoute(p)
    case ConfiguratorTable(c) => ConfiguratorRoute(c)
  }

  /** Every constant and every builder result of every table begins with "/". */
  lemma EveryPathIsAbsolute(e: Endpoint, args: seq<string>)
    requires |args| == RouteOf(e).Arity()
    ensures var path := PathOf(RouteOf(e), args); |path| > 0 && path[0] == '/'
  {
  }

  /** A one-argument builder is a fixed prefix plus the argument (plus a fixed
      suffix), so distinct arguments give distinct paths. */
  lemma OneArgumentInjective(r: Route, a: string, b: string)
    requires r.One?
    requires PathOf(r, [a]) == PathOf(r, [b])
    ensures a == b
  {
    var pa := PathOf(r, [a]);
    var pb := PathOf(r, [b]);
    assert |a| == |b|;
    assert a == pa[|r.prefix|..|r.prefix| + |a|];
    assert b == pb[|r.prefix|..|r.prefix| + |b|];
  }

  /** A two-argument builder places its arguments in order, separated by a
      piece that starts and ends with "/": for slash-free first arguments the
      path gives back both arguments. */
  lemma TwoArgumentsInOrder(r: Route, a1: string, b1: string, a2: string, b2: string)
    requires r.Two? && Delimited(r)
    requires '/' !in a1 && '/' !in a2
    requires PathOf(r, [a1, b1]) == PathOf(r, [a2, b2])
    ensures a1 == a2 && b1 == b2
  {
    var p := r.prefix;
    var t1 := r.middle + b1 + r.suffix;
    var t2 := r.middle + b2 + r.suffix;
    var path := PathOf(r, [a1, b1]);
    assert path == p + (a1 + t1);
    assert PathOf(r, [a2, b2]) == p + (a2 + t2);
    assert a1 + t1 == path[|p|..] == a2 + t2;
    SlashFreePrefix(a1, a2, t1, t2);
    assert b1 == t1[|r.middle|..|r.middle| + |b1|];
    assert b2 == t2[|r.middle|..|r.middle| + |b2|];
  }

  /** The position of the first "/" in `s`, or `|s|` when there is none. */
  function FirstSlash(s: string): (i: nat)
    ensures i <= |s|
    ensures forall k :: 0 <= k < i ==> s[k] != '/'
    ensures i < |s| ==> s[i] == '/'
  {
    if |s| == 0 || s[0] == '/' then 0 else 1 + FirstSlash(s[1..])
  }

  /** In a slash-free string followed by "/...", the first "/" ends the string. */
  lemma {:induction false} FirstSlashAfter(a: string, t: string)
    requires '/' !in a && |t| > 0 && t[0] == '/'
    ensures FirstSlash(a + t) == |a|
  {
    if |a| > 0 {
      assert (a + t)[1..] == a[1..] + t;
      FirstSlashAfter(a[1..], t);
    } else {
      assert a + t == t;
    }
  }

  /** Two slash-free strings each followed by something starting with "/"
      can only be equal if the strings are. */
  lemma SlashFreePrefix(a1: string, a2: string, t1: string, t2: string)
    requires '/' !in a1 && '/' !in a2
    requires |t1| > 0 && t1[0] == '/' && |t2| > 0 && t2[0] == '/'
    requires a1 + t1 == a2 + t2
    ensures a1 == a2 && t1 == t2
  {
    FirstSlashAfter(a1, t1);
    FirstSlashAfter(a2, t2);
    assert a1 == (a1 + t1)[..|a1|];
    assert a2 == (a2 + t2)[..|a2|];
    assert t1 == (a1 + t1)[|a1|..];
    assert t2 == (a2 + t2)[|a2|..];
  }

  /** The configurator path is a constant: its `{patient_id}` placeholder is
      never substituted by the table. */
  lemma ConfiguratorPlaceholderIsLiteral(args: seq<string>)
    requires |args| == 0
    ensures PathOf(RouteOf(ConfiguratorTable(Configurator(GetHccs))), args) == "/configurators/suspected-hcc-code/{patient_id}"
  {
  }

  // ---------------------------------------------------------------------
  // handleApiResponse

  /** The error the inner `try` block would throw for a parsed error body:
      `new Error(detail || message || "API request failed")`, which prints the
      first truthy field whatever its type. */
  function BodyError(errorData: Json): (e: JsError)
    ensures errorData.Null? ==> e == NullPropertyError("detail")
    ensures !errorData.Null? && Present(Js.Get(errorData, "detail")) ==>
      e == NewError(ValueString(Js.Get(errorData, "detail").value))
    ensures !errorData.Null? && !Present(Js.Get(errorData, "detail")) ==>
      e == NewError(TextOr(Js.Get(errorData, "message"), "API request failed"))
  {
    if errorData.Null? then NullPropertyError("detail")
    else
      var detail := Js.Get(errorData, "detail");
      if Present(detail) then NewError(ValueString(detail.value))
      else NewError(TextOr(Js.Get(errorData, "message"), "API request failed"))
  }

  /** `handleApiResponse` as written: the error thrown inside the `try` block
      is caught by its own `catch`, so every non-OK response throws
      "API request failed: " + (text || statusText). */
  function HandleApiResponse(resp: Response): (r: Result<Json>)
    ensures resp.Ok() ==> r == resp.body.parsed
  {
    if !resp.Ok() then
      var text := resp.body.text;
      // The `try` block always throws (BodyError, or the parse failure) and
      // the `catch` replaces whatever it threw.
      Err(NewError("API request failed: " + OrElse(Some(text), resp.statusText)))
    else resp.body.parsed
  }

  /** As written, the thrown message depends only on the body text and the
      status text: `detail` and `message` never surface on their own. */
  lemma NonOkMessageIgnoresParsedBody(r1: Response, r2: Response)
    requires !r1.Ok() && !r2.Ok()
    requires r1.body.text == r2.body.text && r1.statusText == r2.statusText
    ensures HandleApiResponse(r1) == HandleApiResponse(r2)
    ensures HandleApiResponse(r1).Err?
    ensures var m := HandleApiResponse(r1).error.message;
      m[..|"API request failed: "|] == "API request failed: "
  {
  }

  /** Every non-OK response: the message carries the body text when it is
      non-empty and the status text otherwise. */
  lemma NonOkMessage(resp: Response)
    requires !resp.Ok()
    ensures resp.body.text == "" ==> HandleApiResponse(resp) == Err(NewError("API request failed: " + resp.statusText))
    ensures resp.body.text != "" ==> HandleApiResponse(resp) == Err(NewError("API request failed: " + resp.body.text))
  {
  }

  /** A concrete response on which the two readings disagree. */
  const DetailBody := "{\"detail\":\"Patient not found\"}"

  function DetailResponse(): Response {
    Response(404, "Not Found", map[], Payload(DetailBody, Ok(Obj([Field("detail", Str("Patient not found"))]))))
  }

  lemma DetailIsDiscarded()
    ensures HandleApiResponse(DetailResponse()) ==
      Err(NewError("API request failed: " + DetailBody))
  {
  }

  /** The intended reading of the same response reports the detail. */
  lemma DetailIsReported()
    ensures HandleApiResponseIntended(DetailResponse()) == Err(NewError("Patient not found"))
  {
    var fields := DetailResponse().body.parsed.value.fields;
    assert LastIndexOf(fields, "detail") == 0;
    assert Js.Get(DetailResponse().body.parsed.value, "detail") == Some(Str("Patient not found"));
  }

  /** `handleApiResponse` as evidently intended: the `catch` covers only the
      parse, so a JSON error body surfaces `detail || message`. */
  function HandleApiResponseIntended(resp: Response): (r: Result<Json>)
    ensures resp.Ok() ==> r == resp.body.parsed
    ensures !resp.Ok() ==> r.Err?
    ensures !resp.Ok() && resp.body.parsed.Ok? && Present(Js.Get(resp.body.parsed.value, "detail")) ==>
      r.error.message == ValueString(Js.Get(resp.body.parsed.value, "detail").value)
    ensures (!resp.Ok() && resp.body.parsed.Ok? && !resp.body.parsed.value.Null?
             && !Present(Js.Get(resp.body.parsed.value, "detail"))) ==>
      r.error.message == TextOr(Js.Get(resp.body.parsed.value, "message"), "API request failed")
    ensures !resp.Ok() && resp.body.parsed.Err? ==> r == HandleApiResponse(resp)
  {
    if !resp.Ok() then
      match resp.body.parsed
      case Ok(errorData) => Err(BodyError(errorData))
      case Err(_) => Err(NewError("API request failed: " + OrElse(Some(resp.body.text), resp.statusText)))
    else resp.body.parsed
  }

  /** On OK responses, which are the only ones the services pass in, both readings agree. */
  lemma ReadingsAgreeOnOk(resp: Response)
    requires resp.Ok()
    ensures HandleApiResponse(resp) == HandleApiResponseIntended(resp) == resp.body.parsed
  {
  }
}
