/** `HccRiskService`: the request each method sends to the risk backend and
    the status and reason its approve/reject helpers forward.  Identifiers
    are whatever JSON values the caller holds; they are sent unchanged in
    bodies and interpolated with `String(value)` into paths.  A reason or a
    note of `None` stands for `undefined` or `null`, which both send `null`,
    except in `RejectCall`, where a `None` note is an omitted one. */
module HccRiskService {
  import opened Js
  import opened Text
  import opened Web
  import opened Services
  import ApiConfig

  const DefaultLimit := 100
  const DefaultOffset := 0

  /** `base + PATIENT_ENDPOINTS.HCC_RISK.<entry>(args)` */
  function RiskUrl(base: string, e: ApiConfig.PatientHccRiskEndpoint, args: seq<string>): string
    requires |args| == ApiConfig.PatientHccRiskRoute(e).Arity()
  {
    base + ApiConfig.PathOf(ApiConfig.PatientHccRiskRoute(e), args)
  }

  /** A JSON body built from an object literal without repeated keys. */
  function Body(fields: seq<Field>): (j: Json)
    requires DistinctKeys(fields)
    ensures j == Obj(fields)
  {
    Obj(fields)
  }

  /** `getHccRisksByPatientAndBatch(patientId, batchId, limit = 100, offset = 0)` */
  function ByPatientAndBatchCall(base: string, patientId: Json, batchId: Json, limit: Option<int>, offset: Option<int>,
                                 token: Option<string>): (c: ServiceCall)
    ensures c.request.url == RiskUrl(base, ApiConfig.ByPatientBatch, [])
    ensures c.request.httpMethod == "POST" && c.request.headers == ServiceHeaders(token)
    ensures BodyKeys(c) == ["patient_id", "batch_id", "limit", "offset"]
    ensures BodyField(c, "patient_id") == Some(patientId) && BodyField(c, "batch_id") == Some(batchId)
    ensures BodyField(c, "limit") == Some(Num(limit.GetOr(DefaultLimit)))
    ensures BodyField(c, "offset") == Some(Num(offset.GetOr(DefaultOffset)))
    ensures c.failure == FixedMessage("Failed to fetch HCC risks")
  {
    var fields := [Field("patient_id", patientId), Field("batch_id", batchId),
                   Field("limit", Num(limit.GetOr(DefaultLimit))), Field("offset", Num(offset.GetOr(DefaultOffset)))];
    LookupDistinct(fields, 0);
    LookupDistinct(fields, 1);
    LookupDistinct(fields, 2);
    LookupDistinct(fields, 3);
    ServiceCall(Request(base + "/hcc-risk/by-patient-batch", "POST", ServiceHeaders(token), Some(Body(fields))),
                FixedMessage("Failed to fetch HCC risks"))
  }

  /** The four fields every status update sends, `null` included. */
  function UpdateFields(idKey: string, ids: Json, status: string, reason: Option<string>, notes: Option<string>): (j: Json)
    requires idKey == "hcc_risk_id" || idKey == "hcc_risk_ids"
    ensures j.Obj? && Keys(j.fields) == [idKey, "status", "rejection_reason", "rejection_notes"]
    ensures Get(j, idKey) == Some(ids) && Get(j, "status") == Some(Str(status))
    ensures Get(j, "rejection_reason") == Some(StrOrNull(reason))
    ensures Get(j, "rejection_notes") == Some(StrOrNull(notes))
  {
    var fields := [Field(idKey, ids), Field("status", Str(status)),
                   Field("rejection_reason", StrOrNull(reason)), Field("rejection_notes", StrOrNull(notes))];
    LookupDistinct(fields, 0);
    LookupDistinct(fields, 1);
    LookupDistinct(fields, 2);
    LookupDistinct(fields, 3);
    Body(fields)
  }

  /** `updateHccRiskStatus(hccRiskId, status, rejectionReason = null, rejectionNotes = null)` */
  function UpdateStatusCall(base: string, hccRiskId: Json, status: string, reason: Option<string>, notes: Option<string>,
                            token: Option<string>): (c: ServiceCall)
    ensures c.request.url == RiskUrl(base, ApiConfig.UpdateStatus, [])
    ensures c.request.httpMethod == "POST" && c.request.headers == ServiceHeaders(token)
    ensures BodyKeys(c) == ["hcc_risk_id", "status", "rejection_reason", "rejection_notes"]
    ensures BodyField(c, "hcc_risk_id") == Some(hccRiskId) && BodyField(c, "status") == Some(Str(status))
    ensures BodyField(c, "rejection_reason") == Some(StrOrNull(reason))
    ensures BodyField(c, "rejection_notes") == Some(StrOrNull(notes))
    ensures c.failure == FixedMessage("Failed to update HCC risk status")
  {
    ServiceCall(Request(base + "/hcc-risk/update-status", "POST", ServiceHeaders(token),
                        Some(UpdateFields("hcc_risk_id", hccRiskId, status, reason, notes))),
                FixedMessage("Failed to update HCC risk status"))
  }

  /** `bulkUpdateHccRiskStatus(hccRiskIds, status, rejectionReason = null, rejectionNotes = null)` */
  function BulkUpdateStatusCall(base: string, hccRiskIds: Json, status: string, reason: Option<string>, notes: Option<string>,
                                token: Option<string>): (c: ServiceCall)
    ensures c.request.url == RiskUrl(base, ApiConfig.BulkUpdateStatus, [])
    ensures c.request.httpMethod == "POST" && c.request.headers == ServiceHeaders(token)
    ensures BodyKeys(c) == ["hcc_risk_ids", "status", "rejection_reason", "rejection_notes"]
    ensures BodyField(c, "hcc_risk_ids") == Some(hccRiskIds) && BodyField(c, "status") == Some(Str(status))
    ensures BodyField(c, "rejection_reason") == Some(StrOrNull(reason))
    ensures BodyField(c, "rejection_notes") == Some(StrOrNull(notes))
    ensures c.failure == FixedMessage("Failed to bulk update HCC risk status")
  {
    ServiceCall(Request(base + "/hcc-risk/bulk-update-status", "POST", ServiceHeaders(token),
                        Some(UpdateFields("hcc_risk_ids", hccRiskIds, status, reason, notes))),
                FixedMessage("Failed to bulk update HCC risk status"))
  }

  /** `getPatientBatches(patientId, limit = 100, offset = 0)` */
  function PatientBatchesCall(base: string, patientId: Json, limit: Option<int>, offset: Option<int>,
                              token: Option<string>): (c: ServiceCall)
    ensures c.request.url == RiskUrl(base, ApiConfig.PatientBatches, [])
    ensures c.request.httpMethod == "POST" && c.request.headers == ServiceHeaders(token)
    ensures BodyKeys(c) == ["patient_id", "limit", "offset"]
    ensures BodyField(c, "patient_id") == Some(patientId)
    ensures BodyField(c, "limit") == Some(Num(limit.GetOr(DefaultLimit)))
    ensures BodyField(c, "offset") == Some(Num(offset.GetOr(DefaultOffset)))
    ensures c.failure == FixedMessage("Failed to fetch patient batches")
  {
    var fields := [Field("patient_id", patientId), Field("limit", Num(limit.GetOr(DefaultLimit))),
                   Field("offset", Num(offset.GetOr(DefaultOffset)))];
    LookupDistinct(fields, 0);
    LookupDistinct(fields, 1);
    LookupDistinct(fields, 2);
    ServiceCall(Request(base + "/hcc-risk/patient-batches", "POST", ServiceHeaders(token), Some(Body(fields))),
                FixedMessage("Failed to fetch patient batches"))
  }

  /** `getLatestBatchForPatient(patientId)`: a GET without a body. */
  function LatestBatchCall(base: string, patientId: Json, token: Option<string>): (c: ServiceCall)
    ensures c.request.url == RiskUrl(base, ApiConfig.LatestBatch, [ValueString(patientId)])
    ensures c.request.httpMethod == "GET" && c.request.headers == ServiceHeaders(token)
    ensures c.request.body.None?
    ensures c.failure == FixedMessage("Failed to fetch latest batch")
  {
    ServiceCall(Request(base + "/hcc-risk/latest-batch/" + ValueString(patientId), "GET", ServiceHeaders(token), None),
                FixedMessage("Failed to fetch latest batch"))
  }

  /** `getHccRiskById(hccRiskId)`: a GET without a body. */
  function HccRiskByIdCall(base: string, hccRiskId: Json, token: Option<string>): (c: ServiceCall)
    ensures c.request.url == RiskUrl(base, ApiConfig.PatientHccRiskEndpoint.Get, [ValueString(hccRiskId)])
    ensures c.request.httpMethod == "GET" && c.request.headers == ServiceHeaders(token)
    ensures c.request.body.None?
    ensures c.failure == FixedMessage("Failed to fetch HCC risk")
  {
    ServiceCall(Request(base + "/hcc-risk/" + ValueString(hccRiskId), "GET", ServiceHeaders(token), None),
                FixedMessage("Failed to fetch HCC risk"))
  }

  /** `approveHccRisk(hccRiskId)`: status "approved"; reason and notes take their `null` defaults. */
  function ApproveCall(base: string, hccRiskId: Json, token: Option<string>): (c: ServiceCall)
    ensures c.request.url == RiskUrl(base, ApiConfig.UpdateStatus, [])
    ensures BodyField(c, "hcc_risk_id") == Some(hccRiskId) && BodyField(c, "status") == Some(Str("approved"))
    ensures BodyField(c, "rejection_reason") == Some(Null) && BodyField(c, "rejection_notes") == Some(Null)
    ensures c.failure == FixedMessage("Failed to update HCC risk status")
  {
    UpdateStatusCall(base, hccRiskId, "approved", None, None, token)
  }

  /** `rejectHccRisk(hccRiskId, reason, notes = '')`: an omitted note
      (`undefined`, the `None` here) becomes the empty string. */
  function RejectCall(base: string, hccRiskId: Json, reason: Option<string>, notes: Option<string>,
                      token: Option<string>): (c: ServiceCall)
    ensures c.request.url == RiskUrl(base, ApiConfig.UpdateStatus, [])
    ensures BodyField(c, "hcc_risk_id") == Some(hccRiskId) && BodyField(c, "status") == Some(Str("rejected"))
    ensures BodyField(c, "rejection_reason") == Some(StrOrNull(reason))
    ensures BodyField(c, "rejection_notes") == Some(Str(notes.GetOr("")))
  {
    UpdateStatusCall(base, hccRiskId, "rejected", reason, Some(notes.GetOr("")), token)
  }

  /** `bulkApproveHccRisks(hccRiskIds)` */
  function BulkApproveCall(base: string, hccRiskIds: Json, token: Option<string>): (c: ServiceCall)
    ensures c.request.url == RiskUrl(base, ApiConfig.BulkUpdateStatus, [])
    ensures BodyField(c, "hcc_risk_ids") == Some(hccRiskIds) && BodyField(c, "status") == Some(Str("approved"))
    ensures BodyField(c, "rejection_reason") == Some(Null) && BodyField(c, "rejection_notes") == Some(Null)
    ensures c.failure == FixedMessage("Failed to bulk update HCC risk status")
  {
    BulkUpdateStatusCall(base, hccRiskIds, "approved", None, None, token)
  }

  /** `bulkRejectHccRisks(hccRiskIds, reason, notes = '')` */
  function BulkRejectCall(base: string, hccRiskIds: Json, reason: Option<string>, notes: Option<string>,
                          token: Option<string>): (c: ServiceCall)
    ensures c.request.url == RiskUrl(base, ApiConfig.BulkUpdateStatus, [])
    ensures BodyField(c, "hcc_risk_ids") == Some(hccRiskIds) && BodyField(c, "status") == Some(Str("rejected"))
    ensures BodyField(c, "rejection_reason") == Some(StrOrNull(reason))
    ensures BodyField(c, "rejection_notes") == Some(Str(notes.GetOr("")))
  {
    BulkUpdateStatusCall(base, hccRiskIds, "rejected", reason, Some(notes.GetOr("")), token)
  }

  /** Two patients whose ids print differently ask for different latest batches. */
  lemma LatestBatchUrlsDistinct(base: string, p: Json, q: Json, token: Option<string>)
    requires ValueString(p) != ValueString(q)
    ensures LatestBatchCall(base, p, token).request.url != LatestBatchCall(base, q, token).request.url
  {
    var r := ApiConfig.PatientHccRiskRoute(ApiConfig.LatestBatch);
    var up := LatestBatchCall(base, p, token).request.url;
    var uq := LatestBatchCall(base, q, token).request.url;
    if up == uq {
      assert ApiConfig.PathOf(r, [ValueString(p)]) == up[|base|..] == uq[|base|..] == ApiConfig.PathOf(r, [ValueString(q)]);
      ApiConfig.OneArgumentInjective(r, ValueString(p), ValueString(q));
    }
  }

  /** Every risk method answers a non-OK status, 401 included, with its fixed message. */
  lemma NonOkThrowsFixedMessage(outcome: FetchOutcome, message: string)
    requires outcome.Delivered? && !outcome.response.Ok()
    ensures Settle(outcome, FixedMessage(message)) == Err(NewError(message))
  {
  }
}
