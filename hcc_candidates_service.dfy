/** `HccCandidatesService`: the requests sent to the risk-adjustment
    backend, the status and reason its helpers forward, the evidence
    strength classification and the reshaping of the hierarchical response
    into the legacy card list.  Identifiers are JSON values sent unchanged
    in bodies and interpolated with `String(value)` into URLs; a reason or a
    note of `None` stands for `undefined`/`null`. */
module HccCandidatesService {
  import opened Js
  import opened Text
  import opened Web
  import opened Services
  import Auth

  const AdjustmentsPath := "/hcc-risk-adjustments"
  const DefaultLimit := 100
  const AllStatusesLimit := 1000
  const DefaultOffset := 0
  const CandidatesFailure := "Failed to fetch HCC candidates"
  const UpdateFailure := "Failed to update candidate status"
  const BulkUpdateFailure := "Failed to bulk update candidate status"

  /** The `{ patient_id, limit, offset }` literal every listing body starts from. */
  function ListingFields(patientId: Json, limit: int, offset: int): (fs: seq<Field>)
    ensures Keys(fs) == ["patient_id", "limit", "offset"]
    ensures Lookup(fs, "patient_id") == Some(patientId)
    ensures Lookup(fs, "limit") == Some(Num(limit)) && Lookup(fs, "offset") == Some(Num(offset))
    ensures Lookup(fs, "period").None? && Lookup(fs, "include_status").None?
  {
    var fs := [Field("patient_id", patientId), Field("limit", Num(limit)), Field("offset", Num(offset))];
    LookupDistinct(fs, 0);
    LookupDistinct(fs, 1);
    LookupDistinct(fs, 2);
    fs
  }

  /** `period` when it is truthy, otherwise nothing. */
  function PeriodValue(period: Option<Json>): (v: Option<Json>)
    ensures v.Some? <==> Present(period)
    ensures v.Some? ==> v == period
  {
    if Present(period) then period else None
  }

  /** `includeStatus` when it is a non-empty list, otherwise nothing. */
  function StatusFilter(includeStatus: Option<seq<string>>): (v: Option<Json>)
    ensures v.Some? <==> includeStatus.Some? && |includeStatus.value| > 0
    ensures v.Some? ==> v.value.Arr? && |v.value.items| == |includeStatus.value|
    ensures v.Some? ==> forall i :: 0 <= i < |includeStatus.value| ==> v.value.items[i] == Str(includeStatus.value[i])
  {
    if includeStatus.Some? && |includeStatus.value| > 0 then
      Some(Arr(seq(|includeStatus.value|, i requires 0 <= i < |includeStatus.value| => Str(includeStatus.value[i]))))
    else None
  }

  /** The body of `getHccCandidatesByPatient`: `patient_id`, `limit` and
      `offset` always, `period` only when truthy, `include_status` only when
      the list is non-empty. */
  function ByPatientBody(patientId: Json, period: Option<Json>, limit: Option<int>, offset: Option<int>,
                         includeStatus: Option<seq<string>>): (j: Json)
    ensures j.Obj?
    ensures Keys(j.fields) == ["patient_id", "limit", "offset"]
      + (if Present(period) then ["period"] else [])
      + (if includeStatus.Some? && |includeStatus.value| > 0 then ["include_status"] else [])
    ensures Get(j, "patient_id") == Some(patientId)
    ensures Get(j, "limit") == Some(Num(limit.GetOr(DefaultLimit)))
    ensures Get(j, "offset") == Some(Num(offset.GetOr(DefaultOffset)))
    ensures Get(j, "period") == PeriodValue(period)
    ensures Get(j, "include_status") == StatusFilter(includeStatus)
  {
    var listing := ListingFields(patientId, limit.GetOr(DefaultLimit), offset.GetOr(DefaultOffset));
    var withPeriod := WithOptional(listing, "period", PeriodValue(period));
    var fields := WithOptional(withPeriod, "include_status", StatusFilter(includeStatus));
    ListingLookups(listing, "period", PeriodValue(period), "include_status", StatusFilter(includeStatus));
    Obj(fields)
  }

  /** What a listing body extended by up to two optional fields reads back. */
  lemma ListingLookups(listing: seq<Field>, k1: string, v1: Option<Json>, k2: string, v2: Option<Json>)
    requires k1 == "period" && (k2 == "include_status" || k2 == "")
    requires Lookup(listing, "period").None? && Lookup(listing, "include_status").None?
    ensures var fields := WithOptional(WithOptional(listing, k1, v1), k2, v2);
      && Lookup(fields, "patient_id") == Lookup(listing, "patient_id")
      && Lookup(fields, "limit") == Lookup(listing, "limit")
      && Lookup(fields, "offset") == Lookup(listing, "offset")
      && Lookup(fields, "period") == v1
      && (k2 == "include_status" ==> Lookup(fields, "include_status") == v2)
  {
    var withFirst := WithOptional(listing, k1, v1);
    WithOptionalLookup(listing, k1, v1, "patient_id");
    WithOptionalLookup(listing, k1, v1, "limit");
    WithOptionalLookup(listing, k1, v1, "offset");
    WithOptionalLookup(listing, k1, v1, "period");
    WithOptionalLookup(listing, k1, v1, "include_status");
    WithOptionalLookup(withFirst, k2, v2, "patient_id");
    WithOptionalLookup(withFirst, k2, v2, "limit");
    WithOptionalLookup(withFirst, k2, v2, "offset");
    WithOptionalLookup(withFirst, k2, v2, "period");
    WithOptionalLookup(withFirst, k2, v2, "include_status");
  }

  /** `getHccCandidatesByPatient(patientId, period = null, limit = 100, offset = 0, includeStatus = null)` */
  function ByPatientCall(base: string, patientId: Json, period: Option<Json>, limit: Option<int>, offset: Option<int>,
                         includeStatus: Option<seq<string>>, token: Option<string>): (c: ServiceCall)
    ensures c.request.url == base + AdjustmentsPath + "/by-patient"
    ensures c.request.httpMethod == "POST" && c.request.headers == ServiceHeaders(token)
    ensures c.request.body == Some(ByPatientBody(patientId, period, limit, offset, includeStatus))
    ensures c.failure == BodyMessage(CandidatesFailure)
  {
    ServiceCall(Request(base + AdjustmentsPath + "/by-patient", "POST", ServiceHeaders(token),
                        Some(ByPatientBody(patientId, period, limit, offset, includeStatus))),
                BodyMessage(CandidatesFailure))
  }

  /** One query parameter: `include_status=<status>`. */
  function Param(status: string): string {
    "include_status=" + status
  }

  /** One `&include_status=<status>` per status, in order. */
  function StatusQuery(statuses: seq<string>): string {
    if |statuses| == 0 then "" else ['&'] + (Param(statuses[0]) + StatusQuery(statuses[1..]))
  }

  /** The query parameters `StatusQuery` writes, one per status. */
  function StatusParams(statuses: seq<string>): (ps: seq<string>)
    ensures |ps| == |statuses|
    ensures forall i :: 0 <= i < |statuses| ==> ps[i] == Param(statuses[i])
  {
    seq(|statuses|, i requires 0 <= i < |statuses| => Param(statuses[i]))
  }

  lemma {:induction false} StatusQueryAppend(statuses: seq<string>, s: string)
    ensures StatusQuery(statuses + [s]) == StatusQuery(statuses) + (['&'] + Param(s))
  {
    if |statuses| == 0 {
      assert StatusQuery([s]) == ['&'] + Param(s) + StatusQuery([]);
    } else {
      assert (statuses + [s])[1..] == statuses[1..] + [s];
      StatusQueryAppend(statuses[1..], s);
    }
  }

  /** The status query is the parameters joined by "&", after a leading "&". */
  lemma {:induction false} StatusQueryJoin(statuses: seq<string>)
    requires |statuses| >= 1
    ensures StatusQuery(statuses) == ['&'] + Join(StatusParams(statuses), '&')
  {
    var rest := statuses[1..];
    var ps := StatusParams(statuses);
    if |rest| == 0 {
      assert StatusQuery(statuses) == ['&'] + (Param(statuses[0]) + "");
    } else {
      StatusQueryJoin(rest);
      assert ps[1..] == StatusParams(rest);
      assert Join(ps, '&') == Param(statuses[0]) + ['&'] + Join(StatusParams(rest), '&');
    }
  }

  lemma ParamHasNoSeparator(s: string)
    requires '&' !in s
    ensures '&' !in Param(s)
  {
    assert '&' !in "include_status=";
  }

  /** Splitting the status query at "&" gives back one parameter per status,
      in order, when no status contains "&". */
  lemma StatusQueryRoundTrip(statuses: seq<string>)
    requires forall i :: 0 <= i < |statuses| ==> '&' !in statuses[i]
    ensures Split(StatusQuery(statuses), '&') == [""] + StatusParams(statuses)
  {
    if |statuses| == 0 {
      SplitNoSeparator("", '&');
    } else {
      var parts := [""] + StatusParams(statuses);
      assert forall i :: 0 <= i < |parts| ==> '&' !in parts[i] by {
        forall i | 0 <= i < |parts|
          ensures '&' !in parts[i]
        {
          if i > 0 {
            ParamHasNoSeparator(statuses[i - 1]);
          }
        }
      }
      StatusQueryJoin(statuses);
      JoinAfterEmpty(StatusParams(statuses), '&');
      SplitJoin(parts, '&');
    }
  }

  /** The text each loop iteration appends is one separated parameter. */
  lemma SeparatedParam(status: string)
    ensures "&include_status=" + status == ['&'] + Param(status)
  {
    assert "&include_status=" == ['&'] + "include_status=";
  }

  /** The URL of `getHccCandidatesByPatientSimple` before the status filter:
      `&period=` only when the period is truthy. */
  function SimpleUrlPrefix(base: string, patientId: Json, period: Option<Json>, limit: Option<int>,
                           offset: Option<int>): string
  {
    var url := base + AdjustmentsPath + "/by-patient-simple/" + ValueString(patientId)
      + "?limit=" + IntToString(limit.GetOr(DefaultLimit)) + "&offset=" + IntToString(offset.GetOr(DefaultOffset));
    if Present(period) then url + ("&period=" + ValueString(period.value)) else url
  }

  /** `getHccCandidatesByPatientSimple`: the URL it extends with `+=`, one
      `&include_status=` per status. */
  method SimpleUrl(base: string, patientId: Json, period: Option<Json>, limit: Option<int>, offset: Option<int>,
                   includeStatus: Option<seq<string>>) returns (url: string)
    ensures url == SimpleUrlPrefix(base, patientId, period, limit, offset)
      + (if includeStatus.Some? then StatusQuery(includeStatus.value) else "")
  {
    url := base + AdjustmentsPath + "/by-patient-simple/" + ValueString(patientId)
      + "?limit=" + IntToString(limit.GetOr(DefaultLimit)) + "&offset=" + IntToString(offset.GetOr(DefaultOffset));
    if Present(period) {
      url := url + ("&period=" + ValueString(period.value));
    }
    if includeStatus.Some? && |includeStatus.value| > 0 {
      url := AppendStatuses(url, includeStatus.value);
    } else {
      assert includeStatus.Some? ==> StatusQuery(includeStatus.value) == "";
    }
  }

  /** `includeStatus.forEach((status) => { url += `&include_status=${status}` })` */
  method AppendStatuses(start: string, statuses: seq<string>) returns (url: string)
    ensures url == start + StatusQuery(statuses)
  {
    url := start;
    var i := 0;
    while i < |statuses|
      invariant 0 <= i <= |statuses|
      invariant url == start + StatusQuery(statuses[..i])
    {
      StatusQueryAppend(statuses[..i], statuses[i]);
      assert statuses[..i + 1] == statuses[..i] + [statuses[i]];
      SeparatedParam(statuses[i]);
      url := url + ("&include_status=" + statuses[i]);
      i := i + 1;
    }
    assert statuses[..i] == statuses;
  }

  /** `getHccCandidatesByPatientSimple(...)`: a GET to `url` (built by `SimpleUrl`). */
  function SimpleCall(url: string, token: Option<string>): (c: ServiceCall)
    ensures c.request.url == url && c.request.httpMethod == "GET" && c.request.body.None?
    ensures c.request.headers == ServiceHeaders(token)
    ensures c.failure == BodyMessage(CandidatesFailure)
  {
    ServiceCall(Request(url, "GET", ServiceHeaders(token), None), BodyMessage(CandidatesFailure))
  }

  /** `{ <idKey>: ids, status }` plus `change_reason` and `notes` when truthy. */
  function StatusChangeBody(idKey: string, ids: Json, status: string, changeReason: Option<string>,
                            notes: Option<string>): (j: Json)
    requires idKey == "candidate_id" || idKey == "candidate_ids"
    ensures j.Obj?
    ensures Keys(j.fields) == [idKey, "status"]
      + (if Truthy(changeReason) then ["change_reason"] else [])
      + (if Truthy(notes) then ["notes"] else [])
    ensures Get(j, idKey) == Some(ids) && Get(j, "status") == Some(Str(status))
    ensures Get(j, "change_reason") == TruthyStr(changeReason) && Get(j, "notes") == TruthyStr(notes)
  {
    var fields := [Field(idKey, ids), Field("status", Str(status))];
    assert Keys(fields) == [idKey, "status"];
    LookupDistinct(fields, 0);
    LookupDistinct(fields, 1);
    ReasonAndNotesKeep(fields, changeReason, notes, idKey);
    ReasonAndNotesKeep(fields, changeReason, notes, "status");
    ReasonAndNotesAdded(fields, changeReason, notes);
    Obj(ReasonAndNotes(fields, changeReason, notes))
  }

  /** The `updates` body of `bulkUpdateStatus`: unlike the other status
      changes it carries no top-level status. */
  function UpdatesBody(updates: Json, changeReason: Option<string>, notes: Option<string>): (j: Json)
    ensures j.Obj?
    ensures Keys(j.fields) == ["updates"]
      + (if Truthy(changeReason) then ["change_reason"] else [])
      + (if Truthy(notes) then ["notes"] else [])
    ensures Get(j, "updates") == Some(updates) && Get(j, "status").None?
    ensures Get(j, "change_reason") == TruthyStr(changeReason) && Get(j, "notes") == TruthyStr(notes)
  {
    var fields := [Field("updates", updates)];
    assert Keys(fields) == ["updates"];
    LookupDistinct(fields, 0);
    ReasonAndNotesKeep(fields, changeReason, notes, "updates");
    ReasonAndNotesKeep(fields, changeReason, notes, "status");
    ReasonAndNotesAdded(fields, changeReason, notes);
    Obj(ReasonAndNotes(fields, changeReason, notes))
  }

  /** Appends `change_reason` and `notes` when they are truthy. */
  function ReasonAndNotes(fields: seq<Field>, changeReason: Option<string>, notes: Option<string>): (fs: seq<Field>)
    ensures Keys(fs) == Keys(fields)
      + (if Truthy(changeReason) then ["change_reason"] else [])
      + (if Truthy(notes) then ["notes"] else [])
  {
    WithOptional(WithOptional(fields, "change_reason", TruthyStr(changeReason)), "notes", TruthyStr(notes))
  }

  /** `ReasonAndNotes` leaves every other key as it was. */
  lemma ReasonAndNotesKeep(fields: seq<Field>, changeReason: Option<string>, notes: Option<string>, k: string)
    requires k != "change_reason" && k != "notes"
    ensures Lookup(ReasonAndNotes(fields, changeReason, notes), k) == Lookup(fields, k)
  {
    var withReason := WithOptional(fields, "change_reason", TruthyStr(changeReason));
    WithOptionalLookup(withReason, "notes", TruthyStr(notes), k);
    WithOptionalLookup(fields, "change_reason", TruthyStr(changeReason), k);
  }

  /** On a body without them, `ReasonAndNotes` adds `change_reason` and
      `notes` exactly when they are truthy. */
  lemma ReasonAndNotesAdded(fields: seq<Field>, changeReason: Option<string>, notes: Option<string>)
    requires "change_reason" !in Keys(fields) && "notes" !in Keys(fields)
    ensures Lookup(ReasonAndNotes(fields, changeReason, notes), "change_reason") == TruthyStr(changeReason)
    ensures Lookup(ReasonAndNotes(fields, changeReason, notes), "notes") == TruthyStr(notes)
  {
    var withReason := WithOptional(fields, "change_reason", TruthyStr(changeReason));
    WithOptionalLookup(withReason, "notes", TruthyStr(notes), "change_reason");
    WithOptionalLookup(fields, "change_reason", TruthyStr(changeReason), "change_reason");
    WithOptionalLookup(withReason, "notes", TruthyStr(notes), "notes");
    WithOptionalLookup(fields, "change_reason", TruthyStr(changeReason), "notes");
  }

  /** `updateCandidateStatus(candidateId, status, changeReason = null, notes = null)` */
  function UpdateStatusCall(base: string, candidateId: Json, status: string, changeReason: Option<string>,
                            notes: Option<string>, token: Option<string>): (c: ServiceCall)
    ensures c.request.url == base + AdjustmentsPath + "/update-status"
    ensures c.request.httpMethod == "POST" && c.request.headers == ServiceHeaders(token)
    ensures c.request.body == Some(StatusChangeBody("candidate_id", candidateId, status, changeReason, notes))
    ensures c.failure == FixedMessage(UpdateFailure)
  {
    ServiceCall(Request(base + AdjustmentsPath + "/update-status", "POST", ServiceHeaders(token),
                        Some(StatusChangeBody("candidate_id", candidateId, status, changeReason, notes))),
                FixedMessage(UpdateFailure))
  }

  /** `bulkUpdateCandidatesStatus(candidateIds, status, changeReason = null, notes = null)` */
  function BulkUpdateCandidatesCall(base: string, candidateIds: Json, status: string, changeReason: Option<string>,
                                    notes: Option<string>, token: Option<string>): (c: ServiceCall)
    ensures c.request.url == base + AdjustmentsPath + "/bulk-update-status"
    ensures c.request.httpMethod == "POST" && c.request.headers == ServiceHeaders(token)
    ensures c.request.body == Some(StatusChangeBody("candidate_ids", candidateIds, status, changeReason, notes))
    ensures c.failure == FixedMessage(BulkUpdateFailure)
  {
    ServiceCall(Request(base + AdjustmentsPath + "/bulk-update-status", "POST", ServiceHeaders(token),
                        Some(StatusChangeBody("candidate_ids", candidateIds, status, changeReason, notes))),
                FixedMessage(BulkUpdateFailure))
  }

  /** `getCandidateStatusHistory(candidateId)` */
  function StatusHistoryCall(base: string, candidateId: Json, token: Option<string>): (c: ServiceCall)
    ensures c.request.url == base + AdjustmentsPath + "/status-history/" + ValueString(candidateId)
    ensures c.request.httpMethod == "GET" && c.request.body.None? && c.request.headers == ServiceHeaders(token)
    ensures c.failure == FixedMessage("Failed to fetch candidate status history")
  {
    ServiceCall(Request(base + AdjustmentsPath + "/status-history/" + ValueString(candidateId), "GET",
                        ServiceHeaders(token), None),
                FixedMessage("Failed to fetch candidate status history"))
  }

  /** `getPatientCandidatesSummary(patientId, period = null)`: `?period=` only when truthy. */
  function SummaryCall(base: string, patientId: Json, period: Option<Json>, token: Option<string>): (c: ServiceCall)
    ensures Present(period) ==>
      c.request.url == base + AdjustmentsPath + "/summary/" + ValueString(patientId) + "?period=" + ValueString(period.value)
    ensures !Present(period) ==> c.request.url == base + AdjustmentsPath + "/summary/" + ValueString(patientId)
    ensures c.request.httpMethod == "GET" && c.request.body.None? && c.request.headers == ServiceHeaders(token)
    ensures c.failure == FixedMessage("Failed to fetch patient candidates summary")
  {
    var url := base + AdjustmentsPath + "/summary/" + ValueString(patientId);
    var url' := if Present(period) then url + "?period=" + ValueString(period.value) else url;
    ServiceCall(Request(url', "GET", ServiceHeaders(token), None), FixedMessage("Failed to fetch patient candidates summary"))
  }

  /** `approveCandidate(candidateId, notes = null)`: status "approved" with a fixed reason. */
  function ApproveCandidateCall(base: string, candidateId: Json, notes: Option<string>, token: Option<string>): (c: ServiceCall)
    ensures c.request.url == base + AdjustmentsPath + "/update-status"
    ensures BodyField(c, "candidate_id") == Some(candidateId) && BodyField(c, "status") == Some(Str("approved"))
    ensures BodyField(c, "change_reason") == Some(Str("Approved by clinician"))
    ensures BodyField(c, "notes") == (if Truthy(notes) then Some(Str(notes.value)) else None)
  {
    UpdateStatusCall(base, candidateId, "approved", Some("Approved by clinician"), notes, token)
  }

  /** `rejectCandidate(candidateId, reason, notes = null)`: status "rejected" with the caller's reason. */
  function RejectCandidateCall(base: string, candidateId: Json, reason: Option<string>, notes: Option<string>,
                               token: Option<string>): (c: ServiceCall)
    ensures c.request.url == base + AdjustmentsPath + "/update-status"
    ensures BodyField(c, "candidate_id") == Some(candidateId) && BodyField(c, "status") == Some(Str("rejected"))
    ensures BodyField(c, "change_reason") == (if Truthy(reason) then Some(Str(reason.value)) else None)
    ensures BodyField(c, "notes") == (if Truthy(notes) then Some(Str(notes.value)) else None)
  {
    UpdateStatusCall(base, candidateId, "rejected", reason, notes, token)
  }

  /** `bulkApprove(candidateIds, notes = null)` */
  function BulkApproveCall(base: string, candidateIds: Json, notes: Option<string>, token: Option<string>): (c: ServiceCall)
    ensures c.request.url == base + AdjustmentsPath + "/bulk-update-status"
    ensures BodyField(c, "candidate_ids") == Some(candidateIds) && BodyField(c, "status") == Some(Str("approved"))
    ensures BodyField(c, "change_reason") == Some(Str("Bulk approved by clinician"))
    ensures BodyField(c, "notes") == (if Truthy(notes) then Some(Str(notes.value)) else None)
  {
    BulkUpdateCandidatesCall(base, candidateIds, "approved", Some("Bulk approved by clinician"), notes, token)
  }

  /** `bulkReject(candidateIds, reason, notes = null)` */
  function BulkRejectCall(base: string, candidateIds: Json, reason: Option<string>, notes: Option<string>,
                          token: Option<string>): (c: ServiceCall)
    ensures c.request.url == base + AdjustmentsPath + "/bulk-update-status"
    ensures BodyField(c, "candidate_ids") == Some(candidateIds) && BodyField(c, "status") == Some(Str("rejected"))
    ensures BodyField(c, "change_reason") == (if Truthy(reason) then Some(Str(reason.value)) else None)
    ensures BodyField(c, "notes") == (if Truthy(notes) then Some(Str(notes.value)) else None)
  {
    BulkUpdateCandidatesCall(base, candidateIds, "rejected", reason, notes, token)
  }

  /** The id an update refers to: `item_id || risk_adjustment_id || candidate_id`. */
  function ItemId(update: Json): (id: Option<Json>)
    ensures Present(Get(update, "item_id")) ==> id == Get(update, "item_id")
    ensures !Present(Get(update, "item_id")) && Present(Get(update, "risk_adjustment_id")) ==>
      id == Get(update, "risk_adjustment_id")
    ensures !Present(Get(update, "item_id")) && !Present(Get(update, "risk_adjustment_id")) ==>
      id == Get(update, "candidate_id")
  {
    if Present(Get(update, "item_id")) then Get(update, "item_id")
    else if Present(Get(update, "risk_adjustment_id")) then Get(update, "risk_adjustment_id")
    else Get(update, "candidate_id")
  }

  /** The `{ item_id, status }` object the `map` callback builds for one
      update; an `undefined` value is not sent.  Reading `item_id` of a
      `null` update throws. */
  function TransformedUpdate(update: Json): (r: Result<Json>)
    ensures r.Err? <==> update.Null?
    ensures r.Err? ==> r.error == NullPropertyError("item_id")
    ensures r.Ok? ==> Get(r.value, "item_id") == ItemId(update) && Get(r.value, "status") == Get(update, "status")
  {
    if update.Null? then Err(NullPropertyError("item_id"))
    else
      var withId := WithOptional([], "item_id", ItemId(update));
      WithOptionalLookup([], "item_id", ItemId(update), "item_id");
      WithOptionalLookup([], "item_id", ItemId(update), "status");
      WithOptionalLookup(withId, "status", Get(update, "status"), "item_id");
      WithOptionalLookup(withId, "status", Get(update, "status"), "status");
      Ok(Obj(WithOptional(withId, "status", Get(update, "status"))))
  }

  /** `updates.map(...)`: one transformed update per update, in order, or
      the TypeError of the first `null` update. */
  function TransformedUpdates(updates: seq<Json>): (r: Result<seq<Json>>)
    ensures r.Err? <==> exists i :: 0 <= i < |updates| && updates[i].Null?
    ensures r.Err? ==> r.error == NullPropertyError("item_id")
    ensures r.Ok? ==> |r.value| == |updates|
    ensures r.Ok? ==> forall i :: 0 <= i < |updates| ==>
      Get(r.value[i], "item_id") == ItemId(updates[i]) && Get(r.value[i], "status") == Get(updates[i], "status")
  {
    if |updates| == 0 then Ok([])
    else
      match TransformedUpdate(updates[0])
      case Err(e) => Err(e)
      case Ok(t) =>
        match TransformedUpdates(updates[1..])
        case Err(e) =>
          NullInLater(updates);
          Err(e)
        case Ok(ts) =>
          NoNullSplits(updates);
          Ok([t] + ts)
  }

  /** A `null` in the tail is a `null` in the whole list. */
  lemma NullInLater(updates: seq<Json>)
    requires |updates| > 0 && exists i :: 0 <= i < |updates| - 1 && updates[1..][i].Null?
    ensures exists i :: 0 <= i < |updates| && updates[i].Null?
  {
    var i :| 0 <= i < |updates| - 1 && updates[1..][i].Null?;
    assert updates[i + 1].Null?;
  }

  /** With no `null` in the head or in the tail, there is none in the list. */
  lemma NoNullSplits(updates: seq<Json>)
    requires |updates| > 0 && !updates[0].Null?
    requires !exists i :: 0 <= i < |updates| - 1 && updates[1..][i].Null?
    ensures !exists i :: 0 <= i < |updates| && updates[i].Null?
  {
    forall i | 0 < i < |updates|
      ensures !updates[i].Null?
    {
      assert updates[i] == updates[1..][i - 1];
    }
  }

  /** The request `bulkUpdateStatus` sends once the updates are transformed. */
  function BulkUpdateStatusCall(base: string, transformed: seq<Json>, changeReason: Option<string>, notes: Option<string>,
                                token: Option<string>): (c: ServiceCall)
    ensures c.request.url == base + AdjustmentsPath + "/bulk-update-status"
    ensures c.request.httpMethod == "POST" && c.request.headers == ServiceHeaders(token)
    ensures c.request.body == Some(UpdatesBody(Arr(transformed), changeReason, notes))
    ensures c.failure == FixedMessage(BulkUpdateFailure)
  {
    ServiceCall(Request(base + AdjustmentsPath + "/bulk-update-status", "POST", ServiceHeaders(token),
                        Some(UpdatesBody(Arr(transformed), changeReason, notes))),
                FixedMessage(BulkUpdateFailure))
  }

  /** `bulkUpdateStatus(updates, changeReason = null, notes = null)` on the
      browser state `w`: a failed transformation is rethrown before any
      request is made; otherwise the transformed updates are sent as every
      service method sends its request. */
  function BulkUpdateStatusOutcome(server: Server, w: World, base: string, updates: seq<Json>,
                                   changeReason: Option<string>, notes: Option<string>): (Result<Json>, World)
  {
    match TransformedUpdates(updates)
    case Err(e) => (Err(e), w)
    case Ok(ts) => Perform(server, w, token => BulkUpdateStatusCall(base, ts, changeReason, notes, token))
  }

  /** `bulkUpdateStatus` on the browser. */
  method BulkUpdateStatus(b: Browser, base: string, updates: seq<Json>, changeReason: Option<string>,
                          notes: Option<string>) returns (r: Result<Json>)
    modifies b
    ensures (r, b.State()) == BulkUpdateStatusOutcome(b.server, old(b.State()), base, updates, changeReason, notes)
  {
    var token := b.GetItem(Auth.AccessTokenKey);
    var transformed := TransformedUpdates(updates);
    if transformed.Err? {
      r := Err(transformed.error);
    } else {
      var call := BulkUpdateStatusCall(base, transformed.value, changeReason, notes, token);
      var outcome := b.Fetch(call.request);
      r := Settle(outcome, call.failure);
    }
  }

  /** A `null` update makes `bulkUpdateStatus` throw the TypeError for
      `item_id` and send nothing; without one, exactly the request carrying
      the transformed updates is sent. */
  lemma BulkUpdateFailsOnNull(server: Server, w: World, base: string, updates: seq<Json>,
                              changeReason: Option<string>, notes: Option<string>)
    ensures var (r, w1) := BulkUpdateStatusOutcome(server, w, base, updates, changeReason, notes);
      (exists i :: 0 <= i < |updates| && updates[i].Null?) <==> (r == Err(NullPropertyError("item_id")) && w1 == w)
    ensures var (r, w1) := BulkUpdateStatusOutcome(server, w, base, updates, changeReason, notes);
      !(exists i :: 0 <= i < |updates| && updates[i].Null?) ==>
        w1.requests == w.requests + [BulkUpdateStatusCall(base, TransformedUpdates(updates).value, changeReason, notes,
                                                          StoredItem(w, Auth.AccessTokenKey)).request]
  {
    match TransformedUpdates(updates)
    case Err(e) =>
    case Ok(ts) =>
      SingleFetchNoRefresh(server, w, token => BulkUpdateStatusCall(base, ts, changeReason, notes, token));
      var (_, w1) := BulkUpdateStatusOutcome(server, w, base, updates, changeReason, notes);
      assert |w1.requests| == |w.requests| + 1;
  }

  /** `getHccCandidatesByPatientAllStatuses(patientId, period = null, limit = 1000, offset = 0)` */
  function AllStatusesCall(base: string, patientId: Json, period: Option<Json>, limit: Option<int>, offset: Option<int>,
                           token: Option<string>): (c: ServiceCall)
    ensures c.request.url == base + AdjustmentsPath + "/by-patient-all-statuses"
    ensures c.request.httpMethod == "POST" && c.request.headers == ServiceHeaders(token)
    ensures BodyKeys(c) == ["patient_id", "limit", "offset"] + (if Present(period) then ["period"] else [])
    ensures BodyField(c, "patient_id") == Some(patientId)
    ensures BodyField(c, "limit") == Some(Num(limit.GetOr(AllStatusesLimit)))
    ensures BodyField(c, "offset") == Some(Num(offset.GetOr(DefaultOffset)))
    ensures BodyField(c, "period") == PeriodValue(period)
    ensures c.failure == BodyMessage(CandidatesFailure)
  {
    var listing := ListingFields(patientId, limit.GetOr(AllStatusesLimit), offset.GetOr(DefaultOffset));
    ListingLookups(listing, "period", PeriodValue(period), "", None);
    assert WithOptional(WithOptional(listing, "period", PeriodValue(period)), "", None) ==
      WithOptional(listing, "period", PeriodValue(period));
    ServiceCall(Request(base + AdjustmentsPath + "/by-patient-all-statuses", "POST", ServiceHeaders(token),
                        Some(Obj(WithOptional(listing, "period", PeriodValue(period))))),
                BodyMessage(CandidatesFailure))
  }

  // ---------------------------------------------------------------------
  // calculateEvidenceStrength

  /** What `calculateEvidenceStrength` is meant for: nothing, or a list of evidence objects. */
  predicate EvidenceShape(evidences: Option<Json>) {
    !Present(evidences) || (evidences.value.Arr? && forall i :: 0 <= i < |evidences.value.items| ==> !evidences.value.items[i].Null?)
  }

  /** The evidence items, empty when the value is not a list. */
  function EvidenceItems(evidences: Option<Json>): seq<Json> {
    if Present(evidences) && evidences.value.Arr? then evidences.value.items else []
  }

  /** `evidences.length === 0` for a truthy value: an empty list, or an object
      whose `length` field is 0 (a non-empty string, a number or `true` has
      no length equal to 0). */
  predicate ZeroLength(j: Json) {
    (j.Arr? && |j.items| == 0) || (j.Obj? && Get(j, "length") == Some(Num(0)))
  }

  predicate IsStrong(e: Json) {
    GetString(e, "confidence_level") == Some("strong") || GetString(e, "confidence_level") == Some("high")
  }

  predicate IsModerate(e: Json) {
    GetString(e, "confidence_level") == Some("moderate") || GetString(e, "confidence_level") == Some("medium")
  }

  /** Some item is `null` and no item before it satisfies `p`, so `items.some(p)`
      reaches it and reads `confidence_level` of `null`. */
  predicate Stuck(items: seq<Json>, p: Json -> bool) {
    exists k :: 0 <= k < |items| && items[k].Null? && NoneBefore(items, p, k)
  }

  predicate NoneBefore(items: seq<Json>, p: Json -> bool, k: int)
    requires 0 <= k <= |items|
  {
    forall j :: 0 <= j < k ==> !p(items[j])
  }

  /** `items.some(e => e.confidence_level === …)`: stops at the first match,
      and throws at a `null` item reached before one. */
  function SomeLevel(items: seq<Json>, p: Json -> bool): (r: Result<bool>)
    ensures r.Err? <==> Stuck(items, p)
    ensures r.Err? ==> r.error == NullPropertyError("confidence_level")
    ensures r.Ok? ==> (r.value <==> exists i :: 0 <= i < |items| && p(items[i]))
  {
    if |items| == 0 then Ok(false)
    else if items[0].Null? then
      assert NoneBefore(items, p, 0);
      Err(NullPropertyError("confidence_level"))
    else if p(items[0]) then
      assert forall k :: 0 < k <= |items| ==> !NoneBefore(items, p, k);
      Ok(true)
    else
      var rest := SomeLevel(items[1..], p);
      StuckTail(items, p);
      assert forall i :: 1 <= i < |items| ==> items[i] == items[1..][i - 1];
      rest
  }

  /** Past a non-null item that does not match, `some` is stuck exactly when it is stuck on the rest. */
  lemma StuckTail(items: seq<Json>, p: Json -> bool)
    requires |items| > 0 && !items[0].Null? && !p(items[0])
    ensures Stuck(items, p) <==> Stuck(items[1..], p)
  {
    var rest := items[1..];
    if Stuck(items, p) {
      var k :| 0 <= k < |items| && items[k].Null? && NoneBefore(items, p, k);
      assert k > 0;
      assert rest[k - 1] == items[k];
      assert NoneBefore(rest, p, k - 1) by {
        forall j | 0 <= j < k - 1 ensures !p(rest[j]) {
          assert rest[j] == items[j + 1];
        }
      }
    }
    if Stuck(rest, p) {
      var k :| 0 <= k < |rest| && rest[k].Null? && NoneBefore(rest, p, k);
      assert items[k + 1] == rest[k];
      assert NoneBefore(items, p, k + 1) by {
        forall j | 0 <= j < k + 1 ensures !p(items[j]) {
          if j > 0 { assert items[j] == rest[j - 1]; }
        }
      }
    }
  }

  /** "strong" when some evidence is strong or high, otherwise "moderate"
      when some is moderate or medium, otherwise "low" (also for no
      evidence).  Matching is exact and case-sensitive.  Both `some` scans
      run before either result is used, so a `null` item that either scan
      reaches throws, and a truthy value that is neither a list nor of
      length 0 has no `some` to call. */
  function CalculateEvidenceStrength(evidences: Option<Json>): (r: Result<string>)
    ensures r.Err? <==>
      && Present(evidences) && !ZeroLength(evidences.value)
      && (!evidences.value.Arr?
          || Stuck(evidences.value.items, IsStrong) || Stuck(evidences.value.items, IsModerate))
    ensures r.Err? && evidences.value.Arr? ==> r.error == NullPropertyError("confidence_level")
    ensures r.Err? && !evidences.value.Arr? ==> r.error == NotAFunctionError("evidences.some")
    ensures r.Ok? ==> r.value == "strong" || r.value == "moderate" || r.value == "low"
    ensures r.Ok? ==>
      (r.value == "strong" <==> exists i :: 0 <= i < |EvidenceItems(evidences)| && IsStrong(EvidenceItems(evidences)[i]))
    ensures r.Ok? ==> (r.value == "moderate" <==>
      && (forall i :: 0 <= i < |EvidenceItems(evidences)| ==> !IsStrong(EvidenceItems(evidences)[i]))
      && (exists i :: 0 <= i < |EvidenceItems(evidences)| && IsModerate(EvidenceItems(evidences)[i])))
  {
    if !Present(evidences) || ZeroLength(evidences.value) then Ok("low")
    else if !evidences.value.Arr? then Err(NotAFunctionError("evidences.some"))
    else
      var items := evidences.value.items;
      assert items == EvidenceItems(evidences);
      match SomeLevel(items, IsStrong)
      case Err(e) => Err(e)
      case Ok(hasStrong) =>
        match SomeLevel(items, IsModerate)
        case Err(e) => Err(e)
        case Ok(hasModerate) =>
          if hasStrong then Ok("strong")
          else if hasModerate then Ok("moderate")
          else Ok("low")
  }

  /** No evidence at all is "low". */
  lemma NoEvidenceIsLow(evidences: Option<Json>)
    requires !Present(evidences) || evidences.value == Arr([])
    ensures CalculateEvidenceStrength(evidences) == Ok("low")
  {
  }

  /** A list of evidence objects (or no evidence) is always rated. */
  lemma ShapedEvidenceIsRated(evidences: Option<Json>)
    requires EvidenceShape(evidences)
    ensures CalculateEvidenceStrength(evidences).Ok?
  {
    if Present(evidences) {
      var items := evidences.value.items;
      assert !Stuck(items, IsStrong) && !Stuck(items, IsModerate) by {
        forall k | 0 <= k < |items| ensures !items[k].Null? { }
      }
    }
  }

  /** A strong item does not save a list with a `null` after it: the
      second scan, for a moderate level, still reaches the `null`. */
  lemma NullAfterStrongThrows()
    ensures var strong := Obj([Field("confidence_level", Str("strong"))]);
      CalculateEvidenceStrength(Some(Arr([strong, Null]))) == Err(NullPropertyError("confidence_level"))
  {
    var items := [Obj([Field("confidence_level", Str("strong"))]), Null];
    assert items[1].Null? && NoneBefore(items, IsModerate, 1);
  }

  // ---------------------------------------------------------------------
  // transformToLegacyFormat

  datatype IcdCode = IcdCode(code: Option<Json>, description: Option<Json>)

  /** One entry of `combined`.  `None` fields are `undefined`. */
  datatype LegacyEntry = LegacyEntry(
    id: string,
    hccCode: Option<Json>,
    hccDescription: Option<Json>,
    status: Json,
    entryType: Json,
    hccEvidence: string,
    evidenceStrength: string,
    icdCode: seq<IcdCode>,
    createdAtUtc: string,
    updatedAtUtc: string)

  /** What the transform is meant for: groups that are objects with a list of evidence objects. */
  predicate GroupShape(group: Json) {
    !group.Null? && EvidenceShape(Get(group, "evidences"))
  }

  /** The groups of a response; none when the response or its `hcc_groups` is falsy or not a list. */
  function Groups(response: Option<Json>): seq<Json> {
    if Present(response) && Present(Get(response.value, "hcc_groups")) && Get(response.value, "hcc_groups").value.Arr?
    then Get(response.value, "hcc_groups").value.items
    else []
  }

  predicate ResponseShape(response: Option<Json>) {
    var groups := Get(response.GetOr(Null), "hcc_groups");
    && (Present(response) && Present(groups) ==> groups.value.Arr?)
    && forall i :: 0 <= i < |Groups(response)| ==> GroupShape(Groups(response)[i])
  }

  /** The legacy entry for one group, with `createdAt` and `updatedAt` the
      two `new Date().toISOString()` it reads.  Reading `hcc_code` of a
      `null` group throws, and so does the strength computation. */
  function LegacyEntryOf(group: Json, createdAt: string, updatedAt: string): (r: Result<LegacyEntry>)
    ensures r.Err? <==> group.Null? || CalculateEvidenceStrength(Get(group, "evidences")).Err?
    ensures group.Null? ==> r == Err(NullPropertyError("hcc_code"))
    ensures !group.Null? && r.Err? ==> r.error == CalculateEvidenceStrength(Get(group, "evidences")).error
  {
    if group.Null? then Err(NullPropertyError("hcc_code"))
    else
      var evidences := Get(group, "evidences");
      match CalculateEvidenceStrength(evidences)
      case Err(e) => Err(e)
      case Ok(strength) =>
        var items := EvidenceItems(evidences);
        Ok(LegacyEntry(
          "hcc-" + JsString(Get(group, "hcc_code")),
          Get(group, "hcc_code"),
          Get(group, "hcc_description"),
          JsonOr(Get(group, "overall_status"), Str("pending")),
          JsonOr(Get(group, "type"), Str("suspect")),
          Stringify(JsonOr(evidences, Arr([]))),
          strength,
          if |items| > 0 then [IcdCode(Get(items[0], "icd_code"), Get(items[0], "icd_description"))] else [],
          createdAt,
          updatedAt))
  }

  /** A group of the intended shape always converts. */
  lemma ShapedGroupConverts(group: Json, createdAt: string, updatedAt: string)
    requires GroupShape(group)
    ensures LegacyEntryOf(group, createdAt, updatedAt).Ok?
  {
    ShapedEvidenceIsRated(Get(group, "evidences"));
  }

  /** The entry of group `i`: `new Date()` is read twice per group, so the
      group's timestamps are readings `2 * i` and `2 * i + 1` of `clock`. */
  function EntryAt(groups: seq<Json>, clock: nat -> string, i: nat): Result<LegacyEntry>
    requires i < |groups|
  {
    LegacyEntryOf(groups[i], clock(2 * i), clock(2 * i + 1))
  }

  /** `transformToLegacyFormat(hierarchicalResponse).combined`: nothing for a
      missing response or missing groups; a truthy `hcc_groups` that is not a
      list has no `forEach`; otherwise the entries the loop pushes. */
  method TransformToLegacyFormat(response: Option<Json>, clock: nat -> string) returns (r: Result<seq<LegacyEntry>>)
    ensures !Present(response) || !Present(Get(response.value, "hcc_groups")) ==> r == Ok([])
    ensures Present(response) && Present(Get(response.value, "hcc_groups")) && !Get(response.value, "hcc_groups").value.Arr? ==>
      r == Err(NotAFunctionError("hierarchicalResponse.hcc_groups.forEach"))
    ensures Present(response) && Present(Get(response.value, "hcc_groups")) && Get(response.value, "hcc_groups").value.Arr? ==>
      var groups := Groups(response);
      && (r.Ok? <==> forall i :: 0 <= i < |groups| ==> EntryAt(groups, clock, i).Ok?)
      && (r.Ok? ==> |r.value| == |groups| && forall i :: 0 <= i < |groups| ==> r.value[i] == EntryAt(groups, clock, i).value)
      && (r.Err? ==> exists k :: 0 <= k < |groups| && FirstFailure(groups, clock, k) && r.error == EntryAt(groups, clock, k).error)
    ensures ResponseShape(response) ==> r.Ok? && |r.value| == |Groups(response)|
  {
    if !Present(response) || !Present(Get(response.value, "hcc_groups")) {
      return Ok([]);
    }
    var hccGroups := Get(response.value, "hcc_groups").value;
    if !hccGroups.Arr? {
      return Err(NotAFunctionError("hierarchicalResponse.hcc_groups.forEach"));
    }
    var groups := hccGroups.items;
    assert groups == Groups(response);
    r := PushEntries(groups, clock);
    if ResponseShape(response) {
      forall i | 0 <= i < |groups| ensures EntryAt(groups, clock, i).Ok? {
        ShapedGroupConverts(groups[i], clock(2 * i), clock(2 * i + 1));
      }
    }
  }

  /** Group `k` is the first whose entry throws. */
  predicate FirstFailure(groups: seq<Json>, clock: nat -> string, k: nat)
    requires k < |groups|
  {
    EntryAt(groups, clock, k).Err? && forall j :: 0 <= j < k ==> EntryAt(groups, clock, j).Ok?
  }

  /** The `forEach` that pushes one legacy entry per group onto `combined`;
      the first group that throws ends it. */
  method PushEntries(groups: seq<Json>, clock: nat -> string) returns (r: Result<seq<LegacyEntry>>)
    ensures r.Ok? <==> forall i :: 0 <= i < |groups| ==> EntryAt(groups, clock, i).Ok?
    ensures r.Ok? ==> |r.value| == |groups| && forall i :: 0 <= i < |groups| ==> r.value[i] == EntryAt(groups, clock, i).value
    ensures r.Err? ==> exists k :: 0 <= k < |groups| && FirstFailure(groups, clock, k) && r.error == EntryAt(groups, clock, k).error
  {
    var combined := [];
    var i := 0;
    while i < |groups|
      invariant 0 <= i <= |groups|
      invariant |combined| == i
      invariant forall j :: 0 <= j < i ==> EntryAt(groups, clock, j).Ok? && combined[j] == EntryAt(groups, clock, j).value
    {
      var entry := EntryAt(groups, clock, i);
      if entry.Err? {
        assert FirstFailure(groups, clock, i);
        return Err(entry.error);
      }
      EntriesExtend(groups, clock, combined, i);
      combined := combined + [entry.value];
      i := i + 1;
    }
    return Ok(combined);
  }

  /** Pushing the entry of group `i` extends the entries of the first `i` groups to `i + 1`. */
  lemma EntriesExtend(groups: seq<Json>, clock: nat -> string, combined: seq<LegacyEntry>, i: nat)
    requires i < |groups| && |combined| == i && EntryAt(groups, clock, i).Ok?
    requires forall j :: 0 <= j < i ==> EntryAt(groups, clock, j).Ok? && combined[j] == EntryAt(groups, clock, j).value
    ensures var extended := combined + [EntryAt(groups, clock, i).value];
      forall j :: 0 <= j < i + 1 ==> EntryAt(groups, clock, j).Ok? && extended[j] == EntryAt(groups, clock, j).value
  {
    var extended := combined + [EntryAt(groups, clock, i).value];
    forall j | 0 <= j < i + 1
      ensures EntryAt(groups, clock, j).Ok? && extended[j] == EntryAt(groups, clock, j).value
    {
      if j < i {
        assert extended[j] == combined[j];
      }
    }
  }

  /** What one legacy entry holds: the group's code in its id, the status
      and type with their "pending"/"suspect" defaults, the group's strength
      level, the serialised evidence list, at most one ICD code (the first
      evidence's, which is an object whenever the strength was computed),
      and the two timestamps in order. */
  lemma LegacyEntryOfGroup(group: Json, createdAt: string, updatedAt: string)
    requires LegacyEntryOf(group, createdAt, updatedAt).Ok?
    ensures var e := LegacyEntryOf(group, createdAt, updatedAt).value;
      var evidences := Get(group, "evidences");
      var items := EvidenceItems(evidences);
      && e.id == "hcc-" + JsString(Get(group, "hcc_code"))
      && e.hccCode == Get(group, "hcc_code") && e.hccDescription == Get(group, "hcc_description")
      && (Present(Get(group, "overall_status")) ==> e.status == Get(group, "overall_status").value)
      && (!Present(Get(group, "overall_status")) ==> e.status == Str("pending"))
      && (Present(Get(group, "type")) ==> e.entryType == Get(group, "type").value)
      && (!Present(Get(group, "type")) ==> e.entryType == Str("suspect"))
      && (Present(evidences) && evidences.value.Arr? ==> e.hccEvidence == Stringify(Arr(items)))
      && (!Present(evidences) ==> e.hccEvidence == Stringify(Arr([])))
      && Ok(e.evidenceStrength) == CalculateEvidenceStrength(evidences)
      && (e.evidenceStrength == "strong" || e.evidenceStrength == "moderate" || e.evidenceStrength == "low")
      && (|items| == 0 ==> e.icdCode == [] && e.evidenceStrength == "low")
      && (|items| > 0 ==> !items[0].Null? && e.icdCode == [IcdCode(Get(items[0], "icd_code"), Get(items[0], "icd_description"))])
      && e.createdAtUtc == createdAt && e.updatedAtUtc == updatedAt
  {
    var evidences := Get(group, "evidences");
    var items := EvidenceItems(evidences);
    if |items| > 0 && items[0].Null? {
      assert NoneBefore(items, IsStrong, 0);
      assert Stuck(evidences.value.items, IsStrong);
    }
  }
}
