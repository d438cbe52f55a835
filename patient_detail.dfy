/** `PatientDetail.jsx`: loading one patient's details and the risk cards of
    the patient's latest batch.  The risks are copied into cards with
    "pending"/"low" defaults and ordered with non-rejected cards first and,
    within each class, by evidence strength. */
module PatientDetail {
  import opened Js
  import opened Text
  import opened Web
  import Services
  import HccRiskService
  import PatientApi
  import Sorting
  import HccCard
  import Auth

  /** One entry of `hccData`; `None` fields are `undefined`. */
  datatype RiskCard = RiskCard(
    id: Option<Json>,
    hccCode: Option<Json>,
    hccDescription: Option<Json>,
    status: Json,
    hccEvidence: Option<Json>,
    evidenceStrength: Json,
    icdCode: Option<Json>,
    v24RiskScore: Option<Json>,
    currentMra: Option<Json>,
    previousMra: Option<Json>,
    runDatetimeUtc: Option<Json>,
    rejectionReason: Option<Json>,
    rejectionNotes: Option<Json>,
    rejectedBy: Option<Json>,
    rejectedDateUtc: Option<Json>)

  /** The `map` callback: every field is copied, `status` defaults to
      "pending" and `evidence_strength` to "low" when falsy. */
  function CardOf(risk: Json): (c: RiskCard)
    requires !risk.Null?
    ensures Present(Get(risk, "status")) ==> c.status == Get(risk, "status").value
    ensures !Present(Get(risk, "status")) ==> c.status == Str("pending")
    ensures Present(Get(risk, "evidence_strength")) ==> c.evidenceStrength == Get(risk, "evidence_strength").value
    ensures !Present(Get(risk, "evidence_strength")) ==> c.evidenceStrength == Str("low")
    ensures JsonTruthy(c.status) && JsonTruthy(c.evidenceStrength)
    ensures c.id == Get(risk, "id") && c.hccCode == Get(risk, "hcc_code")
    ensures c.hccDescription == Get(risk, "hcc_description") && c.hccEvidence == Get(risk, "hcc_evidence")
    ensures c.icdCode == Get(risk, "icd_code") && c.v24RiskScore == Get(risk, "v24_risk_score")
    ensures c.currentMra == Get(risk, "current_mra") && c.previousMra == Get(risk, "previous_mra")
    ensures c.runDatetimeUtc == Get(risk, "run_datetime_utc")
    ensures c.rejectionReason == Get(risk, "rejection_reason") && c.rejectionNotes == Get(risk, "rejection_notes")
    ensures c.rejectedBy == Get(risk, "rejected_by") && c.rejectedDateUtc == Get(risk, "rejected_date_utc")
  {
    RiskCard(
      Get(risk, "id"),
      Get(risk, "hcc_code"),
      Get(risk, "hcc_description"),
      JsonOr(Get(risk, "status"), Str("pending")),
      Get(risk, "hcc_evidence"),
      JsonOr(Get(risk, "evidence_strength"), Str("low")),
      Get(risk, "icd_code"),
      Get(risk, "v24_risk_score"),
      Get(risk, "current_mra"),
      Get(risk, "previous_mra"),
      Get(risk, "run_datetime_utc"),
      Get(risk, "rejection_reason"),
      Get(risk, "rejection_notes"),
      Get(risk, "rejected_by"),
      Get(risk, "rejected_date_utc"))
  }

  /** `hcc_risks.map(...)`: the first `null` risk throws when its `id` is read. */
  function CardsOf(risks: seq<Json>): (r: Result<seq<RiskCard>>)
    ensures r.Err? <==> exists i :: 0 <= i < |risks| && risks[i].Null?
    ensures r.Err? ==> r.error == NullPropertyError("id")
    ensures r.Ok? ==> |r.value| == |risks| && forall i :: 0 <= i < |risks| ==> r.value[i] == CardOf(risks[i])
  {
    if |risks| == 0 then Ok([])
    else if risks[0].Null? then Err(NullPropertyError("id"))
    else
      match CardsOf(risks[1..])
      case Err(e) =>
        NullInTail(risks);
        Err(e)
      case Ok(rest) =>
        CardsCons(risks, rest);
        Ok([CardOf(risks[0])] + rest)
  }

  lemma NullInTail(risks: seq<Json>)
    requires |risks| > 0
    ensures (exists i :: 0 <= i < |risks[1..]| && risks[1..][i].Null?) ==> exists i :: 0 <= i < |risks| && risks[i].Null?
  {
    if exists i :: 0 <= i < |risks[1..]| && risks[1..][i].Null? {
      var i :| 0 <= i < |risks[1..]| && risks[1..][i].Null?;
      assert risks[i + 1].Null?;
    }
  }

  lemma CardsCons(risks: seq<Json>, rest: seq<RiskCard>)
    requires |risks| > 0 && !risks[0].Null?
    requires !exists i :: 0 <= i < |risks[1..]| && risks[1..][i].Null?
    requires |rest| == |risks| - 1 && forall i :: 0 <= i < |rest| ==> rest[i] == CardOf(risks[1..][i])
    ensures !exists i :: 0 <= i < |risks| && risks[i].Null?
    ensures forall i :: 0 <= i < |risks| ==> ([CardOf(risks[0])] + rest)[i] == CardOf(risks[i])
  {
    forall i | 1 <= i < |risks| ensures !risks[i].Null? && ([CardOf(risks[0])] + rest)[i] == CardOf(risks[i]) {
      assert risks[i] == risks[1..][i - 1];
    }
  }

  /** The card sits in the rejected class. */
  predicate IsRejected(c: RiskCard) {
    c.status == Str("rejected")
  }

  /** `strengthOrder[strength] ?? 3`, keyed by the strength's string form.
      A name the literal inherits from `Object.prototype` finds a function or
      an object rather than `undefined`, and the comparator's subtraction of
      it gives NaN: `None`. */
  function Rank(strength: Json): (k: Option<nat>)
    ensures k.None? <==> ValueString(strength) in PrototypeNames
    ensures k == Some(0) <==> ValueString(strength) == "strong"
    ensures k == Some(1) <==> ValueString(strength) == "moderate"
    ensures k == Some(2) <==> ValueString(strength) == "low"
    ensures k.Some? ==> k.value <= 3
  {
    var key := ValueString(strength);
    if key == "strong" then Some(0)
    else if key == "moderate" then Some(1)
    else if key == "low" then Some(2)
    else if key in PrototypeNames then None
    else Some(3)
  }

  /** The comparator passed to `sort`; `None` is NaN. */
  function Compare(a: RiskCard, b: RiskCard): Option<int> {
    var aIsRejected := if IsRejected(a) then 1 else 0;
    var bIsRejected := if IsRejected(b) then 1 else 0;
    if aIsRejected != bIsRejected then Some(aIsRejected - bIsRejected)
    else
      var orderA := Rank(a.evidenceStrength);
      var orderB := Rank(b.evidenceStrength);
      if orderA.Some? && orderB.Some? then Some(orderA.value - orderB.value) else None
  }

  /** The position class of a card: rejected cards after the others, then
      strength rank.  A card whose rank is NaN is placed as rank 3. */
  function SortKey(c: RiskCard): nat {
    (if IsRejected(c) then 4 else 0) + Rank(c.evidenceStrength).GetOr(3)
  }

  /** `a` may stay before `b`. */
  function CardLe(a: RiskCard, b: RiskCard): bool {
    SortKey(a) <= SortKey(b)
  }

  /** The comparator gives NaN exactly for two cards of the same class one
      of whose strengths is an inherited name; otherwise it orders cards
      exactly as their keys. */
  lemma CompareByKey(a: RiskCard, b: RiskCard)
    ensures Compare(a, b).None? <==>
      IsRejected(a) == IsRejected(b) && (Rank(a.evidenceStrength).None? || Rank(b.evidenceStrength).None?)
    ensures Compare(a, b).Some? ==> (Compare(a, b).value < 0 <==> SortKey(a) < SortKey(b))
    ensures Compare(a, b).Some? ==> (Compare(a, b).value == 0 <==> SortKey(a) == SortKey(b))
    ensures Compare(a, b).Some? ==> (CardLe(a, b) <==> Compare(a, b).value <= 0)
  {
  }

  /** The order the model sorts by is consistent. */
  lemma CardLeIsTotalPreorder()
    ensures Sorting.TotalPreorder(CardLe)
  {
  }

  /** Every card's strength has a rank, so the comparator is never NaN. */
  predicate RanksDefined(cards: seq<RiskCard>) {
    forall i :: 0 <= i < |cards| ==> Rank(cards[i].evidenceStrength).Some?
  }

  /** `transformedData.sort(comparator)`: a permutation of the cards.  When
      every strength has a rank, every non-rejected card comes before every
      rejected one, within each class stronger evidence comes first, and
      cards the comparator calls equal keep their order. */
  function SortCards(cards: seq<RiskCard>): (sorted: seq<RiskCard>)
    ensures multiset(sorted) == multiset(cards)
    ensures RanksDefined(cards) ==> RanksDefined(sorted)
    ensures RanksDefined(cards) ==>
      forall i, j :: 0 <= i < j < |sorted| && IsRejected(sorted[i]) ==> IsRejected(sorted[j])
    ensures RanksDefined(cards) ==>
      forall i, j :: 0 <= i < j < |sorted| && IsRejected(sorted[i]) == IsRejected(sorted[j]) ==>
        Rank(sorted[i].evidenceStrength).value <= Rank(sorted[j].evidenceStrength).value
    ensures RanksDefined(cards) ==> forall c :: Sorting.Ties(sorted, c, CardLe) == Sorting.Ties(cards, c, CardLe)
  {
    CardLeIsTotalPreorder();
    var sorted := Sorting.Sort(cards, CardLe);
    SortedCardsRanked(cards, sorted);
    assert forall i, j :: 0 <= i < j < |sorted| ==> CardLe(sorted[i], sorted[j]);
    sorted
  }

  /** A permutation keeps every card's rank defined, and the model's sort is stable. */
  lemma SortedCardsRanked(cards: seq<RiskCard>, sorted: seq<RiskCard>)
    requires Sorting.TotalPreorder(CardLe)
    requires sorted == Sorting.Sort(cards, CardLe)
    ensures RanksDefined(cards) ==> RanksDefined(sorted)
    ensures forall c :: Sorting.Ties(sorted, c, CardLe) == Sorting.Ties(cards, c, CardLe)
  {
    if RanksDefined(cards) {
      forall i | 0 <= i < |sorted| ensures Rank(sorted[i].evidenceStrength).Some? {
        assert sorted[i] in multiset(cards);
      }
    }
    forall c ensures Sorting.Ties(sorted, c, CardLe) == Sorting.Ties(cards, c, CardLe) {
      Sorting.SortIsStable(cards, c, CardLe);
    }
  }

  /** The sorted cards are the transformed cards, each exactly as often. */
  lemma SortKeepsCards(cards: seq<RiskCard>, c: RiskCard)
    ensures c in SortCards(cards) <==> c in cards
  {
    CardLeIsTotalPreorder();
    Sorting.SortKeepsElements(cards, CardLe, c);
  }

  /** A card's badge offers the actions exactly for "pending" and "active":
      the transform never leaves a status falsy. */
  lemma CardActions(risk: Json)
    requires !risk.Null?
    ensures var c := CardOf(risk);
      HccCard.ShowActions(Some(c.status)) <==> c.status == Str("pending") || c.status == Str("active")
  {
  }

  // ---------------------------------------------------------------------
  // fetchHccRisks

  /** The state `fetchHccRisks` writes. */
  datatype HccState = HccState(hccData: seq<RiskCard>, currentBatchId: Json, hccError: string)

  /** The message of the TypeError thrown by `.map` on a truthy non-array. */
  const MapNotAFunction := NotAFunctionError("risksResponse.hcc_risks.map").message

  /** `getLatestBatchForPatient(patientId)` with the token it reads. */
  function LatestBuild(base: string, patientId: Json): Option<string> -> Services.ServiceCall {
    t => HccRiskService.LatestBatchCall(base, patientId, t)
  }

  /** `getHccRisksByPatientAndBatch(patientId, batchId, 100, 0)` with the token it reads. */
  function RisksBuild(base: string, patientId: Json, batchId: Json): Option<string> -> Services.ServiceCall {
    t => HccRiskService.ByPatientAndBatchCall(base, patientId, batchId, Some(100), Some(0), t)
  }

  /** Whether the latest-batch answer names a batch. */
  predicate HasBatch(latestBatchResponse: Json) {
    JsonTruthy(latestBatchResponse) && Present(Get(latestBatchResponse, "latest_batch_id"))
  }

  /** What the risks answer does to the state once the batch is set. */
  function ApplyRisks(risksResponse: Json, s: HccState): (s': HccState)
    ensures s'.currentBatchId == s.currentBatchId
    ensures !(JsonTruthy(risksResponse) && Present(Get(risksResponse, "hcc_risks"))) ==> s' == s.(hccData := [])
  {
    if JsonTruthy(risksResponse) && Present(Get(risksResponse, "hcc_risks")) then
      var risks := Get(risksResponse, "hcc_risks").value;
      if !risks.Arr? then s.(hccError := MapNotAFunction)
      else
        match CardsOf(risks.items)
        case Err(e) => s.(hccError := e.message)
        case Ok(cards) => s.(hccData := SortCards(cards))
    else s.(hccData := [])
  }

  /** `fetchHccRisks(patientId)` on the browser state `w`; `base` is the risk API's base URL. */
  function FetchHccRisksFlow(server: Server, w: World, base: string, patientId: Json, s: HccState): (HccState, World) {
    var (latest, w1) := Services.Perform(server, w, LatestBuild(base, patientId));
    match latest
    case Err(e) => (s.(hccError := e.message), w1)
    case Ok(latestBatchResponse) =>
      if !HasBatch(latestBatchResponse) then (s.(hccData := [], currentBatchId := Null), w1)
      else
        var batchId := Get(latestBatchResponse, "latest_batch_id").value;
        BatchFlow(server, w1, base, patientId, s.(currentBatchId := batchId))
  }

  /** The second half of `fetchHccRisks`, once `currentBatchId` is set. */
  function BatchFlow(server: Server, w: World, base: string, patientId: Json, s: HccState): (HccState, World) {
    var (risks, w1) := Services.Perform(server, w, RisksBuild(base, patientId, s.currentBatchId));
    match risks
    case Err(e) => (s.(hccError := e.message), w1)
    case Ok(risksResponse) => (ApplyRisks(risksResponse, s), w1)
  }

  /** The component's state. */
  class View {
    const base: string
    var patient: Json
    var loading: bool
    var toasts: seq<string>
    var hccData: seq<RiskCard>
    var currentBatchId: Json
    var hccError: string
    var hccLoading: bool

    function Hcc(): HccState
      reads this
    {
      HccState(hccData, currentBatchId, hccError)
    }

    constructor (base: string)
      ensures this.base == base && patient == Null && loading && toasts == []
      ensures Hcc() == HccState([], Null, "") && !hccLoading
    {
      this.base := base;
      patient := Null;
      loading := true;
      toasts := [];
      hccData := [];
      currentBatchId := Null;
      hccError := "";
      hccLoading := false;
    }

    /** `fetchPatientDetails(patientId)`: the patient on success, a toast on failure. */
    method FetchPatientDetails(b: Browser, patientId: Json)
      modifies this, b
      ensures var (r, w) := PatientApi.GetPatientByIdFlow(b.server, old(b.State()), patientId);
        && b.State() == w
        && (r.Ok? ==> patient == r.value && toasts == old(toasts))
        && (r.Err? ==> patient == old(patient) && toasts == old(toasts) + ["Failed to load patient details"])
      ensures !loading && Hcc() == old(Hcc()) && hccLoading == old(hccLoading)
    {
      loading := true;
      var response := PatientApi.GetPatientById(b, patientId);
      match response {
        case Ok(p) => patient := p;
        case Err(_) => toasts := toasts + ["Failed to load patient details"];
      }
      loading := false;
    }

    method FetchHccRisks(b: Browser, patientId: Json)
      modifies this, b
      ensures (Hcc(), b.State()) == FetchHccRisksFlow(b.server, old(b.State()), base, patientId, old(Hcc()))
      ensures !hccLoading && patient == old(patient) && toasts == old(toasts) && loading == old(loading)
    {
      hccLoading := true;
      var latest := Services.Send(b, LatestBuild(base, patientId));
      match latest {
        case Err(e) =>
          hccError := e.message;
        case Ok(latestBatchResponse) =>
          UseLatestBatch(b, patientId, latestBatchResponse);
      }
      hccLoading := false;
    }

    /** What the latest-batch answer leads to: an empty state, or the risks of that batch. */
    method UseLatestBatch(b: Browser, patientId: Json, latestBatchResponse: Json)
      modifies this, b
      ensures !HasBatch(latestBatchResponse) ==>
        Hcc() == old(Hcc()).(hccData := [], currentBatchId := Null) && b.State() == old(b.State())
      ensures HasBatch(latestBatchResponse) ==>
        (Hcc(), b.State()) == BatchFlow(b.server, old(b.State()), base, patientId,
                                        old(Hcc()).(currentBatchId := Get(latestBatchResponse, "latest_batch_id").value))
      ensures hccLoading == old(hccLoading) && patient == old(patient) && toasts == old(toasts) && loading == old(loading)
    {
      if !HasBatch(latestBatchResponse) {
        hccData := [];
        currentBatchId := Null;
      } else {
        var batchId := Get(latestBatchResponse, "latest_batch_id").value;
        currentBatchId := batchId;
        LoadBatch(b, patientId);
      }
    }

    /** The risks request for `currentBatchId` and what its answer does to the cards. */
    method LoadBatch(b: Browser, patientId: Json)
      modifies this, b
      ensures (Hcc(), b.State()) == BatchFlow(b.server, old(b.State()), base, patientId, old(Hcc()))
      ensures hccLoading == old(hccLoading) && patient == old(patient) && toasts == old(toasts) && loading == old(loading)
    {
      var risks := Services.Send(b, RisksBuild(base, patientId, currentBatchId));
      match risks {
        case Err(e) =>
          hccError := e.message;
        case Ok(risksResponse) =>
          var s := ApplyRisks(risksResponse, Hcc());
          hccData, hccError := s.hccData, s.hccError;
      }
    }
  }

  // ---------------------------------------------------------------------
  // Properties of fetchHccRisks

  /** A latest-batch answer without a batch empties the cards and the batch
      without reporting an error, after a single request. */
  lemma NoBatchMeansEmpty(server: Server, w: World, base: string, patientId: Json, s: HccState)
    requires var (latest, _) := Services.Perform(server, w, LatestBuild(base, patientId));
      latest.Ok? && !HasBatch(latest.value)
    ensures var (s', w') := FetchHccRisksFlow(server, w, base, patientId, s);
      && s' == HccState([], Null, s.hccError)
      && |w'.requests| == |w.requests| + 1
  {
  }

  /** With a batch, the second request asks for that batch's first 100 risks. */
  lemma RisksRequestForBatch(server: Server, w: World, base: string, patientId: Json, s: HccState)
    requires var (latest, _) := Services.Perform(server, w, LatestBuild(base, patientId));
      latest.Ok? && HasBatch(latest.value)
    ensures var (latest, _) := Services.Perform(server, w, LatestBuild(base, patientId));
      var (s', w') := FetchHccRisksFlow(server, w, base, patientId, s);
      var sent := w'.requests[|w.requests| + 1];
      && |w'.requests| == |w.requests| + 2
      && sent.url == base + "/hcc-risk/by-patient-batch"
      && sent.body.Some? && Get(sent.body.value, "batch_id") == Get(latest.value, "latest_batch_id")
      && Get(sent.body.value, "patient_id") == Some(patientId)
      && Get(sent.body.value, "limit") == Some(Num(100)) && Get(sent.body.value, "offset") == Some(Num(0))
      && s'.currentBatchId == Get(latest.value, "latest_batch_id").value
  {
    var (latest, w1) := Services.Perform(server, w, LatestBuild(base, patientId));
    var batchId := Get(latest.value, "latest_batch_id").value;
    var c := HccRiskService.ByPatientAndBatchCall(base, patientId, batchId, Some(100), Some(0), Auth.TokensOf(w1).accessToken);
    assert c.request.url == base + "/hcc-risk/by-patient-batch";
  }

  /** Loaded risks become the sorted cards; an answer without risks empties the list. */
  lemma RisksBecomeSortedCards(risksResponse: Json, s: HccState)
    ensures var risks := Get(risksResponse, "hcc_risks");
      && (!JsonTruthy(risksResponse) || !Present(risks) ==> ApplyRisks(risksResponse, s).hccData == [])
      && (JsonTruthy(risksResponse) && Present(risks) && risks.value.Arr? && CardsOf(risks.value.items).Ok? ==>
            ApplyRisks(risksResponse, s) == s.(hccData := SortCards(CardsOf(risks.value.items).value)))
  {
  }

  /** A failure keeps the cards on screen and shows the error's message. */
  lemma FailureKeepsCards(risksResponse: Json, s: HccState)
    requires JsonTruthy(risksResponse) && Present(Get(risksResponse, "hcc_risks"))
    requires var risks := Get(risksResponse, "hcc_risks").value;
      !risks.Arr? || exists i :: 0 <= i < |risks.items| && risks.items[i].Null?
    ensures var s' := ApplyRisks(risksResponse, s);
      var risks := Get(risksResponse, "hcc_risks").value;
      && s'.hccData == s.hccData
      && s'.hccError == (if risks.Arr? then NullPropertyError("id").message else MapNotAFunction)
  {
  }
}
