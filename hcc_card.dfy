/** `HccCard.jsx`: the decision rules of one risk card — the status badge's
    colour and text, the evidence-strength badge, the evidence list read back
    from `hcc_evidence`, and when the Accept/Reject actions are offered. */
module HccCard {
  import opened Js
  import opened Text
  import Web
  import HccCandidatesService
  import HccRiskService
  import Services

  const Green := "#52c41a"
  const Red := "#ff4d4f"
  const Amber := "#faad14"

  /** `getStatusColor(status)`: the `switch` compares with `===`. */
  function StatusColor(status: Option<Json>): (c: string)
    ensures c == Green <==> status == Some(Str("approved"))
    ensures c == Red <==> status == Some(Str("rejected"))
    ensures c == Green || c == Red || c == Amber
  {
    match status
    case Some(Str("approved")) => Green
    case Some(Str("rejected")) => Red
    case _ => Amber
  }

  /** `getStatusText(status)` */
  function StatusText(status: Option<Json>): (t: string)
    ensures t == "Accepted" <==> status == Some(Str("approved"))
    ensures t == "Rejected" <==> status == Some(Str("rejected"))
    ensures t == "Accepted" || t == "Rejected" || t == "Pending"
  {
    match status
    case Some(Str("approved")) => "Accepted"
    case Some(Str("rejected")) => "Rejected"
    case _ => "Pending"
  }

  /** The badge colour and its text always tell the same story. */
  lemma BadgeAgrees(status: Option<Json>)
    ensures StatusColor(status) == Green <==> StatusText(status) == "Accepted"
    ensures StatusColor(status) == Red <==> StatusText(status) == "Rejected"
    ensures StatusColor(status) == Amber <==> StatusText(status) == "Pending"
  {
  }

  /** The style object `getEvidenceStrengthStyle` returns. */
  datatype StrengthStyle = StrengthStyle(backgroundColor: string, color: string, text: string)

  const StrongStyle := StrengthStyle(Green, "white", "Strong")
  const ModerateStyle := StrengthStyle(Amber, "white", "Moderate")
  const LowStyle := StrengthStyle(Red, "white", "Low")

  /** The `switch` on an already lower-cased name. */
  function StyleOfLabel(name: string): (st: StrengthStyle)
    ensures st == StrongStyle <==> name == "strong" || name == "high"
    ensures st == ModerateStyle <==> name == "moderate" || name == "medium" || name == "mid"
    ensures st == StrongStyle || st == ModerateStyle || st == LowStyle
  {
    if name == "strong" || name == "high" then StrongStyle
    else if name == "moderate" || name == "medium" || name == "mid" then ModerateStyle
    else LowStyle
  }

  /** `getEvidenceStrengthStyle(strength)`: `strength?.toLowerCase()` is
      `undefined` for a missing value (the default "Low" style) and throws a
      TypeError for a value that is neither a string nor missing. */
  function EvidenceStrengthStyle(strength: Option<Json>): (r: Result<StrengthStyle>)
    ensures r.Err? <==> strength.Some? && !strength.value.Null? && !strength.value.Str?
    ensures r.Err? ==> r.error.name == "TypeError"
    ensures strength.None? || strength == Some(Null) ==> r == Ok(LowStyle)
    ensures strength.Some? && strength.value.Str? ==> r == Ok(StyleOfLabel(ToLowerAscii(strength.value.s)))
  {
    match strength
    case None => Ok(StyleOfLabel("undefined"))
    case Some(Null) => Ok(StyleOfLabel("undefined"))
    case Some(Str(s)) => Ok(StyleOfLabel(ToLowerAscii(s)))
    case Some(_) => Err(JsError("TypeError", "strength?.toLowerCase is not a function"))
  }

  /** The strength badge ignores letter case. */
  lemma StrengthStyleIgnoresCase(s: string)
    ensures EvidenceStrengthStyle(Some(Str(s))) == EvidenceStrengthStyle(Some(Str(ToLowerAscii(s))))
  {
    ToLowerIdempotent(s);
  }

  lemma ToLowerIdempotent(s: string)
    ensures ToLowerAscii(ToLowerAscii(s)) == ToLowerAscii(s)
  {
    var t := ToLowerAscii(s);
    assert forall i :: 0 <= i < |t| ==> !('A' <= t[i] <= 'Z');
  }

  /** Every level `calculateEvidenceStrength` produces is shown as that level. */
  lemma ComputedStrengthDisplayed(evidences: Option<Json>)
    requires HccCandidatesService.CalculateEvidenceStrength(evidences).Ok?
    ensures var s := HccCandidatesService.CalculateEvidenceStrength(evidences).value;
      EvidenceStrengthStyle(Some(Str(s))) ==
        Ok(if s == "strong" then StrongStyle else if s == "moderate" then ModerateStyle else LowStyle)
  {
    var s := HccCandidatesService.CalculateEvidenceStrength(evidences).value;
    LevelIsLowercase(s);
    LevelDisplayed(s);
  }

  lemma LevelIsLowercase(s: string)
    requires s == "strong" || s == "moderate" || s == "low"
    ensures forall i :: 0 <= i < |s| ==> !('A' <= s[i] <= 'Z')
  {
    if s == "strong" {
      assert s == ['s', 't', 'r', 'o', 'n', 'g'];
    } else if s == "moderate" {
      assert s == ['m', 'o', 'd', 'e', 'r', 'a', 't', 'e'];
    } else {
      assert s == ['l', 'o', 'w'];
    }
  }

  lemma LevelDisplayed(s: string)
    requires s == "strong" || s == "moderate" || s == "low"
    requires forall i :: 0 <= i < |s| ==> !('A' <= s[i] <= 'Z')
    ensures EvidenceStrengthStyle(Some(Str(s))) ==
      Ok(if s == "strong" then StrongStyle else if s == "moderate" then ModerateStyle else LowStyle)
  {
    LowerOfLowercase(s);
    assert ToLowerAscii(s) == s;
  }

  /** Lower-casing leaves a string without upper-case letters unchanged. */
  lemma LowerOfLowercase(s: string)
    requires forall i :: 0 <= i < |s| ==> !('A' <= s[i] <= 'Z')
    ensures ToLowerAscii(s) == s
  {
  }

  /** An evidence item the service counts as strong (or moderate) gets the
      Strong (or Moderate) badge in the evidence list. */
  lemma ItemBadgeAgreesWithService(e: Json)
    ensures HccCandidatesService.IsStrong(e) ==> EvidenceStrengthStyle(Get(e, "confidence_level")) == Ok(StrongStyle)
    ensures HccCandidatesService.IsModerate(e) ==> EvidenceStrengthStyle(Get(e, "confidence_level")) == Ok(ModerateStyle)
  {
    var level := GetString(e, "confidence_level");
    if level.Some? && (HccCandidatesService.IsStrong(e) || HccCandidatesService.IsModerate(e)) {
      LowerOfLowercase(level.value);
    }
  }

  /** The converse fails: the card is case-insensitive and the service is
      not, so a single item labelled "High" shows a Strong badge inside a
      group the service rates "low". */
  lemma CaseSensitivityGap()
    ensures var item := Obj([Field("confidence_level", Str("High"))]);
      && EvidenceStrengthStyle(Get(item, "confidence_level")) == Ok(StrongStyle)
      && HccCandidatesService.CalculateEvidenceStrength(Some(Arr([item]))) == Ok("low")
  {
    var item := Obj([Field("confidence_level", Str("High"))]);
    assert ToLowerAscii("High") == "high";
    assert !HccCandidatesService.IsStrong(item) && !HccCandidatesService.IsModerate(item);
    assert HccCandidatesService.EvidenceItems(Some(Arr([item]))) == [item];
  }

  /** `parseEvidences()`: `[]` when `hcc_evidence` is falsy or does not parse,
      otherwise whatever `JSON.parse` makes of its string value. */
  function ParseEvidences(hccEvidence: Option<Json>, parse: string -> Result<Json>): (evidences: Json)
    ensures !Present(hccEvidence) ==> evidences == Arr([])
    ensures Present(hccEvidence) && parse(ValueString(hccEvidence.value)).Err? ==> evidences == Arr([])
    ensures Present(hccEvidence) && parse(ValueString(hccEvidence.value)).Ok? ==>
      evidences == parse(ValueString(hccEvidence.value)).value
  {
    if !Present(hccEvidence) then Arr([])
    else
      match parse(ValueString(hccEvidence.value))
      case Ok(j) => j
      case Err(_) => Arr([])
  }

  /** The evidence list a legacy entry serialises into `hcc_evidence` is
      read back unchanged by a card, for a parser that inverts `JSON.stringify`. */
  lemma LegacyEvidenceRoundTrip(group: Json, createdAt: string, updatedAt: string, parse: string -> Result<Json>)
    requires HccCandidatesService.LegacyEntryOf(group, createdAt, updatedAt).Ok?
    requires forall j :: parse(Web.Stringify(j)) == Ok(j)
    ensures ParseEvidences(Some(Str(HccCandidatesService.LegacyEntryOf(group, createdAt, updatedAt).value.hccEvidence)), parse)
      == JsonOr(Get(group, "evidences"), Arr([]))
  {
    var evidences := JsonOr(Get(group, "evidences"), Arr([]));
    assert parse(Web.Stringify(evidences)) == Ok(evidences);
  }

  /** The Accept and Reject buttons are shown when the status is "pending",
      "active" or falsy. */
  predicate ShowActions(status: Option<Json>) {
    status == Some(Str("pending")) || status == Some(Str("active")) || !Present(status)
  }

  /** The actions are only ever offered on a card whose badge reads "Pending". */
  lemma ActionsOnlyOnPending(status: Option<Json>)
    requires ShowActions(status)
    ensures StatusText(status) == "Pending" && StatusColor(status) == Amber
  {
  }

  /** A "Pending" badge does not imply the actions: a "candidate" card has neither. */
  lemma PendingWithoutActions()
    ensures StatusText(Some(Str("candidate"))) == "Pending" && !ShowActions(Some(Str("candidate")))
  {
  }

  /** The Reject confirm button is disabled while no reason is selected. */
  predicate RejectConfirmDisabled(rejectionReason: string) {
    rejectionReason == ""
  }

  /** A confirmed rejection therefore always sends a non-empty reason. */
  lemma ConfirmedRejectionHasReason(base: string, id: Json, reason: string, notes: string, token: Option<string>)
    requires !RejectConfirmDisabled(reason)
    ensures var c := HccRiskService.RejectCall(base, id, Some(reason), Some(notes), token);
      Services.BodyField(c, "rejection_reason") == Some(Str(reason)) && reason != ""
  {
  }
}
