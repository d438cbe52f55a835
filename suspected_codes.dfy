/** `SuspectedCodes.jsx`: the suspected-code panel loads the patient's
    candidate groups for the current year, puts gap groups last and orders
    each class by HCC code, pre-checks the evidences already approved,
    accepted or kept as candidates, and reports failures with a toast
    unless the backend's own "not found" message is the cause. */
module SuspectedCodes {
  import opened Js
  import opened Text
  import opened Web
  import Services
  import HccCandidatesService
  import Sorting

  const IncludeStatus := ["pending", "candidate", "rejected"]
  const LoadFailureToast := "Failed to load HCC risk adjustments"
  const QuietFailure := "Failed to fetch HCC candidates"

  // ---------------------------------------------------------------------
  // The group order

  predicate IsGap(group: Json) {
    Get(group, "type") == Some(Str("gap"))
  }

  /** The group has a string `hcc_code`, so `localeCompare` can be called on it. */
  predicate HasCode(group: Json) {
    GetString(group, "hcc_code").Some?
  }

  function CodeOf(group: Json): string {
    GetString(group, "hcc_code").GetOr("")
  }

  /** The comparator: a gap goes after a non-gap, and groups of the same
      class follow `localeCompare` of their codes, given as `localeLe`. */
  function GroupLe(localeLe: (string, string) -> bool): (Json, Json) -> bool {
    (a: Json, b: Json) => if IsGap(a) != IsGap(b) then !IsGap(a) else localeLe(CodeOf(a), CodeOf(b))
  }

  /** A consistent locale order gives a consistent comparator. */
  lemma GroupLeIsTotalPreorder(localeLe: (string, string) -> bool)
    requires Sorting.TotalPreorder(localeLe)
    ensures Sorting.TotalPreorder(GroupLe(localeLe))
  {
    var le := GroupLe(localeLe);
    forall a: Json, b: Json
      ensures le(a, b) || le(b, a)
    {
      assert localeLe(CodeOf(a), CodeOf(b)) || localeLe(CodeOf(b), CodeOf(a));
    }
    forall a: Json, b: Json, c: Json | le(a, b) && le(b, c)
      ensures le(a, c)
    {
      if IsGap(a) == IsGap(b) && IsGap(b) == IsGap(c) {
        assert localeLe(CodeOf(a), CodeOf(b)) && localeLe(CodeOf(b), CodeOf(c));
      }
    }
  }

  /** A group without a string code that is in the same class as another
      group: the comparator reaches `localeCompare` with it. */
  predicate Clashes(groups: seq<Json>, i: int)
    requires 0 <= i < |groups|
  {
    && !groups[i].Null? && !HasCode(groups[i])
    && exists j :: 0 <= j < |groups| && j != i && IsGap(groups[j]) == IsGap(groups[i])
  }

  /** The TypeError of `a.hcc_code.localeCompare(…)` for a code that is not a string. */
  function CodeError(code: Option<Json>): JsError {
    match code
    case None => UndefinedPropertyError("localeCompare")
    case Some(Null) => NullPropertyError("localeCompare")
    case Some(_) => NotAFunctionError("a.hcc_code.localeCompare")
  }

  /** The first clashing group at or after `i`. */
  function FirstClash(groups: seq<Json>, i: nat): (k: Option<nat>)
    requires i <= |groups|
    ensures k.Some? ==> i <= k.value < |groups| && Clashes(groups, k.value)
    ensures k.Some? ==> forall j :: i <= j < k.value ==> !Clashes(groups, j)
    ensures k.None? ==> forall j :: i <= j < |groups| ==> !Clashes(groups, j)
    decreases |groups| - i
  {
    if i == |groups| then None
    else if Clashes(groups, i) then Some(i)
    else FirstClash(groups, i + 1)
  }

  /** `hierarchicalData.sort(comparator)`.  With two or more groups every
      group is compared, so a `null` group throws when its `type` is read;
      a group without a string code throws in `localeCompare` once it is
      compared with a group of its own class.  Otherwise the result is the
      stable sort by the comparator. */
  function SortGroups(groups: seq<Json>, localeLe: (string, string) -> bool): (r: Result<seq<Json>>)
    requires Sorting.TotalPreorder(localeLe)
    ensures r.Err? <==>
      || (|groups| >= 2 && exists i :: 0 <= i < |groups| && groups[i].Null?)
      || exists i :: 0 <= i < |groups| && Clashes(groups, i)
    ensures r.Err? && |groups| >= 2 && (exists i :: 0 <= i < |groups| && groups[i].Null?) ==>
      r.error == NullPropertyError("type")
    ensures r.Err? && !(exists i :: 0 <= i < |groups| && groups[i].Null?) ==>
      exists k :: 0 <= k < |groups| && Clashes(groups, k) && r.error == CodeError(Get(groups[k], "hcc_code"))
    ensures r.Ok? ==> multiset(r.value) == multiset(groups)
    ensures r.Ok? ==> forall i, j :: 0 <= i < j < |r.value| && IsGap(r.value[i]) ==> IsGap(r.value[j])
    ensures r.Ok? ==> forall i, j :: 0 <= i < j < |r.value| && IsGap(r.value[i]) == IsGap(r.value[j]) ==>
      localeLe(CodeOf(r.value[i]), CodeOf(r.value[j]))
    ensures r.Ok? ==> forall c :: Sorting.Ties(r.value, c, GroupLe(localeLe)) == Sorting.Ties(groups, c, GroupLe(localeLe))
  {
    if |groups| >= 2 && exists i :: 0 <= i < |groups| && groups[i].Null? then
      Err(NullPropertyError("type"))
    else
      match FirstClash(groups, 0)
      case Some(k) => Err(CodeError(Get(groups[k], "hcc_code")))
      case None =>
        GroupLeIsTotalPreorder(localeLe);
        var sorted := Sorting.Sort(groups, GroupLe(localeLe));
        assert forall i, j :: 0 <= i < j < |sorted| ==> GroupLe(localeLe)(sorted[i], sorted[j]);
        forall c ensures Sorting.Ties(sorted, c, GroupLe(localeLe)) == Sorting.Ties(groups, c, GroupLe(localeLe)) {
          Sorting.SortIsStable(groups, c, GroupLe(localeLe));
        }
        Ok(sorted)
  }

  /** A group without a code that is alone in its class is never handed to
      `localeCompare`, so the sort goes through. */
  lemma LoneCodelessGroupSorts(localeLe: (string, string) -> bool)
    requires Sorting.TotalPreorder(localeLe)
    ensures var suspect := Obj([Field("type", Str("suspect"))]);
      var gap := Obj([Field("type", Str("gap")), Field("hcc_code", Str("HCC18"))]);
      SortGroups([gap, suspect], localeLe) == Ok([suspect, gap])
  {
    var suspect := Obj([Field("type", Str("suspect"))]);
    var gap := Obj([Field("type", Str("gap")), Field("hcc_code", Str("HCC18"))]);
    assert IsGap(gap) && !IsGap(suspect);
    var groups := [gap, suspect];
    assert !Clashes(groups, 0) && !Clashes(groups, 1);
    SortGroupsOk(groups, localeLe);
    GroupLeIsTotalPreorder(localeLe);
    assert !GroupLe(localeLe)(gap, suspect);
    Sorting.SortSwapsPair(gap, suspect, GroupLe(localeLe));
  }

  /** Without a `null` group and a clash, the sort is the comparator's stable sort. */
  lemma SortGroupsOk(groups: seq<Json>, localeLe: (string, string) -> bool)
    requires Sorting.TotalPreorder(localeLe)
    requires forall i :: 0 <= i < |groups| ==> !groups[i].Null? && !Clashes(groups, i)
    ensures Sorting.TotalPreorder(GroupLe(localeLe))
    ensures SortGroups(groups, localeLe) == Ok(Sorting.Sort(groups, GroupLe(localeLe)))
  {
    GroupLeIsTotalPreorder(localeLe);
    assert FirstClash(groups, 0).None?;
  }

  // ---------------------------------------------------------------------
  // The pre-checked evidence ids

  predicate IsChecked(evidence: Json) {
    var status := Get(evidence, "status");
    status == Some(Str("approved")) || status == Some(Str("accepted")) || status == Some(Str("candidate"))
  }

  /** The ids of the checked evidences among `items`. */
  function EvidenceIds(items: seq<Json>): set<Option<Json>> {
    if |items| == 0 then {}
    else
      var last := items[|items| - 1];
      EvidenceIds(items[..|items| - 1]) + (if IsChecked(last) then {Get(last, "id")} else {})
  }

  /** An id is collected exactly when some checked evidence carries it. */
  lemma {:induction false} EvidenceIdsMembers(items: seq<Json>, id: Option<Json>)
    ensures id in EvidenceIds(items) <==> exists j :: 0 <= j < |items| && IsChecked(items[j]) && Get(items[j], "id") == id
  {
    if |items| > 0 {
      var front := items[..|items| - 1];
      EvidenceIdsMembers(front, id);
      assert forall j :: 0 <= j < |front| ==> front[j] == items[j];
    }
  }

  /** Why `hccGroup.evidences.forEach(...)` cannot start for this group, if it cannot. */
  function ListFailure(group: Json): (e: Option<JsError>)
    ensures e.None? <==> !group.Null? && Get(group, "evidences").Some? && Get(group, "evidences").value.Arr?
  {
    if group.Null? then Some(NullPropertyError("evidences"))
    else
      match Get(group, "evidences")
      case None => Some(UndefinedPropertyError("forEach"))
      case Some(Null) => Some(NullPropertyError("forEach"))
      case Some(Arr(_)) => None
      case Some(_) => Some(NotAFunctionError("hccGroup.evidences.forEach"))
  }

  /** The evidence list of a group whose `forEach` can start. */
  function ItemsOf(group: Json): seq<Json> {
    if Get(group, "evidences").Some? && Get(group, "evidences").value.Arr? then Get(group, "evidences").value.items else []
  }

  /** The inner `forEach`: a `null` evidence throws when its status is read. */
  function AddIds(ids: set<Option<Json>>, items: seq<Json>): (r: Result<set<Option<Json>>>)
    ensures r.Err? <==> exists j :: 0 <= j < |items| && items[j].Null?
    ensures r.Err? ==> r.error == NullPropertyError("status")
    ensures r.Ok? ==> r.value == ids + EvidenceIds(items)
  {
    if exists j :: 0 <= j < |items| && items[j].Null? then Err(NullPropertyError("status"))
    else Ok(ids + EvidenceIds(items))
  }

  /** The nested `forEach` over the sorted groups, stopped by the first
      group or evidence that throws. */
  function CollectIds(groups: seq<Json>): Result<set<Option<Json>>> {
    if |groups| == 0 then Ok({})
    else
      match CollectIds(groups[..|groups| - 1])
      case Err(e) => Err(e)
      case Ok(ids) =>
        var group := groups[|groups| - 1];
        match ListFailure(group)
        case Some(e) => Err(e)
        case None => AddIds(ids, ItemsOf(group))
  }

  /** The group's evidence list can be walked: it is an array without `null` entries. */
  predicate Walkable(group: Json) {
    ListFailure(group).None? && forall j :: 0 <= j < |ItemsOf(group)| ==> !ItemsOf(group)[j].Null?
  }

  /** Collection succeeds exactly when every group has an evidence list
      without `null` entries. */
  lemma {:induction false} CollectIdsSucceeds(groups: seq<Json>)
    ensures CollectIds(groups).Ok? <==> forall i :: 0 <= i < |groups| ==> Walkable(groups[i])
  {
    if |groups| > 0 {
      var front := groups[..|groups| - 1];
      var last := groups[|groups| - 1];
      CollectIdsSucceeds(front);
      CollectIdsOkLast(groups);
      assert groups == front + [last];
      EverySplit(groups, front, last, g => Walkable(g));
    }
  }

  /** Collecting several groups succeeds exactly when collecting all but the
      last succeeds and the last can be walked. */
  lemma CollectIdsOkLast(groups: seq<Json>)
    requires |groups| > 0
    ensures CollectIds(groups).Ok? <==> CollectIds(groups[..|groups| - 1]).Ok? && Walkable(groups[|groups| - 1])
  {
  }

  /** Every element of `front + [last]` satisfies `p` exactly when every
      element of `front` does and `last` does. */
  lemma EverySplit<T>(s: seq<T>, front: seq<T>, last: T, p: T -> bool)
    requires s == front + [last]
    ensures (forall i :: 0 <= i < |s| ==> p(s[i])) <==> (forall i :: 0 <= i < |front| ==> p(front[i])) && p(last)
  {
    if forall i :: 0 <= i < |s| ==> p(s[i]) {
      assert p(s[|front|]);
      forall i | 0 <= i < |front|
        ensures p(front[i])
      {
        assert front[i] == s[i];
      }
    }
    if (forall i :: 0 <= i < |front| ==> p(front[i])) && p(last) {
      forall i | 0 <= i < |s|
        ensures p(s[i])
      {
        if i < |front| {
          assert s[i] == front[i];
        }
      }
    }
  }

  /** Some checked evidence of `group` carries `id`. */
  predicate CarriedBy(group: Json, id: Option<Json>) {
    exists j :: 0 <= j < |ItemsOf(group)| && IsChecked(ItemsOf(group)[j]) && Get(ItemsOf(group)[j], "id") == id
  }

  /** Some checked evidence of some group carries `id`. */
  predicate Carried(groups: seq<Json>, id: Option<Json>) {
    exists i :: 0 <= i < |groups| && CarriedBy(groups[i], id)
  }

  /** A successful collection holds exactly the ids of the checked evidences of all groups. */
  lemma {:induction false} CollectIdsMembers(groups: seq<Json>, id: Option<Json>)
    requires CollectIds(groups).Ok?
    ensures id in CollectIds(groups).value <==> Carried(groups, id)
  {
    if |groups| > 0 {
      var front := groups[..|groups| - 1];
      var last := groups[|groups| - 1];
      CollectIdsLast(groups);
      CollectIdsMembers(front, id);
      EvidenceIdsMembers(ItemsOf(last), id);
      CarriedSplit(groups, id);
    }
  }

  /** An id is carried by the groups exactly when it is carried by all but the
      last or by the last. */
  lemma CarriedSplit(groups: seq<Json>, id: Option<Json>)
    requires |groups| > 0
    ensures Carried(groups, id) <==> Carried(groups[..|groups| - 1], id) || CarriedBy(groups[|groups| - 1], id)
  {
    var carries := g => CarriedBy(g, id);
    var front := groups[..|groups| - 1];
    assert groups == front + [groups[|groups| - 1]];
    SomeSplit(groups, front, groups[|groups| - 1], carries);
  }

  /** Some element of `front + [last]` satisfies `p` exactly when some element
      of `front` does or `last` does. */
  lemma SomeSplit<T>(s: seq<T>, front: seq<T>, last: T, p: T -> bool)
    requires s == front + [last]
    ensures (exists i :: 0 <= i < |s| && p(s[i])) <==> (exists i :: 0 <= i < |front| && p(front[i])) || p(last)
  {
    if exists i :: 0 <= i < |s| && p(s[i]) {
      var i :| 0 <= i < |s| && p(s[i]);
      if i < |front| {
        assert p(front[i]);
      }
    }
    if exists i :: 0 <= i < |front| && p(front[i]) {
      var i :| 0 <= i < |front| && p(front[i]);
      assert p(s[i]);
    }
    if p(last) {
      assert p(s[|front|]);
    }
  }

  /** A successful collection of several groups is the collection of all but
      the last, plus the last group's checked ids. */
  lemma CollectIdsLast(groups: seq<Json>)
    requires |groups| > 0 && CollectIds(groups).Ok?
    ensures CollectIds(groups[..|groups| - 1]).Ok?
    ensures CollectIds(groups).value == CollectIds(groups[..|groups| - 1]).value + EvidenceIds(ItemsOf(groups[|groups| - 1]))
  {
  }

  /** The nested loop that fills `approvedEvidenceIds`. */
  method CollectCheckedIds(groups: seq<Json>) returns (r: Result<set<Option<Json>>>)
    ensures r == CollectIds(groups)
  {
    var ids: set<Option<Json>> := {};
    var i := 0;
    while i < |groups|
      invariant 0 <= i <= |groups|
      invariant CollectIds(groups[..i]) == Ok(ids)
    {
      assert groups[..i + 1][..i] == groups[..i];
      var failure := ListFailure(groups[i]);
      if failure.Some? {
        CollectIdsStops(groups, i + 1);
        return Err(failure.value);
      }
      var added := AddEvidenceIds(ids, ItemsOf(groups[i]));
      if added.Err? {
        CollectIdsStops(groups, i + 1);
        return added;
      }
      ids := added.value;
      i := i + 1;
    }
    assert groups[..i] == groups;
    r := Ok(ids);
  }

  /** The inner loop over one group's evidences. */
  method AddEvidenceIds(ids: set<Option<Json>>, items: seq<Json>) returns (r: Result<set<Option<Json>>>)
    ensures r == AddIds(ids, items)
  {
    var acc := ids;
    var j := 0;
    while j < |items|
      invariant 0 <= j <= |items|
      invariant forall k :: 0 <= k < j ==> !items[k].Null?
      invariant acc == ids + EvidenceIds(items[..j])
    {
      var evidence := items[j];
      if evidence.Null? {
        return Err(NullPropertyError("status"));
      }
      assert items[..j + 1][..j] == items[..j];
      if IsChecked(evidence) {
        acc := acc + {Get(evidence, "id")};
      }
      j := j + 1;
    }
    assert items[..j] == items;
    r := Ok(acc);
  }

  /** Once a prefix fails, the whole collection fails with the same error. */
  lemma {:induction false} CollectIdsStops(groups: seq<Json>, n: nat)
    requires n <= |groups| && CollectIds(groups[..n]).Err?
    ensures CollectIds(groups) == CollectIds(groups[..n])
    decreases |groups| - n
  {
    if n < |groups| {
      assert groups[..n + 1][..n] == groups[..n];
      CollectIdsStops(groups, n + 1);
    } else {
      assert groups[..n] == groups;
    }
  }

  // ---------------------------------------------------------------------
  // fetchHccRisks

  /** The panel's state; card and evidence ids are whatever values the backend sends. */
  datatype PanelState = PanelState(
    hccData: seq<Json>,
    checkedEvidenceIds: set<Option<Json>>,
    collapsedCards: set<Option<Json>>,
    toasts: seq<string>)

  /** The `catch` block: the list is emptied, and the toast is skipped when
      the message mentions the backend's own failure message. */
  function Fail(s: PanelState, e: JsError): (s': PanelState)
    ensures s'.hccData == [] && s'.checkedEvidenceIds == s.checkedEvidenceIds && s'.collapsedCards == s.collapsedCards
    ensures Contains(e.message, QuietFailure) ==> s'.toasts == s.toasts
    ensures !Contains(e.message, QuietFailure) ==> s'.toasts == s.toasts + [LoadFailureToast]
  {
    s.(hccData := [], toasts := if Contains(e.message, QuietFailure) then s.toasts else s.toasts + [LoadFailureToast])
  }

  /** What a successful answer does to the panel. */
  function Apply(response: Json, localeLe: (string, string) -> bool, s: PanelState): PanelState
    requires Sorting.TotalPreorder(localeLe)
  {
    if JsonTruthy(response) && Present(Get(response, "hcc_groups")) then
      var hierarchicalData := Get(response, "hcc_groups").value;
      if !hierarchicalData.Arr? then Fail(s, NotAFunctionError("hierarchicalData.sort"))
      else
        match SortGroups(hierarchicalData.items, localeLe)
        case Err(e) => Fail(s, e)
        case Ok(sortedData) =>
          match CollectIds(sortedData)
          case Err(e) => Fail(s, e)
          case Ok(ids) => s.(hccData := sortedData, checkedEvidenceIds := ids, collapsedCards := {})
    else s.(hccData := [])
  }

  /** `getHccCandidatesByPatient(patientId, currentYear, 100, 0, includeStatus)` with the token it reads. */
  function CandidatesBuild(base: string, patientId: Json, currentYear: int): Option<string> -> Services.ServiceCall {
    t => HccCandidatesService.ByPatientCall(base, patientId, Some(Str(IntToString(currentYear))), Some(100), Some(0), Some(IncludeStatus), t)
  }

  /** `fetchHccRisks()` on the browser state `w`; `currentYear` is
      `new Date().getFullYear()` and `localeLe` the locale's order. */
  function FetchFlow(server: Server, w: World, base: string, patientId: Json, currentYear: int,
                     localeLe: (string, string) -> bool, s: PanelState): (PanelState, World)
    requires Sorting.TotalPreorder(localeLe)
  {
    var (r, w1) := Services.Perform(server, w, CandidatesBuild(base, patientId, currentYear));
    (Settle(r, localeLe, s), w1)
  }

  /** How the panel ends up once the service call has settled. */
  function Settle(r: Result<Json>, localeLe: (string, string) -> bool, s: PanelState): PanelState
    requires Sorting.TotalPreorder(localeLe)
  {
    match r
    case Err(e) => Fail(s, e)
    case Ok(response) => Apply(response, localeLe, s)
  }

  class Panel {
    const base: string
    const localeLe: (string, string) -> bool
    var hccData: seq<Json>
    var isSuspectLoading: bool
    var checkedEvidenceIds: set<Option<Json>>
    var collapsedCards: set<Option<Json>>
    var toasts: seq<string>

    function State(): PanelState
      reads this
    {
      PanelState(hccData, checkedEvidenceIds, collapsedCards, toasts)
    }

    constructor (base: string, localeLe: (string, string) -> bool)
      ensures this.base == base && this.localeLe == localeLe
      ensures State() == PanelState([], {}, {}, []) && !isSuspectLoading
    {
      this.base := base;
      this.localeLe := localeLe;
      hccData := [];
      isSuspectLoading := false;
      checkedEvidenceIds := {};
      collapsedCards := {};
      toasts := [];
    }

    method FetchHccRisks(b: Browser, patientId: Json, currentYear: int)
      requires Sorting.TotalPreorder(localeLe)
      modifies this, b
      ensures (State(), b.State()) == FetchFlow(b.server, old(b.State()), base, patientId, currentYear, localeLe, old(State()))
      ensures !isSuspectLoading
    {
      isSuspectLoading := true;
      var candidatesResponse := Services.Send(b, CandidatesBuild(base, patientId, currentYear));
      Handle(candidatesResponse);
      isSuspectLoading := false;
    }

    method Handle(candidatesResponse: Result<Json>)
      requires Sorting.TotalPreorder(localeLe)
      modifies this
      ensures State() == Settle(candidatesResponse, localeLe, old(State()))
    {
      match candidatesResponse {
        case Err(e) => Catch(e);
        case Ok(response) => Load(response);
      }
    }

    /** The body of the `try` after the answer arrived. */
    method Load(response: Json)
      requires Sorting.TotalPreorder(localeLe)
      modifies this
      ensures State() == Apply(response, localeLe, old(State()))
      ensures isSuspectLoading == old(isSuspectLoading)
    {
      if JsonTruthy(response) && Present(Get(response, "hcc_groups")) {
        var hierarchicalData := Get(response, "hcc_groups").value;
        if !hierarchicalData.Arr? {
          Catch(NotAFunctionError("hierarchicalData.sort"));
          return;
        }
        var sorted := SortGroups(hierarchicalData.items, localeLe);
        if sorted.Err? {
          Catch(sorted.error);
          return;
        }
        hccData := sorted.value;
        var approvedEvidenceIds := CollectCheckedIds(sorted.value);
        match approvedEvidenceIds {
          case Err(e) => Catch(e);
          case Ok(ids) =>
            checkedEvidenceIds := ids;
            collapsedCards := {};
        }
      } else {
        hccData := [];
      }
    }

    method Catch(e: JsError)
      modifies this
      ensures State() == Fail(old(State()), e)
      ensures isSuspectLoading == old(isSuspectLoading)
    {
      if !Contains(e.message, QuietFailure) {
        toasts := toasts + [LoadFailureToast];
      }
      hccData := [];
    }
  }

  // ---------------------------------------------------------------------
  // Properties

  /** The panel asks for this year's pending, candidate and rejected groups, 100 from the start. */
  lemma RequestedStatuses(base: string, patientId: Json, currentYear: int, token: Option<string>)
    ensures var body := CandidatesBuild(base, patientId, currentYear)(token).request.body.value;
      && Get(body, "include_status") == Some(Arr([Str("pending"), Str("candidate"), Str("rejected")]))
      && Get(body, "period") == Some(Str(IntToString(currentYear)))
      && Get(body, "limit") == Some(Num(100)) && Get(body, "offset") == Some(Num(0))
  {
    var period := Some(Str(IntToString(currentYear)));
    var body := HccCandidatesService.ByPatientBody(patientId, period, Some(100), Some(0), Some(IncludeStatus));
    assert CandidatesBuild(base, patientId, currentYear)(token).request.body.value == body;
    StatusesRequested();
    assert Get(body, "include_status") == HccCandidatesService.StatusFilter(Some(IncludeStatus));
    assert Get(body, "period") == HccCandidatesService.PeriodValue(period);
    assert Present(period);
    assert Get(body, "limit") == Some(Num(100));
    assert Get(body, "offset") == Some(Num(0));
  }

  /** The status filter of the panel's request lists the three statuses in order. */
  lemma StatusesRequested()
    ensures HccCandidatesService.StatusFilter(Some(IncludeStatus)) == Some(Arr([Str("pending"), Str("candidate"), Str("rejected")]))
  {
    var filter := HccCandidatesService.StatusFilter(Some(IncludeStatus));
    assert filter.value.items == [Str("pending"), Str("candidate"), Str("rejected")];
  }

  /** A loaded answer shows its groups in sorted order, pre-checks exactly
      the checked evidences' ids, and expands every card. */
  lemma LoadedPanel(response: Json, localeLe: (string, string) -> bool, s: PanelState, id: Option<Json>)
    requires Sorting.TotalPreorder(localeLe)
    requires JsonTruthy(response) && Present(Get(response, "hcc_groups")) && Get(response, "hcc_groups").value.Arr?
    requires SortGroups(Get(response, "hcc_groups").value.items, localeLe).Ok?
    requires CollectIds(SortGroups(Get(response, "hcc_groups").value.items, localeLe).value).Ok?
    ensures var groups := Get(response, "hcc_groups").value.items;
      var s' := Apply(response, localeLe, s);
      && multiset(s'.hccData) == multiset(groups)
      && (forall i, j :: 0 <= i < j < |s'.hccData| && IsGap(s'.hccData[i]) ==> IsGap(s'.hccData[j]))
      && s'.collapsedCards == {} && s'.toasts == s.toasts
      && (id in s'.checkedEvidenceIds <==> Carried(s'.hccData, id))
  {
    var sorted := SortGroups(Get(response, "hcc_groups").value.items, localeLe).value;
    CollectIdsMembers(sorted, id);
  }

  /** An answer without groups empties the list and keeps the other state. */
  lemma NoGroupsEmpties(response: Json, localeLe: (string, string) -> bool, s: PanelState)
    requires Sorting.TotalPreorder(localeLe)
    requires !JsonTruthy(response) || !Present(Get(response, "hcc_groups"))
    ensures Apply(response, localeLe, s) == s.(hccData := [])
  {
  }

  /** Every failure empties the list; the toast appears unless the message
      mentions "Failed to fetch HCC candidates". */
  lemma FailureEmpties(server: Server, w: World, base: string, patientId: Json, currentYear: int,
                       localeLe: (string, string) -> bool, s: PanelState)
    requires Sorting.TotalPreorder(localeLe)
    requires Services.Perform(server, w, CandidatesBuild(base, patientId, currentYear)).0.Err?
    ensures var e := Services.Perform(server, w, CandidatesBuild(base, patientId, currentYear)).0.error;
      var s' := FetchFlow(server, w, base, patientId, currentYear, localeLe, s).0;
      && s'.hccData == [] && s'.checkedEvidenceIds == s.checkedEvidenceIds
      && (s'.toasts == s.toasts <==> Contains(e.message, QuietFailure))
  {
  }

  /** A non-OK answer whose body carries no message fails with the service's
      own message, so no toast is shown. */
  lemma SilentWhenBackendSaysNothing(resp: Response, s: PanelState)
    requires !resp.Ok() && (resp.body.parsed.Err? || (!resp.body.parsed.value.Null? && !Present(Get(resp.body.parsed.value, "message"))))
    ensures var e := Services.FailureError(Services.BodyMessage(HccCandidatesService.CandidatesFailure), resp);
      Fail(s, e).toasts == s.toasts
  {
    var e := Services.FailureError(Services.BodyMessage(HccCandidatesService.CandidatesFailure), resp);
    assert e.message == QuietFailure;
    assert OccursAt(e.message, QuietFailure, 0);
  }
}
