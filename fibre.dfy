/** The fibre production session: scan the sorted packs that go into the shredder, scan and
    weigh each fibre pack that comes out, preview the packs with the attributes they inherit
    from their sources, then save them one after another. */
module FibreView {
  import opened Seqs
  import opened Strings
  import opened Types
  import Api

  /** One fibre pack of the session with its weight as typed, in grams. */
  datatype FibreDetail = FibreDetail(id: string, weightGrams: string)

  /** A fibre pack as previewed before saving, with two display-only fields. */
  datatype SummaryPack = SummaryPack(pack: FibrePack, sortingSession: string, fromBatches: string)

  function PackIds(packs: seq<SortedPack>): seq<string> {
    Map(packs, (p: SortedPack) => p.base.id)
  }

  function DetailIds(details: seq<FibreDetail>): seq<string> {
    Map(details, (d: FibreDetail) => d.id)
  }

  // ------------------------------------------------------------ derivation

  /** `availableSortedPacks.filter(p => scannedSortedIds.includes(p.id))`. */
  function ParentPacks(available: seq<SortedPack>, scanned: seq<string>): (r: seq<SortedPack>)
    ensures forall k :: 0 <= k < |r| ==> r[k] in available && r[k].base.id in scanned
    ensures forall j :: 0 <= j < |available| && available[j].base.id in scanned ==> available[j] in r
    ensures IsSubseq(r, available)
    ensures forall p :: multiset(r)[p] == if p.base.id in scanned then multiset(available)[p] else 0
  {
    var keep := (p: SortedPack) => p.base.id in scanned;
    FilterIsSubseq(available, keep);
    assert forall p :: multiset(Filter(available, keep))[p] == if p.base.id in scanned then multiset(available)[p] else 0 by {
      forall p ensures multiset(Filter(available, keep))[p] == if p.base.id in scanned then multiset(available)[p] else 0 {
        FilterMultiplicity(available, keep, p);
      }
    }
    Filter(available, keep)
  }

  /** `xs.length === 1 ? xs[0] : fallback` over `xs = [...new Set(values)]`: the value
      when every entry agrees, otherwise the fallback (also for no entries). */
  function UniformOr(values: seq<string>, fallback: string): (r: string)
    ensures r == if values != [] && (forall i :: 0 <= i < |values| ==> values[i] == values[0])
                 then values[0] else fallback
  {
    var d := Distinct(values);
    DistinctSingleton(values);
    if |d| == 1 then DistinctHead(values); d[0] else fallback
  }

  function Brands(parents: seq<SortedPack>): seq<string> {
    Distinct(Map(parents, (p: SortedPack) => p.brand))
  }

  function DerivedMaterial(parents: seq<SortedPack>): string {
    UniformOr(Map(parents, (p: SortedPack) => p.material), "Blend")
  }

  function DerivedColor(parents: seq<SortedPack>): string {
    UniformOr(Map(parents, (p: SortedPack) => p.color), "Mixed")
  }

  /** The parents' inbound batch ids, each once, in first-appearance order. */
  function InboundIds(parents: seq<SortedPack>): seq<string> {
    Distinct(Map(parents, (p: SortedPack) => p.parentInboundId))
  }

  /** `parentInboundIds[0] || 'N/A'`: the first pack's batch, unless there is no pack or that
      id is the empty string. */
  function SortingSession(parents: seq<SortedPack>): (r: string)
    ensures r == if parents != [] && parents[0].parentInboundId != "" then parents[0].parentInboundId else "N/A"
  {
    var ids := InboundIds(parents);
    if parents != [] then
      DistinctHead(Map(parents, (p: SortedPack) => p.parentInboundId));
      if ids[0] != "" then ids[0] else "N/A"
    else "N/A"
  }

  /** `parentInboundIds.join(', ')`. */
  function FromBatches(parents: seq<SortedPack>): string {
    Join(InboundIds(parents), ", ")
  }

  /** The `finalPacks` preview of `handleProceedToSummary`: one record per weighed fibre pack,
      in the order they were weighed; each keeps its id, takes the scanned source list,
      converts grams to kilograms, and all share the attributes derived from the parents. */
  function Summarize(parents: seq<SortedPack>, scanned: seq<string>, detailed: seq<FibreDetail>,
                     parse: string -> real, nowIso: string): (r: seq<SummaryPack>)
    ensures |r| == |detailed|
    ensures forall i :: 0 <= i < |detailed| ==>
      r[i].pack.base.id == detailed[i].id && r[i].pack.parentSortedIds == scanned &&
      r[i].pack.weightKg == parse(detailed[i].weightGrams) / 1000.0 &&
      r[i].pack.brands == Brands(parents) && r[i].pack.material == DerivedMaterial(parents) &&
      r[i].pack.color == DerivedColor(parents) &&
      r[i].sortingSession == SortingSession(parents) && r[i].fromBatches == FromBatches(parents)
  {
    var brands := Brands(parents);
    var material := DerivedMaterial(parents);
    var color := DerivedColor(parents);
    var session := SortingSession(parents);
    var batches := FromBatches(parents);
    seq(|detailed|, i requires 0 <= i < |detailed| =>
      SummaryPack(
        FibrePack(BaseItem(detailed[i].id, nowIso, "pending", "pending", None), scanned,
                  parse(detailed[i].weightGrams) / 1000.0, brands, material, color),
        session, batches))
  }

  /** The fields `handleConfirmAndSave` hands to `createFibrePack` (the preview id is passed too,
      but the service overwrites it with a generated one). */
  function SaveData(p: FibrePack): Api.FibreData {
    Api.FibreData(p.parentSortedIds, p.weightKg, p.brands, p.material, p.color, None)
  }

  /** The pack the service creates for the i-th previewed pack when that save reads the
      clock values `millisAt(i)` and `isoAt(i)`. */
  function SavedPack(summary: seq<SummaryPack>, i: nat, user: User, millisAt: nat -> string, isoAt: nat -> string)
    : FibrePack
    requires i < |summary|
  {
    Api.NewFibre(SaveData(summary[i].pack), user, millisAt(i), isoAt(i))
  }

  /** The item list after the first n saves: each appends its pack at the end. */
  function AfterSaves(items: seq<TraceableItem>, summary: seq<SummaryPack>, n: nat, user: User,
                      millisAt: nat -> string, isoAt: nat -> string): seq<TraceableItem>
    requires n <= |summary|
  {
    if n == 0 then items
    else AfterSaves(items, summary, n - 1, user, millisAt, isoAt) + [Fibre(SavedPack(summary, n - 1, user, millisAt, isoAt))]
  }

  /** The log list after the first n saves: each puts its entry in front, so the k-th save's
      entry ends up n - 1 - k places from the top. */
  function LogsAfterSaves(logs: seq<AuditLog>, summary: seq<SummaryPack>, n: nat, user: User, session: Option<User>,
                          millisAt: nat -> string, isoAt: nat -> string): seq<AuditLog>
    requires n <= |summary|
  {
    if n == 0 then logs
    else
      [Api.FibreLog(SavedPack(summary, n - 1, user, millisAt, isoAt), session, millisAt(n - 1), isoAt(n - 1))] +
      LogsAfterSaves(logs, summary, n - 1, user, session, millisAt, isoAt)
  }

  /** One turn of the save loop: the i-th previewed pack goes to `createFibrePack`. */
  method SaveOne(store: Api.Store, summary: seq<SummaryPack>, i: nat, ghost user: User,
                 millisAt: nat -> string, isoAt: nat -> string,
                 ghost items0: seq<TraceableItem>, ghost logs0: seq<AuditLog>)
    returns (res: Result<FibrePack>)
    requires i < |summary|
    requires store.session.Some? ==> store.session.value == user
    requires store.items == AfterSaves(items0, summary, i, user, millisAt, isoAt)
    requires store.logs == LogsAfterSaves(logs0, summary, i, user, store.session, millisAt, isoAt)
    modifies store`items, store`logs
    ensures store.session.None? ==>
      res == Err("Unauthorized") && store.items == old(store.items) && store.logs == old(store.logs)
    ensures store.session.Some? ==> (res.Ok? &&
      store.items == AfterSaves(items0, summary, i + 1, user, millisAt, isoAt) &&
      store.logs == LogsAfterSaves(logs0, summary, i + 1, user, store.session, millisAt, isoAt))
  {
    res := store.CreateFibrePack(SaveData(summary[i].pack), millisAt(i), isoAt(i));
  }

  /** The alert shown when a save fails. */
  function SaveError(error: string): string {
    "Error creating packs: " + error
  }

  /** The loop of `handleConfirmAndSave`: one `createFibrePack` per previewed pack, in order,
      stopping at the first error. Without a session the very first call fails. */
  method SaveAll(store: Api.Store, summary: seq<SummaryPack>, millisAt: nat -> string, isoAt: nat -> string)
    returns (r: Result<()>)
    modifies store`items, store`logs
    ensures store.session.None? && summary != [] ==>
      r == Err("Unauthorized") && store.items == old(store.items) && store.logs == old(store.logs)
    ensures store.session.Some? || summary == [] ==>
      var user := Api.SessionUser(store.session);
      r == Ok(()) &&
      store.items == AfterSaves(old(store.items), summary, |summary|, user, millisAt, isoAt) &&
      store.logs == LogsAfterSaves(old(store.logs), summary, |summary|, user, store.session, millisAt, isoAt)
  {
    ghost var user := Api.SessionUser(store.session);
    var i := 0;
    while i < |summary|
      invariant 0 <= i <= |summary|
      invariant store.session.Some? || i == 0
      invariant store.items == AfterSaves(old(store.items), summary, i, user, millisAt, isoAt)
      invariant store.logs == LogsAfterSaves(old(store.logs), summary, i, user, store.session, millisAt, isoAt)
    {
      var res := SaveOne(store, summary, i, user, millisAt, isoAt, old(store.items), old(store.logs));
      if res.Err? {
        return Err(res.error);
      }
      i := i + 1;
    }
    r := Ok(());
  }

  // ------------------------------------------------------------ derivation lemmas

  /** The inbound batch ids the record lists: the parents' batch ids without repeats, each a
      parent's, every parent's included, in first-appearance order. */
  lemma InboundIdsDerivation(parents: seq<SortedPack>)
    ensures var b := InboundIds(parents);
      NoDup(b) &&
      (forall k :: 0 <= k < |b| ==> exists i :: 0 <= i < |parents| && parents[i].parentInboundId == b[k]) &&
      (forall i :: 0 <= i < |parents| ==> parents[i].parentInboundId in b) &&
      (forall k, l :: 0 <= k < l < |b| ==>
        IndexOf(Map(parents, (p: SortedPack) => p.parentInboundId), b[k]) <
        IndexOf(Map(parents, (p: SortedPack) => p.parentInboundId), b[l]))
  {
    var ids := Map(parents, (p: SortedPack) => p.parentInboundId);
    DistinctOrder(ids);
    forall k | 0 <= k < |InboundIds(parents)|
      ensures exists i :: 0 <= i < |parents| && parents[i].parentInboundId == InboundIds(parents)[k]
    {
      var i := IndexOf(ids, InboundIds(parents)[k]);
      assert parents[i].parentInboundId == ids[i];
    }
  }

  /** Brands are each parent brand once, in order of first appearance among the parents. */
  lemma BrandsDerivation(parents: seq<SortedPack>)
    ensures var b := Brands(parents);
      NoDup(b) &&
      (forall k :: 0 <= k < |b| ==> exists i :: 0 <= i < |parents| && parents[i].brand == b[k]) &&
      (forall i :: 0 <= i < |parents| ==> parents[i].brand in b) &&
      (forall k, l :: 0 <= k < l < |b| ==>
        IndexOf(Map(parents, (p: SortedPack) => p.brand), b[k]) < IndexOf(Map(parents, (p: SortedPack) => p.brand), b[l]))
  {
    var names := Map(parents, (p: SortedPack) => p.brand);
    DistinctOrder(names);
    forall k | 0 <= k < |Brands(parents)|
      ensures exists i :: 0 <= i < |parents| && parents[i].brand == Brands(parents)[k]
    {
      var i := IndexOf(names, Brands(parents)[k]);
      assert parents[i].brand == names[i];
    }
    forall i | 0 <= i < |parents| ensures parents[i].brand in Brands(parents) {
      assert names[i] == parents[i].brand;
    }
  }

  /** Material and colour are inherited only when all parents agree; no parents gives the
      fallbacks. */
  lemma MaterialAndColor(parents: seq<SortedPack>)
    ensures DerivedMaterial(parents) ==
      if parents != [] && forall i :: 0 <= i < |parents| ==> parents[i].material == parents[0].material
      then parents[0].material else "Blend"
    ensures DerivedColor(parents) ==
      if parents != [] && forall i :: 0 <= i < |parents| ==> parents[i].color == parents[0].color
      then parents[0].color else "Mixed"
  {
    var ms := Map(parents, (p: SortedPack) => p.material);
    var cs := Map(parents, (p: SortedPack) => p.color);
    assert (forall i :: 0 <= i < |ms| ==> ms[i] == ms[0]) <==>
           (forall i :: 0 <= i < |parents| ==> parents[i].material == parents[0].material);
    assert (forall i :: 0 <= i < |cs| ==> cs[i] == cs[0]) <==>
           (forall i :: 0 <= i < |parents| ==> parents[i].color == parents[0].color);
  }

  /** After n saves the old items are untouched and the k-th new item is the k-th previewed
      pack as created by the service: a fibre pack with a generated FP- id, stamped with the
      saving user, carrying the preview's sources, weight, brands, material and colour. */
  lemma {:induction false} SavesAppend(items: seq<TraceableItem>, summary: seq<SummaryPack>, n: nat, user: User,
                                       millisAt: nat -> string, isoAt: nat -> string)
    requires n <= |summary|
    ensures var r := AfterSaves(items, summary, n, user, millisAt, isoAt);
      |r| == |items| + n && r[..|items|] == items &&
      forall k :: 0 <= k < n ==> r[|items| + k] == Fibre(SavedPack(summary, k, user, millisAt, isoAt))
  {
    if n > 0 {
      SavesAppend(items, summary, n - 1, user, millisAt, isoAt);
    }
  }

  /** The pack saved for a previewed record copies what the preview derived and records who
      saved it; its id announces a fibre pack. */
  lemma SavedPackFields(summary: seq<SummaryPack>, k: nat, user: User, millisAt: nat -> string, isoAt: nat -> string)
    requires k < |summary|
    ensures var f := SavedPack(summary, k, user, millisAt, isoAt);
      var p := summary[k].pack;
      f.parentSortedIds == p.parentSortedIds && f.weightKg == p.weightKg && f.brands == p.brands &&
      f.material == p.material && f.color == p.color && f.base.createdBy == user.username &&
      f.base.createdAt == isoAt(k) && KindOfIdIsFibre(f.base.id)
  {
    Api.ItemIdKind(Api.FibrePrefix, millisAt(k));
  }

  predicate KindOfIdIsFibre(id: string) {
    Api.KindOfId(id) == Some(FIBRE)
  }

  /** After n saves the old log entries follow the n new ones, newest first. */
  lemma {:induction false} SavesPrependLogs(logs: seq<AuditLog>, summary: seq<SummaryPack>, n: nat, user: User,
                                            session: Option<User>, millisAt: nat -> string, isoAt: nat -> string)
    requires n <= |summary|
    ensures var r := LogsAfterSaves(logs, summary, n, user, session, millisAt, isoAt);
      |r| == |logs| + n && r[n..] == logs &&
      forall k :: 0 <= k < n ==>
        r[n - 1 - k] == Api.FibreLog(SavedPack(summary, k, user, millisAt, isoAt), session, millisAt(k), isoAt(k))
  {
    if n > 0 {
      SavesPrependLogs(logs, summary, n - 1, user, session, millisAt, isoAt);
      var r' := LogsAfterSaves(logs, summary, n - 1, user, session, millisAt, isoAt);
      var top := Api.FibreLog(SavedPack(summary, n - 1, user, millisAt, isoAt), session, millisAt(n - 1), isoAt(n - 1));
      assert LogsAfterSaves(logs, summary, n, user, session, millisAt, isoAt) == [top] + r';
      PrependFacts(top, r', n - 1);
    }
  }

  /** Packs blended from two materials are a 'Blend'. */
  lemma TwoMaterialsBlend(a: SortedPack, b: SortedPack)
    requires a.material != b.material
    ensures DerivedMaterial([a, b]) == "Blend"
  {
    MaterialAndColor([a, b]);
  }

  // ------------------------------------------------------------ session

  /** Scanned source packs are distinct known packs, weighed fibre packs are distinct, and
      the pack being weighed is not one of them yet. */
  predicate ScanListsOk(available: seq<SortedPack>, scanned: seq<string>, detailed: seq<FibreDetail>,
                        current: Option<string>)
  {
    NoDup(scanned) &&
    (forall i :: 0 <= i < |scanned| ==> scanned[i] in PackIds(available)) &&
    NoDup(DetailIds(detailed)) &&
    (current.Some? ==> current.value !in DetailIds(detailed))
  }

  class Session {
    var step: int
    var available: seq<SortedPack>
    var scannedSortedIds: seq<string>
    var sortedPackInput: string
    var detailed: seq<FibreDetail>
    var fibrePackInput: string
    var currentFibrePackId: Option<string>
    var currentWeightGrams: string
    var summaryData: seq<SummaryPack>

    /** The session invariant: a step of the flow, and the scan lists as `ScanListsOk` says. */
    predicate Valid()
      reads this
    {
      1 <= step <= 4 && ScanListsOk(available, scannedSortedIds, detailed, currentFibrePackId)
    }

    /** The view after mounting: the sorted packs of the store are loaded, all else is empty. */
    constructor (items: seq<TraceableItem>)
      ensures Valid()
      ensures step == 1 && available == SortedPacksOf(items)
      ensures scannedSortedIds == [] && sortedPackInput == "" && detailed == [] && fibrePackInput == ""
      ensures currentFibrePackId == None && currentWeightGrams == "" && summaryData == []
    {
      step := 1;
      available := SortedPacksOf(items);
      scannedSortedIds := [];
      sortedPackInput := "";
      detailed := [];
      fibrePackInput := "";
      currentFibrePackId := None;
      currentWeightGrams := "";
      summaryData := [];
    }

    /** `resetFlow`: every piece of session state back to its initial value. */
    method ResetFlow()
      modifies this
      ensures Valid()
      ensures step == 1 && available == old(available)
      ensures scannedSortedIds == [] && sortedPackInput == "" && detailed == [] && fibrePackInput == ""
      ensures currentFibrePackId == None && currentWeightGrams == "" && summaryData == []
    {
      step := 1;
      scannedSortedIds := [];
      sortedPackInput := "";
      detailed := [];
      fibrePackInput := "";
      currentFibrePackId := None;
      currentWeightGrams := "";
      summaryData := [];
    }

    /** Typing into the sorted-pack field. */
    method EnterSortedPackInput(text: string)
      modifies this`sortedPackInput
      ensures sortedPackInput == text
    {
      sortedPackInput := text;
    }

    /** `handleScanSortedPack`. */
    method ScanSortedPack() returns (r: Outcome)
      requires Valid()
      modifies this`scannedSortedIds, this`sortedPackInput
      ensures Valid()
      ensures var id := Trim(old(sortedPackInput));
        if id == "" then r == Ignored && unchanged(this)
        else if id !in PackIds(available) then
          r == Rejected("Sorted Pack ID \"" + id + "\" not found.") && unchanged(this)
        else if id in old(scannedSortedIds) then
          r == Rejected("Pack " + id + " has already been scanned.") && unchanged(this)
        else r == Accepted && scannedSortedIds == old(scannedSortedIds) + [id] && sortedPackInput == ""
    {
      var id := Trim(sortedPackInput);
      if id == "" {
        return Ignored;
      }
      if id !in PackIds(available) {
        return Rejected("Sorted Pack ID \"" + id + "\" not found.");
      }
      if id in scannedSortedIds {
        return Rejected("Pack " + id + " has already been scanned.");
      }
      scannedSortedIds := scannedSortedIds + [id];
      sortedPackInput := "";
      r := Accepted;
    }

    /** "Next": only with at least one scanned source pack. */
    method Next()
      requires Valid()
      modifies this`step
      ensures Valid()
      ensures step == if old(step) == 1 && scannedSortedIds != [] then 2 else old(step)
    {
      if step == 1 && scannedSortedIds != [] {
        step := 2;
      }
    }

    /** The back links: from fibre packs to source packs, and from the summary to the details. */
    method Back()
      requires Valid()
      modifies this`step
      ensures Valid()
      ensures step == if old(step) == 2 then 1 else if old(step) == 3 then 2 else old(step)
    {
      if step == 2 {
        step := 1;
      } else if step == 3 {
        step := 2;
      }
    }

    /** Typing into the fibre-pack field. */
    method EnterFibrePackInput(text: string)
      modifies this`fibrePackInput
      ensures fibrePackInput == text
    {
      fibrePackInput := text;
    }

    /** `handleScanFibrePack`. */
    method ScanFibrePack() returns (r: Outcome)
      requires Valid()
      modifies this`currentFibrePackId, this`fibrePackInput
      ensures Valid()
      ensures var id := Trim(old(fibrePackInput));
        if id == "" then r == Ignored && unchanged(this)
        else if id in DetailIds(detailed) then
          r == Rejected("Fibre pack " + id + " already processed in this session.") && unchanged(this)
        else r == Accepted && currentFibrePackId == Some(id) && fibrePackInput == ""
    {
      var id := Trim(fibrePackInput);
      if id == "" {
        return Ignored;
      }
      if id in DetailIds(detailed) {
        return Rejected("Fibre pack " + id + " already processed in this session.");
      }
      currentFibrePackId := Some(id);
      fibrePackInput := "";
      r := Accepted;
    }

    /** Typing into the weight field. */
    method EnterWeight(text: string)
      modifies this`currentWeightGrams
      ensures currentWeightGrams == text
    {
      currentWeightGrams := text;
    }

    /** `handleSaveFibrePack`: needs a pack being weighed and a weight that reads as positive. */
    method SaveFibrePack(parse: string -> real) returns (r: Outcome)
      requires Valid()
      modifies this`detailed, this`currentFibrePackId, this`currentWeightGrams
      ensures Valid()
      ensures if old(currentFibrePackId).None? || old(currentWeightGrams) == "" || parse(old(currentWeightGrams)) <= 0.0
        then r == Rejected("Please enter a valid weight.") && unchanged(this)
        else (r == Accepted &&
          detailed == old(detailed) + [FibreDetail(old(currentFibrePackId).value, old(currentWeightGrams))] &&
          currentFibrePackId == None && currentWeightGrams == "")
    {
      if currentFibrePackId.None? || currentWeightGrams == "" || parse(currentWeightGrams) <= 0.0 {
        return Rejected("Please enter a valid weight.");
      }
      var entry := FibreDetail(currentFibrePackId.value, currentWeightGrams);
      assert DetailIds(detailed + [entry]) == DetailIds(detailed) + [entry.id];
      detailed := detailed + [entry];
      currentFibrePackId := None;
      currentWeightGrams := "";
      r := Accepted;
    }

    /** "Done" (`handleProceedToSummary`): only with at least one weighed fibre pack. */
    method ProceedToSummary(parse: string -> real, nowIso: string)
      requires Valid()
      modifies this`summaryData, this`step
      ensures Valid()
      ensures if detailed == [] then unchanged(this)
        else (step == 3 &&
          summaryData == Summarize(ParentPacks(available, scannedSortedIds), scannedSortedIds, detailed, parse, nowIso))
    {
      if detailed == [] {
        return;
      }
      summaryData := Summarize(ParentPacks(available, scannedSortedIds), scannedSortedIds, detailed, parse, nowIso);
      step := 3;
    }

    /** `handleConfirmAndSave`: save every previewed pack and move to the completion screen;
        a failed save leaves the step as it was and shows the error. */
    method ConfirmAndSave(store: Api.Store, millisAt: nat -> string, isoAt: nat -> string) returns (r: Outcome)
      requires Valid()
      modifies this`step, store`items, store`logs
      ensures Valid()
      ensures store.session.None? && summaryData != [] ==>
        r == Rejected(SaveError("Unauthorized")) && step == old(step) &&
        store.items == old(store.items) && store.logs == old(store.logs)
      ensures store.session.Some? || summaryData == [] ==>
        var user := Api.SessionUser(store.session);
        r == Accepted && step == 4 &&
        store.items == AfterSaves(old(store.items), summaryData, |summaryData|, user, millisAt, isoAt) &&
        store.logs == LogsAfterSaves(old(store.logs), summaryData, |summaryData|, user, store.session, millisAt, isoAt)
    {
      var res := SaveAll(store, summaryData, millisAt, isoAt);
      if res.Err? {
        return Rejected(SaveError(res.error));
      }
      step := 4;
      r := Accepted;
    }
  }
}
