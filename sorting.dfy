/** The sorting station: scan pack ids, pick the source inbound batch, fill in each pack's
    weight, brand, material and colour, then create all packs in scan order. The per-pack
    details live in a map whose insertion order is the scan order. */
module SortingView {
  import opened Seqs
  import opened Strings
  import opened Types
  import Api

  /** The per-pack form; the weight is the raw text of a grams field. */
  datatype PackDetails = PackDetails(weightKg: string, color: string, brand: string, material: string)

  /** The `keyof PackDetails` a form control edits. */
  datatype Field = WeightField | ColorField | BrandField | MaterialField

  /** The option lists the configuration services supply. */
  datatype ConfigOptions = ConfigOptions(brands: seq<string>, materials: seq<string>, colors: seq<string>)

  /** The details a freshly scanned pack starts with. */
  function DefaultDetails(cfg: ConfigOptions): PackDetails {
    PackDetails("", FirstOr(cfg.colors), FirstOr(cfg.brands), FirstOr(cfg.materials))
  }

  /** `{ ...d, [field]: value }`. */
  function WithField(d: PackDetails, field: Field, value: string): PackDetails {
    match field
    case WeightField => d.(weightKg := value)
    case ColorField => d.(color := value)
    case BrandField => d.(brand := value)
    case MaterialField => d.(material := value)
  }

  /** The field a control reads. */
  function FieldOf(d: PackDetails, field: Field): string {
    match field
    case WeightField => d.weightKg
    case ColorField => d.color
    case BrandField => d.brand
    case MaterialField => d.material
  }

  /** Setting a field sets exactly that field. */
  lemma WithFieldIsolated(d: PackDetails, field: Field, value: string, other: Field)
    ensures FieldOf(WithField(d, field, value), field) == value
    ensures other != field ==> FieldOf(WithField(d, field, value), other) == FieldOf(d, other)
  {
  }

  /** The map's keys are exactly the scanned ids, and no id was scanned twice; so the
      map's insertion order is the order of the scanned list. */
  predicate InSync(ids: seq<string>, details: map<string, PackDetails>) {
    NoDup(ids) &&
    (forall k :: k in details ==> k in ids) &&
    (forall i :: 0 <= i < |ids| ==> ids[i] in details)
  }

  /** An entry the completeness check accepts: a non-empty weight that reads as positive. */
  predicate WeightOk(d: PackDetails, parse: string -> real) {
    d.weightKg != "" && parse(d.weightKg) > 0.0
  }

  /** `isStep3Complete`. */
  predicate IsStep3Complete(details: map<string, PackDetails>, parse: string -> real) {
    |details| != 0 && forall k :: k in details ==> WeightOk(details[k], parse)
  }

  /** Over a synchronised map, completeness is "some pack was scanned, and every scanned
      pack has an acceptable weight". */
  lemma Step3CompleteInScanOrder(ids: seq<string>, details: map<string, PackDetails>, parse: string -> real)
    requires InSync(ids, details)
    ensures IsStep3Complete(details, parse) <==>
      (ids != [] && forall i :: 0 <= i < |ids| ==> WeightOk(details[ids[i]], parse))
  {
    if ids != [] {
      assert ids[0] in details;
    }
    if |details| != 0 {
      var k :| k in details;
      assert k in ids;
    }
  }

  // ------------------------------------------------------------ creating the packs

  /** Position of the first scanned pack whose weight is empty, or |ids| when there is none. */
  function FirstMissing(ids: seq<string>, details: map<string, PackDetails>): (k: nat)
    requires forall i :: 0 <= i < |ids| ==> ids[i] in details
    ensures k <= |ids|
    ensures forall j :: 0 <= j < k ==> details[ids[j]].weightKg != ""
    ensures k < |ids| ==> details[ids[k]].weightKg == ""
  {
    if ids == [] then 0
    else if details[ids[0]].weightKg == "" then 0
    else 1 + FirstMissing(ids[1..], details)
  }

  /** A complete form has no pack with a missing weight, so the loop never throws. */
  lemma CompleteHasNoMissing(ids: seq<string>, details: map<string, PackDetails>, parse: string -> real)
    requires InSync(ids, details) && IsStep3Complete(details, parse)
    ensures ids != [] && FirstMissing(ids, details) == |ids|
  {
    Step3CompleteInScanOrder(ids, details, parse);
  }

  /** What `createSortedPack` receives for one entry: the selected batch as parent and the
      grams converted to kilograms (the scanned id is sent too, but the service replaces it). */
  function PackData(d: PackDetails, batchId: string, parse: string -> real): Api.SortedData {
    Api.SortedData(batchId, d.color, d.material, d.brand, parse(d.weightKg) / 1000.0, None)
  }

  /** The pack created for the i-th scanned id when that call reads the clock values
      `millisAt(i)` and `isoAt(i)`. */
  function CreatedPack(ids: seq<string>, details: map<string, PackDetails>, i: nat, batchId: string,
                       user: User, parse: string -> real, millisAt: nat -> string, isoAt: nat -> string)
    : SortedPack
    requires i < |ids| && ids[i] in details
  {
    Api.NewSorted(PackData(details[ids[i]], batchId, parse), user, millisAt(i), isoAt(i))
  }

  /** The packs created by the first n calls, in order (the `results` array). */
  function CreatedPacks(ids: seq<string>, details: map<string, PackDetails>, n: nat, batchId: string,
                        user: User, parse: string -> real, millisAt: nat -> string, isoAt: nat -> string)
    : seq<SortedPack>
    requires n <= |ids| && forall i :: 0 <= i < |ids| ==> ids[i] in details
  {
    if n == 0 then []
    else CreatedPacks(ids, details, n - 1, batchId, user, parse, millisAt, isoAt) +
         [CreatedPack(ids, details, n - 1, batchId, user, parse, millisAt, isoAt)]
  }

  /** The item list after the first n calls. */
  function ItemsAfter(items: seq<TraceableItem>, ids: seq<string>, details: map<string, PackDetails>, n: nat,
                      batchId: string, user: User, parse: string -> real,
                      millisAt: nat -> string, isoAt: nat -> string): seq<TraceableItem>
    requires n <= |ids| && forall i :: 0 <= i < |ids| ==> ids[i] in details
  {
    if n == 0 then items
    else ItemsAfter(items, ids, details, n - 1, batchId, user, parse, millisAt, isoAt) +
         [Sorted(CreatedPack(ids, details, n - 1, batchId, user, parse, millisAt, isoAt))]
  }

  /** The log list after the first n calls: each call's entry goes on top. */
  function LogsAfter(logs: seq<AuditLog>, ids: seq<string>, details: map<string, PackDetails>, n: nat,
                     batchId: string, user: User, session: Option<User>, parse: string -> real,
                     millisAt: nat -> string, isoAt: nat -> string): (r: seq<AuditLog>)
    requires n <= |ids| && forall i :: 0 <= i < |ids| ==> ids[i] in details
    ensures |r| == |logs| + n && r[n..] == logs
  {
    if n == 0 then logs
    else
      [Api.SortedLog(CreatedPack(ids, details, n - 1, batchId, user, parse, millisAt, isoAt),
                     session, millisAt(n - 1), isoAt(n - 1))] +
      LogsAfter(logs, ids, details, n - 1, batchId, user, session, parse, millisAt, isoAt)
  }

  /** The alert shown when the loop throws. */
  function CreateError(error: string): string {
    "Error creating packs: " + error
  }

  /** The error thrown for an entry without a weight. */
  function MissingWeight(id: string): string {
    "Weight is missing for pack " + id
  }

  /** One turn of the loop, for an entry whose weight is present. */
  method CreateOne(store: Api.Store, ids: seq<string>, details: map<string, PackDetails>, i: nat, batchId: string,
                   ghost user: User, parse: string -> real, millisAt: nat -> string, isoAt: nat -> string,
                   ghost items0: seq<TraceableItem>, ghost logs0: seq<AuditLog>)
    returns (res: Result<SortedPack>)
    requires i < |ids| && forall j :: 0 <= j < |ids| ==> ids[j] in details
    requires store.session.Some? ==> store.session.value == user
    requires store.items == ItemsAfter(items0, ids, details, i, batchId, user, parse, millisAt, isoAt)
    requires store.logs == LogsAfter(logs0, ids, details, i, batchId, user, store.session, parse, millisAt, isoAt)
    modifies store`items, store`logs
    ensures store.session.None? ==>
      res == Err("Unauthorized") && store.items == old(store.items) && store.logs == old(store.logs)
    ensures store.session.Some? ==>
      res == Ok(CreatedPack(ids, details, i, batchId, user, parse, millisAt, isoAt)) &&
      store.items == ItemsAfter(items0, ids, details, i + 1, batchId, user, parse, millisAt, isoAt) &&
      store.logs == LogsAfter(logs0, ids, details, i + 1, batchId, user, store.session, parse, millisAt, isoAt)
  {
    res := store.CreateSortedPack(PackData(details[ids[i]], batchId, parse), millisAt(i), isoAt(i));
  }

  /** The loop of `handleCreateAllPacks`: entries in scan order, throwing at the first entry
      with an empty weight and at the first failed call. What was created before the throw
      stays in the store. */
  method CreateAll(store: Api.Store, ids: seq<string>, details: map<string, PackDetails>, batchId: string,
                   parse: string -> real, millisAt: nat -> string, isoAt: nat -> string)
    returns (r: Result<seq<SortedPack>>)
    requires forall i :: 0 <= i < |ids| ==> ids[i] in details
    modifies store`items, store`logs
    ensures var n := FirstMissing(ids, details);
      store.session.None? && n > 0 ==>
        r == Err("Unauthorized") && store.items == old(store.items) && store.logs == old(store.logs)
    ensures var n := FirstMissing(ids, details);
      var user := Api.SessionUser(store.session);
      !(store.session.None? && n > 0) ==>
        store.items == ItemsAfter(old(store.items), ids, details, n, batchId, user, parse, millisAt, isoAt) &&
        store.logs == LogsAfter(old(store.logs), ids, details, n, batchId, user, store.session, parse, millisAt, isoAt) &&
        r == if n < |ids| then Err(MissingWeight(ids[n]))
             else Ok(CreatedPacks(ids, details, n, batchId, user, parse, millisAt, isoAt))
  {
    ghost var user := Api.SessionUser(store.session);
    ghost var n := FirstMissing(ids, details);
    var results := [];
    var i := 0;
    while i < |ids|
      invariant 0 <= i <= n
      invariant store.session.Some? || i == 0
      invariant store.items == ItemsAfter(old(store.items), ids, details, i, batchId, user, parse, millisAt, isoAt)
      invariant store.logs == LogsAfter(old(store.logs), ids, details, i, batchId, user, store.session, parse, millisAt, isoAt)
      invariant results == CreatedPacks(ids, details, i, batchId, user, parse, millisAt, isoAt)
    {
      if details[ids[i]].weightKg == "" {
        return Err(MissingWeight(ids[i]));
      }
      var res := CreateOne(store, ids, details, i, batchId, user, parse, millisAt, isoAt,
                           old(store.items), old(store.logs));
      if res.Err? {
        return Err(res.error);
      }
      results := results + [res.value];
      i := i + 1;
    }
    r := Ok(results);
  }

  /** The loop run on a form with every weight present: all packs or, without a session,
      none. */
  method CreateComplete(store: Api.Store, ids: seq<string>, details: map<string, PackDetails>, batchId: string,
                        parse: string -> real, millisAt: nat -> string, isoAt: nat -> string)
    returns (r: Result<seq<SortedPack>>)
    requires ids != [] && forall i :: 0 <= i < |ids| ==> ids[i] in details
    requires FirstMissing(ids, details) == |ids|
    modifies store`items, store`logs
    ensures store.session.None? ==>
      r == Err("Unauthorized") && store.items == old(store.items) && store.logs == old(store.logs)
    ensures store.session.Some? ==>
      var user := store.session.value;
      r == Ok(CreatedPacks(ids, details, |ids|, batchId, user, parse, millisAt, isoAt)) &&
      store.items == ItemsAfter(old(store.items), ids, details, |ids|, batchId, user, parse, millisAt, isoAt) &&
      store.logs == LogsAfter(old(store.logs), ids, details, |ids|, batchId, user, store.session, parse, millisAt, isoAt)
  {
    r := CreateAll(store, ids, details, batchId, parse, millisAt, isoAt);
  }

  // ------------------------------------------------------------ lemmas on the creation loop

  /** The first n calls append n items after the old ones. */
  lemma {:induction false} ItemsAfterAppends(items: seq<TraceableItem>, ids: seq<string>,
                                             details: map<string, PackDetails>, n: nat, batchId: string,
                                             user: User, parse: string -> real,
                                             millisAt: nat -> string, isoAt: nat -> string)
    requires n <= |ids| && forall i :: 0 <= i < |ids| ==> ids[i] in details
    ensures var r := ItemsAfter(items, ids, details, n, batchId, user, parse, millisAt, isoAt);
      |r| == |items| + n && r[..|items|] == items &&
      forall k :: 0 <= k < n ==> r[|items| + k] == Sorted(CreatedPack(ids, details, k, batchId, user, parse, millisAt, isoAt))
  {
    if n > 0 {
      ItemsAfterAppends(items, ids, details, n - 1, batchId, user, parse, millisAt, isoAt);
    }
  }

  /** The `results` array holds one pack per call, in call order. */
  lemma {:induction false} CreatedPacksInOrder(ids: seq<string>, details: map<string, PackDetails>, n: nat,
                                               batchId: string, user: User, parse: string -> real,
                                               millisAt: nat -> string, isoAt: nat -> string)
    requires n <= |ids| && forall i :: 0 <= i < |ids| ==> ids[i] in details
    ensures var r := CreatedPacks(ids, details, n, batchId, user, parse, millisAt, isoAt);
      |r| == n && forall k :: 0 <= k < n ==> r[k] == CreatedPack(ids, details, k, batchId, user, parse, millisAt, isoAt)
  {
    if n > 0 {
      CreatedPacksInOrder(ids, details, n - 1, batchId, user, parse, millisAt, isoAt);
    }
  }

  /** Each created pack names the selected batch as its parent, carries the entry's grams
      as kilograms and its brand, material and colour, is credited to the user and has a
      sorted-pack id. */
  lemma CreatedPackFields(ids: seq<string>, details: map<string, PackDetails>, k: nat, batchId: string,
                          user: User, parse: string -> real, millisAt: nat -> string, isoAt: nat -> string)
    requires k < |ids| && ids[k] in details
    ensures var p := CreatedPack(ids, details, k, batchId, user, parse, millisAt, isoAt);
      var d := details[ids[k]];
      p.parentInboundId == batchId && p.weightKg == parse(d.weightKg) / 1000.0 &&
      p.brand == d.brand && p.material == d.material && p.color == d.color &&
      p.base.createdBy == user.username && p.base.createdAt == isoAt(k) &&
      Api.KindOfId(p.base.id) == Some(SORTED)
  {
    Api.ItemIdKind(Api.SortedPrefix, millisAt(k));
  }

  /** The log after n calls has the n new entries on top and the old log below them; the
      k-th call's entry sits n - 1 - k places from the top, so the newest comes first. */
  lemma LogsAfterPrepends(logs: seq<AuditLog>, ids: seq<string>,
                          details: map<string, PackDetails>, n: nat, batchId: string,
                          user: User, session: Option<User>, parse: string -> real,
                          millisAt: nat -> string, isoAt: nat -> string, k: nat)
    requires n <= |ids| && forall i :: 0 <= i < |ids| ==> ids[i] in details
    requires k < n
    ensures var r := LogsAfter(logs, ids, details, n, batchId, user, session, parse, millisAt, isoAt);
      |r| == |logs| + n && r[n..] == logs &&
      r[n - 1 - k] == Api.SortedLog(CreatedPack(ids, details, k, batchId, user, parse, millisAt, isoAt),
                                    session, millisAt(k), isoAt(k))
  {
    LogsAfterEntry(logs, ids, details, n, batchId, user, session, parse, millisAt, isoAt, k);
  }

  /** The entry of the k-th call, n - 1 - k places from the top after n calls. */
  lemma {:induction false} LogsAfterEntry(logs: seq<AuditLog>, ids: seq<string>,
                                          details: map<string, PackDetails>, n: nat, batchId: string,
                                          user: User, session: Option<User>, parse: string -> real,
                                          millisAt: nat -> string, isoAt: nat -> string, k: nat)
    requires n <= |ids| && forall i :: 0 <= i < |ids| ==> ids[i] in details
    requires k < n
    ensures LogsAfter(logs, ids, details, n, batchId, user, session, parse, millisAt, isoAt)[n - 1 - k] ==
      Api.SortedLog(CreatedPack(ids, details, k, batchId, user, parse, millisAt, isoAt), session, millisAt(k), isoAt(k))
  {
    var prev := LogsAfter(logs, ids, details, n - 1, batchId, user, session, parse, millisAt, isoAt);
    var top := Api.SortedLog(CreatedPack(ids, details, n - 1, batchId, user, parse, millisAt, isoAt),
                             session, millisAt(n - 1), isoAt(n - 1));
    assert LogsAfter(logs, ids, details, n, batchId, user, session, parse, millisAt, isoAt) == [top] + prev;
    if k < n - 1 {
      LogsAfterEntry(logs, ids, details, n - 1, batchId, user, session, parse, millisAt, isoAt, k);
      PrependFacts(top, prev, 0);
    } else {
      assert n - 1 - k == 0;
    }
  }

  // ------------------------------------------------------------ session

  class Session {
    var step: int
    var config: ConfigOptions
    var scannedPackIds: seq<string>
    var manualPackId: string
    var selectedBatchId: string
    var packDetails: map<string, PackDetails>
    var createdPacks: seq<SortedPack>

    /** A step of the flow, and the details map in step with the scanned list. */
    predicate Valid()
      reads this
    {
      1 <= step <= 4 && InSync(scannedPackIds, packDetails)
    }

    /** The view after mounting, with the option lists the configuration services returned. */
    constructor (cfg: ConfigOptions)
      ensures Valid()
      ensures step == 1 && config == cfg && scannedPackIds == [] && manualPackId == ""
      ensures selectedBatchId == "" && packDetails == map[] && createdPacks == []
    {
      step := 1;
      config := cfg;
      scannedPackIds := [];
      manualPackId := "";
      selectedBatchId := "";
      packDetails := map[];
      createdPacks := [];
    }

    /** `resetFlow`. */
    method ResetFlow()
      modifies this
      ensures Valid()
      ensures step == 1 && config == old(config) && scannedPackIds == [] && manualPackId == ""
      ensures selectedBatchId == "" && packDetails == map[] && createdPacks == []
    {
      step := 1;
      scannedPackIds := [];
      manualPackId := "";
      selectedBatchId := "";
      packDetails := map[];
      createdPacks := [];
    }

    /** Typing into the pack-id field. */
    method EnterPackId(text: string)
      modifies this`manualPackId
      ensures manualPackId == text
    {
      manualPackId := text;
    }

    /** `handleAddPackId`. */
    method AddPackId() returns (r: Outcome)
      requires Valid()
      modifies this`scannedPackIds, this`packDetails, this`manualPackId
      ensures Valid()
      ensures var id := Trim(old(manualPackId));
        if id == "" then r == Ignored && unchanged(this)
        else if id in old(scannedPackIds) then
          r == Rejected("This Pack ID has already been added.") && unchanged(this)
        else (r == Accepted && scannedPackIds == old(scannedPackIds) + [id] &&
          packDetails == old(packDetails)[id := DefaultDetails(config)] && manualPackId == "")
    {
      var id := Trim(manualPackId);
      if id == "" {
        return Ignored;
      }
      if id in scannedPackIds {
        return Rejected("This Pack ID has already been added.");
      }
      scannedPackIds := scannedPackIds + [id];
      packDetails := packDetails[id := DefaultDetails(config)];
      manualPackId := "";
      r := Accepted;
    }

    /** `handleUpdatePackDetail`: only a pack that has details is changed, and only in one field. */
    method UpdatePackDetail(packId: string, field: Field, value: string)
      requires Valid()
      modifies this`packDetails
      ensures Valid()
      ensures packDetails == if packId in old(packDetails)
        then old(packDetails)[packId := WithField(old(packDetails)[packId], field, value)]
        else old(packDetails)
    {
      if packId in packDetails {
        packDetails := packDetails[packId := WithField(packDetails[packId], field, value)];
      }
    }

    /** Choosing the source inbound batch in the select. */
    method SelectBatch(batchId: string)
      modifies this`selectedBatchId
      ensures selectedBatchId == batchId
    {
      selectedBatchId := batchId;
    }

    /** "Next: Select Source Batch": only with at least one scanned pack. */
    method NextToBatch()
      requires Valid()
      modifies this`step
      ensures Valid()
      ensures step == if old(step) == 1 && scannedPackIds != [] then 2 else old(step)
    {
      if step == 1 && scannedPackIds != [] {
        step := 2;
      }
    }

    /** "Next: Add Pack Details": only with a selected batch. */
    method NextToDetails()
      requires Valid()
      modifies this`step
      ensures Valid()
      ensures step == if old(step) == 2 && selectedBatchId != "" then 3 else old(step)
    {
      if step == 2 && selectedBatchId != "" {
        step := 3;
      }
    }

    /** The back links: from the batch choice to scanning, from the details to the batch choice. */
    method Back()
      requires Valid()
      modifies this`step
      ensures Valid()
      ensures step == if old(step) == 2 then 1 else if old(step) == 3 then 2 else old(step)
    {
      if step == 2 {
        step := 1;
      } else if step == 3 {
        step := 2;
      }
    }

    /** "Done" (`handleCreateAllPacks`), enabled only when the form is complete. Then no
        entry misses its weight, and without a session the first call fails. */
    method CreateAllPacks(store: Api.Store, parse: string -> real, millisAt: nat -> string, isoAt: nat -> string)
      returns (r: Outcome)
      requires Valid()
      modifies this`step, this`createdPacks, store`items, store`logs
      ensures Valid()
      ensures !IsStep3Complete(packDetails, parse) ==>
        r == Ignored && unchanged(this) && store.items == old(store.items) && store.logs == old(store.logs)
      ensures IsStep3Complete(packDetails, parse) && store.session.None? ==>
        r == Rejected(CreateError("Unauthorized")) && unchanged(this) &&
        store.items == old(store.items) && store.logs == old(store.logs)
      ensures IsStep3Complete(packDetails, parse) && store.session.Some? ==>
        var user := store.session.value;
        var n := |scannedPackIds|;
        r == Accepted && step == 4 &&
        createdPacks == CreatedPacks(scannedPackIds, packDetails, n, selectedBatchId, user, parse, millisAt, isoAt) &&
        store.items == ItemsAfter(old(store.items), scannedPackIds, packDetails, n, selectedBatchId, user, parse, millisAt, isoAt) &&
        store.logs == LogsAfter(old(store.logs), scannedPackIds, packDetails, n, selectedBatchId, user, store.session,
                                parse, millisAt, isoAt)
    {
      if !IsStep3Complete(packDetails, parse) {
        return Ignored;
      }
      CompleteHasNoMissing(scannedPackIds, packDetails, parse);
      var res := CreateComplete(store, scannedPackIds, packDetails, selectedBatchId, parse, millisAt, isoAt);
      if res.Err? {
        return Rejected(CreateError(res.error));
      }
      createdPacks := res.value;
      step := 4;
      r := Accepted;
    }
  }
}
