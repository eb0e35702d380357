/** The record shapes of the tracker: users, the three traceable item kinds
    (a tagged union discriminated by `type`), audit log entries and consignments.
    Weights are exact reals (kilograms), not IEEE doubles. */
module Types {
  import opened Seqs

  datatype UserRole = ADMIN | OPERATOR

  /** A user as handed to views and kept in the session: it has no password field. */
  datatype User = User(id: string, username: string, role: UserRole)

  datatype BatchType = INBOUND | SORTED | FIBRE

  /** Fields every traceable item carries; `notes` is optional. */
  datatype BaseItem = BaseItem(
    id: string,
    createdAt: string,
    createdBy: string,
    qrCodeUrl: string,
    notes: Option<string>)

  datatype InboundBatch = InboundBatch(
    base: BaseItem,
    supplier: string,
    cartonCount: int,
    cartonIds: seq<string>)

  /** A sorted pack names exactly one parent inbound batch. */
  datatype SortedPack = SortedPack(
    base: BaseItem,
    parentInboundId: string,
    color: string,
    material: string,
    brand: string,
    weightKg: real)

  /** A fibre pack names a list of parent sorted packs. */
  datatype FibrePack = FibrePack(
    base: BaseItem,
    parentSortedIds: seq<string>,
    weightKg: real,
    brands: seq<string>,
    material: string,
    color: string)

  /** `InboundBatch | SortedPack | FibrePack`; the constructor plays the role of `type`. */
  datatype TraceableItem =
    | Inbound(inbound: InboundBatch)
    | Sorted(sorted: SortedPack)
    | Fibre(fibre: FibrePack)
  {
    function Base(): BaseItem {
      match this
      case Inbound(b) => b.base
      case Sorted(p) => p.base
      case Fibre(f) => f.base
    }

    function Id(): string {
      Base().id
    }

    function CreatedBy(): string {
      Base().createdBy
    }

    /** The `type` discriminant. */
    function Type(): BatchType {
      match this
      case Inbound(_) => INBOUND
      case Sorted(_) => SORTED
      case Fibre(_) => FIBRE
    }
  }

  datatype AuditLog = AuditLog(
    id: string,
    action: string,
    timestamp: string,
    userId: string,
    details: string,
    relatedItemId: Option<string>)

  datatype Consignment = Consignment(
    id: string,
    vendor: string,
    country: string,
    totalWeightKg: real,
    consignmentNumber: string,
    linkedFibrePackIds: seq<string>,
    createdAt: string,
    createdBy: string)

  /** What a view handler did: nothing (blank input or disabled control), its change, or an alert. */
  datatype Outcome = Ignored | Accepted | Rejected(message: string)

  /** The ids of a list of items, in order. */
  function Ids(items: seq<TraceableItem>): (r: seq<string>)
    ensures |r| == |items|
    ensures forall i :: 0 <= i < |items| ==> r[i] == items[i].Id()
  {
    Map(items, (x: TraceableItem) => x.Id())
  }

  /** Each sorted pack as a stored item. */
  function SortedItems(packs: seq<SortedPack>): seq<TraceableItem> {
    Map(packs, (p: SortedPack) => Sorted(p))
  }

  /** `getItemsByType<SortedPack>(SORTED)`: the sorted packs of the store, in store order,
      each as often as the store holds it. */
  function SortedPacksOf(items: seq<TraceableItem>): (r: seq<SortedPack>)
    ensures SortedPacksFrom(r, items)
  {
    if items == [] then []
    else
      var front := items[..|items| - 1];
      var x := items[|items| - 1];
      assert items == front + [x];
      var r := SortedPacksOf(front);
      SortedPacksStep(front, x, r);
      if x.Sorted? then r + [x.sorted] else r
  }

  /** r lists the sorted packs of items: each a stored item, every stored sorted pack
      included, in store order. */
  predicate SortedPacksFrom(r: seq<SortedPack>, items: seq<TraceableItem>) {
    |r| <= |items| &&
    (forall k :: 0 <= k < |r| ==> Sorted(r[k]) in items) &&
    (forall j :: 0 <= j < |items| && items[j].Sorted? ==> items[j].sorted in r) &&
    IsSubseq(SortedItems(r), items)
  }

  /** One more stored item: its pack, if it is a sorted one, goes at the end. */
  lemma SortedPacksStep(front: seq<TraceableItem>, x: TraceableItem, r: seq<SortedPack>)
    requires SortedPacksFrom(r, front)
    ensures SortedPacksFrom(if x.Sorted? then r + [x.sorted] else r, front + [x])
  {
    var r' := if x.Sorted? then r + [x.sorted] else r;
    SubseqAppend(SortedItems(r), front, x);
    if x.Sorted? {
      assert SortedItems(r') == SortedItems(r) + [x];
    }
    assert IsSubseq(SortedItems(r'), front + [x]);
    StepMembers(front, x, r);
  }

  /** The membership part of `SortedPacksStep`. */
  lemma StepMembers(front: seq<TraceableItem>, x: TraceableItem, r: seq<SortedPack>)
    requires forall k :: 0 <= k < |r| ==> Sorted(r[k]) in front
    requires forall j :: 0 <= j < |front| && front[j].Sorted? ==> front[j].sorted in r
    ensures var r' := if x.Sorted? then r + [x.sorted] else r;
      (forall k :: 0 <= k < |r'| ==> Sorted(r'[k]) in front + [x]) &&
      (forall j :: 0 <= j < |front + [x]| && (front + [x])[j].Sorted? ==> (front + [x])[j].sorted in r')
  {
    var r' := if x.Sorted? then r + [x.sorted] else r;
    forall k | 0 <= k < |r'| ensures Sorted(r'[k]) in front + [x] {
      if k < |r| {
        assert r'[k] == r[k];
      }
    }
    forall j | 0 <= j < |front + [x]| && (front + [x])[j].Sorted? ensures (front + [x])[j].sorted in r' {
      if j < |front| {
        assert (front + [x])[j] == front[j];
      }
    }
  }

  /** `getItemsByType` keeps every sorted pack as often as the store holds it. */
  lemma {:induction false} SortedPacksCounts(items: seq<TraceableItem>, p: SortedPack)
    ensures multiset(SortedPacksOf(items))[p] == multiset(items)[Sorted(p)]
  {
    if items != [] {
      var front := items[..|items| - 1];
      var x := items[|items| - 1];
      assert items == front + [x];
      SortedPacksCounts(front, p);
      assert multiset(items) == multiset(front) + multiset{x};
      var r := SortedPacksOf(front);
      if x.Sorted? {
        assert SortedPacksOf(items) == r + [x.sorted];
        assert multiset(r + [x.sorted]) == multiset(r) + multiset{x.sorted};
        assert Sorted(p) == x <==> p == x.sorted;
      }
    }
  }

  /** The `type` field determines the variant, and every variant has one of the three types. */
  lemma TypeDiscriminates(x: TraceableItem)
    ensures x.Type() == INBOUND <==> x.Inbound?
    ensures x.Type() == SORTED <==> x.Sorted?
    ensures x.Type() == FIBRE <==> x.Fibre?
  {
  }
}
