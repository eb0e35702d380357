/** The mock back end: the item, log, user and session entries of the browser's
    local storage become fields of a `Store` object, and the lineage resolver is a
    pure function of the item list. Clock readings (`Date.now()` as a string of
    milliseconds, `new Date().toISOString()`) are parameters. */
module Api {
  import opened Seqs
  import opened Strings
  import opened Types

  /** A user record as stored, password included. */
  datatype StoredUser = StoredUser(id: string, username: string, password: string, role: UserRole)
  {
    /** The record with its password field dropped. */
    function Public(): User {
      User(id, username, role)
    }
  }

  /** The accounts written to storage when no user list is stored yet. */
  function SeedUsers(): seq<StoredUser> {
    [StoredUser("u1", "admin", "password", ADMIN),
     StoredUser("u2", "operator", "password", OPERATOR)]
  }

  const InboundPrefix := "IB-"
  const SortedPrefix := "SP-"
  const FibrePrefix := "FP-"
  const QrCodeBase := "https://api.qrserver.com/v1/create-qr-code/?size=150x150&data="

  // ------------------------------------------------------------ lookups

  /** Index of the first stored user whose name matches `name` ignoring case, or |users|. */
  function IndexOfUsername(users: seq<StoredUser>, name: string): (k: nat)
    ensures k <= |users|
    ensures forall j :: 0 <= j < k ==> !SameIgnoringCase(users[j].username, name)
    ensures k < |users| ==> SameIgnoringCase(users[k].username, name)
  {
    if users == [] then 0
    else if SameIgnoringCase(users[0].username, name) then 0
    else 1 + IndexOfUsername(users[1..], name)
  }

  /** Some stored user already has this name, ignoring case. */
  predicate UsernameTaken(users: seq<StoredUser>, name: string) {
    IndexOfUsername(users, name) < |users|
  }

  /** After a successful `register` or `createUser` the new account is the one `login` finds
      for its name: no earlier account matches, since the name was free. */
  lemma {:induction false} FreshNameFoundLast(users: seq<StoredUser>, u: StoredUser)
    requires !UsernameTaken(users, u.username)
    ensures IndexOfUsername(users + [u], u.username) == |users|
  {
    if users != [] {
      assert (users + [u])[1..] == users[1..] + [u];
      FreshNameFoundLast(users[1..], u);
    }
  }

  /** Removing every account with one id leaves no account with that id and keeps all others
      in order. */
  lemma RemovedUserIsGone(users: seq<StoredUser>, userId: string)
    ensures var rest := Filter(users, (u: StoredUser) => u.id != userId);
      IndexOfUserId(rest, userId) == |rest| &&
      (forall i :: 0 <= i < |users| && users[i].id != userId ==> users[i] in rest) &&
      IsSubseq(rest, users)
  {
    FilterIsSubseq(users, (u: StoredUser) => u.id != userId);
  }

  /** Index of the first stored user with this id, or |users|. */
  function IndexOfUserId(users: seq<StoredUser>, id: string): (k: nat)
    ensures k <= |users|
    ensures forall j :: 0 <= j < k ==> users[j].id != id
    ensures k < |users| ==> users[k].id == id
  {
    if users == [] then 0
    else if users[0].id == id then 0
    else 1 + IndexOfUserId(users[1..], id)
  }

  /** Index of the first item with this id, or |items|. */
  function IndexOfItem(items: seq<TraceableItem>, id: string): (k: nat)
    ensures k <= |items|
    ensures forall j :: 0 <= j < k ==> items[j].Id() != id
    ensures k < |items| ==> items[k].Id() == id
  {
    if items == [] then 0
    else if items[0].Id() == id then 0
    else 1 + IndexOfItem(items[1..], id)
  }

  /** `items.find(i => i.id === id)`. */
  function FindById(items: seq<TraceableItem>, id: string): (r: Option<TraceableItem>)
    ensures r.None? <==> forall j :: 0 <= j < |items| ==> items[j].Id() != id
    ensures r.Some? ==> (r.value.Id() == id &&
      exists k :: 0 <= k < |items| && r.value == items[k] && (forall j :: 0 <= j < k ==> items[j].Id() != id))
  {
    var k := IndexOfItem(items, id);
    if k < |items| then Some(items[k]) else None
  }

  /** `items.filter(i => i.type === t)`, in store order. */
  function OfType(items: seq<TraceableItem>, t: BatchType): (r: seq<TraceableItem>)
    ensures forall i :: 0 <= i < |r| ==> r[i] in items && r[i].Type() == t
    ensures forall i :: 0 <= i < |items| && items[i].Type() == t ==> items[i] in r
    ensures IsSubseq(r, items)
  {
    FilterIsSubseq(items, (x: TraceableItem) => x.Type() == t);
    Filter(items, (x: TraceableItem) => x.Type() == t)
  }

  /** `getItemsByType` keeps every item of the type as often as the store holds it. */
  lemma OfTypeCounts(items: seq<TraceableItem>, t: BatchType, x: TraceableItem)
    ensures multiset(OfType(items, t))[x] == if x.Type() == t then multiset(items)[x] else 0
  {
    FilterMultiplicity(items, (x: TraceableItem) => x.Type() == t, x);
  }

  /** `items.filter(i => ids.includes(i.id))`. */
  function WithIds(items: seq<TraceableItem>, ids: seq<string>): seq<TraceableItem> {
    Filter(items, (x: TraceableItem) => x.Id() in ids)
  }

  /** `parents.map(p => p.parentInboundId)`. A parent that is not a sorted pack has no such
      field; its `undefined` matches no item id, so it is simply left out here. */
  function InboundRefs(parents: seq<TraceableItem>): (r: seq<string>)
    ensures |r| <= |parents|
    ensures forall i :: 0 <= i < |parents| && parents[i].Sorted? ==> parents[i].sorted.parentInboundId in r
    ensures forall k :: 0 <= k < |r| ==>
      exists i :: 0 <= i < |parents| && parents[i].Sorted? && parents[i].sorted.parentInboundId == r[k]
  {
    if parents == [] then []
    else
      var r := InboundRefs(parents[..|parents| - 1]);
      var p := parents[|parents| - 1];
      assert forall i :: 0 <= i < |parents| - 1 ==> parents[i] == parents[..|parents| - 1][i];
      if p.Sorted? then r + [p.sorted.parentInboundId] else r
  }

  // ------------------------------------------------------------ lineage

  /** The object `getTraceabilityChain` resolves to. */
  datatype Chain = Chain(root: TraceableItem, parents: seq<TraceableItem>, grandParents: seq<TraceableItem>)

  /** `getTraceabilityChain(rootId)` over the stored item list; None stands for `null`. */
  function TraceabilityChain(items: seq<TraceableItem>, rootId: string): (r: Option<Chain>)
    ensures r.None? <==> forall j :: 0 <= j < |items| ==> items[j].Id() != rootId
    ensures r.Some? ==> r.value.root.Id() == rootId && r.value.root in items
    ensures r.Some? ==> r.value.root == items[IndexOfItem(items, rootId)]
    ensures r.Some? && r.value.root.Sorted? ==>
      var k := IndexOfItem(items, r.value.root.sorted.parentInboundId);
      r.value.parents == if k < |items| then [items[k]] else []
    ensures r.Some? && r.value.root.Inbound? ==> r.value.parents == [] && r.value.grandParents == []
    ensures r.Some? && r.value.root.Sorted? ==>
      var want := r.value.root.sorted.parentInboundId;
      r.value.grandParents == [] && |r.value.parents| <= 1 &&
      (r.value.parents == [] <==> forall j :: 0 <= j < |items| ==> items[j].Id() != want) &&
      (r.value.parents != [] ==> r.value.parents[0] in items && r.value.parents[0].Id() == want)
    ensures r.Some? && r.value.root.Fibre? ==>
      var c := r.value;
      (forall i :: 0 <= i < |c.parents| ==> c.parents[i] in items && c.parents[i].Id() in c.root.fibre.parentSortedIds) &&
      (forall j :: 0 <= j < |items| && items[j].Id() in c.root.fibre.parentSortedIds ==> items[j] in c.parents)
  {
    match FindById(items, rootId)
    case None => None
    case Some(root) =>
      match root
      case Inbound(_) => Some(Chain(root, [], []))
      case Sorted(p) =>
        var parent := FindById(items, p.parentInboundId);
        Some(Chain(root, if parent.Some? then [parent.value] else [], []))
      case Fibre(f) =>
        var parents := WithIds(items, f.parentSortedIds);
        Some(Chain(root, parents, WithIds(items, InboundRefs(parents))))
  }

  /** A fibre pack's grandparents are exactly the stored items whose id some sorted parent
      names as its inbound batch. */
  lemma {:induction false} FibreGrandparents(items: seq<TraceableItem>, rootId: string)
    requires TraceabilityChain(items, rootId).Some?
    requires TraceabilityChain(items, rootId).value.root.Fibre?
    ensures var c := TraceabilityChain(items, rootId).value;
      (forall k :: 0 <= k < |c.grandParents| ==> (c.grandParents[k] in items &&
        exists i :: 0 <= i < |c.parents| && c.parents[i].Sorted? && c.parents[i].sorted.parentInboundId == c.grandParents[k].Id())) &&
      (forall j, i :: (0 <= j < |items| && 0 <= i < |c.parents| && c.parents[i].Sorted? &&
        c.parents[i].sorted.parentInboundId == items[j].Id()) ==> items[j] in c.grandParents)
  {
    var c := TraceabilityChain(items, rootId).value;
    var refs := InboundRefs(c.parents);
    assert c.grandParents == WithIds(items, refs);
    forall k | 0 <= k < |c.grandParents|
      ensures exists i :: 0 <= i < |c.parents| && c.parents[i].Sorted? && c.parents[i].sorted.parentInboundId == c.grandParents[k].Id()
    {
      var id := c.grandParents[k].Id();
      assert id in refs;
      var m := IndexOf(refs, id);
    }
  }

  /** Parents and grandparents keep the order of the stored list, whatever order the pack
      names them in. */
  lemma {:induction false} ChainKeepsStoreOrder(items: seq<TraceableItem>, rootId: string)
    requires TraceabilityChain(items, rootId).Some?
    ensures var c := TraceabilityChain(items, rootId).value;
      IsSubseq(c.parents, items) && IsSubseq(c.grandParents, items)
  {
    var c := TraceabilityChain(items, rootId).value;
    match c.root {
      case Inbound(_) =>
      case Sorted(p) =>
        if c.parents != [] {
          assert IsSubseq(c.parents, items) by {
            SingletonIsSubseq(items, c.parents[0]);
          }
        }
      case Fibre(f) =>
        FilterIsSubseq(items, (x: TraceableItem) => x.Id() in f.parentSortedIds);
        FilterIsSubseq(items, (x: TraceableItem) => x.Id() in InboundRefs(c.parents));
    }
  }

  lemma {:induction false} SingletonIsSubseq<T>(s: seq<T>, x: T)
    requires x in s
    ensures IsSubseq([x], s)
    decreases |s|
  {
    if s[|s| - 1] != x {
      assert x in s[..|s| - 1] by {
        var k :| 0 <= k < |s| && s[k] == x;
        assert s[..|s| - 1][k] == x;
      }
      SingletonIsSubseq(s[..|s| - 1], x);
    }
  }

  /** A fibre pack's parent list holds each stored item with a named id exactly as often as
      the store holds it, and nothing else. */
  lemma ParentMultiplicity(items: seq<TraceableItem>, rootId: string, x: TraceableItem)
    requires TraceabilityChain(items, rootId).Some?
    requires TraceabilityChain(items, rootId).value.root.Fibre?
    ensures var c := TraceabilityChain(items, rootId).value;
      multiset(c.parents)[x] == if x.Id() in c.root.fibre.parentSortedIds then multiset(items)[x] else 0
  {
    var f := TraceabilityChain(items, rootId).value.root.fibre;
    FilterMultiplicity(items, (y: TraceableItem) => y.Id() in f.parentSortedIds, x);
  }

  /** A fibre pack's grandparent list holds each stored item whose id a sorted parent names
      exactly as often as the store holds it, and nothing else. */
  lemma GrandparentMultiplicity(items: seq<TraceableItem>, rootId: string, x: TraceableItem)
    requires TraceabilityChain(items, rootId).Some?
    requires TraceabilityChain(items, rootId).value.root.Fibre?
    ensures var c := TraceabilityChain(items, rootId).value;
      multiset(c.grandParents)[x] == if x.Id() in InboundRefs(c.parents) then multiset(items)[x] else 0
  {
    var c := TraceabilityChain(items, rootId).value;
    FilterMultiplicity(items, (y: TraceableItem) => y.Id() in InboundRefs(c.parents), x);
  }

  /** With unique ids in the store, selecting by a list of ids yields no id twice and at
      most as many items as the list has entries. */
  lemma SelectUnique(items: seq<TraceableItem>, ids: seq<string>)
    requires NoDup(Ids(items))
    ensures NoDup(Ids(WithIds(items, ids))) && |WithIds(items, ids)| <= |ids|
  {
    var pick := (x: TraceableItem) => x.Id() in ids;
    var sel := Filter(items, pick);
    FilterIsSubseq(items, pick);
    SubseqMap(sel, items, (x: TraceableItem) => x.Id());
    SubseqNoDup(Ids(sel), Ids(items));
    NoDupCard(Ids(sel));
    ElemsCard(ids);
    assert Elems(Ids(sel)) <= Elems(ids) by {
      forall y | y in Elems(Ids(sel)) ensures y in Elems(ids) {
        var k :| 0 <= k < |sel| && Ids(sel)[k] == y;
        assert pick(sel[k]);
      }
    }
    SubsetCard(Elems(Ids(sel)), Elems(ids));
  }

  /** When ids are unique in the store, no grandparent is listed twice and there are no more
      grandparents than parents. */
  lemma GrandparentsBounded(items: seq<TraceableItem>, rootId: string)
    requires NoDup(Ids(items))
    requires TraceabilityChain(items, rootId).Some?
    ensures var c := TraceabilityChain(items, rootId).value;
      NoDup(Ids(c.grandParents)) && |c.grandParents| <= |c.parents|
  {
    var c := TraceabilityChain(items, rootId).value;
    if c.root.Fibre? {
      SelectUnique(items, InboundRefs(c.parents));
    }
  }

  lemma {:induction false} SubsetCard<T>(a: set<T>, b: set<T>)
    requires a <= b
    ensures |a| <= |b|
  {
    assert b == a + (b - a);
  }

  /** One inbound batch split into two sorted packs that are blended into one fibre pack:
      the lineage of the fibre pack lists both sorted packs in store order and the batch once. */
  lemma ChainExample(ib: InboundBatch, sa: SortedPack, sb: SortedPack, fp: FibrePack)
    requires ib.base.id == "IB-1" && sa.base.id == "SP-1" && sb.base.id == "SP-2" && fp.base.id == "FP-1"
    requires sa.parentInboundId == "IB-1" && sb.parentInboundId == "IB-1"
    requires fp.parentSortedIds == ["SP-2", "SP-1"]
    ensures TraceabilityChain([Inbound(ib), Sorted(sa), Sorted(sb), Fibre(fp)], "FP-1") ==
      Some(Chain(Fibre(fp), [Sorted(sa), Sorted(sb)], [Inbound(ib)]))
  {
    var items := [Inbound(ib), Sorted(sa), Sorted(sb), Fibre(fp)];
    assert FindById(items, "FP-1") == Some(Fibre(fp)) by {
      assert IndexOfItem(items, "FP-1") == 3 by {
        assert "IB-1" != "FP-1" && "SP-1" != "FP-1" && "SP-2" != "FP-1";
        assert items[1..][1..] == items[2..] && items[2..][1..] == items[3..];
        assert IndexOfItem(items[3..], "FP-1") == 0;
        assert IndexOfItem(items[2..], "FP-1") == 1;
        assert IndexOfItem(items[1..], "FP-1") == 2;
      }
    }
    ExampleParents(ib, sa, sb, fp);
    ExampleRefs(sa, sb);
    ExampleGrandparents(ib, sa, sb, fp, InboundRefs([Sorted(sa), Sorted(sb)]));
  }

  lemma ExampleParents(ib: InboundBatch, sa: SortedPack, sb: SortedPack, fp: FibrePack)
    requires ib.base.id == "IB-1" && sa.base.id == "SP-1" && sb.base.id == "SP-2" && fp.base.id == "FP-1"
    requires fp.parentSortedIds == ["SP-2", "SP-1"]
    ensures WithIds([Inbound(ib), Sorted(sa), Sorted(sb), Fibre(fp)], fp.parentSortedIds) == [Sorted(sa), Sorted(sb)]
  {
    var items := [Inbound(ib), Sorted(sa), Sorted(sb), Fibre(fp)];
    var pick := (x: TraceableItem) => x.Id() in fp.parentSortedIds;
    assert items[..3][..2][..1] == [Inbound(ib)];
    assert items[..3][..2] == [Inbound(ib), Sorted(sa)];
    assert items[..3] == [Inbound(ib), Sorted(sa), Sorted(sb)];
    assert "IB-1" != "SP-1" && "IB-1" != "SP-2" && "FP-1" != "SP-1" && "FP-1" != "SP-2";
    assert Filter([Inbound(ib)], pick) == [];
    assert Filter(items[..2], pick) == [Sorted(sa)];
    assert Filter(items[..3], pick) == [Sorted(sa), Sorted(sb)];
  }

  lemma ExampleGrandparents(ib: InboundBatch, sa: SortedPack, sb: SortedPack, fp: FibrePack, refs: seq<string>)
    requires ib.base.id == "IB-1" && sa.base.id == "SP-1" && sb.base.id == "SP-2" && fp.base.id == "FP-1"
    requires refs == ["IB-1", "IB-1"]
    ensures WithIds([Inbound(ib), Sorted(sa), Sorted(sb), Fibre(fp)], refs) == [Inbound(ib)]
  {
    var items := [Inbound(ib), Sorted(sa), Sorted(sb), Fibre(fp)];
    assert items[..3][..2][..1] == [Inbound(ib)];
    assert items[..3][..2] == [Inbound(ib), Sorted(sa)];
    assert items[..3] == [Inbound(ib), Sorted(sa), Sorted(sb)];
    assert "SP-1" != "IB-1" && "SP-2" != "IB-1" && "FP-1" != "IB-1";
    var pick := (x: TraceableItem) => x.Id() in refs;
    assert Filter([Inbound(ib)], pick) == [Inbound(ib)];
    assert Filter(items[..2], pick) == [Inbound(ib)];
    assert Filter(items[..3], pick) == [Inbound(ib)];
  }

  lemma ExampleRefs(sa: SortedPack, sb: SortedPack)
    requires sa.parentInboundId == "IB-1" && sb.parentInboundId == "IB-1"
    ensures InboundRefs([Sorted(sa), Sorted(sb)]) == ["IB-1", "IB-1"]
  {
    var parents := [Sorted(sa), Sorted(sb)];
    assert parents[..1] == [Sorted(sa)];
    assert InboundRefs(parents[..1]) == ["IB-1"];
  }

  // ------------------------------------------------------------ records

  /** The id scheme: a kind prefix followed by the last six digits of the millisecond clock. */
  function ItemId(prefix: string, nowMillis: string): string {
    prefix + Last(nowMillis, 6)
  }

  /** The kind an id announces by its prefix, if any. */
  function KindOfId(id: string): Option<BatchType> {
    if |id| >= 3 && id[..3] == InboundPrefix then Some(INBOUND)
    else if |id| >= 3 && id[..3] == SortedPrefix then Some(SORTED)
    else if |id| >= 3 && id[..3] == FibrePrefix then Some(FIBRE)
    else None
  }

  /** The fields every create operation fills in itself. */
  function NewBase(prefix: string, user: User, nowMillis: string, nowIso: string, notes: Option<string>): BaseItem {
    var id := ItemId(prefix, nowMillis);
    BaseItem(id, nowIso, user.username, QrCodeBase + id, notes)
  }

  /** What a caller of `createInboundBatch` supplies. */
  datatype InboundData = InboundData(supplier: string, cartonCount: int, cartonIds: seq<string>, notes: Option<string>)

  /** What a caller of `createSortedPack` supplies. */
  datatype SortedData = SortedData(
    parentInboundId: string, color: string, material: string, brand: string, weightKg: real, notes: Option<string>)

  /** What a caller of `createFibrePack` supplies. */
  datatype FibreData = FibreData(
    parentSortedIds: seq<string>, weightKg: real, brands: seq<string>, material: string, color: string,
    notes: Option<string>)

  function NewInbound(d: InboundData, user: User, nowMillis: string, nowIso: string): InboundBatch {
    InboundBatch(NewBase(InboundPrefix, user, nowMillis, nowIso, d.notes), d.supplier, d.cartonCount, d.cartonIds)
  }

  function NewSorted(d: SortedData, user: User, nowMillis: string, nowIso: string): SortedPack {
    SortedPack(NewBase(SortedPrefix, user, nowMillis, nowIso, d.notes),
      d.parentInboundId, d.color, d.material, d.brand, d.weightKg)
  }

  function NewFibre(d: FibreData, user: User, nowMillis: string, nowIso: string): FibrePack {
    FibrePack(NewBase(FibrePrefix, user, nowMillis, nowIso, d.notes),
      d.parentSortedIds, d.weightKg, d.brands, d.material, d.color)
  }

  /** A generated id starts with its kind's prefix and is followed by at most six clock
      digits, so the prefix tells the three kinds apart. */
  lemma ItemIdKind(prefix: string, nowMillis: string)
    requires prefix in [InboundPrefix, SortedPrefix, FibrePrefix]
    ensures var id := ItemId(prefix, nowMillis);
      |id| == 3 + (if |nowMillis| < 6 then |nowMillis| else 6) &&
      KindOfId(id) == (if prefix == InboundPrefix then Some(INBOUND)
                       else if prefix == SortedPrefix then Some(SORTED) else Some(FIBRE))
  {
    var id := ItemId(prefix, nowMillis);
    LastIsSuffix(nowMillis, 6);
    assert id[..3] == prefix;
  }

  /** Records made by different create operations never share an id, whatever the clock
      reads, and every record's QR URL ends with its own id. */
  lemma CreatedRecordsDiffer(di: InboundData, ds: SortedData, df: FibreData, user: User,
                             m1: string, m2: string, m3: string, iso: string)
    ensures var b := NewInbound(di, user, m1, iso);
      var p := NewSorted(ds, user, m2, iso);
      var f := NewFibre(df, user, m3, iso);
      b.base.id != p.base.id && p.base.id != f.base.id && b.base.id != f.base.id &&
      KindOfId(b.base.id) == Some(INBOUND) && KindOfId(p.base.id) == Some(SORTED) &&
      KindOfId(f.base.id) == Some(FIBRE) &&
      b.base.qrCodeUrl == QrCodeBase + b.base.id && p.base.qrCodeUrl == QrCodeBase + p.base.id &&
      f.base.qrCodeUrl == QrCodeBase + f.base.id
  {
    ItemIdKind(InboundPrefix, m1);
    ItemIdKind(SortedPrefix, m2);
    ItemIdKind(FibrePrefix, m3);
  }

  /** The `userId` of a new log entry: the session user's name, or 'unknown' when there is
      no session or the name is empty (`user?.username || 'unknown'`). */
  function LogActor(session: Option<User>): string {
    if session.Some? && session.value.username != "" then session.value.username else "unknown"
  }

  /** The user a create call records as creator: the session user, or a placeholder when
      there is none (in which case the call fails and nothing is recorded). */
  function SessionUser(session: Option<User>): User {
    if session.Some? then session.value else User("", "", OPERATOR)
  }

  function NewLog(action: string, details: string, related: Option<string>, session: Option<User>,
                  nowMillis: string, nowIso: string): AuditLog {
    AuditLog(nowMillis, action, nowIso, LogActor(session), details, related)
  }

  function InboundLog(b: InboundBatch, session: Option<User>, nowMillis: string, nowIso: string): AuditLog {
    NewLog("CREATE_INBOUND", "Created inbound batch " + b.base.id + " from supplier " + b.supplier,
      Some(b.base.id), session, nowMillis, nowIso)
  }

  function SortedLog(p: SortedPack, session: Option<User>, nowMillis: string, nowIso: string): AuditLog {
    NewLog("CREATE_SORTED", "Sorted pack " + p.base.id + " created from batch " + p.parentInboundId,
      Some(p.base.id), session, nowMillis, nowIso)
  }

  function FibreLog(f: FibrePack, session: Option<User>, nowMillis: string, nowIso: string): AuditLog {
    NewLog("CREATE_FIBRE",
      "Fibre pack " + f.base.id + " created from " + NatToString(|f.parentSortedIds|) + " sorted packs",
      Some(f.base.id), session, nowMillis, nowIso)
  }

  /** The local-storage entries the service reads and writes. */
  class Store {
    var items: seq<TraceableItem>
    var logs: seq<AuditLog>
    var users: seq<StoredUser>
    var session: Option<User>

    /** Storage as found; a missing user list reads as the seed accounts (`getUsers`). */
    constructor (items0: seq<TraceableItem>, logs0: seq<AuditLog>, storedUsers: Option<seq<StoredUser>>,
                 session0: Option<User>)
      ensures items == items0 && logs == logs0 && session == session0
      ensures users == if storedUsers.Some? then storedUsers.value else SeedUsers()
    {
      items := items0;
      logs := logs0;
      users := if storedUsers.Some? then storedUsers.value else SeedUsers();
      session := session0;
    }

    /** `saveItem`: push one item at the end of the stored list. */
    method SaveItem(item: TraceableItem)
      modifies this`items
      ensures items == old(items) + [item]
      ensures items[..|old(items)|] == old(items) && items[|items| - 1] == item
    {
      items := items + [item];
    }

    /** `addLog`: the new entry goes first (`unshift`). */
    method AddLog(action: string, details: string, related: Option<string>, nowMillis: string, nowIso: string)
      modifies this`logs
      ensures logs == [NewLog(action, details, related, session, nowMillis, nowIso)] + old(logs)
      ensures logs[0].userId == LogActor(session) && logs[1..] == old(logs)
    {
      var entry := NewLog(action, details, related, session, nowMillis, nowIso);
      logs := [entry] + logs;
    }

    /** `saveUser`: push one account at the end of the stored list. */
    method SaveUser(u: StoredUser)
      modifies this`users
      ensures users == old(users) + [u]
    {
      users := users + [u];
    }

    /** `register`: refuse a name taken in any letter case; otherwise store the account and
        sign it in. */
    method Register(username: string, password: string, role: UserRole, nowMillis: string)
      returns (r: Result<User>)
      modifies this`users, this`session
      ensures UsernameTaken(old(users), username) ==>
        r == Err("Username already taken") && users == old(users) && session == old(session)
      ensures !UsernameTaken(old(users), username) ==>
        var u := StoredUser("u-" + nowMillis, username, password, role);
        users == old(users) + [u] && r == Ok(u.Public()) && session == Some(u.Public())
    {
      if UsernameTaken(users, username) {
        return Err("Username already taken");
      }
      var newUser := StoredUser("u-" + nowMillis, username, password, role);
      SaveUser(newUser);
      var safeUser := newUser.Public();
      session := Some(safeUser);
      r := Ok(safeUser);
    }

    /** `login`: the FIRST account whose name matches ignoring case must carry exactly this
        password; an absent password never matches. */
    method Login(username: string, password: Option<string>) returns (r: Result<User>)
      modifies this`session
      ensures var k := IndexOfUsername(users, username);
        if k < |users| && password == Some(users[k].password)
        then r == Ok(users[k].Public()) && session == Some(users[k].Public())
        else r == Err("Invalid credentials") && session == old(session)
    {
      var k := IndexOfUsername(users, username);
      if k < |users| && password == Some(users[k].password) {
        var safeUser := users[k].Public();
        session := Some(safeUser);
        return Ok(safeUser);
      }
      r := Err("Invalid credentials");
    }

    /** `resetPassword`: succeeds exactly when some account has this name in any letter
        case; nothing is changed either way. */
    method ResetPassword(username: string) returns (r: Result<()>)
      ensures r.Ok? <==> exists k :: 0 <= k < |users| && SameIgnoringCase(users[k].username, username)
      ensures r.Err? ==> r.error == "User not found"
    {
      if !UsernameTaken(users, username) {
        return Err("User not found");
      }
      r := Ok(());
    }

    /** `logout`: drop the session entry. */
    method Logout()
      modifies this`session
      ensures session == None
    {
      session := None;
    }

    /** `getAllUsers`: every stored account, in order, without its password. */
    function AllUsers(): (r: seq<User>)
      reads this
      ensures |r| == |users|
      ensures forall i :: 0 <= i < |users| ==>
        r[i].id == users[i].id && r[i].username == users[i].username && r[i].role == users[i].role
    {
      Map(users, (u: StoredUser) => u.Public())
    }

    /** `createUser`: only an administrator may add an account, and the name must be free in
        any letter case; on success the account is stored and the creation is logged. */
    method CreateUser(username: string, password: string, role: UserRole, nowMillis: string,
                      logMillis: string, logIso: string) returns (r: Result<User>)
      modifies this`users, this`logs
      ensures old(session).None? || old(session).value.role != ADMIN ==>
        r == Err("Unauthorized") && users == old(users) && logs == old(logs)
      ensures old(session).Some? && old(session).value.role == ADMIN && UsernameTaken(old(users), username) ==>
        r == Err("Username already taken") && users == old(users) && logs == old(logs)
      ensures old(session).Some? && old(session).value.role == ADMIN && !UsernameTaken(old(users), username) ==>
        var u := StoredUser("u-" + nowMillis, username, password, role);
        users == old(users) + [u] && r == Ok(u.Public()) &&
        logs == [NewLog("ADMIN_CREATE_USER", "Admin " + session.value.username + " created user " + username,
                        None, session, logMillis, logIso)] + old(logs)
    {
      if session.None? || session.value.role != ADMIN {
        return Err("Unauthorized");
      }
      var admin := session.value;
      if UsernameTaken(users, username) {
        return Err("Username already taken");
      }
      var newUser := StoredUser("u-" + nowMillis, username, password, role);
      SaveUser(newUser);
      AddLog("ADMIN_CREATE_USER", "Admin " + admin.username + " created user " + username, None, logMillis, logIso);
      r := Ok(newUser.Public());
    }

    /** `deleteUser`: the checks run in this order and any failure changes nothing:
        not an administrator, the administrator's own id, an unknown id. */
    method DeleteUser(userId: string, logMillis: string, logIso: string) returns (r: Result<()>)
      modifies this`users, this`logs
      ensures old(session).None? || old(session).value.role != ADMIN ==>
        r == Err("Unauthorized") && users == old(users) && logs == old(logs)
      ensures old(session).Some? && old(session).value.role == ADMIN && old(session).value.id == userId ==>
        r == Err("You cannot delete your own account.") && users == old(users) && logs == old(logs)
      ensures old(session).Some? && old(session).value.role == ADMIN && old(session).value.id != userId &&
              IndexOfUserId(old(users), userId) == |old(users)| ==>
        r == Err("User not found") && users == old(users) && logs == old(logs)
      ensures old(session).Some? && old(session).value.role == ADMIN && old(session).value.id != userId &&
              IndexOfUserId(old(users), userId) < |old(users)| ==>
        var victim := old(users)[IndexOfUserId(old(users), userId)];
        r == Ok(()) &&
        users == Filter(old(users), (u: StoredUser) => u.id != userId) &&
        logs == [NewLog("ADMIN_DELETE_USER",
                        "Admin " + session.value.username + " deleted user " + victim.username +
                        " (ID: " + userId + ")", None, session, logMillis, logIso)] + old(logs)
    {
      if session.None? || session.value.role != ADMIN {
        return Err("Unauthorized");
      }
      var admin := session.value;
      if admin.id == userId {
        return Err("You cannot delete your own account.");
      }
      var k := IndexOfUserId(users, userId);
      if k == |users| {
        return Err("User not found");
      }
      var userToDelete := users[k];
      users := Filter(users, (u: StoredUser) => u.id != userId);
      AddLog("ADMIN_DELETE_USER",
        "Admin " + admin.username + " deleted user " + userToDelete.username + " (ID: " + userId + ")",
        None, logMillis, logIso);
      r := Ok(());
    }

    /** `createInboundBatch`: needs a session; stamps id, type, time, creator and QR URL,
        copies the supplied fields, appends the item and logs it. */
    method CreateInboundBatch(d: InboundData, nowMillis: string, nowIso: string) returns (r: Result<InboundBatch>)
      modifies this`items, this`logs
      ensures old(session).None? ==> r == Err("Unauthorized") && items == old(items) && logs == old(logs)
      ensures old(session).Some? ==>
        var b := NewInbound(d, old(session).value, nowMillis, nowIso);
        r == Ok(b) && items == old(items) + [Inbound(b)] && logs == [InboundLog(b, session, nowMillis, nowIso)] + old(logs)
    {
      if session.None? {
        return Err("Unauthorized");
      }
      var b := NewInbound(d, session.value, nowMillis, nowIso);
      SaveItem(Inbound(b));
      AddLog("CREATE_INBOUND", "Created inbound batch " + b.base.id + " from supplier " + d.supplier,
        Some(b.base.id), nowMillis, nowIso);
      r := Ok(b);
    }

    /** `createSortedPack`. */
    method CreateSortedPack(d: SortedData, nowMillis: string, nowIso: string) returns (r: Result<SortedPack>)
      modifies this`items, this`logs
      ensures session == old(session)
      ensures old(session).None? ==> r == Err("Unauthorized") && items == old(items) && logs == old(logs)
      ensures old(session).Some? ==>
        var p := NewSorted(d, old(session).value, nowMillis, nowIso);
        r == Ok(p) && items == old(items) + [Sorted(p)] && logs == [SortedLog(p, session, nowMillis, nowIso)] + old(logs)
    {
      if session.None? {
        return Err("Unauthorized");
      }
      var p := NewSorted(d, session.value, nowMillis, nowIso);
      SaveItem(Sorted(p));
      AddLog("CREATE_SORTED", "Sorted pack " + p.base.id + " created from batch " + d.parentInboundId,
        Some(p.base.id), nowMillis, nowIso);
      r := Ok(p);
    }

    /** `createFibrePack`. */
    method CreateFibrePack(d: FibreData, nowMillis: string, nowIso: string) returns (r: Result<FibrePack>)
      modifies this`items, this`logs
      ensures session == old(session)
      ensures old(session).None? ==> r == Err("Unauthorized") && items == old(items) && logs == old(logs)
      ensures old(session).Some? ==>
        var f := NewFibre(d, old(session).value, nowMillis, nowIso);
        r == Ok(f) && items == old(items) + [Fibre(f)] && logs == [FibreLog(f, session, nowMillis, nowIso)] + old(logs)
    {
      if session.None? {
        return Err("Unauthorized");
      }
      var f := NewFibre(d, session.value, nowMillis, nowIso);
      SaveItem(Fibre(f));
      AddLog("CREATE_FIBRE",
        "Fibre pack " + f.base.id + " created from " + NatToString(|d.parentSortedIds|) + " sorted packs",
        Some(f.base.id), nowMillis, nowIso);
      r := Ok(f);
    }

    /** `getTraceabilityChain`, step by step as the service builds its `chain` object. */
    method GetTraceabilityChain(rootId: string) returns (r: Option<Chain>)
      ensures r == TraceabilityChain(items, rootId)
      ensures r.None? <==> forall j :: 0 <= j < |items| ==> items[j].Id() != rootId
    {
      var allItems := items;
      var root := FindById(allItems, rootId);
      if root.None? {
        return None;
      }
      var chain := Chain(root.value, [], []);
      match root.value {
        case Inbound(_) =>
        case Sorted(p) =>
          var parent := FindById(allItems, p.parentInboundId);
          if parent.Some? {
            chain := chain.(parents := chain.parents + [parent.value]);
            assert chain.parents == [parent.value];
          }
        case Fibre(f) =>
          var parents := WithIds(allItems, f.parentSortedIds);
          chain := chain.(parents := parents);
          var grandParentIds := InboundRefs(parents);
          chain := chain.(grandParents := WithIds(allItems, grandParentIds));
      }
      r := Some(chain);
    }
  }
}
