/** The application shell: the figures the home dashboard aggregates from the store,
    the time-of-day greeting, and the routing state that keeps an OPERATOR off the
    home tab and the admin-only tabs behind the ADMIN role. */
module Dashboard {
  import opened Seqs
  import opened Types
  import Api

  // ------------------------------------------------------------ counts

  /** `items.filter(i => i.type === t).length`. */
  function CountOfType(items: seq<TraceableItem>, t: BatchType): (r: nat)
    ensures r <= |items|
    ensures r == 0 <==> forall i :: 0 <= i < |items| ==> items[i].Type() != t
  {
    var f := Api.OfType(items, t);
    assert |f| > 0 ==> f[0] in items && f[0].Type() == t;
    assert |f| == 0 ==> forall i :: 0 <= i < |items| ==> items[i].Type() != t;
    |f|
  }

  /** `items.filter(i => i.createdBy === username).length`: exact, case-sensitive match. */
  function MyTotalProcessed(items: seq<TraceableItem>, username: string): (r: nat)
    ensures r <= |items|
    ensures r == 0 <==> forall i :: 0 <= i < |items| ==> items[i].CreatedBy() != username
  {
    var f := Filter(items, (x: TraceableItem) => x.CreatedBy() == username);
    assert |f| > 0 ==> f[0] in items && f[0].CreatedBy() == username;
    assert |f| == 0 ==> forall i :: 0 <= i < |items| ==> items[i].CreatedBy() != username;
    |f|
  }

  /** Adding one item raises the count of its own type by one and leaves the others alone. */
  lemma CountAppend(items: seq<TraceableItem>, x: TraceableItem, t: BatchType)
    ensures CountOfType(items + [x], t) == CountOfType(items, t) + (if x.Type() == t then 1 else 0)
  {
    assert (items + [x])[..|items|] == items;
  }

  /** Adding one item raises its creator's count by one and nobody else's. */
  lemma MyTotalAppend(items: seq<TraceableItem>, x: TraceableItem, username: string)
    ensures MyTotalProcessed(items + [x], username) ==
            MyTotalProcessed(items, username) + (if x.CreatedBy() == username then 1 else 0)
  {
    assert (items + [x])[..|items|] == items;
  }

  /** Every item has exactly one of the three types, so the production volume adds up
      to `totalBatches`. */
  lemma {:induction false} VolumeTotal(items: seq<TraceableItem>)
    ensures CountOfType(items, INBOUND) + CountOfType(items, SORTED) + CountOfType(items, FIBRE) == |items|
  {
    if items != [] {
      var s := items[..|items| - 1];
      var x := items[|items| - 1];
      VolumeTotal(s);
      assert items == s + [x];
      CountAppend(s, x, INBOUND);
      CountAppend(s, x, SORTED);
      CountAppend(s, x, FIBRE);
    }
  }

  /** A pack created by the store is credited to the signed-in user who created it. */
  lemma CreatedPackCredited(items: seq<TraceableItem>, d: Api.SortedData, user: User,
                            nowMillis: string, nowIso: string)
    ensures MyTotalProcessed(items + [Sorted(Api.NewSorted(d, user, nowMillis, nowIso))], user.username) ==
            MyTotalProcessed(items, user.username) + 1
    ensures CountOfType(items + [Sorted(Api.NewSorted(d, user, nowMillis, nowIso))], SORTED) ==
            CountOfType(items, SORTED) + 1
  {
    var x := Sorted(Api.NewSorted(d, user, nowMillis, nowIso));
    MyTotalAppend(items, x, user.username);
    CountAppend(items, x, SORTED);
  }

  // ------------------------------------------------------------ sums

  /** The `reduce((acc, b) => acc + b.cartonCount, 0)` over a list of inbound batches. */
  function CartonSum(xs: seq<TraceableItem>): int {
    if xs == [] then 0
    else
      var x := xs[|xs| - 1];
      CartonSum(xs[..|xs| - 1]) + (if x.Inbound? then x.inbound.cartonCount else 0)
  }

  /** The `reduce((acc, f) => acc + f.weightKg, 0)` over a list of fibre packs. */
  function FibreKgSum(xs: seq<TraceableItem>): real {
    if xs == [] then 0.0
    else
      var x := xs[|xs| - 1];
      FibreKgSum(xs[..|xs| - 1]) + (if x.Fibre? then x.fibre.weightKg else 0.0)
  }

  /** `totalCartons`: the carton counts of the INBOUND items, added up. */
  function TotalCartons(items: seq<TraceableItem>): int {
    CartonSum(Api.OfType(items, INBOUND))
  }

  /** `totalFibreKg`: the weights of the FIBRE items, added up. */
  function TotalFibreKg(items: seq<TraceableItem>): real {
    FibreKgSum(Api.OfType(items, FIBRE))
  }

  /** An empty store has no cartons and no fibre weight. */
  lemma EmptyTotals()
    ensures TotalCartons([]) == 0 && TotalFibreKg([]) == 0.0
  {
    assert Api.OfType([], INBOUND) == [];
    assert Api.OfType([], FIBRE) == [];
  }

  /** Adding an item adds its cartons when it is an inbound batch and nothing otherwise. */
  lemma CartonsAppend(items: seq<TraceableItem>, x: TraceableItem)
    ensures TotalCartons(items + [x]) ==
            TotalCartons(items) + (if x.Inbound? then x.inbound.cartonCount else 0)
  {
    var s := items + [x];
    assert s[..|items|] == items;
    var f := Api.OfType(s, INBOUND);
    if x.Inbound? {
      assert f[..|f| - 1] == Api.OfType(items, INBOUND);
    }
  }

  /** Adding an item adds its weight when it is a fibre pack and nothing otherwise. */
  lemma FibreKgAppend(items: seq<TraceableItem>, x: TraceableItem)
    ensures TotalFibreKg(items + [x]) ==
            TotalFibreKg(items) + (if x.Fibre? then x.fibre.weightKg else 0.0)
  {
    var s := items + [x];
    assert s[..|items|] == items;
    var f := Api.OfType(s, FIBRE);
    if x.Fibre? {
      assert f[..|f| - 1] == Api.OfType(items, FIBRE);
    }
  }

  /** With non-negative carton counts the carton total is non-negative. */
  lemma {:induction false} CartonsNonNegative(items: seq<TraceableItem>)
    requires forall i :: 0 <= i < |items| && items[i].Inbound? ==> items[i].inbound.cartonCount >= 0
    ensures TotalCartons(items) >= 0
  {
    if items == [] {
      EmptyTotals();
    } else {
      var s := items[..|items| - 1];
      assert items == s + [items[|items| - 1]];
      CartonsNonNegative(s);
      CartonsAppend(s, items[|items| - 1]);
    }
  }

  // ------------------------------------------------------------ material breakdown

  /** One entry of the material pie: a material name and the weight sorted into it. */
  datatype Slice = Slice(name: string, value: real)

  function Names(slices: seq<Slice>): seq<string> {
    Map(slices, (s: Slice) => s.name)
  }

  /** The `material` of each sorted pack, in order. */
  function Materials(packs: seq<SortedPack>): seq<string> {
    if packs == [] then [] else Materials(packs[..|packs| - 1]) + [packs[|packs| - 1].material]
  }

  /** Total weight of the packs whose material is exactly m. */
  function MaterialWeight(packs: seq<SortedPack>, m: string): real {
    if packs == [] then 0.0
    else
      var p := packs[|packs| - 1];
      MaterialWeight(packs[..|packs| - 1], m) + (if p.material == m then p.weightKg else 0.0)
  }

  /** Total weight of the packs. */
  function TotalWeight(packs: seq<SortedPack>): real {
    if packs == [] then 0.0 else TotalWeight(packs[..|packs| - 1]) + packs[|packs| - 1].weightKg
  }

  /** Sum of the slice values. */
  function SliceTotal(slices: seq<Slice>): real {
    if slices == [] then 0.0 else SliceTotal(slices[..|slices| - 1]) + slices[|slices| - 1].value
  }

  /** r holds, per distinct material of ps in first-appearance order, that material's weight. */
  predicate Tallies(r: seq<Slice>, ps: seq<SortedPack>) {
    Names(r) == Distinct(Materials(ps)) &&
    forall k :: 0 <= k < |r| ==> r[k].value == MaterialWeight(ps, r[k].name)
  }

  /** `materialBreakdown`: the sorted packs of the store, tallied per material. The result
      has one entry per distinct material, in first-appearance order, holding that
      material's total weight. */
  method MaterialBreakdown(items: seq<TraceableItem>) returns (r: seq<Slice>)
    ensures Names(r) == Distinct(Materials(SortedPacksOf(items)))
    ensures forall k :: 0 <= k < |r| ==> r[k].value == MaterialWeight(SortedPacksOf(items), r[k].name)
  {
    r := TallyMaterials(SortedPacksOf(items));
  }

  /** The reduce over the sorted packs that looks the material up with `findIndex` and
      either adds the weight to that entry or pushes a new entry. */
  method TallyMaterials(packs: seq<SortedPack>) returns (r: seq<Slice>)
    ensures Tallies(r, packs)
  {
    r := [];
    var i := 0;
    while i < |packs|
      invariant 0 <= i <= |packs|
      invariant Tallies(r, packs[..i])
    {
      var p := packs[i];
      assert packs[..i + 1] == packs[..i] + [p];
      var idx := FindIndex(Names(r), p.material);
      if idx >= 0 {
        AddToTally(r, packs[..i], p, idx);
        r := r[idx := Slice(p.material, r[idx].value + p.weightKg)];
      } else {
        NewTally(r, packs[..i], p);
        r := r + [Slice(p.material, p.weightKg)];
      }
      i := i + 1;
    }
    assert packs[..i] == packs;
  }

  /** Appending a pack appends its material and adds its weight to that material only. */
  lemma AppendPack(ps: seq<SortedPack>, p: SortedPack)
    ensures Materials(ps + [p]) == Materials(ps) + [p.material]
    ensures forall m :: MaterialWeight(ps + [p], m) == MaterialWeight(ps, m) + (if p.material == m then p.weightKg else 0.0)
  {
    assert (ps + [p])[..|ps|] == ps;
  }

  /** The `acc[idx].value += curr.weightKg` step keeps the tally. */
  lemma AddToTally(r: seq<Slice>, ps: seq<SortedPack>, p: SortedPack, idx: nat)
    requires Tallies(r, ps) && idx < |r| && r[idx].name == p.material
    ensures Tallies(r[idx := Slice(p.material, r[idx].value + p.weightKg)], ps + [p])
  {
    var r' := r[idx := Slice(p.material, r[idx].value + p.weightKg)];
    AppendPack(ps, p);
    DistinctAppend(Materials(ps), p.material);
    assert Names(r') == Names(r);
    assert Names(r)[idx] == p.material;
    forall k | 0 <= k < |r'| ensures r'[k].value == MaterialWeight(ps + [p], r'[k].name) {
      if k != idx {
        assert Names(r)[k] != Names(r)[idx];
      }
    }
  }

  /** The `acc.push({ name, value })` step for a new material keeps the tally. */
  lemma NewTally(r: seq<Slice>, ps: seq<SortedPack>, p: SortedPack)
    requires Tallies(r, ps) && p.material !in Names(r)
    ensures Tallies(r + [Slice(p.material, p.weightKg)], ps + [p])
  {
    var r' := r + [Slice(p.material, p.weightKg)];
    AppendPack(ps, p);
    DistinctAppend(Materials(ps), p.material);
    assert Names(r') == Names(r) + [p.material];
    NewMaterialWeighsNothing(ps, p.material);
    forall k | 0 <= k < |r| ensures r'[k].value == MaterialWeight(ps + [p], r'[k].name) {
      assert Names(r)[k] != p.material;
    }
  }

  /** A material not among the distinct materials of ps weighs nothing in ps. */
  lemma NewMaterialWeighsNothing(ps: seq<SortedPack>, m: string)
    requires m !in Distinct(Materials(ps))
    ensures MaterialWeight(ps, m) == 0.0
  {
    MaterialsCover(ps);
    forall k | 0 <= k < |ps| ensures ps[k].material != m {
      assert Materials(ps)[k] in Distinct(Materials(ps));
    }
    NoOtherWeight(ps, m);
  }

  /** A material that no pack has weighs nothing. */
  lemma {:induction false} NoOtherWeight(ps: seq<SortedPack>, m: string)
    requires forall k :: 0 <= k < |ps| ==> ps[k].material != m
    ensures MaterialWeight(ps, m) == 0.0
  {
    if ps != [] {
      NoOtherWeight(ps[..|ps| - 1], m);
    }
  }

  /** Summing over a list of material names. */
  function SumOver(names: seq<string>, packs: seq<SortedPack>): real {
    if names == [] then 0.0
    else SumOver(names[..|names| - 1], packs) + MaterialWeight(packs, names[|names| - 1])
  }

  lemma {:induction false} SliceTotalIsSumOver(slices: seq<Slice>, packs: seq<SortedPack>)
    requires forall k :: 0 <= k < |slices| ==> slices[k].value == MaterialWeight(packs, slices[k].name)
    ensures SliceTotal(slices) == SumOver(Names(slices), packs)
  {
    if slices != [] {
      var s := slices[..|slices| - 1];
      SliceTotalIsSumOver(s, packs);
      assert Names(slices)[..|s|] == Names(s);
    }
  }

  lemma {:induction false} SumOverEmpty(names: seq<string>)
    ensures SumOver(names, []) == 0.0
  {
    if names != [] {
      SumOverEmpty(names[..|names| - 1]);
    }
  }

  /** One more pack adds its weight once to a duplicate-free list holding its material. */
  lemma {:induction false} SumOverStep(names: seq<string>, packs: seq<SortedPack>, p: SortedPack)
    requires NoDup(names)
    ensures SumOver(names, packs + [p]) ==
            SumOver(names, packs) + (if p.material in names then p.weightKg else 0.0)
  {
    assert (packs + [p])[..|packs|] == packs;
    if names != [] {
      var n := names[..|names| - 1];
      assert NoDup(n);
      assert names == n + [names[|names| - 1]];
      SumOverStep(n, packs, p);
    }
  }

  lemma {:induction false} SumOverCovering(names: seq<string>, packs: seq<SortedPack>)
    requires NoDup(names)
    requires forall k :: 0 <= k < |packs| ==> packs[k].material in names
    ensures SumOver(names, packs) == TotalWeight(packs)
  {
    if packs == [] {
      SumOverEmpty(names);
    } else {
      var s := packs[..|packs| - 1];
      var p := packs[|packs| - 1];
      SumOverCovering(names, s);
      assert packs == s + [p];
      SumOverStep(names, s, p);
    }
  }

  lemma {:induction false} MaterialsCover(packs: seq<SortedPack>)
    ensures |Materials(packs)| == |packs|
    ensures forall k :: 0 <= k < |packs| ==> Materials(packs)[k] == packs[k].material
  {
    if packs != [] {
      MaterialsCover(packs[..|packs| - 1]);
    }
  }

  /** The breakdown's values add up to the total weight of the sorted packs. */
  lemma BreakdownTotal(packs: seq<SortedPack>, slices: seq<Slice>)
    requires Names(slices) == Distinct(Materials(packs))
    requires forall k :: 0 <= k < |slices| ==> slices[k].value == MaterialWeight(packs, slices[k].name)
    ensures SliceTotal(slices) == TotalWeight(packs)
  {
    SliceTotalIsSumOver(slices, packs);
    MaterialsCover(packs);
    var names := Names(slices);
    forall k | 0 <= k < |packs| ensures packs[k].material in names {
      assert Materials(packs)[k] in names;
    }
    SumOverCovering(names, packs);
  }

  // ------------------------------------------------------------ the dashboard record

  /** One bar of the production-volume chart. */
  datatype Volume = Volume(name: string, value: nat)

  /** `productionVolume`: the three type counts, in the order Inbound, Sorted, Fibre. */
  function ProductionVolume(items: seq<TraceableItem>): (r: seq<Volume>)
    ensures |r| == 3 && r[0].name == "Inbound" && r[1].name == "Sorted" && r[2].name == "Fibre"
    ensures r[0].value == CountOfType(items, INBOUND) && r[1].value == CountOfType(items, SORTED) &&
            r[2].value == CountOfType(items, FIBRE)
    ensures r[0].value + r[1].value + r[2].value == |items|
  {
    VolumeTotal(items);
    [Volume("Inbound", CountOfType(items, INBOUND)),
     Volume("Sorted", CountOfType(items, SORTED)),
     Volume("Fibre", CountOfType(items, FIBRE))]
  }

  datatype DashboardData = DashboardData(
    inboundCount: nat,
    myTotalProcessed: nat,
    totalCartons: int,
    totalFibreKg: real,
    totalUsers: nat,
    totalBatches: nat,
    materialBreakdown: seq<Slice>,
    productionVolume: seq<Volume>)

  /** The figures shown before any data has been fetched. */
  function InitialData(): DashboardData {
    DashboardData(0, 0, 0, 0.0, 0, 0, [], [])
  }

  /** d holds every figure of the dashboard for these item and user lists and this user:
      the counts, the sums, one breakdown slice per distinct sorted material in
      first-appearance order with that material's weight, and the three volume bars. */
  predicate Summarizes(d: DashboardData, items: seq<TraceableItem>, users: seq<User>, username: string) {
    d.inboundCount == CountOfType(items, INBOUND) &&
    d.myTotalProcessed == MyTotalProcessed(items, username) &&
    d.totalCartons == TotalCartons(items) && d.totalFibreKg == TotalFibreKg(items) &&
    d.totalUsers == |users| && d.totalBatches == |items| &&
    Names(d.materialBreakdown) == Distinct(Materials(SortedPacksOf(items))) &&
    (forall k :: 0 <= k < |d.materialBreakdown| ==>
      d.materialBreakdown[k].value == MaterialWeight(SortedPacksOf(items), d.materialBreakdown[k].name)) &&
    SliceTotal(d.materialBreakdown) == TotalWeight(SortedPacksOf(items)) &&
    d.productionVolume == ProductionVolume(items)
  }

  /** The home-tab fetch: every figure computed from the item and user lists. */
  method Aggregate(items: seq<TraceableItem>, users: seq<User>, username: string) returns (d: DashboardData)
    ensures Summarizes(d, items, users, username)
  {
    var breakdown := MaterialBreakdown(items);
    BreakdownTotal(SortedPacksOf(items), breakdown);
    d := DashboardData(
      CountOfType(items, INBOUND),
      MyTotalProcessed(items, username),
      TotalCartons(items),
      TotalFibreKg(items),
      |users|,
      |items|,
      breakdown,
      ProductionVolume(items));
  }

  // ------------------------------------------------------------ greeting

  /** `getGreeting` for the hour of the local clock. */
  function Greeting(hour: int): (r: string)
    ensures r == "Good morning" <==> hour < 12
    ensures r == "Good afternoon" <==> 12 <= hour < 18
    ensures r == "Good evening" <==> hour >= 18
  {
    if hour < 12 then "Good morning"
    else if hour < 18 then "Good afternoon"
    else "Good evening"
  }

  // ------------------------------------------------------------ routing

  datatype PublicRoute = LandingRoute | LoginRoute | SignupRoute

  /** What the shell shows: a public page, nothing, one of the tab views, the access-denied
      panel or the home dashboard. */
  datatype Screen =
    | LandingPage
    | AuthPage(signup: bool)
    | Blank
    | TabPage(tab: string)
    | AccessDenied
    | HomeDashboard

  /** The tabs with a view of their own, open to every signed-in user. */
  predicate IsOperatorTab(tab: string) {
    tab == "inbound" || tab == "sorting" || tab == "fibre" || tab == "consignment" || tab == "trace"
  }

  /** The tabs whose view needs the ADMIN role. */
  predicate IsAdminTab(tab: string) {
    tab == "printing" || tab == "admin" || tab == "configs"
  }

  /** The render: public pages without a user, `renderAppView` with one. Any other tab
      string, 'home' included, falls through to the dashboard. */
  function Render(user: Option<User>, route: PublicRoute, tab: string): (r: Screen)
    ensures user.None? <==> (r.LandingPage? || r.AuthPage?)
    ensures user.None? ==> (r == LandingPage <==> route == LandingRoute) && (r == AuthPage(true) <==> route == SignupRoute)
    ensures user.Some? && user.value.role == OPERATOR && tab == "home" ==> r == Blank
    ensures user.Some? && IsAdminTab(tab) ==>
      (r == TabPage(tab) <==> user.value.role == ADMIN) && (r == AccessDenied <==> user.value.role != ADMIN)
    ensures user.Some? && IsOperatorTab(tab) ==> r == TabPage(tab)
    ensures r == HomeDashboard <==> (user.Some? && !IsOperatorTab(tab) && !IsAdminTab(tab) &&
                                     (tab == "home" ==> user.value.role == ADMIN))
  {
    match user
    case None =>
      if route == LandingRoute then LandingPage else AuthPage(route == SignupRoute)
    case Some(u) =>
      if u.role == OPERATOR && tab == "home" then Blank
      else if IsOperatorTab(tab) then TabPage(tab)
      else if IsAdminTab(tab) then (if u.role == ADMIN then TabPage(tab) else AccessDenied)
      else
        assert tab == "home" ==> u.role == ADMIN;
        HomeDashboard
  }

  /** The shell's routing and dashboard state. */
  class AppState {
    var user: Option<User>
    var publicRoute: PublicRoute
    var activeTab: string
    var dashboardData: DashboardData

    /** No OPERATOR sits on the home tab once the redirect effect has run. */
    predicate Settled()
      reads this
    {
      !(user.Some? && user.value.role == OPERATOR && activeTab == "home")
    }

    /** Mount: restore the session user, then let the redirect effect run. */
    constructor(session: Option<User>)
      ensures user == session && publicRoute == LandingRoute
      ensures activeTab == (if session.Some? && session.value.role == OPERATOR then "inbound" else "home")
      ensures dashboardData == InitialData()
      ensures Settled()
    {
      user := session;
      publicRoute := LandingRoute;
      activeTab := "home";
      dashboardData := InitialData();
      new;
      RedirectEffect();
    }

    /** The effect that moves an OPERATOR from 'home' to 'inbound'. */
    method RedirectEffect()
      modifies this`activeTab
      ensures activeTab == (if user.Some? && user.value.role == OPERATOR && old(activeTab) == "home"
                            then "inbound" else old(activeTab))
      ensures Settled()
    {
      if user.Some? && user.value.role == OPERATOR && activeTab == "home" {
        activeTab := "inbound";
      }
    }

    /** A click in the navigation, followed by the redirect effect. */
    method Navigate(tab: string)
      modifies this`activeTab
      ensures activeTab == (if user.Some? && user.value.role == OPERATOR && tab == "home" then "inbound" else tab)
      ensures Settled()
    {
      activeTab := tab;
      RedirectEffect();
    }

    /** `handleLoginSuccess`: an OPERATOR lands on 'inbound', anybody else on 'home'. */
    method LoginSuccess(u: User)
      modifies this`user, this`activeTab
      ensures user == Some(u)
      ensures activeTab == (if u.role == OPERATOR then "inbound" else "home")
      ensures Settled()
    {
      user := Some(u);
      activeTab := if u.role == OPERATOR then "inbound" else "home";
    }

    /** `handleLogout`: ends the store's session and returns to the landing page on 'home'. */
    method Logout(store: Api.Store)
      modifies this`user, this`publicRoute, this`activeTab, store`session
      ensures user == None && publicRoute == LandingRoute && activeTab == "home"
      ensures store.session == None
      ensures Settled()
    {
      store.Logout();
      user := None;
      publicRoute := LandingRoute;
      activeTab := "home";
    }

    /** The landing page's "get started" and "sign in" buttons and the auth page's back button. */
    method SetPublicRoute(route: PublicRoute)
      modifies this`publicRoute
      ensures publicRoute == route
    {
      publicRoute := route;
    }

    /** The home-tab fetch, run only with a signed-in user on 'home'. */
    method RefreshDashboard(items: seq<TraceableItem>, users: seq<User>)
      modifies this`dashboardData
      ensures !(user.Some? && activeTab == "home") ==> dashboardData == old(dashboardData)
      ensures user.Some? && activeTab == "home" ==> Summarizes(dashboardData, items, users, user.value.username)
    {
      if user.Some? && activeTab == "home" {
        dashboardData := Aggregate(items, users, user.value.username);
      }
    }

    /** What is on screen. */
    function CurrentScreen(): Screen
      reads this
    {
      Render(user, publicRoute, activeTab)
    }
  }
}
