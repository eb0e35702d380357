/** Small pure pieces of the shared components: the multi-select toggle, the navigation
    list each role sees, and the button's style and disabled state. */
module UI {
  import opened Seqs
  import opened Types
  import Dashboard

  // ------------------------------------------------------------ multi-select

  /** `MultiSelectionGrid`'s `handleToggle`: a selected option is removed (every occurrence),
      an unselected one is appended. */
  function Toggle(values: seq<string>, opt: string): (r: seq<string>)
    ensures opt in values ==> r == Without(values, opt)
    ensures opt !in values ==> r == values + [opt]
    ensures opt in r <==> opt !in values
    ensures forall x :: x != opt ==> (x in r <==> x in values)
  {
    if opt in values then Without(values, opt) else values + [opt]
  }

  /** Toggling an unselected option twice restores the selection. */
  lemma ToggleTwice(values: seq<string>, opt: string)
    requires opt !in values
    ensures Toggle(Toggle(values, opt), opt) == values
  {
    AppendThenWithout(values, opt);
  }

  /** A selection without repeats stays without repeats. */
  lemma ToggleKeepsNoDup(values: seq<string>, opt: string)
    requires NoDup(values)
    ensures NoDup(Toggle(values, opt))
  {
    if opt in values {
      SubseqNoDup(Without(values, opt), values);
    }
  }

  /** Toggling leaves every other option selected exactly as often as before. */
  lemma ToggleCounts(values: seq<string>, opt: string, x: string)
    requires x != opt
    ensures multiset(Toggle(values, opt))[x] == multiset(values)[x]
  {
    if opt in values {
      WithoutCounts(values, opt, x);
    }
  }

  // ------------------------------------------------------------ navigation

  /** One navigation entry: its id and its label (the icon is not modelled). */
  datatype NavItem = NavItem(id: string, caption: string)

  /** The entries every signed-in user sees. */
  const OperatorItems: seq<NavItem> := [
    NavItem("inbound", "Inbound"),
    NavItem("sorting", "Sorting"),
    NavItem("fibre", "Fibre"),
    NavItem("consignment", "Consignment"),
    NavItem("trace", "Trace")]

  /** The entries only an ADMIN sees after the operator ones. */
  const AdminItems: seq<NavItem> := [
    NavItem("printing", "Printing"),
    NavItem("admin", "Admin"),
    NavItem("configs", "Configs")]

  const HomeItem: NavItem := NavItem("home", "Home")

  /** `Layout.getNavItems`. */
  function NavItems(role: UserRole): (r: seq<NavItem>)
    ensures role == OPERATOR ==> r == OperatorItems
    ensures role == ADMIN ==> r == [HomeItem] + OperatorItems + AdminItems
  {
    if role == ADMIN then [HomeItem] + OperatorItems + AdminItems else OperatorItems
  }

  /** An OPERATOR is offered neither 'home' nor any admin-only tab; an ADMIN is offered
      'home' first and everything an OPERATOR is offered. */
  lemma NavByRole()
    ensures forall k :: 0 <= k < |NavItems(OPERATOR)| ==>
      NavItems(OPERATOR)[k].id != "home" && !Dashboard.IsAdminTab(NavItems(OPERATOR)[k].id)
    ensures NavItems(ADMIN)[0].id == "home"
    ensures forall k :: 0 <= k < |OperatorItems| ==> OperatorItems[k] in NavItems(ADMIN)
    ensures |NavItems(ADMIN)| == |NavItems(OPERATOR)| + 4
  {
    var ops := NavItems(OPERATOR);
    forall k | 0 <= k < |ops| ensures ops[k].id != "home" && !Dashboard.IsAdminTab(ops[k].id) {
      assert Dashboard.IsOperatorTab(ops[k].id);
    }
    var all := NavItems(ADMIN);
    forall k | 0 <= k < |OperatorItems| ensures OperatorItems[k] in all {
      assert all[k + 1] == OperatorItems[k];
    }
  }

  /** Every entry the navigation offers opens a view for that role: never the blank screen
      and never the access-denied panel. */
  lemma NavOpensViews(u: User, route: Dashboard.PublicRoute, k: nat)
    requires k < |NavItems(u.role)|
    ensures var s := Dashboard.Render(Some(u), route, NavItems(u.role)[k].id);
      s != Dashboard.Blank && s != Dashboard.AccessDenied
  {
    var id := NavItems(u.role)[k].id;
    if u.role == OPERATOR {
      assert Dashboard.IsOperatorTab(id);
    } else if k == 0 {
      assert id == "home";
    } else if k <= 5 {
      assert id == OperatorItems[k - 1].id;
      assert Dashboard.IsOperatorTab(id);
    } else {
      assert id == AdminItems[k - 6].id;
      assert Dashboard.IsAdminTab(id);
    }
  }

  // ------------------------------------------------------------ button

  datatype Variant = Primary | Secondary | DisabledStyle | Ghost

  /** A boolean prop that may be absent: only `true` is truthy. */
  predicate Truthy(flag: Option<bool>) {
    flag == Some(true)
  }

  /** `finalVariant`: the disabled style whenever the disabled prop or the loading flag
      is set, otherwise the requested variant (primary by default). */
  function FinalVariant(requested: Option<Variant>, disabled: Option<bool>, isLoading: bool): (r: Variant)
    ensures r == DisabledStyle <==> Truthy(disabled) || isLoading || requested == Some(DisabledStyle)
    ensures r != DisabledStyle ==> r == (if requested.Some? then requested.value else Primary)
  {
    if Truthy(disabled) || isLoading then DisabledStyle
    else if requested.Some? then requested.value
    else Primary
  }

  /** The `disabled` attribute as the button element is written: `isLoading || props.disabled`
      first, then the spread of `props`, whose own `disabled` (when the caller passed one)
      takes its place. */
  function DomDisabledAsWritten(disabled: Option<bool>, isLoading: bool): bool {
    if disabled.Some? then disabled.value else isLoading
  }

  /** A loading button whose caller passes `disabled={false}` is drawn disabled but still
      takes clicks. */
  lemma LoadingButtonStaysClickable(requested: Option<Variant>)
    ensures FinalVariant(requested, Some(false), true) == DisabledStyle
    ensures !DomDisabledAsWritten(Some(false), true)
  {
  }

  /** The evidently intended attribute: disabled while loading or when asked to be. */
  function DomDisabled(disabled: Option<bool>, isLoading: bool): bool {
    isLoading || Truthy(disabled)
  }

  /** With the intended attribute, the style and the state agree: a button that is not
      asked to look disabled looks disabled exactly when it is. */
  lemma StyleMatchesState(requested: Option<Variant>, disabled: Option<bool>, isLoading: bool)
    requires requested != Some(DisabledStyle)
    ensures FinalVariant(requested, disabled, isLoading) == DisabledStyle <==> DomDisabled(disabled, isLoading)
    ensures isLoading ==> DomDisabled(disabled, isLoading)
  {
  }
}
