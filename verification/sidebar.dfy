/**
 * The side menu of the layout (src/Sidebar.tsx): which links it offers for the stored identity. The
 * role decides the first link (`roleId === 1` the home page, `roleId === 0` the product dashboard);
 * a truthy `userId` adds the orders and profile links, whatever the role.
 */
module Sidebar {
  import opened Wrappers
  import opened Js
  import opened Storage
  import Guard
  import Routes

  datatype Link = Link(caption: string, to: string)

  const HomeLabel := "Home"
  const DashboardLabel := "Product Dashboard"
  const OrdersLabel := "Orders"
  const ProfileLabel := "Profile"

  const HomePath := "/home"
  const DashboardPath := "/product/dashboard"
  const OrdersPath := "/orders"

  /** The profile link's target, `/profile/${userId}`. */
  function ProfilePath(userId: Value): string {
    "/profile/" + ToText(userId)
  }

  /** The links, in the order the menu lists them, for the parsed `user` record. */
  function MenuLinks(user: Record): (links: seq<Link>)
    ensures |links| <= 4
  {
    var roleId := Get(user, "roleId");
    var userId := Get(user, "userId");
    (if roleId == Num(1) then [Link(HomeLabel, HomePath)] else []) +
    (if roleId == Num(0) then [Link(DashboardLabel, DashboardPath)] else []) +
    (if Truthy(userId) then [Link(OrdersLabel, OrdersPath)] else []) +
    (if Truthy(userId) then [Link(ProfileLabel, ProfilePath(userId))] else [])
  }

  /** The menu as rendered from storage; `None` when reading the stored record throws. */
  function Menu(items: Items): (m: Option<seq<Link>>)
    ensures m.None? <==> ReadUser(items).None?
    ensures m.Some? ==> m.value == MenuLinks(ReadUser(items).value)
  {
    match ReadUser(items)
    case None => None
    case Some(user) => Some(MenuLinks(user))
  }

  /** The target of the menu's link with `name`, if it has one. */
  function TargetOf(links: seq<Link>, name: string): (t: Option<string>)
    ensures t.Some? <==> exists i :: 0 <= i < |links| && links[i].caption == name
    ensures t.Some? ==> Link(name, t.value) in links
  {
    if links == [] then None
    else if links[0].caption == name then Some(links[0].to)
    else
      var t := TargetOf(links[1..], name);
      assert forall i :: 1 <= i < |links| ==> links[i] == links[1..][i - 1];
      t
  }

  /**
   * Each link appears under its own condition: Home exactly for role 1, the dashboard exactly for
   * role 0, Orders and Profile exactly for a truthy `userId`, the latter aimed at that user's page.
   */
  lemma MenuSpec(user: Record)
    ensures TargetOf(MenuLinks(user), HomeLabel) ==
            (if Get(user, "roleId") == Num(1) then Some(HomePath) else None)
    ensures TargetOf(MenuLinks(user), DashboardLabel) ==
            (if Get(user, "roleId") == Num(0) then Some(DashboardPath) else None)
    ensures TargetOf(MenuLinks(user), OrdersLabel) ==
            (if Truthy(Get(user, "userId")) then Some(OrdersPath) else None)
    ensures TargetOf(MenuLinks(user), ProfileLabel) ==
            (if Truthy(Get(user, "userId")) then Some(ProfilePath(Get(user, "userId"))) else None)
  {
    LabelsDistinct();
    MenuTarget(user, HomeLabel);
    MenuTarget(user, DashboardLabel);
    MenuTarget(user, OrdersLabel);
    MenuTarget(user, ProfileLabel);
  }

  /** A caption's target is that of the first of the menu's four optional links that carries it. */
  lemma MenuTarget(user: Record, name: string)
    ensures TargetOf(MenuLinks(user), name) ==
            First(First(First(
              if Get(user, "roleId") == Num(1) && name == HomeLabel then Some(HomePath) else None,
              if Get(user, "roleId") == Num(0) && name == DashboardLabel then Some(DashboardPath) else None),
              if Truthy(Get(user, "userId")) && name == OrdersLabel then Some(OrdersPath) else None),
              if Truthy(Get(user, "userId")) && name == ProfileLabel then Some(ProfilePath(Get(user, "userId"))) else None)
  {
    var roleId := Get(user, "roleId");
    var userId := Get(user, "userId");
    var home := if roleId == Num(1) then [Link(HomeLabel, HomePath)] else [];
    var dashboard := if roleId == Num(0) then [Link(DashboardLabel, DashboardPath)] else [];
    var orders := if Truthy(userId) then [Link(OrdersLabel, OrdersPath)] else [];
    var profile := if Truthy(userId) then [Link(ProfileLabel, ProfilePath(userId))] else [];
    assert MenuLinks(user) == home + dashboard + orders + profile;
    TargetOfAppend(home, dashboard, name);
    TargetOfAppend(home + dashboard, orders, name);
    TargetOfAppend(home + dashboard + orders, profile, name);
  }

  /** The four captions differ from one another. */
  lemma LabelsDistinct()
    ensures HomeLabel != DashboardLabel && HomeLabel != OrdersLabel && HomeLabel != ProfileLabel
    ensures DashboardLabel != OrdersLabel && DashboardLabel != ProfileLabel && OrdersLabel != ProfileLabel
  {
    assert |HomeLabel| == 4 && |DashboardLabel| == 17 && |OrdersLabel| == 6 && |ProfileLabel| == 7;
  }

  /** The first of two lookups that finds something. */
  function First(a: Option<string>, b: Option<string>): Option<string> {
    if a.Some? then a else b
  }

  /** Looking a caption up in two lists laid end to end finds it in the first list when it is there. */
  lemma {:induction false} TargetOfAppend(xs: seq<Link>, ys: seq<Link>, name: string)
    ensures TargetOf(xs + ys, name) == First(TargetOf(xs, name), TargetOf(ys, name))
  {
    if xs == [] {
      assert xs + ys == ys;
    } else {
      assert (xs + ys)[1..] == xs[1..] + ys;
      TargetOfAppend(xs[1..], ys, name);
    }
  }

  /** With nothing stored (or an empty record) the menu is empty. */
  lemma NoUserNoLinks(items: Items)
    requires UserKey !in items
    ensures Menu(items) == Some([])
  {
  }

  /**
   * The Orders link is offered to an administrator with a `userId` too, but following it ends at the
   * `/unauthorized` redirect, because `/orders` admits role 1 only (or fails to render, as every
   * location inside the layout does, when the header throws on the record's `fullName`).
   */
  lemma OrdersLinkDeniedToAdministrator(user: Record)
    requires Get(user, "roleId") == Num(0) && Truthy(Get(user, "userId"))
    ensures TargetOf(MenuLinks(user), OrdersLabel) == Some(OrdersPath)
    ensures !Routes.InitialThrows(user) ==>
              Routes.Visit(OrdersPath, Guard.StoredUser(user)) == Routes.Navigate("/unauthorized", true)
    ensures Routes.InitialThrows(user) ==> Routes.Visit(OrdersPath, Guard.StoredUser(user)) == Routes.RenderFailed
  {
    MenuSpec(user);
    var items := Guard.StoredUser(user);
    Routes.OrdersBuyerOnly(items);
    Routes.GuardedSpec([1], Routes.OrdersScreen, items);
  }
  /** The link's location, piece by piece. */
  lemma DashboardPathPieces()
    ensures DashboardPath == "/" + "product" + ("/" + "dashboard")
  {
  }

  /** The link's pieces are the route's up to case. */
  lemma DashboardPiecesFold()
    ensures LowerCase("product") == LowerCase("Product") && LowerCase("dashboard") == LowerCase("Dashboard")
  {
    FirstLetterFolds("product", "Product");
    FirstLetterFolds("dashboard", "Dashboard");
  }

  /** Two words that differ at most in the case of their first letter are equal once lower-cased. */
  lemma FirstLetterFolds(lower: string, upper: string)
    requires |lower| == |upper| > 0 && lower[1..] == upper[1..] && ToLowerChar(lower[0]) == ToLowerChar(upper[0])
    ensures LowerCase(lower) == LowerCase(upper)
  {
    assert forall i :: 1 <= i < |lower| ==> lower[i] == lower[1..][i - 1] == upper[i];
  }

  /**
   * The dashboard link is written in lower case while the route is `/Product/Dashboard`; pieces are
   * compared up to case, so an administrator following the link reaches the dashboard, unless the
   * header throws on the record's `fullName`.
   */
  lemma DashboardLinkReachable(user: Record)
    requires Get(user, "roleId") == Num(0)
    ensures !Routes.InitialThrows(user) ==>
              Routes.Visit(DashboardPath, Guard.StoredUser(user)) == Routes.Show(Routes.ProductDashboardScreen, true)
    ensures Routes.InitialThrows(user) ==> Routes.Visit(DashboardPath, Guard.StoredUser(user)) == Routes.RenderFailed
  {
    var items := Guard.StoredUser(user);
    DashboardLinkRoute(items);
    Routes.GuardedSpec([0], Routes.ProductDashboardScreen, items);
  }

  lemma DashboardLinkRoute(items: Items)
    ensures Routes.Visit(DashboardPath, items) == Routes.Guarded([0], Routes.ProductDashboardScreen, items)
  {
    DashboardLinkMatches(items);
    Routes.ProtectedOutcome(8, items);
  }

  lemma DashboardLinkMatches(items: Items)
    ensures Routes.Visit(DashboardPath, items) == Routes.AppOutcome(Routes.Table[8], items)
  {
    DashboardPathPieces();
    DashboardPiecesFold();
    DashboardPattern();
    Routes.VisitTwoPiecesFolded("product", "dashboard", "Product", "Dashboard", 8, items);
  }

  lemma DashboardPattern()
    ensures 8 < |Routes.Table| && Routes.Table[8].pattern == [Routes.Lit("Product"), Routes.Lit("Dashboard")]
    ensures '/' !in "product" && '/' !in "dashboard"
  {
  }

  /**
   * A buyer or an administrator with a numeric `userId` who follows the profile link reaches the
   * profile screen, unless the header throws on the record's `fullName`.
   */
  lemma ProfileLinkReachable(user: Record)
    requires Get(user, "userId").Num?
    requires Get(user, "roleId") == Num(0) || Get(user, "roleId") == Num(1)
    ensures !Routes.InitialThrows(user) ==>
              Routes.Visit(ProfilePath(Get(user, "userId")), Guard.StoredUser(user)) == Routes.Show(Routes.ProfileScreen, true)
    ensures Routes.InitialThrows(user) ==>
              Routes.Visit(ProfilePath(Get(user, "userId")), Guard.StoredUser(user)) == Routes.RenderFailed
  {
    var items := Guard.StoredUser(user);
    var id := ToText(Get(user, "userId"));
    Routes.ProfileBothRoles(items, id);
    Routes.GuardedSpec([1, 0], Routes.ProfileScreen, items);
  }
}
