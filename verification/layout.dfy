/**
 * The main layout (src/MainLayout.tsx): the header's avatar initial, the cart icon shown to buyers,
 * the profile and cart clicks, and logout, which forgets the stored `user` record.
 */
module Layout {
  import opened Wrappers
  import opened Js
  import opened Storage
  import Guard
  import Routes
  import Cart

  const LoginPath := "/login"
  const CartDetailsPath := "/cart-details"
  const CartFailedMessage := "Failed to fetch cart details."

  /** `k` is the position of the first character of the string `name` that is not white space. */
  predicate FirstNonSpace(name: Value, k: int) {
    name.Str? && 0 <= k < |name.s| && !IsSpace(name.s[k]) && forall j :: 0 <= j < k ==> IsSpace(name.s[j])
  }

  /**
   * `name?.trim()?.charAt(0)?.toUpperCase() || '?'`. A missing name or one that is all white space gives
   * "?"; a string gives its first non-space character in upper case; any other value has no `trim`
   * method and the call throws (`None`).
   */
  function GetInitial(name: Value): (r: Option<string>)
    ensures r.None? <==> name.Bool? || name.Num?
    ensures name.Undefined? || name.Null? ==> r == Some("?")
    ensures name.Str? && (forall i :: 0 <= i < |name.s| ==> IsSpace(name.s[i])) ==> r == Some("?")
    ensures forall k :: FirstNonSpace(name, k) ==> r == Some([ToUpperChar(name.s[k])])
  {
    match name
    case Undefined => Some("?")
    case Null => Some("?")
    case Str(s) =>
      var t := Trim(s);
      if t == [] then Some("?") else Some([ToUpperChar(t[0])])
    case _ => None
  }

  /** The initial is one character, never a lower-case letter and never white space. */
  lemma InitialShape(name: Value)
    requires GetInitial(name).Some?
    ensures |GetInitial(name).value| == 1
    ensures !IsLower(GetInitial(name).value[0]) && !IsSpace(GetInitial(name).value[0])
  {
    if name.Str? && Trim(name.s) != [] {
      UpperCaseShape(Trim(name.s)[0]);
    }
  }

  /** The routes' layout failure is exactly `getInitial(user.fullName)` throwing. */
  lemma InitialThrowsIsGetInitial(user: Record)
    ensures Routes.InitialThrows(user) <==> GetInitial(Get(user, "fullName")).None?
  {
  }

  lemma UpperCaseShape(c: char)
    requires !IsSpace(c)
    ensures !IsLower(ToUpperChar(c)) && !IsSpace(ToUpperChar(c))
  {
  }

  /** `user?.roleId === 1`: the cart icon is a buyer's. */
  predicate CartIconShown(user: Record) {
    Get(user, "roleId") == Num(1)
  }

  /**
   * The icon is shown exactly to the users the `/cart-details` route lets through: both need role 1
   * and a layout whose header does not throw, and when the header throws the route fails to render.
   */
  lemma CartIconMatchesRoute(user: Record)
    ensures CartIconShown(user) && !Routes.InitialThrows(user) <==>
            Routes.Visit(CartDetailsPath, Guard.StoredUser(user)) == Routes.Show(Routes.CartDetailsScreen, true)
    ensures Routes.InitialThrows(user) ==> Routes.Visit(CartDetailsPath, Guard.StoredUser(user)) == Routes.RenderFailed
  {
    var items := Guard.StoredUser(user);
    Routes.CartDetailsBuyerOnly(items);
    Routes.GuardedSpec([1], Routes.CartDetailsScreen, items);
  }

  /** `handleProfileClick`: navigate to `/profile/${user.id}` when `user.id` is truthy, otherwise stay. */
  function ProfileClickTarget(user: Record): (to: Option<string>)
    ensures to.Some? <==> Truthy(Get(user, "id"))
    ensures to.Some? ==> to.value == "/profile/" + ToText(Get(user, "id"))
  {
    var id := Get(user, "id");
    if Truthy(id) then Some("/profile/" + ToText(id)) else None
  }

  /**
   * A buyer or administrator with a numeric `id` who clicks the avatar reaches the profile screen, unless
   * the header throws on the record's `fullName`, in which case the profile fails to render too; one
   * whose `id` is falsy (0, "", missing) goes nowhere.
   */
  lemma ProfileClickReachable(user: Record)
    requires Get(user, "id").Num? && Get(user, "id").n != 0
    requires Get(user, "roleId") == Num(0) || Get(user, "roleId") == Num(1)
    ensures ProfileClickTarget(user).Some?
    ensures !Routes.InitialThrows(user) ==>
              Routes.Visit(ProfileClickTarget(user).value, Guard.StoredUser(user)) == Routes.Show(Routes.ProfileScreen, true)
    ensures Routes.InitialThrows(user) ==>
              Routes.Visit(ProfileClickTarget(user).value, Guard.StoredUser(user)) == Routes.RenderFailed
  {
    var items := Guard.StoredUser(user);
    Routes.ProfileBothRoles(items, ToText(Get(user, "id")));
    Routes.GuardedSpec([1, 0], Routes.ProfileScreen, items);
  }

  /** How a click on the cart icon ends. */
  datatype CartClickOutcome =
    | OpenCart(to: string, cartData: seq<Cart.CartRecord>)
    | Alert(message: string)

  /**
   * `handleCartClick` once the cart service has answered: `Some(data)` is the records fetched for the
   * user, `None` a request that threw.
   */
  function CartClick(fetched: Option<seq<Cart.CartRecord>>): (o: CartClickOutcome)
    ensures fetched.Some? <==> o.OpenCart?
    ensures fetched.Some? ==> o == OpenCart(CartDetailsPath, fetched.value)
    ensures fetched.None? ==> o == Alert(CartFailedMessage)
  {
    match fetched
    case Some(data) => OpenCart(CartDetailsPath, data)
    case None => Alert(CartFailedMessage)
  }

  /**
   * The hand-off: the cart screen opened by a successful click holds exactly the fetched records, with
   * every line item of every record selected.
   */
  method OpenCartScreen(data: seq<Cart.CartRecord>) returns (view: Cart.CartView)
    ensures fresh(view)
    ensures view.cartData == data
    ensures forall k :: k in view.selectedItems <==> Cart.IsLineKey(data, k)
  {
    var o := CartClick(Some(data));
    view := new Cart.CartView(Some(o.cartData));
  }

  /** `handleLogout`: removes the `user` key only, and navigates to `/login`. */
  method HandleLogout(storage: BrowserStorage) returns (to: string)
    modifies storage
    ensures storage.items == old(storage.items) - {UserKey}
    ensures to == LoginPath
  {
    storage.RemoveItem(UserKey);
    to := LoginPath;
  }

  /** Logout keeps every other key, the token included. */
  lemma LogoutKeepsOtherKeys(items: Items)
    ensures UserKey !in items - {UserKey}
    ensures forall k :: k in items && k != UserKey ==> k in items - {UserKey} && (items - {UserKey})[k] == items[k]
    ensures TokenKey in items ==> TokenKey in items - {UserKey} && (items - {UserKey})[TokenKey] == items[TokenKey]
  {
  }

  /**
   * After logout no guarded screen can be shown, wherever the user navigates: only the login,
   * registration and unauthorized screens remain reachable.
   */
  lemma LoggedOutSeesOnlyPublicScreens(items: Items, url: string)
    ensures Routes.Visit(url, items - {UserKey}).Show? ==>
              Routes.Visit(url, items - {UserKey}).screen in
                {Routes.LoginScreen, Routes.RegistrationScreen, Routes.UnauthorizedScreen}
  {
    var after := items - {UserKey};
    assert ReadUser(after) == Some(map[]);
    assert Routes.StoredRole(after) == Undefined;
    if Routes.Resolve(url).Some? {
      Routes.RouteRoles(Routes.Resolve(url).value, after);
    }
  }
}
