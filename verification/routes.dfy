/**
 * The client's route table (src/App.tsx) and how React Router picks a route for a location: a
 * pattern's literal segments match case-insensitively, a `:param` segment matches one non-empty
 * segment, and trailing slashes are allowed. A visit combines the matched route with the guard.
 */
module Routes {
  import opened Wrappers
  import opened Js
  import opened Storage
  import Guard

  datatype Screen =
    | LoginScreen
    | RegistrationScreen
    | HomeScreen
    | OrdersScreen
    | ProfileScreen
    | UpdateProductScreen
    | CartDetailsScreen
    | ProductDashboardScreen
    | CreateProductScreen
    | UnauthorizedScreen

  datatype Element =
    | RedirectTo(to: string, replace: bool)
    | Page(screen: Screen)
    | Protected(allowedRoles: seq<int>, screen: Screen)

  /** One piece of a path pattern between slashes: a literal, or a `:name` parameter. */
  datatype Segment = Lit(text: string) | Param(name: string)

  /** A route: its path pattern, piece by piece, what it renders, and whether it sits inside the main layout. */
  datatype Route = Route(pattern: seq<Segment>, element: Element, inLayout: bool)

  const Table: seq<Route> := [
    Route([], RedirectTo("/login", false), false),
    Route([Lit("login")], Page(LoginScreen), false),
    Route([Lit("register")], Page(RegistrationScreen), false),
    Route([Lit("home")], Protected([1], HomeScreen), true),
    Route([Lit("orders")], Protected([1], OrdersScreen), true),
    Route([Lit("profile"), Param("id")], Protected([1, 0], ProfileScreen), true),
    Route([Lit("update-product"), Param("id")], Protected([0], UpdateProductScreen), true),
    Route([Lit("cart-details")], Protected([1], CartDetailsScreen), true),
    Route([Lit("Product"), Lit("Dashboard")], Protected([0], ProductDashboardScreen), true),
    Route([Lit("create-product")], Protected([0], CreateProductScreen), true),
    Route([Lit("unauthorized")], Page(UnauthorizedScreen), true)
  ]

  // ---------------------------------------------------------------------------------------------
  // Matching a location

  /** The length of the prefix of `s` before its first `/` (all of `s` when there is none). */
  function SlashFree(s: string): (n: nat)
    ensures n <= |s|
    ensures forall i :: 0 <= i < n ==> s[i] != '/'
    ensures n < |s| ==> s[n] == '/'
  {
    if s == [] || s[0] == '/' then 0 else 1 + SlashFree(s[1..])
  }

  /** `url` consists of slashes only: every pattern accepts trailing slashes. */
  predicate AllSlashes(url: string) {
    forall i :: 0 <= i < |url| ==> url[i] == '/'
  }

  /**
   * `url` matches the segments: each segment is one `/` followed by a slash-free piece (equal to the
   * literal up to ASCII case, or non-empty for a parameter), and what is left is slashes only.
   */
  predicate MatchSegments(url: string, segs: seq<Segment>)
    decreases |segs|
  {
    if segs == [] then AllSlashes(url)
    else if |url| == 0 || url[0] != '/' then false
    else
      var n := SlashFree(url[1..]);
      var pieceOk := if segs[0].Lit? then LowerCase(url[1..1 + n]) == LowerCase(segs[0].text) else n >= 1;
      pieceOk && MatchSegments(url[1 + n..], segs[1..])
  }

  predicate Matches(url: string, route: Route) {
    MatchSegments(url, route.pattern)
  }

  /** The first piece of a location, lower-cased. */
  function Head(url: string): string {
    if |url| >= 1 && url[0] == '/' then LowerCase(url[1..1 + SlashFree(url[1..])]) else LowerCase(url)
  }

  /** What `Head` is for every location a pattern matches: its first literal, lower-cased, or "" for `/`. */
  function Key(segs: seq<Segment>): string {
    if segs == [] then "" else if segs[0].Lit? then LowerCase(segs[0].text) else ":"
  }

  /** A location matched by a pattern that starts with a literal has that literal as its head. */
  lemma MatchHead(url: string, segs: seq<Segment>)
    requires MatchSegments(url, segs)
    requires segs == [] || segs[0].Lit?
    ensures Head(url) == Key(segs)
  {
    if segs == [] && |url| >= 1 {
      assert url[1..] == [] || url[1..][0] == '/';
    }
  }

  /** Enough of a lower-cased string to tell the table's first pieces apart: its length and two letters. */
  function Signature(s: string): (int, char, char) {
    (|s|, if |s| > 0 then ToLowerChar(s[0]) else ' ', if |s| > 3 then ToLowerChar(s[3]) else ' ')
  }

  lemma SignatureOfLower(a: string, b: string)
    requires LowerCase(a) == LowerCase(b)
    ensures Signature(a) == Signature(b)
  {
    assert |a| == |LowerCase(a)| == |b|;
    if |a| > 0 {
      assert LowerCase(a)[0] == LowerCase(b)[0];
    }
    if |a| > 3 {
      assert LowerCase(a)[3] == LowerCase(b)[3];
    }
  }

  /** The signature of a route's first literal (the empty string's for `/`). */
  function FirstSignature(route: Route): (int, char, char) {
    if route.pattern == [] || route.pattern[0].Param? then Signature("") else Signature(route.pattern[0].text)
  }

  /** The position in the table of the route whose first literal has signature `sig`. */
  function IndexBySignature(sig: (int, char, char)): int {
    if sig == (0, ' ', ' ') then 0
    else if sig == (5, 'l', 'i') then 1
    else if sig == (8, 'r', 'i') then 2
    else if sig == (4, 'h', 'e') then 3
    else if sig == (6, 'o', 'e') then 4
    else if sig == (7, 'p', 'f') then 5
    else if sig == (14, 'u', 'a') then 6
    else if sig == (12, 'c', 't') then 7
    else if sig == (7, 'p', 'd') then 8
    else if sig == (14, 'c', 'a') then 9
    else if sig == (12, 'u', 'u') then 10
    else -1
  }

  /** Every pattern of the table is `/` or starts with a literal, and its signature identifies it. */
  lemma TableSignatures(k: nat)
    requires k < |Table|
    ensures Table[k].pattern == [] || Table[k].pattern[0].Lit?
    ensures IndexBySignature(FirstSignature(Table[k])) == k
  {
    if k == 0 {
    } else if k == 1 {
    } else if k == 2 {
    } else if k == 3 {
    } else if k == 4 {
    } else if k == 5 {
    } else if k == 6 {
    } else if k == 7 {
    } else if k == 8 {
    } else if k == 9 {
    } else {
    }
  }

  /** No location matches two routes of the table, so the order in which they are tried does not matter. */
  lemma MatchUnique(url: string, i: nat, j: nat)
    requires i < |Table| && j < |Table|
    requires Matches(url, Table[i]) && Matches(url, Table[j])
    ensures i == j
  {
    TableSignatures(i);
    TableSignatures(j);
    MatchHead(url, Table[i].pattern);
    MatchHead(url, Table[j].pattern);
    var a := if Table[i].pattern == [] then "" else Table[i].pattern[0].text;
    var b := if Table[j].pattern == [] then "" else Table[j].pattern[0].text;
    assert LowerCase(a) == LowerCase(b);
    SignatureOfLower(a, b);
  }

  // ---------------------------------------------------------------------------------------------
  // Resolving and visiting a location

  /** The position of the first route in `routes` that `url` matches. */
  function FirstMatch(routes: seq<Route>, url: string): (k: Option<nat>)
    ensures k.Some? ==> k.value < |routes| && Matches(url, routes[k.value])
    ensures k.Some? ==> forall i :: 0 <= i < k.value ==> !Matches(url, routes[i])
    ensures k.None? ==> forall i :: 0 <= i < |routes| ==> !Matches(url, routes[i])
  {
    if routes == [] then None
    else if Matches(url, routes[0]) then Some(0)
    else match FirstMatch(routes[1..], url)
      case None => None
      case Some(k) => Some(k + 1)
  }

  /** The table's route for `url`: the only one that matches it, if any. */
  function Resolve(url: string): (r: Option<nat>)
    ensures r.Some? ==> r.value < |Table| && Matches(url, Table[r.value])
    ensures r.Some? ==> forall i :: 0 <= i < |Table| && Matches(url, Table[i]) ==> i == r.value
    ensures r.None? ==> forall i :: 0 <= i < |Table| ==> !Matches(url, Table[i])
  {
    var k := FirstMatch(Table, url);
    if k.Some? then
      assert forall i :: 0 <= i < |Table| && Matches(url, Table[i]) ==> i == k.value by {
        forall i | 0 <= i < |Table| && Matches(url, Table[i]) ensures i == k.value {
          MatchUnique(url, i, k.value);
        }
      }
      k
    else k
  }

  /** What a visit to a location shows. */
  datatype Outcome =
    | NoMatch
    | Navigate(to: string, replace: bool)
    | Show(screen: Screen, inLayout: bool)
      /** Rendering threw: App's or the guard's read of the stored identity, or the layout's header. */
    | RenderFailed

  /**
   * The layout's header shows `getInitial(user.fullName)`, which calls `trim` on the name; a number or
   * a boolean has no `trim`, so such a `fullName` throws while the layout renders.
   */
  predicate InitialThrows(user: Record) {
    Get(user, "fullName").Bool? || Get(user, "fullName").Num?
  }

  /** The layout's own read of `user` gives a record on which its header throws. */
  predicate LayoutThrows(items: Items) {
    ReadUser(items).Some? && InitialThrows(ReadUser(items).value)
  }

  /**
   * What a route renders for the identity in `items`. A route inside the layout renders the layout
   * first, so the header's throw fails the render before the element (or its guard) is reached;
   * otherwise the element decides, through the guard when it has one.
   */
  function RouteOutcome(route: Route, items: Items): Outcome {
    if route.inLayout && LayoutThrows(items) then RenderFailed
    else match route.element
    case RedirectTo(to, replace) => Navigate(to, replace)
    case Page(screen) => Show(screen, route.inLayout)
    case Protected(allowedRoles, screen) =>
      match Guard.Decide(allowedRoles, items)
      case RenderChildren => Show(screen, route.inLayout)
      case Redirect(to, replace) => Navigate(to, replace)
      case Throws => RenderFailed
  }

  /**
   * What App renders for `route`. App parses the stored `user` itself before choosing a route (its
   * fallback for a missing or empty key is `'null'`), so a stored text that is not JSON throws first,
   * whatever the route; otherwise the route's element decides.
   */
  function AppOutcome(route: Route, items: Items): (o: Outcome)
    ensures ReadUser(items).None? ==> o == RenderFailed
    ensures ReadUser(items).Some? ==> o == RouteOutcome(route, items)
  {
    if ReadUser(items).None? then RenderFailed else RouteOutcome(route, items)
  }

  /** Visiting `url` with `items` in storage. */
  function Visit(url: string, items: Items): (o: Outcome)
    ensures ReadUser(items).None? ==> o == RenderFailed
    ensures Resolve(url).Some? && Table[Resolve(url).value].inLayout && LayoutThrows(items) ==> o == RenderFailed
    ensures o == NoMatch <==> ReadUser(items).Some? && Resolve(url).None?
    ensures Resolve(url).Some? ==> o == AppOutcome(Table[Resolve(url).value], items)
  {
    if ReadUser(items).None? then RenderFailed
    else match Resolve(url)
      case None => NoMatch
      case Some(k) => AppOutcome(Table[k], items)
  }

  /** A location that matches route `k` resolves to it. */
  lemma ResolveAt(url: string, k: nat)
    requires k < |Table| && Matches(url, Table[k])
    ensures Resolve(url) == Some(k)
  {
  }

  /** One `/` and a slash-free piece that fits the segment, followed by a location that matches the rest. */
  lemma MatchStep(piece: string, rest: string, seg: Segment, segs: seq<Segment>)
    requires '/' !in piece
    requires rest == [] || rest[0] == '/'
    requires if seg.Lit? then LowerCase(piece) == LowerCase(seg.text) else piece != []
    requires MatchSegments(rest, segs)
    ensures MatchSegments("/" + piece + rest, [seg] + segs)
  {
    var url := "/" + piece + rest;
    assert url[1..] == piece + rest;
    SlashFreeSplit(piece, rest);
    assert url[1..1 + |piece|] == piece;
    assert url[1 + |piece|..] == rest;
    assert ([seg] + segs)[0] == seg && ([seg] + segs)[1..] == segs;
  }

  lemma SlashFreeSplit(a: string, rest: string)
    requires '/' !in a && (rest == [] || rest[0] == '/')
    ensures SlashFree(a + rest) == |a|
  {
    if rest != [] {
      assert (a + rest)[|a|] == '/';
    } else {
      assert a + rest == a;
    }
  }

  // ---------------------------------------------------------------------------------------------
  // The access policy the table states

  /** The stored `roleId` (`undefined` when no record can be read). */
  function StoredRole(items: Items): Value {
    match ReadUser(items)
    case Some(user) => Get(user, "roleId")
    case None => Undefined
  }

  predicate BuyerScreen(s: Screen) {
    s == HomeScreen || s == OrdersScreen || s == CartDetailsScreen
  }

  predicate AdminScreen(s: Screen) {
    s == UpdateProductScreen || s == ProductDashboardScreen || s == CreateProductScreen
  }

  /**
   * Whatever the location: the buyer screens are shown only to role 1, the product-management screens
   * only to role 0, and the profile screen only to role 0 or 1.
   */
  lemma ShownOnlyToAllowedRoles(url: string, items: Items)
    ensures Visit(url, items).Show? && BuyerScreen(Visit(url, items).screen) ==> StoredRole(items) == Num(1)
    ensures Visit(url, items).Show? && AdminScreen(Visit(url, items).screen) ==> StoredRole(items) == Num(0)
    ensures Visit(url, items).Show? && Visit(url, items).screen == ProfileScreen ==>
              StoredRole(items) == Num(0) || StoredRole(items) == Num(1)
  {
    if Resolve(url).Some? {
      RouteRoles(Resolve(url).value, items);
    }
  }

  /** The same, route by route. */
  lemma RouteRoles(k: nat, items: Items)
    requires k < |Table|
    ensures RouteOutcome(Table[k], items).Show? && BuyerScreen(RouteOutcome(Table[k], items).screen) ==>
              StoredRole(items) == Num(1)
    ensures RouteOutcome(Table[k], items).Show? && AdminScreen(RouteOutcome(Table[k], items).screen) ==>
              StoredRole(items) == Num(0)
    ensures RouteOutcome(Table[k], items).Show? && RouteOutcome(Table[k], items).screen == ProfileScreen ==>
              StoredRole(items) == Num(0) || StoredRole(items) == Num(1)
    ensures Table[k].element.Protected? && RouteOutcome(Table[k], items).Show? ==>
              StoredRole(items) == Num(0) || StoredRole(items) == Num(1)
  {
    if k == 0 {
    } else if k == 1 {
    } else if k == 2 {
    } else if k == 3 {
    } else if k == 4 {
    } else if k == 5 {
    } else if k == 6 {
    } else if k == 7 {
    } else if k == 8 {
    } else if k == 9 {
    } else {
    }
  }

  /** No guarded route of the table admits a role other than 0 and 1. */
  lemma GuardedRolesAreZeroOrOne(url: string, items: Items)
    requires Resolve(url).Some? && Table[Resolve(url).value].element.Protected?
    requires Visit(url, items).Show?
    ensures StoredRole(items) == Num(0) || StoredRole(items) == Num(1)
  {
    RouteRoles(Resolve(url).value, items);
  }

  /** The location `/<piece>` reaches the route `k` whose pattern is that one literal. */
  lemma VisitOnePiece(piece: string, k: nat, items: Items)
    requires k < |Table| && Table[k].pattern == [Lit(piece)] && '/' !in piece
    ensures Visit("/" + piece, items) == AppOutcome(Table[k], items)
  {
    MatchStep(piece, [], Lit(piece), []);
    assert "/" + piece + [] == "/" + piece;
    assert [Lit(piece)] + [] == Table[k].pattern;
    ResolveAt("/" + piece, k);
  }

  /** A segment accepts a slash-free piece: a literal equal to it up to case, or a parameter when it is non-empty. */
  predicate Accepts(seg: Segment, piece: string) {
    if seg.Lit? then LowerCase(piece) == LowerCase(seg.text) else piece != []
  }

  /** `/<a>/<b>` matches two segments that accept `a` and `b`. */
  lemma TwoPieceMatch(a: string, b: string, s0: Segment, s1: Segment)
    requires '/' !in a && '/' !in b
    requires Accepts(s0, a) && Accepts(s1, b)
    ensures MatchSegments("/" + a + ("/" + b), [s0] + [s1])
  {
    MatchStep(b, [], s1, []);
    assert "/" + b + [] == "/" + b && [s1] + [] == [s1];
    MatchStep(a, "/" + b, s0, [s1]);
  }

  /** The location `/<a>/<b>` reaches the route `k` whose pattern is the literal `a` followed by the literal `b` or a parameter. */
  lemma VisitTwoPieces(a: string, b: string, k: nat, items: Items)
    requires k < |Table| && |Table[k].pattern| == 2 && Table[k].pattern[0] == Lit(a)
    requires Table[k].pattern[1] == Lit(b) || (Table[k].pattern[1].Param? && b != [])
    requires '/' !in a && '/' !in b
    ensures Visit("/" + a + ("/" + b), items) == AppOutcome(Table[k], items)
  {
    var p := Table[k].pattern;
    var url := "/" + a + ("/" + b);
    TwoPieceMatch(a, b, p[0], p[1]);
    assert p == [p[0]] + [p[1]];
    ResolveAt(url, k);
  }

  /** Literal pieces are compared up to ASCII case: `/<a>/<b>` reaches a two-piece route whose segments accept `a` and `b`. */
  lemma VisitTwoPiecesFolded(a: string, b: string, litA: string, litB: string, k: nat, items: Items)
    requires k < |Table| && Table[k].pattern == [Lit(litA), Lit(litB)]
    requires '/' !in a && '/' !in b
    requires LowerCase(a) == LowerCase(litA) && LowerCase(b) == LowerCase(litB)
    ensures Visit("/" + a + ("/" + b), items) == AppOutcome(Table[k], items)
  {
    var url := "/" + a + ("/" + b);
    TwoPieceMatch(a, b, Lit(litA), Lit(litB));
    assert Table[k].pattern == [Lit(litA)] + [Lit(litB)];
    ResolveAt(url, k);
  }

  /**
   * The guarded outcome for a screen inside the layout: a render failure when the layout's header
   * throws, otherwise the screen when the role is in the list and the redirect when it is not.
   */
  function Guarded(allowedRoles: seq<int>, screen: Screen, items: Items): Outcome {
    if LayoutThrows(items) then RenderFailed
    else match Guard.Decide(allowedRoles, items)
    case RenderChildren => Show(screen, true)
    case Redirect(to, replace) => Navigate(to, replace)
    case Throws => RenderFailed
  }

  /** `/` redirects to `/login` (without replacing history) whenever App can read the stored record. */
  lemma RootRedirects(items: Items)
    ensures ReadUser(items).Some? ==> Visit("/", items) == Navigate("/login", false)
    ensures ReadUser(items).None? ==> Visit("/", items) == RenderFailed
  {
    assert MatchSegments("/", []);
    ResolveAt("/", 0);
  }

  /**
   * A guarded screen is shown exactly when a record is read, the layout's header does not throw on
   * it and its `roleId` is a listed number; otherwise the guard redirects to `/unauthorized`, or the
   * read or the header throws.
   */
  lemma GuardedSpec(allowedRoles: seq<int>, screen: Screen, items: Items)
    ensures Guarded(allowedRoles, screen, items) == Show(screen, true) <==>
              ReadUser(items).Some? && !LayoutThrows(items) && StoredRole(items).Num? && StoredRole(items).n in allowedRoles
    ensures ReadUser(items).Some? && !LayoutThrows(items) && Guarded(allowedRoles, screen, items) != Show(screen, true) ==>
              Guarded(allowedRoles, screen, items) == Navigate("/unauthorized", true)
    ensures ReadUser(items).None? || LayoutThrows(items) ==> Guarded(allowedRoles, screen, items) == RenderFailed
  {
  }

  /** When the layout's header throws, no screen inside the layout is shown, whatever the location. */
  lemma HeaderThrowShowsNoLayoutScreen(url: string, items: Items)
    requires LayoutThrows(items)
    ensures Visit(url, items).Show? ==> !Visit(url, items).inLayout
  {
  }

  // The table's locations as the concatenations the visit lemmas build.

  lemma PublicLocations()
    ensures "/" + "login" == "/login" && "/" + "register" == "/register" && "/" + "unauthorized" == "/unauthorized"
  {
  }

  lemma BuyerLocations()
    ensures "/" + "home" == "/home" && "/" + "orders" == "/orders" && "/" + "cart-details" == "/cart-details"
  {
  }

  lemma AdminLocations()
    ensures "/" + "create-product" == "/create-product" && "/" + "Product" + ("/" + "Dashboard") == "/Product/Dashboard"
  {
  }

  lemma ParamLocations(id: string)
    ensures "/" + "update-product" + ("/" + id) == "/update-product/" + id && "/" + "profile" + ("/" + id) == "/profile/" + id
  {
  }

  /**
   * A guarded route inside the layout renders through the layout and then the guard with its own list
   * of roles; App's own read of `user` throws on exactly the stored texts the guard's read throws on.
   */
  lemma ProtectedOutcome(k: nat, items: Items)
    requires k < |Table| && Table[k].element.Protected? && Table[k].inLayout
    ensures AppOutcome(Table[k], items) ==
            Guarded(Table[k].element.allowedRoles, Table[k].element.screen, items)
  {
  }

  /**
   * A route with a plain page renders it, with no role check, whenever App can read the stored record
   * and, inside the layout, the header does not throw.
   */
  lemma PageOutcome(k: nat, items: Items)
    requires k < |Table| && Table[k].element.Page?
    ensures ReadUser(items).Some? && !(Table[k].inLayout && LayoutThrows(items)) ==>
              AppOutcome(Table[k], items) == Show(Table[k].element.screen, Table[k].inLayout)
    ensures ReadUser(items).None? || (Table[k].inLayout && LayoutThrows(items)) ==> AppOutcome(Table[k], items) == RenderFailed
  {
  }

  lemma LoginUnguarded(items: Items)
    ensures ReadUser(items).Some? ==> Visit("/login", items) == Show(LoginScreen, false)
    ensures ReadUser(items).None? ==> Visit("/login", items) == RenderFailed
  {
    VisitOnePiece("login", 1, items);
    PageOutcome(1, items);
    PublicLocations();
  }

  lemma RegisterUnguarded(items: Items)
    ensures ReadUser(items).Some? ==> Visit("/register", items) == Show(RegistrationScreen, false)
    ensures ReadUser(items).None? ==> Visit("/register", items) == RenderFailed
  {
    VisitOnePiece("register", 2, items);
    PageOutcome(2, items);
    PublicLocations();
  }

  lemma UnauthorizedUnguarded(items: Items)
    ensures ReadUser(items).Some? && !LayoutThrows(items) ==> Visit("/unauthorized", items) == Show(UnauthorizedScreen, true)
    ensures ReadUser(items).None? || LayoutThrows(items) ==> Visit("/unauthorized", items) == RenderFailed
  {
    VisitOnePiece("unauthorized", 10, items);
    PageOutcome(10, items);
    PublicLocations();
  }

  lemma HomeBuyerOnly(items: Items)
    ensures Visit("/home", items) == Guarded([1], HomeScreen, items)
  {
    VisitOnePiece("home", 3, items);
    ProtectedOutcome(3, items);
    BuyerLocations();
  }

  lemma OrdersBuyerOnly(items: Items)
    ensures Visit("/orders", items) == Guarded([1], OrdersScreen, items)
  {
    VisitOnePiece("orders", 4, items);
    ProtectedOutcome(4, items);
    BuyerLocations();
  }

  lemma CartDetailsBuyerOnly(items: Items)
    ensures Visit("/cart-details", items) == Guarded([1], CartDetailsScreen, items)
  {
    VisitOnePiece("cart-details", 7, items);
    ProtectedOutcome(7, items);
    BuyerLocations();
  }

  lemma UpdateProductAdminOnly(items: Items, id: string)
    requires id != [] && '/' !in id
    ensures Visit("/update-product/" + id, items) == Guarded([0], UpdateProductScreen, items)
  {
    VisitTwoPieces("update-product", id, 6, items);
    ProtectedOutcome(6, items);
    ParamLocations(id);
  }

  lemma DashboardAdminOnly(items: Items)
    ensures Visit("/Product/Dashboard", items) == Guarded([0], ProductDashboardScreen, items)
  {
    VisitTwoPieces("Product", "Dashboard", 8, items);
    ProtectedOutcome(8, items);
    AdminLocations();
  }

  lemma CreateProductAdminOnly(items: Items)
    ensures Visit("/create-product", items) == Guarded([0], CreateProductScreen, items)
  {
    VisitOnePiece("create-product", 9, items);
    ProtectedOutcome(9, items);
    AdminLocations();
  }

  lemma ProfileBothRoles(items: Items, id: string)
    requires id != [] && '/' !in id
    ensures Visit("/profile/" + id, items) == Guarded([1, 0], ProfileScreen, items)
  {
    VisitTwoPieces("profile", id, 5, items);
    ProtectedOutcome(5, items);
    ParamLocations(id);
  }
}
