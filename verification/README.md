# Storefront client: a verified model of its state and access rules

This project models the browser client of a small storefront. The client is a React application
with a buyer side and an administrator side, which share one login. The model covers:

- the **shopping cart screen**: selection of line items, the selected total, quantity changes
  and deletion, kept consistent with each cart record's `totalQuantity` and `totalPrice`;
- the **catalog home page**: initial quantities, categories, search and category filtering,
  the add-to-cart guard and payload, and the star rating;
- the **access-control policy**:
  - the route table with the roles each path admits;
  - the route guard;
  - what login writes to `localStorage` and where it sends each role;
  - which menu links and header controls each identity sees;
  - what logout leaves behind;
- the **small validators and transforms**:
  - registration's required-field check and its classification of the server's answer;
  - the optimistic order-cancel update;
  - the profile screen's label formatter and its edit state;
  - the avatar initial.

Modules follow the source files:

| module | models | form |
|---|---|---|
| `Cart` | `src/CartDetails.tsx` | Pure transforms on records. The class `CartView` holds `cartData`, `selectedItems` and `deleteMessage`. |
| `Catalog` | `src/UserHomePage.tsx` | Pure `categories`, filtering and rating. The class `CatalogView` holds the page state. `InitialQuantities` is a loop. |
| `Guard` | `src/ProtectedRoute.tsx` | Pure decision. |
| `Routes` | `src/App.tsx` | The route table as data, path matching, and one lemma per route. |
| `Login` | `src/UserLogin.tsx` | The class `LoginForm`. `HandleLogin` writes `user` and `token` into `Storage.BrowserStorage`. |
| `Registration` | `src/UserRegistration.tsx` | The class `RegistrationForm`. `Validate` builds the error map field by field. |
| `Orders` | `src/OrderDetails.tsx` | Pure cancel update. The class `OrdersView` holds the list. |
| `Sidebar` | `src/Sidebar.tsx` | Pure link list. |
| `Layout` | `src/MainLayout.tsx` | Pure initial, icon and click targets. `HandleLogout` removes the `user` key. |
| `Profile` | `src/UserProfile.tsx` | Pure label formatter. The class `ProfileView` holds `user`, `isEditing` and `formData`. |

The shared modules model runtime behaviour:

- **`Js`** models JavaScript values, which matter here because `===`, `includes` and truthiness all
  tell role `0` apart from a missing role. It has `undefined`, `null`, booleans, integer numbers
  and strings, objects as maps, ASCII case mapping and `trim`, and `includes` on strings.
- **`Storage`** models `localStorage` as a key-to-value map. A value is either an object's JSON
  text or a string that is not JSON. `ReadUser` is the shared
  `JSON.parse(localStorage.getItem('user') || '{}')`: a missing key or an empty string reads as
  `{}`, and a non-JSON string throws.
- **`Wrappers`** provides `Option`.

**Route matching** (`Routes.Matches`) follows the router's rules:

- A path is split at `/`.
- A literal piece is compared without regard to ASCII case.
- A `:param` matches any non-empty piece.
- Trailing slashes are ignored.

`Routes.Resolve` proves that no location matches two routes of the table, so order does not matter.

Some cross-file facts are proved rather than assumed:

- Where login sends roles 1 and 0, the guard admits that role (`Login.LandingScreenAdmitted`).
- The cart icon shows exactly for the identities `/cart-details` admits (`Layout.CartIconMatchesRoute`).
- The sidebar's lower-case `/product/dashboard` link reaches the `/Product/Dashboard` route
  (`Sidebar.DashboardLinkReachable`).
- After logout only the public screens can be shown (`Layout.LoggedOutSeesOnlyPublicScreens`).

The model also records behaviour that the code has as written:

- The sidebar offers the Orders link to any identity with a `userId`, but an administrator who
  follows it is redirected to `/unauthorized` (`Sidebar.OrdersLinkDeniedToAdministrator`).
- The selection key `${cart.id}-${productId}` is not injective (`Cart.CompositeKeyNotInjective`).
- Deleting a line item leaves its key in the selection.
- The header's profile click uses the record's `id`, while the sidebar's profile link uses its `userId`.

## Model

| member | source | states |
|---|---|---|
| Cart.SeedSelectionExact | src/CartDetails.tsx:25-29 | the initial selection holds `<cart.id>-<productId>` for every line item of every seeded record, and nothing else |
| Cart.SeedSelection | src/CartDetails.tsx:25-29 | the `flatMap` of `<cart.id>-<productId>` keys over the records; what it holds is stated by Cart.SeedSelectionExact |
| Cart.CartView.constructor | src/CartDetails.tsx:21-29 | a missing `cartData` hand-off seeds an empty list; the selection starts as every line item's key; no delete message |
| Cart.Toggle | src/CartDetails.tsx:35-40 | toggling a key flips that key's membership and keeps every other key's membership |
| Cart.WithoutKey | src/CartDetails.tsx:38 | `filter(id => id !== key)` keeps exactly the other keys |
| Cart.ToggleTwiceRestores | src/CartDetails.tsx:35-40 | toggling a key that is absent, then toggling it again, restores the selection exactly |
| Cart.WithoutAbsentKey | src/CartDetails.tsx:38 | filtering out a key that is not selected changes nothing |
| Cart.WithoutKeyAppend | src/CartDetails.tsx:38 | the filter distributes over concatenation of selections |
| Cart.CartView.HandleSelect | src/CartDetails.tsx:35-40 | the selection becomes the toggle of the composite key; cart data and message are unchanged |
| Cart.EmptySelectionTotal | src/CartDetails.tsx:42-49 | with nothing selected the selected total is 0 |
| Cart.EmptySelectionLines | src/CartDetails.tsx:43-48 | with nothing selected a record's inner sum is 0 |
| Cart.TotalDependsOnMembership | src/CartDetails.tsx:42-49 | the selected total depends only on which keys are selected, not on their order or repetition |
| Cart.LinesDependOnMembership | src/CartDetails.tsx:43-48 | a record's inner sum depends only on selection membership |
| Cart.AllLinesSelected | src/CartDetails.tsx:43-48 | when every line of a record is selected, the inner sum is the sum of `unit × qty` over its lines |
| Cart.FullSelectionTotal | src/CartDetails.tsx:42-49 | when every line item is selected and records are consistent, the selected total equals the sum of the records' `totalPrice` |
| Cart.LinesTotal | src/CartDetails.tsx:43-48 | the inner `reduce`: `unit × qty` summed over the record's selected lines; specified by Cart.EmptySelectionLines, Cart.LinesDependOnMembership and Cart.AllLinesSelected |
| Cart.SelectedTotalOf | src/CartDetails.tsx:42-49 | the outer `reduce` over the records; specified by Cart.EmptySelectionTotal, Cart.TotalDependsOnMembership, Cart.FullSelectionTotal and Cart.SeedTotal |
| Cart.CartView.SelectedTotal | src/CartDetails.tsx:42-49 | `selectedTotal` is 0 when nothing is selected (the summary that shows it is then hidden, src/CartDetails.tsx:201); on arrival it is the sum of the record totals (Cart.SeedTotal) |
| Cart.SeedTotal | src/CartDetails.tsx:25-49 | on a freshly opened cart of consistent records, the selected total is the sum of the records' `totalPrice` |
| Cart.QtyOf | src/CartDetails.tsx:63 | `productQty[pid]` is defined exactly when the key is present, and then it is that line's quantity |
| Cart.DistinctCons | src/CartDetails.tsx:7 | distinct keys of a line list: the head's key is absent from the tail and the tail's keys are distinct |
| Cart.SetQty | src/CartDetails.tsx:61-64 | `{...productQty, [pid]: v}`: overwriting a present key keeps the number of entries; the value read back and the unchanged keys are stated by Cart.SetQtyLookup, Cart.SetQtySameIds and Cart.SetQtyKeys |
| Cart.SetQtyLookup | src/CartDetails.tsx:61-64 | after `{...productQty, [pid]: v}` the key `pid` reads `v` and every other key reads as before |
| Cart.SetQtySameIds | src/CartDetails.tsx:61-64 | overwriting an existing key keeps the number and order of the keys |
| Cart.SetQtyKeys | src/CartDetails.tsx:61-64 | overwriting an existing key keeps `Object.keys` and their distinctness |
| Cart.SetQtySums | src/CartDetails.tsx:61-66 | changing one quantity from q to v moves the quantity sum by v − q and the price sum by unit × (v − q) |
| Cart.RemoveKeyLookup | src/CartDetails.tsx:115 | after removing `pid` it reads `undefined` and every other key reads as before |
| Cart.RemoveKeyLookupAll | src/CartDetails.tsx:115 | the rest object lacks `pid` and agrees with the original on all other keys |
| Cart.RemoveKeyDistinct | src/CartDetails.tsx:115 | removing a key keeps the remaining keys distinct |
| Cart.RemoveKeyAt | src/CartDetails.tsx:115 | removing a present key deletes exactly its entry, keeping the order of the others |
| Cart.RemoveKeyAbsent | src/CartDetails.tsx:115 | removing an absent key changes nothing |
| Cart.RemoveKeySums | src/CartDetails.tsx:115-125 | removing a line lowers the quantity sum by its quantity and the price sum by unit × quantity |
| Cart.RemoveKey | src/CartDetails.tsx:115 | `const { [pid]: _, ...rest }` never has more entries than the original; which entries it keeps is stated by Cart.RemoveKeyLookup, Cart.RemoveKeyLookupAll and Cart.RemoveKeyAt |
| Cart.NoKeysMeansEmpty | src/CartDetails.tsx:119 | `Object.keys(rest).length === 0` exactly when no key is left |
| Cart.AdjustedSpec | src/CartDetails.tsx:57-67 | the adjusted record changes exactly one line by delta, `totalQuantity` by delta and `totalPrice` by delta × unit price; keys and other fields are kept |
| Cart.AdjustedConsistent | src/CartDetails.tsx:54-94 | adjusting a consistent record keeps `totalQuantity = Σ qty` and `totalPrice = Σ qty × unit` |
| Cart.Adjusted | src/CartDetails.tsx:58-67 | the record `handleIncrease` and `handleDecrease` build: line `pid` moved by delta, `totalQuantity` by delta, `totalPrice` by delta × unit price; specified by Cart.AdjustedSpec and Cart.AdjustedConsistent |
| Cart.CanDecrease | src/CartDetails.tsx:78-79 | `handleDecrease`'s guard: the id matches and the current quantity is above 1; its effect is stated by Cart.DecreaseSpec |
| Cart.IncreaseAll | src/CartDetails.tsx:55-71 | the map keeps the number of records |
| Cart.IncreaseSpec | src/CartDetails.tsx:54-72 | matching records gain one unit of the product in line, quantity and price; other records are identical; consistency is preserved |
| Cart.CartView.HandleIncrease | src/CartDetails.tsx:54-72 | `cartData` becomes the increased list; consistency is preserved; the selection and message are unchanged |
| Cart.DecreaseAll | src/CartDetails.tsx:76-93 | the map keeps the number of records |
| Cart.DecreaseSpec | src/CartDetails.tsx:75-94 | a record changes only when its id matches and its quantity exceeds 1; it then loses one unit and one unit price; no quantity drops below 1; consistency is preserved |
| Cart.CartView.HandleDecrease | src/CartDetails.tsx:75-94 | `cartData` becomes the decreased list; consistency and quantities ≥ 1 are preserved; the selection is unchanged |
| Cart.DeletedSpec | src/CartDetails.tsx:113-127 | the record is dropped exactly when no other key remains; otherwise it loses the key, `removedQty` and `removedQty × unitPrice`, and stays consistent |
| Cart.Deleted | src/CartDetails.tsx:114-126 | the matching record after a delete: `null` when no key remains, otherwise the rest with both totals lowered by the removed line; specified by Cart.DeletedSpec |
| Cart.DeleteAll | src/CartDetails.tsx:112-131 | map-then-filter never lengthens the list |
| Cart.DeleteKeepsOthers | src/CartDetails.tsx:112-131 | records with other ids survive in their relative order, and no surviving matching record holds the key |
| Cart.DeleteAllNoMatch | src/CartDetails.tsx:112-131 | when no record has the id, the list is unchanged |
| Cart.DeleteSingleRecord | src/CartDetails.tsx:112-131 | with one matching record, the result is the list with that record replaced by its updated form or removed |
| Cart.DeleteKeepsTotals | src/CartDetails.tsx:112-131 | a successful delete preserves well-formedness and both aggregate equalities |
| Cart.CartView.HandleDelete | src/CartDetails.tsx:97-138 | an acknowledged delete applies the local update and sets the success message; a failure keeps `cartData` and sets the failure message; the selection is never touched |
| Cart.CompositeKeyNotInjective | src/CartDetails.tsx:27 | ids containing `-` collide: ("a-b","c") and ("a","b-c") give the same key |
| Catalog.InitialQuantities | src/UserHomePage.tsx:53-56 | the accumulator maps exactly the loaded product ids, each to 0 |
| Catalog.CatalogView.LoadSucceeded | src/UserHomePage.tsx:50-57 | products and message are stored, and quantities hold every product id at 0 |
| Catalog.CatalogView.constructor | src/UserHomePage.tsx:38-42 | empty products, message and quantities; empty search; category "All" |
| Catalog.NextQuantity | src/UserHomePage.tsx:112 | `Math.max(prev + amount, 0)`: never negative, at least `prev + amount`, and either that sum or 0 |
| Catalog.CatalogView.HandleQuantityChange | src/UserHomePage.tsx:109-114 | only that product's entry changes, to the clamped value, so quantities stay non-negative |
| Catalog.CatalogView.SetSearchTerm | src/UserHomePage.tsx:124 | only the search term changes |
| Catalog.CatalogView.SetSelectedCategory | src/UserHomePage.tsx:130 | only the selected category changes |
| Catalog.Dedup | src/UserHomePage.tsx:66 | `Array.from(new Set(xs))` has no duplicates and the same members as `xs` |
| Catalog.DedupFirstAppearanceOrder | src/UserHomePage.tsx:66 | the distinct values appear in the order of their first appearance |
| Catalog.FirstIndex | src/UserHomePage.tsx:66 | the position of a value's first appearance |
| Catalog.FirstIndexExtend | src/UserHomePage.tsx:66 | appending a value does not move earlier first appearances |
| Catalog.CategoriesOf | src/UserHomePage.tsx:66 | `products.map(p => p.prodCat)` pointwise |
| Catalog.Categories | src/UserHomePage.tsx:66 | `categories` starts with "All", followed by exactly the product categories |
| Catalog.CatalogView.ShownCategories | src/UserHomePage.tsx:133 | the category options are "All" followed by exactly the loaded products' categories |
| Catalog.CategoriesDistinct | src/UserHomePage.tsx:66 | `categories` has no duplicates exactly when no product's category is literally "All" |
| Catalog.FilteredMembers | src/UserHomePage.tsx:68-72 | a product is shown exactly when its lowercased name contains the lowercased term and the category is "All" or equal |
| Catalog.Matches | src/UserHomePage.tsx:69-71 | the filter's test: the lowercased name includes the lowercased term, and the category is "All" or equal; used by Catalog.FilteredMembers |
| Catalog.Filtered | src/UserHomePage.tsx:68-72 | `products.filter(...)` in order; specified by Catalog.FilteredMembers, Catalog.FilteredAppend, Catalog.FilteredShowsAll and Catalog.FilteredIgnoresTermCase |
| Catalog.CatalogView.ShownProducts | src/UserHomePage.tsx:142 | the product cards are exactly the loaded products that pass the search and category test |
| Catalog.FilteredAppend | src/UserHomePage.tsx:68-72 | filtering distributes over concatenation, so the result is an order-preserving subsequence |
| Catalog.FilteredShowsAll | src/UserHomePage.tsx:68-72 | with an empty term and "All" the filtered list is the full list |
| Catalog.FilteredIgnoresTermCase | src/UserHomePage.tsx:69 | terms equal up to case give the same list |
| Catalog.AddToCartRequest | src/UserHomePage.tsx:75-84 | a request is sent exactly when the quantity exceeds 0 and `userId` is truthy; the payload carries `userId` and exactly one entry `product.id → quantity` |
| Catalog.AddToCartToast | src/UserHomePage.tsx:74-107 | a warning exactly when no request is sent; success exactly on status 200, naming the product |
| Catalog.Repeat | src/UserHomePage.tsx:155 | `c.repeat(n)` is n copies of c |
| Catalog.RatingText | src/UserHomePage.tsx:155 | the rating string exists exactly for ratings 0 to 5; `repeat` throws outside that range |
| Catalog.RatingTextShape | src/UserHomePage.tsx:155 | for 0 to 5 the string is `prodRating` filled stars then empty stars, 5 characters in all |
| Storage.ReadUser | src/ProtectedRoute.tsx:10 | a missing key reads as `{}`; a stored object reads as itself; reading throws exactly on a non-empty non-JSON string |
| Storage.BrowserStorage.SetItem | src/UserLogin.tsx:43-45 | writes one key and nothing else |
| Storage.BrowserStorage.RemoveItem | src/MainLayout.tsx:13 | removes one key and nothing else |
| Guard.Decide | src/ProtectedRoute.tsx:9-18 | children render exactly when the record is read and `allowedRoles` includes its numeric `roleId`; otherwise a replacing redirect to `/unauthorized`, or a throw when the record cannot be read |
| Guard.Admits | src/ProtectedRoute.tsx:13 | `allowedRoles.includes(user?.roleId)`; its effect is stated by Guard.Decide, Guard.RoleZeroAdmitted and Guard.StringRoleDenied |
| Guard.StoredUser | src/ProtectedRoute.tsx:10 | storage holding a record reads back as that record |
| Guard.AbsentUserDenied | src/ProtectedRoute.tsx:10-14 | with no `user` key every allowed list redirects |
| Guard.RoleZeroAdmitted | src/ProtectedRoute.tsx:13 | role 0 is admitted wherever 0 is allowed: a membership test, not truthiness |
| Guard.StringRoleDenied | src/ProtectedRoute.tsx:13 | a role stored as a string is never admitted |
| Guard.DependsOnlyOnRole | src/ProtectedRoute.tsx:9-18 | records with the same `roleId` get the same decision |
| Routes.Resolve | src/App.tsx:22-79 | a location matches at most one route, and `Resolve` finds it |
| Routes.MatchUnique | src/App.tsx:22-79 | no location matches two routes of the table |
| Routes.FirstMatch | src/App.tsx:22-79 | the position of a matching route with no matching route before it, or none when no route matches |
| Routes.MatchSegments | src/App.tsx:22-79 | a location matches a pattern piece by piece (literal up to ASCII case, parameter non-empty), trailing slashes allowed; specified by Routes.MatchUnique and Routes.VisitOnePiece / Routes.VisitTwoPieces |
| Routes.Matches | src/App.tsx:22-79 | a location matches a route's `path`; Routes.MatchUnique shows no location matches two routes |
| Routes.RouteOutcome | src/App.tsx:23-77 | what a route renders: a render failure inside the layout when the header's `getInitial(user.fullName)` throws, otherwise its `element`: a redirect, a page, or the guarded screen; specified by Routes.RouteRoles and Routes.ProtectedOutcome |
| Routes.AppOutcome | src/App.tsx:18-79 | a render failure whenever the stored `user` cannot be parsed, otherwise the route's own outcome (which fails inside the layout when the header throws) |
| Routes.Visit | src/App.tsx:18-79 | a render failure whenever App's parse of the stored `user` throws, and at every location inside the layout when the header throws on `fullName`; otherwise no match exactly when no route matches, and the matched route's outcome when one does |
| Routes.RootRedirects | src/App.tsx:18-23 | `/` redirects to `/login` without replacing history whenever the stored record can be read; the render fails otherwise |
| Routes.LoginUnguarded | src/App.tsx:18-24 | `/login` shows the login screen, without a role check, whenever the stored record can be read; the render fails otherwise |
| Routes.RegisterUnguarded | src/App.tsx:18-25 | `/register` shows the registration screen, without a role check, whenever the stored record can be read; the render fails otherwise |
| Routes.UnauthorizedUnguarded | src/App.tsx:77 | `/unauthorized` shows its page inside the layout, without a role check, whenever the stored record can be read and the header does not throw on its `fullName`; the render fails otherwise |
| Routes.HomeBuyerOnly | src/App.tsx:27-34 | `/home` goes through the guard with roles [1] |
| Routes.OrdersBuyerOnly | src/App.tsx:35-42 | `/orders` goes through the guard with roles [1] |
| Routes.ProfileBothRoles | src/App.tsx:43-50 | `/profile/<id>` goes through the guard with roles [1, 0] |
| Routes.UpdateProductAdminOnly | src/App.tsx:51-58 | `/update-product/<id>` goes through the guard with roles [0] |
| Routes.CartDetailsBuyerOnly | src/App.tsx:59-66 | `/cart-details` goes through the guard with roles [1] |
| Routes.DashboardAdminOnly | src/App.tsx:67-71 | `/Product/Dashboard` goes through the guard with roles [0] |
| Routes.CreateProductAdminOnly | src/App.tsx:72-76 | `/create-product` goes through the guard with roles [0] |
| Routes.GuardedSpec | src/ProtectedRoute.tsx:13-17 | a guarded screen is shown exactly when the record is read, the header does not throw on it and its numeric role is listed; a read record that passes the header but not the role check is redirected to `/unauthorized`; an unreadable record or a throwing header fails the render |
| Routes.Guarded | src/ProtectedRoute.tsx:13-17 | `ProtectedRoute` inside the layout: a render failure when the header throws, otherwise the screen or the `/unauthorized` redirect; specified by Routes.GuardedSpec |
| Routes.RouteRoles | src/App.tsx:27-76 | every route shows buyer screens only to role 1, product screens only to role 0, and the profile only to role 0 or 1 |
| Routes.ShownOnlyToAllowedRoles | src/App.tsx:27-76 | whatever the location, buyer screens are shown only to role 1 |
| Routes.GuardedRolesAreZeroOrOne | src/App.tsx:27-76 | no guarded route shows its screen to a role outside {0, 1} |
| Routes.ProtectedOutcome | src/App.tsx:26-78 | a guarded route inside the layout renders through the layout and then the guard with its own role list; App's parse fails on exactly the stored texts the guard's read fails on |
| Routes.HeaderThrowShowsNoLayoutScreen | src/MainLayout.tsx:64 | when the header throws on the stored `fullName`, no location shows a screen inside the layout |
| Routes.VisitOnePiece | src/App.tsx:22-79 | `/<piece>` reaches the route whose pattern is that literal |
| Routes.VisitTwoPieces | src/App.tsx:22-79 | `/<a>/<b>` reaches the route whose pattern is literal `a` then `b` or a parameter |
| Routes.VisitTwoPiecesFolded | src/App.tsx:67 | a two-piece location reaches a two-literal route when each piece equals its literal up to ASCII case |
| Login.LoginForm.constructor | src/UserLogin.tsx:12-17 | empty credentials and an empty error message |
| Login.LoginForm.HandleChange | src/UserLogin.tsx:19-24 | only the named credential field changes |
| Login.StoredAfterLogin | src/UserLogin.tsx:43-46 | the whole record is stored under `user`; `token` is written exactly when truthy, else kept; other keys are untouched |
| Login.StoredUserReadsBack | src/UserLogin.tsx:43 | after login the guard reads back exactly the record the server sent, and its `roleId` |
| Login.Destination | src/UserLogin.tsx:53-59 | role 1 goes to `/home`, role 0 to `/Product/Dashboard`, and any other role nowhere |
| Login.Outcome | src/UserLogin.tsx:39-68 | navigation exactly for an ok answer whose role has a destination; the error message is shown exactly on a refusal |
| Login.LoginForm.HandleLogin | src/UserLogin.tsx:26-69 | an ok answer writes storage as `StoredAfterLogin` says; any other answer leaves storage alone; a refusal sets `errorMsg` to the server message |
| Login.LandingScreenAdmitted | src/UserLogin.tsx:53-56 | login sends role 1 to `/home` and role 0 to `/Product/Dashboard`; the route table shows that screen to the freshly stored identity unless the header throws on its `fullName`, and then both locations fail to render |
| Registration.RegistrationForm.constructor | src/UserRegistration.tsx:28-37 | all six fields empty, no errors |
| Registration.RegistrationForm.HandleChange | src/UserRegistration.tsx:40-42 | only the named field changes |
| Registration.RequiredErrors | src/UserRegistration.tsx:44-55 | one error per empty required field, with its own message, and none for other fields |
| Registration.SameErrors | src/UserRegistration.tsx:45-54 | the map built field by field is the required-errors map |
| Registration.RegistrationForm.Validate | src/UserRegistration.tsx:44-56 | the error map is replaced wholesale; the result is true exactly when all five required fields are non-empty |
| Registration.RequiredErrorsEmpty | src/UserRegistration.tsx:44-55 | no errors exactly when all five required fields are present |
| Registration.MissingFieldReported | src/UserRegistration.tsx:47-51 | a missing required field always yields an error |
| Registration.NoErrorWhenComplete | src/UserRegistration.tsx:47-51 | a complete form yields no errors |
| Registration.AddressNeverRequired | src/UserRegistration.tsx:52 | `address`, and the `submit` slot, are never set by validation |
| Registration.Classify | src/UserRegistration.tsx:72-97 | the four outcome classes: ok with JSON shows `message`; ok, non-JSON, 200 registers; not ok shows `message` or "Registration failed"; a throw shows the network error |
| Registration.IsJson | src/UserRegistration.tsx:75 | `contentType && contentType.includes('application/json')`; its effect on the outcome is stated by Registration.Classify |
| Registration.FailureMessageShown | src/UserRegistration.tsx:89-97 | a refusal or a throw always shows a truthy message |
| Registration.RegistrationForm.HandleSubmit | src/UserRegistration.tsx:58-98 | no request when validation fails; otherwise the classified outcome, with `{submit: message}` as the whole error map on failure |
| Orders.CancelInList | src/OrderDetails.tsx:56-60 | the cancel map keeps the list length |
| Orders.CancelSpec | src/OrderDetails.tsx:56-60 | matching orders read "Cancelled" and are otherwise unchanged; other orders are untouched; length and order are kept |
| Orders.CancelIdempotent | src/OrderDetails.tsx:56-60 | applying the cancel twice equals applying it once |
| Orders.CancelNoOp | src/OrderDetails.tsx:56-60 | cancelling an already cancelled or absent order changes nothing |
| Orders.ButtonLabel | src/OrderDetails.tsx:100-104 | the caption reads "Cancelled" exactly when the button is disabled |
| Orders.CancelDisabled | src/OrderDetails.tsx:102 | `disabled={order.status === "Cancelled"}`; Orders.ButtonLabel ties it to the caption and Orders.CancelledButtonDisabled to a successful cancel |
| Orders.CancelledButtonDisabled | src/OrderDetails.tsx:56-60 | after a successful cancel the order's button is disabled |
| Orders.OrdersView.constructor | src/OrderDetails.tsx:18-20 | empty list, loading, no error |
| Orders.OrdersView.FetchSettled | src/OrderDetails.tsx:31-40 | success sets the orders, failure sets the error message, and loading ends either way |
| Orders.OrdersView.CancelOrder | src/OrderDetails.tsx:46-65 | an ok answer applies the cancel map; a failure leaves the orders unchanged |
| Orders.OrdersView.Shown | src/OrderDetails.tsx:68-81 | exactly one of four branches: the loading note iff loading; the error iff loading is over and the error is a non-empty string; the empty note iff neither and no orders; the cards, holding the list, iff neither and some orders |
| Sidebar.MenuLinks | src/Sidebar.tsx:13-59 | at most four links |
| Sidebar.Menu | src/Sidebar.tsx:5-7 | the menu is the links for the stored record; reading a malformed record throws |
| Sidebar.TargetOf | src/Sidebar.tsx:13-59 | a link with that caption exists exactly when a target is found, and it is in the menu |
| Sidebar.TargetOfAppend | src/Sidebar.tsx:13-59 | looking a caption up in two lists laid end to end finds it in the first list when it is there |
| Sidebar.MenuSpec | src/Sidebar.tsx:13-59 | Home exactly for role 1; Product Dashboard exactly for role 0; Orders and Profile exactly for a truthy `userId`, the latter to `/profile/<userId>` |
| Sidebar.NoUserNoLinks | src/Sidebar.tsx:5-7 | with no stored user the menu is empty |
| Sidebar.OrdersLinkDeniedToAdministrator | src/Sidebar.tsx:37-47 | an administrator with a `userId` sees Orders, but `/orders` redirects them to `/unauthorized`, or fails to render when the header throws on `fullName` |
| Sidebar.DashboardLinkReachable | src/Sidebar.tsx:25-35 | the lower-case dashboard link shows the dashboard to role 0 when the header does not throw on `fullName`, and fails to render when it does |
| Sidebar.DashboardLinkRoute | src/Sidebar.tsx:27 | `/product/dashboard` reaches the guarded dashboard route |
| Sidebar.ProfileLinkReachable | src/Sidebar.tsx:49-59 | with a numeric `userId` and role 0 or 1, the profile link shows the profile screen when the header does not throw on `fullName`, and fails to render when it does |
| Layout.GetInitial | src/MainLayout.tsx:23-25 | "?" for a missing or blank name; otherwise the first non-space character in upper case; a non-string name throws |
| Layout.InitialShape | src/MainLayout.tsx:23-25 | the initial is one character that is neither lower case nor white space |
| Layout.InitialThrowsIsGetInitial | src/MainLayout.tsx:23-25 | the routes' layout failure holds exactly when `getInitial(user.fullName)` throws |
| Layout.CartIconMatchesRoute | src/MainLayout.tsx:50 | the cart icon shows (role 1, header not throwing) exactly to the identities `/cart-details` shows its screen to; when the header throws the route fails to render |
| Layout.CartIconShown | src/MainLayout.tsx:50 | `user?.roleId === 1`; Layout.CartIconMatchesRoute shows it agrees with the `/cart-details` guard |
| Layout.ProfileClickTarget | src/MainLayout.tsx:17-21 | navigation to `/profile/<id>` exactly when `user.id` is truthy |
| Layout.ProfileClickReachable | src/MainLayout.tsx:17-21 | a numeric non-zero `id` with role 0 or 1 reaches the profile screen when the header does not throw on `fullName`, and a render failure when it does |
| Layout.CartClick | src/MainLayout.tsx:27-36 | a fetched cart opens `/cart-details` with the response as `cartData`; a throw shows the failure alert |
| Layout.OpenCartScreen | src/MainLayout.tsx:27-31 | the opened cart screen holds exactly the fetched records with every line item selected |
| Layout.HandleLogout | src/MainLayout.tsx:12-15 | removes only `user` and navigates to `/login` |
| Layout.LogoutKeepsOtherKeys | src/MainLayout.tsx:13 | logout keeps every other key, the token included |
| Layout.LoggedOutSeesOnlyPublicScreens | src/MainLayout.tsx:12-15 | after logout no guarded screen can be shown at any location |
| Profile.SpaceInsertionLength | src/UserProfile.tsx:55 | inserting spaces lengthens the text by the number of capitals |
| Profile.CapitalsFollowSpaces | src/UserProfile.tsx:55 | in the spaced text every capital has a space before it |
| Profile.DropSpacesAppend | src/UserProfile.tsx:55 | dropping spaces distributes over concatenation |
| Profile.InsertedSpacesDropped | src/UserProfile.tsx:55 | the replace only inserts spaces: removing spaces after it gives what removing them before it gives |
| Profile.SpaceInsertionRoundTrip | src/UserProfile.tsx:55 | dropping the spaces again recovers a field name that had none |
| Profile.CapitalizeFirst | src/UserProfile.tsx:56 | the first character is upper-cased unless it is a line terminator; the rest is unchanged |
| Profile.FormatLabel | src/UserProfile.tsx:54-56 | the label is as long as the field name plus its number of capitals |
| Profile.NoCapitals | src/UserProfile.tsx:55 | a piece without capitals is left unchanged |
| Profile.SpaceBeforeUpperAppend | src/UserProfile.tsx:55 | the global replace works piece by piece |
| Profile.TwoWordSpaced | src/UserProfile.tsx:55 | a two-word camel-case name gets exactly one space before its capital |
| Profile.TwoWordLabel | src/UserProfile.tsx:54-56 | a two-word camel-case name becomes two words with the first capitalised |
| Profile.FirstNameLabel | src/UserProfile.tsx:54-56 | `firstName` becomes "First Name" |
| Profile.LastNameLabel | src/UserProfile.tsx:54-56 | `lastName` becomes "Last Name" |
| Profile.AddressLabel | src/UserProfile.tsx:54-56 | `address` becomes "Address" |
| Profile.DisplayedLabels | src/UserProfile.tsx:51-56 | the card shows exactly three fields, labelled "First Name", "Last Name" and "Address" |
| Profile.ProfileView.constructor | src/UserProfile.tsx:7-9 | no record, view mode, empty form copy |
| Profile.ProfileView.Loaded | src/UserProfile.tsx:17-20 | the record and the form copy both take the fetched record |
| Profile.ProfileView.HandleChange | src/UserProfile.tsx:24-26 | only the named field of the form copy changes |
| Profile.ProfileView.StartEditing | src/UserProfile.tsx:83 | enters edit mode and changes nothing else |
| Profile.ProfileView.CancelEditing | src/UserProfile.tsx:80 | leaves edit mode without restoring the form copy; every field then shows the record's own value |
| Profile.ProfileView.HandleSave | src/UserProfile.tsx:28-41 | sends the form copy; an answer replaces the record and leaves edit mode; a failure changes nothing |
| Profile.ProfileView.Shown | src/UserProfile.tsx:47-68 | nothing while loading; `user[field]` in view mode; in edit mode the form value exactly when it is truthy, and "" otherwise |
| Js.LowerCase | src/UserHomePage.tsx:69 | `toLowerCase` on ASCII, pointwise |
| Js.Truthy | src/UserHomePage.tsx:76 | JavaScript truthiness (`undefined`, `null`, `false`, `0`, `""` are falsy); used by Catalog.AddToCartRequest, Layout.ProfileClickTarget, Orders.OrdersView.Shown and Profile.ProfileView.Shown |
| Js.IncludesNumber | src/ProtectedRoute.tsx:13 | `includes` on a number array matches only a number equal to an element; Guard.StringRoleDenied shows a string role never matches |
| Js.ToText | src/Sidebar.tsx:51 | `String(v)` as a template literal inserts it; a number prints as non-empty text without `/`, so `/profile/${id}` stays one path piece |
| Js.Trim | src/MainLayout.tsx:24 | `trim` is empty exactly for all-space text, and otherwise starts with the first non-space character |
| Js.ContainsIffOccurs | src/UserHomePage.tsx:69 | `includes` holds exactly when the needle occurs at some position |
| Js.ContainsEmpty | src/UserHomePage.tsx:69 | every string includes the empty string |

## Left out

- Network calls are not modelled. Every `fetch`/`axios` request, endpoint URL and header is left
  out. Each server answer becomes a parameter: an ok flag, a status, a body, or a thrown request.
- `JSON.parse` is modelled only for the cases the client meets:
  - a missing key;
  - the empty string;
  - an object's JSON text;
  - a string that is not JSON.

  Stored text that parses to `null` or to a primitive is not representable.
- Asynchronous interleaving is not modelled. Each handler is one atomic step once its request has
  settled, and overlapping deletes or cancels are out of scope.
- Some side effects are left out:
  - timers that clear notices or delay navigation;
  - toasts other than the add-to-cart toast kind and text;
  - `alert`, `window.scrollTo` and `window.location.reload`;
  - `console` output.
- Rendering, styles and the header's hover animation state are left out.
- Prices are integers. JavaScript's floating-point numbers, `NaN` and `toLocaleString` are out of scope.
- Case mapping, `trim` and the regular expressions are modelled on ASCII only. Unicode case
  mapping and Unicode white space are out of scope.
- Locations are not percent-decoded. Query strings and fragments are not part of matching.
- The value App parses at src/App.tsx:18 is never used, so it is not modelled. The parse itself is
  modelled: it throws on exactly the stored texts the guard's read throws on, and `Routes.Visit`
  then gives `RenderFailed` for every location. The layout's header throw on a numeric or boolean
  `fullName` is modelled as well: every location inside the layout then gives `RenderFailed`.
- The product-management screens, the header component and the data loaders are not part of this
  model: creating, updating and listing products, and the orders and profile fetches.
- Registration's `successMessage` state is never set in the source, so it is not modelled.
- `cancelMessage` in the order list is never set in the source, so it is not modelled.
- Cart.CartView.HandleIncrease: requires every record with the cart id to hold the product key.
  Otherwise the source computes `undefined + 1`, which is `NaN`, and `NaN` is not representable
  with integers.
- Cart.IncreaseAll: carries the same requirement as `HandleIncrease`, for the same `NaN` reason.
- Cart.IncreaseSpec: carries the same requirement as `HandleIncrease`, for the same `NaN` reason.
- Cart.CartView.HandleDelete: requires that a matching record hold the product key or be empty,
  for the same `NaN` reason.
- Cart.Deleted: requires the record to hold the product key or be empty, as `HandleDelete` does.
- Cart.DeletedSpec: requires the record to hold the product key or be empty, as `HandleDelete` does.
- Cart.DeleteAll: carries the same requirement as `HandleDelete` for every matching record.
- Cart.DeleteKeepsOthers: carries the same requirement as `HandleDelete` for every matching record.
- Cart.DeleteSingleRecord: carries the same requirement as `HandleDelete` for the matching record.
- Cart.DeleteKeepsTotals: carries the same requirement as `HandleDelete` for every matching record.
- Catalog.CatalogView.HandleQuantityChange: requires the product id to be in `quantities`.
  Otherwise the source stores `Math.max(NaN, 0)`, which is `NaN`.
- Catalog.RatingText: models integer ratings only. For a fractional rating `repeat` truncates its
  count rather than throwing: 4.5 gives four filled stars and no empty one, a string shorter than
  five characters. That case is not modelled.
- Layout.CartClick: the request for `/cart/<user.id>` itself is not modelled. Only its settled
  answer is.
