/**
 * The buyer's catalog screen (src/UserHomePage.tsx): the loaded products, a per-product quantity
 * picker floored at zero, the category drop-down, the search and category filter, the add-to-cart
 * guard with its request payload, and the five-star rating string.
 */
module Catalog {
  import opened Wrappers
  import opened Js

  datatype Product = Product(
    id: int,
    productName: string,
    productDesc: string,
    productPrice: int,
    prodCat: string,
    productQuantity: int,
    uom: string,
    prodRating: int,
    imageURL: string)

  // ---------------------------------------------------------------------------------------------
  // Quantities

  /** Some product in the list has this id. */
  predicate HasProductId(products: seq<Product>, id: int) {
    exists i :: 0 <= i < |products| && products[i].id == id
  }

  /** The `reduce` run after a successful load: every product id is entered with quantity 0. */
  method InitialQuantities(products: seq<Product>) returns (acc: map<int, int>)
    ensures forall id :: id in acc <==> HasProductId(products, id)
    ensures forall id :: id in acc ==> acc[id] == 0
  {
    acc := map[];
    var k := 0;
    while k < |products|
      invariant 0 <= k <= |products|
      invariant forall id :: id in acc <==> exists i :: 0 <= i < k && products[i].id == id
      invariant forall id :: id in acc ==> acc[id] == 0
    {
      acc := acc[products[k].id := 0];
      k := k + 1;
    }
  }

  /** `Math.max(prev + amount, 0)`. */
  function NextQuantity(prev: int, amount: int): (q: int)
    ensures q >= 0
    ensures q >= prev + amount
    ensures q == prev + amount || q == 0
  {
    if prev + amount > 0 then prev + amount else 0
  }

  /** No entry of the quantity map is negative. */
  predicate NonNegative(quantities: map<int, int>) {
    forall id :: id in quantities ==> quantities[id] >= 0
  }

  // ---------------------------------------------------------------------------------------------
  // Categories

  /** `xs` holds no value twice. */
  predicate NoDup(xs: seq<string>) {
    forall i, j :: 0 <= i < j < |xs| ==> xs[i] != xs[j]
  }

  /**
   * `Array.from(new Set(xs))`: a `Set` keeps the order in which values are first inserted and ignores
   * a value it already holds.
   */
  function Dedup(xs: seq<string>): (r: seq<string>)
    ensures NoDup(r)
    ensures forall x :: x in r <==> x in xs
    decreases |xs|
  {
    if xs == [] then []
    else
      var d := Dedup(xs[..|xs| - 1]);
      var x := xs[|xs| - 1];
      assert xs == xs[..|xs| - 1] + [x];
      if x in d then d else d + [x]
  }

  /** The index at which `x` first appears in `xs`. */
  function FirstIndex(xs: seq<string>, x: string): (i: nat)
    requires x in xs
    ensures i < |xs| && xs[i] == x
    ensures forall j :: 0 <= j < i ==> xs[j] != x
  {
    if xs[0] == x then 0 else 1 + FirstIndex(xs[1..], x)
  }

  /** Extending a list at the end does not move the first appearance of a value it already held. */
  lemma {:induction false} FirstIndexExtend(xs: seq<string>, y: string, x: string)
    requires x in xs
    ensures x in xs + [y] && FirstIndex(xs + [y], x) == FirstIndex(xs, x)
  {
    var i := FirstIndex(xs, x);
    var k := FirstIndex(xs + [y], x);
    assert (xs + [y])[i] == x;
  }

  /** The distinct values come out in the order of their first appearance in `xs`. */
  lemma {:induction false} DedupFirstAppearanceOrder(xs: seq<string>)
    ensures forall i, j :: 0 <= i < j < |Dedup(xs)| ==>
              FirstIndex(xs, Dedup(xs)[i]) < FirstIndex(xs, Dedup(xs)[j])
    decreases |xs|
  {
    if xs != [] {
      var front := xs[..|xs| - 1];
      var x := xs[|xs| - 1];
      assert xs == front + [x];
      DedupFirstAppearanceOrder(front);
      var d := Dedup(front);
      forall v | v in front ensures FirstIndex(xs, v) == FirstIndex(front, v) {
        FirstIndexExtend(front, x, v);
      }
      if x !in d {
        assert FirstIndex(xs, x) == |xs| - 1;
        forall i | 0 <= i < |d| ensures FirstIndex(xs, d[i]) < |xs| - 1 {
          assert d[i] in front;
        }
      }
    }
  }

  /** `products.map(p => p.prodCat)`. */
  function CategoriesOf(products: seq<Product>): (r: seq<string>)
    ensures |r| == |products|
    ensures forall i :: 0 <= i < |products| ==> r[i] == products[i].prodCat
  {
    seq(|products|, i requires 0 <= i < |products| => products[i].prodCat)
  }

  /** The drop-down's options: `All` followed by the distinct product categories. */
  function Categories(products: seq<Product>): (r: seq<string>)
    ensures |r| >= 1 && r[0] == "All"
    ensures forall c :: c in r[1..] <==> exists i :: 0 <= i < |products| && products[i].prodCat == c
  {
    var cats := CategoriesOf(products);
    assert forall c :: c in cats <==> exists i :: 0 <= i < |products| && products[i].prodCat == c by {
      forall c | c in cats ensures exists i :: 0 <= i < |products| && products[i].prodCat == c {
        var i :| 0 <= i < |cats| && cats[i] == c;
        assert products[i].prodCat == c;
      }
    }
    ["All"] + Dedup(cats)
  }

  /**
   * The option list repeats no entry exactly when no product's category is itself the string `All`
   * (the literal entry is not part of the set that removes duplicates).
   */
  lemma CategoriesDistinct(products: seq<Product>)
    ensures NoDup(Categories(products)) <==> forall i :: 0 <= i < |products| ==> products[i].prodCat != "All"
  {
    var r := Categories(products);
    if exists i :: 0 <= i < |products| && products[i].prodCat == "All" {
      assert "All" in r[1..];
      var j :| 0 <= j < |r[1..]| && r[1..][j] == "All";
      assert r[0] == r[j + 1];
    } else {
      assert "All" !in r[1..];
      forall i, j | 0 <= i < j < |r| ensures r[i] != r[j] {
        if i > 0 {
          assert r[i] == r[1..][i - 1] && r[j] == r[1..][j - 1];
        } else {
          assert r[j] == r[1..][j - 1];
        }
      }
    }
  }

  // ---------------------------------------------------------------------------------------------
  // Filter

  /** The filter's test: case-insensitive name search, and the selected category or `All`. */
  predicate Matches(p: Product, searchTerm: string, selectedCategory: string) {
    && Contains(LowerCase(p.productName), LowerCase(searchTerm))
    && (selectedCategory == "All" || p.prodCat == selectedCategory)
  }

  /** `products.filter(...)`: the matching products, in their original order. */
  function Filtered(products: seq<Product>, searchTerm: string, selectedCategory: string): seq<Product> {
    if products == [] then []
    else
      (if Matches(products[0], searchTerm, selectedCategory) then [products[0]] else [])
      + Filtered(products[1..], searchTerm, selectedCategory)
  }

  /** A product is shown exactly when it is in the list and passes the filter's test. */
  lemma {:induction false} FilteredMembers(products: seq<Product>, searchTerm: string, selectedCategory: string)
    ensures forall p :: p in Filtered(products, searchTerm, selectedCategory) <==>
                        p in products && Matches(p, searchTerm, selectedCategory)
  {
    if products != [] {
      FilteredMembers(products[1..], searchTerm, selectedCategory);
      assert products == [products[0]] + products[1..];
    }
  }

  /** Filtering distributes over concatenation, so the relative order of the kept products is preserved. */
  lemma {:induction false} FilteredAppend(a: seq<Product>, b: seq<Product>, searchTerm: string, selectedCategory: string)
    ensures Filtered(a + b, searchTerm, selectedCategory) ==
            Filtered(a, searchTerm, selectedCategory) + Filtered(b, searchTerm, selectedCategory)
  {
    if a == [] {
      assert a + b == b;
    } else {
      var head := if Matches(a[0], searchTerm, selectedCategory) then [a[0]] else [];
      var restA := Filtered(a[1..], searchTerm, selectedCategory);
      var fb := Filtered(b, searchTerm, selectedCategory);
      FilteredAppend(a[1..], b, searchTerm, selectedCategory);
      assert (a + b)[1..] == a[1..] + b;
      assert (a + b)[0] == a[0];
      assert Filtered(a + b, searchTerm, selectedCategory) == head + (restA + fb);
      assert head + (restA + fb) == (head + restA) + fb;
    }
  }

  /** With an empty search term and `All` selected, every product is shown. */
  lemma {:induction false} FilteredShowsAll(products: seq<Product>)
    ensures Filtered(products, "", "All") == products
  {
    if products != [] {
      ContainsEmpty(LowerCase(products[0].productName));
      FilteredShowsAll(products[1..]);
      assert products == [products[0]] + products[1..];
    }
  }

  /** The search ignores the case of the term: it is compared after lower-casing both sides. */
  lemma FilteredIgnoresTermCase(products: seq<Product>, t1: string, t2: string, selectedCategory: string)
    requires LowerCase(t1) == LowerCase(t2)
    ensures Filtered(products, t1, selectedCategory) == Filtered(products, t2, selectedCategory)
  {
  }

  // ---------------------------------------------------------------------------------------------
  // Add to cart

  /** The body posted to the cart service: the user's id and a one-entry `productQty` object. */
  datatype CartPayload = CartPayload(userId: Value, productQty: map<int, int>)

  /**
   * `handleAddToCart`'s guard and payload: a request is made only when the product's quantity is a
   * number greater than 0 and `userId` is truthy. `None` is the warning path.
   */
  function AddToCartRequest(quantities: map<int, int>, product: Product, userId: Value): (r: Option<CartPayload>)
    ensures r.Some? <==> product.id in quantities && quantities[product.id] > 0 && Truthy(userId)
    ensures r.Some? ==> r.value.userId == userId && r.value.productQty.Keys == {product.id}
                        && r.value.productQty[product.id] == quantities[product.id]
  {
    if product.id in quantities && quantities[product.id] > 0 && Truthy(userId) then
      Some(CartPayload(userId, map[product.id := quantities[product.id]]))
    else None
  }

  /**
   * How the cart service answered. `Status(code)` is an answer `axios.post` resolved with; axios
   * resolves only for 2xx codes, so `code` is 200 to 299 in practice and any of them other than 200
   * (201, say) gives the failure toast. `Thrown` is a rejected request: a network failure or a
   * status outside 2xx.
   */
  datatype AddResponse = Status(code: int) | Thrown

  datatype ToastKind = Success | Error | Warning

  datatype Toast = Toast(kind: ToastKind, text: string)

  /** The toast shown after a click on "Add to Cart"; `response` is ignored when no request is made. */
  function AddToCartToast(quantities: map<int, int>, product: Product, userId: Value, response: AddResponse): (t: Toast)
    ensures t.kind == Warning <==> AddToCartRequest(quantities, product, userId).None?
    ensures t.kind == Success <==> AddToCartRequest(quantities, product, userId).Some? && response == Status(200)
    ensures t.kind == Success ==> t.text == product.productName + " added to cart successfully!"
  {
    if AddToCartRequest(quantities, product, userId).None? then
      Toast(Warning, "Please select a quantity greater than 0.")
    else match response
      case Status(code) =>
        if code == 200 then Toast(Success, product.productName + " added to cart successfully!")
        else Toast(Error, "Failed to add product to cart.")
      case Thrown => Toast(Error, "Something went wrong while adding to cart.")
  }

  // ---------------------------------------------------------------------------------------------
  // Rating

  const FilledStar: char := '★'
  const EmptyStar: char := '☆'

  /** `c.repeat(n)` for a count that `repeat` accepts. */
  function Repeat(c: char, n: nat): (r: string)
    ensures |r| == n
    ensures forall i :: 0 <= i < n ==> r[i] == c
  {
    if n == 0 then [] else [c] + Repeat(c, n - 1)
  }

  /**
   * `'★'.repeat(prodRating) + '☆'.repeat(5 - prodRating)`. `repeat` throws a `RangeError` on a
   * negative count, so a rating below 0 or above 5 yields `None`.
   */
  function RatingText(prodRating: int): (r: Option<string>)
    ensures r.Some? <==> 0 <= prodRating <= 5
  {
    if 0 <= prodRating <= 5 then Some(Repeat(FilledStar, prodRating) + Repeat(EmptyStar, 5 - prodRating))
    else None
  }

  /** For a rating from 0 to 5 the string has 5 characters: `prodRating` filled stars, then empty ones. */
  lemma RatingTextShape(prodRating: int)
    requires 0 <= prodRating <= 5
    ensures RatingText(prodRating).Some?
    ensures |RatingText(prodRating).value| == 5
    ensures forall i :: 0 <= i < 5 ==>
              RatingText(prodRating).value[i] == if i < prodRating then FilledStar else EmptyStar
  {
    var a := Repeat(FilledStar, prodRating);
    var b := Repeat(EmptyStar, 5 - prodRating);
    assert forall i :: prodRating <= i < 5 ==> (a + b)[i] == b[i - prodRating];
  }

  // ---------------------------------------------------------------------------------------------
  // The screen's state

  class CatalogView {
    var products: seq<Product>
    var message: string
    var quantities: map<int, int>
    var searchTerm: string
    var selectedCategory: string

    constructor ()
      ensures products == [] && message == "" && quantities == map[]
      ensures searchTerm == "" && selectedCategory == "All"
    {
      products := [];
      message := "";
      quantities := map[];
      searchTerm := "";
      selectedCategory := "All";
    }

    /** A successful product load: products, message, and a zero quantity for every product. */
    method LoadSucceeded(data: seq<Product>, msg: string)
      modifies this
      ensures products == data && message == msg
      ensures forall id :: id in quantities <==> HasProductId(data, id)
      ensures forall id :: id in quantities ==> quantities[id] == 0
      ensures searchTerm == old(searchTerm) && selectedCategory == old(selectedCategory)
    {
      products := data;
      message := msg;
      quantities := InitialQuantities(data);
    }

    method SetSearchTerm(value: string)
      modifies this
      ensures searchTerm == value
      ensures products == old(products) && message == old(message) && quantities == old(quantities)
      ensures selectedCategory == old(selectedCategory)
    {
      searchTerm := value;
    }

    method SetSelectedCategory(value: string)
      modifies this
      ensures selectedCategory == value
      ensures products == old(products) && message == old(message) && quantities == old(quantities)
      ensures searchTerm == old(searchTerm)
    {
      selectedCategory := value;
    }

    /**
     * The − and + buttons. The buttons only exist for loaded products, whose entries the load created,
     * so the entry is present. Only that entry changes, and no quantity becomes negative.
     */
    method HandleQuantityChange(productId: int, amount: int)
      requires productId in quantities
      modifies this
      ensures quantities == old(quantities)[productId := NextQuantity(old(quantities)[productId], amount)]
      ensures quantities[productId] >= 0
      ensures NonNegative(old(quantities)) ==> NonNegative(quantities)
      ensures products == old(products) && message == old(message)
      ensures searchTerm == old(searchTerm) && selectedCategory == old(selectedCategory)
    {
      quantities := quantities[productId := NextQuantity(quantities[productId], amount)];
    }

    /** The category buttons: "All" first, then exactly the loaded products' categories. */
    function ShownCategories(): (r: seq<string>)
      reads this
      ensures |r| >= 1 && r[0] == "All"
      ensures forall c :: c in r[1..] <==> exists i :: 0 <= i < |products| && products[i].prodCat == c
    {
      Categories(products)
    }

    /** The product cards: exactly the loaded products that pass the search and category filter. */
    function ShownProducts(): (r: seq<Product>)
      reads this
      ensures forall p :: p in r <==> p in products && Matches(p, searchTerm, selectedCategory)
    {
      FilteredMembers(products, searchTerm, selectedCategory);
      Filtered(products, searchTerm, selectedCategory)
    }
  }
}
