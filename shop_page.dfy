/** The storefront page: the product catalogue, the search and filter
    handlers that choose which products are listed, the cart it hands to
    the checkout, and the view it shows. */
module ShopPage {
  import opened Wrappers
  import opened Seqs
  import opened Text
  import opened CheckoutRules
  import opened Filters
  import CheckoutFlow

  datatype Product = Product(id: string, name: string, brand: string, image: string, price: real,
                             originalPrice: Option<real>, rating: real, reviewCount: int,
                             seller: Option<string>, inStock: bool, isWishlisted: Option<bool>)

  const SampleProducts: seq<Product> := [
    Product("1", "Wireless Bluetooth Headphones with Active Noise Cancellation", "TechSound",
            "/api/placeholder/300/400", 89.99, Some(129.99), 4.5, 1247, Some("TechSound Official"), true, Some(false)),
    Product("2", "Smart Fitness Watch with Heart Rate Monitor", "FitTrack",
            "/api/placeholder/300/400", 199.99, None, 4.3, 892, Some("FitTrack Store"), true, Some(true)),
    Product("3", "Portable Bluetooth Speaker - Waterproof", "SoundWave",
            "/api/placeholder/300/400", 49.99, Some(79.99), 4.7, 2156, Some("SoundWave Direct"), true, Some(false)),
    Product("4", "USB-C Fast Charging Cable 6ft", "ChargeMax",
            "/api/placeholder/300/400", 14.99, Some(24.99), 4.2, 567, None, false, Some(false)),
    Product("5", "Wireless Phone Charger Pad", "PowerUp",
            "/api/placeholder/300/400", 29.99, None, 4.4, 334, Some("PowerUp Official"), true, Some(false)),
    Product("6", "Gaming Mechanical Keyboard RGB", "GamePro",
            "/api/placeholder/300/400", 79.99, Some(99.99), 4.6, 1123, Some("GamePro Store"), true, Some(true))
  ]

  const InitialCart: seq<CartItem> := [
    CartItem("1", "Wireless Bluetooth Headphones", 89.99, 2, "/api/placeholder/100/100", Some("Black")),
    CartItem("2", "Smart Fitness Watch", 199.99, 1, "/api/placeholder/100/100", Some("Silver"))
  ]

  // ---- search ----

  predicate MatchesQuery(query: string, p: Product)
  {
    Contains(ToLower(p.name), ToLower(query)) || Contains(ToLower(p.brand), ToLower(query))
  }

  predicate MatchesCategory(category: Option<string>, p: Product)
  {
    category.Some? && Contains(ToLower(p.brand), ToLower(category.value))
  }

  /** The category narrows the results unless it is absent, empty (falsy)
      or "All Categories". */
  predicate CategoryApplies(category: Option<string>)
  {
    category.Some? && category.value != "" && category.value != "All Categories"
  }

  /** `handleSearch`'s timer body: start from the whole catalogue, keep the
      products whose name or brand contains the query when the trimmed
      query is not empty, then those whose brand contains the category. */
  function SearchResults(products: seq<Product>, query: string, category: Option<string>): seq<Product>
  {
    var byQuery := if |Trim(query)| > 0 then Filter(products, p => MatchesQuery(query, p)) else products;
    if CategoryApplies(category) then Filter(byQuery, p => MatchesCategory(category, p)) else byQuery
  }

  /** What a product must satisfy to be listed after a search. */
  predicate SearchAccepts(query: string, category: Option<string>, p: Product)
  {
    (|Trim(query)| > 0 ==> MatchesQuery(query, p))
    && (CategoryApplies(category) ==> MatchesCategory(category, p))
  }

  /** The two conditional filters of a search are one filter by the
      combined condition. */
  lemma SearchIsOneFilter(products: seq<Product>, query: string, category: Option<string>)
    ensures SearchResults(products, query, category) == Filter(products, p => SearchAccepts(query, category, p))
  {
    var pq := (p: Product) => |Trim(query)| > 0 ==> MatchesQuery(query, p);
    var pc := (p: Product) => CategoryApplies(category) ==> MatchesCategory(category, p);
    FilterIf(products, |Trim(query)| > 0, p => MatchesQuery(query, p), pq);
    FilterIf(Filter(products, pq), CategoryApplies(category), p => MatchesCategory(category, p), pc);
    FilterThen(products, pq, pc, p => SearchAccepts(query, category, p));
  }

  /** The results keep the catalogue's order, and a product is listed
      exactly when it matches the (untrimmed) query and the category. A
      query made only of whitespace filters nothing. */
  lemma SearchSpec(products: seq<Product>, query: string, category: Option<string>)
    ensures IsSubsequence(SearchResults(products, query, category), products)
    ensures forall i :: 0 <= i < |products| ==>
              (products[i] in SearchResults(products, query, category) <==> SearchAccepts(query, category, products[i]))
    ensures (forall i :: 0 <= i < |query| ==> IsWhitespace(query[i])) && !CategoryApplies(category) ==>
              SearchResults(products, query, category) == products
  {
    SearchIsOneFilter(products, query, category);
    FilterIsSubsequence(products, p => SearchAccepts(query, category, p));
    TrimmedNonEmptyIff(query);
  }

  // ---- sidebar filters ----

  /** `s.replace('+', '')`: only the first `+` is removed. */
  function RemoveFirstPlus(s: string): (r: string)
    ensures '+' !in s ==> r == s
    ensures '+' in s ==> |r| == |s| - 1
  {
    if s == [] then []
    else if s[0] == '+' then s[1..]
    else [s[0]] + RemoveFirstPlus(s[1..])
  }

  /** The text around the first `+` is kept. */
  lemma {:induction false} RemoveFirstPlusAt(s: string, i: nat)
    requires i < |s| && s[i] == '+' && '+' !in s[..i]
    ensures RemoveFirstPlus(s) == s[..i] + s[i + 1..]
  {
    if i > 0 {
      assert s[1..][..i - 1] == s[1..i];
      RemoveFirstPlusAt(s[1..], i - 1);
      assert s[..i] == [s[0]] + s[1..][..i - 1];
    }
  }

  /** The minimum rating a rating option stands for; `None` is `NaN`. */
  function MinRating(option: string): Option<int>
  {
    ParseInt(RemoveFirstPlus(option))
  }

  /** `ratings.some(...)`: some option parses to a minimum the rating meets;
      `rating >= NaN` is false. */
  predicate RatingMet(ratings: seq<string>, rating: real)
  {
    exists i :: 0 <= i < |ratings| && MinRating(ratings[i]).Some? && rating >= MinRating(ratings[i]).value as real
  }

  predicate PriceRangeApplies(r: PriceRange)
  {
    r.lo > 0 || r.hi < 1000
  }

  predicate InPriceRange(r: PriceRange, p: Product)
  {
    r.lo as real <= p.price <= r.hi as real
  }

  /** `handleFiltersChange`'s timer body: start from the whole catalogue
      and narrow by brand, then by price, then by rating, each only when
      it is set. */
  function ApplyFilters(products: seq<Product>, f: FilterState): seq<Product>
  {
    var byBrand := if |f.brands| > 0 then Filter(products, (p: Product) => p.brand in f.brands) else products;
    var byPrice := if PriceRangeApplies(f.priceRange) then Filter(byBrand, p => InPriceRange(f.priceRange, p)) else byBrand;
    if |f.ratings| > 0 then Filter(byPrice, (p: Product) => RatingMet(f.ratings, p.rating)) else byPrice
  }

  /** What a product must satisfy to be listed under the criteria `f`. */
  predicate FiltersAccept(f: FilterState, p: Product)
  {
    (|f.brands| > 0 ==> p.brand in f.brands)
    && (PriceRangeApplies(f.priceRange) ==> InPriceRange(f.priceRange, p))
    && (|f.ratings| > 0 ==> RatingMet(f.ratings, p.rating))
  }

  /** The three conditional filters in a row are one filter by the
      combined condition. */
  lemma ApplyFiltersIsOneFilter(products: seq<Product>, f: FilterState)
    ensures ApplyFilters(products, f) == Filter(products, p => FiltersAccept(f, p))
  {
    var pb := (p: Product) => |f.brands| > 0 ==> p.brand in f.brands;
    var pp := (p: Product) => PriceRangeApplies(f.priceRange) ==> InPriceRange(f.priceRange, p);
    var pr := (p: Product) => |f.ratings| > 0 ==> RatingMet(f.ratings, p.rating);
    var pbp := (p: Product) => pb(p) && pp(p);
    FilterIf(products, |f.brands| > 0, (p: Product) => p.brand in f.brands, pb);
    FilterIf(Filter(products, pb), PriceRangeApplies(f.priceRange), p => InPriceRange(f.priceRange, p), pp);
    FilterThen(products, pb, pp, pbp);
    FilterIf(Filter(products, pbp), |f.ratings| > 0, (p: Product) => RatingMet(f.ratings, p.rating), pr);
    FilterThen(products, pbp, pr, p => FiltersAccept(f, p));
  }

  /** The listing keeps the catalogue's order and holds exactly the
      products the criteria accept. */
  lemma ApplyFiltersSpec(products: seq<Product>, f: FilterState)
    ensures IsSubsequence(ApplyFilters(products, f), products)
    ensures forall i :: 0 <= i < |products| ==>
              (products[i] in ApplyFilters(products, f) <==> FiltersAccept(f, products[i]))
  {
    ApplyFiltersIsOneFilter(products, f);
    FilterIsSubsequence(products, p => FiltersAccept(f, p));
  }

  /** Only brands, price range and ratings matter: categories, seller type,
      condition, shipping and features leave the listing unchanged, and the
      initial criteria list the whole catalogue. */
  lemma FiltersIgnoreOtherCriteria(products: seq<Product>, f: FilterState, g: FilterState)
    requires f.brands == g.brands && f.priceRange == g.priceRange && f.ratings == g.ratings
    ensures ApplyFilters(products, f) == ApplyFilters(products, g)
    ensures ApplyFilters(products, DefaultFilters) == products
  {
  }

  lemma MinRatingOfFour()
    ensures MinRating("4+") == Some(4)
  {
    assert RemoveFirstPlus("4+") == "4";
    assert IntToString(4) == "4";
    ParseIntOfIntToString(4);
  }

  lemma MinRatingOfBarePlus()
    ensures MinRating("+") == None
  {
    assert RemoveFirstPlus("+") == "";
    assert TrimStart("") == "";
  }

  lemma RatingMetSingle(option: string, rating: real)
    ensures RatingMet([option], rating) <==> MinRating(option).Some? && rating >= MinRating(option).value as real
  {
    assert [option][0] == option;
  }

  /** Each rating check box of the sidebar stands for its leading digit:
      "4+" for 4 down to "1+" for 1. */
  lemma SidebarRatingOptions()
    ensures forall i :: 0 <= i < |RatingOptions| ==> MinRating(RatingOptions[i]) == Some(4 - i)
  {
    forall i | 0 <= i < |RatingOptions|
      ensures MinRating(RatingOptions[i]) == Some(4 - i)
    {
      var d := 4 - i;
      assert RatingOptions[i] == IntToString(d) + "+";
      assert RemoveFirstPlus(RatingOptions[i]) == IntToString(d);
      ParseIntOfIntToString(d);
    }
  }

  /** The shipping check boxes, "Prime eligible" among them, only edit the
      `shipping` list, which the listing never reads: checking or unchecking
      one leaves the products listed as they were. */
  lemma ShippingChoiceKeepsListing(products: seq<Product>, f: FilterState, value: string, checked: bool)
    ensures ApplyFilters(products, ListChange(f, Shipping, value, checked)) == ApplyFilters(products, f)
    ensures ApplyFilters(products, ListChange(DefaultFilters, Shipping, ShippingOptions[2], true)) == products
  {
    FiltersIgnoreOtherCriteria(products, ListChange(f, Shipping, value, checked), f);
    FiltersIgnoreOtherCriteria(products, ListChange(DefaultFilters, Shipping, ShippingOptions[2], true), DefaultFilters);
  }

  /** A "4+" option keeps ratings of 4 and above, and an option that does not
      parse keeps nothing. */
  lemma RatingOptionExamples()
    ensures RatingMet(["4+"], 4.5) && RatingMet(["4+"], 4.0) && !RatingMet(["4+"], 3.9)
    ensures !RatingMet(["+"], 5.0)
  {
    MinRatingOfFour();
    MinRatingOfBarePlus();
    RatingMetSingle("4+", 4.5);
    RatingMetSingle("4+", 4.0);
    RatingMetSingle("4+", 3.9);
    RatingMetSingle("+", 5.0);
  }

  // ---- the cart ----

  /** `prev.map(item => item.id === id ? { ...item, quantity } : item)`. */
  function UpdateQuantity(items: seq<CartItem>, id: string, quantity: int): (r: seq<CartItem>)
    ensures |r| == |items|
    ensures forall i :: 0 <= i < |items| ==>
              r[i] == if items[i].id == id then items[i].(quantity := quantity) else items[i]
  {
    if items == [] then [] else
      [if items[0].id == id then items[0].(quantity := quantity) else items[0]] + UpdateQuantity(items[1..], id, quantity)
  }

  /** `prev.filter(item => item.id !== id)`. */
  function RemoveItem(items: seq<CartItem>, id: string): (r: seq<CartItem>)
    ensures |r| <= |items|
    ensures forall i :: 0 <= i < |r| ==> r[i].id != id && r[i] in items
  {
    Filter(items, (item: CartItem) => item.id != id)
  }

  /** `cartItems.reduce((sum, item) => sum + item.quantity, 0)`. */
  function CartCount(items: seq<CartItem>): int
  {
    if items == [] then 0 else items[0].quantity + CartCount(items[1..])
  }

  /** While every line holds at least one unit, the badge is at least the
      number of lines. */
  lemma {:induction false} CountCoversLines(items: seq<CartItem>)
    ensures (forall i :: 0 <= i < |items| ==> items[i].quantity >= 1) ==> CartCount(items) >= |items|
  {
    if items != [] {
      CountCoversLines(items[1..]);
      assert forall i :: 0 <= i < |items[1..]| ==> items[1..][i] == items[i + 1];
    }
  }

  /** The summed quantity of the lines with this id. */
  function QuantityOf(items: seq<CartItem>, id: string): int
  {
    if items == [] then 0 else (if items[0].id == id then items[0].quantity else 0) + QuantityOf(items[1..], id)
  }

  /** The number of lines with this id. */
  function Lines(items: seq<CartItem>, id: string): nat
  {
    if items == [] then 0 else (if items[0].id == id then 1 else 0) + Lines(items[1..], id)
  }

  /** Removing an id drops exactly its lines from the badge count and keeps
      every other line in order. */
  lemma {:induction false} RemoveItemSpec(items: seq<CartItem>, id: string)
    ensures CartCount(RemoveItem(items, id)) + QuantityOf(items, id) == CartCount(items)
    ensures forall i :: 0 <= i < |RemoveItem(items, id)| ==> RemoveItem(items, id)[i].id != id
    ensures forall i :: 0 <= i < |items| && items[i].id != id ==> items[i] in RemoveItem(items, id)
    ensures IsSubsequence(RemoveItem(items, id), items)
  {
    if items != [] {
      RemoveItemSpec(items[1..], id);
    }
    FilterIsSubsequence(items, (item: CartItem) => item.id != id);
  }

  /** Setting a quantity changes the badge count by the new quantity for
      each line of the id, less what those lines held. */
  lemma {:induction false} UpdateQuantityCount(items: seq<CartItem>, id: string, quantity: int)
    ensures CartCount(UpdateQuantity(items, id, quantity)) + QuantityOf(items, id)
            == CartCount(items) + quantity * Lines(items, id)
  {
    if items != [] {
      UpdateQuantityCount(items[1..], id, quantity);
      assert UpdateQuantity(items, id, quantity)[1..] == UpdateQuantity(items[1..], id, quantity);
    }
  }

  /** An id that is not in the cart changes nothing. */
  lemma UnknownIdIsNoOp(items: seq<CartItem>, id: string, quantity: int)
    requires forall i :: 0 <= i < |items| ==> items[i].id != id
    ensures UpdateQuantity(items, id, quantity) == items
    ensures RemoveItem(items, id) == items
  {
    FilterKeepsAll(items, (item: CartItem) => item.id != id);
  }

  /** Quantities that are at least 1 stay so under the checkout's plus and
      minus buttons, and the other lines are untouched. */
  lemma ButtonsKeepQuantitiesPositive(items: seq<CartItem>, k: nat, plus: bool)
    requires k < |items|
    requires forall i :: 0 <= i < |items| ==> items[i].quantity >= 1
    ensures var q := if plus then IncrementedQuantity(items[k].quantity) else DecrementedQuantity(items[k].quantity);
            var r := UpdateQuantity(items, items[k].id, q);
            forall i :: 0 <= i < |r| ==> r[i].quantity >= 1
  {
  }

  /** The initial cart holds three units, each line at least one. */
  lemma InitialCartFacts()
    ensures CartCount(InitialCart) == 3
    ensures forall i :: 0 <= i < |InitialCart| ==> InitialCart[i].quantity >= 1
  {
  }

  // ---- the page ----

  datatype View = Browse | CheckoutView | SellerView

  datatype AccountAction = Login | Register | Profile | Orders

  class Storefront {
    var currentView: View
    var cartItems: seq<CartItem>
    var isLoggedIn: bool
    var searchQuery: string
    var filteredProducts: seq<Product>

    /** The state before the mount effect has run. */
    constructor ()
      ensures currentView == Browse && cartItems == InitialCart && !isLoggedIn
      ensures searchQuery == "" && filteredProducts == []
    {
      currentView := Browse;
      cartItems := InitialCart;
      isLoggedIn := false;
      searchQuery := "";
      filteredProducts := [];
    }

    /** The mount effect lists the whole catalogue. */
    method Mount()
      modifies this`filteredProducts
      ensures filteredProducts == SampleProducts
    {
      filteredProducts := SampleProducts;
    }

    /** `handleSearch`, with its delayed update applied at once. */
    method HandleSearch(query: string, category: Option<string>)
      modifies this`searchQuery, this`filteredProducts
      ensures searchQuery == query
      ensures filteredProducts == SearchResults(SampleProducts, query, category)
    {
      searchQuery := query;
      filteredProducts := SearchResults(SampleProducts, query, category);
    }

    /** `handleFiltersChange`, with its delayed update applied at once; the
        listing starts from the catalogue again, discarding any search. */
    method HandleFiltersChange(f: FilterState)
      modifies this`filteredProducts
      ensures filteredProducts == ApplyFilters(SampleProducts, f)
    {
      filteredProducts := ApplyFilters(SampleProducts, f);
    }

    method HandleCartClick()
      modifies this`currentView
      ensures currentView == CheckoutView
    {
      currentView := CheckoutView;
    }

    /** The "Seller Dashboard" button. */
    method OpenSellerDashboard()
      modifies this`currentView
      ensures currentView == SellerView
    {
      currentView := SellerView;
    }

    /** Only "login" changes state: it signs the visitor in. */
    method HandleAccountClick(action: AccountAction)
      modifies this`isLoggedIn
      ensures isLoggedIn == (old(isLoggedIn) || action == Login)
    {
      if action == Login {
        isLoggedIn := true;
      }
    }

    method HandleUpdateQuantity(id: string, quantity: int)
      modifies this`cartItems
      ensures cartItems == UpdateQuantity(old(cartItems), id, quantity)
    {
      cartItems := UpdateQuantity(cartItems, id, quantity);
    }

    method HandleRemoveItem(id: string)
      modifies this`cartItems
      ensures cartItems == RemoveItem(old(cartItems), id)
    {
      cartItems := RemoveItem(cartItems, id);
    }

    /** The checkout's snapshot arrives (the page only logs it); the cart
        empties and the page returns to browsing. */
    method HandleCompleteOrder(order: CheckoutFlow.OrderData)
      modifies this`cartItems, this`currentView
      ensures cartItems == [] && currentView == Browse
      ensures CartItemCount() == 0
    {
      cartItems := [];
      currentView := Browse;
    }

    /** The navbar's cart badge: at least one per line while every line
        holds at least one unit. */
    function CartItemCount(): (n: int)
      reads this
      ensures (forall i :: 0 <= i < |cartItems| ==> cartItems[i].quantity >= 1) ==> n >= |cartItems|
    {
      CountCoversLines(cartItems);
      CartCount(cartItems)
    }
  }
}
