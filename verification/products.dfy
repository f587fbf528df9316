/** The product listing page (frontend/app/products/page.tsx): the category
    list, the category and price filters and the five sort orders. Prices are
    in cents and ratings in tenths of a star, so every comparison the page
    makes on them is an integer comparison. */
module Products {

  datatype Option<T> = None | Some(value: T)

  datatype Product = Product(
    id: int,
    name: string,
    price: int,                  // cents
    originalPrice: Option<int>,  // cents
    image: string,
    category: string,
    brand: string,
    rating: int,                 // tenths of a star
    reviews: int,
    colors: seq<string>,
    sizes: seq<string>,
    isNew: bool,                 // an absent flag reads as false
    isSale: bool)

  const Placeholder := "/placeholder.svg?height=400&width=300"

  const Catalog: seq<Product> := [
    Product(1, "Classic Denim Jacket", 8999, Some(12000), Placeholder, "Jackets", "Urban Style", 45, 128,
      ["Blue", "Black", "White"], ["XS", "S", "M", "L", "XL"], false, true),
    Product(2, "Floral Summer Dress", 6599, None, Placeholder, "Dresses", "Bloom & Co", 48, 89,
      ["Pink", "Blue", "Yellow"], ["XS", "S", "M", "L"], true, false),
    Product(3, "Casual White Sneakers", 7999, None, Placeholder, "Shoes", "ComfortStep", 43, 256,
      ["White", "Black", "Gray"], ["6", "7", "8", "9", "10", "11"], false, false),
    Product(4, "Leather Crossbody Bag", 12000, None, Placeholder, "Accessories", "Luxe Leather", 47, 45,
      ["Brown", "Black", "Tan"], ["One Size"], false, false),
    Product(5, "Striped Cotton T-Shirt", 2999, None, Placeholder, "Tops", "Basic Essentials", 42, 312,
      ["Navy", "Red", "Green"], ["XS", "S", "M", "L", "XL", "XXL"], false, false),
    Product(6, "High-Waisted Jeans", 9500, None, Placeholder, "Bottoms", "Denim Dreams", 46, 178,
      ["Blue", "Black", "Light Blue"], ["24", "26", "28", "30", "32", "34"], false, false),
    Product(7, "Wool Blend Coat", 18999, Some(25000), Placeholder, "Outerwear", "Winter Warmth", 49, 67,
      ["Camel", "Black", "Gray"], ["XS", "S", "M", "L", "XL"], false, true),
    Product(8, "Athletic Running Shoes", 11000, None, Placeholder, "Shoes", "SportMax", 44, 203,
      ["Black", "White", "Blue"], ["6", "7", "8", "9", "10", "11", "12"], true, false)
  ]

  const AllCategories := "all"
  const Featured := "featured"
  /** The slider's bounds, in cents. */
  const PriceFloor := 0
  const PriceCeiling := 30000

  // ---------------------------------------------------------------------------
  // The category list

  /** Position of the first occurrence of `x` in `xs`. */
  function FirstIndex(xs: seq<string>, x: string): (r: nat)
    requires x in xs
    ensures r < |xs| && xs[r] == x && forall k :: 0 <= k < r ==> xs[k] != x
  {
    if xs[0] == x then 0 else 1 + FirstIndex(xs[1..], x)
  }

  /** The values of `xs` once each, as a Set keeps them: in insertion order. */
  function Distinct(xs: seq<string>): (r: seq<string>)
    ensures forall x :: x in r <==> x in xs
    ensures forall i, j :: 0 <= i < j < |r| ==> r[i] != r[j]
  {
    if xs == [] then []
    else
      var init := xs[..|xs| - 1];
      var last := xs[|xs| - 1];
      assert forall x :: x in xs <==> x in init || x == last by {
        assert xs == init + [last];
      }
      Distinct(init) + (if last in init then [] else [last])
  }

  lemma FirstIndexOfPrefix(xs: seq<string>, ys: seq<string>, x: string)
    requires x in xs
    ensures FirstIndex(xs + ys, x) == FirstIndex(xs, x)
  {
    var i := FirstIndex(xs, x);
    assert (xs + ys)[i] == x;
  }

  /** The distinct values keep the order of their first occurrence. */
  lemma {:induction false} DistinctKeepsFirstOccurrenceOrder(xs: seq<string>)
    ensures forall i, j :: 0 <= i < j < |Distinct(xs)| ==>
      FirstIndex(xs, Distinct(xs)[i]) < FirstIndex(xs, Distinct(xs)[j])
  {
    if xs != [] {
      var init := xs[..|xs| - 1];
      var last := xs[|xs| - 1];
      assert xs == init + [last];
      DistinctKeepsFirstOccurrenceOrder(init);
      var d := Distinct(init);
      var r := Distinct(xs);
      forall i, j | 0 <= i < j < |r|
        ensures FirstIndex(xs, r[i]) < FirstIndex(xs, r[j])
      {
        FirstIndexOfPrefix(init, [last], r[i]);
        if j < |d| {
          FirstIndexOfPrefix(init, [last], r[j]);
        } else {
          assert r[j] == last && last !in init;
          assert FirstIndex(xs, last) == |xs| - 1;
        }
      }
    }
  }

  function CategoriesOf(ps: seq<Product>): (r: seq<string>)
    ensures |r| == |ps| && forall k :: 0 <= k < |ps| ==> r[k] == ps[k].category
  {
    seq(|ps|, k requires 0 <= k < |ps| => ps[k].category)
  }

  /** The category options: "all", then each catalog category once. */
  function Categories(ps: seq<Product>): (r: seq<string>)
    ensures |r| >= 1 && r[0] == AllCategories
    ensures forall c :: c in r[1..] <==> exists k :: 0 <= k < |ps| && ps[k].category == c
    ensures forall i, j :: 1 <= i < j < |r| ==> r[i] != r[j]
  {
    var cs := CategoriesOf(ps);
    assert forall c :: c in cs <==> exists k :: 0 <= k < |ps| && ps[k].category == c by {
      forall c | c in cs ensures exists k :: 0 <= k < |ps| && ps[k].category == c {
        var k :| 0 <= k < |cs| && cs[k] == c;
      }
    }
    [AllCategories] + Distinct(cs)
  }

  /** For this catalog the options are the seven categories in catalog order;
      the second "Shoes" is not repeated. */
  lemma CatalogCategories()
    ensures Categories(Catalog) == ["all", "Jackets", "Dresses", "Shoes", "Accessories", "Tops", "Bottoms", "Outerwear"]
  {
    CatalogDistinctCategories();
  }

  lemma CatalogDistinctCategories()
    ensures Distinct(CategoriesOf(Catalog)) == ["Jackets", "Dresses", "Shoes", "Accessories", "Tops", "Bottoms", "Outerwear"]
  {
    var seven := ["Jackets", "Dresses", "Shoes", "Accessories", "Tops", "Bottoms", "Outerwear"];
    CatalogCategoryColumn();
    SevenDistinct(seven);
    assert seven[2] == "Shoes";
    RepeatAddsNothing(seven, "Shoes");
  }

  /** A value seen before adds no option. */
  lemma RepeatAddsNothing(xs: seq<string>, x: string)
    requires x in xs
    ensures Distinct(xs + [x]) == Distinct(xs)
  {
    assert (xs + [x])[..|xs|] == xs;
  }

  lemma CatalogCategoryColumn()
    ensures CategoriesOf(Catalog) == ["Jackets", "Dresses", "Shoes", "Accessories", "Tops", "Bottoms", "Outerwear"] + ["Shoes"]
  {
  }

  lemma SevenDistinct(seven: seq<string>)
    requires seven == ["Jackets", "Dresses", "Shoes", "Accessories", "Tops", "Bottoms", "Outerwear"]
    ensures Distinct(seven) == seven
  {
    assert forall i, j :: 0 <= i < j < |seven| ==> seven[i][0] != seven[j][0];
    DistinctOfDistinct(seven);
  }

  /** Values that are already pairwise different come out unchanged. */
  lemma {:induction false} DistinctOfDistinct(xs: seq<string>)
    requires forall i, j :: 0 <= i < j < |xs| ==> xs[i] != xs[j]
    ensures Distinct(xs) == xs
  {
    if xs != [] {
      var init := xs[..|xs| - 1];
      assert xs == init + [xs[|xs| - 1]];
      DistinctOfDistinct(init);
    }
  }

  // ---------------------------------------------------------------------------
  // Filters

  /** The category filter; "all" keeps everything. */
  function OfCategory(ps: seq<Product>, category: string): (r: seq<Product>)
    ensures |r| <= |ps|
    ensures forall p :: p in r ==> p in ps && p.category == category
  {
    if ps == [] then []
    else
      assert ps == [ps[0]] + ps[1..];
      (if ps[0].category == category then [ps[0]] else []) + OfCategory(ps[1..], category)
  }

  /** The price filter, both bounds inclusive. */
  function InPriceRange(ps: seq<Product>, lo: int, hi: int): (r: seq<Product>)
    ensures |r| <= |ps|
    ensures forall p :: p in r ==> p in ps && lo <= p.price <= hi
  {
    if ps == [] then []
    else
      assert ps == [ps[0]] + ps[1..];
      (if lo <= ps[0].price <= hi then [ps[0]] else []) + InPriceRange(ps[1..], lo, hi)
  }

  /** Whether one product passes both filters. */
  predicate Passes(p: Product, category: string, lo: int, hi: int)
  {
    (category == AllCategories || p.category == category) && lo <= p.price <= hi
  }

  /** The catalog products that pass both filters, in catalog order. */
  function Passing(ps: seq<Product>, category: string, lo: int, hi: int): seq<Product>
  {
    if ps == [] then []
    else (if Passes(ps[0], category, lo, hi) then [ps[0]] else []) + Passing(ps[1..], category, lo, hi)
  }

  /** The one-pass filter keeps every passing product as often as the catalog
      holds it, and nothing else. */
  lemma {:induction false} PassingKeepsExactlyThePassing(ps: seq<Product>, category: string, lo: int, hi: int)
    ensures forall p :: p in Passing(ps, category, lo, hi) <==> p in ps && Passes(p, category, lo, hi)
    ensures forall p :: Passes(p, category, lo, hi) ==> multiset(Passing(ps, category, lo, hi))[p] == multiset(ps)[p]
    ensures forall p :: !Passes(p, category, lo, hi) ==> multiset(Passing(ps, category, lo, hi))[p] == 0
  {
    if ps != [] {
      PassingKeepsExactlyThePassing(ps[1..], category, lo, hi);
      assert ps == [ps[0]] + ps[1..];
    }
  }

  /** Applying the two filters one after the other, as the page does, is the
      one-pass filter. */
  lemma FiltersCompose(ps: seq<Product>, category: string, lo: int, hi: int)
    ensures InPriceRange(if category != AllCategories then OfCategory(ps, category) else ps, lo, hi)
         == Passing(ps, category, lo, hi)
  {
    if category == AllCategories {
      PriceFilterAlone(ps, lo, hi);
    } else {
      BothFilters(ps, category, lo, hi);
    }
  }

  lemma {:induction false} PriceFilterAlone(ps: seq<Product>, lo: int, hi: int)
    ensures InPriceRange(ps, lo, hi) == Passing(ps, AllCategories, lo, hi)
  {
    if ps != [] {
      PriceFilterAlone(ps[1..], lo, hi);
    }
  }

  lemma {:induction false} BothFilters(ps: seq<Product>, category: string, lo: int, hi: int)
    requires category != AllCategories
    ensures InPriceRange(OfCategory(ps, category), lo, hi) == Passing(ps, category, lo, hi)
  {
    if ps != [] {
      BothFilters(ps[1..], category, lo, hi);
      var head := if ps[0].category == category then [ps[0]] else [];
      assert OfCategory(ps, category) == head + OfCategory(ps[1..], category);
      InPriceRangeConcat(head, OfCategory(ps[1..], category), lo, hi);
      if head != [] {
        assert head[1..] == [];
      }
    }
  }

  lemma {:induction false} InPriceRangeConcat(xs: seq<Product>, ys: seq<Product>, lo: int, hi: int)
    ensures InPriceRange(xs + ys, lo, hi) == InPriceRange(xs, lo, hi) + InPriceRange(ys, lo, hi)
    decreases |xs|
  {
    if xs == [] {
      assert xs + ys == ys;
    } else {
      assert (xs + ys)[0] == xs[0];
      assert (xs + ys)[1..] == xs[1..] + ys;
      InPriceRangeConcat(xs[1..], ys, lo, hi);
    }
  }

  /** With the default filters the whole catalog is listed. */
  lemma DefaultFiltersKeepCatalog()
    ensures Passing(Catalog, AllCategories, PriceFloor, PriceCeiling) == Catalog
  {
    CatalogPricesInRange();
    PassingAll(Catalog, PriceFloor, PriceCeiling);
  }

  /** Every catalog price lies within the slider's bounds. */
  lemma CatalogPricesInRange()
    ensures forall k :: 0 <= k < |Catalog| ==> PriceFloor <= Catalog[k].price <= PriceCeiling
  {
  }

  lemma {:induction false} PassingAll(ps: seq<Product>, lo: int, hi: int)
    requires forall k :: 0 <= k < |ps| ==> lo <= ps[k].price <= hi
    ensures Passing(ps, AllCategories, lo, hi) == ps
  {
    if ps != [] {
      PassingAll(ps[1..], lo, hi);
      assert ps == [ps[0]] + ps[1..];
    }
  }

  // ---------------------------------------------------------------------------
  // Sorting

  /** The orders the page sorts by. */
  datatype Order = PriceLow | PriceHigh | Rating | Newest

  /** The `switch` on the order's name; "featured" and any unknown name sort
      nothing. */
  function OrderOf(sortBy: string): (r: Option<Order>)
    ensures r == Some(PriceLow) <==> sortBy == "price-low"
    ensures r == Some(PriceHigh) <==> sortBy == "price-high"
    ensures r == Some(Rating) <==> sortBy == "rating"
    ensures r == Some(Newest) <==> sortBy == "newest"
  {
    if sortBy == "price-low" then Some(PriceLow)
    else if sortBy == "price-high" then Some(PriceHigh)
    else if sortBy == "rating" then Some(Rating)
    else if sortBy == "newest" then Some(Newest)
    else None
  }

  /** The default order sorts nothing. */
  lemma FeaturedSortsNothing()
    ensures OrderOf(Featured) == None
  {
  }

  /** The comparator of each order is `Key(a) - Key(b)` for this key. */
  function Key(order: Order, p: Product): int
  {
    match order
    case PriceLow => p.price
    case PriceHigh => -p.price
    case Rating => -p.rating
    case Newest => if p.isNew then 0 else 1
  }

  predicate SortedBy(ps: seq<Product>, order: Order)
  {
    forall i, j :: 0 <= i < j < |ps| ==> Key(order, ps[i]) <= Key(order, ps[j])
  }

  /** Exchanges two adjacent entries. */
  method Swap(a: array<Product>, k: nat)
    requires 0 < k < a.Length
    modifies a
    ensures a[..] == old(a[..])[k - 1 := old(a[k])][k := old(a[k - 1])]
    ensures multiset(a[..]) == multiset(old(a[..]))
  {
    a[k - 1], a[k] := a[k], a[k - 1];
  }

  /** While the element that started at `i` sits at `j`, the first `i + 1`
      entries are in order except around position `j`. */
  predicate Inserting(s: seq<Product>, i: nat, j: nat, order: Order)
  {
    && j <= i < |s|
    && (forall p, q :: 0 <= p < q <= i && q != j ==> Key(order, s[p]) <= Key(order, s[q]))
    && (0 < j < i ==> Key(order, s[j - 1]) <= Key(order, s[j + 1]))
  }

  lemma StartInserting(s: seq<Product>, i: nat, order: Order)
    requires i < |s| && SortedBy(s[..i], order)
    ensures Inserting(s, i, i, order)
  {
    forall p, q | 0 <= p < q < i
      ensures Key(order, s[p]) <= Key(order, s[q])
    {
      assert s[..i][p] == s[p] && s[..i][q] == s[q];
    }
  }

  lemma SwapStep(s: seq<Product>, i: nat, j: nat, order: Order)
    requires Inserting(s, i, j, order) && 0 < j && Key(order, s[j - 1]) > Key(order, s[j])
    ensures Inserting(s[j - 1 := s[j]][j := s[j - 1]], i, j - 1, order)
  {
  }

  lemma DoneInserting(s: seq<Product>, i: nat, j: nat, order: Order)
    requires Inserting(s, i, j, order) && (j == 0 || Key(order, s[j - 1]) <= Key(order, s[j]))
    ensures SortedBy(s[..i + 1], order)
  {
    forall p, q | 0 <= p < q <= i
      ensures Key(order, s[p]) <= Key(order, s[q])
    {
      if q == j && p < j - 1 {
        assert Key(order, s[p]) <= Key(order, s[j - 1]);
      } else if p == j && q > j + 1 {
        assert Key(order, s[j + 1]) <= Key(order, s[q]);
      }
    }
  }

  /** One step of the insertion sort: the element at `i` moves left past the
      strictly greater keys before it, so equal keys keep their order. */
  method InsertAt(a: array<Product>, i: nat, order: Order)
    requires i < a.Length
    requires SortedBy(a[..i], order)
    modifies a
    ensures SortedBy(a[..i + 1], order)
    ensures multiset(a[..]) == multiset(old(a[..]))
    ensures a[i + 1..] == old(a[i + 1..])
  {
    StartInserting(a[..], i, order);
    var j: nat := i;
    while j > 0 && Key(order, a[j - 1]) > Key(order, a[j])
      invariant Inserting(a[..], i, j, order)
      invariant multiset(a[..]) == multiset(old(a[..]))
      invariant a[i + 1..] == old(a[i + 1..])
    {
      SwapStep(a[..], i, j, order);
      Swap(a, j);
      j := j - 1;
    }
    DoneInserting(a[..], i, j, order);
  }

  /** Array.prototype.sort with the order's comparator. */
  method SortInPlace(a: array<Product>, order: Order)
    modifies a
    ensures SortedBy(a[..], order)
    ensures multiset(a[..]) == multiset(old(a[..]))
  {
    var i := 0;
    while i < a.Length
      invariant 0 <= i <= a.Length
      invariant SortedBy(a[..i], order)
      invariant multiset(a[..]) == multiset(old(a[..]))
    {
      InsertAt(a, i, order);
      i := i + 1;
    }
    assert a[..a.Length] == a[..];
  }

  /** The filter-and-sort effect: the listing holds exactly the products that
      pass both filters, ordered by the chosen key, or in catalog order when
      the order is "featured" or unknown. */
  method FilterAndSort(catalog: seq<Product>, sortBy: string, category: string, lo: int, hi: int)
    returns (listing: seq<Product>)
    ensures multiset(listing) == multiset(Passing(catalog, category, lo, hi))
    ensures forall p :: p in listing ==> Passes(p, category, lo, hi)
    ensures OrderOf(sortBy).Some? ==> SortedBy(listing, OrderOf(sortBy).value)
    ensures OrderOf(sortBy).None? ==> listing == Passing(catalog, category, lo, hi)
  {
    var filtered := catalog;
    if category != AllCategories {
      filtered := OfCategory(filtered, category);
    }
    filtered := InPriceRange(filtered, lo, hi);
    FiltersCompose(catalog, category, lo, hi);
    assert filtered == Passing(catalog, category, lo, hi);
    var order := OrderOf(sortBy);
    if order.Some? {
      listing := SortedCopy(filtered, order.value);
      SameMembers(listing, filtered);
    } else {
      listing := filtered;
    }
  }

  /** Copies the list into an array, sorts it there and reads it back. */
  method SortedCopy(s: seq<Product>, order: Order) returns (r: seq<Product>)
    ensures SortedBy(r, order)
    ensures multiset(r) == multiset(s)
  {
    var a := new Product[|s|](k requires 0 <= k < |s| => s[k]);
    assert a[..] == s;
    SortInPlace(a, order);
    r := a[..];
  }

  lemma SameMembers(xs: seq<Product>, ys: seq<Product>)
    requires multiset(xs) == multiset(ys)
    ensures forall p :: p in xs <==> p in ys
  {
    forall p
      ensures p in xs <==> p in ys
    {
      assert p in xs <==> p in multiset(xs);
      assert p in ys <==> p in multiset(ys);
    }
  }

  /** What each order promises about adjacent products of a sorted listing. */
  lemma SortOrders(ps: seq<Product>, order: Order)
    requires SortedBy(ps, order)
    ensures order == PriceLow ==> forall i, j :: 0 <= i < j < |ps| ==> ps[i].price <= ps[j].price
    ensures order == PriceHigh ==> forall i, j :: 0 <= i < j < |ps| ==> ps[i].price >= ps[j].price
    ensures order == Rating ==> forall i, j :: 0 <= i < j < |ps| ==> ps[i].rating >= ps[j].rating
    ensures order == Newest ==> forall i, j :: 0 <= i < j < |ps| && ps[j].isNew ==> ps[i].isNew
  {
    if order == Newest {
      forall i, j | 0 <= i < j < |ps| && ps[j].isNew
        ensures ps[i].isNew
      {
        assert Key(order, ps[i]) <= Key(order, ps[j]);
      }
    }
  }

  /** A listing agrees with an order and the filters: the catalog products
      that pass, sorted by the order's key, or in catalog order. */
  predicate Agrees(listing: seq<Product>, sortBy: string, category: string, lo: int, hi: int)
  {
    match OrderOf(sortBy)
    case Some(order) =>
      multiset(listing) == multiset(Passing(Catalog, category, lo, hi)) && SortedBy(listing, order)
    case None => listing == Passing(Catalog, category, lo, hi)
  }

  /** Whatever the order, a listing with the filters cleared holds every
      catalog product, each once. */
  lemma ClearedListingIsWholeCatalog(listing: seq<Product>, sortBy: string)
    requires Agrees(listing, sortBy, AllCategories, PriceFloor, PriceCeiling)
    ensures multiset(listing) == multiset(Catalog)
  {
    DefaultFiltersKeepCatalog();
  }

  /** With the default order and filters the listing is the catalog itself. */
  lemma DefaultListingIsCatalog(listing: seq<Product>)
    requires Agrees(listing, Featured, AllCategories, PriceFloor, PriceCeiling)
    ensures listing == Catalog
  {
    FeaturedSortsNothing();
    DefaultFiltersKeepCatalog();
  }

  // ---------------------------------------------------------------------------
  // The component

  class ProductsPage {
    var sortBy: string
    var categoryFilter: string
    var priceLow: int
    var priceHigh: int
    var showFilters: bool
    var filteredProducts: seq<Product>

    /** The listing agrees with the current filters and order. */
    predicate Valid()
      reads this
    {
      Agrees(filteredProducts, sortBy, categoryFilter, priceLow, priceHigh)
    }

    /** Mounting: the listing starts as the catalog and the effect runs once
        with the default order and filters. */
    constructor ()
      ensures Valid()
      ensures sortBy == Featured && categoryFilter == AllCategories
      ensures priceLow == PriceFloor && priceHigh == PriceCeiling && !showFilters
    {
      sortBy, categoryFilter, priceLow, priceHigh := Featured, AllCategories, PriceFloor, PriceCeiling;
      showFilters := false;
      filteredProducts := Catalog;
      new;
      Refresh();
    }

    /** The effect, run after a change of order, category or range. */
    method Refresh()
      modifies this
      ensures Valid()
      ensures sortBy == old(sortBy) && categoryFilter == old(categoryFilter)
      ensures priceLow == old(priceLow) && priceHigh == old(priceHigh) && showFilters == old(showFilters)
    {
      filteredProducts := FilterAndSort(Catalog, sortBy, categoryFilter, priceLow, priceHigh);
    }

    method SetSortBy(value: string)
      modifies this
      ensures Valid() && sortBy == value
      ensures categoryFilter == old(categoryFilter) && priceLow == old(priceLow) && priceHigh == old(priceHigh)
      ensures showFilters == old(showFilters)
    {
      sortBy := value;
      Refresh();
    }

    method SetCategoryFilter(value: string)
      modifies this
      ensures Valid() && categoryFilter == value
      ensures sortBy == old(sortBy) && priceLow == old(priceLow) && priceHigh == old(priceHigh)
      ensures showFilters == old(showFilters)
    {
      categoryFilter := value;
      Refresh();
    }

    method SetPriceRange(lo: int, hi: int)
      modifies this
      ensures Valid() && priceLow == lo && priceHigh == hi
      ensures sortBy == old(sortBy) && categoryFilter == old(categoryFilter)
      ensures showFilters == old(showFilters)
    {
      priceLow, priceHigh := lo, hi;
      Refresh();
    }

    /** The "clear filters" button shown when nothing matches. */
    method ClearFilters()
      modifies this
      ensures Valid() && categoryFilter == AllCategories && priceLow == PriceFloor && priceHigh == PriceCeiling
      ensures sortBy == old(sortBy) && showFilters == old(showFilters)
    {
      categoryFilter, priceLow, priceHigh := AllCategories, PriceFloor, PriceCeiling;
      Refresh();
    }

    method ToggleFilters()
      modifies this
      ensures showFilters == !old(showFilters)
      ensures sortBy == old(sortBy) && categoryFilter == old(categoryFilter)
      ensures priceLow == old(priceLow) && priceHigh == old(priceHigh) && filteredProducts == old(filteredProducts)
    {
      showFilters := !showFilters;
    }
  }
}
