/** The product-search agent's tools
    (backend/adk-streaming/app/product_search_agent/tools.py): the agent's own
    copy of the catalog, a tool that hands it over, and a tool that turns a
    list of product ids into the name-and-price entries the frontend shows.
    Every field of the agent's catalog is text, as it is written there. */
module AgentTools {

  datatype Option<T> = None | Some(value: T)

  /** The `colors` field: one colour as text, or a list of colours. */
  datatype Colors = One(color: string) | Several(colors: seq<string>)

  datatype CatalogItem = CatalogItem(
    id: string,
    name: string,
    price: string,
    originalPrice: Option<string>,
    image: string,
    category: string,
    brand: string,
    rating: string,
    reviews: string,
    colors: Colors,
    sizes: seq<string>,
    isSale: Option<string>,
    isNew: Option<string>)

  /** One entry of format_product_response's list. */
  datatype Summary = Summary(name: string, price: string)

  datatype DetailsReply = DetailsReply(status: string, productDetails: seq<CatalogItem>)
  datatype FormattedReply = FormattedReply(status: string, products: seq<Summary>)

  const Ok := "ok"
  const Placeholder := "/placeholder.svg?height=400&width=300"

  const Products: seq<CatalogItem> := [
    CatalogItem("1", "Classic Denim Jacket", "89.99", Some("120.0"), Placeholder, "Jackets", "Urban Style",
      "4.5", "128", One("Blue"), ["XS", "S", "M", "L", "XL"], Some("true"), None),
    CatalogItem("2", "Floral Summer Dress", "65.99", None, Placeholder, "Dresses", "Bloom & Co",
      "4.8", "89", Several(["Pink", "Blue", "Yellow"]), ["XS", "S", "M", "L"], None, Some("true")),
    CatalogItem("3", "Casual White Sneakers", "79.99", None, Placeholder, "Shoes", "ComfortStep",
      "4.3", "256", Several(["White", "Black", "Gray"]), ["6", "7", "8", "9", "10", "11"], None, None),
    CatalogItem("4", "Leather Crossbody Bag", "120.0", None, Placeholder, "Accessories", "Luxe Leather",
      "4.7", "45", Several(["Brown", "Black", "Tan"]), ["One Size"], None, None),
    CatalogItem("5", "Striped Cotton T-Shirt", "29.99", None, Placeholder, "Tops", "Basic Essentials",
      "4.2", "312", Several(["Navy", "Red", "Green"]), ["XS", "S", "M", "L", "XL", "XXL"], None, None),
    CatalogItem("6", "High-Waisted Jeans", "95.0", None, Placeholder, "Bottoms", "Denim Dreams",
      "4.6", "178", Several(["Blue", "Black", "Light Blue"]), ["24", "26", "28", "30", "32", "34"], None, None),
    CatalogItem("7", "Wool Blend Coat", "189.99", Some("250.0"), Placeholder, "Outerwear", "Winter Warmth",
      "4.9", "67", Several(["Camel", "Black", "Gray"]), ["XS", "S", "M", "L", "XL"], Some("true"), None),
    CatalogItem("8", "Athletic Running Shoes", "110.0", None, Placeholder, "Shoes", "SportMax",
      "4.4", "203", Several(["Black", "White", "Blue"]), ["6", "7", "8", "9", "10", "11", "12"], None, Some("true"))
  ]

  /** load_products_details: the whole catalog, unchanged, with status "ok". */
  function LoadProductsDetails(): (r: DetailsReply)
    ensures r.status == Ok && r.productDetails == Products
  {
    DetailsReply(Ok, Products)
  }

  /** The `{name, price}` projection of one catalog item. */
  function Summarize(item: CatalogItem): Summary {
    Summary(item.name, item.price)
  }

  /** The list comprehension of format_product_response over any catalog:
      the items whose id is in the request, in catalog order. */
  function Select(catalog: seq<CatalogItem>, ids: seq<string>): seq<Summary>
  {
    if catalog == [] then []
    else (if catalog[0].id in ids then [Summarize(catalog[0])] else []) + Select(catalog[1..], ids)
  }

  /** format_product_response over the agent's catalog, with status "ok". */
  function FormatProductResponse(ids: seq<string>): (r: FormattedReply)
    ensures r.status == Ok
  {
    FormattedReply(Ok, Select(Products, ids))
  }

  /** The response lists one entry per catalog item whose id was requested
      and nothing else, so never more entries than the catalog has. */
  lemma FormatProductResponseContents(ids: seq<string>)
    ensures |FormatProductResponse(ids).products| <= |Products|
    ensures forall s :: s in FormatProductResponse(ids).products <==>
      exists i :: 0 <= i < |Products| && Products[i].id in ids && s == Summarize(Products[i])
  {
    SelectBound(Products, ids);
    SelectMembers(Products, ids);
  }

  /** An entry is in the output exactly when it summarises a catalog item
      whose id was requested: no other entries appear. */
  lemma {:induction false} SelectMembers(catalog: seq<CatalogItem>, ids: seq<string>)
    ensures forall s :: s in Select(catalog, ids) <==>
      exists i :: 0 <= i < |catalog| && catalog[i].id in ids && s == Summarize(catalog[i])
  {
    if catalog != [] {
      SelectMembers(catalog[1..], ids);
      forall s | s in Select(catalog, ids)
        ensures exists i :: 0 <= i < |catalog| && catalog[i].id in ids && s == Summarize(catalog[i])
      {
        if !(catalog[0].id in ids && s == Summarize(catalog[0])) {
          assert s in Select(catalog[1..], ids);
          var j :| 0 <= j < |catalog[1..]| && catalog[1..][j].id in ids && s == Summarize(catalog[1..][j]);
          assert catalog[j + 1] == catalog[1..][j];
        }
      }
      forall s | exists i :: 0 <= i < |catalog| && catalog[i].id in ids && s == Summarize(catalog[i])
        ensures s in Select(catalog, ids)
      {
        var i :| 0 <= i < |catalog| && catalog[i].id in ids && s == Summarize(catalog[i]);
        if i > 0 {
          assert catalog[1..][i - 1] == catalog[i];
        }
      }
    }
  }

  /** At most one entry per catalog item. */
  lemma {:induction false} SelectBound(catalog: seq<CatalogItem>, ids: seq<string>)
    ensures |Select(catalog, ids)| <= |catalog|
  {
    if catalog != [] {
      SelectBound(catalog[1..], ids);
    }
  }

  /** Output follows catalog order: selecting from two catalog halves gives
      the first half's entries, then the second's. */
  lemma {:induction false} SelectConcat(c1: seq<CatalogItem>, c2: seq<CatalogItem>, ids: seq<string>)
    ensures Select(c1 + c2, ids) == Select(c1, ids) + Select(c2, ids)
    decreases |c1|
  {
    if c1 == [] {
      assert c1 + c2 == c2;
    } else {
      var c := c1 + c2;
      assert c[0] == c1[0];
      assert c[1..] == c1[1..] + c2;
      SelectConcat(c1[1..], c2, ids);
    }
  }

  /** Only which ids the request holds matters: not their order, not how many
      times each appears. */
  lemma {:induction false} SelectDependsOnIdSet(catalog: seq<CatalogItem>, ids1: seq<string>, ids2: seq<string>)
    requires forall x :: x in ids1 <==> x in ids2
    ensures Select(catalog, ids1) == Select(catalog, ids2)
  {
    if catalog != [] {
      SelectDependsOnIdSet(catalog[1..], ids1, ids2);
    }
  }

  /** Ids that name no catalog item change nothing; in particular an empty
      request gives an empty list. */
  lemma {:induction false} UnknownIdsIgnored(catalog: seq<CatalogItem>, ids: seq<string>, unknown: seq<string>)
    requires forall i, x :: 0 <= i < |catalog| && x in unknown ==> catalog[i].id != x
    ensures Select(catalog, ids + unknown) == Select(catalog, ids)
    ensures Select(catalog, unknown) == []
  {
    if catalog != [] {
      UnknownIdsIgnored(catalog[1..], ids, unknown);
      assert catalog[0].id !in unknown;
    }
  }

  /** The empty request, the duplicate and the reordered request as the
      agent sends them. */
  lemma RequestShapes(ids: seq<string>)
    ensures FormatProductResponse([]).products == []
    ensures FormatProductResponse(ids + ids).products == FormatProductResponse(ids).products
    ensures FormatProductResponse(ids).products == FormatProductResponse(Reverse(ids)).products
  {
    UnknownIdsIgnored(Products, [], []);
    SelectDependsOnIdSet(Products, ids + ids, ids);
    ReverseSameMembers(ids);
    SelectDependsOnIdSet(Products, ids, Reverse(ids));
  }

  function Reverse(xs: seq<string>): (r: seq<string>)
    ensures |r| == |xs|
  {
    if xs == [] then [] else Reverse(xs[1..]) + [xs[0]]
  }

  lemma {:induction false} ReverseSameMembers(xs: seq<string>)
    ensures forall x :: x in xs <==> x in Reverse(xs)
  {
    if xs != [] {
      ReverseSameMembers(xs[1..]);
      assert xs == [xs[0]] + xs[1..];
    }
  }
}
