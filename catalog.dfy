/**
 * The catalog as the bot sees it (bot/bosko_bot.py:52-158): shops and products
 * reduced to the fields it matches on, the lookups over the shop list, and the
 * availability search over every shop's products.
 */
module Catalog {

  import opened Wrappers
  import opened Seqs
  import opened Text

  /** A shop record: id, display name and the name of its city, if any. */
  datatype Shop = Shop(id: int, name: string, city: Option<string>)

  /** A product record: id and display name. */
  datatype Product = Product(id: int, name: string)

  /** One availability hit: the product `productName` is on offer at `shopName`. */
  datatype Sighting = Sighting(shopName: string, productName: string)

  /**
   * The catalog service at one moment: `get_cached_shops()`, `cached_api_search(query)`
   * (which already turns a failure into `[]`) and `get_products_at_shop(id)`
   * (`None` where the call raises).
   */
  datatype CatalogView = CatalogView(
    shops: seq<Shop>,
    search: string -> seq<Product>,
    productsAt: int -> Option<seq<Product>>)

  /** The normalized query is a substring of the normalized shop name. */
  predicate NameMatches(shop: Shop, query: string) {
    Contains(Normalize(shop.name), Normalize(query))
  }

  function NameFilter(query: string): Shop -> bool {
    shop => NameMatches(shop, query)
  }

  /**
   * `[shop for shop in get_cached_shops() if query_norm in normalize(shop.name)]`:
   * exactly the catalog's shops whose name matches.
   */
  function MatchingShops(catalog: seq<Shop>, query: string): (r: seq<Shop>)
    ensures |r| <= |catalog|
    ensures forall shop :: shop in r <==> shop in catalog && NameMatches(shop, query)
  {
    Filter(catalog, NameFilter(query))
  }

  /** The shop has a city, and its normalized name equals the normalized `city`. */
  predicate InCity(shop: Shop, city: string) {
    shop.city.Some? && Normalize(shop.city.value) == Normalize(city)
  }

  function CityFilter(city: string): Shop -> bool {
    shop => InCity(shop, city)
  }

  /**
   * The shops `get_shops_in_city` collects: exactly the catalog's shops in
   * `city`, in catalog order.
   */
  function ShopsInCity(catalog: seq<Shop>, city: string): (r: seq<Shop>)
    ensures |r| <= |catalog|
    ensures forall shop :: shop in r <==> shop in catalog && InCity(shop, city)
  {
    Filter(catalog, CityFilter(city))
  }

  /** The names of the cities that shops of the catalog are in. */
  function CityNames(catalog: seq<Shop>): set<string> {
    set shop | shop in catalog && shop.city.Some? :: shop.city.value
  }

  /** `shops[i]` is the last listed shop with its name. */
  ghost predicate LastNamed(shops: seq<Shop>, i: int) {
    0 <= i < |shops| && forall j :: i < j < |shops| ==> shops[j].name != shops[i].name
  }

  /**
   * `{shop.name: shop for shop in shops}`: every listed name maps to a listed
   * shop of that name, the last one when names repeat.
   */
  function ByName(shops: seq<Shop>): (m: map<string, Shop>)
    ensures m.Keys == set shop | shop in shops :: shop.name
    ensures forall name :: name in m ==> m[name] in shops && m[name].name == name
  {
    IndexBy(shops, (shop: Shop) => shop.name)
  }

  /** When names repeat, the name dictionary keeps the last shop listed with each name. */
  lemma ByNameLastWins(shops: seq<Shop>)
    ensures forall i :: LastNamed(shops, i) ==> ByName(shops)[shops[i].name] == shops[i]
  {
    IndexByLastWins(shops, (shop: Shop) => shop.name);
    assert forall i :: LastNamed(shops, i) ==> LastWithKey(shops, (shop: Shop) => shop.name, i);
  }

  /**
   * `find_shop_by_name`: the first shop of the catalog whose normalized name
   * contains the normalized query, or `None` when there is none.
   */
  method FindShopByName(catalog: seq<Shop>, name: string) returns (r: Option<Shop>)
    ensures r.None? ==> forall i :: 0 <= i < |catalog| ==> !NameMatches(catalog[i], name)
    ensures r.Some? ==> exists k :: 0 <= k < |catalog| && catalog[k] == r.value && NameMatches(r.value, name)
                                    && forall j :: 0 <= j < k ==> !NameMatches(catalog[j], name)
  {
    var i := 0;
    while i < |catalog|
      invariant 0 <= i <= |catalog|
      invariant forall j :: 0 <= j < i ==> !NameMatches(catalog[j], name)
    {
      if NameMatches(catalog[i], name) {
        return Some(catalog[i]);
      }
      i := i + 1;
    }
    return None;
  }

  /** The shop `find_shop_by_name` returns is the first one the by-name search lists. */
  lemma FirstMatchIsFirstListed(catalog: seq<Shop>, name: string, k: nat)
    requires k < |catalog| && NameMatches(catalog[k], name)
    requires forall j :: 0 <= j < k ==> !NameMatches(catalog[j], name)
    ensures MatchingShops(catalog, name) != [] && MatchingShops(catalog, name)[0] == catalog[k]
  {
    var p := NameFilter(name);
    var pre, here, post := catalog[..k], [catalog[k]], catalog[k + 1..];
    assert catalog == pre + (here + post);
    forall x | x in pre ensures !p(x) {
      var j :| 0 <= j < k && pre[j] == x;
      assert catalog[j] == x;
    }
    FilterNone(pre, p);
    FilterAppend(pre, here + post, p);
    FilterAppend(here, post, p);
    assert here[..0] == [];
    assert Filter(here, p) == [catalog[k]];
  }

  /**
   * `get_unique_cities`: the city names of the catalog's shops, without
   * duplicates, sorted.
   */
  method GetUniqueCities(catalog: seq<Shop>) returns (cities: seq<string>)
    ensures StrictlySorted(cities)
    ensures forall c :: c in cities <==> c in CityNames(catalog)
  {
    var names: set<string> := {};
    var i := 0;
    while i < |catalog|
      invariant 0 <= i <= |catalog|
      invariant names == CityNames(catalog[..i])
    {
      assert catalog[..i + 1] == catalog[..i] + [catalog[i]];
      if catalog[i].city.Some? {
        names := names + {catalog[i].city.value};
      }
      i := i + 1;
    }
    assert catalog[..i] == catalog;
    cities := SortStrings(names);
  }

  /** `sorted(list(names))`. */
  method SortStrings(names: set<string>) returns (sorted: seq<string>)
    ensures StrictlySorted(sorted)
    ensures forall c :: c in sorted <==> c in names
  {
    sorted := [];
    var rest := names;
    while rest != {}
      invariant rest <= names
      invariant StrictlySorted(sorted)
      invariant forall c :: c in sorted <==> c in names && c !in rest
      decreases |rest|
    {
      var c :| c in rest;
      sorted := InsertSorted(sorted, c);
      rest := rest - {c};
    }
  }

  /**
   * `get_shops_in_city`: exactly the shops whose normalized city name equals
   * the normalized `city`, in catalog order.
   */
  method GetShopsInCity(catalog: seq<Shop>, city: string) returns (shops: seq<Shop>)
    ensures shops == ShopsInCity(catalog, city)
  {
    shops := [];
    var i := 0;
    while i < |catalog|
      invariant 0 <= i <= |catalog|
      invariant shops == Filter(catalog[..i], CityFilter(city))
    {
      assert catalog[..i + 1][..i] == catalog[..i];
      if InCity(catalog[i], city) {
        shops := shops + [catalog[i]];
      }
      i := i + 1;
    }
    assert catalog[..i] == catalog;
  }

  /** The normalized flavor is a substring of the normalized product name. */
  predicate FlavorMatches(product: Product, flavor: string) {
    Contains(Normalize(product.name), Normalize(flavor))
  }

  /** The hits for one product: one per matching flavor, in flavor order, each naming this shop and product. */
  function FlavorSightings(shop: Shop, product: Product, flavors: seq<string>): (r: seq<Sighting>)
    ensures |r| <= |flavors|
    ensures forall s :: s in r ==> s == Sighting(shop.name, product.name)
    decreases |flavors|
  {
    if flavors == [] then []
    else
      FlavorSightings(shop, product, flavors[..|flavors| - 1])
      + (if FlavorMatches(product, flavors[|flavors| - 1]) then [Sighting(shop.name, product.name)] else [])
  }

  lemma SingleFlavorSightings(shop: Shop, product: Product, flavor: string)
    ensures FlavorSightings(shop, product, [flavor])
            == if FlavorMatches(product, flavor) then [Sighting(shop.name, product.name)] else []
  {
    assert [flavor][..0] == [];
    assert FlavorSightings(shop, product, []) == [];
  }

  /** The hits for the products of one shop, product by product; each names this shop. */
  function ProductSightings(shop: Shop, products: seq<Product>, flavors: seq<string>): (r: seq<Sighting>)
    ensures forall s :: s in r ==> s.shopName == shop.name
    decreases |products|
  {
    if products == [] then []
    else
      ProductSightings(shop, products[..|products| - 1], flavors)
      + FlavorSightings(shop, products[|products| - 1], flavors)
  }

  /** The hits for one shop; none when fetching its products fails, and each names this shop. */
  function ShopSightings(shop: Shop, flavors: seq<string>, productsAt: int -> Option<seq<Product>>): (r: seq<Sighting>)
    ensures productsAt(shop.id).None? ==> r == []
    ensures forall s :: s in r ==> s.shopName == shop.name
  {
    match productsAt(shop.id)
    case None => []
    case Some(products) => ProductSightings(shop, products, flavors)
  }

  /**
   * Every (shop, product, flavor) triple where the flavor matches the product
   * name, ordered by shop, then product, then flavor.
   */
  function Sightings(shops: seq<Shop>, flavors: seq<string>, productsAt: int -> Option<seq<Product>>): (r: seq<Sighting>)
    ensures forall s :: s in r ==> exists shop :: shop in shops && s.shopName == shop.name
    decreases |shops|
  {
    if shops == [] then []
    else Sightings(shops[..|shops| - 1], flavors, productsAt) + ShopSightings(shops[|shops| - 1], flavors, productsAt)
  }

  /**
   * `cached_flavor_search(query)` (without its caching): every (shop name,
   * product name) over the whole catalog where the normalized query is a
   * substring of the normalized product name; a shop whose products cannot be
   * fetched is skipped. It is the availability match with the single flavor `query`.
   */
  method CachedFlavorSearch(query: string, catalog: seq<Shop>, productsAt: int -> Option<seq<Product>>)
    returns (results: seq<Sighting>)
    ensures results == Sightings(catalog, [query], productsAt)
  {
    results := [];
    var i := 0;
    while i < |catalog|
      invariant 0 <= i <= |catalog|
      invariant results == Sightings(catalog[..i], [query], productsAt)
    {
      var shop := catalog[i];
      assert catalog[..i + 1][..i] == catalog[..i];
      assert Sightings(catalog[..i + 1], [query], productsAt)
             == Sightings(catalog[..i], [query], productsAt) + ShopSightings(shop, [query], productsAt);
      var fetched := productsAt(shop.id);
      if fetched.Some? {
        var hits := SearchShopProducts(shop, fetched.value, query);
        results := results + hits;
      }
      i := i + 1;
    }
    assert catalog[..i] == catalog;
  }

  /** The inner loop of `cached_flavor_search`: the matching products of one shop. */
  method SearchShopProducts(shop: Shop, products: seq<Product>, query: string) returns (hits: seq<Sighting>)
    ensures hits == ProductSightings(shop, products, [query])
  {
    hits := [];
    var j := 0;
    while j < |products|
      invariant 0 <= j <= |products|
      invariant hits == ProductSightings(shop, products[..j], [query])
    {
      assert products[..j + 1][..j] == products[..j];
      SingleFlavorSightings(shop, products[j], query);
      if FlavorMatches(products[j], query) {
        hits := hits + [Sighting(shop.name, products[j].name)];
      }
      j := j + 1;
    }
    assert products[..j] == products;
  }
}
