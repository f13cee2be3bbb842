/**
 * The scheduled availability check `check_favorites_availability`
 * (bot/bosko_bot.py:90-126): for each favorite shop, each of its products and
 * each favorite flavor, a hit when the normalized flavor is a substring of the
 * normalized product name; a digest is sent only when there is a hit.
 */
module Matcher {

  import opened Wrappers
  import opened Seqs
  import opened Catalog

  /**
   * The digest the job sends, or `None` when it sends nothing: nothing when
   * either favorite list is empty or no product matches; otherwise every hit,
   * ordered shop by shop, then product, then flavor. A shop whose products
   * cannot be fetched contributes nothing.
   */
  method CheckFavoritesAvailability(flavors: seq<string>, shops: seq<Shop>, productsAt: int -> Option<seq<Product>>)
    returns (digest: Option<seq<Sighting>>)
    ensures digest.Some? <==> flavors != [] && shops != [] && Sightings(shops, flavors, productsAt) != []
    ensures digest.Some? ==> digest.value == Sightings(shops, flavors, productsAt)
  {
    if flavors == [] || shops == [] {
      return None;
    }
    var found := [];
    var i := 0;
    while i < |shops|
      invariant 0 <= i <= |shops|
      invariant found == Sightings(shops[..i], flavors, productsAt)
    {
      var shop := shops[i];
      assert shops[..i + 1][..i] == shops[..i];
      var fetched := productsAt(shop.id);
      if fetched.Some? {
        var hits := MatchShopProducts(shop, fetched.value, flavors);
        found := found + hits;
      }
      i := i + 1;
    }
    assert shops[..i] == shops;
    if found != [] {
      digest := Some(found);
    } else {
      digest := None;
    }
  }

  /** The two inner loops of the check: every product of one shop against every flavor. */
  method MatchShopProducts(shop: Shop, products: seq<Product>, flavors: seq<string>) returns (hits: seq<Sighting>)
    ensures hits == ProductSightings(shop, products, flavors)
  {
    hits := [];
    var j := 0;
    while j < |products|
      invariant 0 <= j <= |products|
      invariant hits == ProductSightings(shop, products[..j], flavors)
    {
      assert products[..j + 1][..j] == products[..j];
      var productHits := MatchProduct(shop, products[j], flavors);
      hits := hits + productHits;
      j := j + 1;
    }
    assert products[..j] == products;
  }

  /** The innermost loop of the check: one product against every flavor. */
  method MatchProduct(shop: Shop, product: Product, flavors: seq<string>) returns (hits: seq<Sighting>)
    ensures hits == FlavorSightings(shop, product, flavors)
  {
    hits := [];
    var k := 0;
    while k < |flavors|
      invariant 0 <= k <= |flavors|
      invariant hits == FlavorSightings(shop, product, flavors[..k])
    {
      assert flavors[..k + 1][..k] == flavors[..k];
      if FlavorMatches(product, flavors[k]) {
        hits := hits + [Sighting(shop.name, product.name)];
      }
      k := k + 1;
    }
    assert flavors[..k] == flavors;
  }

  /** With no favorite flavors there is never a hit: the empty-list guard only saves work. */
  lemma {:induction false} NoFlavorsNoSightings(shops: seq<Shop>, productsAt: int -> Option<seq<Product>>)
    ensures Sightings(shops, [], productsAt) == []
    decreases |shops|
  {
    if shops != [] {
      NoFlavorsNoSightings(shops[..|shops| - 1], productsAt);
      var shop := shops[|shops| - 1];
      if productsAt(shop.id).Some? {
        NoFlavorsNoProductSightings(shop, productsAt(shop.id).value);
      }
    }
  }

  lemma {:induction false} NoFlavorsNoProductSightings(shop: Shop, products: seq<Product>)
    ensures ProductSightings(shop, products, []) == []
    decreases |products|
  {
    if products != [] {
      NoFlavorsNoProductSightings(shop, products[..|products| - 1]);
    }
  }

  /** When no shop's products can be fetched there is never a hit, so no digest is sent. */
  lemma {:induction false} NoFetchNoSightings(shops: seq<Shop>, flavors: seq<string>, productsAt: int -> Option<seq<Product>>)
    requires forall shop :: shop in shops ==> productsAt(shop.id).None?
    ensures Sightings(shops, flavors, productsAt) == []
    decreases |shops|
  {
    if shops != [] {
      var init := shops[..|shops| - 1];
      assert forall shop :: shop in init ==> shop in shops;
      NoFetchNoSightings(init, flavors, productsAt);
      assert shops[|shops| - 1] in shops;
    }
  }

  /** One more shop at the end of the list adds its hits at the end. */
  lemma SightingsSnoc(shops: seq<Shop>, shop: Shop, flavors: seq<string>, productsAt: int -> Option<seq<Product>>)
    ensures Sightings(shops + [shop], flavors, productsAt)
            == Sightings(shops, flavors, productsAt) + ShopSightings(shop, flavors, productsAt)
  {
    var all := shops + [shop];
    assert all[..|all| - 1] == shops;
  }

  /** The hits of a shop list are those of its first part followed by those of the rest. */
  lemma {:induction false} SightingsAppend(a: seq<Shop>, b: seq<Shop>, flavors: seq<string>, productsAt: int -> Option<seq<Product>>)
    ensures Sightings(a + b, flavors, productsAt) == Sightings(a, flavors, productsAt) + Sightings(b, flavors, productsAt)
    decreases |b|
  {
    if b == [] {
      assert a + b == a;
    } else {
      var init, last := b[..|b| - 1], b[|b| - 1];
      assert b == init + [last];
      AppendAssoc(a, init, [last]);
      SightingsAppend(a, init, flavors, productsAt);
      SightingsSnoc(a + init, last, flavors, productsAt);
      SightingsSnoc(init, last, flavors, productsAt);
      AppendAssoc(Sightings(a, flavors, productsAt), Sightings(init, flavors, productsAt), ShopSightings(last, flavors, productsAt));
    }
  }

  /** A shop whose product fetch fails is skipped; the shops around it are checked as usual. */
  lemma FailedShopSkipped(before: seq<Shop>, shop: Shop, after: seq<Shop>, flavors: seq<string>, productsAt: int -> Option<seq<Product>>)
    requires productsAt(shop.id).None?
    ensures Sightings(before + [shop] + after, flavors, productsAt) == Sightings(before + after, flavors, productsAt)
  {
    SightingsAppend(before + [shop], after, flavors, productsAt);
    SightingsSnoc(before, shop, flavors, productsAt);
    SightingsAppend(before, after, flavors, productsAt);
  }

  /** The hit for one (product, flavor) pair, if the flavor matches. */
  lemma {:induction false} FlavorSightingsMembers(shop: Shop, product: Product, flavors: seq<string>, s: Sighting)
    ensures s in FlavorSightings(shop, product, flavors)
            <==> s == Sighting(shop.name, product.name) && exists f :: f in flavors && FlavorMatches(product, f)
    decreases |flavors|
  {
    if flavors != [] {
      var init, last := flavors[..|flavors| - 1], flavors[|flavors| - 1];
      assert flavors == init + [last];
      FlavorSightingsMembers(shop, product, init, s);
      if exists f :: f in flavors && FlavorMatches(product, f) {
        var f :| f in flavors && FlavorMatches(product, f);
        if f != last {
          assert f in init;
        }
      }
    }
  }

  /** The hits for one shop's products: the matching (product, flavor) pairs. */
  lemma {:induction false} ProductSightingsMembers(shop: Shop, products: seq<Product>, flavors: seq<string>, s: Sighting)
    ensures s in ProductSightings(shop, products, flavors)
            <==> exists p, f :: p in products && f in flavors && FlavorMatches(p, f) && s == Sighting(shop.name, p.name)
    decreases |products|
  {
    if products != [] {
      var init, last := products[..|products| - 1], products[|products| - 1];
      assert products == init + [last];
      ProductSightingsMembers(shop, init, flavors, s);
      FlavorSightingsMembers(shop, last, flavors, s);
      if exists p, f :: p in products && f in flavors && FlavorMatches(p, f) && s == Sighting(shop.name, p.name) {
        var p, f :| p in products && f in flavors && FlavorMatches(p, f) && s == Sighting(shop.name, p.name);
        if p != last {
          assert p in init;
        }
      }
    }
  }

  /** A (shop, product, flavor) triple that witnesses the sighting `s`. */
  ghost predicate Witnessed(shops: seq<Shop>, flavors: seq<string>, productsAt: int -> Option<seq<Product>>, s: Sighting) {
    exists shop, p, f ::
      && shop in shops && productsAt(shop.id).Some? && p in productsAt(shop.id).value
      && f in flavors && FlavorMatches(p, f) && s == Sighting(shop.name, p.name)
  }

  /** Every sighting in the digest is witnessed by a favorite shop, one of its products and a favorite flavor. */
  lemma {:induction false} SightingsSound(shops: seq<Shop>, flavors: seq<string>, productsAt: int -> Option<seq<Product>>, s: Sighting)
    requires s in Sightings(shops, flavors, productsAt)
    ensures Witnessed(shops, flavors, productsAt, s)
    decreases |shops|
  {
    var init, last := shops[..|shops| - 1], shops[|shops| - 1];
    assert shops == init + [last];
    SightingsSnoc(init, last, flavors, productsAt);
    if s in Sightings(init, flavors, productsAt) {
      SightingsSound(init, flavors, productsAt, s);
      var shop, p, f :|
        && shop in init && productsAt(shop.id).Some? && p in productsAt(shop.id).value
        && f in flavors && FlavorMatches(p, f) && s == Sighting(shop.name, p.name);
      assert shop in shops;
    } else {
      var products := productsAt(last.id).value;
      ProductSightingsMembers(last, products, flavors, s);
      var p, f :| p in products && f in flavors && FlavorMatches(p, f) && s == Sighting(last.name, p.name);
      assert last in shops;
    }
  }

  /** Every witnessed sighting is in the digest. */
  lemma {:induction false} SightingsComplete(shops: seq<Shop>, flavors: seq<string>, productsAt: int -> Option<seq<Product>>, s: Sighting)
    requires Witnessed(shops, flavors, productsAt, s)
    ensures s in Sightings(shops, flavors, productsAt)
    decreases |shops|
  {
    var init, last := shops[..|shops| - 1], shops[|shops| - 1];
    assert shops == init + [last];
    SightingsSnoc(init, last, flavors, productsAt);
    var shop, p, f :|
      && shop in shops && productsAt(shop.id).Some? && p in productsAt(shop.id).value
      && f in flavors && FlavorMatches(p, f) && s == Sighting(shop.name, p.name);
    if shop == last {
      ProductSightingsMembers(last, productsAt(last.id).value, flavors, s);
    } else {
      assert shop in init;
      SightingsComplete(init, flavors, productsAt, s);
    }
  }

  /**
   * A sighting is in the digest exactly when some favorite shop whose products
   * were fetched offers a product whose name contains some favorite flavor.
   */
  lemma SightingsMembers(shops: seq<Shop>, flavors: seq<string>, productsAt: int -> Option<seq<Product>>, s: Sighting)
    ensures s in Sightings(shops, flavors, productsAt) <==> Witnessed(shops, flavors, productsAt, s)
  {
    if s in Sightings(shops, flavors, productsAt) {
      SightingsSound(shops, flavors, productsAt, s);
    }
    if Witnessed(shops, flavors, productsAt, s) {
      SightingsComplete(shops, flavors, productsAt, s);
    }
  }
}
