/** Facts about the catalog and the pages' filters over it. */
module CatalogLemmas {
  import opened Outcome
  import opened Catalog

  /** Category keys and categories are in one-to-one correspondence. */
  lemma CategoryKeyRoundTrip(c: Category, key: string)
    ensures CategoryOfKey(CategoryKey(c)) == Some(c)
    ensures CategoryOfKey(key).Some? ==> CategoryKey(CategoryOfKey(key).value) == key
    ensures CategoryOfKey(key).Some? <==> key in {"budget", "middle", "bulk"}
  {
  }

  /** The catalog has nine products with pairwise distinct ids. */
  lemma CatalogIdsDistinct()
    ensures |PRODUCTS| == 9
    ensures forall i, j :: 0 <= i < j < |PRODUCTS| ==> PRODUCTS[i].id != PRODUCTS[j].id
  {
  }

  /** Three budget, then three middle, then three bulk products. */
  lemma CategoriesContiguous()
    ensures forall i :: 0 <= i < 3 ==> PRODUCTS[i].category == Budget
    ensures forall i :: 3 <= i < 6 ==> PRODUCTS[i].category == Middle
    ensures forall i :: 6 <= i < 9 ==> PRODUCTS[i].category == Bulk
  {
  }

  /** Every price is positive and inside its category's advertised range; every package lists items. */
  lemma ProductsWellPriced()
    ensures forall p :: p in PRODUCTS ==> p.price > 0
    ensures forall p :: p in PRODUCTS ==> InAdvertisedRange(p.category, p.price)
    ensures forall p :: p in PRODUCTS ==> |p.items| > 0
  {
  }

  // ---------------------------------------------------------------- filtering

  /** A product is in a category's filtered list exactly when it is in the list and in that category. */
  lemma {:induction false} FilterMembership(products: seq<Product>, key: string, p: Product)
    ensures p in FilterByCategory(products, key) <==> p in products && CategoryKey(p.category) == key
    decreases |products|
  {
    if products != [] {
      FilterMembership(products[1..], key, p);
      assert products == [products[0]] + products[1..];
    }
  }

  /** Filtering keeps declaration order: it distributes over concatenation. */
  lemma {:induction false} FilterDistributes(a: seq<Product>, b: seq<Product>, key: string)
    ensures FilterByCategory(a + b, key) == FilterByCategory(a, key) + FilterByCategory(b, key)
    decreases |a|
  {
    if a == [] {
      assert a + b == b;
    } else {
      assert (a + b)[0] == a[0];
      assert (a + b)[1..] == a[1..] + b;
      FilterDistributes(a[1..], b, key);
    }
  }

  /** A run of products of the filtered category is kept whole. */
  lemma {:induction false} FilterKeepsMatching(s: seq<Product>, key: string)
    requires forall i :: 0 <= i < |s| ==> CategoryKey(s[i].category) == key
    ensures FilterByCategory(s, key) == s
    decreases |s|
  {
    if s != [] {
      FilterKeepsMatching(s[1..], key);
    }
  }

  /** A run of products of other categories is dropped whole. */
  lemma {:induction false} FilterDropsOthers(s: seq<Product>, key: string)
    requires forall i :: 0 <= i < |s| ==> CategoryKey(s[i].category) != key
    ensures FilterByCategory(s, key) == []
    decreases |s|
  {
    if s != [] {
      FilterDropsOthers(s[1..], key);
    }
  }

  /** The three products each category occupies in the catalog. */
  function CategoryRun(c: Category): seq<Product> {
    match c
    case Budget => PRODUCTS[0..3]
    case Middle => PRODUCTS[3..6]
    case Bulk => PRODUCTS[6..9]
  }

  /** The catalog is its three category runs, budget first, and each run holds only its category. */
  lemma CatalogRuns()
    ensures PRODUCTS == CategoryRun(Budget) + CategoryRun(Middle) + CategoryRun(Bulk)
    ensures forall c, i :: 0 <= i < |CategoryRun(c)| ==> CategoryRun(c)[i].category == c
    ensures forall c :: |CategoryRun(c)| == 3
  {
    CategoriesContiguous();
  }

  /** Filtering a run by its own category keeps it whole. */
  lemma FilterKeepsRun(c: Category)
    ensures FilterByCategory(CategoryRun(c), CategoryKey(c)) == CategoryRun(c)
  {
    CatalogRuns();
    FilterKeepsMatching(CategoryRun(c), CategoryKey(c));
  }

  /** Filtering a run by any other key drops it whole. */
  lemma FilterDropsRun(c: Category, key: string)
    requires CategoryKey(c) != key
    ensures FilterByCategory(CategoryRun(c), key) == []
  {
    CatalogRuns();
    FilterDropsOthers(CategoryRun(c), key);
  }

  /** Filtering the catalog filters each of its runs. */
  lemma FilterCatalogByRuns(key: string)
    ensures FilterByCategory(PRODUCTS, key)
         == FilterByCategory(CategoryRun(Budget), key) + FilterByCategory(CategoryRun(Middle), key)
            + FilterByCategory(CategoryRun(Bulk), key)
  {
    CatalogRuns();
    FilterDistributes(CategoryRun(Budget) + CategoryRun(Middle), CategoryRun(Bulk), key);
    FilterDistributes(CategoryRun(Budget), CategoryRun(Middle), key);
  }

  lemma FilterBudgetOnCatalog()
    ensures FilterByCategory(PRODUCTS, "budget") == CategoryRun(Budget)
  {
    FilterCatalogByRuns("budget");
    FilterKeepsRun(Budget);
    FilterDropsRun(Middle, "budget");
    FilterDropsRun(Bulk, "budget");
  }

  lemma FilterMiddleOnCatalog()
    ensures FilterByCategory(PRODUCTS, "middle") == CategoryRun(Middle)
  {
    FilterCatalogByRuns("middle");
    FilterKeepsRun(Middle);
    FilterDropsRun(Budget, "middle");
    FilterDropsRun(Bulk, "middle");
  }

  lemma FilterBulkOnCatalog()
    ensures FilterByCategory(PRODUCTS, "bulk") == CategoryRun(Bulk)
  {
    FilterCatalogByRuns("bulk");
    FilterKeepsRun(Bulk);
    FilterDropsRun(Budget, "bulk");
    FilterDropsRun(Middle, "bulk");
  }

  /** Filtering by a category's key yields exactly its three products, in declaration order. */
  lemma FilterByCategoryOnCatalog(c: Category)
    ensures FilterByCategory(PRODUCTS, CategoryKey(c)) == CategoryRun(c)
  {
    match c
    case Budget => FilterBudgetOnCatalog();
    case Middle => FilterMiddleOnCatalog();
    case Bulk => FilterBulkOnCatalog();
  }

  /** A key that names no category selects nothing: an empty grid, not an error. */
  lemma FilterUnknownKeyIsEmpty(key: string)
    requires CategoryOfKey(key).None?
    ensures FilterByCategory(PRODUCTS, key) == []
  {
    CategoryKeyRoundTrip(Budget, key);
    FilterDropsRun(Budget, key);
    FilterDropsRun(Middle, key);
    FilterDropsRun(Bulk, key);
    FilterCatalogByRuns(key);
  }

  /** `slice(0, 2)` of a category's filtered products is the first two products of its run. */
  lemma FirstTwoOfCategory(c: Category)
    ensures Take(FilterByCategory(PRODUCTS, CategoryKey(c)), 2) == CategoryRun(c)[..2]
  {
    FilterByCategoryOnCatalog(c);
  }

  /** The landing page features six products: the first two of each category. */
  lemma FeaturedIsFirstTwoOfEach()
    ensures FeaturedProducts() == [PRODUCTS[0], PRODUCTS[1], PRODUCTS[3], PRODUCTS[4], PRODUCTS[6], PRODUCTS[7]]
    ensures |FeaturedProducts()| == 6
  {
    FirstTwoOfCategory(Budget);
    FirstTwoOfCategory(Middle);
    FirstTwoOfCategory(Bulk);
    assert CategoryRun(Budget)[..2] == [PRODUCTS[0], PRODUCTS[1]];
    assert CategoryRun(Middle)[..2] == [PRODUCTS[3], PRODUCTS[4]];
    assert CategoryRun(Bulk)[..2] == [PRODUCTS[6], PRODUCTS[7]];
  }

  // ---------------------------------------------------------------- the category page

  /** A category lookup succeeds exactly for the three category keys. */
  lemma LookupSucceedsExactlyForCategoryKeys(key: string)
    ensures LookupCategory(key).Some? <==> key in {"budget", "middle", "bulk"}
    ensures LookupCategory(key).Some? ==> LookupCategory(key).value == CategoryInfoOf(CategoryOfKey(key).value)
  {
  }

  /**
   * The category page shows "not found" exactly for keys that are not a
   * category, and for a category shows its metadata and its three catalog
   * products, in declaration order.
   */
  lemma CategoryPageNotFoundIff(key: string)
    ensures CategoryPageView(key).NotFound? <==> key !in {"budget", "middle", "bulk"}
    ensures CategoryPageView(key).Listing? ==>
      && CategoryPageView(key).info == Some(CategoryInfoOf(CategoryOfKey(key).value))
      && |CategoryPageView(key).products| == 3
      && forall p :: p in CategoryPageView(key).products ==> CategoryKey(p.category) == key
    ensures CategoryPageView(key).Listing? ==>
      CategoryPageView(key).products == CategoryRun(CategoryOfKey(key).value)
  {
    CategoryKeyRoundTrip(Budget, key);
    if CategoryOfKey(key).Some? {
      FilterByCategoryOnCatalog(CategoryOfKey(key).value);
    }
  }

  /**
   * As written, the route `/category/constructor` is not "not found": the
   * lookup reaches `Object.prototype.constructor`, which is truthy, and the
   * page renders an untitled, empty listing.
   */
  lemma ConstructorKeyIsNotNotFound()
    ensures LookupCategoryAsWritten("constructor") == InheritedMember("constructor")
    ensures CategoryPageAsWritten("constructor") == Listing(None, [])
    ensures CategoryPageView("constructor") == NotFound
  {
    FilterUnknownKeyIsEmpty("constructor");
  }

  /** The two lookups differ on exactly the inherited member names. */
  lemma AsWrittenDiffersOnlyOnInheritedNames(key: string)
    ensures CategoryPageAsWritten(key) != CategoryPageView(key) <==> key in OBJECT_PROTOTYPE_MEMBERS
  {
    match CategoryOfKey(key)
    case Some(c) =>
      CategoryKeyRoundTrip(c, key);
      assert key in {"budget", "middle", "bulk"};
      assert key !in OBJECT_PROTOTYPE_MEMBERS;
    case None =>
  }
}
