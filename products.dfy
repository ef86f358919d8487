/** The product and review handlers: creation, partial update and deletion of
    products with their invalidation records, the cached product reads and the
    paginated listing, and the one-review-per-user-and-product upsert. */
module Products {
  import opened Domain
  import opened Caching
  import opened Views
  import Orders

  /** The key `getLatestProducts` reads. */
  const LatestReadKey := "latest-product"
  /** The key `getLatestProducts` writes, and the one invalidation is about. */
  const LatestKey := "latest-products"
  const CategoriesKey := "categories"
  const AllProductsKey := "all-products"
  /** The listing's time-to-live, in seconds. */
  const ListingTtl: nat := 30
  /** The prefix every listing key starts with, which a pattern delete over
      `products-*` reaches. */
  const ListingPrefix := "products-"

  function ProductKey(id: Id): string { "product-" + id }

  function ReviewsKey(id: Id): string { "reviews-" + id }

  // ---------------------------------------------------------------------------
  // Category normalisation

  /** `toLowerCase` on the ASCII letters. */
  function LowerChar(c: char): char
  {
    if 'A' <= c <= 'Z' then (c as int + 32) as char else c
  }

  function Lower(s: string): (r: string)
    ensures |r| == |s|
  {
    if s == [] then [] else [LowerChar(s[0])] + Lower(s[1..])
  }

  /** A lower-cased category has no capital letter left... */
  lemma {:induction false} LowerLeavesNoCapital(s: string)
    ensures forall i :: 0 <= i < |Lower(s)| ==> !('A' <= Lower(s)[i] <= 'Z')
  {
    if s != [] {
      LowerLeavesNoCapital(s[1..]);
      assert forall i :: 1 <= i < |Lower(s)| ==> Lower(s)[i] == Lower(s[1..])[i - 1];
    }
  }

  /** ...so lower-casing it again changes nothing. */
  lemma {:induction false} LowerIsIdempotent(s: string)
    ensures Lower(Lower(s)) == Lower(s)
  {
    if s != [] {
      LowerIsIdempotent(s[1..]);
      assert Lower(s)[1..] == Lower(s[1..]);
    }
  }

  // ---------------------------------------------------------------------------
  // Creation, update and deletion

  /** The text fields of a product form; absent fields are None. */
  datatype ProductFields = ProductFields(name: Option<string>, price: Option<int>, stock: Option<int>,
                                         category: Option<string>, description: Option<string>)

  /** An uploaded file, before the object store has it. */
  type File = string

  predicate AllGiven(body: ProductFields)
  {
    GivenText(body.name) && GivenNumber(body.price) && GivenNumber(body.stock)
    && GivenText(body.category) && GivenText(body.description)
  }

  /** The record `newProduct` creates: the category lower-cased; ratings and
      review count start at zero. */
  function CreatedProduct(body: ProductFields, photos: seq<Photo>): Product
    requires AllGiven(body)
  {
    Product(body.name.value, body.price.value, body.stock.value, Lower(body.category.value),
            body.description.value, photos, 0.0, 0)
  }

  /** `Product.create`: the product is stored under a fresh id. */
  method AddProduct(db: Store, product: Product)
    requires db.Valid()
    modifies db`products, db`issued
    ensures db.Valid()
    ensures Mint(old(db.issued)) !in old(db.products)
    ensures db.products == old(db.products)[Mint(old(db.issued)) := product]
  {
    var id := db.NewId();
    db.products := db.products[id := product];
  }

  /** `newProduct`: the photo and field checks in order, then the upload,
      which is not caught, so a failed one reaches the error handler with
      nothing created; then the product and its invalidation. */
  method NewProduct(db: Store, cache: Cache<Payload>, body: ProductFields, photos: Option<seq<File>>,
                    upload: seq<File> -> Option<seq<Photo>>) returns (r: Response)
    requires db.Valid()
    modifies db`products, db`issued, cache`entries, cache`invalidations
    ensures db.Valid()
    ensures photos.None? ==> r == Fail(400, "Please add Photo")
    ensures photos.Some? && |photos.value| < 1 ==> r == Fail(400, "Please add atleast one Photo")
    ensures photos.Some? && |photos.value| > 5 ==> r == Fail(400, "You can only upload 5 Photos")
    ensures photos.Some? && 1 <= |photos.value| <= 5 && !AllGiven(body)
            ==> r == Fail(400, "Please enter All Fields")
    ensures photos.Some? && 1 <= |photos.value| <= 5 && AllGiven(body) && upload(photos.value).None?
            ==> r.Thrown?
    ensures !r.Ok? ==> unchanged(db) && unchanged(cache)
    ensures photos.Some? && 1 <= |photos.value| <= 5 && AllGiven(body) && upload(photos.value).Some? ==>
              var req := Invalidation(product := true, admin := true);
              && r == Ok(201)
              && db.products == old(db.products)[Mint(old(db.issued)) := CreatedProduct(body, upload(photos.value).value)]
              && Mint(old(db.issued)) !in old(db.products)
              && cache.invalidations == old(cache.invalidations) + [req]
              && cache.entries == Evict(old(cache.entries), req, cache.evicts)
  {
    if photos.None? {
      return Fail(400, "Please add Photo");
    }
    if |photos.value| < 1 {
      return Fail(400, "Please add atleast one Photo");
    }
    if |photos.value| > 5 {
      return Fail(400, "You can only upload 5 Photos");
    }
    if !AllGiven(body) {
      return Fail(400, "Please enter All Fields");
    }
    var photosURL := upload(photos.value);
    if photosURL.None? {
      return Thrown("Photo upload failed");
    }
    AddProduct(db, CreatedProduct(body, photosURL.value));
    cache.Invalidate(Invalidation(product := true, admin := true));
    r := Ok(201);
  }

  /** A photo upload is attempted when the request carries at least one file. */
  predicate Uploading(photos: Option<seq<File>>)
  {
    photos.Some? && |photos.value| > 0
  }

  /** The photo list after `splice(0, length)` and one `push` per uploaded
      photo: exactly the uploaded photos, in order. */
  method ReplacePhotos(uploaded: seq<Photo>) returns (kept: seq<Photo>)
    ensures |kept| == |uploaded|
    ensures forall i :: 0 <= i < |uploaded| ==> kept[i] == uploaded[i]
  {
    kept := [];
    var i := 0;
    while i < |uploaded|
      invariant 0 <= i <= |uploaded|
      invariant kept == uploaded[..i]
    {
      kept := kept + [uploaded[i]];
      i := i + 1;
    }
  }

  /** A product after `updateProduct`'s field overwrite: every truthy field
      replaces its counterpart as given (the category is not lower-cased), and
      nothing else changes. */
  function Overwritten(was: Product, body: ProductFields): (p: Product)
    ensures p.name == (if GivenText(body.name) then body.name.value else was.name)
    ensures p.price == (if GivenNumber(body.price) then body.price.value else was.price)
    ensures p.stock == (if GivenNumber(body.stock) then body.stock.value else was.stock)
    ensures p.category == (if GivenText(body.category) then body.category.value else was.category)
    ensures p.description == (if GivenText(body.description) then body.description.value else was.description)
    ensures p.photos == was.photos && p.ratings == was.ratings && p.numOfReviews == was.numOfReviews
  {
    Product(if GivenText(body.name) then body.name.value else was.name,
            if GivenNumber(body.price) then body.price.value else was.price,
            if GivenNumber(body.stock) then body.stock.value else was.stock,
            if GivenText(body.category) then body.category.value else was.category,
            if GivenText(body.description) then body.description.value else was.description,
            was.photos, was.ratings, was.numOfReviews)
  }

  /** The five `if (field) product.field = field` assignments. */
  method OverwriteFields(product: Product, body: ProductFields) returns (p: Product)
    ensures p == Overwritten(product, body)
  {
    p := product;
    if GivenText(body.name) { p := p.(name := body.name.value); }
    if GivenNumber(body.price) { p := p.(price := body.price.value); }
    if GivenNumber(body.stock) { p := p.(stock := body.stock.value); }
    if GivenText(body.category) { p := p.(category := body.category.value); }
    if GivenText(body.description) { p := p.(description := body.description.value); }
  }

  /** The product with its photos replaced when an upload took place. */
  function WithPhotos(p: Product, photos: Option<seq<Photo>>): Product
  {
    if photos.Some? then p.(photos := photos.value) else p
  }

  /** `updateProduct`: a missing product or a failed upload changes nothing;
      otherwise the product, and only it, gets the uploaded photos and then
      the truthy fields of the body. */
  method UpdateProduct(db: Store, cache: Cache<Payload>, id: Id, body: ProductFields,
                       photos: Option<seq<File>>, upload: seq<File> -> Option<seq<Photo>>)
    returns (r: Response)
    requires db.Valid()
    modifies db`products, cache`entries, cache`invalidations
    ensures db.Valid()
    ensures id !in old(db.products) ==> r == Fail(404, "Product Not Found")
    ensures id in old(db.products) && Uploading(photos) && upload(photos.value).None?
            ==> r == Fail(500, "Photo upload failed")
    ensures r.Fail? ==> unchanged(db) && unchanged(cache)
    ensures id in old(db.products) && !(Uploading(photos) && upload(photos.value).None?) ==>
              var req := Invalidation(product := true, admin := true, productIds := [id]);
              && r == Ok(200)
              && db.products == old(db.products)[id := Overwritten(
                   WithPhotos(old(db.products)[id], if Uploading(photos) then upload(photos.value) else None), body)]
              && cache.invalidations == old(cache.invalidations) + [req]
              && cache.entries == Evict(old(cache.entries), req, cache.evicts)
  {
    if id !in db.products {
      return Fail(404, "Product Not Found");
    }
    var product := db.products[id];
    ghost var replacement: Option<seq<Photo>> := None;
    if photos.Some? && |photos.value| > 0 {
      var uploaded := upload(photos.value);
      if uploaded.None? {
        return Fail(500, "Photo upload failed");
      }
      replacement := uploaded;
      var kept := ReplacePhotos(uploaded.value);
      product := product.(photos := kept);
    }
    assert product == WithPhotos(db.products[id], replacement);
    product := OverwriteFields(product, body);
    db.products := db.products[id := product];
    cache.Invalidate(Invalidation(product := true, admin := true, productIds := [id]));
    r := Ok(200);
  }

  /** `deleteProduct` answers 201 on success, as the source does. */
  method DeleteProduct(db: Store, cache: Cache<Payload>, id: Id) returns (r: Response)
    requires db.Valid()
    modifies db`products, cache`entries, cache`invalidations
    ensures db.Valid()
    ensures id !in old(db.products) ==> r == Fail(404, "Product Not Found") && unchanged(db) && unchanged(cache)
    ensures id in old(db.products) ==>
              var req := Invalidation(product := true, admin := true, productIds := [id]);
              && r == Ok(201)
              && db.products == old(db.products) - {id}
              && cache.invalidations == old(cache.invalidations) + [req]
              && cache.entries == Evict(old(cache.entries), req, cache.evicts)
  {
    if id !in db.products {
      return Fail(404, "Product Not Found");
    }
    db.products := db.products - {id};
    cache.Invalidate(Invalidation(product := true, admin := true, productIds := [id]));
    r := Ok(201);
  }

  // ---------------------------------------------------------------------------
  // Cached product reads

  /** The first `n` elements (a `limit(n)`). */
  function Take<T>(s: seq<T>, n: nat): (r: seq<T>)
    ensures |r| == (if |s| <= n then |s| else n)
    ensures forall i :: 0 <= i < |r| ==> r[i] == s[i]
  {
    if |s| <= n then s else s[..n]
  }

  /** What the store's `sort({ ratings: -1 })` returns for a collection: every
      product of it, as many as there are documents, best-rated first. */
  predicate RankedByRatings(m: map<Id, Product>, ranked: seq<Product>)
  {
    && |ranked| == |m|
    && (forall x :: x in ranked ==> x in m.Values)
    && (forall p :: p in m.Values ==> p in ranked)
    && (forall i, j :: 0 <= i < j < |ranked| ==> ranked[i].ratings >= ranked[j].ratings)
  }

  /** The four latest products come from the store, there are four of them
      when the store has as many, and no product left out is rated above one
      kept. */
  lemma LatestAreBestRated(m: map<Id, Product>, ranked: seq<Product>)
    requires RankedByRatings(m, ranked)
    ensures forall x :: x in Take(ranked, 4) ==> x in m.Values
    ensures |Take(ranked, 4)| == (if |m| <= 4 then |m| else 4)
    ensures forall p, x :: p in m.Values && p !in Take(ranked, 4) && x in Take(ranked, 4) ==> p.ratings <= x.ratings
  {
    var kept := Take(ranked, 4);
    TakeKeepsFront(ranked, 4);
    forall p, x | p in m.Values && p !in kept && x in kept
      ensures p.ratings <= x.ratings
    {
      var k :| 0 <= k < |ranked| && ranked[k] == p;
      var i :| 0 <= i < |kept| && kept[i] == x;
      assert ranked[i] == x;
    }
  }

  lemma TakeKeepsFront<T>(s: seq<T>, n: nat)
    ensures forall k :: 0 <= k < |s| && k < n ==> s[k] in Take(s, n)
  {
    forall k | 0 <= k < |s| && k < n
      ensures s[k] in Take(s, n)
    {
      assert Take(s, n)[k] == s[k];
    }
  }

  /** `getLatestProducts` as written: it reads "latest-product" but stores the
      four best-rated products under "latest-products". The ranking is the
      store's sort, a parameter. */
  method GetLatestProducts(db: Store, cache: Cache<Payload>, byRatings: map<Id, Product> -> seq<Product>)
    returns (products: Payload)
    requires RankedByRatings(db.products, byRatings(db.products))
    modifies cache`entries
    ensures Lookup(old(cache.entries), cache.now, LatestReadKey).None? ==>
              && products.ProductList?
              && (forall x :: x in products.products ==> x in db.products.Values)
              && |products.products| == (if |db.products| <= 4 then |db.products| else 4)
              && (forall p, x :: p in db.products.Values && p !in products.products && x in products.products
                                 ==> p.ratings <= x.ratings)
    ensures (products, cache.entries)
            == ReadThrough(old(cache.entries), cache.now, LatestReadKey, LatestKey, cache.defaultTtl,
                           ProductList(Take(byRatings(db.products), 4)))
  {
    var cached := cache.Get(LatestReadKey);
    if cached.Some? {
      products := cached.value;
    } else {
      LatestAreBestRated(db.products, byRatings(db.products));
      products := ProductList(Take(byRatings(db.products), 4));
      cache.SetEx(LatestKey, cache.defaultTtl, products);
    }
  }

  /** As written, the latest-products view never hits its own write: right
      after a miss, a second request misses again and queries the store. */
  lemma LatestProductsMissTwice(entries: Entries<Payload>, now: nat, ttl: nat, first: Payload, second: Payload)
    requires Lookup(entries, now, LatestReadKey).None?
    ensures var (_, after) := ReadThrough(entries, now, LatestReadKey, LatestKey, ttl, first);
            ReadThrough(after, now, LatestReadKey, LatestKey, ttl, second).0 == second
  {
    MismatchedKeysMissAgain(entries, now, LatestReadKey, LatestKey, ttl, first, second);
  }

  /** `getLatestProducts` reading the key it writes. */
  method GetLatestProductsFixed(db: Store, cache: Cache<Payload>, byRatings: map<Id, Product> -> seq<Product>)
    returns (products: Payload)
    requires RankedByRatings(db.products, byRatings(db.products))
    modifies cache`entries
    ensures Lookup(old(cache.entries), cache.now, LatestKey).None? ==>
              && products.ProductList?
              && (forall x :: x in products.products ==> x in db.products.Values)
              && |products.products| == (if |db.products| <= 4 then |db.products| else 4)
              && (forall p, x :: p in db.products.Values && p !in products.products && x in products.products
                                 ==> p.ratings <= x.ratings)
    ensures (products, cache.entries)
            == ReadThrough(old(cache.entries), cache.now, LatestKey, LatestKey, cache.defaultTtl,
                           ProductList(Take(byRatings(db.products), 4)))
  {
    var cached := cache.Get(LatestKey);
    if cached.Some? {
      products := cached.value;
    } else {
      LatestAreBestRated(db.products, byRatings(db.products));
      products := ProductList(Take(byRatings(db.products), 4));
      cache.SetEx(LatestKey, cache.defaultTtl, products);
    }
  }

  /** With the key fixed, a second request within the time-to-live is served
      from the cache the first one filled. */
  lemma LatestProductsFixedHits(entries: Entries<Payload>, now: nat, ttl: nat,
                                first: Payload, second: Payload)
    requires ttl > 0
    ensures var (v, after) := ReadThrough(entries, now, LatestKey, LatestKey, ttl, first);
            ReadThrough(after, now, LatestKey, LatestKey, ttl, second) == (v, after)
  {
    RepeatedReadHits(entries, now, LatestKey, ttl, first, second);
  }

  /** `distinct("category")`. */
  function Categories(products: map<Id, Product>): set<string>
  {
    set p | p in products.Values :: p.category
  }

  method GetAllCategories(db: Store, cache: Cache<Payload>) returns (categories: Payload)
    modifies cache`entries
    ensures (categories, cache.entries)
            == ReadThrough(old(cache.entries), cache.now, CategoriesKey, CategoriesKey, cache.defaultTtl,
                           CategorySet(Categories(db.products)))
  {
    var cached := cache.Get(CategoriesKey);
    if cached.Some? {
      categories := cached.value;
    } else {
      categories := CategorySet(Categories(db.products));
      cache.SetEx(CategoriesKey, cache.defaultTtl, categories);
    }
  }

  method GetAdminProducts(db: Store, cache: Cache<Payload>) returns (products: Payload)
    modifies cache`entries
    ensures (products, cache.entries)
            == ReadThrough(old(cache.entries), cache.now, AllProductsKey, AllProductsKey, cache.defaultTtl,
                           ProductMap(db.products))
  {
    var cached := cache.Get(AllProductsKey);
    if cached.Some? {
      products := cached.value;
    } else {
      products := ProductMap(db.products);
      cache.SetEx(AllProductsKey, cache.defaultTtl, products);
    }
  }

  /** A hit answers from the cache; a miss on a missing product answers 404
      and caches nothing; a miss on a present product caches it. */
  method GetSingleProduct(db: Store, cache: Cache<Payload>, id: Id) returns (r: Response, product: Option<Payload>)
    modifies cache`entries
    ensures Lookup(old(cache.entries), cache.now, ProductKey(id)).Some? ==>
              r == Ok(200) && product == Lookup(old(cache.entries), cache.now, ProductKey(id))
              && cache.entries == old(cache.entries)
    ensures Lookup(old(cache.entries), cache.now, ProductKey(id)).None? && id !in db.products ==>
              r == Fail(404, "Product Not Found") && product.None? && cache.entries == old(cache.entries)
    ensures Lookup(old(cache.entries), cache.now, ProductKey(id)).None? && id in db.products ==>
              r == Ok(200) && product == Some(ProductView(db.products[id]))
              && cache.entries == Put(old(cache.entries), cache.now, ProductKey(id),
                                      ProductView(db.products[id]), cache.defaultTtl)
  {
    var key := ProductKey(id);
    var cached := cache.Get(key);
    if cached.Some? {
      return Ok(200), cached;
    }
    if id !in db.products {
      return Fail(404, "Product Not Found"), None;
    }
    var found := ProductView(db.products[id]);
    cache.SetEx(key, cache.defaultTtl, found);
    r, product := Ok(200), Some(found);
  }

  // ---------------------------------------------------------------------------
  // The paginated listing

  /** The price ceiling of a query: its text, and the number `Number(text)`
      reads from it (None when that is NaN). */
  datatype PriceParam = PriceParam(text: string, number: Option<int>)

  /** The listing's query string; `page` is `Number(req.query.page)`, None
      when absent or NaN. */
  datatype ListingQuery = ListingQuery(search: Option<string>, sort: Option<string>,
                                       category: Option<string>, price: Option<PriceParam>,
                                       page: Option<int>)

  /** A query value inside a template literal: an absent one reads "undefined". */
  function Shown(o: Option<string>): string
  {
    if o.Some? then o.value else "undefined"
  }

  function PriceShown(o: Option<PriceParam>): string
  {
    if o.Some? then o.value.text else "undefined"
  }

  function DigitChar(d: int): char
    requires 0 <= d < 10
  {
    "0123456789"[d]
  }

  /** The decimal text of a natural number. */
  function NatText(n: nat): (s: string)
    ensures |s| >= 1
  {
    if n < 10 then [DigitChar(n)] else NatText(n / 10) + [DigitChar(n % 10)]
  }

  /** A number inside a template literal. */
  function IntText(i: int): string
  {
    if i < 0 then "-" + NatText(-i) else NatText(i)
  }

  /** `Number(req.query.page) || 1`: an absent, unreadable or zero page is page 1. */
  function PageOf(page: Option<int>): (p: int)
    ensures p != 0
    ensures GivenNumber(page) ==> p == page.value
    ensures !GivenNumber(page) ==> p == 1
  {
    if GivenNumber(page) then page.value else 1
  }

  /** The listing's cache key, `products-${search}-${sort}-${category}-${price}-${page}`. */
  function ListingKey(q: ListingQuery): (k: string)
    ensures |k| > |ListingPrefix| && k[..|ListingPrefix|] == ListingPrefix
  {
    "products-" + Shown(q.search) + "-" + Shown(q.sort) + "-" + Shown(q.category) + "-"
    + PriceShown(q.price) + "-" + IntText(PageOf(q.page))
  }

  /** Listing keys of queries that differ in the page number alone differ. */
  lemma ListingKeyFollowsPage(q: ListingQuery, page: int)
    requires page != 0 && page != PageOf(q.page)
    ensures ListingKey(q.(page := Some(page))) != ListingKey(q)
  {
    var k1, k2 := ListingKey(q.(page := Some(page))), ListingKey(q);
    var prefix := "products-" + Shown(q.search) + "-" + Shown(q.sort) + "-" + Shown(q.category) + "-"
                  + PriceShown(q.price) + "-";
    assert k1 == prefix + IntText(page) && k2 == prefix + IntText(PageOf(q.page));
    IntTextInjective(page, PageOf(q.page));
    assert k1[|prefix|..] == IntText(page);
    assert k2[|prefix|..] == IntText(PageOf(q.page));
  }

  /** Different numbers have different decimal texts. */
  lemma {:induction false} NatTextInjective(a: nat, b: nat)
    requires a != b
    ensures NatText(a) != NatText(b)
    decreases a + b
  {
    if a < 10 && b < 10 {
      DigitCharInjective(a, b);
    } else if a < 10 {
      NatTextSplit(b);
    } else if b < 10 {
      NatTextSplit(a);
    } else {
      NatTextSplit(a);
      NatTextSplit(b);
      if a % 10 != b % 10 {
        DigitCharInjective(a % 10, b % 10);
      } else {
        NatTextInjective(a / 10, b / 10);
      }
    }
  }

  lemma DigitCharInjective(a: int, b: int)
    requires 0 <= a < 10 && 0 <= b < 10 && a != b
    ensures DigitChar(a) != DigitChar(b)
  {
  }

  /** The text of a number of two digits or more is the text of its tens
      followed by its last digit. */
  lemma NatTextSplit(n: nat)
    requires n >= 10
    ensures |NatText(n)| >= 2
    ensures NatText(n)[..|NatText(n)| - 1] == NatText(n / 10)
    ensures NatText(n)[|NatText(n)| - 1] == DigitChar(n % 10)
  {
  }

  lemma IntTextInjective(a: int, b: int)
    requires a != b
    ensures IntText(a) != IntText(b)
  {
    if a < 0 && b < 0 {
      NegativeTextInjective(a, b);
    } else if a >= 0 && b >= 0 {
      NatTextInjective(a, b);
    } else if a < 0 {
      SignShows(a, b);
    } else {
      SignShows(b, a);
    }
  }

  lemma NegativeTextInjective(a: int, b: int)
    requires a < 0 && b < 0 && a != b
    ensures IntText(a) != IntText(b)
  {
    NatTextInjective(-a, -b);
    SamePrefixKeepsDifference(NatText(-a), NatText(-b));
  }

  lemma SamePrefixKeepsDifference(x: string, y: string)
    requires x != y
    ensures "-" + x != "-" + y
  {
    assert ("-" + x)[1..] == x;
    assert ("-" + y)[1..] == y;
  }

  /** The text of a negative number starts with '-', that of any other does not. */
  lemma SignShows(negative: int, other: int)
    requires negative < 0 <= other
    ensures IntText(negative) != IntText(other)
  {
    NatTextStartsWithDigit(other);
    assert IntText(negative)[0] == '-';
  }

  lemma {:induction false} NatTextStartsWithDigit(n: nat)
    ensures NatText(n)[0] != '-'
  {
    if n >= 10 {
      NatTextStartsWithDigit(n / 10);
      assert NatText(n)[0] == NatText(n / 10)[0];
    }
  }

  /** The listing key as written is not one-to-one: an absent search and the
      search "undefined" share a key, and so do a '-' inside the search and the
      same text split between search and sort. The first pair lists every
      product and the products whose name matches /undefined/ under one key. */
  lemma ListingKeyCollides()
    ensures var everything := ListingQuery(None, None, None, None, None);
            var undefinedSearch := ListingQuery(Some("undefined"), None, None, None, None);
            && everything != undefinedSearch
            && ListingKey(everything) == ListingKey(undefinedSearch)
    ensures var dashed := ListingQuery(Some("a-b"), None, None, None, None);
            var sorted := ListingQuery(Some("a"), Some("b-undefined"), None, None, None);
            && dashed != sorted
            && ListingKey(dashed) == ListingKey(sorted)
  {
    assert Shown(Some("undefined")) == Shown(None);
    DashedSearchCollides();
  }

  lemma DashedSearchCollides()
    ensures ListingKey(ListingQuery(Some("a-b"), None, None, None, None))
         == ListingKey(ListingQuery(Some("a"), Some("b-undefined"), None, None, None))
  {
    var head1 := "products-" + Shown(Some("a-b")) + "-" + Shown(None);
    var head2 := "products-" + Shown(Some("a")) + "-" + Shown(Some("b-undefined"));
    assert head1 == "products-a-b-undefined";
    assert head2 == "products-a-b-undefined";
  }

  /** A text written so that no two texts, followed by anything, can be read
      alike: every character is followed by '+', and the text ends with ";;". */
  function Quoted(s: string): (q: string)
    ensures |q| >= 2
  {
    if s == [] then ";;" else [s[0], '+'] + Quoted(s[1..])
  }

  /** An optional query value: "n" when absent, "s" and the quoted text when given. */
  function Field(o: Option<string>): (f: string)
    ensures |f| >= 1
  {
    if o.None? then "n" else "s" + Quoted(o.value)
  }

  function PriceText(o: Option<PriceParam>): Option<string>
  {
    if o.Some? then Some(o.value.text) else None
  }

  /** The listing key with every parameter written unambiguously. */
  function ListingKeyExact(q: ListingQuery): (k: string)
    ensures |k| > |ListingPrefix| && k[..|ListingPrefix|] == ListingPrefix
  {
    "products-" + (Field(q.search) + (Field(q.sort) + (Field(q.category)
      + (Field(PriceText(q.price)) + IntText(PageOf(q.page))))))
  }

  /** Two listing queries share a corrected key exactly when they agree on
      search, sort, category, price text and effective page. */
  lemma ListingKeyExactInjective(q1: ListingQuery, q2: ListingQuery)
    ensures ListingKeyExact(q1) == ListingKeyExact(q2)
            <==> && q1.search == q2.search && q1.sort == q2.sort && q1.category == q2.category
                 && PriceText(q1.price) == PriceText(q2.price) && PageOf(q1.page) == PageOf(q2.page)
  {
    var k1, k2 := ListingKeyExact(q1), ListingKeyExact(q2);
    if k1 == k2 {
      var prefix := "products-";
      var t1 := Field(q1.sort) + (Field(q1.category) + (Field(PriceText(q1.price)) + IntText(PageOf(q1.page))));
      var t2 := Field(q2.sort) + (Field(q2.category) + (Field(PriceText(q2.price)) + IntText(PageOf(q2.page))));
      assert k1[|prefix|..] == Field(q1.search) + t1;
      assert k2[|prefix|..] == Field(q2.search) + t2;
      FieldReadsBack(q1.search, q2.search, t1, t2);
      var u1 := Field(q1.category) + (Field(PriceText(q1.price)) + IntText(PageOf(q1.page)));
      var u2 := Field(q2.category) + (Field(PriceText(q2.price)) + IntText(PageOf(q2.page)));
      FieldReadsBack(q1.sort, q2.sort, u1, u2);
      var v1 := Field(PriceText(q1.price)) + IntText(PageOf(q1.page));
      var v2 := Field(PriceText(q2.price)) + IntText(PageOf(q2.page));
      FieldReadsBack(q1.category, q2.category, v1, v2);
      FieldReadsBack(PriceText(q1.price), PriceText(q2.price), IntText(PageOf(q1.page)), IntText(PageOf(q2.page)));
      if PageOf(q1.page) != PageOf(q2.page) {
        IntTextInjective(PageOf(q1.page), PageOf(q2.page));
      }
    }
  }

  /** A field followed by anything determines both the field and what follows. */
  lemma FieldReadsBack(a: Option<string>, b: Option<string>, x: string, y: string)
    requires Field(a) + x == Field(b) + y
    ensures a == b && x == y
  {
    FieldParts(a, x);
    FieldParts(b, y);
    if a.Some? {
      QuotedReadsBack(a.value, b.value, x, y);
    }
  }

  /** A field followed by more text: its tag, then the quoted value and the rest. */
  lemma FieldParts(o: Option<string>, z: string)
    ensures (Field(o) + z)[0] == (if o.None? then 'n' else 's')
    ensures (Field(o) + z)[1..] == (if o.None? then z else Quoted(o.value) + z)
  {
    if o.Some? {
      assert Field(o) + z == "s" + (Quoted(o.value) + z);
    }
  }

  lemma {:induction false} QuotedReadsBack(a: string, b: string, x: string, y: string)
    requires Quoted(a) + x == Quoted(b) + y
    ensures a == b && x == y
  {
    var l, r := Quoted(a) + x, Quoted(b) + y;
    assert l[1] == r[1];
    assert l[1] == Quoted(a)[1] == (if a == [] then ';' else '+');
    assert r[1] == Quoted(b)[1] == (if b == [] then ';' else '+');
    if a == [] {
      assert x == l[2..] && y == r[2..];
    } else {
      var qa, qb := Quoted(a[1..]), Quoted(b[1..]);
      assert l == [a[0], '+'] + (qa + x);
      assert r == [b[0], '+'] + (qb + y);
      assert l[0] == r[0];
      assert l[2..] == qa + x;
      assert r[2..] == qb + y;
      QuotedReadsBack(a[1..], b[1..], x, y);
      assert a == [a[0]] + a[1..] && b == [b[0]] + b[1..];
    }
  }

  /** `Number(process.env.PRODUCT_PER_PAGE) || 8`. */
  function PageLimit(env: Option<int>): (limit: int)
    ensures limit != 0
    ensures !GivenNumber(env) ==> limit == 8
  {
    if GivenNumber(env) then env.value else 8
  }

  datatype SortOrder = Unsorted | Ascending | Descending

  /** `sort && { price: sort === "asc" ? 1 : -1 }`. */
  function SortOf(sort: Option<string>): (o: SortOrder)
    ensures o == Unsorted <==> !GivenText(sort)
    ensures o == Ascending <==> GivenText(sort) && sort.value == "asc"
    ensures o == Descending <==> GivenText(sort) && sort.value != "asc"
  {
    if !GivenText(sort) then Unsorted else if sort.value == "asc" then Ascending else Descending
  }

  /** The listing's base query: a case-insensitive name match (the regular
      expression is a parameter), a price ceiling, an exact category. A price
      text that does not read as a number matches no product. */
  predicate Matches(q: ListingQuery, nameMatches: (string, string) -> bool, p: Product)
  {
    && (GivenText(q.search) ==> nameMatches(q.search.value, p.name))
    && (q.price.Some? && q.price.value.text != "" ==>
          q.price.value.number.Some? && p.price <= q.price.value.number.value)
    && (GivenText(q.category) ==> p.category == q.category.value)
  }

  /** The products `find(baseQuery)` returns: those the query matches, and
      every product when the query sets no filter. */
  function Filtered(products: map<Id, Product>, q: ListingQuery,
                    nameMatches: (string, string) -> bool): (r: map<Id, Product>)
    ensures forall id :: id in r <==> id in products && Matches(q, nameMatches, products[id])
    ensures forall id :: id in r ==> r[id] == products[id]
    ensures forall x :: x in r.Values ==> x in products.Values && Matches(q, nameMatches, x)
    ensures !GivenText(q.search) && (q.price.None? || q.price.value.text == "") && !GivenText(q.category)
            ==> r == products
  {
    map id | id in products && Matches(q, nameMatches, products[id]) :: products[id]
  }

  function Abs(x: int): nat { if x < 0 then -x else x }

  /** A category filter only narrows a listing. */
  lemma CategoryNarrows(products: map<Id, Product>, q: ListingQuery, nameMatches: (string, string) -> bool,
                        category: string)
    requires q.category.None?
    ensures Filtered(products, q.(category := Some(category)), nameMatches).Keys
            <= Filtered(products, q, nameMatches).Keys
  {
  }

  /** Products in the price order a sort asks for. */
  predicate InPriceOrder(s: seq<Product>, o: SortOrder)
  {
    && (o == Ascending ==> forall i, j :: 0 <= i < j < |s| ==> s[i].price <= s[j].price)
    && (o == Descending ==> forall i, j :: 0 <= i < j < |s| ==> s[i].price >= s[j].price)
  }

  /** What the store's `find(...).sort(...)` returns for a collection: every
      product of it, as many as there are documents, in the order asked for. */
  predicate SortedAs(m: map<Id, Product>, o: SortOrder, s: seq<Product>)
  {
    && |s| == |m|
    && (forall x :: x in s ==> x in m.Values)
    && (forall p :: p in m.Values ==> p in s)
    && InPriceOrder(s, o)
  }

  /** The store's sort, for every collection and order. */
  ghost predicate StoreSort(ordered: (map<Id, Product>, SortOrder) -> seq<Product>)
  {
    forall m, o :: SortedAs(m, o, ordered(m, o))
  }

  /** A window of a sorted collection holds products of the collection, in
      the same order. */
  lemma WindowOfSorted(m: map<Id, Product>, o: SortOrder, s: seq<Product>, skip: nat, limit: int)
    requires SortedAs(m, o, s)
    ensures forall x :: x in PageWindow(s, skip, limit) ==> x in m.Values
    ensures InPriceOrder(PageWindow(s, skip, limit), o)
  {
    var w := PageWindow(s, skip, limit);
    forall x | x in w
      ensures x in m.Values
    {
      var i :| 0 <= i < |w| && w[i] == x;
      assert s[skip + i] == x;
    }
    forall i, j | 0 <= i < j < |w|
      ensures o == Ascending ==> w[i].price <= w[j].price
      ensures o == Descending ==> w[i].price >= w[j].price
    {
      assert w[i] == s[skip + i] && w[j] == s[skip + j];
    }
  }

  /** `.limit(limit).skip(skip)`: a negative limit, to the store, means its
      absolute value. */
  function PageWindow<T>(s: seq<T>, skip: nat, limit: int): (w: seq<T>)
    ensures |w| <= Abs(limit)
    ensures |w| == (if skip >= |s| then 0 else if |s| - skip <= Abs(limit) then |s| - skip else Abs(limit))
    ensures forall i :: 0 <= i < |w| ==> skip + i < |s| && w[i] == s[skip + i]
  {
    var start := if skip <= |s| then skip else |s|;
    var end := if start + Abs(limit) <= |s| then start + Abs(limit) else |s|;
    s[start..end]
  }

  /** `Math.ceil(count / limit)`. */
  function TotalPages(count: nat, limit: int): (pages: int)
    requires limit != 0
    ensures count == 0 ==> pages == 0
    ensures limit > 0 ==> 0 <= pages <= count
    ensures limit < 0 ==> pages <= 0
  {
    if limit > 0 then
      CeilingAtMostCount(count, limit);
      (count + limit - 1) / limit
    else -(count / -limit)
  }

  /** Rounding `count / limit` up gives no more pages than there are matches. */
  lemma CeilingAtMostCount(count: nat, limit: int)
    requires limit > 0
    ensures 0 <= (count + limit - 1) / limit <= count
  {
    var q, r := (count + limit - 1) / limit, (count + limit - 1) % limit;
    assert q * limit + r == count + limit - 1 && 0 <= r < limit;
    assert (count + 1) * limit == count * limit + limit;
    assert count * limit >= count by {
      assert count * limit - count == count * (limit - 1);
    }
    FactorBelow(q, count + 1, limit);
  }

  lemma FactorBelow(a: int, b: int, c: int)
    requires c > 0 && a * c < b * c
    ensures a < b
  {
    assert (b - a) * c == b * c - a * c;
  }

  /** With a positive limit, the pages cover every match and the last page is
      not empty. */
  lemma TotalPagesCover(count: nat, limit: int)
    requires limit > 0
    ensures TotalPages(count, limit) * limit >= count
    ensures count > 0 ==> (TotalPages(count, limit) - 1) * limit < count
  {
    var t := TotalPages(count, limit);
    var rem := (count + limit - 1) % limit;
    assert t * limit + rem == count + limit - 1;
    assert 0 <= rem < limit;
  }

  /** The listing: a hit answers from the cache; on a miss the page of matching
      products is computed, with its page count, and cached for 30 seconds
      under the query's key. The store's ordering is a parameter. */
  method GetAllProducts(db: Store, cache: Cache<Payload>, q: ListingQuery, env: Option<int>,
                        nameMatches: (string, string) -> bool,
                        ordered: (map<Id, Product>, SortOrder) -> seq<Product>)
    returns (r: Response, listing: Option<Payload>)
    requires StoreSort(ordered)
    modifies cache`entries
    ensures Lookup(old(cache.entries), cache.now, ListingKey(q)).Some? ==>
              r == Ok(200) && listing == Lookup(old(cache.entries), cache.now, ListingKey(q))
              && cache.entries == old(cache.entries)
    ensures Lookup(old(cache.entries), cache.now, ListingKey(q)).None? ==>
              var limit := PageLimit(env);
              var skip := (PageOf(q.page) - 1) * limit;
              var filtered := Filtered(db.products, q, nameMatches);
              && (skip < 0 ==> r.Thrown? && listing.None? && cache.entries == old(cache.entries))
              && (skip >= 0 ==>
                    && r == Ok(200)
                    && listing == Some(Listing(PageWindow(ordered(filtered, SortOf(q.sort)), skip, limit),
                                               TotalPages(|filtered|, limit)))
                    && (forall x :: x in listing.value.page ==> x in db.products.Values && Matches(q, nameMatches, x))
                    && InPriceOrder(listing.value.page, SortOf(q.sort))
                    && |listing.value.page| == (if skip >= |filtered| then 0
                                                else if |filtered| - skip <= Abs(limit) then |filtered| - skip
                                                else Abs(limit))
                    && (limit > 0 ==> listing.value.totalPage * limit >= |filtered|)
                    && cache.entries == Put(old(cache.entries), cache.now, ListingKey(q),
                                            listing.value, ListingTtl))
  {
    var page := PageOf(q.page);
    var key := ListingKey(q);
    var cached := cache.Get(key);
    if cached.Some? {
      return Ok(200), cached;
    }
    var limit := PageLimit(env);
    var skip := (page - 1) * limit;
    if skip < 0 {
      return Thrown("skip must be non-negative"), None;
    }
    var filtered := Filtered(db.products, q, nameMatches);
    var products := PageWindow(ordered(filtered, SortOf(q.sort)), skip, limit);
    WindowOfSorted(filtered, SortOf(q.sort), ordered(filtered, SortOf(q.sort)), skip, limit);
    var totalPage := TotalPages(|filtered|, limit);
    if limit > 0 {
      TotalPagesCover(|filtered|, limit);
    }
    var result := Listing(products, totalPage);
    cache.SetEx(key, ListingTtl, result);
    r, listing := Ok(200), Some(result);
  }

  // ---------------------------------------------------------------------------
  // Reviews

  datatype RatingSummary = RatingSummary(ratings: real, numOfReviews: nat)

  predicate HasItem(items: seq<OrderItem>, product: Id)
  {
    exists j :: 0 <= j < |items| && items[j].productId == product
  }

  /** A purchase is verified when some order of the user holds the product. */
  ghost predicate Purchased(orders: map<Id, Order>, user: Id, product: Id)
  {
    exists oid :: oid in orders && orders[oid].user == user && HasItem(orders[oid].items, product)
  }

  /** The nested `forEach` that sets `verifiedPurchase` over the user's orders. */
  method VerifiedPurchase(mine: map<Id, Order>, product: Id) returns (verified: bool)
    ensures verified <==> exists oid :: oid in mine && HasItem(mine[oid].items, product)
  {
    verified := false;
    var pending := mine.Keys;
    while pending != {}
      invariant pending <= mine.Keys
      invariant verified <==> exists oid :: oid in mine && oid !in pending && HasItem(mine[oid].items, product)
      decreases pending
    {
      var oid :| oid in pending;
      var items := mine[oid].items;
      var j := 0;
      ghost var before := verified;
      while j < |items|
        invariant 0 <= j <= |items|
        invariant verified <==> before || exists k :: 0 <= k < j && items[k].productId == product
      {
        if items[j].productId == product {
          verified := true;
        }
        j := j + 1;
      }
      pending := pending - {oid};
    }
  }

  /** `verifiedPurchase` as the handler computes it: some order of the user
      holds the product. */
  method CheckPurchase(orders: map<Id, Order>, user: Id, product: Id) returns (verified: bool)
    ensures verified <==> Purchased(orders, user, product)
  {
    var mine := Orders.OrdersOf(orders, user);
    verified := VerifiedPurchase(mine, product);
    if !verified {
      forall oid | oid in orders && orders[oid].user == user
        ensures !HasItem(orders[oid].items, product)
      {
        assert oid in mine;
      }
    }
  }

  ghost predicate HasReview(reviews: map<Id, Review>, user: Id, product: Id)
  {
    exists rid :: rid in reviews && reviews[rid].user == user && reviews[rid].product == product
  }

  /** `User.findById(req.query.id)` finds someone. */
  predicate LoggedIn(users: map<Id, User>, id: Option<Id>)
  {
    id.Some? && id.value in users
  }

  function WithRatings(p: Product, s: RatingSummary): Product
  {
    p.(ratings := s.ratings, numOfReviews := s.numOfReviews)
  }

  /** Storing a review under the id of the user's existing review of the
      product, or under an id no review has when there is none, keeps one
      review per user and product. */
  lemma UpsertKeepsOneReview(reviews: map<Id, Review>, rid: Id, review: Review)
    requires OneReviewPerUserAndProduct(reviews)
    requires rid in reviews ==> reviews[rid].user == review.user && reviews[rid].product == review.product
    requires rid !in reviews ==> !HasReview(reviews, review.user, review.product)
    ensures OneReviewPerUserAndProduct(reviews[rid := review])
  {
  }

  /** `findOne({ user, product })`, then `save` of the review found or
      `create` of a new one. */
  method SaveReview(db: Store, review: Review) returns (reviewId: Id, existed: bool)
    requires db.Valid()
    modifies db`reviews, db`issued
    ensures db.Valid()
    ensures existed == HasReview(old(db.reviews), review.user, review.product)
    ensures existed ==> reviewId in old(db.reviews) && old(db.reviews)[reviewId].user == review.user
                        && old(db.reviews)[reviewId].product == review.product
    ensures !existed ==> reviewId == Mint(old(db.issued)) && reviewId !in old(db.reviews)
    ensures db.reviews == old(db.reviews)[reviewId := review]
  {
    existed := exists rid :: rid in db.reviews && db.reviews[rid].user == review.user
                             && db.reviews[rid].product == review.product;
    if existed {
      var rid :| rid in db.reviews && db.reviews[rid].user == review.user && db.reviews[rid].product == review.product;
      reviewId := rid;
    } else {
      reviewId := db.NewId();
    }
    UpsertKeepsOneReview(db.reviews, reviewId, review);
    db.reviews := db.reviews[reviewId := review];
  }

  /** `newReview`: the review of this user for this product is updated if it
      exists (200), created otherwise (201), so there is never more than one;
      its `verifiedPurchase` says whether the user bought the product. The
      product's rating summary comes from a helper not part of this model. */
  method NewReview(db: Store, cache: Cache<Payload>, queryId: Option<Id>, productId: Id,
                   comment: string, rating: int, ratingsOf: (map<Id, Review>, Id) -> RatingSummary)
    returns (r: Response, reviewId: Id)
    requires db.Valid()
    modifies db`reviews, db`products, db`issued, cache`entries, cache`invalidations
    ensures db.Valid()
    ensures !LoggedIn(old(db.users), queryId) ==> r == Fail(404, "Not Logged In")
    ensures LoggedIn(old(db.users), queryId) && productId !in old(db.products)
            ==> r == Fail(404, "Product Not Found")
    ensures r.Fail? ==> unchanged(db) && unchanged(cache)
    ensures LoggedIn(old(db.users), queryId) && productId in old(db.products) ==>
              var user := queryId.value;
              var req := Invalidation(product := true, admin := true, review := true,
                                      productIds := [productId]);
              && r == (if HasReview(old(db.reviews), user, productId) then Ok(200) else Ok(201))
              && (HasReview(old(db.reviews), user, productId) ==>
                    reviewId in old(db.reviews) && old(db.reviews)[reviewId].user == user
                    && old(db.reviews)[reviewId].product == productId)
              && (!HasReview(old(db.reviews), user, productId) ==> reviewId == Mint(old(db.issued)))
              && db.reviews == old(db.reviews)[reviewId := Review(user, productId, comment, rating,
                                                                  Purchased(db.orders, user, productId))]
              && db.products == old(db.products)[productId := WithRatings(old(db.products)[productId],
                                                                          ratingsOf(db.reviews, productId))]
              && cache.invalidations == old(cache.invalidations) + [req]
              && cache.entries == Evict(old(cache.entries), req, cache.evicts)
  {
    reviewId := "";
    if !LoggedIn(db.users, queryId) {
      return Fail(404, "Not Logged In"), reviewId;
    }
    var user := queryId.value;
    if productId !in db.products {
      return Fail(404, "Product Not Found"), reviewId;
    }
    var verifiedPurchase := CheckPurchase(db.orders, user, productId);
    var alreadyReviewed;
    reviewId, alreadyReviewed := SaveReview(db, Review(user, productId, comment, rating, verifiedPurchase));
    db.products := db.products[productId := WithRatings(db.products[productId], ratingsOf(db.reviews, productId))];
    cache.Invalidate(Invalidation(product := true, admin := true, review := true, productIds := [productId]));
    r := if alreadyReviewed then Ok(200) else Ok(201);
  }

  /** A product's reviews, `Review.find({ product })`. */
  function ReviewsOf(reviews: map<Id, Review>, product: Id): map<Id, Review>
  {
    map rid | rid in reviews && reviews[rid].product == product :: reviews[rid]
  }

  method AllReviews(db: Store, cache: Cache<Payload>, productId: Id) returns (reviews: Payload)
    modifies cache`entries
    ensures (reviews, cache.entries)
            == ReadThrough(old(cache.entries), cache.now, ReviewsKey(productId), ReviewsKey(productId),
                           cache.defaultTtl, ReviewMap(ReviewsOf(db.reviews, productId)))
  {
    var key := ReviewsKey(productId);
    var cached := cache.Get(key);
    if cached.Some? {
      reviews := cached.value;
    } else {
      reviews := ReviewMap(ReviewsOf(db.reviews, productId));
      cache.SetEx(key, cache.defaultTtl, reviews);
    }
  }

  /** `deleteReview`: only the author may delete; the review is deleted before
      its product is looked up, so a missing product answers 404 after the
      deletion; the invalidation carries no review flag. */
  method DeleteReview(db: Store, cache: Cache<Payload>, queryId: Option<Id>, reviewId: Id,
                      ratingsOf: (map<Id, Review>, Id) -> RatingSummary) returns (r: Response)
    requires db.Valid()
    modifies db`reviews, db`products, cache`entries, cache`invalidations
    ensures db.Valid()
    ensures !LoggedIn(old(db.users), queryId) ==> r == Fail(404, "Not Logged In") && unchanged(db)
    ensures LoggedIn(old(db.users), queryId) && reviewId !in old(db.reviews) ==>
              r == Fail(404, "Review Not Found") && unchanged(db)
    ensures LoggedIn(old(db.users), queryId) && reviewId in old(db.reviews)
            && old(db.reviews)[reviewId].user != queryId.value ==>
              r == Fail(401, "Not Authorized") && unchanged(db)
    ensures LoggedIn(old(db.users), queryId) && reviewId in old(db.reviews)
            && old(db.reviews)[reviewId].user == queryId.value ==>
              var product := old(db.reviews)[reviewId].product;
              var req := Invalidation(product := true, admin := true, productIds := [product]);
              && db.reviews == old(db.reviews) - {reviewId}
              && (product !in old(db.products) ==>
                    r == Fail(404, "Product Not Found") && db.products == old(db.products))
              && (product in old(db.products) ==>
                    && r == Ok(200)
                    && db.products == old(db.products)[product := WithRatings(old(db.products)[product],
                                                                              ratingsOf(db.reviews, product))]
                    && cache.invalidations == old(cache.invalidations) + [req]
                    && cache.entries == Evict(old(cache.entries), req, cache.evicts))
    ensures r.Fail? ==> unchanged(cache)
  {
    if !LoggedIn(db.users, queryId) {
      return Fail(404, "Not Logged In");
    }
    if reviewId !in db.reviews {
      return Fail(404, "Review Not Found");
    }
    var review := db.reviews[reviewId];
    if review.user != queryId.value {
      return Fail(401, "Not Authorized");
    }
    db.reviews := db.reviews - {reviewId};
    if review.product !in db.products {
      return Fail(404, "Product Not Found");
    }
    db.products := db.products[review.product := WithRatings(db.products[review.product],
                                                             ratingsOf(db.reviews, review.product))];
    cache.Invalidate(Invalidation(product := true, admin := true, productIds := [review.product]));
    r := Ok(200);
  }
}
