/** The backend's search endpoint: looking a query up in the product table,
    flattening the chosen entry into numbered product records, generating
    records for unknown queries, and assembling the sorted response. */
module MockSearch {
  import opened Wrappers
  import opened Text
  import opened Models
  import opened Catalog
  import opened PriceSort

  // ---------------------------------------------------------------------------
  // Matching a query against the table

  /** `any(word in q for word in words)`. */
  function AnyWordContained(words: seq<string>, q: string): (b: bool)
    ensures b <==> exists k :: 0 <= k < |words| && Contains(q, words[k])
  {
    |words| > 0 && (Contains(q, words[0]) || AnyWordContained(words[1..], q))
  }

  /** The match rule for one table key against the lower-cased, stripped
      query: the key is a substring of it, or one of the key's words is. */
  predicate KeyMatches(key: string, queryLower: string) {
    Contains(queryLower, key) || AnyWordContained(Split(key), queryLower)
  }

  /** A key matches exactly when the key itself, or one of its words, is a
      substring of the query. */
  lemma KeyMatchesIsOccurs(key: string, queryLower: string)
    ensures KeyMatches(key, queryLower) <==>
      Occurs(key, queryLower) || exists w :: w in Split(key) && Occurs(w, queryLower)
  {
    var words := Split(key);
    ContainsIsOccurs(queryLower, key);
    forall k | 0 <= k < |words|
      ensures Contains(queryLower, words[k]) <==> Occurs(words[k], queryLower)
    {
      ContainsIsOccurs(queryLower, words[k]);
    }
  }

  /** The position of the first entry, in table order, whose key matches. */
  function FirstMatch(db: seq<Entry>, queryLower: string): (r: Option<nat>)
    ensures r.Some? ==> r.value < |db| && KeyMatches(db[r.value].key, queryLower)
    ensures r.Some? ==> forall k :: 0 <= k < r.value ==> !KeyMatches(db[k].key, queryLower)
    ensures r.None? <==> forall k :: 0 <= k < |db| ==> !KeyMatches(db[k].key, queryLower)
  {
    if db == [] then None
    else if KeyMatches(db[0].key, queryLower) then Some(0)
    else match FirstMatch(db[1..], queryLower)
      case None => None
      case Some(i) => Some(i + 1)
  }

  /** The lookup loop of `create_mock_products`: scan the keys in order and
      stop at the first that matches. */
  method FindEntry(db: seq<Entry>, queryLower: string) returns (r: Option<nat>)
    ensures r == FirstMatch(db, queryLower)
  {
    r := None;
    var i := 0;
    while i < |db|
      invariant 0 <= i <= |db|
      invariant forall k :: 0 <= k < i ==> !KeyMatches(db[k].key, queryLower)
    {
      var key := db[i].key;
      if Contains(queryLower, key) || AnyWordContained(Split(key), queryLower) {
        r := Some(i);
        break;
      }
      i := i + 1;
    }
  }

  /** For a key with at least one word, the whole-key test never decides a
      match: if the key occurs in the query, so does its first word. */
  lemma WholeKeyTestRedundant(key: string, queryLower: string)
    requires Split(key) != []
    ensures KeyMatches(key, queryLower) <==> AnyWordContained(Split(key), queryLower)
  {
    if Contains(queryLower, key) {
      var w := Split(key)[0];
      SplitWordsOccur(key);
      ContainsIsOccurs(queryLower, key);
      OccursTransitive(w, key, queryLower);
      ContainsIsOccurs(queryLower, w);
      assert Contains(queryLower, Split(key)[0]);
    }
  }

  // ---------------------------------------------------------------------------
  // Flattening a matched entry

  /** One table item together with the shop that lists it. */
  datatype Hit = Hit(site: string, item: CatalogItem)

  function SiteHits(l: SiteListing): seq<Hit> {
    seq(|l.items|, t requires 0 <= t < |l.items| => Hit(l.site, l.items[t]))
  }

  /** An entry's items, shop by shop, each shop's items in order. */
  function Listing(sites: seq<SiteListing>): seq<Hit> {
    if sites == [] then [] else Listing(sites[..|sites| - 1]) + SiteHits(sites[|sites| - 1])
  }

  /** The number of items an entry lists over all its shops. */
  function ItemCount(sites: seq<SiteListing>): nat {
    if sites == [] then 0 else ItemCount(sites[..|sites| - 1]) + |sites[|sites| - 1].items|
  }

  /** Item `t` of shop `s` sits at position `ItemCount(sites[..s]) + t` of the listing. */
  lemma {:induction false} ListingOrder(sites: seq<SiteListing>, s: nat, t: nat)
    requires s < |sites| && t < |sites[s].items|
    ensures |Listing(sites)| == ItemCount(sites)
    ensures ItemCount(sites[..s]) + t < |Listing(sites)|
    ensures Listing(sites)[ItemCount(sites[..s]) + t] == Hit(sites[s].site, sites[s].items[t])
    decreases |sites|
  {
    var init := sites[..|sites| - 1];
    ListingLength(init);
    if s == |sites| - 1 {
      assert sites[..s] == init;
    } else {
      assert init[..s] == sites[..s];
      ListingOrder(init, s, t);
      ItemCountPrefix(init, s);
    }
  }

  lemma {:induction false} ListingLength(sites: seq<SiteListing>)
    ensures |Listing(sites)| == ItemCount(sites)
    decreases |sites|
  {
    if sites != [] {
      ListingLength(sites[..|sites| - 1]);
    }
  }

  lemma {:induction false} ItemCountPrefix(sites: seq<SiteListing>, s: nat)
    requires s <= |sites|
    ensures ItemCount(sites[..s]) <= ItemCount(sites)
    decreases |sites|
  {
    if s < |sites| {
      assert sites[..|sites| - 1][..s] == sites[..s];
      ItemCountPrefix(sites[..|sites| - 1], s);
    } else {
      assert sites[..s] == sites;
    }
  }

  /** `0.88 + (product_id * 0.02) % 0.12` in exact arithmetic. */
  function MockConfidence(id: int): (c: real)
    ensures 0.88 <= c <= 0.98
  {
    0.88 + 0.02 * ((id % 6) as real)
  }

  /** The record made for one table item under the given id. */
  function MockProduct(h: Hit, id: int, now: string): (p: Product)
    ensures p.id == id && p.site == h.site && p.productName == h.item.name
    ensures p.price == Some(h.item.price) && p.currency == "USD"
    ensures p.productUrl == Some(h.item.url) && p.imageUrl.None? && p.extractedAt == now
    ensures p.extractionConfidence.Some? && 0.88 <= p.extractionConfidence.value <= 0.98
  {
    Product(id, h.site, h.item.name, Some(h.item.price), DefaultCurrency,
            Some(h.item.url), None, now, Some(MockConfidence(id)))
  }

  /** The records for a listing, numbered 1, 2, ... in listing order. */
  function Numbered(hits: seq<Hit>, now: string): seq<Product> {
    seq(|hits|, k requires 0 <= k < |hits| => MockProduct(hits[k], k + 1, now))
  }

  /** The matched branch of `create_mock_products`: for each shop, for each
      item, append a record and advance the id counter. */
  method FlattenEntry(sites: seq<SiteListing>, now: string) returns (products: seq<Product>)
    ensures products == Numbered(Listing(sites), now)
  {
    products := [];
    var productId := 1;
    var i := 0;
    while i < |sites|
      invariant 0 <= i <= |sites|
      invariant productId == |products| + 1
      invariant products == Numbered(Listing(sites[..i]), now)
    {
      var listing := sites[i];
      assert sites[..i + 1][..i] == sites[..i];
      var j := 0;
      while j < |listing.items|
        invariant 0 <= j <= |listing.items|
        invariant productId == |products| + 1
        invariant products == Numbered(Listing(sites[..i]) + SiteHits(SiteListing(listing.site, listing.items[..j])), now)
      {
        var hits := Listing(sites[..i]) + SiteHits(SiteListing(listing.site, listing.items[..j]));
        assert Listing(sites[..i]) + SiteHits(SiteListing(listing.site, listing.items[..j + 1]))
            == hits + [Hit(listing.site, listing.items[j])];
        products := products + [MockProduct(Hit(listing.site, listing.items[j]), productId, now)];
        productId := productId + 1;
        j := j + 1;
      }
      assert listing.items[..j] == listing.items;
      i := i + 1;
    }
    assert sites[..i] == sites;
  }

  /** What a matched search returns for item `t` of shop `s`: the item's
      name, price and url, the shop as site, currency USD, and as id its
      1-based position in the shop-by-shop listing. */
  lemma MatchedProductAt(sites: seq<SiteListing>, s: nat, t: nat, now: string)
    requires s < |sites| && t < |sites[s].items|
    ensures var products, k := Numbered(Listing(sites), now), ItemCount(sites[..s]) + t;
      && |products| == ItemCount(sites)
      && k < |products|
      && products[k].id == k + 1
      && products[k].site == sites[s].site
      && products[k].productName == sites[s].items[t].name
      && products[k].price == Some(sites[s].items[t].price)
      && products[k].productUrl == Some(sites[s].items[t].url)
      && products[k].currency == "USD"
      && products[k].extractionConfidence.Some? && products[k].extractionConfidence.value >= 0.88
  {
    ListingOrder(sites, s, t);
    var k := ItemCount(sites[..s]) + t;
    assert Numbered(Listing(sites), now)[k] == MockProduct(Hit(sites[s].site, sites[s].items[t]), k + 1, now);
  }

  // ---------------------------------------------------------------------------
  // Generating records for a query the table does not know

  datatype PriceRange = PriceRange(lo: int, hi: int)

  datatype Category = Category(name: string, range: PriceRange)

  const DefaultPriceRange: PriceRange := PriceRange(25, 500)

  /** The category table, in its listed order (the last entry is "default"). */
  const CategoryPrices: seq<Category> := [
    Category("headphones", PriceRange(50, 500)),
    Category("phone", PriceRange(200, 1500)),
    Category("laptop", PriceRange(400, 3000)),
    Category("tablet", PriceRange(150, 1200)),
    Category("watch", PriceRange(100, 800)),
    Category("camera", PriceRange(300, 2000)),
    Category("speaker", PriceRange(30, 400)),
    Category("keyboard", PriceRange(20, 200)),
    Category("mouse", PriceRange(15, 150)),
    Category("monitor", PriceRange(150, 1000)),
    Category("tv", PriceRange(200, 2000)),
    Category("gaming", PriceRange(50, 600)),
    Category("book", PriceRange(5, 50)),
    Category("clothes", PriceRange(10, 200)),
    Category("shoes", PriceRange(30, 300)),
    Category("default", DefaultPriceRange)
  ]

  /** The position of the first category whose name occurs in `queryLower`. */
  function FirstCategory(cats: seq<Category>, queryLower: string): (r: Option<nat>)
    ensures r.Some? ==> r.value < |cats| && Contains(queryLower, cats[r.value].name)
    ensures r.Some? ==> forall k :: 0 <= k < r.value ==> !Contains(queryLower, cats[k].name)
    ensures r.None? <==> forall k :: 0 <= k < |cats| ==> !Contains(queryLower, cats[k].name)
  {
    if cats == [] then None
    else if Contains(queryLower, cats[0].name) then Some(0)
    else match FirstCategory(cats[1..], queryLower)
      case None => None
      case Some(i) => Some(i + 1)
  }

  /** The range of the first category in `cats` whose name occurs in
      `queryLower`, else `default`. */
  function RangeFor(cats: seq<Category>, default: PriceRange, queryLower: string): PriceRange {
    match FirstCategory(cats, queryLower)
    case Some(c) => cats[c].range
    case None => default
  }

  /** The price range `generate_realistic_products` picks for a lower-cased query. */
  function CategoryRange(queryLower: string): PriceRange {
    RangeFor(CategoryPrices, DefaultPriceRange, queryLower)
  }

  /** Every range the category choice can give starts at 5 or more and is
      not empty. */
  lemma CategoryRangeBounds(queryLower: string)
    ensures 5 <= CategoryRange(queryLower).lo <= CategoryRange(queryLower).hi
  {
    assert forall k :: 0 <= k < |CategoryPrices| ==> 5 <= CategoryPrices[k].range.lo <= CategoryPrices[k].range.hi;
  }

  /** The category loop of `generate_realistic_products`: start from the
      default range, scan the categories in order, take the first whose name
      occurs in the lower-cased query. */
  method ChooseRange(cats: seq<Category>, default: PriceRange, queryLower: string) returns (priceRange: PriceRange)
    ensures priceRange == RangeFor(cats, default, queryLower)
  {
    priceRange := default;
    var c := 0;
    while c < |cats|
      invariant 0 <= c <= |cats|
      invariant forall k :: 0 <= k < c ==> !Contains(queryLower, cats[k].name)
      invariant priceRange == default
    {
      if Contains(queryLower, cats[c].name) {
        priceRange := cats[c].range;
        break;
      }
      c := c + 1;
    }
  }

  const BrandVariations: seq<string> := [
    "Premium", "Pro", "Elite", "Ultra", "Max", "Plus", "Advanced",
    "Professional", "Deluxe", "Special Edition", "Limited Edition"
  ]
  const Colors: seq<string> := ["Black", "White", "Silver", "Blue", "Red", "Gray", "Gold"]
  const Sizes: seq<string> := ["Compact", "Standard", "Large", "XL", "Mini"]
  const AmazonPrefixes: seq<string> := ["B0", "B1"]

  /** Price factor per shop, in the order of `SupportedSites`. */
  const SiteMultipliers: seq<real> := [1.0, 1.05, 0.95]

  /** The name suffix per shop, in the order of `SupportedSites`. */
  const SiteSuffixes: seq<string> := [" - Amazon's Choice", " - Best Buy Exclusive", " - Great Value"]

  /** The random values drawn for one generated record. `basePick` is the
      position of `random.uniform(lo, hi)` within the range (0 at `lo`, 1 at
      `hi`); the other fields are the values of the other random calls, the
      `random.choice` ones as positions in their lists. */
  datatype Draw = Draw(
    basePick: real,
    jitter: real,
    variation: nat,
    color: nat,
    size: nat,
    amazonPrefix: nat,
    amazonNumber: nat,
    bestbuyNumber: nat,
    walmartNumber: nat,
    confidence: real)

  /** The values the random calls can return. */
  predicate ValidDraw(d: Draw) {
    && 0.0 <= d.basePick <= 1.0
    && 0.9 <= d.jitter <= 1.1
    && d.variation < |BrandVariations|
    && d.color < |Colors|
    && d.size < |Sizes|
    && d.amazonPrefix < |AmazonPrefixes|
    && 100000 <= d.amazonNumber <= 999999
    && 6000000 <= d.bestbuyNumber <= 6999999
    && 100000000 <= d.walmartNumber <= 999999999
    && 0.85 <= d.confidence <= 0.98
  }

  /** One draw per generated record: three shops, two records each. */
  predicate ValidDraws(draws: seq<Draw>) {
    |draws| == 6 && forall k :: 0 <= k < |draws| ==> ValidDraw(draws[k])
  }

  /** `random.uniform(lo, hi)` at position `pick` of the range. */
  function UniformAt(lo: real, hi: real, pick: real): real {
    lo + (hi - lo) * pick
  }

  /** `round(x, 2)` as a whole number of cents. */
  function RoundToCents(x: real): Cents {
    (x * 100.0 + 0.5).Floor
  }

  /** The price of record `i` (a shop position): base price, times the shop's
      factor, times the jitter. */
  function GeneratedPrice(range: PriceRange, i: nat, d: Draw): Cents
    requires i < |SiteMultipliers|
  {
    var basePrice := UniformAt(range.lo as real, range.hi as real, d.basePick);
    RoundToCents(basePrice * SiteMultipliers[i] * d.jitter)
  }

  lemma RoundMonotone(x: real, y: real)
    requires x <= y
    ensures RoundToCents(x) <= RoundToCents(y)
  {
  }

  lemma ScaleMonotone(a: real, x: real, y: real)
    requires 0.0 <= a && x <= y
    ensures a * x <= a * y
  {
  }

  lemma UniformWithin(lo: real, hi: real, pick: real)
    requires lo <= hi && 0.0 <= pick <= 1.0
    ensures lo <= UniformAt(lo, hi, pick) <= hi
  {
    ScaleMonotone(hi - lo, pick, 1.0);
    ScaleMonotone(hi - lo, 0.0, pick);
  }

  lemma ProductAtLeast(a: real, b: real, c: real, x: real, y: real, z: real)
    requires 0.0 <= x <= a && 0.0 <= y <= b && 0.0 <= z <= c
    ensures x * y * z <= a * b * c
  {
    ScaleMonotone(y, x, a);
    ScaleMonotone(a, y, b);
    ScaleMonotone(a * b, z, c);
    ScaleMonotone(z, x * y, a * b);
  }

  /** A generated price lies between the range's start and end, each
      scaled by the shop's factor and by the extreme jitter (0.9 and 1.1),
      then rounded to cents. */
  lemma GeneratedPriceWithin(range: PriceRange, i: nat, d: Draw)
    requires i < |SiteMultipliers| && ValidDraw(d) && 0 <= range.lo <= range.hi
    ensures var m := SiteMultipliers[i];
      RoundToCents(range.lo as real * m * 0.9) <= GeneratedPrice(range, i, d) <= RoundToCents(range.hi as real * m * 1.1)
  {
    var lo, hi := range.lo as real, range.hi as real;
    var base, m := UniformAt(lo, hi, d.basePick), SiteMultipliers[i];
    assert GeneratedPrice(range, i, d) == RoundToCents(base * m * d.jitter);
    UniformWithin(lo, hi, d.basePick);
    RoundedWithin(lo, hi, base, m, d.jitter);
  }

  /** Scaling a value of [lo, hi] by `m` and a jitter in [0.9, 1.1], then
      rounding, stays between the rounded extremes. */
  lemma RoundedWithin(lo: real, hi: real, base: real, m: real, jitter: real)
    requires 0.0 <= lo <= base <= hi && 0.0 <= m && 0.9 <= jitter <= 1.1
    ensures RoundToCents(lo * m * 0.9) <= RoundToCents(base * m * jitter) <= RoundToCents(hi * m * 1.1)
  {
    ProductAtLeast(base, m, jitter, lo, m, 0.9);
    ProductAtLeast(hi, m, 1.1, base, m, jitter);
    RoundMonotone(lo * m * 0.9, base * m * jitter);
    RoundMonotone(base * m * jitter, hi * m * 1.1);
  }

  /** With a range starting at 5 or more, a generated price is positive: at
      least 5 * 0.95 * 0.9 = 4.275, which rounds to 428 cents. */
  lemma GeneratedPricePositive(range: PriceRange, i: nat, d: Draw)
    requires i < |SiteMultipliers| && ValidDraw(d) && 5 <= range.lo <= range.hi
    ensures GeneratedPrice(range, i, d) >= 428
  {
    var base := UniformAt(range.lo as real, range.hi as real, d.basePick);
    UniformWithin(range.lo as real, range.hi as real, d.basePick);
    var m := SiteMultipliers[i];
    assert m >= 0.95;
    ProductAtLeast(base, m, d.jitter, 5.0, 0.95, 0.9);
    RoundMonotone(5.0 * 0.95 * 0.9, base * m * d.jitter);
    assert RoundToCents(5.0 * 0.95 * 0.9) == 428;
  }

  /** The name before the shop suffix: record `j == 0` and `j == 1` of a shop differ. */
  function GeneratedName(queryClean: string, j: nat, d: Draw): string
    requires ValidDraw(d)
  {
    if j == 0 then queryClean + " - " + BrandVariations[d.variation] + " " + Colors[d.color]
    else queryClean + " " + BrandVariations[d.variation] + " - " + Sizes[d.size] + " " + Colors[d.color]
  }

  /** A generated name starts with the stripped query and ends with the
      drawn colour. */
  lemma GeneratedNameShape(queryClean: string, j: nat, d: Draw)
    requires ValidDraw(d)
    ensures var name := GeneratedName(queryClean, j, d);
      queryClean <= name && EndsWith(name, " " + Colors[d.color])
  {
    var name := GeneratedName(queryClean, j, d);
    var tail := " " + Colors[d.color];
    assert name[|name| - |tail|..] == tail;
  }

  /** The two records of a shop get different names, whatever each drew:
      the first has "-" right after the query and a space, the second a
      brand variation, which never starts with "-". */
  lemma ShopNamesDiffer(queryClean: string, d0: Draw, d1: Draw)
    requires ValidDraw(d0) && ValidDraw(d1)
    ensures GeneratedName(queryClean, 0, d0) != GeneratedName(queryClean, 1, d1)
  {
    var first := GeneratedName(queryClean, 0, d0);
    var second := GeneratedName(queryClean, 1, d1);
    var variation := BrandVariations[d1.variation];
    assert first[|queryClean| + 1] == '-';
    assert variation[0] != '-';
    assert second[|queryClean| + 1] == variation[0];
  }

  /** The shop-specific naming convention. */
  function WithSiteSuffix(site: string, name: string): string {
    if site == "amazon.com" then name + " - Amazon's Choice"
    else if site == "bestbuy.com" then name + " - Best Buy Exclusive"
    else if site == "walmart.com" then name + " - Great Value"
    else name
  }

  /** The URL slug: the lower-cased query, spaces replaced by "-", then "&" by "and". */
  function Slug(query: string): (slug: string)
    ensures ' ' !in slug && '&' !in slug
  {
    ReplaceChar(ReplaceChar(Lower(query), ' ', "-"), '&', "and")
  }

  /** The slug of one character of the query. */
  function SlugOfChar(c: char): string {
    if c == ' ' then "-" else if c == '&' then "and" else [LowerChar(c)]
  }

  /** The slug built character by character. */
  function SlugByChar(query: string): string {
    if query == [] then [] else SlugOfChar(query[0]) + SlugByChar(query[1..])
  }

  lemma {:induction false} SlugIsByChar(query: string)
    ensures Slug(query) == SlugByChar(query)
  {
    if query != [] {
      var c, rest := query[0], query[1..];
      assert Lower(query) == [LowerChar(c)] + Lower(rest);
      ReplaceCharAppend([LowerChar(c)], Lower(rest), ' ', "-");
      var once := ReplaceChar([LowerChar(c)], ' ', "-");
      assert ReplaceChar([LowerChar(c)], ' ', "-") == (if LowerChar(c) == ' ' then "-" else [LowerChar(c)]) + ReplaceChar([], ' ', "-");
      ReplaceCharAppend(once, ReplaceChar(Lower(rest), ' ', "-"), '&', "and");
      if LowerChar(c) == ' ' {
        assert once == "-";
        assert ReplaceChar("-", '&', "and") == "-" + ReplaceChar("", '&', "and");
      } else {
        assert once == [LowerChar(c)];
        assert ReplaceChar(once, '&', "and") == (if LowerChar(c) == '&' then "and" else [LowerChar(c)]) + ReplaceChar([], '&', "and");
      }
      SlugIsByChar(rest);
    }
  }

  /** The three candidate URLs of one record, in the order of `SupportedSites`. */
  function GeneratedUrls(slug: string, d: Draw): seq<string>
    requires ValidDraw(d)
  {
    [ "https://amazon.com/dp/" + AmazonPrefixes[d.amazonPrefix] + NatToString(d.amazonNumber),
      "https://bestbuy.com/site/" + slug + "/" + NatToString(d.bestbuyNumber) + ".p",
      "https://walmart.com/ip/" + slug + "/" + NatToString(d.walmartNumber) ]
  }

  /** Each candidate URL has its shop's fixed form: an amazon product code
      of "B0" or "B1" and six digits, the slug and a seven-digit number
      ending in ".p" for bestbuy, the slug and a nine-digit number for
      walmart. */
  lemma GeneratedUrlShape(slug: string, d: Draw)
    requires ValidDraw(d)
    ensures |GeneratedUrls(slug, d)| == 3
    ensures var url, pre := GeneratedUrls(slug, d)[0], "https://amazon.com/dp/B";
      && pre <= url && |url| == |pre| + 7
      && (url[|pre|] == '0' || url[|pre|] == '1')
      && AllDigits(url[|pre| + 1..])
    ensures var url, pre := GeneratedUrls(slug, d)[1], "https://bestbuy.com/site/" + slug + "/";
      && pre <= url && |url| == |pre| + 7 + |".p"|
      && AllDigits(url[|pre|..|url| - 2]) && url[|url| - 2..] == ".p"
    ensures var url, pre := GeneratedUrls(slug, d)[2], "https://walmart.com/ip/" + slug + "/";
      && pre <= url && |url| == |pre| + 9
      && AllDigits(url[|pre|..])
  {
    AmazonUrlShape(AmazonPrefixes[d.amazonPrefix], d.amazonNumber);
    Pow10Bounds();
    NumberedUrlShape("https://bestbuy.com/site/" + slug + "/", d.bestbuyNumber, 7, ".p");
    NumberedUrlShape("https://walmart.com/ip/" + slug + "/", d.walmartNumber, 9, "");
    assert GeneratedUrls(slug, d)[2] == "https://walmart.com/ip/" + slug + "/" + NatToString(d.walmartNumber) + "";
  }

  /** An amazon URL: "B", then "0" or "1", then six digits. */
  lemma AmazonUrlShape(code: string, n: nat)
    requires (code == "B0" || code == "B1") && 100000 <= n <= 999999
    ensures var url, pre := "https://amazon.com/dp/" + code + NatToString(n), "https://amazon.com/dp/B";
      && pre <= url && |url| == |pre| + 7
      && (url[|pre|] == '0' || url[|pre|] == '1')
      && AllDigits(url[|pre| + 1..])
  {
    Pow10Bounds();
    var pre := "https://amazon.com/dp/B" + [code[1]];
    assert "https://amazon.com/dp/" + code + NatToString(n) == pre + NatToString(n) + "";
    NumberedUrlShape(pre, n, 6, "");
  }

  lemma Pow10Bounds()
    ensures Pow10(5) == 100000 && Pow10(6) == 1000000 && Pow10(7) == 10000000
    ensures Pow10(8) == 100000000 && Pow10(9) == 1000000000
  {
  }

  /** `pre`, then a `k`-digit number, then `suffix`. */
  lemma NumberedUrlShape(pre: string, n: nat, k: nat, suffix: string)
    requires 1 <= k && Pow10(k - 1) <= n < Pow10(k)
    ensures var url := pre + NatToString(n) + suffix;
      && pre <= url && |url| == |pre| + k + |suffix|
      && AllDigits(url[|pre|..|url| - |suffix|]) && url[|url| - |suffix|..] == suffix
  {
    NatToStringLength(n, k);
    var url := pre + NatToString(n) + suffix;
    assert url[|pre|..|url| - |suffix|] == NatToString(n);
  }

  /** Record `j` of shop `i`, under the given id, for the stripped query
      `queryClean` and the URL slug `slug`. */
  function GeneratedProduct(queryClean: string, slug: string, range: PriceRange, i: nat, j: nat, d: Draw, id: int, now: string): Product
    requires i < |SupportedSites| && ValidDraw(d)
  {
    var site := SupportedSites[i];
    Product(id, site, WithSiteSuffix(site, GeneratedName(queryClean, j, d)),
            Some(GeneratedPrice(range, i, d)), DefaultCurrency,
            Some(GeneratedUrls(slug, d)[i]), None, now, Some(d.confidence))
  }

  /** The first `n` records `generate_realistic_products` makes: record `k`
      is record `k % 2` of shop `k / 2`, with id `k + 1`. */
  function GeneratedPrefix(queryClean: string, slug: string, range: PriceRange, draws: seq<Draw>, now: string, n: nat): seq<Product>
    requires ValidDraws(draws) && n <= 6
  {
    if n == 0 then []
    else GeneratedPrefix(queryClean, slug, range, draws, now, n - 1)
         + [GeneratedProduct(queryClean, slug, range, (n - 1) / 2, (n - 1) % 2, draws[n - 1], n, now)]
  }

  /** What `generate_realistic_products` returns. */
  function Generated(query: string, draws: seq<Draw>, now: string): seq<Product>
    requires ValidDraws(draws)
  {
    GeneratedPrefix(Strip(query, Python), Slug(query), CategoryRange(Lower(query)), draws, now, 6)
  }

  lemma {:induction false} GeneratedPrefixAt(queryClean: string, slug: string, range: PriceRange, draws: seq<Draw>, now: string, n: nat, k: nat)
    requires ValidDraws(draws) && k < n <= 6
    ensures |GeneratedPrefix(queryClean, slug, range, draws, now, n)| == n
    ensures GeneratedPrefix(queryClean, slug, range, draws, now, n)[k]
         == GeneratedProduct(queryClean, slug, range, k / 2, k % 2, draws[k], k + 1, now)
  {
    if k < n - 1 {
      GeneratedPrefixAt(queryClean, slug, range, draws, now, n - 1, k);
    } else if n > 1 {
      GeneratedPrefixAt(queryClean, slug, range, draws, now, n - 1, 0);
    }
  }

  /** Appending record `n` to the first `n` records gives the first `n + 1`. */
  lemma GeneratedPrefixStep(queryClean: string, slug: string, range: PriceRange, draws: seq<Draw>, now: string, n: nat, p: Product)
    requires ValidDraws(draws) && n < 6
    requires p == GeneratedProduct(queryClean, slug, range, n / 2, n % 2, draws[n], n + 1, now)
    ensures GeneratedPrefix(queryClean, slug, range, draws, now, n + 1) == GeneratedPrefix(queryClean, slug, range, draws, now, n) + [p]
  {
  }

  /** `generate_realistic_products`: for each shop, two records, with a running id. */
  method GenerateRealisticProducts(query: string, draws: seq<Draw>, now: string) returns (products: seq<Product>)
    requires ValidDraws(draws)
    ensures products == Generated(query, draws, now)
  {
    var queryClean := Strip(query, Python);
    products := [];
    var priceRange := ChooseRange(CategoryPrices, DefaultPriceRange, Lower(query));
    var productId := 1;
    var i := 0;
    while i < |SupportedSites|
      invariant 0 <= i <= |SupportedSites|
      invariant productId == |products| + 1 && |products| == 2 * i
      invariant products == GeneratedPrefix(queryClean, Slug(query), priceRange, draws, now, |products|)
    {
      var site := SupportedSites[i];
      var j := 0;
      while j < 2
        invariant 0 <= j <= 2
        invariant productId == |products| + 1 && |products| == 2 * i + j
        invariant products == GeneratedPrefix(queryClean, Slug(query), priceRange, draws, now, |products|)
      {
        var d := draws[productId - 1];
        var finalPrice := GeneratedPrice(priceRange, i, d);
        var productName := GeneratedName(queryClean, j, d);
        productName := WithSiteSuffix(site, productName);
        var queryUrl := Slug(query);
        var productUrls := GeneratedUrls(queryUrl, d);
        var product := Product(productId, site, productName, Some(finalPrice), DefaultCurrency,
                               Some(productUrls[i]), None, now, Some(d.confidence));
        ghost var n := 2 * i + j;
        assert n / 2 == i && n % 2 == j && productId == n + 1;
        GeneratedPrefixStep(queryClean, queryUrl, priceRange, draws, now, n, product);
        products := products + [product];
        productId := productId + 1;
        j := j + 1;
      }
      i := i + 1;
    }
    assert priceRange == CategoryRange(Lower(query));
  }

  // ---------------------------------------------------------------------------
  // create_mock_products and the endpoint

  /** What `create_mock_products` returns. */
  function MockProducts(db: seq<Entry>, query: string, draws: seq<Draw>, now: string): seq<Product>
    requires ValidDraws(draws)
  {
    var m := FirstMatch(db, Strip(Lower(query), Python));
    if m.Some? && db[m.value].sites != [] then Numbered(Listing(db[m.value].sites), now)
    else Generated(query, draws, now)
  }

  /** `create_mock_products`: find the first matching entry; flatten it, or
      (no match, or an entry with no shops) generate records instead. */
  method CreateMockProducts(db: seq<Entry>, query: string, draws: seq<Draw>, now: string) returns (products: seq<Product>)
    requires ValidDraws(draws)
    ensures products == MockProducts(db, query, draws, now)
  {
    var queryLower := Strip(Lower(query), Python);
    var matched := FindEntry(db, queryLower);
    if matched.Some? && db[matched.value].sites != [] {
      products := FlattenEntry(db[matched.value].sites, now);
    } else {
      products := GenerateRealisticProducts(query, draws, now);
    }
  }

  // ---------------------------------------------------------------------------
  // Properties over all queries and all random draws

  ghost predicate EndsWith(s: string, suffix: string) {
    |suffix| <= |s| && s[|s| - |suffix|..] == suffix
  }

  /** An entry with the three shops in the usual order and two items each,
      every item with a positive price and a URL. */
  ghost predicate UniformEntry(e: Entry) {
    && |e.sites| == |SupportedSites|
    && forall s :: 0 <= s < |e.sites| ==>
         && e.sites[s].site == SupportedSites[s]
         && |e.sites[s].items| == 2
         && forall t :: 0 <= t < 2 ==> e.sites[s].items[t].price > 0 && e.sites[s].items[t].url != []
  }

  /** A record with a positive price, a non-empty URL and a confidence of
      at least 0.85. */
  ghost predicate CompleteRecord(p: Product) {
    && p.price.Some? && p.price.value > 0
    && p.productUrl.Some? && p.productUrl.value != []
    && p.extractionConfidence.Some? && p.extractionConfidence.value >= 0.85
  }

  lemma DatabaseUniform()
    ensures forall k :: 0 <= k < |ProductDatabase| ==> UniformEntry(ProductDatabase[k])
  {
  }

  lemma {:induction false} UniformItemCount(sites: seq<SiteListing>, s: nat)
    requires s <= |sites|
    requires forall t :: 0 <= t < |sites| ==> |sites[t].items| == 2
    ensures ItemCount(sites[..s]) == 2 * s
  {
    if s > 0 {
      assert sites[..s][..s - 1] == sites[..s - 1];
      UniformItemCount(sites, s - 1);
    }
  }

  /** The shop suffix each supported shop gets. */
  lemma SiteSuffixOf(i: nat, name: string)
    requires i < |SupportedSites|
    ensures WithSiteSuffix(SupportedSites[i], name) == name + SiteSuffixes[i]
  {
  }

  /** A generated name starts with the stripped query and ends with the shop's suffix. */
  lemma GeneratedNameFacts(queryClean: string, i: nat, j: nat, d: Draw)
    requires i < |SupportedSites| && ValidDraw(d)
    ensures var name := WithSiteSuffix(SupportedSites[i], GeneratedName(queryClean, j, d));
      queryClean <= name && EndsWith(name, SiteSuffixes[i])
  {
    var name := GeneratedName(queryClean, j, d);
    SiteSuffixOf(i, name);
    var full := name + SiteSuffixes[i];
    assert full[|full| - |SiteSuffixes[i]|..] == SiteSuffixes[i];
    assert queryClean <= name;
  }

  /** The bestbuy and walmart URLs carry the slug. */
  lemma GeneratedUrlFacts(slug: string, i: nat, d: Draw)
    requires 0 < i < |SupportedSites| && ValidDraw(d)
    ensures Occurs(slug, GeneratedUrls(slug, d)[i])
  {
    var url := GeneratedUrls(slug, d)[i];
    if i == 1 {
      var pre := "https://bestbuy.com/site/";
      assert url == pre + slug + ("/" + NatToString(d.bestbuyNumber) + ".p");
      assert url[|pre|..|pre| + |slug|] == slug;
      assert OccursAt(slug, url, |pre|);
    } else {
      var pre := "https://walmart.com/ip/";
      assert url == pre + slug + ("/" + NatToString(d.walmartNumber));
      assert url[|pre|..|pre| + |slug|] == slug;
      assert OccursAt(slug, url, |pre|);
    }
  }

  /** A generated record: its id and shop, currency USD, a name that starts
      with the stripped query and ends with the shop's suffix, a bestbuy or
      walmart URL that contains the slug, a confidence in [0.85, 0.98]. */
  lemma GeneratedProductFacts(queryClean: string, slug: string, range: PriceRange, i: nat, j: nat, d: Draw, id: int, now: string)
    requires i < |SupportedSites| && ValidDraw(d)
    ensures var p := GeneratedProduct(queryClean, slug, range, i, j, d, id, now);
      && p.id == id && p.site == SupportedSites[i] && p.currency == "USD"
      && queryClean <= p.productName
      && EndsWith(p.productName, SiteSuffixes[i])
      && p.productUrl.Some? && p.productUrl.value != [] && (i > 0 ==> Occurs(slug, p.productUrl.value))
      && p.extractionConfidence.Some? && 0.85 <= p.extractionConfidence.value <= 0.98
  {
    var urls := GeneratedUrls(slug, d);
    GeneratedNameFacts(queryClean, i, j, d);
    assert |urls[i]| > 0;
    if i > 0 {
      GeneratedUrlFacts(slug, i, d);
    }
  }

  /** `generate_realistic_products` returns six records: two per shop, the
      shops in order, ids 1 to 6. */
  lemma GeneratedShape(query: string, draws: seq<Draw>, now: string, k: nat)
    requires ValidDraws(draws) && k < 6
    ensures var products := Generated(query, draws, now);
      && |products| == 6
      && products[k].id == k + 1
      && products[k].site == SupportedSites[k / 2]
      && products[k].currency == "USD"
      && Strip(query, Python) <= products[k].productName
      && EndsWith(products[k].productName, SiteSuffixes[k / 2])
      && CompleteRecord(products[k])
      && (k >= 2 ==> Occurs(Slug(query), products[k].productUrl.value))
  {
    var range := CategoryRange(Lower(query));
    GeneratedPrefixAt(Strip(query, Python), Slug(query), range, draws, now, 6, k);
    CategoryRangeBounds(Lower(query));
    GeneratedPricePositive(range, k / 2, draws[k]);
    GeneratedProductFacts(Strip(query, Python), Slug(query), range, k / 2, k % 2, draws[k], k + 1, now);
  }

  /** Flattening a uniform entry yields six records: ids 1 to 6, two per
      shop with the shops in order, currency USD, a positive price, a
      non-empty URL and a confidence of at least 0.85. */
  lemma UniformEntryShape(e: Entry, now: string)
    requires UniformEntry(e)
    ensures var products := Numbered(Listing(e.sites), now);
      && |products| == 6
      && forall k :: 0 <= k < 6 ==>
           products[k].id == k + 1 && products[k].site == SupportedSites[k / 2] && products[k].currency == "USD"
             && CompleteRecord(products[k])
  {
    var sites := e.sites;
    var products := Numbered(Listing(sites), now);
    UniformItemCount(sites, 3);
    assert sites[..3] == sites;
    ListingLength(sites);
    forall k | 0 <= k < 6
      ensures |products| == 6
      ensures products[k].id == k + 1 && products[k].site == SupportedSites[k / 2] && products[k].currency == "USD"
             && CompleteRecord(products[k])
    {
      UniformItemCount(sites, k / 2);
      MatchedProductAt(sites, k / 2, k % 2, now);
    }
  }

  /** With a table of uniform entries, every search, matched or not, yields
      six records: ids 1 to 6, two per shop with the shops in order, currency
      USD, a positive price, a non-empty URL and a confidence of at least
      0.85. */
  lemma UniformTableShape(db: seq<Entry>, query: string, draws: seq<Draw>, now: string)
    requires ValidDraws(draws)
    requires forall k :: 0 <= k < |db| ==> UniformEntry(db[k])
    ensures var products := MockProducts(db, query, draws, now);
      && |products| == 6
      && forall k :: 0 <= k < 6 ==>
           products[k].id == k + 1 && products[k].site == SupportedSites[k / 2] && products[k].currency == "USD"
             && CompleteRecord(products[k])
  {
    var products := MockProducts(db, query, draws, now);
    var m := FirstMatch(db, Strip(Lower(query), Python));
    if m.Some? && db[m.value].sites != [] {
      UniformEntryShape(db[m.value], now);
    } else {
      assert products == Generated(query, draws, now);
      GeneratedListShape(query, draws, now);
    }
  }

  lemma GeneratedListShape(query: string, draws: seq<Draw>, now: string)
    requires ValidDraws(draws)
    ensures var products := Generated(query, draws, now);
      && |products| == 6
      && forall k :: 0 <= k < 6 ==>
           products[k].id == k + 1 && products[k].site == SupportedSites[k / 2] && products[k].currency == "USD"
             && CompleteRecord(products[k])
  {
    var products := Generated(query, draws, now);
    GeneratedShape(query, draws, now, 0);
    forall k | 0 <= k < 6
      ensures products[k].id == k + 1 && products[k].site == SupportedSites[k / 2] && products[k].currency == "USD"
             && CompleteRecord(products[k])
    {
      GeneratedShape(query, draws, now, k);
    }
  }

  /** Every search against the product table yields six records: ids 1 to 6,
      two per shop with the shops in order, currency USD, a positive price, a
      non-empty URL and a confidence of at least 0.85. */
  lemma MockProductsShape(query: string, draws: seq<Draw>, now: string)
    requires ValidDraws(draws)
    ensures var products := MockProducts(ProductDatabase, query, draws, now);
      && |products| == 6
      && forall k :: 0 <= k < 6 ==>
           products[k].id == k + 1 && products[k].site == SupportedSites[k / 2] && products[k].currency == "USD"
             && CompleteRecord(products[k])
  {
    DatabaseUniform();
    UniformTableShape(ProductDatabase, query, draws, now);
  }

  /** Sorting by price keeps every record complete. */
  lemma SortKeepsComplete(products: seq<Product>)
    requires forall k :: 0 <= k < |products| ==> CompleteRecord(products[k])
    ensures |SortByPrice(products)| == |products|
    ensures forall p :: p in SortByPrice(products) ==> CompleteRecord(p)
  {
    var sorted := SortByPrice(products);
    assert |multiset(sorted)| == |multiset(products)|;
    forall p | p in sorted
      ensures CompleteRecord(p)
    {
      assert p in multiset(products);
      var k :| 0 <= k < |products| && products[k] == p;
    }
  }

  /** The price-sorted records of every search are six complete records. */
  lemma SortedRecordsComplete(query: string, draws: seq<Draw>, now: string)
    requires ValidDraws(draws)
    ensures var sorted := SortByPrice(MockProducts(ProductDatabase, query, draws, now));
      && |sorted| == 6
      && forall p :: p in sorted ==> CompleteRecord(p)
  {
    MockProductsShape(query, draws, now);
    SortKeepsComplete(MockProducts(ProductDatabase, query, draws, now));
  }

  /** A pattern holding a character the text lacks does not occur in it. */
  lemma MissingCharNotContained(s: string, p: string, c: char)
    requires c in p && c !in s
    ensures !Contains(s, p)
  {
    ContainsIsOccurs(s, p);
  }

  lemma DatabaseKeys()
    ensures |ProductDatabase| == 5
    ensures ProductDatabase[0].key == "sony wh-1000xm5" && ProductDatabase[1].key == "iphone 15 pro"
    ensures ProductDatabase[3].key == "airpods pro"
  {
  }

  lemma SonyKeyParts()
    ensures "sony wh-1000xm5" == "sony" + [' '] + "wh-1000xm5"
    ensures NoSpace("sony", Python) && NoSpace("wh-1000xm5", Python)
  {
  }

  lemma SonyKeyChars()
    ensures 'y' in "sony" && 'y' in "sony wh-1000xm5" && 'w' in "wh-1000xm5"
    ensures 'y' !in "airpods pro" && 'w' !in "airpods pro"
  {
  }

  lemma IphoneKeyParts()
    ensures "iphone 15 pro" == "iphone" + [' '] + "15 pro"
    ensures "15 pro" == "15" + [' '] + "pro"
    ensures NoSpace("iphone", Python) && NoSpace("15", Python) && NoSpace("pro", Python)
  {
  }

  lemma SplitSonyKey()
    ensures Split("sony wh-1000xm5") == ["sony", "wh-1000xm5"]
  {
    SonyKeyParts();
    SplitWordSpace("sony", "wh-1000xm5");
    SplitOneWord("wh-1000xm5");
  }

  lemma SplitIphoneKey()
    ensures Split("iphone 15 pro") == ["iphone", "15", "pro"]
  {
    IphoneKeyParts();
    SplitWordSpace("iphone", "15 pro");
    SplitWordSpace("15", "pro");
    SplitOneWord("pro");
  }

  lemma SonyKeyMissesAirpodsPro()
    ensures !KeyMatches("sony wh-1000xm5", "airpods pro")
  {
    SonyKeyChars();
    SplitSonyKey();
    MissingCharNotContained("airpods pro", "sony wh-1000xm5", 'y');
    MissingCharNotContained("airpods pro", "sony", 'y');
    MissingCharNotContained("airpods pro", "wh-1000xm5", 'w');
  }

  lemma IphoneKeyMatchesAirpodsPro()
    ensures KeyMatches("iphone 15 pro", "airpods pro")
  {
    SplitIphoneKey();
    ProInAirpodsPro();
  }

  lemma ProInAirpodsPro()
    ensures Contains("airpods pro", "pro")
  {
    assert OccursAt("pro", "airpods pro", 8);
    ContainsIsOccurs("airpods pro", "pro");
  }

  lemma AirpodsProLower()
    ensures Lower("airpods pro") == "airpods pro"
  {
    LowerNoCapitals("airpods pro");
  }

  lemma AirpodsProStripped()
    ensures Strip("airpods pro", Python) == "airpods pro"
  {
    StripUnpadded("airpods pro", Python);
  }

  lemma AirpodsProNormalised()
    ensures Strip(Lower("airpods pro"), Python) == "airpods pro"
  {
    AirpodsProLower();
    AirpodsProStripped();
  }

  /** With the first key missing and the second matching, the second entry is chosen. */
  lemma SecondEntryChosen(db: seq<Entry>, queryLower: string)
    requires |db| >= 2 && !KeyMatches(db[0].key, queryLower) && KeyMatches(db[1].key, queryLower)
    ensures FirstMatch(db, queryLower) == Some(1)
  {
    assert db[1..][0] == db[1];
  }

  /** The word rule lets an earlier entry shadow a later exact key: "airpods
      pro" selects the "iphone 15 pro" entry, through its word "pro". */
  lemma AirpodsProSelectsIphone()
    ensures var m := FirstMatch(ProductDatabase, Strip(Lower("airpods pro"), Python));
      m == Some(1) && ProductDatabase[m.value].key == "iphone 15 pro"
  {
    AirpodsProNormalised();
    DatabaseKeys();
    SonyKeyMissesAirpodsPro();
    IphoneKeyMatchesAirpodsPro();
    SecondEntryChosen(ProductDatabase, "airpods pro");
  }

  // ---------------------------------------------------------------------------
  // The endpoint

  /** `search_products`: the records for the query, sorted by price, wrapped
      in a completed response. `elapsedMs` is the measured search time. */
  method SearchProducts(request: SearchRequest, draws: seq<Draw>, now: string, elapsedMs: int) returns (response: SearchResponse)
    requires ValidDraws(draws)
    ensures response.results == SortByPrice(MockProducts(ProductDatabase, request.query, draws, now))
    ensures SortedByPrice(response.results)
    ensures multiset(response.results) == multiset(MockProducts(ProductDatabase, request.query, draws, now))
    ensures response.searchId == 1 && response.query == request.query && response.status == "completed"
    ensures response.totalFound == |response.results| && response.freshResults == |response.results|
    ensures response.cachedResults == 0 && response.sitesSearched == SupportedSites
    ensures response.searchTimeMs == Some(elapsedMs) && response.errorMessage == None
    ensures response.totalFound == 6
    ensures forall p :: p in response.results ==> CompleteRecord(p)
  {
    var products := CreateMockProducts(ProductDatabase, request.query, draws, now);
    SortedRecordsComplete(request.query, draws, now);
    products := SortByPrice(products);
    response := SearchResponse(1, request.query, "completed", products, |products|, Some(elapsedMs),
                               SupportedSites, 0, |products|, None);
  }

}
