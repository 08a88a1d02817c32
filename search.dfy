/**
 * The listing search of core/views.py (`search_listings`), the featured list
 * of the home page and the related listings of the detail page, over the
 * listings table given as a sequence.
 *
 * Request parameters arrive already parsed: a text parameter is "" when it is
 * absent or empty, a numeric one is None when it is absent or empty (either
 * way the source's `if value:` guard skips the filter). Prices are in
 * hundredths of a pound, like `Listing.price`.
 */
module Search {
  import opened Wrappers
  import opened Catalog
  import opened Seqs
  import opened Text

  datatype Criteria = Criteria(
    q: string,
    make: Option<int>,
    model: Option<int>,
    minPrice: Option<int>,
    maxPrice: Option<int>,
    minYear: Option<int>,
    maxYear: Option<int>,
    governorate: string,
    transmission: string,
    fuelType: string,
    maxMileage: Option<int>,
    color: string,
    sellerType: string,
    sort: Option<string>)

  /** No parameter at all: every active listing, newest first. */
  const NoCriteria := Criteria("", None, None, None, None, None, None, "", "", "", None, "", "", None)

  datatype SortKey = PriceLow | PriceHigh | MileageLow | YearNew | MostViewed | Newest

  const SortNames: seq<string> := ["price_low", "price_high", "mileage_low", "year_new", "views"]

  /** The `sort` parameter; a missing or unknown value means newest first. */
  function SortKeyOf(sort: Option<string>): (k: SortKey)
    ensures k == Newest <==> sort.None? || sort.value !in SortNames
    ensures sort == Some("price_low") ==> k == PriceLow
    ensures sort == Some("price_high") ==> k == PriceHigh
    ensures sort == Some("mileage_low") ==> k == MileageLow
    ensures sort == Some("year_new") ==> k == YearNew
    ensures sort == Some("views") ==> k == MostViewed
  {
    match sort
    case None => Newest
    case Some(s) =>
      if s == "price_low" then PriceLow
      else if s == "price_high" then PriceHigh
      else if s == "mileage_low" then MileageLow
      else if s == "year_new" then YearNew
      else if s == "views" then MostViewed
      else Newest
  }

  /** `a` may come before `b` under the ordering the sort key selects. */
  predicate Before(k: SortKey, a: Listing, b: Listing) {
    match k
    case PriceLow => a.price <= b.price
    case PriceHigh => a.price >= b.price
    case MileageLow => Mileage(a) <= Mileage(b)
    case YearNew => a.trim.year >= b.trim.year
    case MostViewed => a.views >= b.views
    case Newest => a.createdAt >= b.createdAt
  }

  function Order(k: SortKey): (Listing, Listing) -> bool {
    (a, b) => Before(k, a, b)
  }

  /** `order_by` with the selected key; rows with equal keys keep their relative order. */
  function SortListings(s: seq<Listing>, k: SortKey): (r: seq<Listing>)
    ensures multiset(r) == multiset(s) && |r| == |s|
    ensures forall i, j :: 0 <= i < j < |r| ==> Before(k, r[i], r[j])
  {
    assert Total(Order(k)) && Transitive(Order(k));
    var r := SortBy(s, Order(k));
    assert forall i, j :: 0 <= i < j < |r| ==> Order(k)(r[i], r[j]);
    r
  }

  /** The keyword occurs, ignoring case, in a model name, a make name or the description. */
  predicate KeywordHit(q: string, l: Listing) {
    || ContainsCI(l.trim.model.nameEn, q)
    || ContainsCI(l.trim.model.nameAr, q)
    || ContainsCI(l.trim.model.make.nameEn, q)
    || ContainsCI(l.trim.model.make.nameAr, q)
    || ContainsCI(l.description, q)
  }

  /** The keyword, make and model criteria that are present hold. */
  predicate CatalogOk(c: Criteria, l: Listing) {
    && (c.q == "" || KeywordHit(c.q, l))
    && (c.make.None? || l.trim.model.make.id == c.make.value)
    && (c.model.None? || l.trim.model.id == c.model.value)
  }

  /** The price and year bounds that are present hold, both ends inclusive. */
  predicate RangesOk(c: Criteria, l: Listing) {
    && (c.minPrice.None? || c.minPrice.value <= l.price)
    && (c.maxPrice.None? || l.price <= c.maxPrice.value)
    && (c.minYear.None? || c.minYear.value <= l.trim.year)
    && (c.maxYear.None? || l.trim.year <= c.maxYear.value)
  }

  /** Governorate, transmission and fuel type match exactly, the odometer is within the ceiling, the colour matches ignoring case. */
  predicate AttributesOk(c: Criteria, l: Listing) {
    PlaceAndSpecOk(c, l) && ConditionOk(c, l)
  }

  predicate PlaceAndSpecOk(c: Criteria, l: Listing) {
    && (c.governorate == "" || l.location == c.governorate)
    && (c.transmission == "" || l.trim.transmission == c.transmission)
    && (c.fuelType == "" || l.trim.fuelType == c.fuelType)
  }

  predicate ConditionOk(c: Criteria, l: Listing) {
    && (c.maxMileage.None? || l.odometer <= c.maxMileage.value)
    && (c.color == "" || EqualsCI(l.color, c.color))
  }

  /** `dealer` keeps dealers, `private` keeps the others, any other value keeps everyone. */
  predicate SellerOk(c: Criteria, l: Listing) {
    && (c.sellerType != "dealer" || l.seller.isDealer)
    && (c.sellerType != "private" || !l.seller.isDealer)
  }

  /** The listing passes every criterion that is present; absent criteria impose nothing. */
  predicate Matches(c: Criteria, l: Listing) {
    CatalogOk(c, l) && RangesOk(c, l) && AttributesOk(c, l) && SellerOk(c, l)
  }

  function NarrowByCatalog(s: seq<Listing>, c: Criteria): (r: seq<Listing>)
    ensures forall l :: Occ(r, l) == if CatalogOk(c, l) then Occ(s, l) else 0
  {
    var s1 := FilterIf(s, c.q != "", (l: Listing) => KeywordHit(c.q, l));
    var s2 := FilterIf(s1, c.make.Some?, (l: Listing) => c.make.Some? && l.trim.model.make.id == c.make.value);
    FilterIf(s2, c.model.Some?, (l: Listing) => c.model.Some? && l.trim.model.id == c.model.value)
  }

  function NarrowByRanges(s: seq<Listing>, c: Criteria): (r: seq<Listing>)
    ensures forall l :: Occ(r, l) == if RangesOk(c, l) then Occ(s, l) else 0
  {
    var s1 := FilterIf(s, c.minPrice.Some?, (l: Listing) => c.minPrice.Some? && c.minPrice.value <= l.price);
    var s2 := FilterIf(s1, c.maxPrice.Some?, (l: Listing) => c.maxPrice.Some? && l.price <= c.maxPrice.value);
    var s3 := FilterIf(s2, c.minYear.Some?, (l: Listing) => c.minYear.Some? && c.minYear.value <= l.trim.year);
    FilterIf(s3, c.maxYear.Some?, (l: Listing) => c.maxYear.Some? && l.trim.year <= c.maxYear.value)
  }

  function NarrowByAttributes(s: seq<Listing>, c: Criteria): (r: seq<Listing>)
    ensures forall l :: Occ(r, l) == if AttributesOk(c, l) then Occ(s, l) else 0
  {
    NarrowByCondition(NarrowByPlaceAndSpec(s, c), c)
  }

  function NarrowByPlaceAndSpec(s: seq<Listing>, c: Criteria): (r: seq<Listing>)
    ensures forall l :: Occ(r, l) == if PlaceAndSpecOk(c, l) then Occ(s, l) else 0
  {
    var s1 := FilterIf(s, c.governorate != "", (l: Listing) => l.location == c.governorate);
    var s2 := FilterIf(s1, c.transmission != "", (l: Listing) => l.trim.transmission == c.transmission);
    FilterIf(s2, c.fuelType != "", (l: Listing) => l.trim.fuelType == c.fuelType)
  }

  function NarrowByCondition(s: seq<Listing>, c: Criteria): (r: seq<Listing>)
    ensures forall l :: Occ(r, l) == if ConditionOk(c, l) then Occ(s, l) else 0
  {
    var s1 := FilterIf(s, c.maxMileage.Some?, (l: Listing) => c.maxMileage.Some? && Mileage(l) <= c.maxMileage.value);
    FilterIf(s1, c.color != "", (l: Listing) => EqualsCI(l.color, c.color))
  }

  function NarrowBySeller(s: seq<Listing>, c: Criteria): (r: seq<Listing>)
    ensures forall l :: Occ(r, l) == if SellerOk(c, l) then Occ(s, l) else 0
  {
    if c.sellerType == "dealer" then FilterIf(s, true, (l: Listing) => l.seller.isDealer)
    else FilterIf(s, c.sellerType == "private", (l: Listing) => !l.seller.isDealer)
  }

  /**
   * `search_listings`: the active listings, narrowed by each present
   * criterion in turn, then ordered by the requested key. The mileage filter
   * and sort use the odometer, which `Listing.mileage` aliases.
   */
  function Search(listings: seq<Listing>, c: Criteria): (r: seq<Listing>)
    ensures forall l :: Occ(r, l) == if IsActive(l) && Matches(c, l) then Occ(listings, l) else 0
    ensures forall i, j :: 0 <= i < j < |r| ==> Before(SortKeyOf(c.sort), r[i], r[j])
  {
    var active := FilterIf(listings, true, IsActive);
    var narrowed := NarrowBySeller(NarrowByAttributes(NarrowByRanges(NarrowByCatalog(active, c), c), c), c);
    SortListings(narrowed, SortKeyOf(c.sort))
  }

  /**
   * The search as the source writes it: `mileage` is a Python property, not a
   * column, so the ORM refuses both `filter(mileage__lte=...)` and
   * `order_by('mileage')` and the request fails.
   */
  function SearchAsWritten(listings: seq<Listing>, c: Criteria): (r: Result<seq<Listing>, string>)
    ensures r.Failure? <==> c.maxMileage.Some? || SortKeyOf(c.sort) == MileageLow
    ensures r.Success? ==> r.value == Search(listings, c)
  {
    if c.maxMileage.Some? || SortKeyOf(c.sort) == MileageLow then
      Failure("FieldError: Cannot resolve keyword 'mileage' into field")
    else
      Success(Search(listings, c))
  }

  /** A seller with no documents, used in the example below. */
  const SampleSeller := User(1, "seller", "seller@example.com", None, false, "", "", false, false)

  const SampleTrim := CarTrim(1, CarModel(1, Make(1, "Toyota", "Toyota"), "Corolla", "Corolla", "Sedan"),
                              "1.6L", 2020, 1600, 120, "AUTO", "PETROL")

  const SampleListing := Listing(1, SampleSeller, SampleTrim, 50000000, 60000, "White", "clean",
                                 "CAIRO", [], Active, 0, None, 0, 0)

  /**
   * One active listing with 60000 km and a ceiling of 100000 km: the intended
   * search returns it, the search as written fails.
   */
  lemma MaxMileageFailsAsWritten()
    ensures SearchAsWritten([SampleListing], NoCriteria.(maxMileage := Some(100000))).Failure?
    ensures Search([SampleListing], NoCriteria.(maxMileage := Some(100000))) == [SampleListing]
  {
    var c := NoCriteria.(maxMileage := Some(100000));
    var r := Search([SampleListing], c);
    assert Matches(c, SampleListing);
    assert multiset(r)[SampleListing] == 1;
    assert forall x :: x != SampleListing ==> multiset(r)[x] == 0;
    assert multiset(r) == multiset([SampleListing]);
    SingletonFromMultiset(r, SampleListing);
  }

  lemma SingletonFromMultiset(r: seq<Listing>, x: Listing)
    requires multiset(r) == multiset([x])
    ensures r == [x]
  {
    assert |r| == |multiset(r)| == 1;
    assert r[0] in multiset(r);
  }

  /** The `-created_at` ordering of the listing model. */
  function SortNewest(s: seq<Listing>): (r: seq<Listing>)
    ensures multiset(r) == multiset(s) && |r| == |s|
    ensures forall i, j :: 0 <= i < j < |r| ==> r[i].createdAt >= r[j].createdAt
  {
    SortListings(s, Newest)
  }

  /**
   * The first `n` listings of `s`, newest first: no listing left out is newer
   * than one that is shown.
   */
  function NewestFirst(s: seq<Listing>, n: nat): (r: seq<Listing>)
    ensures |r| == if |s| < n then |s| else n
    ensures forall l :: l in r ==> l in s
    ensures multiset(r) <= multiset(s)
    ensures forall i, j :: 0 <= i < j < |r| ==> r[i].createdAt >= r[j].createdAt
    ensures forall l, x :: l in s && l !in r && x in r ==> x.createdAt >= l.createdAt
  {
    var sorted := SortNewest(s);
    var r := Take(sorted, n);
    TakeKeepsNewest(s, sorted, r);
    r
  }

  lemma TakeKeepsNewest(s: seq<Listing>, sorted: seq<Listing>, r: seq<Listing>)
    requires multiset(sorted) == multiset(s)
    requires forall i, j :: 0 <= i < j < |sorted| ==> sorted[i].createdAt >= sorted[j].createdAt
    requires r <= sorted
    ensures multiset(r) <= multiset(s)
    ensures forall i, j :: 0 <= i < j < |r| ==> r[i].createdAt >= r[j].createdAt
    ensures forall l :: l in r ==> l in s
    ensures forall l, x :: l in s && l !in r && x in r ==> x.createdAt >= l.createdAt
  {
    PrefixMultiset(r, sorted);
    forall l | l in r ensures l in s {
      assert l in multiset(sorted);
    }
    forall l, x | l in s && l !in r && x in r ensures x.createdAt >= l.createdAt {
      assert l in multiset(sorted);
      var k :| 0 <= k < |sorted| && sorted[k] == l;
      var i :| 0 <= i < |r| && r[i] == x;
      assert sorted[i] == x;
      assert forall j :: 0 <= j < |r| ==> sorted[j] == r[j] && r[j] in r;
      assert i < k;
    }
  }

  /** `home`: the eight newest active listings, or all of them when there are fewer. */
  function Featured(listings: seq<Listing>): (r: seq<Listing>)
    ensures |r| == if |Filter(listings, IsActive)| < 8 then |Filter(listings, IsActive)| else 8
    ensures multiset(r) <= multiset(Filter(listings, IsActive))
    ensures forall l :: l in r ==> l in listings && IsActive(l)
    ensures forall i, j :: 0 <= i < j < |r| ==> r[i].createdAt >= r[j].createdAt
    ensures forall l, x :: l in listings && IsActive(l) && l !in r && x in r ==> x.createdAt >= l.createdAt
  {
    FilterMembership(listings, IsActive);
    NewestFirst(Filter(listings, IsActive), 8)
  }

  predicate IsRelated(of: Listing, l: Listing) {
    l.trim.model.make.id == of.trim.model.make.id && IsActive(l) && l.id != of.id
  }

  function RelatedTo(of: Listing): Listing -> bool {
    (l: Listing) => IsRelated(of, l)
  }

  /** The detail page's related listings: the four newest other active listings of the same make, or all when fewer. */
  function Related(listings: seq<Listing>, of: Listing): (r: seq<Listing>)
    ensures |r| == if |Filter(listings, RelatedTo(of))| < 4 then |Filter(listings, RelatedTo(of))| else 4
    ensures multiset(r) <= multiset(Filter(listings, RelatedTo(of)))
    ensures forall l :: l in r ==> l in listings && IsRelated(of, l)
    ensures forall i, j :: 0 <= i < j < |r| ==> r[i].createdAt >= r[j].createdAt
    ensures forall l, x :: l in listings && IsRelated(of, l) && l !in r && x in r ==> x.createdAt >= l.createdAt
  {
    FilterMembership(listings, RelatedTo(of));
    NewestFirst(Filter(listings, RelatedTo(of)), 4)
  }
}
