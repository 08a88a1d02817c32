/**
 * The listings table as the views of core/views.py and core/admin_views.py
 * change it: the detail page and the phone reveal bump their counters, a
 * seller creates a listing that waits in PENDING, and a superuser approves
 * or rejects it. The dashboards read the table.
 */
module Store {
  import opened Wrappers
  import opened Catalog
  import opened Seqs
  import opened Search
  import opened Moderation
  import opened Forms
  import opened Images

  /** A page, or the 404 response of `get_object_or_404`. */
  datatype Page<T> = Found(value: T) | NotFound

  datatype DetailPage = DetailPage(listing: Listing, related: seq<Listing>)

  /** Where an approve or reject request ends: the admin dashboard, a 404, or the login page. */
  datatype AdminOutcome = ToAdminDashboard | AdminNotFound | ToLogin

  /** Where a create request ends: the login page, the form again with its errors, or the seller dashboard. */
  datatype CreateOutcome = CreateToLogin | Invalid(errors: seq<FormError>) | ToDashboard

  /** `superuser_required`: a signed-in superuser. */
  predicate SuperuserRequired(user: Option<User>) {
    user.Some? && user.value.isSuperuser
  }

  /** `update(views=F('views') + 1)` on the row at `i`. */
  function BumpViews(rows: seq<Listing>, i: nat): seq<Listing>
    requires i < |rows|
  {
    rows[i := rows[i].(views := rows[i].views + 1)]
  }

  /** `update(phone_clicks=F('phone_clicks') + 1)` on the row at `i`. */
  function BumpPhoneClicks(rows: seq<Listing>, i: nat): seq<Listing>
    requires i < |rows|
  {
    rows[i := rows[i].(phoneClicks := rows[i].phoneClicks + 1)]
  }

  function OwnedBy(sellerId: int): Listing -> bool {
    (l: Listing) => l.seller.id == sellerId
  }

  function Views(l: Listing): int { l.views }

  function PhoneClicks(l: Listing): int { l.phoneClicks }

  datatype SellerStats = SellerStats(
    total: nat, active: nat, pending: nat, sold: nat, totalViews: int, totalPhoneClicks: int)

  datatype SellerView = SellerView(listings: seq<Listing>, stats: SellerStats)

  /** The seller's own listings, newest first. */
  function SellerListings(rows: seq<Listing>, sellerId: int): (r: seq<Listing>)
    ensures forall l :: Occ(r, l) == if l.seller.id == sellerId then Occ(rows, l) else 0
    ensures forall i, j :: 0 <= i < j < |r| ==> r[i].createdAt >= r[j].createdAt
    ensures multiset(r) == multiset(Filter(rows, OwnedBy(sellerId)))
  {
    var r := SortNewest(Filter(rows, OwnedBy(sellerId)));
    OwnedOcc(rows, sellerId, r);
    r
  }

  lemma OwnedOcc(rows: seq<Listing>, sellerId: int, r: seq<Listing>)
    requires multiset(r) == multiset(Filter(rows, OwnedBy(sellerId)))
    ensures forall l :: Occ(r, l) == if l.seller.id == sellerId then Occ(rows, l) else 0
  {
    FilterOcc(rows, OwnedBy(sellerId));
    forall l ensures Occ(r, l) == if l.seller.id == sellerId then Occ(rows, l) else 0 {
      assert Occ(r, l) == Occ(Filter(rows, OwnedBy(sellerId)), l);
      assert OwnedBy(sellerId)(l) == (l.seller.id == sellerId);
    }
  }

  /**
   * `seller_dashboard`: the seller's own listings with status counters and
   * the totals of their view and phone-reveal counters.
   */
  function SellerDashboard(rows: seq<Listing>, sellerId: int): (v: SellerView)
    ensures v.listings == SellerListings(rows, sellerId)
    ensures v.stats.total == |v.listings| == |Filter(rows, OwnedBy(sellerId))|
    ensures v.stats.active == |Filter(Filter(rows, OwnedBy(sellerId)), IsActive)|
    ensures v.stats.pending == |Filter(Filter(rows, OwnedBy(sellerId)), IsPending)|
    ensures v.stats.sold == |Filter(Filter(rows, OwnedBy(sellerId)), IsSold)|
    ensures v.stats.active + v.stats.pending + v.stats.sold <= v.stats.total
    ensures v.stats.totalViews == SumOf(Filter(rows, OwnedBy(sellerId)), Views)
    ensures v.stats.totalPhoneClicks == SumOf(Filter(rows, OwnedBy(sellerId)), PhoneClicks)
  {
    var owned := Filter(rows, OwnedBy(sellerId));
    var listings := SellerListings(rows, sellerId);
    assert |listings| == |owned| by {
      assert |multiset(listings)| == |multiset(owned)|;
    }
    SumPermutation(listings, owned, Views);
    SumPermutation(listings, owned, PhoneClicks);
    FilterExclusiveLengths(owned, IsActive, IsPending, IsSold);
    SellerView(listings, SellerStats(
      |listings|, |Filter(owned, IsActive)|, |Filter(owned, IsPending)|, |Filter(owned, IsSold)|,
      SumOf(listings, Views), SumOf(listings, PhoneClicks)))
  }

  /** One detail-page view adds exactly one to its seller's view total and nothing to anyone else's. */
  lemma ViewCountedOnce(rows: seq<Listing>, i: nat, sellerId: int)
    requires i < |rows|
    ensures SellerDashboard(BumpViews(rows, i), sellerId).stats.totalViews ==
      SellerDashboard(rows, sellerId).stats.totalViews + (if rows[i].seller.id == sellerId then 1 else 0)
    ensures SellerDashboard(BumpViews(rows, i), sellerId).stats.totalPhoneClicks ==
      SellerDashboard(rows, sellerId).stats.totalPhoneClicks
  {
    var y := rows[i].(views := rows[i].views + 1);
    FilterSumUpdate(rows, i, y, OwnedBy(sellerId), Views);
    FilterSumUpdate(rows, i, y, OwnedBy(sellerId), PhoneClicks);
  }

  /** One phone reveal adds exactly one to its seller's click total and leaves the view total alone. */
  lemma PhoneClickCountedOnce(rows: seq<Listing>, i: nat, sellerId: int)
    requires i < |rows|
    ensures SellerDashboard(BumpPhoneClicks(rows, i), sellerId).stats.totalPhoneClicks ==
      SellerDashboard(rows, sellerId).stats.totalPhoneClicks + (if rows[i].seller.id == sellerId then 1 else 0)
    ensures SellerDashboard(BumpPhoneClicks(rows, i), sellerId).stats.totalViews ==
      SellerDashboard(rows, sellerId).stats.totalViews
  {
    var y := rows[i].(phoneClicks := rows[i].phoneClicks + 1);
    FilterSumUpdate(rows, i, y, OwnedBy(sellerId), Views);
    FilterSumUpdate(rows, i, y, OwnedBy(sellerId), PhoneClicks);
  }

  /** The related listings read after the view bump are those before it: the viewed listing is never among them. */
  lemma BumpKeepsRelated(rows: seq<Listing>, i: nat, of: Listing)
    requires i < |rows| && rows[i].id == of.id
    ensures Related(BumpViews(rows, i), of) == Related(rows, of)
  {
    FilterUpdateRejected(rows, i, rows[i].(views := rows[i].views + 1), RelatedTo(of));
  }

  class ListingTable {
    var rows: seq<Listing>
    var nextId: int

    /** Primary keys are distinct and below the next key the table hands out. */
    ghost predicate Valid()
      reads this
    {
      DistinctIds(rows) && forall i :: 0 <= i < |rows| ==> rows[i].id < nextId
    }

    constructor ()
      ensures Valid() && rows == [] && nextId == 1
    {
      rows := [];
      nextId := 1;
    }

    /**
     * `listing_detail`: an ACTIVE listing is shown as it was read, its view
     * counter goes up by one, and up to four related listings come with it.
     */
    method ListingDetail(pk: int) returns (page: Page<DetailPage>)
      requires Valid()
      modifies this
      ensures Valid() && nextId == old(nextId)
      ensures Lookup(old(rows), pk, Active).None? ==> page == NotFound && rows == old(rows)
      ensures Lookup(old(rows), pk, Active).Some? ==>
        var i := Lookup(old(rows), pk, Active).value;
        rows == BumpViews(old(rows), i) &&
        page == Found(DetailPage(old(rows)[i], Related(old(rows), old(rows)[i])))
    {
      var found := Lookup(rows, pk, Active);
      if found.None? {
        return NotFound;
      }
      var i := found.value;
      var listing := rows[i];
      BumpKeepsRelated(rows, i, listing);
      rows := BumpViews(rows, i);
      page := Found(DetailPage(listing, Related(rows, listing)));
    }

    /** `reveal_phone`: an ACTIVE listing's seller phone number, counting the reveal. */
    method RevealPhone(pk: int) returns (page: Page<Option<string>>)
      requires Valid()
      modifies this
      ensures Valid() && nextId == old(nextId)
      ensures Lookup(old(rows), pk, Active).None? ==> page == NotFound && rows == old(rows)
      ensures Lookup(old(rows), pk, Active).Some? ==>
        var i := Lookup(old(rows), pk, Active).value;
        rows == BumpPhoneClicks(old(rows), i) && page == Found(old(rows)[i].seller.phoneNumber)
    {
      var found := Lookup(rows, pk, Active);
      if found.None? {
        return NotFound;
      }
      var i := found.value;
      var listing := rows[i];
      rows := BumpPhoneClicks(rows, i);
      page := Found(listing.seller.phoneNumber);
    }

    /** The shared body of `approve_listing` and `reject_listing`. */
    method ModerateAs(user: Option<User>, pk: int, newStatus: string) returns (o: AdminOutcome)
      requires Valid()
      modifies this
      ensures Valid() && nextId == old(nextId)
      ensures !SuperuserRequired(user) ==> o == ToLogin && rows == old(rows)
      ensures SuperuserRequired(user) && Moderate(old(rows), pk, newStatus).None? ==>
        o == AdminNotFound && rows == old(rows)
      ensures SuperuserRequired(user) && Moderate(old(rows), pk, newStatus).Some? ==>
        o == ToAdminDashboard && rows == Moderate(old(rows), pk, newStatus).value
    {
      if !SuperuserRequired(user) {
        return ToLogin;
      }
      var next := Moderate(rows, pk, newStatus);
      if next.None? {
        return AdminNotFound;
      }
      rows := next.value;
      o := ToAdminDashboard;
    }

    /** `approve_listing` */
    method ApproveListing(user: Option<User>, pk: int) returns (o: AdminOutcome)
      requires Valid()
      modifies this
      ensures Valid() && nextId == old(nextId)
      ensures !SuperuserRequired(user) ==> o == ToLogin && rows == old(rows)
      ensures SuperuserRequired(user) && Approve(old(rows), pk).None? ==> o == AdminNotFound && rows == old(rows)
      ensures SuperuserRequired(user) && Approve(old(rows), pk).Some? ==>
        o == ToAdminDashboard && rows == Approve(old(rows), pk).value
    {
      o := ModerateAs(user, pk, Active);
    }

    /** `reject_listing` */
    method RejectListing(user: Option<User>, pk: int) returns (o: AdminOutcome)
      requires Valid()
      modifies this
      ensures Valid() && nextId == old(nextId)
      ensures !SuperuserRequired(user) ==> o == ToLogin && rows == old(rows)
      ensures SuperuserRequired(user) && Reject(old(rows), pk).None? ==> o == AdminNotFound && rows == old(rows)
      ensures SuperuserRequired(user) && Reject(old(rows), pk).Some? ==>
        o == ToAdminDashboard && rows == Reject(old(rows), pk).value
    {
      o := ModerateAs(user, pk, Rejected);
    }

    /**
     * `create_listing` with a valid form: the listing is built from the form,
     * its seller is the requesting user and its status PENDING whatever was
     * submitted, its images are processed by `Listing.save`, and the table
     * assigns it the next primary key. Validation uses the model choices of
     * the submitted make.
     */
    method CreateListing(user: Option<User>, tables: CatalogTables, input: ListingInput, now: int,
                         encodes: Picture -> bool) returns (o: CreateOutcome)
      requires Valid()
      modifies this
      ensures Valid()
      ensures user.None? ==> o == CreateToLogin && rows == old(rows) && nextId == old(nextId)
      ensures user.Some? && ValidateListingIntended(tables, None, input).Failure? ==>
        o == Invalid(ValidateListingIntended(tables, None, input).error) &&
        rows == old(rows) && nextId == old(nextId)
      ensures user.Some? && ValidateListingIntended(tables, None, input).Success? ==>
        o == ToDashboard && nextId == old(nextId) + 1 &&
        |rows| == |old(rows)| + 1 && rows[..|old(rows)|] == old(rows) &&
        var l := rows[|old(rows)|];
        l.id == old(nextId) && l.seller == user.value && l.status == Pending &&
        l.trim == ValidateListingIntended(tables, None, input).value.trim &&
        l.price == input.price && l.odometer == input.odometer && l.color == input.color &&
        l.description == input.description && l.location == input.location &&
        l.createdAt == now && l.activeDate == None && l.views == 0 && l.phoneClicks == 0 &&
        |l.images| == |input.images| &&
        forall k :: 0 <= k < |input.images| ==> l.images[k] == ProcessSlot(input.images[k], encodes)
    {
      if user.None? {
        return CreateToLogin;
      }
      var form := ValidateListingIntended(tables, None, input);
      if form.Failure? {
        return Invalid(form.error);
      }
      var listing := NewListing(nextId, user.value, form.value.trim, input.price, input.odometer,
                                input.color, input.description, input.location, input.images, now);
      listing := listing.(seller := user.value, status := Pending);
      var saved := SaveListing(listing, encodes);
      rows := rows + [saved];
      nextId := nextId + 1;
      o := ToDashboard;
    }

    /**
     * `create_listing` as written: the form for a new listing offers no model
     * choices, so it never validates, the form is shown again with its errors
     * and the table never changes.
     */
    method CreateListingAsWritten(user: Option<User>, tables: CatalogTables, input: ListingInput)
      returns (o: CreateOutcome)
      requires Valid()
      modifies this
      ensures Valid() && rows == old(rows) && nextId == old(nextId)
      ensures user.None? ==> o == CreateToLogin
      ensures user.Some? ==> o == Invalid(ValidateListing(tables, None, input).error)
    {
      if user.None? {
        return CreateToLogin;
      }
      var form := ValidateListing(tables, None, input);
      NewListingNeverValidates(tables, input);
      o := Invalid(form.error);
    }

    /** `admin_dashboard` behind `superuser_required`: None is the redirect to the login page. */
    function AdminDashboardFor(user: Option<User>): (v: Option<AdminView>)
      reads this
      ensures v.Some? <==> SuperuserRequired(user)
      ensures v.Some? ==> v.value == AdminDashboard(rows)
    {
      if SuperuserRequired(user) then Some(AdminDashboard(rows)) else None
    }

    /** `seller_dashboard` behind `login_required`: None is the redirect to the login page. */
    function SellerDashboardFor(user: Option<User>): (v: Option<SellerView>)
      reads this
      ensures v.Some? <==> user.Some?
      ensures v.Some? ==> v.value == SellerDashboard(rows, user.value.id)
    {
      if user.Some? then Some(SellerDashboard(rows, user.value.id)) else None
    }
  }
}
