/**
 * The records of core/models.py as values: users, the Make -> Model ->
 * CarTrim reference hierarchy, listings with their five image slots, and
 * favorites, together with the model-level rules (`price_int`, `mileage`,
 * field defaults, favorite uniqueness).
 *
 * A foreign key is held as the referenced record itself, as the views load
 * it with `select_related`; identity of a referenced row is its `id`.
 * Money is held in hundredths of a pound (`DecimalField(decimal_places=2)`).
 */
module Catalog {
  import opened Wrappers

  datatype User = User(
    id: int,
    username: string,
    email: string,
    phoneNumber: Option<string>,
    isDealer: bool,
    commercialRegistry: string,  // stored file name, "" when no file
    taxCard: string,             // stored file name, "" when no file
    isVerifiedDealer: bool,
    isSuperuser: bool)

  datatype Make = Make(id: int, nameEn: string, nameAr: string)

  datatype CarModel = CarModel(id: int, make: Make, nameEn: string, nameAr: string, category: string)

  datatype CarTrim = CarTrim(
    id: int,
    model: CarModel,
    name: string,
    year: int,
    engineCc: int,
    horsepower: int,
    transmission: string,
    fuelType: string)

  /** What the imaging library would decode from a stored file. */
  datatype Picture = Picture(width: nat, height: nat, mode: string, format: string)

  /**
   * An image field: its name ("" when the field is empty), whether a file is
   * attached, and the decoded picture (None when the file is not a readable image).
   */
  datatype ImageFile = ImageFile(name: string, hasFile: bool, picture: Option<Picture>)

  datatype Listing = Listing(
    id: int,
    seller: User,
    trim: CarTrim,
    price: int,          // hundredths of a pound
    odometer: int,
    color: string,
    description: string,
    location: string,
    images: seq<ImageFile>,  // image_main, image_2 .. image_5
    status: string,
    createdAt: int,
    activeDate: Option<int>,
    views: int,
    phoneClicks: int)

  datatype Favorite = Favorite(userId: int, listingId: int, createdAt: int)

  const Draft := "DRAFT"
  const Pending := "PENDING"
  const Active := "ACTIVE"
  const Sold := "SOLD"
  const Expired := "EXPIRED"
  /** The value the reject action writes; it is not one of the declared choices. */
  const Rejected := "REJECTED"

  const StatusChoices: seq<string> := [Draft, Pending, Active, Sold, Expired]

  const ImageSlots: seq<string> := ["image_main", "image_2", "image_3", "image_4", "image_5"]

  const NoImage := ImageFile("", false, None)

  predicate IsActive(l: Listing) { l.status == Active }

  predicate IsPending(l: Listing) { l.status == Pending }

  predicate IsSold(l: Listing) { l.status == Sold }

  /** The rejected status lies outside the declared status set, while the other moderation states lie in it. */
  lemma RejectedIsUndeclared()
    ensures Rejected !in StatusChoices
    ensures Pending in StatusChoices && Active in StatusChoices
  {
    assert Rejected != Draft && Rejected != Pending && Rejected != Active;
    assert Rejected != Sold && Rejected != Expired;
  }

  /** `Listing.mileage`: an alias of the odometer reading. */
  function Mileage(l: Listing): int {
    l.odometer
  }

  /** `int(price) if price else 0`: the whole pounds of a price in hundredths, truncated toward zero. */
  function PriceInt(price: int): (r: int)
    ensures price >= 0 ==> 0 <= r * 100 <= price < r * 100 + 100
    ensures price < 0 ==> r * 100 - 100 < price <= r * 100 <= 0
  {
    if price == 0 then 0
    else if price > 0 then price / 100
    else -((-price) / 100)
  }

  /** A listing as the model constructs it before any moderation: the declared field defaults apply. */
  function NewListing(
    id: int, seller: User, trim: CarTrim, price: int, odometer: int, color: string,
    description: string, location: string, images: seq<ImageFile>, createdAt: int): (l: Listing)
    ensures l.status == Pending && l.views == 0 && l.phoneClicks == 0 && l.activeDate == None
    ensures l.seller == seller && l.trim == trim && l.price == price && l.odometer == odometer
    ensures l.color == color && l.description == description && l.location == location
    ensures l.images == images && l.createdAt == createdAt && l.id == id
  {
    Listing(id, seller, trim, price, odometer, color, description, location, images,
            Pending, createdAt, None, 0, 0)
  }

  /** No two favorites share a (user, listing) pair: `unique_together = ['user', 'listing']`. */
  predicate UniquePairs(favs: seq<Favorite>) {
    forall i, j :: 0 <= i < j < |favs| ==>
      (favs[i].userId, favs[i].listingId) != (favs[j].userId, favs[j].listingId)
  }

  predicate HasFavorite(favs: seq<Favorite>, userId: int, listingId: int) {
    exists i | 0 <= i < |favs| :: favs[i].userId == userId && favs[i].listingId == listingId
  }

  /** Inserting a favorite: the unique constraint refuses a second row for the same pair. */
  function AddFavorite(favs: seq<Favorite>, f: Favorite): (r: Result<seq<Favorite>, string>)
    requires UniquePairs(favs)
    ensures r.Success? <==> !HasFavorite(favs, f.userId, f.listingId)
    ensures r.Success? ==> r.value == favs + [f] && UniquePairs(r.value)
    ensures r.Failure? ==> r.error == "IntegrityError"
  {
    if HasFavorite(favs, f.userId, f.listingId) then Failure("IntegrityError")
    else
      var r := favs + [f];
      assert forall i :: 0 <= i < |favs| ==> (favs[i].userId, favs[i].listingId) != (f.userId, f.listingId);
      Success(r)
  }
}
