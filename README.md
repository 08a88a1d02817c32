# Abo-Raya Motors: a verified model of the listing rules

Abo-Raya Motors is a Django car-classifieds site. Sellers post listings of
cars, each picked from a Make -> Model -> CarTrim catalogue. An administrator
approves listings before the public can find them. Buyers search, open
listings, reveal the seller's phone number and compare up to three cars.

This project models the rules behind those features in Dafny and proves
properties about them:

- `Catalog` (`catalog.dfy`): the records of `core/models.py` as values.
  - The referenced row is held inside a listing; its identity is its `id`.
  - Money is held in hundredths of a pound.
  - Listing status is kept as a string, so the undeclared `'REJECTED'` stays visible.
- `Images` (`images.dfy`): the image normalisation that runs on every listing save.
  - The resize rule and the `.webp` renaming rule.
  - Which of the five slots are processed.
  - The imaging library's encoder is an opaque parameter `encodes`.
- `Search` (`search.dfy`): `search_listings`, the home page and the related listings of the detail page.
- `Lookups` (`lookups.dfy`): the two dropdown endpoints as loops that build their rows.
- `Moderation` (`moderation.dfy`): approve and reject as transitions of the listings table, and the admin dashboard.
- `Forms` (`forms.dfy`): the forms.
  - The listing form's cascading choice fields and cross-field check.
  - The registration form, as a class that collects errors.
  - The profile form, as a class that pops the dealer fields.
- `Store` (`store.dfy`): a `ListingTable` class whose methods are the views that change the table.
  - The detail page and the phone reveal bump counters.
  - Creating a listing.
  - Approving and rejecting.
  - Beside it, the seller dashboard.
- `Compare` (`compare.dfy`): the comparison tray of `static/js/compare.js`.
  - The stored id list as functions.
  - The page as a `ComparePage` class with a `checked` array.
- `Seqs`, `Text` and `Wrappers` hold the shared pieces:
  - filter and stable sort specified by multiplicities and order;
  - sums;
  - ASCII case folding and substring search;
  - decimal rendering.

Behaviour worth knowing, all modelled as the code has it:

- `reject_listing` writes `'REJECTED'`, which is not one of the five declared status choices (`Catalog.RejectedIsUndeclared`).
- Approval writes only the status.
  - `active_date` is left unset, although its help text says it is set on approval.
  - `Listing.save` runs its image loop again during approval, but with `update_fields=['status']` only the status reaches the table.
- `load_models` orders by `name_en` even when it returns `name_ar` (core/views.py:209-218).
- `Listing.GOVERNORATES` declares 33 entries (core/models.py:108-142). The location is a free string in this model, so nothing depends on the list.
- The registration form's `save` writes the documents again only for a dealer.
  - The parent `ModelForm` has already copied every listed field into the new user, documents included.
  - So a non-dealer who uploads documents still has them stored. `Forms.RegistrationForm.Save` states both steps.

## Model

| member | source | states |
|---|---|---|
| Catalog.RejectedIsUndeclared | core/models.py:101-107 | "REJECTED" is not among the declared status choices |
| Catalog.PriceInt | core/models.py:172-175 | a zero price gives 0; otherwise the price in pounds truncated toward zero: for p >= 0, 100r <= p < 100r + 100, and for p < 0, 100r - 100 < p <= 100r |
| Catalog.NewListing | core/models.py:160-165 | a new listing is PENDING with 0 views, 0 phone clicks and no active date, and keeps the given id, seller, trim, price, odometer, colour, description, location, images and creation time |
| Catalog.AddFavorite | core/models.py:202-215 | inserting a favourite succeeds exactly when the (user, listing) pair is new; success appends it and keeps pairs unique; otherwise an integrity error |
| Images.RequestedSize | core/models.py:16-18 | a resize is requested exactly when the width exceeds 1200; the box is 1200 wide and its height h is the floor of height*1200/width (h*width <= height*1200 < (h+1)*width), never taller than the original |
| Images.BeforeFirstDot | core/models.py:21 | the result is a prefix of the name without dots, followed in the name by a dot or the end |
| Images.WebpName | core/models.py:21 | the new name ends in ".webp" and its stem is the dot-free prefix of the old name up to its first dot |
| Images.WebpNameIdempotent | core/models.py:21 | renaming a normalised name changes nothing |
| Images.Thumbnail | core/models.py:12-18 | RGBA and P pictures become RGB and other modes are kept; a picture wider than 1200 takes the requested box's size, a narrower one keeps its size |
| Images.Compress | core/models.py:9-22 | an unreadable file fails, and so does a picture whose requested box has height 0, on which `thumbnail` raises; any other readable one succeeds exactly when the encoder accepts its thumbnail, and the success is that thumbnail as WEBP under the new name, at most 1200 wide, never 0 high unless the original is, and never in mode RGBA or P |
| Images.FlatPictureKeepsItsFile | core/models.py:16-18 | a 5000x3 picture asks for a 1200x0 box, so its compression fails whatever the encoder and the slot keeps its file |
| Images.ProcessSlot | core/models.py:180-188 | a slot is touched only when set, backed by a file and not yet ".webp"; a compression error leaves it as it was; otherwise it becomes exactly the compressed file, a ".webp" at most 1200 wide |
| Images.ProcessSlotIdempotent | core/models.py:180-182 | saving twice processes nothing the second time |
| Images.SaveListing | core/models.py:177-190 | the loop processes every slot independently and keeps every other field of the record |
| Search.SortKeyOf | core/views.py:98-110 | "price_low", "price_high", "mileage_low", "year_new" and "views" select price ascending, price descending, mileage ascending, year descending and most viewed; newest-first exactly when the parameter is missing or none of these |
| Search.SortListings | core/views.py:98-110 | the result is a permutation of the input ordered by the selected key |
| Search.NarrowByCatalog | core/views.py:28-47 | keeps each listing exactly when the keyword (if any) occurs ignoring case in a model name, a make name or the description, and the make and model ids (if any) match, with multiplicities |
| Search.NarrowByRanges | core/views.py:49-63 | keeps each listing exactly when every present price and year bound holds, both ends inclusive |
| Search.NarrowByPlaceAndSpec | core/views.py:65-78 | keeps each listing exactly when governorate, transmission and fuel type equal the present criteria |
| Search.NarrowByCondition | core/views.py:80-88 | keeps each listing exactly when its odometer is within the present ceiling and its colour equals the present colour ignoring case |
| Search.NarrowByAttributes | core/views.py:65-88 | the conjunction of the two previous stages |
| Search.NarrowBySeller | core/views.py:90-95 | "dealer" keeps dealers, "private" keeps non-dealers, anything else keeps everyone |
| Search.Search | core/views.py:24-110 | each listing occurs in the result as often as in the input exactly when it is ACTIVE and passes every present criterion, otherwise not at all; the result is ordered by the selected key |
| Search.SearchAsWritten | core/views.py:81-104 | the request fails exactly when a mileage ceiling or the mileage sort is asked for; otherwise it returns the intended result |
| Search.MaxMileageFailsAsWritten | core/views.py:81-83 | one active 60000 km listing and a 100000 km ceiling: the intended search returns it, the code fails |
| Search.SortNewest | core/models.py:195-198 | a permutation ordered by creation time, newest first |
| Search.NewestFirst | core/views.py:14 | the first n (or all) listings newest first; no listing left out is newer than one shown |
| Search.Featured | core/views.py:12-22 | eight ACTIVE listings of the table, or all when fewer, each no more often than in the table, newest first, and no active listing left out is newer than one shown |
| Search.Related | core/views.py:152-156 | four other ACTIVE listings of the same make, or all when fewer, each no more often than in the table, newest first, and none left out is newer than one shown |
| Lookups.ModelsOfMake | core/views.py:208-209 | exactly the models of the make, with multiplicities, ordered by English name; no make id selects nothing |
| Lookups.TrimsOfModel | core/views.py:224-225 | exactly the trims of the model, ordered by year descending then by name |
| Lookups.TrimDisplay | core/views.py:229-230 | the label is the trim's year (which reads back exactly), " - ", the trim's name, " (", the transmission label and ")", each at its offset |
| Lookups.LoadModels | core/views.py:206-220 | the loop builds one row per selected model, in query order, with its id and its name in the request's language |
| Lookups.LoadTrims | core/views.py:222-240 | the loop builds one row per selected trim, in query order, with id, name, year, display label and horsepower |
| Moderation.FindRow | core/admin_views.py:43 | the position of the row with the primary key, or none when no row has it |
| Moderation.Lookup | core/admin_views.py:43 | found exactly when a row has both the key and the status, and then it points at that row |
| Moderation.Moderate | core/admin_views.py:43-45 | succeeds exactly when the row exists and is PENDING; then only that row's status changes and primary keys stay distinct |
| Moderation.ApproveTwiceFails | core/admin_views.py:43-45 | a second approval of the same listing is not found |
| Moderation.RejectLeavesStatusChoices | core/admin_views.py:53-55 | after a rejection the listing's status is outside the declared choices |
| Moderation.ApproveMovesOneToActive | core/admin_views.py:26-31 | an approval lowers the pending count by one and raises the active count by one |
| Moderation.ApprovalPublishes | core/admin_views.py:40-47 | before approval no search shows the listing; after it the search with no criteria does |
| Moderation.PendingNewestFirst | core/admin_views.py:22-24 | exactly the PENDING listings, with multiplicities, newest first |
| Moderation.AdminDashboard | core/admin_views.py:19-37 | the pending list newest first; the pending, active and sold counters are the numbers of rows with those statuses, the total is the table size, and pending + active + sold never exceeds it |
| Forms.Choose | core/forms.py:10-19 | a choice field accepts exactly a submitted key present in its queryset and returns that row; otherwise "required" or "invalid choice" |
| Forms.ListingQuerysets | core/forms.py:42-54 | a new form offers no model; an edit form offers exactly the models of the listing's make and the trims of the listing's model |
| Forms.IntendedQuerysets | core/forms.py:15-19 | a new form offers exactly the models of the submitted make; an edit form is unchanged |
| Forms.CrossCheck | core/forms.py:56-70 | a trim/model mismatch is reported first; a model/make mismatch otherwise; a missing value skips its check |
| Forms.ValidateAgainst | core/forms.py:56-70 | valid exactly when the three fields resolve and the cross check passes; a valid result is a consistent make, model and trim from the querysets; an unresolved model is a field error on "model" |
| Forms.NewListingNeverValidates | core/forms.py:15-19 | the form for a new listing never validates, always with an error on "model" |
| Forms.ConsistentNewListingValidates | core/forms.py:56-70 | with the intended querysets, a consistent make, model and trim validate to exactly those rows |
| Forms.UnchangedEditValidates | core/forms.py:50-54 | an edit form re-submitted with the listing's own make, model and trim validates |
| Forms.DealerDocumentErrors | core/forms.py:109-121 | a non-dealer gets no error; a dealer gets the registry error exactly when it is missing and the tax-card error exactly when it is missing |
| Forms.WithError | core/forms.py:117-119 | the message is appended to that field's errors and every other field keeps its errors |
| Forms.WithErrors | core/forms.py:115-119 | after a run of `add_error` calls a field has errors exactly when it had some or was given one, and its list is its old messages followed by the new ones in order |
| Forms.DealerRuleAcceptance | core/forms.py:115-119 | the dealer rule adds no error exactly when the user is not a dealer or uploaded both documents |
| Forms.ConstructInstance | core/forms.py:97-99 | every listed field is copied from the cleaned data; an empty upload keeps the instance's file |
| Forms.RegistrationForm.AddError | core/forms.py:117-119 | the form's errors become those with the message appended |
| Forms.RegistrationForm.Clean | core/forms.py:109-121 | the form's errors gain exactly the dealer-document errors |
| Forms.RegistrationForm.Save | core/forms.py:123-135 | email, phone and dealer flag are always written; for a dealer the documents are the uploaded ones; for a non-dealer they are what construction copied |
| Forms.ValidDealerKeepsDocuments | core/forms.py:129-131 | a dealer registration that passed the rule stores both documents |
| Forms.Pop | core/forms.py:170-171 | one field fewer, every other field still present |
| Forms.ProfileFields | core/forms.py:158-171 | a field is offered exactly when declared and either the user is a dealer or it is not a dealer document |
| Forms.ProfileForm.constructor | core/forms.py:166-171 | the form's field list is the one for the instance's dealer flag |
| Store.SellerListings | core/views.py:187 | exactly the seller's listings, with multiplicities, newest first |
| Store.SellerDashboard | core/views.py:184-203 | the seller's listings newest first; the total is the number of the seller's rows; the active, pending and sold counters are the numbers of the seller's rows with those statuses, never above the total together; the view and click totals are sums over the seller's rows, whatever their order |
| Store.ViewCountedOnce | core/views.py:148 | one view bump adds one to its seller's view total, nothing to others', and leaves click totals alone |
| Store.PhoneClickCountedOnce | core/views.py:247 | one reveal adds one to its seller's click total, nothing to others', and leaves view totals alone |
| Store.BumpKeepsRelated | core/views.py:148-156 | the related listings read after the bump are those before it |
| Store.ListingTable.ListingDetail | core/views.py:142-162 | a non-ACTIVE or missing listing is not found and nothing changes; otherwise only its view counter rises by one and the page shows it as read, with its related listings |
| Store.ListingTable.RevealPhone | core/views.py:242-251 | a non-ACTIVE or missing listing is not found and nothing changes; otherwise only its click counter rises by one and the seller's phone is returned |
| Store.ListingTable.ModerateAs | core/admin_views.py:13-16 | anyone but a signed-in superuser is sent to the login page and nothing changes; otherwise the transition or a not-found |
| Store.ListingTable.ApproveListing | core/admin_views.py:40-47 | the table becomes the approved table, or stays as it was on not-found or refusal |
| Store.ListingTable.RejectListing | core/admin_views.py:50-57 | the table becomes the rejected table, or stays as it was on not-found or refusal |
| Store.ListingTable.CreateListing | core/views.py:164-182 | with the corrected model choices of the listing form: an anonymous user is sent to log in; an invalid form changes nothing; a valid one appends a PENDING listing of the requesting user under the next key, with the form's fields, zero counters and processed images |
| Store.ListingTable.CreateListingAsWritten | core/views.py:164-182 | with the listing form as written, every request either goes to log in or shows the form again with its errors, and the table never changes |
| Store.ListingTable.AdminDashboardFor | core/admin_views.py:19-20 | the dashboard is shown exactly to a signed-in superuser |
| Store.ListingTable.SellerDashboardFor | core/views.py:184-185 | the dashboard is shown exactly to a signed-in user, over that user's listings |
| Compare.Toggled | static/js/compare.js:24-36 | a stored id is removed, a new one appended, and a new one is refused with the alert exactly when three are stored |
| Compare.ToggleKeepsInvariant | static/js/compare.js:24-36 | at most three ids, none twice, stays true across every toggle |
| Compare.RemovalKeepsOrder | static/js/compare.js:27-28 | removing a stored id cuts it out of its place and keeps the others in order |
| Compare.ToggleTwiceRestores | static/js/compare.js:27-34 | adding an id and toggling it again restores the list |
| Compare.SplitJoin | static/js/compare.js:56 | ids without commas, joined by commas, split back into the same ids |
| Compare.CompareTarget | static/js/compare.js:49-58 | fewer than two ids are refused with the alert; otherwise the URL is the compare path whose ids parameter reads back as the stored ids |
| Compare.Rendered | static/js/compare.js:7-22 | each box is checked exactly when its id is stored, the bar is hidden exactly when none is, and the counter shows the count |
| Compare.ChangeIntended | static/js/compare.js:42-46 | a change keeps the page in step with storage and stores what the toggle decides |
| Compare.RefusedBoxStaysChecked | static/js/compare.js:30-33 | as written, a refused box is left checked although its id is not stored, so the page no longer agrees with storage |
| Compare.FourthCarScenario | static/js/compare.js:30-33 | three cars stored and a fourth box clicked: the fourth box ends checked with its car not stored |
| Compare.ComparePage.constructor | static/js/compare.js:60-61 | the initial redraw puts the page in step with storage |
| Compare.ComparePage.UpdateCompareUI | static/js/compare.js:7-22 | the loop redraws the page from storage and changes nothing else |
| Compare.ComparePage.ToggleCompare | static/js/compare.js:24-39 | storage becomes the toggled list and the page is redrawn; a refusal adds the alert and touches neither |
| Compare.ComparePage.ToggleCompareIntended | static/js/compare.js:24-39 | as above, but a refusal redraws the page too |
| Compare.ComparePage.OnChange | static/js/compare.js:42-46 | the box flips, then the toggle runs as written |
| Compare.ComparePage.OnChangeIntended | static/js/compare.js:42-46 | the box flips, then the intended toggle runs, leaving the page in step with storage |

## Left out

- Store.ListingTable.CreateListing: validates with the corrected model choices (`Forms.ValidateListingIntended`). As written no new listing ever validates (`Forms.NewListingNeverValidates`), and `Store.ListingTable.CreateListingAsWritten` states that the table then never changes.
- `Compare.Split` has no counterpart in static/js/compare.js, which only joins the ids. It is the reading of the `ids` parameter back into ids, and it is used to state that the comparison URL carries the stored ids. The page that reads the parameter is not part of this model.
- Image decoding and encoding, WebP quality and the pixel work of `thumbnail` belong to the imaging library. Encoding is the opaque predicate `encodes`. `thumbnail`'s own aspect-ratio rounding is not modelled.
- Images.Compress: the output height is the requested box height, computed with exact integer division instead of the float ratio the code uses. A box of height 0 is taken to make `thumbnail` raise (it divides by the box height); the library's other exceptions are left to the opaque `encodes`.
- Images.Eligible: a slot whose stored file is missing from disk is modelled as skipped (`hasFile` false). In the code `hasattr` only swallows AttributeError, so opening such a file raises out of `Listing.save` and the record is not saved.
- Storage side effects are not modelled: writing files, `upload_to` paths, the stored copies left behind when an approval re-runs compression, and the `print` of a compression error.
- Concurrency: the atomic `F('views') + 1` and `F('phone_clicks') + 1` updates are modelled as sequential increments.
- Request parsing: query-string values are typed criteria, and an empty parameter is an absent one. A non-numeric value that the database would reject is not modelled.
- Database behaviour:
  - Ties keep input order, where the database leaves them unspecified.
  - Strings compare by code point, not by collation.
  - Case folding is ASCII only.
- Django machinery is not modelled: templates, messages, translation, the context entries that only feed dropdowns and filter echoes (core/views.py:112-139), redirects beyond their target, and sessions.
- Authentication views, the password and username checks of the registration form, and the unique phone constraint (core/models.py:28) are not modelled.
- `register_view` builds the registration form without `request.FILES` (core/views.py:288), so as wired both documents arrive empty and a dealer registration always fails the dealer rule. The registration form is modelled on the data it is given, uploads included.
- `Listing.description` is registered for translation (core/translation.py), so the keyword search reads the active language's column. In this model `description` stands for that column.
- Listing form fields other than make, model and trim (price, odometer, colour, description, location, images) are taken as already cleaned. Their field validation is not modelled.
- Forms.Pop and Forms.ProfileFields: they state which fields are offered, not the order of the remaining fields.
- `fuel_consumption` is a float and is not part of the trim rows.
- `updated_at` is not modelled, and neither is `Make.logo`.
- `views.compare_listings`, routed by core/urls.py:14, does not exist. The compare target URL is modelled, but the page it would show is not part of this model.
- Local storage is a sequence of ids. Malformed JSON in it is not modelled; a missing key reads as the empty list.
- `alert` is modelled as a list of messages and navigation as the computed URL.
- Not modelled: the home page's `makes` and governorate lists, the login, logout, register and profile views, static/js/hero_3d.js, animations.js and dropdowns.js, the admin, settings, translation and template-tag modules, the sample-data command, and the template rewriting scripts.

## Findings

| source | as written | input that shows it | evidently intended | confidence | as-written member | corrected member |
|---|---|---|---|---|---|---|
| core/views.py:81-104 | filters with `mileage__lte` and sorts by `mileage`, a Python property and not a column, so the query raises a field error | `max_mileage=100000` with one ACTIVE listing of 60000 km | filter and sort on `odometer`, which `mileage` aliases | not executed; high | Search.MaxMileageFailsAsWritten | Search.Search |
| core/forms.py:15-19 | the model field of a new listing form draws from `Model.objects.none()`, so every submitted model is an invalid choice and no listing can be created | any POST to `create_listing` with a consistent make, model and trim | offer the models of the submitted make | not executed; high | Forms.NewListingNeverValidates | Forms.ConsistentNewListingValidates |
| static/js/compare.js:30-33 | a refused fourth car returns before `updateCompareUI`, so the checkbox the user just ticked stays ticked although the car is not stored | three cars stored, then the checkbox of a fourth ticked | redraw (untick) on refusal | not executed; medium | Compare.FourthCarScenario | Compare.ChangeIntended |
