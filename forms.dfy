/**
 * The forms of core/forms.py: the listing form with its cascading
 * Make -> Model -> Trim choices and cross-field check, the registration form
 * that requires dealer documents, and the profile form that hides the dealer
 * fields from non-dealers.
 */
module Forms {
  import opened Wrappers
  import opened Catalog
  import opened Seqs

  const Required := "This field is required."
  const InvalidChoice := "Select a valid choice. That choice is not one of the available choices."
  const TrimMismatch := "Selected trim does not match the selected model."
  const ModelMismatch := "Selected model does not match the selected make."

  /** The reference tables the choice fields draw from. */
  datatype CatalogTables = CatalogTables(makes: seq<Make>, models: seq<CarModel>, trims: seq<CarTrim>)

  /** The querysets of the three choice fields of one form instance. */
  datatype Querysets = Querysets(makes: seq<Make>, models: seq<CarModel>, trims: seq<CarTrim>)

  /** What the listing form receives: chosen primary keys (None when left empty) and the plain fields. */
  datatype ListingInput = ListingInput(
    make: Option<int>, model: Option<int>, trim: Option<int>,
    price: int, odometer: int, color: string, description: string, location: string,
    images: seq<ImageFile>)

  datatype FormError = FieldError(field: string, message: string) | NonFieldError(message: string)

  datatype Chosen = Chosen(make: Make, model: CarModel, trim: CarTrim)

  predicate KeysUnique<T>(s: seq<T>, key: T -> int) {
    forall i, j :: 0 <= i < j < |s| ==> key(s[i]) != key(s[j])
  }

  function MakeKey(m: Make): int { m.id }
  function ModelKey(m: CarModel): int { m.id }
  function TrimKey(t: CarTrim): int { t.id }

  /** A `ModelChoiceField`'s cleaning: the submitted key is required and must name a row of the queryset. */
  function Choose<T>(qs: seq<T>, key: T -> int, id: Option<int>): (r: Result<T, string>)
    ensures r.Success? <==> id.Some? && exists i :: 0 <= i < |qs| && key(qs[i]) == id.value
    ensures r.Success? ==> r.value in qs && key(r.value) == id.value
    ensures r.Failure? ==> r.error == if id.None? then Required else InvalidChoice
  {
    if id.None? then Failure(Required)
    else if qs == [] then Failure(InvalidChoice)
    else if key(qs[0]) == id.value then Success(qs[0])
    else
      match Choose(qs[1..], key, id)
      case Success(x) => Success(x)
      case Failure(e) => assert forall i :: 1 <= i < |qs| ==> qs[i] == qs[1..][i - 1]; Failure(e)
  }

  /** With unique keys, the row chosen is the one carrying the key. */
  lemma {:induction false} ChooseUnique<T>(qs: seq<T>, key: T -> int, x: T)
    requires KeysUnique(qs, key) && x in qs
    ensures Choose(qs, key, Some(key(x))) == Success(x)
  {
    if qs[0] != x {
      assert key(qs[0]) != key(x) by {
        var j :| 0 <= j < |qs| && qs[j] == x;
        assert 0 < j;
      }
      assert x in qs[1..] by {
        var j :| 0 <= j < |qs| && qs[j] == x;
        assert qs[1..][j - 1] == x;
      }
      ChooseUnique(qs[1..], key, x);
    }
  }

  function OfMake(makeId: int): CarModel -> bool {
    (m: CarModel) => m.make.id == makeId
  }

  function OfModel(modelId: int): CarTrim -> bool {
    (t: CarTrim) => t.model.id == modelId
  }

  /**
   * The querysets as `ListingForm.__init__` sets them. A new form offers no
   * model at all (`Model.objects.none()`); a form editing a listing offers the
   * models of the listing's make and the trims of the listing's model.
   */
  function ListingQuerysets(tables: CatalogTables, editing: Option<Listing>): (q: Querysets)
    ensures q.makes == tables.makes
    ensures editing.None? ==> q.models == [] && q.trims == tables.trims
    ensures editing.Some? ==> forall m :: m in q.models <==>
      m in tables.models && m.make.id == editing.value.trim.model.make.id
    ensures editing.Some? ==> forall t :: t in q.trims <==>
      t in tables.trims && t.model.id == editing.value.trim.model.id
  {
    match editing
    case None => Querysets(tables.makes, [], tables.trims)
    case Some(l) =>
      FilterMembership(tables.models, OfMake(l.trim.model.make.id));
      FilterMembership(tables.trims, OfModel(l.trim.model.id));
      Querysets(tables.makes, Filter(tables.models, OfMake(l.trim.model.make.id)),
                Filter(tables.trims, OfModel(l.trim.model.id)))
  }

  /**
   * The querysets a new form needs so that its cascading choice can succeed:
   * the models of the submitted make. An edit form keeps the querysets above.
   */
  function IntendedQuerysets(tables: CatalogTables, editing: Option<Listing>, input: ListingInput): (q: Querysets)
    ensures editing.Some? ==> q == ListingQuerysets(tables, editing)
    ensures editing.None? ==> q.makes == tables.makes && q.trims == tables.trims
    ensures editing.None? ==> forall m :: m in q.models <==>
      m in tables.models && input.make.Some? && m.make.id == input.make.value
  {
    if editing.Some? then ListingQuerysets(tables, editing)
    else if input.make.None? then Querysets(tables.makes, [], tables.trims)
    else
      FilterMembership(tables.models, OfMake(input.make.value));
      Querysets(tables.makes, Filter(tables.models, OfMake(input.make.value)), tables.trims)
  }

  function Cleaned<T>(r: Result<T, string>): Option<T> {
    if r.Success? then Some(r.value) else None
  }

  /**
   * `ListingForm.clean`, over the values that survived field cleaning:
   * a trim must belong to the model, checked first, and a model to the make.
   * Related rows are compared by primary key.
   */
  function CrossCheck(make: Option<Make>, model: Option<CarModel>, trim: Option<CarTrim>): (r: Option<string>)
    ensures r == Some(TrimMismatch) <==> trim.Some? && model.Some? && trim.value.model.id != model.value.id
    ensures r == Some(ModelMismatch) <==>
      !(trim.Some? && model.Some? && trim.value.model.id != model.value.id) &&
      model.Some? && make.Some? && model.value.make.id != make.value.id
    ensures r.None? || r == Some(TrimMismatch) || r == Some(ModelMismatch)
  {
    if trim.Some? && model.Some? && trim.value.model.id != model.value.id then Some(TrimMismatch)
    else if model.Some? && make.Some? && model.value.make.id != make.value.id then Some(ModelMismatch)
    else None
  }

  function FieldErrors<T>(field: string, r: Result<T, string>): seq<FormError> {
    if r.Failure? then [FieldError(field, r.error)] else []
  }

  /**
   * Full validation of the listing form against given querysets: each
   * choice field is cleaned, then the cross-field check runs on whatever
   * survived; the form is valid when no error was recorded.
   */
  function ValidateAgainst(q: Querysets, input: ListingInput): (r: Result<Chosen, seq<FormError>>)
    ensures r.Success? <==>
      Choose(q.makes, MakeKey, input.make).Success? &&
      Choose(q.models, ModelKey, input.model).Success? &&
      Choose(q.trims, TrimKey, input.trim).Success? &&
      CrossCheck(Cleaned(Choose(q.makes, MakeKey, input.make)),
                 Cleaned(Choose(q.models, ModelKey, input.model)),
                 Cleaned(Choose(q.trims, TrimKey, input.trim))).None?
    ensures r.Success? ==>
      r.value.make in q.makes && r.value.model in q.models && r.value.trim in q.trims &&
      Some(r.value.make.id) == input.make && Some(r.value.model.id) == input.model &&
      Some(r.value.trim.id) == input.trim &&
      r.value.trim.model.id == r.value.model.id && r.value.model.make.id == r.value.make.id
    ensures r.Failure? ==> |r.error| > 0
    ensures Choose(q.models, ModelKey, input.model).Failure? ==>
      r.Failure? && FieldError("model", Choose(q.models, ModelKey, input.model).error) in r.error
  {
    var mk := Choose(q.makes, MakeKey, input.make);
    var mo := Choose(q.models, ModelKey, input.model);
    var tr := Choose(q.trims, TrimKey, input.trim);
    var cross := CrossCheck(Cleaned(mk), Cleaned(mo), Cleaned(tr));
    var errors := FieldErrors("make", mk) + FieldErrors("model", mo) + FieldErrors("trim", tr) +
      (if cross.Some? then [NonFieldError(cross.value)] else []);
    if errors == [] then Success(Chosen(mk.value, mo.value, tr.value))
    else
      assert mo.Failure? ==> errors[|FieldErrors("make", mk)|] == FieldError("model", mo.error);
      Failure(errors)
  }

  /** The listing form as written. */
  function ValidateListing(tables: CatalogTables, editing: Option<Listing>, input: ListingInput): Result<Chosen, seq<FormError>> {
    ValidateAgainst(ListingQuerysets(tables, editing), input)
  }

  /** The listing form with the model choices a new form needs. */
  function ValidateListingIntended(tables: CatalogTables, editing: Option<Listing>, input: ListingInput): Result<Chosen, seq<FormError>> {
    ValidateAgainst(IntendedQuerysets(tables, editing, input), input)
  }

  /** As written, a form for a new listing never validates: no model can be chosen from an empty queryset. */
  lemma NewListingNeverValidates(tables: CatalogTables, input: ListingInput)
    ensures ValidateListing(tables, None, input).Failure?
    ensures exists e :: e in ValidateListing(tables, None, input).error && e.FieldError? && e.field == "model"
  {
    var q := ListingQuerysets(tables, None);
    assert Choose(q.models, ModelKey, input.model).Failure?;
    var e := FieldError("model", Choose(q.models, ModelKey, input.model).error);
    assert e in ValidateListing(tables, None, input).error;
  }

  predicate TablesKeyed(tables: CatalogTables) {
    KeysUnique(tables.makes, MakeKey) && KeysUnique(tables.models, ModelKey) && KeysUnique(tables.trims, TrimKey)
  }

  /** Choosing the key of a row of a filtered queryset picks that row. */
  lemma ChooseFromFilter<T(!new)>(s: seq<T>, p: T -> bool, key: T -> int, x: T)
    requires KeysUnique(s, key) && x in s && p(x)
    ensures Choose(Filter(s, p), key, Some(key(x))) == Success(x)
  {
    FilterMembership(s, p);
    var r := Choose(Filter(s, p), key, Some(key(x)));
    assert r.Success? by {
      var i :| 0 <= i < |Filter(s, p)| && Filter(s, p)[i] == x;
    }
    assert r.value in s;
  }

  /**
   * With the intended querysets, a new listing whose make, model and trim
   * belong together validates, and the form resolves exactly those rows.
   */
  lemma ConsistentNewListingValidates(tables: CatalogTables, input: ListingInput, c: Chosen)
    requires TablesKeyed(tables)
    requires c.make in tables.makes && c.model in tables.models && c.trim in tables.trims
    requires c.model.make.id == c.make.id && c.trim.model.id == c.model.id
    requires input.make == Some(c.make.id) && input.model == Some(c.model.id) && input.trim == Some(c.trim.id)
    ensures ValidateListingIntended(tables, None, input) == Success(c)
  {
    var q := IntendedQuerysets(tables, None, input);
    ChooseUnique(tables.makes, MakeKey, c.make);
    ChooseUnique(tables.trims, TrimKey, c.trim);
    ChooseFromFilter(tables.models, OfMake(c.make.id), ModelKey, c.model);
  }

  /** An edit form re-submitted with the listing's own make, model and trim validates. */
  lemma UnchangedEditValidates(tables: CatalogTables, l: Listing, input: ListingInput)
    requires TablesKeyed(tables)
    requires l.trim in tables.trims && l.trim.model in tables.models && l.trim.model.make in tables.makes
    requires input.make == Some(l.trim.model.make.id) && input.model == Some(l.trim.model.id)
    requires input.trim == Some(l.trim.id)
    ensures ValidateListing(tables, Some(l), input) == Success(Chosen(l.trim.model.make, l.trim.model, l.trim))
  {
    ChooseUnique(tables.makes, MakeKey, l.trim.model.make);
    ChooseFromFilter(tables.models, OfMake(l.trim.model.make.id), ModelKey, l.trim.model);
    ChooseFromFilter(tables.trims, OfModel(l.trim.model.id), TrimKey, l.trim);
  }

  // ---------------------------------------------------------------------
  // Registration

  const RegistryRequired := "Commercial Registry is required for dealers."
  const TaxCardRequired := "Tax Card is required for dealers."

  /** The cleaned registration data; an empty file name stands for no upload. */
  datatype Registration = Registration(
    username: string, email: string, phoneNumber: string, isDealer: bool,
    commercialRegistry: string, taxCard: string)

  /** The errors `UserRegistrationForm.clean` adds, as (field, message) pairs in the order it adds them. */
  function DealerDocumentErrors(d: Registration): (r: seq<(string, string)>)
    ensures !d.isDealer ==> r == []
    ensures ("commercial_registry", RegistryRequired) in r <==> d.isDealer && d.commercialRegistry == ""
    ensures ("tax_card", TaxCardRequired) in r <==> d.isDealer && d.taxCard == ""
    ensures forall e :: e in r ==> e == ("commercial_registry", RegistryRequired) || e == ("tax_card", TaxCardRequired)
    ensures |r| == (if d.isDealer && d.commercialRegistry == "" then 1 else 0) + (if d.isDealer && d.taxCard == "" then 1 else 0)
    ensures |r| == 2 ==> r[0].0 == "commercial_registry" && r[1].0 == "tax_card"
  {
    if !d.isDealer then []
    else
      (if d.commercialRegistry == "" then [("commercial_registry", RegistryRequired)] else []) +
      (if d.taxCard == "" then [("tax_card", TaxCardRequired)] else [])
  }

  /** `add_error`: the message is appended to the field's list of errors. */
  function WithError(errors: map<string, seq<string>>, field: string, message: string): (r: map<string, seq<string>>)
    ensures field in r && r[field] == (if field in errors then errors[field] else []) + [message]
    ensures forall f :: f != field ==> (f in r <==> f in errors) && (f in errors ==> r[f] == errors[f])
  {
    errors[field := (if field in errors then errors[field] else []) + [message]]
  }

  /** The messages of `added` aimed at `field`, in order. */
  function MessagesFor(added: seq<(string, string)>, field: string): seq<string>
    decreases |added|
  {
    if added == [] then []
    else (if added[0].0 == field then [added[0].1] else []) + MessagesFor(added[1..], field)
  }

  /** `add_error` for each (field, message) in turn: every field gains its messages in order, after the ones it had. */
  function WithErrors(errors: map<string, seq<string>>, added: seq<(string, string)>): (r: map<string, seq<string>>)
    ensures errors.Keys <= r.Keys
    ensures forall e :: e in added ==> e.0 in r
    ensures forall f :: f in r <==> f in errors || MessagesFor(added, f) != []
    ensures forall f :: f in r ==> r[f] == (if f in errors then errors[f] else []) + MessagesFor(added, f)
    decreases |added|
  {
    if added == [] then errors
    else WithErrors(WithError(errors, added[0].0, added[0].1), added[1..])
  }

  /** Adding errors in two batches adds them all. */
  lemma WithErrorsSteps(e0: map<string, seq<string>>, a: seq<(string, string)>,
                        e1: map<string, seq<string>>, b: seq<(string, string)>)
    requires |a| <= 1 && |b| <= 1 && e1 == WithErrors(e0, a)
    ensures WithErrors(e1, b) == WithErrors(e0, a + b)
  {
    if a != [] {
      assert (a + b)[1..] == b;
    }
  }

  /** A registration is accepted by the dealer rule exactly when it is not a dealer's or carries both documents. */
  lemma DealerRuleAcceptance(d: Registration)
    ensures WithErrors(map[], DealerDocumentErrors(d)) == map[] <==>
      !d.isDealer || (d.commercialRegistry != "" && d.taxCard != "")
  {
    var errs := DealerDocumentErrors(d);
    if errs != [] {
      assert errs[0] in errs;
    }
  }

  /**
   * `ModelForm` construction of the new user before `save` runs: every field
   * of the form's field list is copied from the cleaned data; a file field
   * left empty keeps the instance's value.
   */
  function ConstructInstance(base: User, d: Registration): (u: User)
    ensures u.username == d.username && u.email == d.email && u.phoneNumber == Some(d.phoneNumber)
    ensures u.isDealer == d.isDealer
    ensures u.commercialRegistry == if d.commercialRegistry == "" then base.commercialRegistry else d.commercialRegistry
    ensures u.taxCard == if d.taxCard == "" then base.taxCard else d.taxCard
    ensures u.id == base.id && u.isSuperuser == base.isSuperuser && u.isVerifiedDealer == base.isVerifiedDealer
  {
    base.(username := d.username, email := d.email, phoneNumber := Some(d.phoneNumber), isDealer := d.isDealer,
          commercialRegistry := if d.commercialRegistry == "" then base.commercialRegistry else d.commercialRegistry,
          taxCard := if d.taxCard == "" then base.taxCard else d.taxCard)
  }

  class RegistrationForm {
    var data: Registration
    var errors: map<string, seq<string>>

    constructor (data: Registration)
      ensures this.data == data && errors == map[]
    {
      this.data := data;
      errors := map[];
    }

    predicate IsValid()
      reads this
    {
      errors == map[]
    }

    method AddError(field: string, message: string)
      modifies this
      ensures data == old(data) && errors == WithError(old(errors), field, message)
    {
      errors := WithError(errors, field, message);
    }

    /** `UserRegistrationForm.clean`: a dealer must upload both documents. */
    method Clean()
      modifies this
      ensures data == old(data)
      ensures errors == WithErrors(old(errors), DealerDocumentErrors(data))
    {
      ghost var before := errors;
      if data.isDealer {
        if data.commercialRegistry == "" {
          AddError("commercial_registry", RegistryRequired);
        }
        ghost var middle := errors;
        if data.taxCard == "" {
          AddError("tax_card", TaxCardRequired);
        }
        WithErrorsSteps(before, if data.commercialRegistry == "" then [("commercial_registry", RegistryRequired)] else [],
                        middle, if data.taxCard == "" then [("tax_card", TaxCardRequired)] else []);
      }
    }

    /**
     * `UserRegistrationForm.save` over the unsaved user `base`: email,
     * phone and the dealer flag are always written; the documents are written
     * again for a dealer. For a non-dealer, documents uploaded anyway were
     * already copied by the form's instance construction.
     */
    method Save(base: User) returns (u: User)
      ensures u == ConstructInstance(base, data).(
        commercialRegistry := if data.isDealer then data.commercialRegistry else ConstructInstance(base, data).commercialRegistry,
        taxCard := if data.isDealer then data.taxCard else ConstructInstance(base, data).taxCard)
      ensures u.email == data.email && u.phoneNumber == Some(data.phoneNumber) && u.isDealer == data.isDealer
      ensures data.isDealer ==> u.commercialRegistry == data.commercialRegistry && u.taxCard == data.taxCard
    {
      u := ConstructInstance(base, data);
      u := u.(email := data.email, phoneNumber := Some(data.phoneNumber), isDealer := data.isDealer);
      if u.isDealer {
        u := u.(commercialRegistry := data.commercialRegistry, taxCard := data.taxCard);
      }
    }
  }

  /** A valid dealer registration stores both documents on the saved user. */
  lemma ValidDealerKeepsDocuments(d: Registration, base: User)
    requires d.isDealer && WithErrors(map[], DealerDocumentErrors(d)) == map[]
    ensures ConstructInstance(base, d).commercialRegistry != "" && ConstructInstance(base, d).taxCard != ""
  {
    DealerRuleAcceptance(d);
  }

  // ---------------------------------------------------------------------
  // Profile update

  const DealerDocumentFields: seq<string> := ["commercial_registry", "tax_card"]
  const ProfileDeclared: seq<string> :=
    ["first_name", "last_name", "email", "phone_number", "commercial_registry", "tax_card"]

  /** `dict.pop` on the form's field list: the first entry with that name is removed, the rest keep their order. */
  function Pop(fields: seq<string>, name: string): (r: seq<string>)
    requires name in fields
    ensures |r| == |fields| - 1
    ensures forall x :: x != name ==> (x in r <==> x in fields)
  {
    var k := FirstIndex(fields, name);
    assert fields == fields[..k] + [name] + fields[k + 1..];
    fields[..k] + fields[k + 1..]
  }

  /** The fields `UserUpdateForm` offers a user: the dealer documents only to a dealer. */
  function ProfileFields(isDealer: bool): (r: seq<string>)
    ensures forall f :: f in r <==> f in ProfileDeclared && (isDealer || f !in DealerDocumentFields)
  {
    if isDealer then ProfileDeclared
    else
      var first := Pop(ProfileDeclared, "commercial_registry");
      assert FirstIndex(ProfileDeclared, "commercial_registry") == 4 by {
        assert ProfileDeclared[4] in ProfileDeclared[..5];
      }
      assert first == ["first_name", "last_name", "email", "phone_number", "tax_card"];
      assert FirstIndex(first, "tax_card") == 4;
      Pop(first, "tax_card")
  }

  class ProfileForm {
    var fields: seq<string>

    /** `UserUpdateForm.__init__` for the profile of `instance`. */
    constructor (instance: User)
      ensures fields == ProfileFields(instance.isDealer)
    {
      fields := ProfileDeclared;
      new;
      if !instance.isDealer {
        fields := Pop(fields, "commercial_registry");
        fields := Pop(fields, "tax_card");
      }
    }
  }
}
