/**
 * The cascading lookups of core/views.py: `load_models` (the models of a
 * make) and `load_trims` (the trims of a model, with their display label).
 * Each endpoint is a query, modelled by a function, and a loop that builds the
 * JSON rows from the query's result, modelled by a method.
 */
module Lookups {
  import opened Wrappers
  import opened Catalog
  import opened Seqs
  import opened Text

  datatype ModelRow = ModelRow(id: int, name: string)

  datatype TrimRow = TrimRow(id: int, name: string, year: int, display: string, horsepower: int)

  function ByNameEn(): (CarModel, CarModel) -> bool {
    (a: CarModel, b: CarModel) => StrLe(a.nameEn, b.nameEn)
  }

  /** Newest year first, then by name. */
  predicate TrimBefore(a: CarTrim, b: CarTrim) {
    a.year > b.year || (a.year == b.year && StrLe(a.name, b.name))
  }

  function ByYearThenName(): (CarTrim, CarTrim) -> bool {
    (a: CarTrim, b: CarTrim) => TrimBefore(a, b)
  }

  lemma ByNameEnIsPreorder()
    ensures Total(ByNameEn()) && Transitive(ByNameEn())
  {
    forall a: CarModel, b: CarModel ensures ByNameEn()(a, b) || ByNameEn()(b, a) {
      StrLeTotal(a.nameEn, b.nameEn);
    }
    forall a: CarModel, b: CarModel, c: CarModel | ByNameEn()(a, b) && ByNameEn()(b, c)
      ensures ByNameEn()(a, c)
    {
      StrLeTransitive(a.nameEn, b.nameEn, c.nameEn);
    }
  }

  lemma ByYearThenNameIsPreorder()
    ensures Total(ByYearThenName()) && Transitive(ByYearThenName())
  {
    forall a: CarTrim, b: CarTrim ensures ByYearThenName()(a, b) || ByYearThenName()(b, a) {
      StrLeTotal(a.name, b.name);
    }
    forall a: CarTrim, b: CarTrim, c: CarTrim | ByYearThenName()(a, b) && ByYearThenName()(b, c)
      ensures ByYearThenName()(a, c)
    {
      if a.year == b.year == c.year {
        StrLeTransitive(a.name, b.name, c.name);
      }
    }
  }

  /**
   * `Model.objects.filter(make_id=make_id).order_by('name_en')`: the models of
   * the make, by English name. Without a make id the lookup is `IS NULL` and
   * selects nothing.
   */
  function ModelsOfMake(models: seq<CarModel>, makeId: Option<int>): (r: seq<CarModel>)
    ensures forall m :: Occ(r, m) == if makeId.Some? && m.make.id == makeId.value then Occ(models, m) else 0
    ensures forall i, j :: 0 <= i < j < |r| ==> StrLe(r[i].nameEn, r[j].nameEn)
  {
    match makeId
    case None => []
    case Some(id) =>
      var ofMake := (m: CarModel) => m.make.id == id;
      FilterOcc(models, ofMake);
      ByNameEnIsPreorder();
      var r := SortBy(Filter(models, ofMake), ByNameEn());
      assert forall i, j :: 0 <= i < j < |r| ==> ByNameEn()(r[i], r[j]);
      r
  }

  /** `CarTrim.objects.filter(model_id=model_id).order_by('-year', 'name')` */
  function TrimsOfModel(trims: seq<CarTrim>, modelId: Option<int>): (r: seq<CarTrim>)
    ensures forall t :: Occ(r, t) == if modelId.Some? && t.model.id == modelId.value then Occ(trims, t) else 0
    ensures forall i, j :: 0 <= i < j < |r| ==> TrimBefore(r[i], r[j])
  {
    match modelId
    case None => []
    case Some(id) =>
      var ofModel := (t: CarTrim) => t.model.id == id;
      FilterOcc(trims, ofModel);
      ByYearThenNameIsPreorder();
      var r := SortBy(Filter(trims, ofModel), ByYearThenName());
      assert forall i, j :: 0 <= i < j < |r| ==> ByYearThenName()(r[i], r[j]);
      r
  }

  /** `get_transmission_display()`: the label of a declared choice, otherwise the stored value. */
  function TransmissionLabel(t: string): string {
    if t == "AUTO" then "Automatic" else if t == "MANUAL" then "Manual" else t
  }

  /**
   * `f"{year} - {name} ({transmission label})"`: the year, which reads back
   * exactly, then " - ", the trim's name, " (", the transmission label and ")".
   */
  function TrimDisplay(t: CarTrim): (r: string)
    ensures LeadingInt(r) == t.year
    ensures var d := |IntToDecimal(t.year)|;
            var n := |t.name|;
            var shown := TransmissionLabel(t.transmission);
            && |r| == d + 3 + n + 2 + |shown| + 1
            && r[..d] == IntToDecimal(t.year)
            && r[d..d + 3] == " - "
            && r[d + 3..d + 3 + n] == t.name
            && r[d + 3 + n..d + 5 + n] == " ("
            && r[d + 5 + n..|r| - 1] == shown
            && r[|r| - 1] == ')'
  {
    var year := IntToDecimal(t.year);
    var shown := TransmissionLabel(t.transmission);
    var rest := " - " + t.name + " (" + shown + ")";
    LeadingIntOfDecimal(t.year, rest);
    var r := year + " - " + t.name + " (" + shown + ")";
    assert r == year + rest;
    LabelPieces(year, t.name, shown);
    r
  }

  /** Where each piece of a trim label sits. */
  lemma LabelPieces(year: string, name: string, shown: string)
    ensures var r := year + " - " + name + " (" + shown + ")";
            var d := |year|;
            var n := |name|;
            && |r| == d + 3 + n + 2 + |shown| + 1
            && r[..d] == year
            && r[d..d + 3] == " - "
            && r[d + 3..d + 3 + n] == name
            && r[d + 3 + n..d + 5 + n] == " ("
            && r[d + 5 + n..|r| - 1] == shown
            && r[|r| - 1] == ')'
  {
    var r := year + " - " + name + " (" + shown + ")";
    var d, n := |year|, |name|;
    assert r[..d] == year;
    assert r[d..d + 3] == " - ";
    assert r[d + 3..d + 3 + n] == name;
    assert r[d + 3 + n..d + 5 + n] == " (";
    assert r[d + 5 + n..|r| - 1] == shown;
  }

  /** The model's name in the request's language: Arabic for `ar`, English otherwise. */
  function LocalName(m: CarModel, lang: string): string {
    if lang == "ar" then m.nameAr else m.nameEn
  }

  /** `load_models`: one row per model of the make, in query order, named in the request's language. */
  method LoadModels(models: seq<CarModel>, makeId: Option<int>, lang: string) returns (data: seq<ModelRow>)
    ensures |data| == |ModelsOfMake(models, makeId)|
    ensures forall i :: 0 <= i < |data| ==>
      var m := ModelsOfMake(models, makeId)[i];
      data[i] == ModelRow(m.id, LocalName(m, lang))
  {
    var found := ModelsOfMake(models, makeId);
    data := [];
    for i := 0 to |found|
      invariant |data| == i
      invariant forall k :: 0 <= k < i ==>
        data[k] == ModelRow(found[k].id, LocalName(found[k], lang))
    {
      var m := found[i];
      data := data + [ModelRow(m.id, LocalName(m, lang))];
    }
  }

  /** The JSON row `load_trims` sends for one trim. */
  function TrimRowOf(t: CarTrim): TrimRow {
    TrimRow(t.id, t.name, t.year, TrimDisplay(t), t.horsepower)
  }

  /** `load_trims`: one row per trim of the model, in query order, with its display label. */
  method LoadTrims(trims: seq<CarTrim>, modelId: Option<int>) returns (data: seq<TrimRow>)
    ensures |data| == |TrimsOfModel(trims, modelId)|
    ensures forall i :: 0 <= i < |data| ==> data[i] == TrimRowOf(TrimsOfModel(trims, modelId)[i])
  {
    var found := TrimsOfModel(trims, modelId);
    data := [];
    for i := 0 to |found|
      invariant |data| == i
      invariant forall k :: 0 <= k < i ==> data[k] == TrimRowOf(found[k])
    {
      data := data + [TrimRowOf(found[i])];
    }
  }
}
