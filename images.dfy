/**
 * Image normalisation on listing save (core/models.py `compress_image` and
 * `Listing.save`). The imaging library is opaque: decoding is the picture
 * recorded in the file (None when it cannot be read) and WebP encoding is the
 * caller-supplied `encodes`, which says whether the encoder accepts a picture.
 * Only the size arithmetic, the mode conversion, the renaming and the choice
 * of slots are modelled.
 */
module Images {
  import opened Wrappers
  import opened Catalog

  const MaxWidth: nat := 1200

  /** The box passed to `thumbnail`: None when the picture is not wider than the limit. */
  function RequestedSize(width: nat, height: nat): (r: Option<(nat, nat)>)
    ensures r.Some? <==> width > MaxWidth
    ensures r.Some? ==> r.value.0 == MaxWidth && r.value.1 <= height
    ensures r.Some? ==> r.value.1 * width <= height * MaxWidth < (r.value.1 + 1) * width
  {
    if width > MaxWidth then
      var h := height * MaxWidth / width;
      DivisionBounds(height * MaxWidth, width, h);
      ShrinkBound(h, height, width);
      Some((MaxWidth, h))
    else None
  }

  lemma DivisionBounds(a: nat, b: nat, q: nat)
    requires b > 0 && q == a / b
    ensures q * b <= a < (q + 1) * b
  {
  }

  lemma ShrinkBound(h: nat, height: nat, width: nat)
    requires width > MaxWidth && h * width <= height * MaxWidth
    ensures h <= height
  {
    assert height * MaxWidth <= height * width;
    assert (h - height) * width <= 0;
  }

  /** `im.convert("RGB")` for palette and alpha pictures; other modes are kept. */
  function ConvertedMode(mode: string): string {
    if mode == "RGBA" || mode == "P" then "RGB" else mode
  }

  /** `s.split('.')[0]`: the text before the first dot, or all of `s` when it has none. */
  function BeforeFirstDot(s: string): (r: string)
    ensures r <= s
    ensures forall i :: 0 <= i < |r| ==> r[i] != '.'
    ensures |r| < |s| ==> s[|r|] == '.'
  {
    if s == [] || s[0] == '.' then [] else [s[0]] + BeforeFirstDot(s[1..])
  }

  predicate EndsWithWebp(s: string) {
    |s| >= 5 && s[|s| - 5..] == ".webp"
  }

  /** The normalised file name: the text before the first dot followed by `.webp`. */
  function WebpName(name: string): (r: string)
    ensures EndsWithWebp(r)
    ensures r[..|r| - 5] <= name
    ensures forall i :: 0 <= i < |r| - 5 ==> r[i] != '.'
    ensures |r| - 5 < |name| ==> name[|r| - 5] == '.'
  {
    var stem := BeforeFirstDot(name);
    var r := stem + ".webp";
    assert r[..|r| - 5] == stem && r[|r| - 5..] == ".webp";
    r
  }

  /** Renaming an already normalised name gives the same name. */
  lemma WebpNameIdempotent(name: string)
    ensures WebpName(WebpName(name)) == WebpName(name)
  {
    var r := WebpName(name);
    var stem := r[..|r| - 5];
    assert r == stem + ".webp";
    BeforeFirstDotOfStem(stem, ".webp");
  }

  lemma {:induction false} BeforeFirstDotOfStem(stem: string, rest: string)
    requires forall i :: 0 <= i < |stem| ==> stem[i] != '.'
    requires rest != [] && rest[0] == '.'
    ensures BeforeFirstDot(stem + rest) == stem
  {
    if stem == [] {
      assert stem + rest == rest;
    } else {
      assert (stem + rest)[0] == stem[0] && (stem + rest)[1..] == stem[1..] + rest;
      BeforeFirstDotOfStem(stem[1..], rest);
    }
  }

  /**
   * The picture handed to the encoder: palette and alpha pictures become RGB,
   * other modes are kept, and a picture wider than the limit is shrunk to
   * the requested box; a narrower one keeps its size.
   */
  function Thumbnail(p: Picture): (out: Picture)
    ensures out.mode == if p.mode == "RGBA" || p.mode == "P" then "RGB" else p.mode
    ensures out.mode != "RGBA" && out.mode != "P"
    ensures out.format == "WEBP"
    ensures RequestedSize(p.width, p.height).Some? ==> (out.width, out.height) == RequestedSize(p.width, p.height).value
    ensures RequestedSize(p.width, p.height).None? ==> out.width == p.width && out.height == p.height
    ensures out.width <= MaxWidth && out.width <= p.width && out.height <= p.height
  {
    var mode := ConvertedMode(p.mode);
    var size := RequestedSize(p.width, p.height);
    if size.Some? then Picture(size.value.0, size.value.1, mode, "WEBP")
    else Picture(p.width, p.height, mode, "WEBP")
  }

  /**
   * `thumbnail` raises on a requested box of height 0, which a picture more
   * than 1200 times wider than it is tall asks for: the library divides by
   * the box height.
   */
  predicate ThumbnailRaises(p: Picture) {
    RequestedSize(p.width, p.height).Some? && RequestedSize(p.width, p.height).value.1 == 0
  }

  /** `compress_image`: a failure stands for any exception the imaging library raises. */
  function Compress(f: ImageFile, encodes: Picture -> bool): (r: Result<ImageFile, string>)
    ensures f.picture.None? ==> r.Failure?
    ensures f.picture.Some? && ThumbnailRaises(f.picture.value) ==> r.Failure?
    ensures f.picture.Some? ==>
              (r.Success? <==> !ThumbnailRaises(f.picture.value) && encodes(Thumbnail(f.picture.value)))
    ensures r.Success? ==> r.value.picture == Some(Thumbnail(f.picture.value))
    ensures r.Success? ==> r.value.name == WebpName(f.name) && r.value.hasFile
    ensures r.Success? ==> r.value.picture.Some? && r.value.picture.value.format == "WEBP"
    ensures r.Success? ==> r.value.picture.value.width <= MaxWidth
    ensures r.Success? ==> r.value.picture.value.width <= f.picture.value.width
    ensures r.Success? ==> r.value.picture.value.height <= f.picture.value.height
    ensures r.Success? ==> r.value.picture.value.mode != "RGBA" && r.value.picture.value.mode != "P"
    ensures r.Success? ==> r.value.picture.value.height > 0 || f.picture.value.height == 0
  {
    match f.picture
    case None => Failure("cannot identify image file")
    case Some(p) =>
      var out := Thumbnail(p);
      if ThumbnailRaises(p) then Failure("division by zero")
      else if encodes(out) then Success(ImageFile(WebpName(f.name), true, Some(out)))
      else Failure("cannot write mode " + out.mode + " as WEBP")
  }

  /** A 5000x3 picture asks for a 1200x0 box, so its compression fails whatever the encoder accepts and the slot keeps its file. */
  lemma FlatPictureKeepsItsFile(encodes: Picture -> bool)
    ensures var f := ImageFile("a.jpg", true, Some(Picture(5000, 3, "RGB", "JPEG")));
            Compress(f, encodes).Failure? && ProcessSlot(f, encodes) == f
  {
    var f := ImageFile("a.jpg", true, Some(Picture(5000, 3, "RGB", "JPEG")));
    assert RequestedSize(5000, 3).value.1 == 0;
    assert !EndsWithWebp(f.name) by {
      assert f.name[|f.name| - 5..] == "a.jpg";
    }
  }

  /** The guard of the save loop: the field is set, has a file, and is not yet a `.webp`. */
  predicate Eligible(f: ImageFile) {
    f.name != "" && f.hasFile && !EndsWithWebp(f.name)
  }

  /** One iteration of the save loop: an error leaves the slot as it was. */
  function ProcessSlot(f: ImageFile, encodes: Picture -> bool): (r: ImageFile)
    ensures !Eligible(f) ==> r == f
    ensures Eligible(f) && Compress(f, encodes).Failure? ==> r == f
    ensures Eligible(f) && Compress(f, encodes).Success? ==> r == Compress(f, encodes).value
    ensures Eligible(f) && Compress(f, encodes).Success? ==>
              r != f && EndsWithWebp(r.name) && r.picture.Some? && r.picture.value.width <= MaxWidth
  {
    if Eligible(f) then
      match Compress(f, encodes)
      case Success(g) => assert EndsWithWebp(g.name); g
      case Failure(_) => f
    else f
  }

  /** Saving twice processes nothing the second time. */
  lemma ProcessSlotIdempotent(f: ImageFile, encodes: Picture -> bool)
    ensures ProcessSlot(ProcessSlot(f, encodes), encodes) == ProcessSlot(f, encodes)
  {
  }

  /** `Listing.save`: each image slot is processed in turn, then the record is kept whatever the slots' outcome. */
  method SaveListing(l: Listing, encodes: Picture -> bool) returns (saved: Listing)
    ensures |saved.images| == |l.images|
    ensures forall i :: 0 <= i < |l.images| ==> saved.images[i] == ProcessSlot(l.images[i], encodes)
    ensures saved == l.(images := saved.images)
  {
    saved := l;
    var i := 0;
    while i < |l.images|
      invariant 0 <= i <= |l.images|
      invariant |saved.images| == |l.images|
      invariant forall k :: 0 <= k < i ==> saved.images[k] == ProcessSlot(l.images[k], encodes)
      invariant forall k :: i <= k < |l.images| ==> saved.images[k] == l.images[k]
      invariant saved == l.(images := saved.images)
    {
      var slot := saved.images[i];
      if Eligible(slot) {
        var c := Compress(slot, encodes);
        if c.Success? {
          saved := saved.(images := saved.images[i := c.value]);
        }
      }
      i := i + 1;
    }
  }
}
