/**
 * The comparison tray of static/js/compare.js: up to three listing ids kept
 * in the browser's local storage, the checkboxes and floating bar that
 * mirror them, and the button that opens the comparison page.
 */
module Compare {
  import opened Wrappers
  import opened Seqs
  import opened Text

  /** A listing id as the page holds it: the checkbox's `data-id` string. */
  type Id = string

  const MaxCars: nat := 3
  const LimitMessage := "You can only compare up to 3 cars."
  const TooFewMessage := "Please select at least 2 cars to compare."
  const ComparePath := "/compare/?ids="

  /** What the stored list can hold: at most three ids, none twice. */
  predicate CompareInvariant(ids: seq<Id>) {
    |ids| <= MaxCars && Distinct(ids)
  }

  function NotId(id: Id): Id -> bool {
    (x: Id) => x != id
  }

  /** The outcome of `toggleCompare` on the stored list: the list to store, or the alert that refuses. */
  datatype Toggle = Stored(ids: seq<Id>) | Refused(message: string)

  /** A stored id is removed, a new one appended, unless three are stored already. */
  function Toggled(ids: seq<Id>, id: Id): (r: Toggle)
    ensures r.Refused? <==> id !in ids && |ids| >= MaxCars
    ensures r.Refused? ==> r.message == LimitMessage
    ensures r.Stored? && id in ids ==> forall x :: x in r.ids <==> x in ids && x != id
    ensures r.Stored? && id !in ids ==> r.ids == ids + [id]
  {
    if id in ids then
      FilterMembership(ids, NotId(id));
      Stored(Filter(ids, NotId(id)))
    else if |ids| >= MaxCars then Refused(LimitMessage)
    else Stored(ids + [id])
  }

  /** Toggling never lets the stored list exceed three ids or repeat one. */
  lemma ToggleKeepsInvariant(ids: seq<Id>, id: Id)
    requires CompareInvariant(ids) && Toggled(ids, id).Stored?
    ensures CompareInvariant(Toggled(ids, id).ids)
  {
    if id in ids {
      FilterDistinct(ids, NotId(id));
    } else {
      assert forall j :: 0 <= j < |ids| ==> ids[j] in ids;
    }
  }

  /** Removing a stored car cuts it out of its place; the others keep their order. */
  lemma RemovalKeepsOrder(ids: seq<Id>, k: nat)
    requires CompareInvariant(ids) && k < |ids|
    ensures Toggled(ids, ids[k]) == Stored(ids[..k] + ids[k + 1..])
  {
    var id := ids[k];
    var pre, post := ids[..k], ids[k + 1..];
    assert ids == pre + ([id] + post);
    FilterAppend(pre, [id] + post, NotId(id));
    FilterCons(id, post, NotId(id));
    forall j | 0 <= j < |pre| ensures NotId(id)(pre[j]) {
      assert pre[j] == ids[j];
    }
    forall j | 0 <= j < |post| ensures NotId(id)(post[j]) {
      assert post[j] == ids[k + 1 + j];
    }
    FilterAll(pre, NotId(id));
    FilterAll(post, NotId(id));
  }

  /** Adding a car and toggling it again restores the stored list exactly. */
  lemma ToggleTwiceRestores(ids: seq<Id>, id: Id)
    requires CompareInvariant(ids) && id !in ids && |ids| < MaxCars
    ensures Toggled(ids, id) == Stored(ids + [id])
    ensures Toggled(ids + [id], id) == Stored(ids)
  {
    FilterAppend(ids, [id], NotId(id));
    FilterAll(ids, NotId(id));
    FilterCons(id, [], NotId(id));
    assert [id] + [] == [id];
  }

  /** `storedIds.join(',')` */
  function Join(ids: seq<Id>): string {
    if ids == [] then ""
    else if |ids| == 1 then ids[0]
    else ids[0] + "," + Join(ids[1..])
  }

  /**
   * Reading the `ids` parameter back into ids by cutting at every comma: the
   * inverse of `Join` on the receiving side, against which the comparison URL
   * is checked (the page that reads it is not part of this model).
   */
  function Split(s: string): (r: seq<string>)
    ensures |r| >= 1
    ensures Join(r) == s
    ensures forall i :: 0 <= i < |r| ==> ',' !in r[i]
    decreases |s|
  {
    if ',' in s then
      var k := FirstIndex(s, ',');
      var rest := Split(s[k + 1..]);
      assert s == s[..k] + "," + s[k + 1..];
      assert ([s[..k]] + rest)[1..] == rest;
      [s[..k]] + rest
    else [s]
  }

  /** Ids without commas survive the trip through the query string. */
  lemma {:induction false} SplitJoin(ids: seq<Id>)
    requires |ids| >= 1 && forall i :: 0 <= i < |ids| ==> ',' !in ids[i]
    ensures Split(Join(ids)) == ids
  {
    if |ids| > 1 {
      var s := Join(ids);
      var n := |ids[0]|;
      assert s == ids[0] + "," + Join(ids[1..]);
      assert s[n] == ',';
      assert s[..n] == ids[0];
      assert FirstIndex(s, ',') == n;
      assert s[n + 1..] == Join(ids[1..]);
      SplitJoin(ids[1..]);
    }
  }

  /**
   * The compare button: fewer than two stored ids are refused with an alert;
   * otherwise the page goes to the comparison URL, whose `ids` parameter
   * reads back as the stored ids.
   */
  function CompareTarget(ids: seq<Id>): (r: Result<string, string>)
    ensures r.Failure? <==> |ids| < 2
    ensures r.Failure? ==> r.error == TooFewMessage
    ensures r.Success? ==> |ComparePath| <= |r.value| && r.value[..|ComparePath|] == ComparePath
    ensures r.Success? && (forall i :: 0 <= i < |ids| ==> ',' !in ids[i]) ==>
      Split(r.value[|ComparePath|..]) == ids
  {
    if |ids| < 2 then Failure(TooFewMessage)
    else
      var url := ComparePath + Join(ids);
      assert url[|ComparePath|..] == Join(ids);
      assert (forall i :: 0 <= i < |ids| ==> ',' !in ids[i]) ==> Split(Join(ids)) == ids by {
        if forall i :: 0 <= i < |ids| ==> ',' !in ids[i] {
          SplitJoin(ids);
        }
      }
      Success(url)
  }

  /** What the page shows: each checkbox's state, whether the bar is hidden, and the bar's counter text. */
  datatype View = View(checked: seq<bool>, barHidden: bool, countText: string)

  /** The page agrees with the stored list. */
  predicate InSync(stored: seq<Id>, boxIds: seq<Id>, v: View) {
    && |v.checked| == |boxIds|
    && (forall k :: 0 <= k < |boxIds| ==> v.checked[k] == (boxIds[k] in stored))
    && (v.barHidden <==> |stored| == 0)
    && (|stored| > 0 ==> v.countText == NatToDecimal(|stored|))
  }

  /** `updateCompareUI`: the page redrawn from the stored list; an emptied bar keeps its last text. */
  function Rendered(stored: seq<Id>, boxIds: seq<Id>, v: View): (r: View)
    ensures InSync(stored, boxIds, r)
    ensures |stored| == 0 ==> r.countText == v.countText
  {
    View(seq(|boxIds|, k requires 0 <= k < |boxIds| => boxIds[k] in stored),
         |stored| == 0,
         if |stored| > 0 then NatToDecimal(|stored|) else v.countText)
  }

  /** The box the user clicked flips before the handler runs. */
  function Flipped(v: View, k: nat): View
    requires k < |v.checked|
  {
    v.(checked := v.checked[k := !v.checked[k]])
  }

  /**
   * A change on box `k` as written: the box flips, `toggleCompare` runs, and
   * a refusal returns before the page is redrawn.
   */
  function ChangeAsWritten(stored: seq<Id>, boxIds: seq<Id>, v: View, k: nat): (seq<Id>, View)
    requires k < |boxIds| == |v.checked|
  {
    match Toggled(stored, boxIds[k])
    case Refused(_) => (stored, Flipped(v, k))
    case Stored(ids) => (ids, Rendered(ids, boxIds, Flipped(v, k)))
  }

  /** A change on box `k` that redraws the page on a refusal as well. */
  function ChangeIntended(stored: seq<Id>, boxIds: seq<Id>, v: View, k: nat): (r: (seq<Id>, View))
    requires k < |boxIds| == |v.checked|
    ensures InSync(r.0, boxIds, r.1)
    ensures r.0 == if Toggled(stored, boxIds[k]).Stored? then Toggled(stored, boxIds[k]).ids else stored
  {
    match Toggled(stored, boxIds[k])
    case Refused(_) => (stored, Rendered(stored, boxIds, Flipped(v, k)))
    case Stored(ids) => (ids, Rendered(ids, boxIds, Flipped(v, k)))
  }

  /** As written, refusing a fourth car leaves its box ticked although the car is not stored. */
  lemma RefusedBoxStaysChecked(stored: seq<Id>, boxIds: seq<Id>, v: View, k: nat)
    requires k < |boxIds| && InSync(stored, boxIds, v) && Toggled(stored, boxIds[k]).Refused?
    ensures ChangeAsWritten(stored, boxIds, v, k).1.checked[k]
    ensures boxIds[k] !in ChangeAsWritten(stored, boxIds, v, k).0
    ensures !InSync(ChangeAsWritten(stored, boxIds, v, k).0, boxIds, ChangeAsWritten(stored, boxIds, v, k).1)
  {
    assert !v.checked[k];
  }

  /** Three cars stored and a fourth box clicked: the concrete page that shows the mismatch. */
  lemma FourthCarScenario()
    ensures var stored := ["1", "2", "3"];
            var boxIds := ["1", "2", "3", "4"];
            var v := Rendered(stored, boxIds, View([false, false, false, false], true, ""));
            ChangeAsWritten(stored, boxIds, v, 3).1.checked[3] && "4" !in ChangeAsWritten(stored, boxIds, v, 3).0
  {
    var stored := ["1", "2", "3"];
    var boxIds := ["1", "2", "3", "4"];
    var v := Rendered(stored, boxIds, View([false, false, false, false], true, ""));
    assert "4" !in stored by {
      assert stored[0] != "4" && stored[1] != "4" && stored[2] != "4";
    }
    RefusedBoxStaysChecked(stored, boxIds, v, 3);
  }

  /** The page that holds the tray: local storage, the checkboxes in document order, the bar and the alerts shown. */
  class ComparePage {
    var stored: seq<Id>
    var boxIds: seq<Id>
    var checked: array<bool>
    var barHidden: bool
    var countText: string
    var alerts: seq<string>

    ghost predicate Valid()
      reads this
    {
      checked.Length == |boxIds|
    }

    ghost function ViewOf(): View
      reads this, checked
    {
      View(checked[..], barHidden, countText)
    }

    /** The page after `DOMContentLoaded`: the initial `updateCompareUI` has run. */
    constructor (stored: seq<Id>, boxIds: seq<Id>)
      ensures Valid() && fresh(checked)
      ensures this.stored == stored && this.boxIds == boxIds && alerts == []
      ensures InSync(stored, boxIds, ViewOf())
    {
      this.stored := stored;
      this.boxIds := boxIds;
      checked := new bool[|boxIds|];
      barHidden := false;
      countText := "";
      alerts := [];
      new;
      UpdateCompareUI();
    }

    method UpdateCompareUI()
      requires Valid()
      modifies this, checked
      ensures Valid() && checked == old(checked)
      ensures stored == old(stored) && boxIds == old(boxIds) && alerts == old(alerts)
      ensures ViewOf() == Rendered(stored, boxIds, old(ViewOf()))
    {
      var k := 0;
      while k < checked.Length
        modifies checked
        invariant 0 <= k <= checked.Length
        invariant forall j :: 0 <= j < k ==> checked[j] == (boxIds[j] in stored)
      {
        checked[k] := boxIds[k] in stored;
        k := k + 1;
      }
      if |stored| > 0 {
        barHidden := false;
        countText := NatToDecimal(|stored|);
      } else {
        barHidden := true;
      }
    }

    /** `toggleCompare` as written. */
    method ToggleCompare(id: Id)
      requires Valid()
      modifies this, checked
      ensures Valid() && checked == old(checked) && boxIds == old(boxIds)
      ensures Toggled(old(stored), id).Refused? ==>
        stored == old(stored) && ViewOf() == old(ViewOf()) && alerts == old(alerts) + [LimitMessage]
      ensures Toggled(old(stored), id).Stored? ==>
        stored == Toggled(old(stored), id).ids && alerts == old(alerts) &&
        ViewOf() == Rendered(stored, boxIds, old(ViewOf()))
    {
      var ids := stored;
      if id in ids {
        ids := Filter(ids, NotId(id));
      } else {
        if |ids| >= MaxCars {
          alerts := alerts + [LimitMessage];
          return;
        }
        ids := ids + [id];
      }
      stored := ids;
      UpdateCompareUI();
    }

    /** `toggleCompare` redrawing the page before it returns on a refusal. */
    method ToggleCompareIntended(id: Id)
      requires Valid()
      modifies this, checked
      ensures Valid() && checked == old(checked) && boxIds == old(boxIds)
      ensures Toggled(old(stored), id).Refused? ==>
        stored == old(stored) && alerts == old(alerts) + [LimitMessage] &&
        ViewOf() == Rendered(stored, boxIds, old(ViewOf()))
      ensures Toggled(old(stored), id).Stored? ==>
        stored == Toggled(old(stored), id).ids && alerts == old(alerts) &&
        ViewOf() == Rendered(stored, boxIds, old(ViewOf()))
    {
      var ids := stored;
      if id in ids {
        ids := Filter(ids, NotId(id));
      } else {
        if |ids| >= MaxCars {
          alerts := alerts + [LimitMessage];
          UpdateCompareUI();
          return;
        }
        ids := ids + [id];
      }
      stored := ids;
      UpdateCompareUI();
    }

    /** The `change` event on checkbox `k` as written: the browser flips the box, then the handler runs. */
    method OnChange(k: nat)
      requires Valid() && k < |boxIds|
      modifies this, checked
      ensures Valid() && checked == old(checked) && boxIds == old(boxIds)
      ensures (stored, ViewOf()) == ChangeAsWritten(old(stored), boxIds, old(ViewOf()), k)
    {
      checked[k] := !checked[k];
      ToggleCompare(boxIds[k]);
    }

    /** The `change` event with the intended handler: the page stays in step with storage. */
    method OnChangeIntended(k: nat)
      requires Valid() && k < |boxIds|
      modifies this, checked
      ensures Valid() && checked == old(checked) && boxIds == old(boxIds)
      ensures (stored, ViewOf()) == ChangeIntended(old(stored), boxIds, old(ViewOf()), k)
      ensures InSync(stored, boxIds, ViewOf())
    {
      checked[k] := !checked[k];
      ToggleCompareIntended(boxIds[k]);
    }
  }
}
