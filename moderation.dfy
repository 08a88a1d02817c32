/**
 * The moderation workflow of core/admin_views.py over the listings table:
 * approve and reject move a PENDING listing to ACTIVE or to REJECTED, and the
 * admin dashboard lists the pending listings with counters. The table is a
 * sequence of rows whose primary keys are distinct.
 */
module Moderation {
  import opened Wrappers
  import opened Catalog
  import opened Seqs
  import opened Search

  predicate DistinctIds(rows: seq<Listing>) {
    forall i, j :: 0 <= i < j < |rows| ==> rows[i].id != rows[j].id
  }

  /** The position of the row with primary key `pk`. */
  function FindRow(rows: seq<Listing>, pk: int): (r: Option<nat>)
    ensures r.Some? ==> r.value < |rows| && rows[r.value].id == pk
    ensures r.None? ==> forall i :: 0 <= i < |rows| ==> rows[i].id != pk
  {
    if rows == [] then None
    else if rows[0].id == pk then Some(0)
    else
      match FindRow(rows[1..], pk)
      case None => None
      case Some(i) => Some(i + 1)
  }

  /** `get_object_or_404(Listing, pk=pk, status=status)`: None is the not-found response. */
  function Lookup(rows: seq<Listing>, pk: int, status: string): (r: Option<nat>)
    requires DistinctIds(rows)
    ensures r.Some? <==> exists i :: 0 <= i < |rows| && rows[i].id == pk && rows[i].status == status
    ensures r.Some? ==> r.value < |rows| && rows[r.value].id == pk && rows[r.value].status == status
  {
    match FindRow(rows, pk)
    case None => None
    case Some(i) => if rows[i].status == status then Some(i) else None
  }

  /**
   * Looks up a PENDING listing and writes only its status
   * (`save(update_fields=['status'])`); every other row and field, including
   * `active_date`, stays as it was. None is the not-found response.
   */
  function Moderate(rows: seq<Listing>, pk: int, newStatus: string): (r: Option<seq<Listing>>)
    requires DistinctIds(rows)
    ensures r.Some? <==> exists i :: 0 <= i < |rows| && rows[i].id == pk && IsPending(rows[i])
    ensures r.Some? ==> |r.value| == |rows| && DistinctIds(r.value)
    ensures r.Some? ==> forall i :: 0 <= i < |rows| ==>
      r.value[i] == if rows[i].id == pk then rows[i].(status := newStatus) else rows[i]
  {
    match Lookup(rows, pk, Pending)
    case None => None
    case Some(i) => Some(rows[i := rows[i].(status := newStatus)])
  }

  /** `approve_listing` */
  function Approve(rows: seq<Listing>, pk: int): Option<seq<Listing>>
    requires DistinctIds(rows)
  {
    Moderate(rows, pk, Active)
  }

  /** `reject_listing` */
  function Reject(rows: seq<Listing>, pk: int): Option<seq<Listing>>
    requires DistinctIds(rows)
  {
    Moderate(rows, pk, Rejected)
  }

  /** A second approval of the same listing is not found: the first one took it out of PENDING. */
  lemma ApproveTwiceFails(rows: seq<Listing>, pk: int)
    requires DistinctIds(rows) && Approve(rows, pk).Some?
    ensures Approve(Approve(rows, pk).value, pk).None?
  {
    var after := Approve(rows, pk).value;
    forall i | 0 <= i < |after| && after[i].id == pk ensures !IsPending(after[i]) {
      assert after[i].status == Active;
    }
  }

  /** After a rejection the listing's status is REJECTED, a value outside the declared status choices. */
  lemma RejectLeavesStatusChoices(rows: seq<Listing>, pk: int)
    requires DistinctIds(rows) && Reject(rows, pk).Some?
    ensures exists i :: 0 <= i < |rows| && Reject(rows, pk).value[i].id == pk
    ensures forall i :: 0 <= i < |rows| && Reject(rows, pk).value[i].id == pk ==>
      Reject(rows, pk).value[i].status !in StatusChoices
  {
    RejectedIsUndeclared();
    var after := Reject(rows, pk).value;
    var k :| 0 <= k < |rows| && rows[k].id == pk && IsPending(rows[k]);
    assert after[k].id == pk;
  }

  /** A successful approval moves exactly one listing from the pending count to the active count. */
  lemma ApproveMovesOneToActive(rows: seq<Listing>, pk: int)
    requires DistinctIds(rows) && Approve(rows, pk).Some?
    ensures |Filter(Approve(rows, pk).value, IsPending)| == |Filter(rows, IsPending)| - 1
    ensures |Filter(Approve(rows, pk).value, IsActive)| == |Filter(rows, IsActive)| + 1
  {
    var i := Lookup(rows, pk, Pending).value;
    var after := Approve(rows, pk).value;
    assert after == rows[i := rows[i].(status := Active)];
    FilterLengthUpdate(rows, i, rows[i].(status := Active), IsPending);
    FilterLengthUpdate(rows, i, rows[i].(status := Active), IsActive);
  }

  /**
   * Moderation is what publishes a listing: while it waits in PENDING no
   * search shows it, and once approved the search with no criteria does.
   */
  lemma ApprovalPublishes(rows: seq<Listing>, pk: int, c: Criteria)
    requires DistinctIds(rows) && Approve(rows, pk).Some?
    ensures forall l :: l in Search.Search(rows, c) ==> l.id != pk
    ensures exists l :: l in Search.Search(Approve(rows, pk).value, NoCriteria) && l.id == pk
  {
    var i := Lookup(rows, pk, Pending).value;
    forall l | l in Search.Search(rows, c) ensures l.id != pk {
      assert l in multiset(Search.Search(rows, c));
      assert IsActive(l) && l in multiset(rows);
      var j :| 0 <= j < |rows| && rows[j] == l;
      assert j != i;
    }
    var after := Approve(rows, pk).value;
    var l := after[i];
    assert Matches(NoCriteria, l);
    assert l in multiset(after);
    assert l in multiset(Search.Search(after, NoCriteria));
  }

  datatype AdminStats = AdminStats(pending: nat, active: nat, sold: nat, total: nat)

  datatype AdminView = AdminView(pendingListings: seq<Listing>, stats: AdminStats)

  /** The pending listings, newest first. */
  function PendingNewestFirst(rows: seq<Listing>): (r: seq<Listing>)
    ensures forall l :: Occ(r, l) == if IsPending(l) then Occ(rows, l) else 0
    ensures forall i, j :: 0 <= i < j < |r| ==> r[i].createdAt >= r[j].createdAt
  {
    var pending := Filter(rows, IsPending);
    FilterOcc(rows, IsPending);
    var r := SortNewest(pending);
    assert forall l :: Occ(r, l) == Occ(pending, l);
    r
  }

  /** `admin_dashboard`: every pending listing, newest first, and the status counters. */
  function AdminDashboard(rows: seq<Listing>): (v: AdminView)
    ensures v.pendingListings == PendingNewestFirst(rows)
    ensures v.stats.pending == |v.pendingListings| == |Filter(rows, IsPending)|
    ensures v.stats.active == |Filter(rows, IsActive)| && v.stats.sold == |Filter(rows, IsSold)|
    ensures v.stats.total == |rows|
    ensures v.stats.pending + v.stats.active + v.stats.sold <= v.stats.total
  {
    var pending := PendingNewestFirst(rows);
    FilterExclusiveLengths(rows, IsPending, IsActive, IsSold);
    assert |pending| == |Filter(rows, IsPending)| by {
      assert multiset(pending) == multiset(Filter(rows, IsPending)) by {
        FilterOcc(rows, IsPending);
        assert forall l :: Occ(pending, l) == Occ(Filter(rows, IsPending), l);
      }
    }
    AdminView(pending, AdminStats(|pending|, |Filter(rows, IsActive)|, |Filter(rows, IsSold)|, |rows|))
  }
}
