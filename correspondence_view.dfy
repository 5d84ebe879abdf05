/** The resident's correspondence screen: the unit's items, newest first, the
    count still waiting, and the delivery column. */
module CorrespondenceView {
  import opened Seqs
  import opened AuthTypes
  import opened Storage
  import opened Queries
  import opened CorrespondencesList

  /** What the last column of a row shows. */
  datatype DeliveryCell = DeliveredOn(at: int) | AvailableAtDesk | Dash

  /** The last column: the delivery date of a delivered item that records
      one, "available at the desk" for a waiting item, a dash otherwise. */
  function Cell(c: Correspondence): (r: DeliveryCell)
    ensures r.DeliveredOn? <==> c.status == Delivered && c.deliveredAt.Some?
    ensures r.DeliveredOn? ==> Some(r.at) == c.deliveredAt
    ensures r.AvailableAtDesk? <==> c.status == Waiting
  {
    if c.status == Delivered && c.deliveredAt.Some? then DeliveredOn(c.deliveredAt.value)
    else if c.status == Waiting then AvailableAtDesk
    else Dash
  }

  /** The resident's column agrees with the administrator's delivered date. */
  lemma CellAgreesWithDesk(c: Correspondence)
    ensures Cell(c).DeliveredOn? <==> DeliveredDateShown(c).Some?
    ensures Cell(c).DeliveredOn? ==> DeliveredDateShown(c) == Some(Cell(c).at)
  {
  }

  /** A delivery confirmed at the desk shows its date to the resident. */
  lemma DeliveredCell(c: Correspondence, at: int)
    ensures Cell(Deliver(c, at)) == DeliveredOn(at)
  {
  }

  /** The comparator `new Date(b.date) - new Date(a.date)`: `a` may stand
      before `b` when it is not older. */
  predicate NewerFirst(a: Correspondence, b: Correspondence)
  {
    b.date - a.date <= 0
  }

  lemma NewerFirstTotalPreorder()
    ensures TotalPreorder(NewerFirst)
  {
  }

  /** The banner's count of items waiting at the desk. */
  function PendingCount(cs: seq<Correspondence>): (r: nat)
    ensures r <= |cs|
    ensures r == 0 <==> forall c :: c in cs ==> c.status != Waiting
  {
    var pending := PendingCorrespondences(cs);
    assert pending != [] ==> pending[0] in pending;
    |pending|
  }

  /** Reordering the list does not change the count. */
  lemma PendingCountPermutation(s: seq<Correspondence>, t: seq<Correspondence>)
    requires multiset(s) == multiset(t)
    ensures PendingCount(s) == PendingCount(t)
  {
    FilterLengthPermutation(s, t, (c: Correspondence) => c.status == Waiting);
  }

  /** `CorrespondenceView`: the state array of the unit's items, read once at
      mount and sorted in place on every render. */
  class CorrespondenceView {
    const correspondences: array<Correspondence>

    /** Mounting reads the stored items addressed to the user's unit. */
    constructor (store: Store, user: Option<User>)
      ensures correspondences[..] == CorrespondencesOf(Contents(store.correspondences), ResidenceOf(user))
      ensures fresh(correspondences)
    {
      var all := store.GetCorrespondences();
      var mine := CorrespondencesOf(all, ResidenceOf(user));
      correspondences := new Correspondence[|mine|](i requires 0 <= i < |mine| => mine[i]);
    }

    /** A render: sorts the state array newest first and counts the waiting
        items, which the sort does not change. */
    method Render() returns (pendingCount: nat)
      modifies correspondences
      ensures SortedBy(correspondences[..], NewerFirst)
      ensures multiset(correspondences[..]) == multiset(old(correspondences[..]))
      ensures pendingCount == PendingCount(correspondences[..])
      ensures pendingCount == PendingCount(old(correspondences[..]))
    {
      NewerFirstTotalPreorder();
      SortBy(correspondences, NewerFirst);
      pendingCount := PendingCount(correspondences[..]);
      PendingCountPermutation(correspondences[..], old(correspondences[..]));
    }
  }
}
