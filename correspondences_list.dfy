/** The administrator's correspondence desk: the status filter, registering
    an item for a unit and confirming its delivery. */
module CorrespondencesList {
  import opened Seqs
  import opened AuthTypes
  import opened Ids
  import opened Storage
  import opened Queries
  import opened VisitorsList

  /** Whether an item has the given status. */
  function StatusIs(status: CorrespondenceStatus): Correspondence -> bool
  {
    (c: Correspondence) => c.status == status
  }

  /** The rows the table shows under `filter`. */
  function FilteredCorrespondences(cs: seq<Correspondence>, filter: StatusFilter<CorrespondenceStatus>): (r: seq<Correspondence>)
    ensures filter.All? ==> r == cs
    ensures filter.Only? ==> forall c :: c in r <==> c in cs && c.status == filter.status
  {
    if filter.All? then cs else Filter(cs, StatusIs(filter.status))
  }

  /** Every item shows under exactly one of the two status filters. */
  lemma StatusFiltersPartition(cs: seq<Correspondence>)
    ensures |FilteredCorrespondences(cs, Only(Waiting))| + |FilteredCorrespondences(cs, Only(Delivered))| == |cs|
  {
    FilterSplit(cs, StatusIs(Waiting), StatusIs(Delivered));
  }

  /** The label of each kind of item in the tables. */
  function TypeLabel(kind: CorrespondenceType): (r: string)
    ensures |r| > 0
  {
    match kind
    case Package => "Encomenda"
    case Letter => "Carta/Documento"
    case FoodDelivery => "Delivery"
    case Other => "Outros"
  }

  /** Different kinds get different labels. */
  lemma TypeLabelInjective(k1: CorrespondenceType, k2: CorrespondenceType)
    requires TypeLabel(k1) == TypeLabel(k2)
    ensures k1 == k2
  {
  }

  /** The delivery button is offered exactly for items still waiting. */
  predicate DeliveryOffered(c: Correspondence)
  {
    c.status == Waiting
  }

  /** The "delivered on" date the status column shows, if any: only for a
      delivered item that records when. */
  function DeliveredDateShown(c: Correspondence): (r: Option<int>)
    ensures r.Some? <==> c.status == Delivered && c.deliveredAt.Some?
    ensures r.Some? ==> r == c.deliveredAt
  {
    if c.status == Delivered then c.deliveredAt else None
  }

  /** One item after delivery at `at`: delivered, delivery time set, every
      other field kept. */
  function Deliver(c: Correspondence, at: int): (r: Correspondence)
    ensures r.status == Delivered && r.deliveredAt == Some(at)
    ensures r.id == c.id && r.residenceNumber == c.residenceNumber && r.kind == c.kind
    ensures r.description == c.description && r.date == c.date
  {
    c.(status := Delivered, deliveredAt := Some(at))
  }

  /** A delivered item shows its delivery date and no longer offers delivery. */
  lemma DeliverShowsDate(c: Correspondence, at: int)
    ensures DeliveredDateShown(Deliver(c, at)) == Some(at)
    ensures !DeliveryOffered(Deliver(c, at))
  {
  }

  /** The list after `handleDelivery(id)`: every item with that id delivered,
      every other item unchanged, positions kept. */
  function DeliverById(cs: seq<Correspondence>, id: string, at: int): (r: seq<Correspondence>)
    ensures |r| == |cs|
    ensures forall i :: 0 <= i < |cs| && cs[i].id == id ==> r[i] == Deliver(cs[i], at)
    ensures forall i :: 0 <= i < |cs| && cs[i].id != id ==> r[i] == cs[i]
  {
    Update(cs, (c: Correspondence) => c.id == id, (c: Correspondence) => Deliver(c, at))
  }

  /** Confirming the delivery of an unknown id changes nothing. */
  lemma DeliverUnknownId(cs: seq<Correspondence>, id: string, at: int)
    requires forall c :: c in cs ==> c.id != id
    ensures DeliverById(cs, id, at) == cs
  {
    UpdateNoneSelected(cs, (c: Correspondence) => c.id == id, (c: Correspondence) => Deliver(c, at));
  }

  /** The handler does not look at the status: confirming the same delivery
      again overwrites the first delivery time with the second. */
  lemma DeliverTwice(cs: seq<Correspondence>, id: string, first: int, second: int)
    ensures DeliverById(DeliverById(cs, id, first), id, second) == DeliverById(cs, id, second)
  {
    UpdateOverride(cs, (c: Correspondence) => c.id == id, (c: Correspondence) => Deliver(c, first),
      (c: Correspondence) => Deliver(c, second));
  }

  /** After the delivery, the waiting items are those waiting before except
      the ones with that id, in the same order. */
  lemma DeliverLeavesPending(cs: seq<Correspondence>, id: string, at: int)
    ensures PendingCorrespondences(DeliverById(cs, id, at))
         == Filter(cs, (c: Correspondence) => c.status == Waiting && c.id != id)
  {
    FilterUpdateDrops(cs, (c: Correspondence) => c.id == id, (c: Correspondence) => Deliver(c, at),
      (c: Correspondence) => c.status == Waiting, (c: Correspondence) => c.status == Waiting && c.id != id);
  }

  /** Delivering a waiting item lowers the waiting count. */
  lemma DeliverLowersPendingCount(cs: seq<Correspondence>, i: nat, at: int)
    requires i < |cs| && cs[i].status == Waiting
    ensures |PendingCorrespondences(DeliverById(cs, cs[i].id, at))| < |PendingCorrespondences(cs)|
  {
    DeliverLeavesPending(cs, cs[i].id, at);
    FilterLengthMonotone(cs, (c: Correspondence) => c.status == Waiting,
      (c: Correspondence) => c.status == Waiting && c.id != cs[i].id);
    assert cs[i] in cs;
  }

  /** Delivery keeps every unit number, so it commutes with restricting to a
      unit. */
  lemma DeliverOfResidence(cs: seq<Correspondence>, id: string, at: int, residence: Option<string>)
    ensures CorrespondencesOf(DeliverById(cs, id, at), residence)
         == DeliverById(CorrespondencesOf(cs, residence), id, at)
  {
    FilterUpdateCommute(cs, (c: Correspondence) => c.id == id, (c: Correspondence) => Deliver(c, at),
      (c: Correspondence) => c.AtResidence(residence));
  }

  /** The record `handleSubmit` hands to `addCorrespondence`: waiting, not
      delivered. */
  function ArrivalDraft(residenceNumber: string, kind: CorrespondenceType, description: string, date: int)
    : (d: CorrespondenceDraft)
    ensures d.status == Waiting && d.deliveredAt.None?
    ensures d.residenceNumber == residenceNumber && d.kind == kind && d.description == description && d.date == date
  {
    CorrespondenceDraft(residenceNumber, kind, description, date, Waiting, None)
  }

  /** `CorrespondencesList`: the component's copy of the list, its filter,
      and the store it reads and writes. */
  class CorrespondencesList {
    var correspondences: seq<Correspondence>
    var filter: StatusFilter<CorrespondenceStatus>
    const store: Store

    /** Mounting reads the stored list; the filter starts at "all". */
    constructor (store: Store)
      ensures this.store == store
      ensures correspondences == Contents(store.correspondences) && filter == All
    {
      this.store := store;
      var all := store.GetCorrespondences();
      correspondences := all;
      filter := All;
    }

    /** The rows on screen. */
    function Shown(): (r: seq<Correspondence>)
      reads this
      ensures filter.All? ==> r == correspondences
    {
      FilteredCorrespondences(correspondences, filter)
    }

    method SetFilter(f: StatusFilter<CorrespondenceStatus>)
      modifies this`filter
      ensures filter == f
    {
      filter := f;
    }

    /** `handleSubmit`: stores a new waiting item and re-reads the list, so
        the new item is the last row. */
    method HandleSubmit(residenceNumber: string, kind: CorrespondenceType, description: string, date: int, now: nat)
      returns (c: Correspondence)
      modifies this`correspondences, store`correspondences
      ensures c == ArrivalDraft(residenceNumber, kind, description, date).WithId(RecordId(CorrespondenceKind, now))
      ensures store.correspondences == Stored(Contents(old(store.correspondences)) + [c])
      ensures correspondences == Contents(old(store.correspondences)) + [c]
    {
      c := store.AddCorrespondence(ArrivalDraft(residenceNumber, kind, description, date), now);
      var all := store.GetCorrespondences();
      correspondences := all;
    }

    /** `handleDelivery`: delivers the id in the component's own copy and
        writes that copy back to the store. */
    method HandleDelivery(id: string, at: int)
      modifies this`correspondences, store`correspondences
      ensures correspondences == DeliverById(old(correspondences), id, at)
      ensures store.correspondences == Stored(correspondences)
    {
      var updated := DeliverById(correspondences, id, at);
      store.SaveCorrespondences(updated);
      correspondences := updated;
    }
  }
}
