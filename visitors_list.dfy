/** The administrator's visitor log: the status filter, registering an entry
    and registering an exit. The exit transition is shared with the
    resident's visitor screen. */
module VisitorsList {
  import opened Seqs
  import opened AuthTypes
  import opened Ids
  import opened Storage
  import opened Queries

  /** The filter select: every record, or only those with one status. */
  datatype StatusFilter<S> = All | Only(status: S)

  /** Whether a visitor has the given status. */
  function StatusIs(status: VisitorStatus): Visitor -> bool
  {
    (v: Visitor) => v.status == status
  }

  /** The rows the table shows under `filter`. */
  function FilteredVisitors(vs: seq<Visitor>, filter: StatusFilter<VisitorStatus>): (r: seq<Visitor>)
    ensures filter.All? ==> r == vs
    ensures filter.Only? ==> forall v :: v in r <==> v in vs && v.status == filter.status
  {
    if filter.All? then vs else Filter(vs, StatusIs(filter.status))
  }

  /** The two status filters split the log: every record shows under exactly
      one of them, so their row counts add up to the whole log. */
  lemma StatusFiltersPartition(vs: seq<Visitor>)
    ensures |FilteredVisitors(vs, Only(Inside))| + |FilteredVisitors(vs, Only(Left))| == |vs|
  {
    FilterSplit(vs, StatusIs(Inside), StatusIs(Left));
  }

  /** The exit button is offered exactly for visitors still inside. */
  predicate ExitOffered(v: Visitor)
  {
    v.status == Inside
  }

  /** One visitor after leaving at `exitTime`: status left, exit time set,
      every other field kept. */
  function Checkout(v: Visitor, exitTime: string): (r: Visitor)
    ensures r.status == Left && r.exitTime == Some(exitTime)
    ensures r.id == v.id && r.name == v.name && r.residenceNumber == v.residenceNumber
    ensures r.entryTime == v.entryTime && r.date == v.date
  {
    v.(status := Left, exitTime := Some(exitTime))
  }

  /** The log after `handleExit(id)`: every record with that id checked out,
      every other record unchanged, positions kept. */
  function CheckoutById(vs: seq<Visitor>, id: string, exitTime: string): (r: seq<Visitor>)
    ensures |r| == |vs|
    ensures forall i :: 0 <= i < |vs| && vs[i].id == id ==> r[i] == Checkout(vs[i], exitTime)
    ensures forall i :: 0 <= i < |vs| && vs[i].id != id ==> r[i] == vs[i]
  {
    Update(vs, (v: Visitor) => v.id == id, (v: Visitor) => Checkout(v, exitTime))
  }

  /** Registering the exit of an unknown id changes nothing. */
  lemma CheckoutUnknownId(vs: seq<Visitor>, id: string, exitTime: string)
    requires forall v :: v in vs ==> v.id != id
    ensures CheckoutById(vs, id, exitTime) == vs
  {
    UpdateNoneSelected(vs, (v: Visitor) => v.id == id, (v: Visitor) => Checkout(v, exitTime));
  }

  /** The handler does not look at the status: registering the exit of the
      same id again overwrites the first exit time with the second. */
  lemma CheckoutTwice(vs: seq<Visitor>, id: string, first: string, second: string)
    ensures CheckoutById(CheckoutById(vs, id, first), id, second) == CheckoutById(vs, id, second)
  {
    UpdateOverride(vs, (v: Visitor) => v.id == id, (v: Visitor) => Checkout(v, first),
      (v: Visitor) => Checkout(v, second));
  }

  /** After the exit, the visitors inside are those inside before except the
      ones with that id, in the same order; none of them is offered an exit
      any more. */
  lemma CheckoutLeavesActive(vs: seq<Visitor>, id: string, exitTime: string)
    ensures ActiveVisitors(CheckoutById(vs, id, exitTime))
         == Filter(vs, (v: Visitor) => v.status == Inside && v.id != id)
    ensures forall v :: v in CheckoutById(vs, id, exitTime) && v.id == id ==> !ExitOffered(v)
  {
    FilterUpdateDrops(vs, (v: Visitor) => v.id == id, (v: Visitor) => Checkout(v, exitTime),
      (v: Visitor) => v.status == Inside, (v: Visitor) => v.status == Inside && v.id != id);
  }

  /** The exit of a visitor who is inside lowers the count of visitors inside. */
  lemma CheckoutLowersActiveCount(vs: seq<Visitor>, i: nat, exitTime: string)
    requires i < |vs| && vs[i].status == Inside
    ensures |ActiveVisitors(CheckoutById(vs, vs[i].id, exitTime))| < |ActiveVisitors(vs)|
  {
    CheckoutLeavesActive(vs, vs[i].id, exitTime);
    FilterLengthMonotone(vs, (v: Visitor) => v.status == Inside,
      (v: Visitor) => v.status == Inside && v.id != vs[i].id);
    assert vs[i] in vs;
  }

  /** Checking out commutes with restricting to a residence, since it keeps
      every residence number: the resident's screen after an exit is its old
      list with the exit applied. */
  lemma CheckoutOfResidence(vs: seq<Visitor>, id: string, exitTime: string, residence: Option<string>)
    ensures VisitorsOf(CheckoutById(vs, id, exitTime), residence)
         == CheckoutById(VisitorsOf(vs, residence), id, exitTime)
  {
    FilterUpdateCommute(vs, (v: Visitor) => v.id == id, (v: Visitor) => Checkout(v, exitTime),
      (v: Visitor) => v.AtResidence(residence));
  }

  /** The record `handleSubmit` hands to `addVisitor`: inside, no exit time. */
  function EntryDraft(name: string, residenceNumber: string, entryTime: string, date: int): (d: VisitorDraft)
    ensures d.status == Inside && d.exitTime.None?
    ensures d.name == name && d.residenceNumber == residenceNumber && d.entryTime == entryTime && d.date == date
  {
    VisitorDraft(name, residenceNumber, entryTime, None, date, Inside)
  }

  /** `VisitorsList`: the component's copy of the log, its filter, and the
      store it reads and writes. */
  class VisitorsList {
    var visitors: seq<Visitor>
    var filter: StatusFilter<VisitorStatus>
    const store: Store

    /** Mounting reads the stored log; the filter starts at "all". */
    constructor (store: Store)
      ensures this.store == store
      ensures visitors == Contents(store.visitors) && filter == All
    {
      this.store := store;
      var all := store.GetVisitors();
      visitors := all;
      filter := All;
    }

    /** The rows on screen. */
    function Shown(): (r: seq<Visitor>)
      reads this
      ensures filter.All? ==> r == visitors
    {
      FilteredVisitors(visitors, filter)
    }

    method SetFilter(f: StatusFilter<VisitorStatus>)
      modifies this`filter
      ensures filter == f
    {
      filter := f;
    }

    /** `handleSubmit`: stores a new entry and re-reads the log, so the new
        record is the last row. The name and residence are taken as typed. */
    method HandleSubmit(name: string, residenceNumber: string, entryTime: string, date: int, now: nat)
      returns (v: Visitor)
      modifies this`visitors, store`visitors
      ensures v == EntryDraft(name, residenceNumber, entryTime, date).WithId(RecordId(VisitorKind, now))
      ensures store.visitors == Stored(Contents(old(store.visitors)) + [v])
      ensures visitors == Contents(old(store.visitors)) + [v]
    {
      v := store.AddVisitor(EntryDraft(name, residenceNumber, entryTime, date), now);
      var all := store.GetVisitors();
      visitors := all;
    }

    /** `handleExit`: checks out the id in the component's own copy and
        writes that copy back to the store. */
    method HandleExit(id: string, exitTime: string)
      modifies this`visitors, store`visitors
      ensures visitors == CheckoutById(old(visitors), id, exitTime)
      ensures store.visitors == Stored(visitors)
    {
      var updated := CheckoutById(visitors, id, exitTime);
      store.SaveVisitors(updated);
      visitors := updated;
    }
  }
}
