/** The resident's visitor screen: the visitors of the logged-in user's unit,
    registering one, registering an exit, and the recent-visitors table. */
module VisitorManagement {
  import opened Seqs
  import opened AuthTypes
  import opened Ids
  import opened Storage
  import opened Queries
  import opened VisitorsList

  /** `!user?.residenceNumber` is false: there is a residence number and it
      is not the empty string. */
  predicate CanRegister(residence: Option<string>)
  {
    residence.Some? && residence.value != ""
  }

  /** The comparator `new Date(b.date) - new Date(a.date)` lets `a` stand
      before `b` when it is not positive, that is when `a` is not older. */
  predicate NewerFirst(a: Visitor, b: Visitor)
  {
    b.date - a.date <= 0
  }

  /** Newest-first is a total preorder. */
  lemma NewerFirstTotalPreorder()
    ensures TotalPreorder(NewerFirst)
  {
  }

  /** In a newest-first table, no row is newer than a row above it. */
  lemma NewerFirstRows(s: seq<Visitor>, i: nat, j: nat)
    requires SortedBy(s, NewerFirst)
    requires i < j < |s|
    ensures s[j].date <= s[i].date
  {
  }

  /** The visitors dated no earlier than `weekAgo`. */
  function Recent(vs: seq<Visitor>, weekAgo: int): (r: seq<Visitor>)
    ensures forall v :: v in r <==> v in vs && v.date >= weekAgo
  {
    Filter(vs, (v: Visitor) => v.date >= weekAgo)
  }

  /** The table: the recent visitors, newest first. `weekAgo` is the moment
      seven days before now. */
  method RecentVisitors(vs: seq<Visitor>, weekAgo: int) returns (r: seq<Visitor>)
    ensures multiset(r) == multiset(Recent(vs, weekAgo))
    ensures SortedBy(r, NewerFirst)
    ensures forall v :: v in r ==> v.date >= weekAgo
  {
    var recent := Recent(vs, weekAgo);
    var a := new Visitor[|recent|](i requires 0 <= i < |recent| => recent[i]);
    assert a[..] == recent;
    NewerFirstTotalPreorder();
    SortBy(a, NewerFirst);
    r := a[..];
    forall v | v in r
      ensures v.date >= weekAgo
    {
      assert v in multiset(r);
    }
  }

  /** `VisitorManagement`: the logged-in user, the component's copy of the
      unit's visitors, and the store. */
  class VisitorManagement {
    var visitors: seq<Visitor>
    const user: Option<User>
    const store: Store

    /** The unit the screen is about. */
    function Residence(): Option<string>
    {
      ResidenceOf(user)
    }

    /** Mounting reads the stored visitors of the user's unit. */
    constructor (store: Store, user: Option<User>)
      ensures this.store == store && this.user == user
      ensures visitors == VisitorsOf(Contents(store.visitors), ResidenceOf(user))
    {
      this.store := store;
      this.user := user;
      var all := store.GetVisitors();
      visitors := VisitorsOf(all, ResidenceOf(user));
    }

    /** `handleSubmit`: without a usable residence number nothing happens;
        otherwise a visitor inside is stored for the user's unit and the
        unit's list is re-read. */
    method HandleSubmit(name: string, entryTime: string, date: int, now: nat) returns (added: Option<Visitor>)
      modifies this`visitors, store`visitors
      ensures !CanRegister(Residence()) ==>
        added.None? && visitors == old(visitors) && store.visitors == old(store.visitors)
      ensures CanRegister(Residence()) ==>
        && added == Some(EntryDraft(name, Residence().value, entryTime, date).WithId(RecordId(VisitorKind, now)))
        && store.visitors == Stored(Contents(old(store.visitors)) + [added.value])
        && visitors == VisitorsOf(Contents(store.visitors), Residence())
        && added.value in visitors
    {
      var residence := Residence();
      if !CanRegister(residence) {
        return None;
      }
      var v := store.AddVisitor(EntryDraft(name, residence.value, entryTime, date), now);
      var all := store.GetVisitors();
      visitors := VisitorsOf(all, residence);
      added := Some(v);
    }

    /** `handleExit`: checks out the id in the whole stored log, writes it
        back, and shows the unit's part of it. */
    method HandleExit(id: string, exitTime: string)
      modifies this`visitors, store`visitors
      ensures store.visitors == Stored(CheckoutById(Contents(old(store.visitors)), id, exitTime))
      ensures visitors == VisitorsOf(Contents(store.visitors), Residence())
      ensures visitors == CheckoutById(VisitorsOf(Contents(old(store.visitors)), Residence()), id, exitTime)
    {
      var all := store.GetVisitors();
      var updated := CheckoutById(all, id, exitTime);
      store.SaveVisitors(updated);
      visitors := VisitorsOf(updated, Residence());
      CheckoutOfResidence(all, id, exitTime, Residence());
    }
  }
}
