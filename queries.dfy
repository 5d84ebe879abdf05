/** The derived lists the dashboards and views compute from the stored
    collections: a residence's records, the visitors still inside, the
    correspondence still waiting, the high-priority communications and the
    resident accounts. */
module Queries {
  import opened Seqs
  import opened AuthTypes

  /** `user?.residenceNumber`: absent without a user, and for a user without
      a residence number. */
  function ResidenceOf(user: Option<User>): (r: Option<string>)
    ensures r.Some? <==> user.Some? && user.value.residenceNumber.Some?
    ensures r.Some? ==> r == user.value.residenceNumber
  {
    if user.Some? then user.value.residenceNumber else None
  }

  /** The visitors registered for `residence`; none at all when the residence
      is absent. */
  function VisitorsOf(vs: seq<Visitor>, residence: Option<string>): (r: seq<Visitor>)
    ensures forall v :: v in r <==> v in vs && v.AtResidence(residence)
    ensures residence.None? ==> r == []
  {
    var r := Filter(vs, (v: Visitor) => v.AtResidence(residence));
    assert r != [] ==> r[0] in r;
    r
  }

  /** The visitors still inside the condominium. */
  function ActiveVisitors(vs: seq<Visitor>): (r: seq<Visitor>)
    ensures forall v :: v in r <==> v in vs && v.status == Inside
  {
    Filter(vs, (v: Visitor) => v.status == Inside)
  }

  /** The correspondence addressed to `residence`; none when it is absent. */
  function CorrespondencesOf(cs: seq<Correspondence>, residence: Option<string>): (r: seq<Correspondence>)
    ensures forall c :: c in r <==> c in cs && c.AtResidence(residence)
    ensures residence.None? ==> r == []
  {
    var r := Filter(cs, (c: Correspondence) => c.AtResidence(residence));
    assert r != [] ==> r[0] in r;
    r
  }

  /** The correspondence still waiting at the desk. */
  function PendingCorrespondences(cs: seq<Correspondence>): (r: seq<Correspondence>)
    ensures forall c :: c in r <==> c in cs && c.status == Waiting
  {
    Filter(cs, (c: Correspondence) => c.status == Waiting)
  }

  /** The high-priority communications. */
  function HighPriority(ms: seq<Communication>): (r: seq<Communication>)
    ensures forall m :: m in r <==> m in ms && m.priority == High
  {
    Filter(ms, (m: Communication) => m.priority == High)
  }

  /** The resident accounts. */
  function Residents(users: seq<User>): (r: seq<User>)
    ensures forall u :: u in r <==> u in users && u.kind == Resident
  {
    Filter(users, (u: User) => u.kind == Resident)
  }

  /** A residence's active visitors are the active visitors restricted to the
      residence: the resident's overview and the administrator's agree. */
  lemma ActiveVisitorsOfResidence(vs: seq<Visitor>, residence: Option<string>)
    ensures ActiveVisitors(VisitorsOf(vs, residence)) == VisitorsOf(ActiveVisitors(vs), residence)
  {
    var both := (v: Visitor) => v.AtResidence(residence) && v.status == Inside;
    FilterFilter(vs, (v: Visitor) => v.AtResidence(residence), (v: Visitor) => v.status == Inside, both);
    FilterFilter(vs, (v: Visitor) => v.status == Inside, (v: Visitor) => v.AtResidence(residence), both);
  }

  /** The same for waiting correspondence. */
  lemma PendingOfResidence(cs: seq<Correspondence>, residence: Option<string>)
    ensures PendingCorrespondences(CorrespondencesOf(cs, residence)) == CorrespondencesOf(PendingCorrespondences(cs), residence)
  {
    var both := (c: Correspondence) => c.AtResidence(residence) && c.status == Waiting;
    FilterFilter(cs, (c: Correspondence) => c.AtResidence(residence), (c: Correspondence) => c.status == Waiting, both);
    FilterFilter(cs, (c: Correspondence) => c.status == Waiting, (c: Correspondence) => c.AtResidence(residence), both);
  }

  /** Restricting to one residence never shows more waiting items than the
      administrator's count. */
  lemma PendingOfResidenceBounded(cs: seq<Correspondence>, residence: Option<string>)
    ensures |PendingCorrespondences(CorrespondencesOf(cs, residence))| <= |PendingCorrespondences(cs)|
  {
    PendingOfResidence(cs, residence);
  }
}
