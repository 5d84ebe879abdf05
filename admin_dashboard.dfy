/** The administrator's overview: the resident, visitor, correspondence and
    communication counts and the short lists under them. */
module AdminDashboard {
  import opened Seqs
  import opened AuthTypes
  import opened Storage
  import opened Queries

  /** What the overview shows. */
  datatype AdminOverview = AdminOverview(
    residents: seq<User>,
    activeVisitors: seq<Visitor>,
    pendingCorrespondences: seq<Correspondence>,
    communications: seq<Communication>)

  /** The overview of the collections `c` as they stand after seeding. */
  function Overview(c: Collections): (r: AdminOverview)
    ensures forall u :: u in r.residents <==> u in Contents(c.users) && u.kind == Resident
    ensures forall v :: v in r.activeVisitors <==> v in Contents(c.visitors) && v.status == Inside
    ensures forall x :: x in r.pendingCorrespondences <==> x in Contents(c.correspondences) && x.status == Waiting
    ensures r.communications == Contents(c.communications)
  {
    AdminOverview(
      Residents(Contents(c.users)),
      ActiveVisitors(Contents(c.visitors)),
      PendingCorrespondences(Contents(c.correspondences)),
      Contents(c.communications))
  }

  /** How many items each short list shows. */
  const PreviewLength := 5

  /** The short list of visitors inside: the first five of them. */
  function VisitorPreview(o: AdminOverview): (r: seq<Visitor>)
    ensures |r| == if |o.activeVisitors| < PreviewLength then |o.activeVisitors| else PreviewLength
    ensures r <= o.activeVisitors
  {
    Take(o.activeVisitors, PreviewLength)
  }

  /** The short list of waiting items: the first five of them. */
  function CorrespondencePreview(o: AdminOverview): (r: seq<Correspondence>)
    ensures |r| == if |o.pendingCorrespondences| < PreviewLength then |o.pendingCorrespondences| else PreviewLength
    ensures r <= o.pendingCorrespondences
  {
    Take(o.pendingCorrespondences, PreviewLength)
  }

  /** On first run the overview counts the two default residents, nobody
      inside, nothing waiting and the two default announcements. */
  lemma FirstRunOverview(now: int)
    ensures var o := Overview(Seeded(EmptyCollections, now));
      && |o.residents| == 2 && o.activeVisitors == [] && o.pendingCorrespondences == []
      && |o.communications| == 2
  {
    var users := DefaultUsers();
    var isResident := (u: User) => u.kind == Resident;
    assert users == [users[0]] + [users[1]] + [users[2]];
    FilterAppend([users[0]] + [users[1]], [users[2]], isResident);
    FilterAppend([users[0]], [users[1]], isResident);
  }

  /** Rendering the overview: `getUsers` seeds the store first, then the four
      collections are read. */
  method Render(store: Store, now: int) returns (o: AdminOverview)
    modifies store`users, store`visitors, store`correspondences, store`communications
    ensures store.Snapshot() == Seeded(old(store.Snapshot()), now)
    ensures o == Overview(store.Snapshot())
  {
    var users := store.GetUsers(now);
    var visitors := store.GetVisitors();
    var correspondences := store.GetCorrespondences();
    var communications := store.GetCommunications();
    o := AdminOverview(Residents(users), ActiveVisitors(visitors),
      PendingCorrespondences(correspondences), communications);
  }
}
