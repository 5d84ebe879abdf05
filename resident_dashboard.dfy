/** The resident's overview: the unit's visitors inside, its items waiting at
    the desk, and the communications, with the short lists under them. */
module ResidentDashboard {
  import opened Seqs
  import opened AuthTypes
  import opened Storage
  import opened Queries
  import opened AdminDashboard

  /** What the overview shows. */
  datatype ResidentOverview = ResidentOverview(
    activeVisitors: seq<Visitor>,
    pendingCorrespondences: seq<Correspondence>,
    communications: seq<Communication>,
    highPriority: seq<Communication>)

  /** The overview the logged-in `user` gets over the collections `c`. */
  function Overview(c: Collections, user: Option<User>): (r: ResidentOverview)
    ensures forall v :: v in r.activeVisitors <==>
      v in Contents(c.visitors) && v.AtResidence(ResidenceOf(user)) && v.status == Inside
    ensures forall x :: x in r.pendingCorrespondences <==>
      x in Contents(c.correspondences) && x.AtResidence(ResidenceOf(user)) && x.status == Waiting
    ensures r.communications == Contents(c.communications)
    ensures forall m :: m in r.highPriority <==> m in r.communications && m.priority == High
  {
    var residence := ResidenceOf(user);
    ResidentOverview(
      ActiveVisitors(VisitorsOf(Contents(c.visitors), residence)),
      PendingCorrespondences(CorrespondencesOf(Contents(c.correspondences), residence)),
      Contents(c.communications),
      HighPriority(Contents(c.communications)))
  }

  /** A user without a residence number sees no visitors and no items. */
  lemma NoResidenceSeesNothing(c: Collections, user: Option<User>)
    requires ResidenceOf(user).None?
    ensures Overview(c, user).activeVisitors == []
    ensures Overview(c, user).pendingCorrespondences == []
  {
  }

  /** The resident's lists are the administrator's lists restricted to the
      unit, in the same order. */
  lemma ResidentViewRestrictsAdminView(c: Collections, user: Option<User>)
    ensures Overview(c, user).activeVisitors
         == VisitorsOf(AdminDashboard.Overview(c).activeVisitors, ResidenceOf(user))
    ensures Overview(c, user).pendingCorrespondences
         == CorrespondencesOf(AdminDashboard.Overview(c).pendingCorrespondences, ResidenceOf(user))
  {
    ActiveVisitorsOfResidence(Contents(c.visitors), ResidenceOf(user));
    PendingOfResidence(Contents(c.correspondences), ResidenceOf(user));
  }

  /** The first three visitors inside. */
  function VisitorPreview(o: ResidentOverview): (r: seq<Visitor>)
    ensures |r| == if |o.activeVisitors| < 3 then |o.activeVisitors| else 3
    ensures r <= o.activeVisitors
  {
    Take(o.activeVisitors, 3)
  }

  /** The first three waiting items. */
  function CorrespondencePreview(o: ResidentOverview): (r: seq<Correspondence>)
    ensures |r| == if |o.pendingCorrespondences| < 3 then |o.pendingCorrespondences| else 3
    ensures r <= o.pendingCorrespondences
  {
    Take(o.pendingCorrespondences, 3)
  }

  /** The first two high-priority communications; the box is shown only when
      there is at least one. */
  function HighPriorityPreview(o: ResidentOverview): (r: seq<Communication>)
    ensures |r| == if |o.highPriority| < 2 then |o.highPriority| else 2
    ensures r <= o.highPriority
  {
    Take(o.highPriority, 2)
  }

  /** Rendering the overview reads the three collections and changes nothing. */
  method Render(store: Store, user: Option<User>) returns (o: ResidentOverview)
    ensures o == Overview(store.Snapshot(), user)
  {
    var visitors := store.GetVisitors();
    var correspondences := store.GetCorrespondences();
    var communications := store.GetCommunications();
    var residence := ResidenceOf(user);
    o := ResidentOverview(
      ActiveVisitors(VisitorsOf(visitors, residence)),
      PendingCorrespondences(CorrespondencesOf(correspondences, residence)),
      communications,
      HighPriority(communications));
  }
}
