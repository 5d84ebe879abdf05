/** The resident's notice board: communications ordered by priority and then
    by date, and the count of high-priority ones. */
module CommunicationsView {
  import opened Seqs
  import opened AuthTypes
  import opened Storage
  import opened Queries

  /** `priorityOrder`: high 3, medium 2, low 1. */
  function Rank(p: Priority): (r: int)
    ensures 1 <= r <= 3
    ensures r == 3 <==> p == High
  {
    match p
    case High => 3
    case Medium => 2
    case Low => 1
  }

  /** The ranks order the priorities strictly. */
  lemma RankInjective(p: Priority, q: Priority)
    requires Rank(p) == Rank(q)
    ensures p == q
  {
  }

  /** The sort comparator: the priority difference, or the date difference
      when the priorities are equal. Negative means `a` comes first. */
  function Compare(a: Communication, b: Communication): (r: int)
    ensures r < 0 <==> Rank(a.priority) > Rank(b.priority)
                       || (a.priority == b.priority && a.date > b.date)
    ensures r == 0 <==> a.priority == b.priority && a.date == b.date
  {
    var priorityDiff := Rank(b.priority) - Rank(a.priority);
    if priorityDiff != 0 then priorityDiff else b.date - a.date
  }

  /** The comparator is antisymmetric, as `Array.prototype.sort` requires of
      a consistent comparator. */
  lemma CompareAntisymmetric(a: Communication, b: Communication)
    ensures Compare(a, b) == -Compare(b, a)
  {
  }

  /** `a` may stand before `b` in the sorted board. */
  predicate MayPrecede(a: Communication, b: Communication)
  {
    Compare(a, b) <= 0
  }

  /** The comparator induces a total preorder, so sorting by it is well
      defined up to the order of equal items. */
  lemma MayPrecedeTotalPreorder()
    ensures TotalPreorder(MayPrecede)
  {
    forall a: Communication, b: Communication, c: Communication | MayPrecede(a, b) && MayPrecede(b, c)
      ensures MayPrecede(a, c)
    {
      if a.priority == b.priority && b.priority == c.priority {
        assert a.date >= b.date >= c.date;
      }
    }
  }

  /** On the sorted board every high-priority item is above every other
      item, and items of one priority go newest first. */
  lemma SortedBoard(s: seq<Communication>, i: nat, j: nat)
    requires SortedBy(s, MayPrecede)
    requires i < j < |s|
    ensures s[j].priority == High ==> s[i].priority == High
    ensures Rank(s[i].priority) >= Rank(s[j].priority)
    ensures s[i].priority == s[j].priority ==> s[i].date >= s[j].date
  {
    assert MayPrecede(s[i], s[j]);
  }

  /** The banner's count. */
  function HighPriorityCount(ms: seq<Communication>): (r: nat)
    ensures r <= |ms|
    ensures r == 0 <==> forall m :: m in ms ==> m.priority != High
  {
    var high := HighPriority(ms);
    assert high != [] ==> high[0] in high;
    |high|
  }

  /** Reordering the board does not change the count. */
  lemma HighPriorityCountPermutation(s: seq<Communication>, t: seq<Communication>)
    requires multiset(s) == multiset(t)
    ensures HighPriorityCount(s) == HighPriorityCount(t)
  {
    FilterLengthPermutation(s, t, (m: Communication) => m.priority == High);
  }

  /** `CommunicationsView`: the state array, read once at mount and sorted in
      place on every render. */
  class CommunicationsView {
    const communications: array<Communication>

    /** Mounting reads the stored communications. */
    constructor (store: Store)
      ensures communications[..] == Contents(store.communications)
      ensures fresh(communications)
    {
      var all := store.GetCommunications();
      communications := new Communication[|all|](i requires 0 <= i < |all| => all[i]);
    }

    /** A render: sorts the state array in place and counts the high-priority
        items, which the sort does not change. */
    method Render() returns (highPriorityCount: nat)
      modifies communications
      ensures SortedBy(communications[..], MayPrecede)
      ensures multiset(communications[..]) == multiset(old(communications[..]))
      ensures highPriorityCount == HighPriorityCount(communications[..])
      ensures highPriorityCount == HighPriorityCount(old(communications[..]))
    {
      MayPrecedeTotalPreorder();
      SortBy(communications, MayPrecede);
      highPriorityCount := HighPriorityCount(communications[..]);
      HighPriorityCountPermutation(communications[..], old(communications[..]));
    }
  }
}
