/** Trimming customer allocations a quantity edit has invalidated, earliest
    reservations first served. */
module OverAllocation {
  import opened Standard
  import opened Sorting
  import opened ContainerPlanner
  import opened BaleAssignment

  datatype Reserved = Reserved(id: int, article: string, qty: int)
  datatype ReservedContainer = ReservedContainer(planned: map<string, int>, allocations: seq<Reserved>)

  datatype Share = Share(id: int, qty: int)
  datatype Change = Change(id: int, keep: int)

  /** The allocations of an article, quantities not below zero. */
  function SharesOf(allocations: seq<Reserved>, article: string): seq<Share> {
    if allocations == [] then []
    else
      var last := allocations[|allocations| - 1];
      SharesOf(allocations[..|allocations| - 1], article)
      + if last.article == article then [Share(last.id, NonNegative(last.qty))] else []
  }

  function ByShareId(): (Share, Share) -> bool { (a: Share, b: Share) => a.id <= b.id }

  function ByChangeId(): (Change, Change) -> bool { (a: Change, b: Change) => a.id <= b.id }

  function Ranked(c: ReservedContainer, article: string): seq<Share> {
    Sort(ByShareId(), SharesOf(c.allocations, article))
  }

  /** What each share keeps when the budget is given out in order. */
  function KeptShares(shares: seq<Share>, budget: int): (kept: seq<Share>)
    ensures |kept| == |shares|
  {
    if shares == [] then []
    else
      var keep := Min(shares[0].qty, budget);
      [shares[0].(qty := keep)] + KeptShares(shares[1..], budget - keep)
  }

  /** The changes that trimming to a budget needs. */
  function Trims(shares: seq<Share>, budget: int): seq<Change> {
    if shares == [] then []
    else
      var keep := Min(shares[0].qty, budget);
      (if keep != shares[0].qty then [Change(shares[0].id, keep)] else []) + Trims(shares[1..], budget - keep)
  }

  function TrimsIn(c: ReservedContainer, article: string): seq<Change> {
    Trims(Ranked(c, article), Lookup(c.planned, article))
  }

  ghost predicate ChangedIn(c: ReservedContainer, change: Change) {
    exists article :: change in TrimsIn(c, article)
  }

  ghost predicate IsChange(containers: seq<ReservedContainer>, change: Change) {
    exists i :: 0 <= i < |containers| && ChangedIn(containers[i], change)
  }

  // ---- Which changes there are --------------------------------------------------------------

  ghost predicate NoneNegative(shares: seq<Share>) {
    forall i :: 0 <= i < |shares| ==> shares[i].qty >= 0
  }

  ghost predicate OneEach(shares: seq<Share>) {
    forall i, j :: 0 <= i < j < |shares| ==> shares[i].id != shares[j].id
  }

  ghost predicate InIdOrder(shares: seq<Share>) {
    forall i, j :: 0 <= i < j < |shares| ==> shares[i].id < shares[j].id
  }

  /** The changes are where what is kept differs. */
  lemma {:induction false} TrimsAre(shares: seq<Share>, budget: int, change: Change)
    ensures change in Trims(shares, budget)
            <==> exists k :: 0 <= k < |shares| && shares[k].id == change.id
                             && KeptShares(shares, budget)[k].qty == change.keep != shares[k].qty
  {
    if shares != [] {
      var keep := Min(shares[0].qty, budget);
      var kept, rest := KeptShares(shares, budget), KeptShares(shares[1..], budget - keep);
      TrimsAre(shares[1..], budget - keep, change);
      assert forall k :: 1 <= k < |shares| ==> kept[k] == rest[k - 1] && shares[k] == shares[1..][k - 1];
      if change in Trims(shares[1..], budget - keep) {
        var k :| 0 <= k < |shares[1..]| && shares[1..][k].id == change.id
                 && rest[k].qty == change.keep != shares[1..][k].qty;
        assert shares[k + 1].id == change.id && kept[k + 1].qty == change.keep;
      }
      if exists k :: 0 <= k < |shares| && shares[k].id == change.id && kept[k].qty == change.keep != shares[k].qty {
        var k :| 0 <= k < |shares| && shares[k].id == change.id && kept[k].qty == change.keep != shares[k].qty;
        if k > 0 { assert shares[1..][k - 1].id == change.id && rest[k - 1].qty == change.keep; }
      }
    }
  }

  ghost predicate UniqueReserved(allocations: seq<Reserved>) {
    forall j, k :: 0 <= j < k < |allocations| ==> allocations[j].id != allocations[k].id
  }

  ghost predicate HasReserved(allocations: seq<Reserved>, id: int) {
    exists j :: 0 <= j < |allocations| && allocations[j].id == id
  }

  /** Allocation ids are the keys of one table. */
  ghost predicate ReservedDistinct(containers: seq<ReservedContainer>) {
    && (forall i :: 0 <= i < |containers| ==> UniqueReserved(containers[i].allocations))
    && (forall i, k, id :: 0 <= i < k < |containers| && HasReserved(containers[i].allocations, id) ==>
                             !HasReserved(containers[k].allocations, id))
  }

  lemma {:induction false} SharesOfMembers(allocations: seq<Reserved>, article: string, s: Share)
    ensures s in SharesOf(allocations, article)
            <==> exists j :: 0 <= j < |allocations| && allocations[j].id == s.id && allocations[j].article == article
                             && NonNegative(allocations[j].qty) == s.qty
  {
    if allocations != [] {
      var front, last := allocations[..|allocations| - 1], allocations[|allocations| - 1];
      SharesOfMembers(front, article, s);
      assert allocations == front + [last];
      if s in SharesOf(front, article) {
        var j :| 0 <= j < |front| && front[j].id == s.id && front[j].article == article
                 && NonNegative(front[j].qty) == s.qty;
        assert allocations[j] == front[j];
      }
      if exists j :: 0 <= j < |allocations| && allocations[j].id == s.id && allocations[j].article == article
                     && NonNegative(allocations[j].qty) == s.qty {
        var j :| 0 <= j < |allocations| && allocations[j].id == s.id && allocations[j].article == article
                 && NonNegative(allocations[j].qty) == s.qty;
        if j < |front| { assert front[j] == allocations[j]; }
      }
    }
  }

  lemma {:induction false} SharesOfDistinct(allocations: seq<Reserved>, article: string)
    requires UniqueReserved(allocations)
    ensures OneEach(SharesOf(allocations, article)) && NoneNegative(SharesOf(allocations, article))
  {
    if allocations != [] {
      var front, last := allocations[..|allocations| - 1], allocations[|allocations| - 1];
      SharesOfDistinct(front, article);
      var shares := SharesOf(front, article);
      forall i | 0 <= i < |shares|
        ensures shares[i].id != last.id
      {
        assert shares[i] in shares;
        SharesOfMembers(front, article, shares[i]);
      }
      assert OneEach(shares + [Share(last.id, NonNegative(last.qty))]);
      assert shares + [] == shares;
    }
  }

  lemma {:induction false} RankedShares(c: ReservedContainer, article: string)
    requires UniqueReserved(c.allocations)
    ensures forall s :: s in Ranked(c, article) <==> s in SharesOf(c.allocations, article)
    ensures InIdOrder(Ranked(c, article)) && NoneNegative(Ranked(c, article))
  {
    var list, shares := SharesOf(c.allocations, article), Ranked(c, article);
    SharesOfDistinct(c.allocations, article);
    SortPermutes(ByShareId(), list);
    SortSorted(ByShareId(), list);
    assert Distinct(list);
    DistinctPermutation(list, shares);
    forall i | 0 <= i < |shares|
      ensures shares[i].qty >= 0
    {
      assert shares[i] in list;
    }
    forall i, j | 0 <= i < j < |shares|
      ensures shares[i].id < shares[j].id
    {
      assert shares[i] in list && shares[j] in list;
      assert ByShareId()(shares[i], shares[j]);
    }
  }

  /** The container holds the allocation under the article. */
  ghost predicate HoldsUnder(c: ReservedContainer, id: int, article: string) {
    exists j :: 0 <= j < |c.allocations| && c.allocations[j].id == id && c.allocations[j].article == article
  }

  lemma {:induction false} TrimmedIsHeld(c: ReservedContainer, article: string, change: Change)
    requires UniqueReserved(c.allocations) && change in TrimsIn(c, article)
    ensures HoldsUnder(c, change.id, article) && HasReserved(c.allocations, change.id)
  {
    var shares := Ranked(c, article);
    TrimsAre(shares, Lookup(c.planned, article), change);
    var k :| 0 <= k < |shares| && shares[k].id == change.id;
    RankedShares(c, article);
    assert shares[k] in shares;
    SharesOfMembers(c.allocations, article, shares[k]);
  }

  lemma {:induction false} TrimsDistinct(shares: seq<Share>, budget: int)
    requires OneEach(shares)
    ensures Distinct(Trims(shares, budget))
  {
    if shares != [] {
      var keep := Min(shares[0].qty, budget);
      TrimsDistinct(shares[1..], budget - keep);
      TrimsAre(shares[1..], budget - keep, Change(shares[0].id, keep));
    }
  }

  /** Nothing is listed twice when an article's changes join those of other articles. */
  lemma {:induction false} TrimsJoin(c: ReservedContainer, changes0: seq<Change>, changes: seq<Change>,
                                     article: string, others: set<string>)
    requires UniqueReserved(c.allocations) && Distinct(changes) && article !in others
    requires forall change :: change in changes0 ==> !HasReserved(c.allocations, change.id)
    requires forall change :: change in changes ==>
               change in changes0 || exists other :: other in others && change in TrimsIn(c, other)
    ensures Distinct(changes + TrimsIn(c, article))
  {
    RankedShares(c, article);
    TrimsDistinct(Ranked(c, article), Lookup(c.planned, article));
    forall change | change in changes
      ensures change !in TrimsIn(c, article)
    {
      if change in TrimsIn(c, article) { TrimmedOnce(c, changes0, change, article, others); }
    }
    AppendDistinct(changes, TrimsIn(c, article));
  }

  lemma {:induction false} TrimmedOnce(c: ReservedContainer, changes0: seq<Change>, change: Change, article: string,
                                       others: set<string>)
    requires UniqueReserved(c.allocations) && change in TrimsIn(c, article) && article !in others
    requires forall x :: x in changes0 ==> !HasReserved(c.allocations, x.id)
    ensures change !in changes0 && forall other :: other in others ==> change !in TrimsIn(c, other)
  {
    TrimmedIsHeld(c, article, change);
    forall other | other in others
      ensures change !in TrimsIn(c, other)
    {
      if change in TrimsIn(c, other) { TrimmedIsHeld(c, other, change); }
    }
  }

  // ---- The loops ------------------------------------------------------------------------

  function SharesIn(m: map<string, seq<Share>>, article: string): seq<Share> {
    if article in m then m[article] else []
  }

  ghost predicate Groups(m: map<string, seq<Share>>, allocations: seq<Reserved>) {
    forall article :: SharesIn(m, article) == SharesOf(allocations, article)
  }

  lemma {:induction false} GroupsNext(m: map<string, seq<Share>>, allocations: seq<Reserved>, a: Reserved)
    requires Groups(m, allocations)
    ensures Groups(m[a.article := SharesIn(m, a.article) + [Share(a.id, NonNegative(a.qty))]], allocations + [a])
  {
    var next := m[a.article := SharesIn(m, a.article) + [Share(a.id, NonNegative(a.qty))]];
    assert (allocations + [a])[..|allocations|] == allocations;
    forall article
      ensures SharesIn(next, article) == SharesOf(allocations + [a], article)
    {
      assert SharesIn(m, article) == SharesOf(allocations, article);
    }
  }

  method GroupShares(allocations: seq<Reserved>) returns (byArticle: map<string, seq<Share>>)
    ensures Groups(byArticle, allocations)
  {
    byArticle := map[];
    var i := 0;
    ghost var done: seq<Reserved> := [];
    while i < |allocations|
      invariant 0 <= i <= |allocations| && done == allocations[..i]
      invariant Groups(byArticle, done)
    {
      var a := allocations[i];
      GroupsNext(byArticle, done, a);
      byArticle := byArticle[a.article := SharesIn(byArticle, a.article) + [Share(a.id, NonNegative(a.qty))]];
      i := i + 1;
      done := done + [a];
      assert done == allocations[..i];
    }
    assert done == allocations;
  }

  method TrimArticle(shares: seq<Share>, planned: int) returns (changes: seq<Change>)
    ensures changes == Trims(shares, planned)
  {
    changes := [];
    var budget := planned;
    var i := 0;
    while i < |shares|
      invariant 0 <= i <= |shares|
      invariant changes + Trims(shares[i..], budget) == Trims(shares, planned)
    {
      assert shares[i..][1..] == shares[i + 1..];
      var keepQty := Min(shares[i].qty, budget);
      budget := budget - keepQty;
      if keepQty != shares[i].qty { changes := changes + [Change(shares[i].id, keepQty)]; }
      i := i + 1;
    }
  }

  /** The list holds nothing of the container yet. */
  ghost predicate ApartFrom(c: ReservedContainer, changes: seq<Change>) {
    && UniqueReserved(c.allocations) && Distinct(changes)
    && forall change :: change in changes ==> !HasReserved(c.allocations, change.id)
  }

  method TrimContainer(c: ReservedContainer, changes0: seq<Change>) returns (changes: seq<Change>)
    ensures forall change :: change in changes <==> change in changes0 || ChangedIn(c, change)
    ensures ApartFrom(c, changes0) ==> Distinct(changes)
  {
    var byArticle := GroupShares(c.allocations);
    changes := changes0;
    var rest := byArticle.Keys;
    while rest != {}
      invariant rest <= byArticle.Keys
      invariant forall change :: change in changes <==>
                  change in changes0
                  || exists article :: article in byArticle && article !in rest && change in TrimsIn(c, article)
      invariant ApartFrom(c, changes0) ==> Distinct(changes)
      decreases |rest|
    {
      var article :| article in rest;
      assert SharesIn(byArticle, article) == SharesOf(c.allocations, article);
      if ApartFrom(c, changes0) { TrimsJoin(c, changes0, changes, article, byArticle.Keys - rest); }
      var trims := TrimArticle(Sort(ByShareId(), byArticle[article]), Lookup(c.planned, article));
      rest := rest - {article};
      changes := changes + trims;
    }
    forall change, article | change in TrimsIn(c, article)
      ensures article in byArticle
    {
      assert SharesIn(byArticle, article) == SharesOf(c.allocations, article);
    }
  }

  lemma {:induction false} ChangesNext(containers: seq<ReservedContainer>, i: nat)
    requires i < |containers|
    ensures forall change :: IsChange(containers[..i + 1], change)
                             <==> IsChange(containers[..i], change) || ChangedIn(containers[i], change)
  {
    var front, more := containers[..i], containers[..i + 1];
    assert more == front + [containers[i]];
    forall change
      ensures IsChange(more, change) <==> IsChange(front, change) || ChangedIn(containers[i], change)
    {
      if IsChange(front, change) {
        var k :| 0 <= k < |front| && ChangedIn(front[k], change);
        assert more[k] == front[k];
      }
      assert more[i] == containers[i];
    }
  }

  method SelectOverAllocatedIds(containers: seq<ReservedContainer>) returns (changes: seq<Change>)
    ensures forall change :: change in changes <==> IsChange(containers, change)
    ensures Sorted(ByChangeId(), changes) && (ReservedDistinct(containers) ==> Distinct(changes))
  {
    var all: seq<Change> := [];
    var i := 0;
    while i < |containers|
      invariant 0 <= i <= |containers|
      invariant forall change :: change in all <==> IsChange(containers[..i], change)
      invariant ReservedDistinct(containers) ==> Distinct(all)
    {
      if ReservedDistinct(containers) { NotChangedYet(containers, i); }
      all := TrimContainer(containers[i], all);
      ChangesNext(containers, i);
      i := i + 1;
    }
    assert containers[..i] == containers;
    SortPermutes(ByChangeId(), all);
    SortSorted(ByChangeId(), all);
    changes := Sort(ByChangeId(), all);
    if ReservedDistinct(containers) { DistinctPermutation(all, changes); }
  }

  lemma {:induction false} NotChangedYet(containers: seq<ReservedContainer>, i: nat)
    requires ReservedDistinct(containers) && i < |containers|
    ensures forall change :: IsChange(containers[..i], change) ==> !HasReserved(containers[i].allocations, change.id)
  {
    forall change | IsChange(containers[..i], change)
      ensures !HasReserved(containers[i].allocations, change.id)
    {
      var k :| 0 <= k < |containers[..i]| && ChangedIn(containers[..i][k], change);
      var article :| change in TrimsIn(containers[k], article);
      TrimmedIsHeld(containers[k], article, change);
    }
  }

  // ---- What is kept ------------------------------------------------------------------------

  function ShareQty(): Share -> int { (s: Share) => s.qty }

  lemma {:induction false} NothingLess(shares: seq<Share>)
    requires NoneNegative(shares)
    ensures SumBy(ShareQty(), shares) >= 0
  {
    if shares != [] { NothingLess(shares[1..]); }
  }

  /** Shares keep the budget, or all they have, and none keeps anything once an
      earlier one had to give up some. */
  lemma {:induction false} KeptWithinBudget(shares: seq<Share>, budget: nat)
    requires NoneNegative(shares)
    ensures SumBy(ShareQty(), KeptShares(shares, budget)) == Min(budget, SumBy(ShareQty(), shares))
    ensures forall i :: 0 <= i < |shares| ==> 0 <= KeptShares(shares, budget)[i].qty <= shares[i].qty
    ensures forall i, j :: 0 <= i < j < |shares| && KeptShares(shares, budget)[j].qty > 0 ==>
                             KeptShares(shares, budget)[i].qty == shares[i].qty
  {
    if shares != [] {
      var keep := Min(shares[0].qty, budget);
      NothingLess(shares[1..]);
      KeptWithinBudget(shares[1..], budget - keep);
      var rest := KeptShares(shares[1..], budget - keep);
      assert KeptShares(shares, budget) == [shares[0].(qty := keep)] + rest;
      assert KeptShares(shares, budget)[1..] == rest;
      if keep < shares[0].qty { NothingKept(shares[1..]); }
    }
  }

  lemma {:induction false} NothingKept(shares: seq<Share>)
    requires NoneNegative(shares)
    ensures forall i :: 0 <= i < |shares| ==> KeptShares(shares, 0)[i].qty == 0
  {
    if shares != [] { NothingKept(shares[1..]); }
  }

  /** Trimming what is already trimmed changes nothing. */
  lemma {:induction false} KeptNeedsNoTrim(shares: seq<Share>, budget: nat)
    requires NoneNegative(shares)
    ensures Trims(KeptShares(shares, budget), budget) == []
  {
    if shares != [] {
      var keep := Min(shares[0].qty, budget);
      KeptNeedsNoTrim(shares[1..], budget - keep);
      var rest := KeptShares(shares[1..], budget - keep);
      assert KeptShares(shares, budget)[1..] == rest;
    }
  }

  // ---- Applying the changes ---------------------------------------------------------------------

  /** The new quantity of an allocation: the first change made to it, if any. */
  function NewQty(changes: seq<Change>, id: int, qty: int): int {
    if changes == [] then qty else if changes[0].id == id then changes[0].keep else NewQty(changes[1..], id, qty)
  }

  function Changed(changes: seq<Change>): Reserved -> Reserved {
    (a: Reserved) => a.(qty := NewQty(changes, a.id, a.qty))
  }

  function After(containers: seq<ReservedContainer>, changes: seq<Change>): seq<ReservedContainer> {
    Map((c: ReservedContainer) => c.(allocations := Map(Changed(changes), c.allocations)), containers)
  }

  lemma {:induction false} NewQtyIs(changes: seq<Change>, id: int, qty: int, keep: int)
    requires forall change :: change in changes && change.id == id ==> change.keep == keep
    requires keep == qty || Change(id, keep) in changes
    ensures NewQty(changes, id, qty) == keep
  {
    if changes != [] {
      assert changes[0] in changes;
      if changes[0].id != id {
        forall change | change in changes[1..]
          ensures change in changes
        {
        }
        NewQtyIs(changes[1..], id, qty, keep);
      }
    }
  }

  function ChangedShare(changes: seq<Change>): Share -> Share {
    (s: Share) => s.(qty := NonNegative(NewQty(changes, s.id, s.qty)))
  }

  /** A change to an allocation comes from its own container and article. */
  lemma {:induction false} ChangeAtHome(containers: seq<ReservedContainer>, i: nat, article: string, k: nat,
                                        change: Change)
    requires ReservedDistinct(containers) && i < |containers| && k < |Ranked(containers[i], article)|
    requires change.id == Ranked(containers[i], article)[k].id && IsChange(containers, change)
    ensures change.keep == KeptShares(Ranked(containers[i], article), Lookup(containers[i].planned, article))[k].qty
    ensures change.keep != Ranked(containers[i], article)[k].qty
  {
    var shares := Ranked(containers[i], article);
    RankedShares(containers[i], article);
    SharesOfMembers(containers[i].allocations, article, shares[k]);
    var a :| 0 <= a < |containers[i].allocations| && containers[i].allocations[a].id == change.id
             && containers[i].allocations[a].article == article;
    assert HasReserved(containers[i].allocations, change.id);
    var j :| 0 <= j < |containers| && ChangedIn(containers[j], change);
    var other :| change in TrimsIn(containers[j], other);
    var theirs, budget := Ranked(containers[j], other), Lookup(containers[j].planned, other);
    TrimsAre(theirs, budget, change);
    var l :| 0 <= l < |theirs| && theirs[l].id == change.id
      && KeptShares(theirs, budget)[l].qty == change.keep != theirs[l].qty;
    RankedShares(containers[j], other);
    SharesOfMembers(containers[j].allocations, other, theirs[l]);
    var b :| 0 <= b < |containers[j].allocations| && containers[j].allocations[b].id == change.id
             && containers[j].allocations[b].article == other;
    assert HasReserved(containers[j].allocations, change.id);
    assert i == j;
    assert a == b;
    assert l == k;
  }

  lemma {:induction false} NewShareIsKept(containers: seq<ReservedContainer>, changes: seq<Change>, i: nat,
                                          article: string, k: nat)
    requires ReservedDistinct(containers) && i < |containers| && k < |Ranked(containers[i], article)|
    requires forall change :: change in changes <==> IsChange(containers, change)
    ensures NewQty(changes, Ranked(containers[i], article)[k].id, Ranked(containers[i], article)[k].qty)
            == KeptShares(Ranked(containers[i], article), Lookup(containers[i].planned, article))[k].qty
  {
    var shares, budget := Ranked(containers[i], article), Lookup(containers[i].planned, article);
    var s, keep := shares[k], KeptShares(shares, budget)[k].qty;
    forall change | change in changes && change.id == s.id
      ensures change.keep == keep
    {
      ChangeAtHome(containers, i, article, k, change);
    }
    if keep != s.qty {
      TrimsAre(shares, budget, Change(s.id, keep));
      assert Change(s.id, keep) in TrimsIn(containers[i], article);
      assert ChangedIn(containers[i], Change(s.id, keep));
    }
    NewQtyIs(changes, s.id, s.qty, keep);
  }

  /** After the edit an article's shares are the kept shares, in the same order. */
  lemma {:induction false} AfterIsKept(containers: seq<ReservedContainer>, changes: seq<Change>, i: nat,
                                       article: string)
    requires ReservedDistinct(containers) && i < |containers|
    requires forall change :: change in changes <==> IsChange(containers, change)
    ensures Ranked(After(containers, changes)[i], article)
            == KeptShares(Ranked(containers[i], article), Lookup(containers[i].planned, article))
  {
    var c := containers[i];
    var shares, budget := Ranked(c, article), Lookup(c.planned, article);
    SharesMapped(c.allocations, changes, article);
    SortMapped(ByShareId(), ByShareId(), ChangedShare(changes), SharesOf(c.allocations, article));
    RankedShares(c, article);
    KeptWithinBudget(shares, budget);
    KeptIds(shares, budget);
    forall k: nat | k < |shares|
      ensures ChangedShare(changes)(shares[k]) == KeptShares(shares, budget)[k]
    {
      NewShareIsKept(containers, changes, i, article, k);
    }
    assert Map(ChangedShare(changes), shares) == KeptShares(shares, budget);
  }

  lemma {:induction false} KeptIds(shares: seq<Share>, budget: int)
    ensures forall k :: 0 <= k < |shares| ==> KeptShares(shares, budget)[k].id == shares[k].id
  {
    if shares != [] { KeptIds(shares[1..], budget - Min(shares[0].qty, budget)); }
  }

  /** Changing the allocations changes the shares in place. */
  lemma {:induction false} SharesMapped(allocations: seq<Reserved>, changes: seq<Change>, article: string)
    ensures SharesOf(Map(Changed(changes), allocations), article)
            == Map(ChangedShare(changes), SharesOf(allocations, article))
  {
    if allocations != [] {
      var front, last := allocations[..|allocations| - 1], allocations[|allocations| - 1];
      SharesMapped(front, changes, article);
      assert Map(Changed(changes), allocations)[..|allocations| - 1] == Map(Changed(changes), front);
      NewQtySign(changes, last.id, last.qty);
    }
  }

  lemma {:induction false} NewQtySign(changes: seq<Change>, id: int, qty: int)
    ensures NonNegative(NewQty(changes, id, qty)) == NonNegative(NewQty(changes, id, NonNegative(qty)))
  {
    if changes != [] { NewQtySign(changes[1..], id, qty); }
  }

  /** After the edit every container's allocations of an article sum to the smaller
      of its plan and what they were, the lowest ids keeping theirs first. */
  lemma {:induction false} TrimIsExact(containers: seq<ReservedContainer>, changes: seq<Change>, i: nat,
                                       article: string)
    requires ReservedDistinct(containers) && i < |containers|
    requires forall change :: change in changes <==> IsChange(containers, change)
    ensures var (before, left) := (Ranked(containers[i], article), Ranked(After(containers, changes)[i], article));
            && |left| == |before|
            && SumBy(ShareQty(), left) == Min(Lookup(containers[i].planned, article), SumBy(ShareQty(), before))
            && (forall k :: 0 <= k < |before| ==> left[k].id == before[k].id && 0 <= left[k].qty <= before[k].qty)
            && (forall j, k :: 0 <= j < k < |before| ==>
                  before[j].id < before[k].id && (left[k].qty > 0 ==> left[j].qty == before[j].qty))
  {
    var shares, budget := Ranked(containers[i], article), Lookup(containers[i].planned, article);
    RankedShares(containers[i], article);
    AfterIsKept(containers, changes, i, article);
    KeptWithinBudget(shares, budget);
    KeptIds(shares, budget);
  }

  /** A second pass changes nothing. */
  lemma {:induction false} SecondTrimIsEmpty(containers: seq<ReservedContainer>, changes: seq<Change>, change: Change)
    requires ReservedDistinct(containers)
    requires forall ch :: ch in changes <==> IsChange(containers, ch)
    ensures !IsChange(After(containers, changes), change)
  {
    var after := After(containers, changes);
    forall i, article | 0 <= i < |after|
      ensures change !in TrimsIn(after[i], article)
    {
      AfterIsKept(containers, changes, i, article);
      RankedShares(containers[i], article);
      KeptNeedsNoTrim(Ranked(containers[i], article), Lookup(containers[i].planned, article));
    }
  }
}
