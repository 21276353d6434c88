/** Releasing bale assignments above a container's quota, newest first. */
module QuotaCleanup {
  import opened Standard
  import opened Sorting
  import opened ContainerPlanner
  import opened BaleAssignment

  datatype Assigned = Assigned(id: int, article: string)
  datatype AssignedContainer = AssignedContainer(planned: map<string, int>, assignments: seq<Assigned>)

  function IdsOf(assignments: seq<Assigned>, article: string): seq<int> {
    if assignments == [] then []
    else
      var last := assignments[|assignments| - 1];
      IdsOf(assignments[..|assignments| - 1], article) + if last.article == article then [last.id] else []
  }

  function Descending(): (int, int) -> bool { (a: int, b: int) => a >= b }
  function Ascending(): (int, int) -> bool { (a: int, b: int) => a <= b }

  /** The newest ids beyond the quota. */
  function Excess(ids: seq<int>, quota: int): seq<int>
    requires quota >= 0
  {
    SortPermutes(Descending(), ids);
    if |ids| <= quota then [] else Sort(Descending(), ids)[..|ids| - quota]
  }

  function ExcessIn(c: AssignedContainer, article: string): seq<int> {
    Excess(IdsOf(c.assignments, article), Lookup(c.planned, article))
  }

  ghost predicate ReleasedFrom(c: AssignedContainer, id: int) {
    exists article :: id in ExcessIn(c, article)
  }

  ghost predicate IsReleased(containers: seq<AssignedContainer>, id: int) {
    exists i :: 0 <= i < |containers| && ReleasedFrom(containers[i], id)
  }

  /** Groups the assignment ids of a container by article, in the order given. */
  method GroupIds(assignments: seq<Assigned>) returns (byArticle: map<string, seq<int>>)
    ensures forall article :: article in byArticle <==> IdsOf(assignments, article) != []
    ensures forall article :: article in byArticle ==> byArticle[article] == IdsOf(assignments, article)
  {
    byArticle := map[];
    var i := 0;
    while i < |assignments|
      invariant 0 <= i <= |assignments|
      invariant forall article :: article in byArticle <==> IdsOf(assignments[..i], article) != []
      invariant forall article :: article in byArticle ==> byArticle[article] == IdsOf(assignments[..i], article)
    {
      var a := assignments[i];
      assert assignments[..i + 1][..i] == assignments[..i];
      byArticle := byArticle[a.article := (if a.article in byArticle then byArticle[a.article] else []) + [a.id]];
      i := i + 1;
    }
    assert assignments[..i] == assignments;
  }

  ghost predicate UniqueIds(assignments: seq<Assigned>) {
    forall j, k :: 0 <= j < k < |assignments| ==> assignments[j].id != assignments[k].id
  }

  ghost predicate Apart(a: seq<Assigned>, b: seq<Assigned>) {
    forall x, y :: x in a && y in b ==> x.id != y.id
  }

  /** Assignment ids are the keys of one table. */
  ghost predicate IdsDistinct(containers: seq<AssignedContainer>) {
    && (forall i :: 0 <= i < |containers| ==> UniqueIds(containers[i].assignments))
    && (forall i, k :: 0 <= i < k < |containers| ==> Apart(containers[i].assignments, containers[k].assignments))
  }

  lemma {:induction false} IdsOfMembers(assignments: seq<Assigned>, article: string)
    ensures forall id :: id in IdsOf(assignments, article) <==> Assigned(id, article) in assignments
  {
    if assignments != [] {
      var front, last := assignments[..|assignments| - 1], assignments[|assignments| - 1];
      assert assignments == front + [last];
      IdsOfMembers(front, article);
    }
  }

  lemma {:induction false} IdsOfDistinct(assignments: seq<Assigned>, article: string)
    requires UniqueIds(assignments)
    ensures Distinct(IdsOf(assignments, article))
  {
    if assignments != [] {
      var front, last := assignments[..|assignments| - 1], assignments[|assignments| - 1];
      IdsOfDistinct(front, article);
      IdsOfMembers(front, article);
      assert Assigned(last.id, article) !in front;
    }
  }

  /** The excess is the top of the ids; what stays is below all of it. */
  lemma {:induction false} ExcessIsTop(ids: seq<int>, quota: nat)
    requires Distinct(ids)
    ensures var top := Excess(ids, quota);
            && |top| == Max(|ids| - quota, 0) && Distinct(top)
            && (forall id :: id in top ==> id in ids)
            && (forall x, y :: x in ids && x !in top && y in top ==> x < y)
  {
    SortPermutes(Descending(), ids);
    SortSorted(Descending(), ids);
    var ordered := Sort(Descending(), ids);
    DistinctPermutation(ids, ordered);
    var top := Excess(ids, quota);
    forall x, y | x in ids && x !in top && y in top
      ensures x < y
    {
      assert x in ordered;
      var j :| 0 <= j < |ordered| && ordered[j] == x;
      var i :| 0 <= i < |top| && top[i] == y;
      assert j >= |top|;
      assert Descending()(ordered[i], ordered[j]);
    }
  }

  ghost predicate Holds(c: AssignedContainer, id: int) {
    exists article :: Assigned(id, article) in c.assignments
  }

  /** What a container releases of an article it holds under that article. */
  lemma {:induction false} ExcessIsHeld(c: AssignedContainer, article: string)
    requires UniqueIds(c.assignments)
    ensures Distinct(ExcessIn(c, article))
    ensures forall id :: id in ExcessIn(c, article) ==> Assigned(id, article) in c.assignments
  {
    IdsOfDistinct(c.assignments, article);
    IdsOfMembers(c.assignments, article);
    ExcessIsTop(IdsOf(c.assignments, article), Lookup(c.planned, article));
  }

  lemma {:induction false} ReleasedIsHeld(c: AssignedContainer, id: int)
    requires UniqueIds(c.assignments) && ReleasedFrom(c, id)
    ensures Holds(c, id)
  {
    var article :| id in ExcessIn(c, article);
    ExcessIsHeld(c, article);
  }

  /** Nothing is listed twice when an article's excess joins what other articles release. */
  lemma {:induction false} ExcessJoins(c: AssignedContainer, release0: seq<int>, release: seq<int>, article: string,
                                       others: set<string>)
    requires UniqueIds(c.assignments) && Distinct(release) && article !in others
    requires forall id :: id in release0 ==> !Holds(c, id)
    requires forall id :: id in release ==>
             id in release0 || exists other :: other in others && id in ExcessIn(c, other)
    ensures Distinct(release + ExcessIn(c, article))
  {
    ExcessIsHeld(c, article);
    forall id | id in release
      ensures id !in ExcessIn(c, article)
    {
      if id !in release0 {
        var other :| other in others && id in ExcessIn(c, other);
        ExcessIsHeld(c, other);
      }
    }
    AppendDistinct(release, ExcessIn(c, article));
  }

  method ReleaseFrom(c: AssignedContainer, release0: seq<int>) returns (release: seq<int>)
    ensures forall id :: id in release <==> id in release0 || ReleasedFrom(c, id)
    ensures UniqueIds(c.assignments) && Distinct(release0) && (forall id :: id in release0 ==> !Holds(c, id))
            ==> Distinct(release)
  {
    var byArticle := GroupIds(c.assignments);
    release := release0;
    var rest := byArticle.Keys;
    ghost var apart := UniqueIds(c.assignments) && Distinct(release0) && forall id :: id in release0 ==> !Holds(c, id);
    while rest != {}
      invariant rest <= byArticle.Keys
      invariant forall id :: id in release <==>
                  id in release0 || exists article :: article in byArticle && article !in rest
                                                      && id in ExcessIn(c, article)
      invariant apart ==> Distinct(release)
      decreases |rest|
    {
      var article :| article in rest;
      if apart { ExcessJoins(c, release0, release, article, byArticle.Keys - rest); }
      release := release + Excess(byArticle[article], Lookup(c.planned, article));
      rest := rest - {article};
    }
    forall id, article | id in ExcessIn(c, article)
      ensures article in byArticle
    {
    }
  }

  method SelectOverAssignedBaleIds(containers: seq<AssignedContainer>) returns (release: seq<int>)
    ensures forall id :: id in release <==> IsReleased(containers, id)
    ensures Sorted(Ascending(), release) && (IdsDistinct(containers) ==> Distinct(release))
  {
    var all: seq<int> := [];
    var i := 0;
    while i < |containers|
      invariant 0 <= i <= |containers|
      invariant forall id :: id in all <==> IsReleased(containers[..i], id)
      invariant IdsDistinct(containers) ==> Distinct(all)
    {
      if IdsDistinct(containers) { NotHeldYet(containers, i); }
      all := ReleaseFrom(containers[i], all);
      ReleasedNext(containers, i);
      i := i + 1;
    }
    assert containers[..i] == containers;
    SortPermutes(Ascending(), all);
    SortSorted(Ascending(), all);
    release := Sort(Ascending(), all);
    if IdsDistinct(containers) { DistinctPermutation(all, release); }
  }

  lemma {:induction false} NotHeldYet(containers: seq<AssignedContainer>, i: nat)
    requires IdsDistinct(containers) && i < |containers|
    ensures forall id :: IsReleased(containers[..i], id) ==> !Holds(containers[i], id)
  {
    forall id | IsReleased(containers[..i], id)
      ensures !Holds(containers[i], id)
    {
      var k :| 0 <= k < |containers[..i]| && ReleasedFrom(containers[..i][k], id);
      ReleasedIsHeld(containers[k], id);
      assert Apart(containers[k].assignments, containers[i].assignments);
    }
  }

  lemma {:induction false} ReleasedNext(containers: seq<AssignedContainer>, i: nat)
    requires i < |containers|
    ensures forall id :: IsReleased(containers[..i + 1], id)
                         <==> IsReleased(containers[..i], id) || ReleasedFrom(containers[i], id)
  {
    var front, more := containers[..i], containers[..i + 1];
    assert more == front + [containers[i]];
    forall id
      ensures IsReleased(more, id) <==> IsReleased(front, id) || ReleasedFrom(containers[i], id)
    {
      if IsReleased(front, id) {
        var k :| 0 <= k < |front| && ReleasedFrom(front[k], id);
        assert more[k] == front[k];
      }
      assert more[i] == containers[i];
    }
  }

  // ---- What is left -------------------------------------------------------------------

  function Stays(release: seq<int>): Assigned -> bool { (a: Assigned) => a.id !in release }

  function Kept(c: AssignedContainer, release: seq<int>): AssignedContainer {
    c.(assignments := Filter(Stays(release), c.assignments))
  }

  function KeptOf(release: seq<int>): AssignedContainer -> AssignedContainer {
    (c: AssignedContainer) => Kept(c, release)
  }

  function After(containers: seq<AssignedContainer>, release: seq<int>): seq<AssignedContainer> {
    Map(KeptOf(release), containers)
  }

  lemma {:induction false} RemovedCount(ids: seq<int>, top: seq<int>, left: seq<int>)
    requires Distinct(ids) && Distinct(top) && Distinct(left)
    requires forall id :: id in top ==> id in ids
    requires forall id :: id in left <==> id in ids && id !in top
    ensures |left| == |ids| - |top|
  {
    DistinctSize(ids);
    DistinctSize(top);
    DistinctSize(left);
    ElementsAreMembers(ids);
    ElementsAreMembers(top);
    ElementsAreMembers(left);
    assert Elements(left) == Elements(ids) - Elements(top);
    assert Elements(ids) == Elements(left) + Elements(top);
  }

  lemma {:induction false} FilterKeepsDistinct(assignments: seq<Assigned>, release: seq<int>)
    requires UniqueIds(assignments)
    ensures UniqueIds(Filter(Stays(release), assignments))
  {
    if assignments != [] {
      FilterKeepsDistinct(assignments[1..], release);
      var rest := Filter(Stays(release), assignments[1..]);
      forall k | 0 <= k < |rest|
        ensures rest[k].id != assignments[0].id
      {
        assert rest[k] in assignments[1..];
      }
      assert UniqueIds([assignments[0]] + rest);
      assert [] + rest == rest;
    }
  }

  lemma {:induction false} HeldOnce(containers: seq<AssignedContainer>, i: nat, k: nat, article: string,
                                    other: string, id: int)
    requires IdsDistinct(containers) && i < |containers| && k < |containers|
    requires Assigned(id, article) in containers[i].assignments && Assigned(id, other) in containers[k].assignments
    ensures k == i && other == article
  {
  }

  /** An id is released from its own container and article, or not at all. */
  lemma {:induction false} ReleasedAtHome(containers: seq<AssignedContainer>, i: nat, article: string, id: int)
    requires IdsDistinct(containers) && i < |containers| && id in IdsOf(containers[i].assignments, article)
    ensures IsReleased(containers, id) <==> id in ExcessIn(containers[i], article)
  {
    IdsOfMembers(containers[i].assignments, article);
    if IsReleased(containers, id) {
      var k :| 0 <= k < |containers| && ReleasedFrom(containers[k], id);
      var other :| id in ExcessIn(containers[k], other);
      ExcessIsHeld(containers[k], other);
      HeldOnce(containers, i, k, article, other, id);
    }
  }

  /** Of an article a container keeps exactly what is not in its excess. */
  lemma {:induction false} LeftAfterCleanUp(containers: seq<AssignedContainer>, release: seq<int>, i: nat,
                                            article: string)
    requires IdsDistinct(containers) && i < |containers|
    requires forall id :: id in release <==> IsReleased(containers, id)
    ensures var before := IdsOf(containers[i].assignments, article);
            var left := IdsOf(Kept(containers[i], release).assignments, article);
            && Distinct(left)
            && forall id :: id in left <==> id in before && id !in ExcessIn(containers[i], article)
  {
    var c := containers[i];
    var kept := Filter(Stays(release), c.assignments);
    FilterKeepsDistinct(c.assignments, release);
    IdsOfDistinct(kept, article);
    IdsOfMembers(c.assignments, article);
    IdsOfMembers(kept, article);
    forall id | id in IdsOf(c.assignments, article)
      ensures id in release <==> id in ExcessIn(c, article)
    {
      ReleasedAtHome(containers, i, article, id);
    }
  }

  /** After the clean-up every container holds, of every article, the smaller of
      its quota and what it held, and those with the lowest ids. */
  lemma {:induction false} CleanUpIsExact(containers: seq<AssignedContainer>, release: seq<int>, i: nat,
                                          article: string)
    requires IdsDistinct(containers) && i < |containers|
    requires forall id :: id in release <==> IsReleased(containers, id)
    ensures var before := IdsOf(containers[i].assignments, article);
            var left := IdsOf(After(containers, release)[i].assignments, article);
            && |left| == Min(Lookup(containers[i].planned, article), |before|)
            && (forall id :: id in left ==> id in before)
            && (forall x, y :: x in left && y in before && y !in left ==> x < y)
  {
    var before := IdsOf(containers[i].assignments, article);
    var quota := Lookup(containers[i].planned, article);
    LeftAfterCleanUp(containers, release, i, article);
    IdsOfDistinct(containers[i].assignments, article);
    ExcessIsTop(before, quota);
    RemovedCount(before, Excess(before, quota), IdsOf(Kept(containers[i], release).assignments, article));
  }

  /** Cleaning up again releases nothing. */
  lemma {:induction false} SecondCleanUpIsEmpty(containers: seq<AssignedContainer>, release: seq<int>, id: int)
    requires IdsDistinct(containers)
    requires forall x :: x in release <==> IsReleased(containers, x)
    ensures !IsReleased(After(containers, release), id)
  {
    var after := After(containers, release);
    if IsReleased(after, id) {
      var i :| 0 <= i < |after| && ReleasedFrom(after[i], id);
      var article :| id in ExcessIn(after[i], article);
      CleanUpIsExact(containers, release, i, article);
    }
  }
}
