/** The order of discovery goes by distance: no table is found before one that fewer foreign
    keys separate from the roots. */
module SearchDistance {
  import opened Standard
  import opened TableGraph

  /** A chain of n foreign keys leads from a root to the table. */
  ghost predicate Away(keys: seq<ForeignKey>, roots: seq<string>, t: string, n: nat) {
    exists path :: IsPath(keys, path) && path[0] in roots && path[|path| - 1] == t && |path| == n + 1
  }

  /** The table is among those found, at a depth within the bound. */
  ghost predicate FoundWithin(tables: seq<string>, depths: seq<nat>, t: string, bound: int) {
    exists k :: 0 <= k < |tables| && k < |depths| && tables[k] == t && depths[k] <= bound
  }

  ghost predicate Rising(depths: seq<nat>) { forall i, j :: 0 <= i < j < |depths| ==> depths[i] <= depths[j] }

  /** The children of the table are found one level below it at most. */
  ghost predicate ChildrenBelow(keys: seq<ForeignKey>, tables: seq<string>, depths: seq<nat>, m: nat)
    requires m < |tables| == |depths|
  {
    forall fk {:trigger FoundWithin(tables, depths, fk.child, depths[m] + 1)} ::
      fk in keys && fk.parent == tables[m] ==> FoundWithin(tables, depths, fk.child, depths[m] + 1)
  }

  ghost predicate RootsFound(roots: seq<string>, tables: seq<string>, depths: seq<nat>) {
    forall r {:trigger FoundWithin(tables, depths, r, 0)} :: r in roots ==> FoundWithin(tables, depths, r, 0)
  }

  ghost predicate AllAway(keys: seq<ForeignKey>, roots: seq<string>, tables: seq<string>, depths: seq<nat>)
    requires |tables| == |depths|
  {
    forall i {:trigger Away(keys, roots, tables[i], depths[i])} ::
      0 <= i < |tables| ==> Away(keys, roots, tables[i], depths[i])
  }

  /** With the first n tables taken: the depth at which each table was found. */
  ghost predicate Levels(keys: seq<ForeignKey>, roots: seq<string>, tables: seq<string>, n: nat, depths: seq<nat>) {
    && |depths| == |tables| && n <= |tables| && Rising(depths)
    && RootsFound(roots, tables, depths) && AllAway(keys, roots, tables, depths)
    && (n < |tables| ==> depths[|tables| - 1] <= depths[n] + 1)
    && forall m {:trigger ChildrenBelow(keys, tables, depths, m)} ::
         0 <= m < n ==> ChildrenBelow(keys, tables, depths, m)
  }

  lemma {:induction false} StillFound(tables: seq<string>, depths: seq<nat>, more: seq<string>, deeper: seq<nat>,
                                      t: string, bound: int)
    requires FoundWithin(tables, depths, t, bound) && |tables| == |depths|
    ensures FoundWithin(tables + more, depths + deeper, t, bound)
  {
    var k :| 0 <= k < |tables| && tables[k] == t && depths[k] <= bound;
    assert (tables + more)[k] == t && (depths + deeper)[k] <= bound;
  }

  lemma {:induction false} AwayStep(keys: seq<ForeignKey>, roots: seq<string>, parent: string, child: string, n: nat)
    requires Away(keys, roots, parent, n) && Edge(keys, parent, child)
    ensures Away(keys, roots, child, n + 1)
  {
    var path :| IsPath(keys, path) && path[0] in roots && path[|path| - 1] == parent && |path| == n + 1;
    var longer := path + [child];
    assert IsPath(keys, longer) by {
      forall i | 0 <= i < |longer| - 1
        ensures Edge(keys, longer[i], longer[i + 1])
      {
        if i < |path| - 1 { assert Edge(keys, path[i], path[i + 1]); }
      }
    }
  }

  /** A table's turn adds those of its children that are new, and then all are there. */
  lemma {:induction false} DiscoveringAdds(kids: seq<ForeignKey>, tables: seq<string>)
    ensures var r := Discovering(kids, tables);
            && (forall t :: t in r[|tables|..] ==> exists fk :: fk in kids && fk.child == t)
            && forall fk :: fk in kids ==> fk.child in r
  {
    if kids != [] {
      var n := |kids| - 1;
      DiscoveringAdds(kids[..n], tables);
      var front, r := Discovering(kids[..n], tables), Discovering(kids, tables);
      assert kids == kids[..n] + [kids[n]];
      forall t | t in r[|tables|..]
        ensures exists fk :: fk in kids && fk.child == t
      {
        if t in front[|tables|..] {
          var fk :| fk in kids[..n] && fk.child == t;
          assert fk in kids;
        } else {
          assert kids[n] in kids && t == kids[n].child;
        }
      }
    }
  }

  lemma {:induction false} ShallowEnough(tables: seq<string>, depths: seq<nat>, t: string, bound: nat)
    requires t in tables && |tables| == |depths| && forall i :: 0 <= i < |depths| ==> depths[i] <= bound
    ensures FoundWithin(tables, depths, t, bound)
  {
    var k :| 0 <= k < |tables| && tables[k] == t;
  }

  lemma {:induction false} RisingNext(depths: seq<nat>, n: nat, extra: nat)
    requires Rising(depths) && n < |depths| && depths[|depths| - 1] <= depths[n] + 1
    ensures var deeper := depths + seq(extra, _ => depths[n] + 1);
            Rising(deeper) && forall i :: 0 <= i < |deeper| ==> deeper[i] <= depths[n] + 1
  {
    assert forall i :: 0 <= i < |depths| - 1 ==> depths[i] <= depths[|depths| - 1];
  }

  lemma {:induction false} LevelsNext(keys: seq<ForeignKey>, roots: seq<string>, tables: seq<string>, n: nat,
                                      depths: seq<nat>) returns (deeper: seq<nat>)
    requires Levels(keys, roots, tables, n, depths) && n < |tables|
    ensures Levels(keys, roots, Discovering(KidsOf(keys, tables[n]), tables), n + 1, deeper)
  {
    var kids := KidsOf(keys, tables[n]);
    var next := Discovering(kids, tables);
    var more, extra := next[|tables|..], seq(|next| - |tables|, _ => depths[n] + 1);
    deeper := depths + extra;
    assert next == tables + more;
    DiscoveringAdds(kids, tables);
    RisingNext(depths, n, |more|);
    RootsStill(roots, tables, depths, more, extra);
    NewAreAway(keys, roots, tables, depths, n, more, extra);
    forall m | 0 <= m < n + 1
      ensures ChildrenBelow(keys, next, deeper, m)
    {
      if m < n { ChildrenStill(keys, tables, depths, more, extra, m); } else { ChildrenNow(keys, next, deeper, n); }
    }
  }

  lemma {:induction false} RootsStill(roots: seq<string>, tables: seq<string>, depths: seq<nat>, more: seq<string>,
                                      extra: seq<nat>)
    requires RootsFound(roots, tables, depths) && |tables| == |depths|
    ensures RootsFound(roots, tables + more, depths + extra)
  {
    forall r | r in roots
      ensures FoundWithin(tables + more, depths + extra, r, 0)
    {
      assert FoundWithin(tables, depths, r, 0);
      StillFound(tables, depths, more, extra, r, 0);
    }
  }

  lemma {:induction false} NewAreAway(keys: seq<ForeignKey>, roots: seq<string>, tables: seq<string>,
                                      depths: seq<nat>, n: nat, more: seq<string>, extra: seq<nat>)
    requires n < |tables| == |depths| && |more| == |extra| && AllAway(keys, roots, tables, depths)
    requires forall i :: 0 <= i < |extra| ==> extra[i] == depths[n] + 1
    requires forall t :: t in more ==> exists fk :: fk in KidsOf(keys, tables[n]) && fk.child == t
    ensures AllAway(keys, roots, tables + more, depths + extra)
  {
    forall i | 0 <= i < |tables + more|
      ensures Away(keys, roots, (tables + more)[i], (depths + extra)[i])
    {
      if i < |tables| {
        assert Away(keys, roots, tables[i], depths[i]);
      } else {
        assert more[i - |tables|] in more;
        assert Away(keys, roots, tables[n], depths[n]);
        NewIsAway(keys, roots, tables[n], more[i - |tables|], depths[n]);
      }
    }
  }

  lemma {:induction false} NewIsAway(keys: seq<ForeignKey>, roots: seq<string>, parent: string, child: string, n: nat)
    requires Away(keys, roots, parent, n) && exists fk :: fk in KidsOf(keys, parent) && fk.child == child
    ensures Away(keys, roots, child, n + 1)
  {
    var fk :| fk in KidsOf(keys, parent) && fk.child == child;
    assert Edge(keys, parent, child);
    AwayStep(keys, roots, parent, child, n);
  }

  lemma {:induction false} ChildrenStill(keys: seq<ForeignKey>, tables: seq<string>, depths: seq<nat>,
                                         more: seq<string>, extra: seq<nat>, m: nat)
    requires m < |tables| == |depths| && |more| == |extra| && ChildrenBelow(keys, tables, depths, m)
    ensures ChildrenBelow(keys, tables + more, depths + extra, m)
  {
    forall fk | fk in keys && fk.parent == tables[m]
      ensures FoundWithin(tables + more, depths + extra, fk.child, depths[m] + 1)
    {
      assert FoundWithin(tables, depths, fk.child, depths[m] + 1);
      StillFound(tables, depths, more, extra, fk.child, depths[m] + 1);
    }
  }

  lemma {:induction false} ChildrenNow(keys: seq<ForeignKey>, tables: seq<string>, depths: seq<nat>, n: nat)
    requires n < |tables| == |depths| && forall i :: 0 <= i < |depths| ==> depths[i] <= depths[n] + 1
    requires forall fk :: fk in KidsOf(keys, tables[n]) ==> fk.child in tables
    ensures ChildrenBelow(keys, tables, depths, n)
  {
    forall fk | fk in keys && fk.parent == tables[n]
      ensures FoundWithin(tables, depths, fk.child, depths[n] + 1)
    {
      assert fk in KidsOf(keys, tables[n]);
      ShallowEnough(tables, depths, fk.child, depths[n] + 1);
    }
  }

  lemma {:induction false} LevelsBegin(keys: seq<ForeignKey>, roots: seq<string>)
    ensures Levels(keys, roots, Once(roots), 0, seq(|Once(roots)|, _ => 0))
  {
    var tables, depths := Once(roots), seq(|Once(roots)|, _ => 0);
    forall r | r in roots
      ensures FoundWithin(tables, depths, r, 0)
    {
      ShallowEnough(tables, depths, r, 0);
    }
    forall i | 0 <= i < |tables|
      ensures Away(keys, roots, tables[i], 0)
    {
      assert tables[i] in tables && IsPath(keys, [tables[i]]);
      assert [tables[i]][0] in roots;
    }
  }

  lemma {:induction false} LevelsEnd(keys: seq<ForeignKey>, roots: seq<string>, tables: seq<string>, n: nat,
                                     depths: seq<nat>) returns (last: seq<nat>)
    requires Levels(keys, roots, tables, n, depths) && OnCourse(keys, roots, tables, n)
    ensures Levels(keys, roots, DiscoveryOrder(keys, roots), |DiscoveryOrder(keys, roots)|, last)
    decreases |Universe(keys, roots)| - n
  {
    DistinctWithin(tables, Universe(keys, roots));
    if n < |tables| {
      last := LevelsNext(keys, roots, tables, n, depths);
      CourseNext(keys, roots, tables, n);
      last := LevelsEnd(keys, roots, Discovering(KidsOf(keys, tables[n]), tables), n + 1, last);
    } else {
      last := depths;
      CourseEnds(keys, roots, tables);
    }
  }

  /** A chain of keys reaches no table at less than the depth it was found at. */
  lemma {:induction false} DepthIsLeast(keys: seq<ForeignKey>, roots: seq<string>, tables: seq<string>,
                                        depths: seq<nat>, path: seq<string>, p: nat)
    requires Levels(keys, roots, tables, |tables|, depths) && IsPath(keys, path) && path[0] in roots && p < |path|
    ensures FoundWithin(tables, depths, path[p], p)
  {
    if p > 0 {
      DepthIsLeast(keys, roots, tables, depths, path, p - 1);
      var k :| 0 <= k < |tables| && tables[k] == path[p - 1] && depths[k] <= p - 1;
      assert Edge(keys, path[p - 1], path[p - 1 + 1]);
      var fk :| fk in keys && fk.parent == path[p - 1] && fk.child == path[p];
      assert ChildrenBelow(keys, tables, depths, k);
      assert FoundWithin(tables, depths, fk.child, depths[k] + 1);
      var l :| 0 <= l < |tables| && tables[l] == fk.child && depths[l] <= depths[k] + 1;
    }
  }

  lemma {:induction false} RootsOnCourse(keys: seq<ForeignKey>, roots: seq<string>)
    ensures OnCourse(keys, roots, Once(roots), 0)
  {
  }

  /** A table found no later than another is no further from the roots. */
  lemma {:induction false} NearerFirst(keys: seq<ForeignKey>, roots: seq<string>, i: nat, j: nat, n: nat)
    returns (m: nat)
    requires i <= j < |DiscoveryOrder(keys, roots)| && Away(keys, roots, DiscoveryOrder(keys, roots)[j], n)
    ensures m <= n && Away(keys, roots, DiscoveryOrder(keys, roots)[i], m)
  {
    var order := DiscoveryOrder(keys, roots);
    LevelsBegin(keys, roots);
    RootsOnCourse(keys, roots);
    var depths := LevelsEnd(keys, roots, Once(roots), 0, seq(|Once(roots)|, _ => 0));
    var path :| IsPath(keys, path) && path[0] in roots && path[|path| - 1] == order[j] && |path| == n + 1;
    DepthIsLeast(keys, roots, order, depths, path, n);
    var k :| 0 <= k < |order| && order[k] == order[j] && depths[k] <= n;
    OrderIsDistinct(keys, roots);
    m := depths[i];
  }

  lemma {:induction false} OrderIsDistinct(keys: seq<ForeignKey>, roots: seq<string>)
    ensures Distinct(DiscoveryOrder(keys, roots))
  {
    RootsOnCourse(keys, roots);
    CourseStaysDistinct(keys, roots, Once(roots), 0);
  }

  lemma {:induction false} CourseStaysDistinct(keys: seq<ForeignKey>, roots: seq<string>, tables: seq<string>, n: nat)
    requires OnCourse(keys, roots, tables, n) && n <= |tables|
    ensures Distinct(DiscoveryOrder(keys, roots))
    decreases |Universe(keys, roots)| - n
  {
    DistinctWithin(tables, Universe(keys, roots));
    if n < |tables| {
      CourseNext(keys, roots, tables, n);
      CourseStaysDistinct(keys, roots, Discovering(KidsOf(keys, tables[n]), tables), n + 1);
    } else {
      CourseEnds(keys, roots, tables);
    }
  }
}
