/** Finding every table whose rows hang off the root tables through foreign keys. */
module TableSearch {
  import opened Standard
  import opened TableGraph
  import opened SearchSteps

  method AddRoots(keys: seq<ForeignKey>, roots: seq<string>, ghost area: iset<string>) returns (f: Found)
    requires forall r :: r in roots ==> r in area
    ensures Consistent(f, keys, area) && Justified(f, keys, roots)
    ensures f.tables == Once(roots) && f.visited == {}
  {
    var tables: seq<string> := [];
    var conditions: map<string, seq<Condition>> := map[];
    var i := 0;
    while i < |roots|
      invariant 0 <= i <= |roots| && tables == Once(roots[..i])
      invariant forall t :: t in conditions <==> t in tables
      invariant forall t :: t in conditions ==> conditions[t] == [OfCompany]
    {
      assert roots[..i + 1][..i] == roots[..i];
      if roots[i] !in conditions { tables := tables + [roots[i]]; }
      conditions := conditions[roots[i] := [OfCompany]];
      i := i + 1;
    }
    assert roots[..i] == roots;
    f := Found(tables, conditions, {});
  }

  /** Follows the next of the parent's keys. */
  method FollowKey(parent: string, kids: seq<ForeignKey>, i: nat, parentConditions: seq<Condition>,
      f1: Found, next1: seq<string>, ghost f0: Found, ghost next0: seq<string>,
      ghost ahead: seq<string>, ghost seen: seq<string>,
      ghost keys: seq<ForeignKey>, ghost roots: seq<string>, ghost area: iset<string>)
    returns (f: Found, next: seq<string>)
    requires ClosedUnder(keys, area) && parent in f0.conditions
             && (parent in seen ==> Expanded(keys, f0.visited, parent))
    requires kids == KidsOf(keys, parent) && i < |kids| && Sound(keys, roots, area, f1)
    requires Following(parent, kids, i, parentConditions, f0, next0, f1, next1, ahead, seen)
    ensures Sound(keys, roots, area, f)
    ensures Following(parent, kids, i + 1, parentConditions, f0, next0, f, next, ahead, seen)
  {
    var fk := kids[i];
    f, next := f1, next1;
    if KeyOf(fk) !in f.visited {
      var visited := f.visited + {KeyOf(fk)};
      var condition := PointsInto(fk.col, fk.parentCol, fk.parent, parentConditions);
      if fk.child !in f.conditions {
        f := Found(f.tables + [fk.child], f.conditions[fk.child := [condition]], visited);
        next := next + [fk.child];
      } else {
        var existing := f.conditions[fk.child];
        if OfCompany !in existing && condition !in existing {
          f := Found(f.tables, f.conditions[fk.child := existing + [condition]], visited);
          next := next + [fk.child];
        } else {
          f := Found(f.tables, f.conditions, visited);
        }
      }
    }
    KidNext(parent, kids, i, parentConditions, f0, next0, f1, next1, f, next, ahead, seen, keys, roots, area);
  }

  /** Follows every foreign key into one parent. A parent that is taken again has
      had its keys followed, and nothing changes. */
  method ExpandTable(parent: string, f0: Found, next0: seq<string>, keys: seq<ForeignKey>, ghost roots: seq<string>,
      ghost area: iset<string>, ghost ahead: seq<string>, ghost seen: seq<string>)
    returns (f: Found, next: seq<string>)
    requires ClosedUnder(keys, area) && Sound(keys, roots, area, f0)
    requires Underway(keys, f0, [parent] + (ahead + next0), seen) && OnCourse(keys, roots, f0.tables, |seen|)
    ensures Sound(keys, roots, area, f) && Grown(f0, next0, f, next)
    ensures Underway(keys, f, ahead + next, Taken(seen, parent))
    ensures OnCourse(keys, roots, f.tables, |Taken(seen, parent)|)
    ensures Expanded(keys, f.visited, parent) && f.tables == Discovering(KidsOf(keys, parent), f0.tables)
  {
    f, next := f0, next0;
    TurnBegins(keys, roots, area, parent, f, next, ahead, seen);
    var parentConditions := f.conditions[parent];
    var kids := KidsOf(keys, parent);
    var i := 0;
    while i < |kids|
      invariant 0 <= i <= |kids| && Sound(keys, roots, area, f)
      invariant Following(parent, kids, i, parentConditions, f0, next0, f, next, ahead, seen)
    {
      f, next := FollowKey(parent, kids, i, parentConditions, f, next, f0, next0, ahead, seen, keys, roots, area);
      i := i + 1;
    }
    TurnEnds(keys, roots, area, parent, parentConditions, f0, next0, f, next, ahead, seen);
  }

  /** The tables still to be taken: the rest of this round, then the next round. */
  ghost function Waiting(frontier: seq<string>, i: nat, next: seq<string>): seq<string>
    requires i <= |frontier|
  {
    frontier[i..] + next
  }

  lemma {:induction false} WaitingEnds(frontier: seq<string>)
    ensures Waiting(frontier, 0, []) == frontier
  {
    assert frontier[0..] + [] == frontier;
  }

  lemma {:induction false} WaitingNext(frontier: seq<string>, i: nat, next: seq<string>)
    requires i < |frontier|
    ensures Waiting(frontier, i, next) == [frontier[i]] + (frontier[i + 1..] + next)
  {
    SuffixNext(frontier, i);
    Regroup([frontier[i]], frontier[i + 1..], next);
  }

  /** One round of the breadth-first search. */
  method ExpandFrontier(frontier: seq<string>, f0: Found, keys: seq<ForeignKey>, ghost roots: seq<string>,
      ghost area: iset<string>, ghost seen0: seq<string>)
    returns (f: Found, next: seq<string>, ghost seen: seq<string>)
    requires ClosedUnder(keys, area) && Sound(keys, roots, area, f0)
    requires Underway(keys, f0, frontier, seen0) && OnCourse(keys, roots, f0.tables, |seen0|)
    ensures Sound(keys, roots, area, f) && Grown(f0, [], f, next)
    ensures Underway(keys, f, next, seen) && OnCourse(keys, roots, f.tables, |seen|)
  {
    f, next, seen := f0, [], seen0;
    var i := 0;
    WaitingEnds(frontier);
    while i < |frontier|
      invariant 0 <= i <= |frontier| && Grown(f0, [], f, next)
      invariant Sound(keys, roots, area, f)
      invariant Underway(keys, f, Waiting(frontier, i, next), seen) && OnCourse(keys, roots, f.tables, |seen|)
    {
      ghost var f1, next1 := f, next;
      WaitingNext(frontier, i, next);
      f, next := ExpandTable(frontier[i], f, next, keys, roots, area, frontier[i + 1..], seen);
      GrownFurther(f0, [], f1, next1, f, next);
      seen := Taken(seen, frontier[i]);
      i := i + 1;
    }
    assert Waiting(frontier, i, next) == next;
  }

  lemma {:induction false} SearchBegins(keys: seq<ForeignKey>, roots: seq<string>, area: iset<string>, f: Found)
    requires Consistent(f, keys, area) && Justified(f, keys, roots)
    requires f.tables == Once(roots) && f.visited == {}
    ensures Sound(keys, roots, area, f) && Underway(keys, f, roots, []) && OnCourse(keys, roots, f.tables, 0)
  {
    RootsAreFresh(roots, |roots|);
    assert roots[..|roots|] == roots;
  }

  ghost function Unvisited(keys: seq<ForeignKey>, f: Found): set<EdgeKey> { AllEdges(keys) - f.visited }

  lemma {:induction false} FewerUnvisited(keys: seq<ForeignKey>, f0: Found, f: Found, next: seq<string>)
    requires Grown(f0, [], f, next) && f.visited <= AllEdges(keys)
    ensures Unvisited(keys, f) < Unvisited(keys, f0) || (Unvisited(keys, f) == Unvisited(keys, f0) && next == [])
  {
    if f.visited != f0.visited {
      var e :| e in f.visited && e !in f0.visited;
      assert e in Unvisited(keys, f0) && e !in Unvisited(keys, f);
    }
  }

  lemma {:induction false} AllSeen(keys: seq<ForeignKey>, f: Found, seen: seq<string>)
    requires Underway(keys, f, [], seen)
    ensures seen == f.tables
  {
    assert f.tables == f.tables[..|seen|] + f.tables[|seen|..];
  }

  /** The breadth-first search inside an area no foreign key leads out of. */
  method Search(keys: seq<ForeignKey>, roots: seq<string>, ghost area: iset<string>) returns (f: Found)
    requires ClosedUnder(keys, area) && forall r :: r in roots ==> r in area
    ensures Sound(keys, roots, area, f) && Underway(keys, f, [], f.tables) && f.tables == DiscoveryOrder(keys, roots)
  {
    f := AddRoots(keys, roots, area);
    ghost var seen: seq<string> := [];
    SearchBegins(keys, roots, area, f);
    var frontier := roots;
    while |frontier| > 0
      invariant Sound(keys, roots, area, f)
      invariant Underway(keys, f, frontier, seen) && OnCourse(keys, roots, f.tables, |seen|)
      decreases Unvisited(keys, f), |frontier| > 0
    {
      ghost var f0 := f;
      f, frontier, seen := ExpandFrontier(frontier, f, keys, roots, area, seen);
      FewerUnvisited(keys, f0, f, frontier);
    }
    assert frontier == [];
    AllSeen(keys, f, seen);
    CourseEnds(keys, roots, f.tables);
  }

  /** Roots are wiped by company alone, and every other table along each key into a table found. */
  ghost predicate KeysCovered(keys: seq<ForeignKey>, roots: seq<string>, conditions: map<string, seq<Condition>>) {
    && (forall t :: t in roots ==> t in conditions && conditions[t] == [OfCompany])
    && (forall t :: t in conditions && t !in roots ==> conditions[t] != [])
    && forall fk :: fk in keys && fk.parent in conditions ==>
          fk.child in conditions && (fk.child in roots || Covers(conditions[fk.child], KeyOf(fk)))
  }

  /** A condition belongs to a key into a table found, and holds the part of that
      table's conditions that was known when it was reached. */
  ghost predicate Explained(keys: seq<ForeignKey>, tables: seq<string>, conditions: map<string, seq<Condition>>,
                            t: string, c: Condition) {
    && FromKey(c, keys, t) && c.parent in tables
    && c.parentConditions == Snapshot(tables, conditions, c.parent)
  }

  /** What the search answers: the reachable tables in breadth-first order with their conditions. */
  ghost predicate SearchResult(keys: seq<ForeignKey>, roots: seq<string>,
                               tables: seq<string>, conditions: map<string, seq<Condition>>) {
    && Distinct(tables) && tables == DiscoveryOrder(keys, roots)
    && (forall t :: t in tables <==> Reachable(keys, roots, t))
    && (forall t :: t in conditions <==> t in tables)
    && KeysCovered(keys, roots, conditions)
    && forall t, c :: t in conditions && t !in roots && c in conditions[t] ==> Explained(keys, tables, conditions, t, c)
  }

  /** The search ends, and finds exactly the tables reachable from the roots. */
  method SearchTables(keys: seq<ForeignKey>, roots: seq<string>)
    returns (tables: seq<string>, conditions: map<string, seq<Condition>>)
    ensures SearchResult(keys, roots, tables, conditions)
  {
    ghost var area := ReachableArea(keys, roots);
    ReachableIsClosed(keys, roots);
    var f := Search(keys, roots, area);
    tables, conditions := f.tables, f.conditions;
    SearchEnds(keys, roots, f);
  }

  lemma {:induction false} SearchEnds(keys: seq<ForeignKey>, roots: seq<string>, f: Found)
    requires Sound(keys, roots, ReachableArea(keys, roots), f) && Underway(keys, f, [], f.tables)
    requires f.tables == DiscoveryOrder(keys, roots)
    ensures SearchResult(keys, roots, f.tables, f.conditions)
  {
    var area := ReachableArea(keys, roots);
    forall fk | fk in keys && fk.parent in f.conditions
      ensures KeyOf(fk) in f.visited && fk.child in f.conditions
    {
      assert Expanded(keys, f.visited, fk.parent);
    }
    forall t | Reachable(keys, roots, t)
      ensures t in f.conditions
    {
      AllReachableFound(keys, roots, f.conditions.Keys, t);
    }
    forall t | t in f.conditions
      ensures Reachable(keys, roots, t)
    {
      assert t in area;
    }
    forall t, c | t in f.conditions && t !in roots && c in f.conditions[t]
      ensures Explained(keys, f.tables, f.conditions, t, c)
    {
      assert Traceable(f, t, c);
    }
  }
}
