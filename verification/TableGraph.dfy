/** Tables and the foreign keys between them: what is reachable, and in which order it is met. */
module TableGraph {
  import opened Standard

  datatype ForeignKey = ForeignKey(child: string, col: string, parentCol: string, parent: string)

  function PointsAt(parent: string): ForeignKey -> bool { (fk: ForeignKey) => fk.parent == parent }

  function KidsOf(keys: seq<ForeignKey>, parent: string): seq<ForeignKey> { Filter(PointsAt(parent), keys) }

  ghost predicate Edge(keys: seq<ForeignKey>, parent: string, child: string) {
    exists fk :: fk in keys && fk.parent == parent && fk.child == child
  }

  ghost predicate IsPath(keys: seq<ForeignKey>, path: seq<string>) {
    path != [] && forall i :: 0 <= i < |path| - 1 ==> Edge(keys, path[i], path[i + 1])
  }

  /** A chain of foreign keys leads from a root to the table. */
  ghost predicate Reachable(keys: seq<ForeignKey>, roots: seq<string>, table: string) {
    exists path :: IsPath(keys, path) && path[0] in roots && path[|path| - 1] == table
  }

  lemma {:induction false} ReachableStep(keys: seq<ForeignKey>, roots: seq<string>, parent: string, child: string)
    requires Reachable(keys, roots, parent) && Edge(keys, parent, child)
    ensures Reachable(keys, roots, child)
  {
    var path :| IsPath(keys, path) && path[0] in roots && path[|path| - 1] == parent;
    var longer := path + [child];
    assert IsPath(keys, longer) by {
      forall i | 0 <= i < |longer| - 1
        ensures Edge(keys, longer[i], longer[i + 1])
      {
        if i < |path| - 1 { assert Edge(keys, path[i], path[i + 1]); }
      }
    }
  }

  lemma {:induction false} RootReachable(keys: seq<ForeignKey>, roots: seq<string>, root: string)
    requires root in roots
    ensures Reachable(keys, roots, root)
  {
    assert IsPath(keys, [root]);
  }

  /** Every table that points at one of the tables is among them. */
  ghost predicate Closed(keys: seq<ForeignKey>, tables: set<string>) {
    forall fk :: fk in keys && fk.parent in tables ==> fk.child in tables
  }

  /** A closed set of tables holds everything reachable from it. */
  lemma {:induction false} ClosedHoldsReachable(keys: seq<ForeignKey>, tables: set<string>, path: seq<string>, n: nat)
    requires Closed(keys, tables) && IsPath(keys, path) && path[0] in tables && n < |path|
    ensures path[n] in tables
  {
    if n > 0 {
      ClosedHoldsReachable(keys, tables, path, n - 1);
      assert Edge(keys, path[n - 1], path[n - 1 + 1]);
    }
  }

  /** A set of tables no foreign key leads out of. */
  ghost predicate ClosedUnder(keys: seq<ForeignKey>, area: iset<string>) {
    forall fk :: fk in keys && fk.parent in area ==> fk.child in area
  }

  ghost function ReachableArea(keys: seq<ForeignKey>, roots: seq<string>): iset<string> {
    iset t | Reachable(keys, roots, t)
  }

  lemma {:induction false} AllReachableFound(keys: seq<ForeignKey>, roots: seq<string>, tables: set<string>, t: string)
    requires Closed(keys, tables) && (forall r :: r in roots ==> r in tables) && Reachable(keys, roots, t)
    ensures t in tables
  {
    var path :| IsPath(keys, path) && path[0] in roots && path[|path| - 1] == t;
    ClosedHoldsReachable(keys, tables, path, |path| - 1);
  }

  lemma {:induction false} ReachableIsClosed(keys: seq<ForeignKey>, roots: seq<string>)
    ensures ClosedUnder(keys, ReachableArea(keys, roots))
    ensures forall r :: r in roots ==> r in ReachableArea(keys, roots)
  {
    forall fk | fk in keys && fk.parent in ReachableArea(keys, roots)
      ensures fk.child in ReachableArea(keys, roots)
    {
      assert Edge(keys, fk.parent, fk.child);
      ReachableStep(keys, roots, fk.parent, fk.child);
    }
    forall r | r in roots
      ensures r in ReachableArea(keys, roots)
    {
      RootReachable(keys, roots, r);
    }
  }

  /** The place of a table in the order of discovery. */
  function IndexOf(tables: seq<string>, t: string): nat {
    if tables == [] || tables[0] == t then 0 else 1 + IndexOf(tables[1..], t)
  }

  lemma {:induction false} IndexOfAppend(tables: seq<string>, more: seq<string>, t: string)
    requires t in tables
    ensures IndexOf(tables + more, t) == IndexOf(tables, t) < |tables|
  {
    if tables[0] != t {
      assert (tables + more)[1..] == tables[1..] + more;
      IndexOfAppend(tables[1..], more, t);
    }
  }

  lemma {:induction false} IndexIs(tables: seq<string>, i: nat)
    requires Distinct(tables) && i < |tables|
    ensures IndexOf(tables, tables[i]) == i
  {
    if i > 0 { IndexIs(tables[1..], i - 1); }
  }

  // ---- The order of discovery ------------------------------------------------------------

  /** The tables of the queue that are not yet seen, each where it first stands. */
  ghost function Fresh(queue: seq<string>, seen: seq<string>): seq<string> {
    if queue == [] then []
    else if queue[0] in seen then Fresh(queue[1..], seen)
    else [queue[0]] + Fresh(queue[1..], seen + [queue[0]])
  }

  lemma {:induction false} FreshAppend(queue: seq<string>, seen: seq<string>, t: string)
    ensures Fresh(queue + [t], seen) == Fresh(queue, seen) + if t in seen || t in queue then [] else [t]
  {
    if queue == [] {
      assert queue + [t] == [t] && [t][1..] == [];
    } else {
      assert (queue + [t])[1..] == queue[1..] + [t];
      assert queue == [queue[0]] + queue[1..];
      FreshAppend(queue[1..], if queue[0] in seen then seen else seen + [queue[0]], t);
    }
  }

  lemma {:induction false} FreshMembers(queue: seq<string>, seen: seq<string>)
    ensures forall t :: t in Fresh(queue, seen) <==> t in queue && t !in seen
  {
    if queue != [] {
      assert queue == [queue[0]] + queue[1..];
      FreshMembers(queue[1..], if queue[0] in seen then seen else seen + [queue[0]]);
    }
  }

  /** One round over a table's keys, each child at the end when it is new. */
  function Discovering(kids: seq<ForeignKey>, tables: seq<string>): (r: seq<string>)
    ensures Distinct(tables) ==> Distinct(r)
    ensures tables <= r
  {
    if kids == [] then tables
    else
      var n := |kids| - 1;
      var r := Discovering(kids[..n], tables);
      if kids[n].child in r then r else r + [kids[n].child]
  }

  lemma {:induction false} DiscoveringStays(kids: seq<ForeignKey>, tables: seq<string>, all: set<string>)
    requires forall t :: t in tables ==> t in all
    requires forall fk :: fk in kids ==> fk.child in all
    ensures forall t :: t in Discovering(kids, tables) ==> t in all
  {
    if kids != [] {
      var n := |kids| - 1;
      assert forall fk :: fk in kids[..n] ==> fk in kids;
      DiscoveringStays(kids[..n], tables, all);
      assert kids[n] in kids;
    }
  }

  /** Breadth first: the tables from the n-th on are taken in turn, and the tables
      that point at each are added behind the others; there are at most `most`. */
  ghost function BreadthFirst(keys: seq<ForeignKey>, tables: seq<string>, n: nat, most: nat): seq<string>
    decreases most - n
  {
    if n >= |tables| || n >= most then tables
    else BreadthFirst(keys, Discovering(KidsOf(keys, tables[n]), tables), n + 1, most)
  }

  ghost function Universe(keys: seq<ForeignKey>, roots: seq<string>): set<string> {
    (set fk | fk in keys :: fk.child) + (set r | r in roots)
  }

  /** Roots once each, in order. */
  function Once(roots: seq<string>): (r: seq<string>)
    ensures Distinct(r) && forall t :: t in r <==> t in roots
  {
    if roots == [] then []
    else
      var n := |roots| - 1;
      assert roots == roots[..n] + [roots[n]];
      Once(roots[..n]) + if roots[n] in roots[..n] then [] else [roots[n]]
  }

  lemma {:induction false} RootsAreFresh(roots: seq<string>, n: nat)
    requires n <= |roots|
    ensures Fresh(roots[..n], []) == Once(roots[..n])
  {
    if n > 0 {
      RootsAreFresh(roots, n - 1);
      assert roots[..n][..n - 1] == roots[..n - 1];
      assert roots[..n] == roots[..n - 1] + [roots[n - 1]];
      FreshAppend(roots[..n - 1], [], roots[n - 1]);
    }
  }

  ghost function DiscoveryOrder(keys: seq<ForeignKey>, roots: seq<string>): seq<string> {
    BreadthFirst(keys, Once(roots), 0, |Universe(keys, roots)|)
  }

  /** With the first n tables taken, the order of discovery goes on from here. */
  ghost predicate OnCourse(keys: seq<ForeignKey>, roots: seq<string>, tables: seq<string>, n: nat) {
    && Distinct(tables) && (forall t :: t in tables ==> t in Universe(keys, roots))
    && BreadthFirst(keys, tables, n, |Universe(keys, roots)|) == DiscoveryOrder(keys, roots)
  }

  lemma {:induction false} DistinctWithin(tables: seq<string>, all: set<string>)
    requires Distinct(tables) && forall t :: t in tables ==> t in all
    ensures |tables| <= |all|
  {
    DistinctSize(tables);
    ElementsAreMembers(tables);
    assert Elements(tables) <= all;
    assert all == Elements(tables) + (all - Elements(tables));
  }

  lemma {:induction false} CourseNext(keys: seq<ForeignKey>, roots: seq<string>, tables: seq<string>, n: nat)
    requires OnCourse(keys, roots, tables, n) && n < |tables|
    ensures OnCourse(keys, roots, Discovering(KidsOf(keys, tables[n]), tables), n + 1)
  {
    DistinctWithin(tables, Universe(keys, roots));
    DiscoveringStays(KidsOf(keys, tables[n]), tables, Universe(keys, roots));
  }

  lemma {:induction false} CourseEnds(keys: seq<ForeignKey>, roots: seq<string>, tables: seq<string>)
    requires OnCourse(keys, roots, tables, |tables|)
    ensures tables == DiscoveryOrder(keys, roots)
  {
  }

  function Taken(seen: seq<string>, t: string): seq<string> { if t in seen then seen else seen + [t] }
}
