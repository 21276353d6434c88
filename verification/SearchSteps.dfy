/** What each step of the table search does, and what it keeps. */
module SearchSteps {
  import opened Standard
  import opened TableGraph

  /** A row condition of the deletion: the company's own rows, or the rows that
      point at a parent's affected rows. */
  datatype Condition =
    | OfCompany
    | PointsInto(col: string, parentCol: string, parent: string, parentConditions: seq<Condition>)

  /** What identifies a visited edge: the parent column is not part of it. */
  datatype EdgeKey = EdgeKey(parent: string, child: string, col: string)

  function KeyOf(fk: ForeignKey): EdgeKey { EdgeKey(fk.parent, fk.child, fk.col) }

  /** Every foreign key into the table has been followed. */
  ghost predicate Expanded(keys: seq<ForeignKey>, visited: set<EdgeKey>, parent: string) {
    forall fk :: fk in keys && fk.parent == parent ==> KeyOf(fk) in visited
  }

  /** What the search has: the tables in order of discovery with their row
      conditions, and the edges it has followed. */
  datatype Found = Found(tables: seq<string>, conditions: map<string, seq<Condition>>, visited: set<EdgeKey>)

  ghost function AllEdges(keys: seq<ForeignKey>): set<EdgeKey> {
    set fk | fk in keys :: KeyOf(fk)
  }

  /** The search stays in the area, records each table once, and has both ends of
      every edge it has followed. */
  ghost predicate Consistent(f: Found, keys: seq<ForeignKey>, area: iset<string>) {
    && Distinct(f.tables)
    && (forall t :: t in f.conditions <==> t in f.tables)
    && (forall t :: t in f.conditions ==> t in area)
    && f.visited <= AllEdges(keys)
    && (forall e :: e in f.visited ==> e.child in f.conditions && e.parent in f.conditions)
  }

  ghost predicate FromKey(condition: Condition, keys: seq<ForeignKey>, child: string) {
    condition.PointsInto?
    && exists fk :: fk in keys && fk.child == child
                    && fk.col == condition.col && fk.parentCol == condition.parentCol && fk.parent == condition.parent
  }

  /** One of the conditions takes the rows that point along the edge. */
  ghost predicate Covers(conditions: seq<Condition>, e: EdgeKey) {
    exists c :: c in conditions && c.PointsInto? && c.parent == e.parent && c.col == e.col
  }

  /** A root is wiped by company alone; any other table only for rows that point
      along one of its own foreign keys, and for every edge followed into it. */
  ghost predicate Justified(f: Found, keys: seq<ForeignKey>, roots: seq<string>) {
    && (forall r :: r in roots ==> r in f.conditions)
    && (forall e {:trigger Covers(f.conditions[e.child], e)} ::
          e in f.visited && e.child in f.conditions && e.child !in roots ==> Covers(f.conditions[e.child], e))
    && (forall t :: t in f.conditions && t in roots ==> f.conditions[t] == [OfCompany])
    && (forall t :: t in f.conditions && t !in roots ==> f.conditions[t] != [])
    && (forall t, c {:trigger FromKey(c, keys, t)} ::
          t in f.conditions && t !in roots && c in f.conditions[t] ==> FromKey(c, keys, t))
  }

  /** Conditions that come from a table discovered before `parent`. */
  function FromEarlier(tables: seq<string>, parent: string): Condition -> bool {
    (c: Condition) => c.OfCompany? || IndexOf(tables, c.parent) < IndexOf(tables, parent)
  }

  /** Those of a table's conditions that came from tables discovered before it. */
  function Snapshot(tables: seq<string>, conditions: map<string, seq<Condition>>, parent: string): seq<Condition> {
    Filter(FromEarlier(tables, parent), if parent in conditions then conditions[parent] else [])
  }

  /** A condition of a table other than a root belongs to a followed edge, and holds
      what was known of the parent when the parent was reached. */
  ghost predicate Traceable(f: Found, t: string, c: Condition) {
    && c.PointsInto? && EdgeKey(c.parent, t, c.col) in f.visited
    && c.parentConditions == Snapshot(f.tables, f.conditions, c.parent)
  }

  ghost predicate Traced(f: Found, roots: seq<string>) {
    forall t, c {:trigger Traceable(f, t, c)} ::
      t in f.conditions && t !in roots && c in f.conditions[t] ==> Traceable(f, t, c)
  }

  /** The table is the last so far, and its conditions are those of earlier tables. */
  ghost predicate Ready(f: Found, parent: string, parentConditions: seq<Condition>) {
    && parent in f.tables
    && parentConditions == Snapshot(f.tables, f.conditions, parent)
    && forall e :: e in f.visited ==> IndexOf(f.tables, e.parent) <= IndexOf(f.tables, parent)
  }

  /** The tables behind those seen are the fresh ones of the queue, in its order. */
  ghost predicate Lockstep(f: Found, queue: seq<string>, seen: seq<string>) {
    && |seen| <= |f.tables| && seen == f.tables[..|seen|]
    && (forall t :: t in queue ==> t in f.tables)
    && Fresh(queue, seen) == f.tables[|seen|..]
  }

  /** Progress of the search: a longer frontier means a newly followed edge. */
  ghost predicate Grown(f0: Found, next0: seq<string>, f: Found, next: seq<string>) {
    && f0.conditions.Keys <= f.conditions.Keys
    && f0.visited <= f.visited
    && next0 <= next
    && (next != next0 ==> f.visited != f0.visited)
  }

  lemma {:induction false} GrownFurther(f0: Found, next0: seq<string>, f1: Found, next1: seq<string>,
                                        f: Found, next: seq<string>)
    requires Grown(f0, next0, f1, next1) && Grown(f1, next1, f, next)
    ensures Grown(f0, next0, f, next)
  {
  }

  /** Following one foreign key, from a parent whose conditions were read before. */
  function Follow(fk: ForeignKey, parentConditions: seq<Condition>, f: Found, next: seq<string>): (Found, seq<string>) {
    if KeyOf(fk) in f.visited then (f, next)
    else
      var visited := f.visited + {KeyOf(fk)};
      var condition := PointsInto(fk.col, fk.parentCol, fk.parent, parentConditions);
      if fk.child !in f.conditions then
        (Found(f.tables + [fk.child], f.conditions[fk.child := [condition]], visited), next + [fk.child])
      else if OfCompany !in f.conditions[fk.child] && condition !in f.conditions[fk.child] then
        (Found(f.tables, f.conditions[fk.child := f.conditions[fk.child] + [condition]], visited), next + [fk.child])
      else (Found(f.tables, f.conditions, visited), next)
  }

  lemma {:induction false} FollowConsistent(fk: ForeignKey, parentConditions: seq<Condition>,
                                            f0: Found, next0: seq<string>, keys: seq<ForeignKey>, area: iset<string>)
    requires Consistent(f0, keys, area)
    requires fk in keys && fk.child in area && fk.parent in f0.conditions
    ensures var (f, next) := Follow(fk, parentConditions, f0, next0);
            && Consistent(f, keys, area) && Grown(f0, next0, f, next)
            && f.visited == f0.visited + {KeyOf(fk)}
            && f.tables == if fk.child in f0.tables then f0.tables else f0.tables + [fk.child]
  {
    assert KeyOf(fk) in AllEdges(keys);
  }

  lemma {:induction false} FollowJustified(fk: ForeignKey, parentConditions: seq<Condition>,
                                           f0: Found, next0: seq<string>,
                                           keys: seq<ForeignKey>, roots: seq<string>, area: iset<string>)
    requires Consistent(f0, keys, area) && Justified(f0, keys, roots) && fk in keys
    ensures Justified(Follow(fk, parentConditions, f0, next0).0, keys, roots)
  {
    var f := Follow(fk, parentConditions, f0, next0).0;
    var condition := PointsInto(fk.col, fk.parentCol, fk.parent, parentConditions);
    assert FromKey(condition, keys, fk.child);
    assert fk.child in f0.conditions && fk.child !in roots ==> forall c :: c in f0.conditions[fk.child] ==>
      FromKey(c, keys, fk.child);
    if KeyOf(fk) !in f0.visited { StillCovered(f0, f, fk, condition, keys, roots); }
  }

  lemma {:induction false} StillCovered(f0: Found, f: Found, fk: ForeignKey, condition: Condition,
                                        keys: seq<ForeignKey>, roots: seq<string>)
    requires Justified(f0, keys, roots) && f.visited == f0.visited + {KeyOf(fk)}
    requires condition.PointsInto? && condition.parent == fk.parent && condition.col == fk.col
    requires fk.child in f.conditions && (condition in f.conditions[fk.child] || fk.child in roots)
    requires forall t :: t in f.conditions && t != fk.child ==>
             t in f0.conditions && f.conditions[t] == f0.conditions[t]
    requires fk.child in f0.conditions ==> f0.conditions[fk.child] <= f.conditions[fk.child]
    requires forall e :: e in f0.visited ==> e.child in f0.conditions
    ensures forall e :: e in f.visited && e.child in f.conditions && e.child !in roots ==>
            Covers(f.conditions[e.child], e)
  {
    forall e | e in f.visited && e.child in f.conditions && e.child !in roots
      ensures Covers(f.conditions[e.child], e)
    {
      if e != KeyOf(fk) {
        assert Covers(f0.conditions[e.child], e);
        var c :| c in f0.conditions[e.child] && c.PointsInto? && c.parent == e.parent && c.col == e.col;
        assert c in f.conditions[e.child];
      }
    }
  }

  /** Which conditions come from earlier tables is not changed by a table found later. */
  lemma {:induction false} SameEarlier(tables: seq<string>, more: seq<string>, p: string, conditions: seq<Condition>)
    requires p in tables && forall c :: c in conditions && c.PointsInto? ==> c.parent in tables
    ensures Filter(FromEarlier(tables + more, p), conditions) == Filter(FromEarlier(tables, p), conditions)
  {
    IndexOfAppend(tables, more, p);
    forall c | c in conditions
      ensures FromEarlier(tables + more, p)(c) == FromEarlier(tables, p)(c)
    {
      if c.PointsInto? { IndexOfAppend(tables, more, c.parent); }
    }
    FilterSame(FromEarlier(tables + more, p), FromEarlier(tables, p), conditions);
  }

  /** A table that edges were followed from keeps its snapshot: what is added to it
      now comes from a table that was not reached before it. */
  lemma {:induction false} SnapshotKept(fk: ForeignKey, parentConditions: seq<Condition>, f0: Found, next0: seq<string>,
                                        p: string)
    requires fk.parent in f0.tables && p in f0.tables && forall t :: t in f0.conditions <==> t in f0.tables
    requires forall c :: c in f0.conditions[p] && c.PointsInto? ==> c.parent in f0.tables
    requires IndexOf(f0.tables, p) <= IndexOf(f0.tables, fk.parent)
    ensures var f := Follow(fk, parentConditions, f0, next0).0;
            Snapshot(f.tables, f.conditions, p) == Snapshot(f0.tables, f0.conditions, p)
  {
    var f := Follow(fk, parentConditions, f0, next0).0;
    var conditions := f0.conditions[p];
    var more := if f.tables == f0.tables then [] else [fk.child];
    assert f.tables == f0.tables + more;
    SameEarlier(f0.tables, more, p, conditions);
    if f.conditions[p] != conditions {
      var condition := PointsInto(fk.col, fk.parentCol, fk.parent, parentConditions);
      IndexOfAppend(f0.tables, more, p);
      IndexOfAppend(f0.tables, more, fk.parent);
      FilterAppend(FromEarlier(f.tables, p), conditions, condition);
    }
  }

  lemma {:induction false} ParentsKnown(f: Found, keys: seq<ForeignKey>, roots: seq<string>, area: iset<string>,
                                        t: string)
    requires Consistent(f, keys, area) && Justified(f, keys, roots) && Traced(f, roots) && t in f.tables
    ensures forall c :: c in f.conditions[t] && c.PointsInto? ==> c.parent in f.tables
  {
    forall c | c in f.conditions[t] && c.PointsInto?
      ensures c.parent in f.tables
    {
      if t !in roots { assert Traceable(f, t, c); }
    }
  }

  lemma {:induction false} PlaceKept(fk: ForeignKey, parentConditions: seq<Condition>,
                                     f: Found, next: seq<string>, t: string)
    requires t in f.tables
    ensures IndexOf(Follow(fk, parentConditions, f, next).0.tables, t) == IndexOf(f.tables, t)
  {
    IndexOfAppend(f.tables, [fk.child], t);
  }

  lemma {:induction false} FollowReady(fk: ForeignKey, parentConditions: seq<Condition>, f0: Found, next0: seq<string>,
                                       keys: seq<ForeignKey>, roots: seq<string>, area: iset<string>)
    requires Consistent(f0, keys, area) && Justified(f0, keys, roots) && Traced(f0, roots)
    requires Ready(f0, fk.parent, parentConditions)
    ensures Ready(Follow(fk, parentConditions, f0, next0).0, fk.parent, parentConditions)
  {
    var f := Follow(fk, parentConditions, f0, next0).0;
    ParentsKnown(f0, keys, roots, area, fk.parent);
    SnapshotKept(fk, parentConditions, f0, next0, fk.parent);
    PlaceKept(fk, parentConditions, f0, next0, fk.parent);
    forall e | e in f.visited
      ensures IndexOf(f.tables, e.parent) <= IndexOf(f.tables, fk.parent)
    {
      PlaceKept(fk, parentConditions, f0, next0, e.parent);
    }
  }

  lemma {:induction false} FollowTraced(fk: ForeignKey, parentConditions: seq<Condition>, f0: Found, next0: seq<string>,
                                        keys: seq<ForeignKey>, roots: seq<string>, area: iset<string>)
    requires Consistent(f0, keys, area) && Justified(f0, keys, roots) && Traced(f0, roots)
    requires Ready(f0, fk.parent, parentConditions)
    ensures Traced(Follow(fk, parentConditions, f0, next0).0, roots)
  {
    var f := Follow(fk, parentConditions, f0, next0).0;
    ParentsKnown(f0, keys, roots, area, fk.parent);
    SnapshotKept(fk, parentConditions, f0, next0, fk.parent);
    forall t, c | t in f.conditions && t !in roots && c in f.conditions[t]
      ensures Traceable(f, t, c)
    {
      if t in f0.conditions && c in f0.conditions[t] {
        assert Traceable(f0, t, c);
        ParentsKnown(f0, keys, roots, area, c.parent);
        SnapshotKept(fk, parentConditions, f0, next0, c.parent);
      }
    }
  }

  lemma {:induction false} FollowLockstep(fk: ForeignKey, parentConditions: seq<Condition>, f0: Found,
                                          next0: seq<string>,
                                          keys: seq<ForeignKey>, area: iset<string>, ahead: seq<string>,
                                          seen: seq<string>)
    requires Consistent(f0, keys, area) && Lockstep(f0, ahead + next0, seen)
    ensures var (f, next) := Follow(fk, parentConditions, f0, next0); Lockstep(f, ahead + next, seen)
  {
    var (f, next) := Follow(fk, parentConditions, f0, next0);
    var queue := ahead + next0;
    if next != next0 {
      assert ahead + next == queue + [fk.child];
      FreshAppend(queue, seen, fk.child);
      FreshMembers(queue, seen);
      assert f0.tables == seen + f0.tables[|seen|..];
      if fk.child !in f0.tables {
        assert f.tables[|seen|..] == f0.tables[|seen|..] + [fk.child];
      }
    }
  }

  ghost predicate Sound(keys: seq<ForeignKey>, roots: seq<string>, area: iset<string>, f: Found) {
    Consistent(f, keys, area) && Justified(f, keys, roots) && Traced(f, roots)
  }

  /** `queue` holds the tables still to be taken, `seen` those taken so far, each once. */
  ghost predicate Underway(keys: seq<ForeignKey>, f: Found, queue: seq<string>, seen: seq<string>) {
    && Lockstep(f, queue, seen)
    && (forall t :: t in seen ==> Expanded(keys, f.visited, t))
    && (forall e :: e in f.visited ==> e.parent in seen)
  }

  /** The first keys of a table's turn have been followed, and nothing else. */
  ghost predicate Turn(parent: string, kids: seq<ForeignKey>, f0: Found, f: Found) {
    && f.tables == Discovering(kids, f0.tables)
    && (forall fk :: fk in kids ==> KeyOf(fk) in f.visited)
    && (forall e :: e in f.visited ==> e in f0.visited || e.parent == parent)
  }

  lemma {:induction false} TurnFurther(parent: string, kids: seq<ForeignKey>, i: nat, f0: Found, f1: Found, f: Found)
    requires i < |kids| && kids[i].parent == parent && Turn(parent, kids[..i], f0, f1)
    requires f.visited == f1.visited + {KeyOf(kids[i])}
    requires f.tables == if kids[i].child in f1.tables then f1.tables else f1.tables + [kids[i].child]
    ensures Turn(parent, kids[..i + 1], f0, f)
  {
    PrefixNext(kids, i);
    assert kids[..i + 1][..i] == kids[..i];
    forall fk | fk in kids[..i + 1]
      ensures KeyOf(fk) in f.visited
    {
      if fk != kids[i] { assert fk in kids[..i]; }
    }
  }

  /** The table at the head of the queue was taken before, or it is the next in the
      order of discovery and everything known of it comes from earlier tables. */
  lemma {:induction false} HeadReady(keys: seq<ForeignKey>, roots: seq<string>, area: iset<string>,
                                     f: Found, head: string, queue: seq<string>, seen: seq<string>)
    requires Sound(keys, roots, area, f) && Underway(keys, f, [head] + queue, seen)
    ensures head in f.conditions
    ensures head in seen ==> Expanded(keys, f.visited, head) && Lockstep(f, queue, seen)
    ensures head !in seen ==>
              && |seen| < |f.tables| && f.tables[|seen|] == head
              && Ready(f, head, f.conditions[head]) && Lockstep(f, queue, seen + [head])
  {
    assert ([head] + queue)[1..] == queue && ([head] + queue)[0] == head;
    if head !in seen {
      assert f.tables[|seen|..][0] == head;
      assert f.tables[|seen|..][1..] == f.tables[|seen| + 1..];
      assert seen + [head] == f.tables[..|seen| + 1];
      forall c | c in f.conditions[head] && c.PointsInto?
        ensures c.parent in seen
      {
        if head !in roots { assert Traceable(f, head, c); }
      }
      EarlierOnly(f, |seen|);
    }
  }

  lemma {:induction false} EarlierOnly(f: Found, n: nat)
    requires Distinct(f.tables) && n < |f.tables| && f.tables[n] in f.conditions
    requires forall e :: e in f.visited ==> e.parent in f.tables[..n]
    requires forall c :: c in f.conditions[f.tables[n]] && c.PointsInto? ==> c.parent in f.tables[..n]
    ensures Ready(f, f.tables[n], f.conditions[f.tables[n]])
  {
    IndexIs(f.tables, n);
    forall p | p in f.tables[..n]
      ensures IndexOf(f.tables, p) < n
    {
      assert f.tables == f.tables[..n] + f.tables[n..];
      IndexOfAppend(f.tables[..n], f.tables[n..], p);
    }
    FilterAllIff(FromEarlier(f.tables, f.tables[n]), f.conditions[f.tables[n]]);
  }

  /** The head of the queue has had its turn. */
  lemma {:induction false} HeadTaken(keys: seq<ForeignKey>, f0: Found, f: Found, head: string, queue0: seq<string>,
                                     queue: seq<string>, seen: seq<string>)
    requires Underway(keys, f0, queue0, seen) && f0.visited <= f.visited && Lockstep(f, queue, Taken(seen, head))
    requires Expanded(keys, f.visited, head)
    requires forall e :: e in f.visited ==> e in f0.visited || e.parent == head
    ensures Underway(keys, f, queue, Taken(seen, head))
  {
    forall t | t in Taken(seen, head)
      ensures Expanded(keys, f.visited, t)
    {
      if t != head { assert Expanded(keys, f0.visited, t); }
    }
    forall e | e in f.visited
      ensures e.parent in Taken(seen, head)
    {
      if e in f0.visited { assert e.parent in seen; }
    }
  }

  /** In the middle of a table's turn. */
  ghost predicate Following(parent: string, kids: seq<ForeignKey>, i: nat, parentConditions: seq<Condition>,
                            f0: Found, next0: seq<string>, f: Found, next: seq<string>,
                            ahead: seq<string>, seen: seq<string>)
    requires i <= |kids|
  {
    && Lockstep(f, ahead + next, Taken(seen, parent)) && Grown(f0, next0, f, next) && Turn(parent, kids[..i], f0, f)
    && if parent in seen then f.tables == f0.tables else Ready(f, parent, parentConditions)
  }

  lemma {:induction false} KidNext(parent: string, kids: seq<ForeignKey>, i: nat, parentConditions: seq<Condition>,
                                   f0: Found, next0: seq<string>, f: Found, next: seq<string>,
                                   f1: Found, next1: seq<string>, ahead: seq<string>, seen: seq<string>,
                                   keys: seq<ForeignKey>, roots: seq<string>, area: iset<string>)
    requires Sound(keys, roots, area, f) && ClosedUnder(keys, area) && parent in f0.conditions
    requires kids == KidsOf(keys, parent) && i < |kids|
    requires parent in seen ==> Expanded(keys, f0.visited, parent)
    requires Following(parent, kids, i, parentConditions, f0, next0, f, next, ahead, seen)
    requires (f1, next1) == Follow(kids[i], parentConditions, f, next)
    ensures Sound(keys, roots, area, f1)
    ensures Following(parent, kids, i + 1, parentConditions, f0, next0, f1, next1, ahead, seen)
  {
    var fk := kids[i];
    assert fk in kids;
    FollowConsistent(fk, parentConditions, f, next, keys, area);
    FollowJustified(fk, parentConditions, f, next, keys, roots, area);
    FollowLockstep(fk, parentConditions, f, next, keys, area, ahead, Taken(seen, parent));
    if parent !in seen {
      FollowReady(fk, parentConditions, f, next, keys, roots, area);
      FollowTraced(fk, parentConditions, f, next, keys, roots, area);
    }
    TurnFurther(parent, kids, i, f0, f, f1);
    GrownFurther(f0, next0, f, next, f1, next1);
  }

  lemma {:induction false} TurnBegins(keys: seq<ForeignKey>, roots: seq<string>, area: iset<string>, parent: string,
                                      f: Found, next: seq<string>, ahead: seq<string>, seen: seq<string>)
    requires Sound(keys, roots, area, f) && Underway(keys, f, [parent] + (ahead + next), seen)
    ensures parent in f.conditions && (parent in seen ==> Expanded(keys, f.visited, parent))
    ensures Following(parent, KidsOf(keys, parent), 0, f.conditions[parent], f, next, f, next, ahead, seen)
  {
    HeadReady(keys, roots, area, f, parent, ahead + next, seen);
  }

  lemma {:induction false} TurnEnds(keys: seq<ForeignKey>, roots: seq<string>, area: iset<string>, parent: string,
                                    parentConditions: seq<Condition>, f0: Found, next0: seq<string>,
                                    f: Found, next: seq<string>, ahead: seq<string>, seen: seq<string>)
    requires Sound(keys, roots, area, f0) && Underway(keys, f0, [parent] + (ahead + next0), seen)
    requires OnCourse(keys, roots, f0.tables, |seen|)
    requires Following(parent, KidsOf(keys, parent), |KidsOf(keys, parent)|, parentConditions, f0, next0, f, next,
             ahead, seen)
    ensures Underway(keys, f, ahead + next, Taken(seen, parent)) && Grown(f0, next0, f, next)
    ensures Expanded(keys, f.visited, parent) && f.tables == Discovering(KidsOf(keys, parent), f0.tables)
    ensures OnCourse(keys, roots, f.tables, |Taken(seen, parent)|)
  {
    var kids := KidsOf(keys, parent);
    assert kids[..|kids|] == kids;
    AllFollowed(keys, parent, f0, f);
    HeadTaken(keys, f0, f, parent, [parent] + (ahead + next0), ahead + next, seen);
    if parent !in seen {
      HeadReady(keys, roots, area, f0, parent, ahead + next0, seen);
      CourseNext(keys, roots, f0.tables, |seen|);
    }
  }

  lemma {:induction false} AllFollowed(keys: seq<ForeignKey>, parent: string, f0: Found, f: Found)
    requires Turn(parent, KidsOf(keys, parent), f0, f)
    ensures Expanded(keys, f.visited, parent)
  {
    forall fk | fk in keys && fk.parent == parent
      ensures KeyOf(fk) in f.visited
    {
      assert fk in KidsOf(keys, parent);
    }
  }
}
