/** Kahn's algorithm over the foreign keys among the included tables: a child is
    deleted before the tables it points at. */
module DeletionOrder {
  import opened Standard
  import opened TableGraph
  import opened TableSearch

  /** One per foreign key: several keys may join the same pair of tables. */
  datatype Link = Link(child: string, parent: string)

  function Out(child: string, parent: string): Link -> int {
    (e: Link) => if e.child == child && e.parent == parent then 1 else 0
  }

  /** Keys into `parent` from children that have not been placed yet. */
  function Pending(seen: set<string>, parent: string): Link -> int {
    (e: Link) => if e.parent == parent && e.child !in seen then 1 else 0
  }

  function Occurrences(t: string): string -> int { (x: string) => if x == t then 1 else 0 }

  ghost predicate Within(tables: seq<string>, links: seq<Link>) {
    forall i :: 0 <= i < |links| ==> links[i].child in tables && links[i].parent in tables
  }

  ghost predicate Joins(links: seq<Link>, child: string, parent: string) {
    exists i :: 0 <= i < |links| && links[i] == Link(child, parent)
  }

  /** Every child stands strictly before each of its parents. */
  ghost predicate ChildrenFirst(order: seq<string>, links: seq<Link>) {
    forall i, j :: 0 <= i < |order| && 0 <= j < |order| && Joins(links, order[i], order[j]) ==> i < j
  }

  /** A walk from child to parent along the foreign keys. */
  ghost predicate Upward(links: seq<Link>, walk: seq<string>) {
    forall i :: 0 <= i < |walk| - 1 ==> Climbs(links, walk, i)
  }

  ghost predicate Climbs(links: seq<Link>, walk: seq<string>, i: nat)
    requires i < |walk| - 1
  {
    Joins(links, walk[i], walk[i + 1])
  }

  /** A walk that comes back to where it starts and then goes up to the table. */
  ghost predicate IsLasso(links: seq<Link>, walk: seq<string>, j: nat, t: string) {
    0 < j < |walk| && Upward(links, walk) && walk[0] == walk[j] && walk[|walk| - 1] == t
  }

  /** A cycle of keys can be reached from the table, from parent to child. */
  ghost predicate OverCycle(links: seq<Link>, t: string) {
    exists walk: seq<string>, j: nat :: IsLasso(links, walk, j, t)
  }

  ghost function Caught(links: seq<Link>): string -> bool { (t: string) => OverCycle(links, t) }

  /** The tables the queue cannot place, in their order of discovery. */
  ghost function Held(tables: seq<string>, links: seq<Link>): seq<string> { Filter(Caught(links), tables) }

  /** The order the algorithm gives: tables over no cycle, each after all its
      children, and then the tables held up. */
  ghost predicate KahnOrder(order: seq<string>, tables: seq<string>, links: seq<Link>) {
    && Distinct(order) && (forall t :: t in order <==> t in tables)
    && exists placed :: order == placed + Held(tables, links) && ChildrenFirst(placed, links) && Settled(placed, links)
  }

  /** All children of the tables are among them, and none of the tables is over a cycle. */
  ghost predicate Settled(placed: seq<string>, links: seq<Link>) {
    && (forall c, p :: p in placed && Joins(links, c, p) ==> c in placed)
    && (forall t :: t in placed ==> !OverCycle(links, t))
  }

  /** Every child stands before each other table it points at. */
  ghost predicate Safe(order: seq<string>, links: seq<Link>) {
    forall i, j :: 0 <= i < |order| && 0 <= j < |order| && i != j && Joins(links, order[i], order[j]) ==> i < j
  }

  // ---- The counters ------------------------------------------------------------------

  /** The algorithm's maps: keys still pending into a table, and the parents a
      table points at, one entry a key. */
  datatype Graph = Graph(inDegree: map<string, int>, adj: map<string, seq<string>>)

  ghost predicate Built(g: Graph, tables: seq<string>, links: seq<Link>) {
    && (forall t :: t in tables <==> t in g.inDegree)
    && (forall t :: t in tables <==> t in g.adj)
    && (forall t :: t in tables ==> g.inDegree[t] == SumBy(Pending({}, t), links))
    && (forall c, p :: c in tables ==> SumBy(Occurrences(p), g.adj[c]) == SumBy(Out(c, p), links))
  }

  method EmptyGraph(tables: seq<string>) returns (g: Graph)
    ensures Built(g, tables, [])
  {
    g := Graph(map t | t in tables :: 0, map t | t in tables :: []);
    assert forall t :: SumBy(Pending({}, t), []) == 0;
    assert forall c, p :: SumBy(Out(c, p), []) == 0;
  }

  method BuildGraph(tables: seq<string>, links: seq<Link>) returns (g: Graph)
    requires Within(tables, links)
    ensures Built(g, tables, links)
  {
    g := EmptyGraph(tables);
    var i := 0;
    while i < |links|
      invariant 0 <= i <= |links| && Built(g, tables, links[..i])
    {
      PrefixNext(links, i);
      g := AddLink(g, links[i], tables, links[..i]);
      i := i + 1;
    }
    assert links[..i] == links;
  }

  method AddLink(g0: Graph, e: Link, ghost tables: seq<string>, ghost links: seq<Link>) returns (g: Graph)
    requires Built(g0, tables, links) && e.child in tables && e.parent in tables
    ensures Built(g, tables, links + [e])
  {
    g := Graph(g0.inDegree[e.parent := g0.inDegree[e.parent] + 1], g0.adj[e.child := g0.adj[e.child] + [e.parent]]);
    forall t | t in tables
      ensures g.inDegree[t] == SumBy(Pending({}, t), links + [e])
    {
      SumByAppend(Pending({}, t), links, [e]);
      SumByOne(Pending({}, t), e);
    }
    forall c, p | c in tables
      ensures SumBy(Occurrences(p), g.adj[c]) == SumBy(Out(c, p), links + [e])
    {
      SumByAppend(Out(c, p), links, [e]);
      SumByOne(Out(c, p), e);
      SumByAppend(Occurrences(p), g0.adj[e.child], [e.parent]);
      SumByOne(Occurrences(p), e.parent);
    }
  }

  lemma {:induction false} PendingNotNegative(links: seq<Link>, seen: set<string>, t: string)
    ensures SumBy(Pending(seen, t), links) >= 0
  {
    if links != [] { PendingNotNegative(links[1..], seen, t); }
  }

  lemma {:induction false} NonePending(links: seq<Link>, seen: set<string>, child: string, parent: string)
    requires SumBy(Pending(seen, parent), links) == 0 && Joins(links, child, parent)
    ensures child in seen
  {
    PendingNotNegative(links[1..], seen, parent);
    if links[0] != Link(child, parent) {
      var i :| 0 <= i < |links| && links[i] == Link(child, parent);
      assert links[1..][i - 1] == Link(child, parent);
      NonePending(links[1..], seen, child, parent);
    }
  }

  lemma {:induction false} SomePending(links: seq<Link>, seen: set<string>, parent: string) returns (child: string)
    requires SumBy(Pending(seen, parent), links) > 0
    ensures Joins(links, child, parent) && child !in seen
  {
    if links[0].parent == parent && links[0].child !in seen {
      child := links[0].child;
      assert links[0] == Link(child, parent);
    } else {
      child := SomePending(links[1..], seen, parent);
      var i :| 0 <= i < |links[1..]| && links[1..][i] == Link(child, parent);
      assert links[i + 1] == Link(child, parent);
    }
  }

  /** Placing a table settles exactly its own keys. */
  lemma {:induction false} PlacedSettles(links: seq<Link>, seen: set<string>, t: string, parent: string)
    requires t !in seen
    ensures SumBy(Pending(seen, parent), links)
            == SumBy(Pending(seen + {t}, parent), links) + SumBy(Out(t, parent), links)
  {
    if links != [] { PlacedSettles(links[1..], seen, t, parent); }
  }

  // ---- The queue --------------------------------------------------------------------------

  /** Placed tables have all their children placed before them; every table with
      nothing pending is placed or queued. */
  datatype Kahn = Kahn(inDegree: map<string, int>, queue: seq<string>, order: seq<string>, seen: set<string>)

  ghost predicate Placed(order: seq<string>, seen: set<string>, tables: seq<string>, links: seq<Link>) {
    && Distinct(order)
    && (forall t :: t in order <==> t in seen)
    && (forall t :: t in seen ==> t in tables)
    && ChildrenFirst(order, links)
    && (forall c, p :: Joins(links, c, p) && p in seen ==> c in seen)
  }

  ghost predicate Queued(k: Kahn, tables: seq<string>, links: seq<Link>) {
    && (forall t :: t in tables <==> t in k.inDegree)
    && (forall t :: t in tables ==> k.inDegree[t] == SumBy(Pending(k.seen, t), links))
    && (forall i :: 0 <= i < |k.queue| ==> k.queue[i] in tables && k.inDegree[k.queue[i]] == 0)
    && (forall t :: t in tables && t !in k.seen && k.inDegree[t] == 0 ==> t in k.queue)
  }

  /** The next table has nothing pending, so it may be placed. */
  lemma {:induction false} PlaceNext(order: seq<string>, seen: set<string>, tables: seq<string>, links: seq<Link>,
                                     t: string)
    requires Placed(order, seen, tables, links) && t in tables && t !in seen
    requires SumBy(Pending(seen, t), links) == 0
    ensures Placed(order + [t], seen + {t}, tables, links)
  {
    forall c | Joins(links, c, t)
      ensures c in seen
    {
      NonePending(links, seen, c, t);
    }
    var more := order + [t];
    forall i, j | 0 <= i < |more| && 0 <= j < |more| && Joins(links, more[i], more[j])
      ensures i < j
    {
      if j < |order| { assert order[j] in order; }
      assert more[i] in seen;
    }
  }

  /** The decrements after placing t: what is left to subtract is in `rest`. */
  ghost predicate Settling(inDegree: map<string, int>, queue: seq<string>, seen: set<string>, rest: seq<string>,
                           tables: seq<string>, links: seq<Link>)
  {
    && (forall x :: x in tables <==> x in inDegree)
    && (forall x :: x in tables ==> inDegree[x] == SumBy(Pending(seen, x), links) + SumBy(Occurrences(x), rest))
    && (forall x :: x in queue ==> x in tables && inDegree[x] == 0)
    && (forall x :: x in tables && x !in seen && inDegree[x] == 0 ==> x in queue)
  }

  lemma {:induction false} OccursIn(rest: seq<string>, x: string)
    ensures SumBy(Occurrences(x), rest) >= 0
    ensures SumBy(Occurrences(x), rest) > 0 <==> x in rest
  {
    if rest != [] {
      OccursIn(rest[1..], x);
      assert rest == [rest[0]] + rest[1..];
    }
  }

  method SettleParents(k: Kahn, t: string, parents: seq<string>, ghost tables: seq<string>, ghost links: seq<Link>)
    returns (inDegree: map<string, int>, queue: seq<string>)
    requires Settling(k.inDegree, k.queue, k.seen, parents, tables, links)
    requires forall x :: x in parents ==> x in tables
    ensures Settling(inDegree, queue, k.seen, [], tables, links)
  {
    inDegree, queue := k.inDegree, k.queue;
    var i := 0;
    assert parents[0..] == parents;
    while i < |parents|
      invariant 0 <= i <= |parents|
      invariant Settling(inDegree, queue, k.seen, parents[i..], tables, links)
    {
      inDegree, queue := SettleParent(inDegree, queue, k.seen, parents[i], parents[i + 1..], tables, links);
      assert parents[i..] == [parents[i]] + parents[i + 1..];
      i := i + 1;
    }
  }

  method SettleParent(inDegree0: map<string, int>, queue0: seq<string>, seen: set<string>, parent: string,
                      ghost rest: seq<string>, ghost tables: seq<string>, ghost links: seq<Link>)
    returns (inDegree: map<string, int>, queue: seq<string>)
    requires Settling(inDegree0, queue0, seen, [parent] + rest, tables, links) && parent in tables
    ensures Settling(inDegree, queue, seen, rest, tables, links)
  {
    forall x
      ensures SumBy(Occurrences(x), [parent] + rest) == SumBy(Occurrences(x), rest) + if x == parent then 1 else 0
    {
      assert ([parent] + rest)[1..] == rest;
    }
    PendingNotNegative(links, seen, parent);
    OccursIn(rest, parent);
    inDegree := inDegree0[parent := inDegree0[parent] - 1];
    queue := queue0;
    if inDegree[parent] <= 0 && parent !in seen { queue := queue + [parent]; }
  }

  /** Works the queue off, one table at a time. */
  method WorkQueue(k0: Kahn, adj: map<string, seq<string>>, ghost tables: seq<string>, ghost links: seq<Link>)
    returns (k: Kahn)
    requires Queued(k0, tables, links) && Placed(k0.order, k0.seen, tables, links) && Within(tables, links)
    requires forall t :: t in tables <==> t in adj
    requires forall c, p :: c in tables ==> SumBy(Occurrences(p), adj[c]) == SumBy(Out(c, p), links)
    ensures Queued(k, tables, links) && Placed(k.order, k.seen, tables, links) && k.queue == []
  {
    k := k0;
    while |k.queue| > 0
      invariant Queued(k, tables, links) && Placed(k.order, k.seen, tables, links)
      decreases Elements(tables) - k.seen, |k.queue|
    {
      var t := k.queue[0];
      if t in k.seen {
        DropSeen(k, tables, links);
        k := k.(queue := k.queue[1..]);
      } else {
        ElementsAreMembers(tables);
        k := PlaceTable(k, adj[t], tables, links);
      }
    }
  }

  function Unplaced(seen: set<string>): string -> bool { (t: string) => t !in seen }

  /** Tables caught in a cycle go last, in their order of discovery. */
  method AppendRemaining(placed: seq<string>, seen: set<string>, tables: seq<string>) returns (order: seq<string>)
    ensures order == placed + Filter(Unplaced(seen), tables)
  {
    order := placed;
    var i := 0;
    while i < |tables|
      invariant 0 <= i <= |tables| && order == placed + Filter(Unplaced(seen), tables[..i])
    {
      PrefixNext(tables, i);
      FilterAppend(Unplaced(seen), tables[..i], tables[i]);
      if tables[i] !in seen { order := order + [tables[i]]; }
      i := i + 1;
    }
    assert tables[..i] == tables;
  }

  method TopologicalOrder(tables: seq<string>, links: seq<Link>) returns (order: seq<string>)
    requires Distinct(tables) && Within(tables, links)
    ensures KahnOrder(order, tables, links)
  {
    var g := BuildGraph(tables, links);
    var k := StartKahn(g, tables, links);
    k := WorkQueue(k, g.adj, tables, links);
    order := AppendRemaining(k.order, k.seen, tables);
    OrderIsRight(k, order, tables, links);
  }

  method StartKahn(g: Graph, tables: seq<string>, ghost links: seq<Link>) returns (k: Kahn)
    requires Built(g, tables, links) && Within(tables, links)
    ensures Queued(k, tables, links) && Placed(k.order, k.seen, tables, links)
  {
    var queue := Filter(t => t in g.inDegree && g.inDegree[t] == 0, tables);
    k := Kahn(g.inDegree, queue, [], {});
    forall i | 0 <= i < |queue|
      ensures queue[i] in tables && g.inDegree[queue[i]] == 0
    {
      assert queue[i] in queue;
    }
  }

  lemma {:induction false} DropSeen(k: Kahn, tables: seq<string>, links: seq<Link>)
    requires Queued(k, tables, links) && k.queue != [] && k.queue[0] in k.seen
    ensures Queued(k.(queue := k.queue[1..]), tables, links)
  {
    assert k.queue == [k.queue[0]] + k.queue[1..];
  }

  method PlaceTable(k0: Kahn, parents: seq<string>, ghost tables: seq<string>, ghost links: seq<Link>) returns (k: Kahn)
    requires Queued(k0, tables, links) && Placed(k0.order, k0.seen, tables, links) && Within(tables, links)
    requires k0.queue != [] && k0.queue[0] !in k0.seen
    requires forall p :: SumBy(Occurrences(p), parents) == SumBy(Out(k0.queue[0], p), links)
    ensures Queued(k, tables, links) && Placed(k.order, k.seen, tables, links)
    ensures k.seen == k0.seen + {k0.queue[0]}
  {
    var t := k0.queue[0];
    PlaceNext(k0.order, k0.seen, tables, links, t);
    k := Kahn(k0.inDegree, k0.queue[1..], k0.order + [t], k0.seen + {t});
    StartSettling(k0, parents, tables, links);
    var inDegree, queue := SettleParents(k, t, parents, tables, links);
    k := Kahn(inDegree, queue, k.order, k.seen);
    SettledIsQueued(k, tables, links);
  }

  lemma {:induction false} SettledIsQueued(k: Kahn, tables: seq<string>, links: seq<Link>)
    requires Settling(k.inDegree, k.queue, k.seen, [], tables, links)
    ensures Queued(k, tables, links)
  {
    assert forall i :: 0 <= i < |k.queue| ==> k.queue[i] in k.queue;
  }

  lemma {:induction false} StartSettling(k: Kahn, parents: seq<string>, tables: seq<string>, links: seq<Link>)
    requires Queued(k, tables, links) && Within(tables, links) && k.queue != [] && k.queue[0] !in k.seen
    requires forall p :: SumBy(Occurrences(p), parents) == SumBy(Out(k.queue[0], p), links)
    ensures Settling(k.inDegree, k.queue[1..], k.seen + {k.queue[0]}, parents, tables, links)
    ensures forall x :: x in parents ==> x in tables
  {
    var t := k.queue[0];
    assert k.queue == [t] + k.queue[1..];
    forall x
      ensures SumBy(Pending(k.seen, x), links)
              == SumBy(Pending(k.seen + {t}, x), links) + SumBy(Occurrences(x), parents)
    {
      PlacedSettles(links, k.seen, t, x);
    }
    forall x | x in parents
      ensures x in tables
    {
      OccursIn(parents, x);
      OutWithin(tables, links, t, x);
    }
  }

  lemma {:induction false} OutWithin(tables: seq<string>, links: seq<Link>, t: string, x: string)
    requires Within(tables, links) && SumBy(Out(t, x), links) > 0
    ensures x in tables
  {
    if !(links[0].child == t && links[0].parent == x) { OutWithin(tables, links[1..], t, x); }
  }

  // ---- What the queue can place ------------------------------------------------------------

  lemma {:induction false} WalksClimb(order: seq<string>, links: seq<Link>, walk: seq<string>, n: nat, i: nat, j: nat)
    requires ChildrenFirst(order, links) && Upward(links, walk) && 0 < n < |walk|
    requires forall t :: t in walk ==> t in order
    requires i < |order| && j < |order| && order[i] == walk[0] && order[j] == walk[n]
    ensures i < j
    decreases n
  {
    assert Climbs(links, walk, n - 1);
    assert walk[n - 1] in walk;
    var m :| 0 <= m < |order| && order[m] == walk[n - 1];
    if n > 1 { WalksClimb(order, links, walk, n - 1, i, m); }
  }

  /** Whatever a walk into a set closed under children meets is in the set. */
  lemma {:induction false} WalkStaysBelow(placed: seq<string>, links: seq<Link>, walk: seq<string>, n: nat)
    requires forall c, p :: p in placed && Joins(links, c, p) ==> c in placed
    requires Upward(links, walk) && n < |walk| && walk[|walk| - 1] in placed
    ensures walk[n] in placed
    decreases |walk| - n
  {
    if n < |walk| - 1 {
      WalkStaysBelow(placed, links, walk, n + 1);
      assert Climbs(links, walk, n);
    }
  }

  /** Tables that stand after all their children are over no cycle. */
  lemma {:induction false} PlacedIsFree(placed: seq<string>, links: seq<Link>, t: string)
    requires ChildrenFirst(placed, links) && forall c, p :: p in placed && Joins(links, c, p) ==> c in placed
    requires t in placed
    ensures !OverCycle(links, t)
  {
    if OverCycle(links, t) {
      var walk: seq<string>, j: nat :| IsLasso(links, walk, j, t);
      forall x | x in walk
        ensures x in placed
      {
        var n :| 0 <= n < |walk| && walk[n] == x;
        WalkStaysBelow(placed, links, walk, n);
      }
      assert walk[0] in walk;
      var i :| 0 <= i < |placed| && placed[i] == walk[0];
      WalksClimb(placed, links, walk, j, i, i);
    }
  }

  ghost predicate Waits(stuck: set<string>, links: seq<Link>, parent: string) {
    exists child :: child in stuck && Joins(links, child, parent)
  }

  ghost predicate AllWait(stuck: set<string>, links: seq<Link>) {
    forall parent {:trigger Waits(stuck, links, parent)} :: parent in stuck ==> Waits(stuck, links, parent)
  }

  /** Where every table still waits for a child, walking down from one never ends. */
  lemma {:induction false} LongWalk(stuck: set<string>, links: seq<Link>, t: string, n: nat) returns (walk: seq<string>)
    requires t in stuck && AllWait(stuck, links)
    ensures |walk| == n + 1 && Upward(links, walk) && walk[n] == t && forall x :: x in walk ==> x in stuck
  {
    if n == 0 {
      walk := [t];
    } else {
      var rest := LongWalk(stuck, links, t, n - 1);
      assert rest[0] in rest && Waits(stuck, links, rest[0]);
      var c :| c in stuck && Joins(links, c, rest[0]);
      walk := [c] + rest;
      forall i | 0 <= i < |walk| - 1
        ensures Climbs(links, walk, i)
      {
        if i > 0 { assert Climbs(links, rest, i - 1); }
      }
    }
  }

  /** A walk longer than its set of tables meets one of them twice. */
  lemma {:induction false} WalkRepeats(stuck: set<string>, walk: seq<string>) returns (i: nat, j: nat)
    requires |walk| > |stuck| && forall t :: t in walk ==> t in stuck
    ensures i < j < |walk| && walk[i] == walk[j]
  {
    ElementsAreMembers(walk);
    assert Elements(walk) <= stuck;
    assert stuck == Elements(walk) + (stuck - Elements(walk));
    assert |Elements(walk)| <= |stuck|;
    if Distinct(walk) { DistinctSize(walk); }
    i, j :| 0 <= i < j < |walk| && walk[i] == walk[j];
  }

  /** Where every table still waits for a child, each is over a cycle. */
  lemma {:induction false} StuckIsOverCycle(stuck: set<string>, links: seq<Link>, t: string)
    requires t in stuck && AllWait(stuck, links)
    ensures OverCycle(links, t)
  {
    var walk := LongWalk(stuck, links, t, |stuck|);
    var i, j := WalkRepeats(stuck, walk);
    var lasso := walk[i..];
    forall m | 0 <= m < |lasso| - 1
      ensures Climbs(links, lasso, m)
    {
      assert Climbs(links, walk, i + m);
    }
    assert IsLasso(links, lasso, j - i, t);
  }

  /** With the queue empty, a table is left out if and only if it is over a cycle. */
  lemma {:induction false} PlacedIff(k: Kahn, tables: seq<string>, links: seq<Link>, t: string)
    requires Within(tables, links) && Queued(k, tables, links) && Placed(k.order, k.seen, tables, links)
             && k.queue == []
    requires t in tables
    ensures t in k.seen <==> !OverCycle(links, t)
  {
    if t in k.seen {
      PlacedIsFree(k.order, links, t);
    } else {
      var stuck := set x | x in tables && x !in k.seen;
      forall p | p in stuck
        ensures Waits(stuck, links, p)
      {
        PendingNotNegative(links, k.seen, p);
        var c := SomePending(links, k.seen, p);
        var i :| 0 <= i < |links| && links[i] == Link(c, p);
        assert c in stuck;
      }
      StuckIsOverCycle(stuck, links, t);
    }
  }

  lemma {:induction false} OrderIsRight(k: Kahn, order: seq<string>, tables: seq<string>, links: seq<Link>)
    requires Distinct(tables) && Within(tables, links) && Queued(k, tables, links) && k.queue == []
    requires Placed(k.order, k.seen, tables, links) && order == k.order + Filter(Unplaced(k.seen), tables)
    ensures KahnOrder(order, tables, links)
  {
    forall t | t in tables
      ensures Unplaced(k.seen)(t) == Caught(links)(t)
    {
      PlacedIff(k, tables, links, t);
    }
    FilterSame(Unplaced(k.seen), Caught(links), tables);
    FilterDistinct(Caught(links), tables);
    AppendDistinct(k.order, Held(tables, links));
    forall t | t in k.order
      ensures !OverCycle(links, t)
    {
      PlacedIff(k, tables, links, t);
    }
    assert Settled(k.order, links);
  }

  // ---- When the order is safe -------------------------------------------------------------------

  /** The order is safe if and only if the tables held up happen to be discovered
      children first. */
  lemma {:induction false} SafeIff(order: seq<string>, tables: seq<string>, links: seq<Link>)
    requires KahnOrder(order, tables, links)
    ensures Safe(order, links) <==> Safe(Held(tables, links), links)
  {
    var held := Held(tables, links);
    var placed :| order == placed + held && ChildrenFirst(placed, links) && Settled(placed, links);
    var n := |placed|;
    if Safe(order, links) {
      forall i, j | 0 <= i < |held| && 0 <= j < |held| && i != j && Joins(links, held[i], held[j])
        ensures i < j
      {
        assert order[n + i] == held[i] && order[n + j] == held[j];
      }
    }
    if Safe(held, links) {
      forall i, j | 0 <= i < |order| && 0 <= j < |order| && i != j && Joins(links, order[i], order[j])
        ensures i < j
      {
        if j < n {
          assert order[j] in placed && order[i] in placed;
          var m :| 0 <= m < n && placed[m] == order[i];
          assert order[m] == order[i];
        } else if i >= n {
          assert order[i] == held[i - n] && order[j] == held[j - n];
        }
      }
    }
  }

  lemma {:induction false} FilterKeepsOrder(p: string -> bool, s: seq<string>, i: nat, j: nat) returns (m: nat, n: nat)
    requires i < j < |s| && p(s[i]) && p(s[j])
    ensures m < n < |Filter(p, s)| && Filter(p, s)[m] == s[i] && Filter(p, s)[n] == s[j]
  {
    if i > 0 {
      m, n := FilterKeepsOrder(p, s[1..], i - 1, j - 1);
      if p(s[0]) { m, n := m + 1, n + 1; }
    } else {
      assert s[j] == s[1..][j - 1] && s[j] in Filter(p, s[1..]);
      n :| 0 <= n < |Filter(p, s[1..])| && Filter(p, s[1..])[n] == s[j];
      m, n := 0, n + 1;
    }
  }

  /** What is over a cycle passes it on to the tables it points at. */
  lemma {:induction false} OverCycleClimbs(links: seq<Link>, child: string, parent: string)
    requires OverCycle(links, child) && Joins(links, child, parent)
    ensures OverCycle(links, parent)
  {
    var walk: seq<string>, j: nat :| IsLasso(links, walk, j, child);
    var longer := walk + [parent];
    forall i | 0 <= i < |longer| - 1
      ensures Climbs(links, longer, i)
    {
      if i < |walk| - 1 { assert Climbs(links, walk, i); }
    }
    assert IsLasso(links, longer, j, parent);
  }

  /** A key of a table into itself does not stop the table's own deletion, but it
      holds the table up: a table it points at that is discovered before it is
      deleted before it. */
  lemma {:induction false} SelfKeyHoldsUp(order: seq<string>, tables: seq<string>, links: seq<Link>, i: nat, j: nat)
    requires KahnOrder(order, tables, links) && Distinct(tables) && i < j < |tables|
    requires Joins(links, tables[j], tables[j]) && Joins(links, tables[j], tables[i])
    ensures !Safe(order, links)
  {
    var t, p := tables[j], tables[i];
    assert IsLasso(links, [t, t], 1, t) by { assert Climbs(links, [t, t], 0); }
    OverCycleClimbs(links, t, p);
    var m, n := FilterKeepsOrder(Caught(links), tables, i, j);
    SafeIff(order, tables, links);
  }

  // ---- The plan --------------------------------------------------------------------------------

  /** The foreign keys between included tables, parent by parent. */
  method IncludedLinks(keys: seq<ForeignKey>, tables: seq<string>) returns (links: seq<Link>)
    ensures Within(tables, links)
    ensures LinksAreKeys(keys, tables, links)
  {
    links := [];
    var i := 0;
    while i < |tables|
      invariant 0 <= i <= |tables|
      invariant Within(tables, links)
      invariant forall c, p :: Joins(links, c, p) <==> c in tables && p in tables[..i] && Edge(keys, p, c)
    {
      ghost var before := links;
      links := LinksInto(keys, tables, tables[i], links);
      assert tables[..i + 1] == tables[..i] + [tables[i]];
      i := i + 1;
    }
    assert tables[..i] == tables;
  }

  method LinksInto(keys: seq<ForeignKey>, tables: seq<string>, parent: string,
                   links0: seq<Link>) returns (links: seq<Link>)
    requires parent in tables && Within(tables, links0)
    ensures Within(tables, links)
    ensures forall c, p :: Joins(links, c, p)
                           <==> Joins(links0, c, p) || (p == parent && c in tables && Edge(keys, p, c))
  {
    links := links0;
    var kids := KidsOf(keys, parent);
    var i := 0;
    while i < |kids|
      invariant 0 <= i <= |kids|
      invariant Within(tables, links)
      invariant forall c, p :: Joins(links, c, p) <==>
                  Joins(links0, c, p) || (p == parent && c in tables && exists j :: 0 <= j < i && kids[j].child == c)
    {
      if kids[i].child in tables {
        JoinsAppended(links, Link(kids[i].child, parent));
        links := links + [Link(kids[i].child, parent)];
      }
      i := i + 1;
    }
    forall c
      ensures Edge(keys, parent, c) <==> exists j :: 0 <= j < |kids| && kids[j].child == c
    {
      if Edge(keys, parent, c) {
        var fk :| fk in keys && fk.parent == parent && fk.child == c;
        assert fk in kids;
      }
      if exists j :: 0 <= j < |kids| && kids[j].child == c {
        var j :| 0 <= j < |kids| && kids[j].child == c;
        assert kids[j] in kids;
      }
    }
  }

  lemma {:induction false} JoinsAppended(links: seq<Link>, e: Link)
    ensures forall c, p :: Joins(links + [e], c, p) <==> Joins(links, c, p) || e == Link(c, p)
  {
    forall c, p
      ensures Joins(links + [e], c, p) <==> Joins(links, c, p) || e == Link(c, p)
    {
      if Joins(links, c, p) {
        var i :| 0 <= i < |links| && links[i] == Link(c, p);
        assert (links + [e])[i] == Link(c, p);
      }
      assert (links + [e])[|links|] == e;
    }
  }

  /** A foreign key between two tables that are both wiped. */
  ghost predicate WipedEdge(keys: seq<ForeignKey>, roots: seq<string>, child: string, parent: string) {
    Reachable(keys, roots, child) && Reachable(keys, roots, parent) && Edge(keys, parent, child)
  }

  /** A walk from child to parent among the tables that are wiped. */
  ghost predicate KeyWalk(keys: seq<ForeignKey>, roots: seq<string>, walk: seq<string>) {
    forall i :: 0 <= i < |walk| - 1 ==> KeyClimbs(keys, roots, walk, i)
  }

  ghost predicate KeyClimbs(keys: seq<ForeignKey>, roots: seq<string>, walk: seq<string>, i: nat)
    requires i < |walk| - 1
  {
    WipedEdge(keys, roots, walk[i], walk[i + 1])
  }

  ghost predicate IsKeyLasso(keys: seq<ForeignKey>, roots: seq<string>, walk: seq<string>, j: nat, t: string) {
    0 < j < |walk| && KeyWalk(keys, roots, walk) && walk[0] == walk[j] && walk[|walk| - 1] == t
  }

  /** A cycle of foreign keys can be reached from the table, from parent to child. */
  ghost predicate OverKeyCycle(keys: seq<ForeignKey>, roots: seq<string>, t: string) {
    exists walk: seq<string>, j: nat :: IsKeyLasso(keys, roots, walk, j, t)
  }

  ghost function KeyCaught(keys: seq<ForeignKey>, roots: seq<string>): string -> bool {
    (t: string) => OverKeyCycle(keys, roots, t)
  }

  /** The wiped tables over a cycle, in the order the search discovers them. */
  ghost function HeldTables(keys: seq<ForeignKey>, roots: seq<string>): seq<string> {
    Filter(KeyCaught(keys, roots), DiscoveryOrder(keys, roots))
  }

  /** Every child stands before each other table it points at. */
  ghost predicate SafeOrder(keys: seq<ForeignKey>, order: seq<string>) {
    forall i, j :: 0 <= i < |order| && 0 <= j < |order| && i != j && Edge(keys, order[j], order[i]) ==> i < j
  }

  /** The table is over no cycle, and stands after all its children. */
  ghost predicate AfterChildren(keys: seq<ForeignKey>, roots: seq<string>, placed: seq<string>, i: nat)
    requires i < |placed|
  {
    !OverKeyCycle(keys, roots, placed[i]) && forall c :: WipedEdge(keys, roots, c, placed[i]) ==> c in placed[..i]
  }

  /** The plan: each reachable table once; first the tables over no cycle, each
      after all its children, then the others in order of discovery. */
  ghost predicate IsPlan(keys: seq<ForeignKey>, roots: seq<string>, order: seq<string>) {
    && Distinct(order) && (forall t :: t in order <==> Reachable(keys, roots, t))
    && exists placed ::
         && order == placed + HeldTables(keys, roots)
         && forall i :: 0 <= i < |placed| ==> AfterChildren(keys, roots, placed, i)
  }

  /** The deletion order. It puts children first if and only if the tables over a
      cycle are discovered children first. */
  method PlanDeletion(keys: seq<ForeignKey>, roots: seq<string>) returns (order: seq<string>)
    ensures IsPlan(keys, roots, order)
    ensures SafeOrder(keys, order) <==> SafeOrder(keys, HeldTables(keys, roots))
  {
    var tables, conditions := SearchTables(keys, roots);
    var links := IncludedLinks(keys, tables);
    order := TopologicalOrder(tables, links);
    SameHeld(keys, roots, tables, links);
    SafeIff(order, tables, links);
    SameOrders(keys, order, tables, links);
    SameOrders(keys, Held(tables, links), tables, links);
    OrderIsPlan(keys, roots, order, tables, links);
  }

  /** The links are the foreign keys between the given tables. */
  ghost predicate LinksAreKeys(keys: seq<ForeignKey>, tables: seq<string>, links: seq<Link>) {
    forall c, p :: Joins(links, c, p) <==> c in tables && p in tables && Edge(keys, p, c)
  }

  lemma {:induction false} SameOrders(keys: seq<ForeignKey>, order: seq<string>, tables: seq<string>, links: seq<Link>)
    requires LinksAreKeys(keys, tables, links) && forall t :: t in order ==> t in tables
    ensures Safe(order, links) <==> SafeOrder(keys, order)
  {
    forall i, j | 0 <= i < |order| && 0 <= j < |order|
      ensures Joins(links, order[i], order[j]) <==> Edge(keys, order[j], order[i])
    {
      assert order[i] in order && order[j] in order;
    }
  }

  lemma {:induction false} SameWalks(keys: seq<ForeignKey>, roots: seq<string>, tables: seq<string>, links: seq<Link>,
                                     walk: seq<string>)
    requires LinksAreKeys(keys, tables, links) && forall t :: t in tables <==> Reachable(keys, roots, t)
    ensures Upward(links, walk) <==> KeyWalk(keys, roots, walk)
  {
    forall i | 0 <= i < |walk| - 1
      ensures Climbs(links, walk, i) <==> KeyClimbs(keys, roots, walk, i)
    {
    }
  }

  lemma {:induction false} SameCaught(keys: seq<ForeignKey>, roots: seq<string>, tables: seq<string>, links: seq<Link>,
                                      t: string)
    requires LinksAreKeys(keys, tables, links) && forall x :: x in tables <==> Reachable(keys, roots, x)
    ensures OverCycle(links, t) <==> OverKeyCycle(keys, roots, t)
  {
    if OverCycle(links, t) {
      var walk: seq<string>, j: nat :| IsLasso(links, walk, j, t);
      SameWalks(keys, roots, tables, links, walk);
      assert IsKeyLasso(keys, roots, walk, j, t);
    }
    if OverKeyCycle(keys, roots, t) {
      var walk: seq<string>, j: nat :| IsKeyLasso(keys, roots, walk, j, t);
      SameWalks(keys, roots, tables, links, walk);
      assert IsLasso(links, walk, j, t);
    }
  }

  lemma {:induction false} SameHeld(keys: seq<ForeignKey>, roots: seq<string>, tables: seq<string>, links: seq<Link>)
    requires LinksAreKeys(keys, tables, links) && forall t :: t in tables <==> Reachable(keys, roots, t)
    requires tables == DiscoveryOrder(keys, roots)
    ensures Held(tables, links) == HeldTables(keys, roots)
  {
    forall t | t in tables
      ensures Caught(links)(t) == KeyCaught(keys, roots)(t)
    {
      SameCaught(keys, roots, tables, links, t);
    }
    FilterSame(Caught(links), KeyCaught(keys, roots), tables);
  }

  lemma {:induction false} OrderIsPlan(keys: seq<ForeignKey>, roots: seq<string>, order: seq<string>,
                                       tables: seq<string>, links: seq<Link>)
    requires LinksAreKeys(keys, tables, links) && forall t :: t in tables <==> Reachable(keys, roots, t)
    requires KahnOrder(order, tables, links) && Held(tables, links) == HeldTables(keys, roots)
    ensures IsPlan(keys, roots, order)
  {
    var placed :| order == placed + Held(tables, links) && ChildrenFirst(placed, links) && Settled(placed, links);
    forall i | 0 <= i < |placed|
      ensures AfterChildren(keys, roots, placed, i)
    {
      PlacedAfterChildren(keys, roots, placed, i, tables, links);
    }
  }

  lemma {:induction false} PlacedAfterChildren(keys: seq<ForeignKey>, roots: seq<string>, placed: seq<string>, i: nat,
                                               tables: seq<string>, links: seq<Link>)
    requires LinksAreKeys(keys, tables, links) && forall t :: t in tables <==> Reachable(keys, roots, t)
    requires ChildrenFirst(placed, links) && Settled(placed, links) && i < |placed|
    ensures AfterChildren(keys, roots, placed, i)
  {
    SameCaught(keys, roots, tables, links, placed[i]);
    forall c | WipedEdge(keys, roots, c, placed[i])
      ensures c in placed[..i]
    {
      assert Joins(links, c, placed[i]) && placed[i] in placed;
      var m :| 0 <= m < |placed| && placed[m] == c;
      assert placed[..i][m] == c;
    }
  }

  // ---- Cycles of the schema -----------------------------------------------------------------------

  ghost predicate IsKeyCycle(keys: seq<ForeignKey>, roots: seq<string>, walk: seq<string>) {
    |walk| >= 2 && KeyWalk(keys, roots, walk) && walk[0] == walk[|walk| - 1]
  }

  /** Without a cycle nothing is held up, and the plan is safe. */
  lemma {:induction false} AcyclicIsSafe(keys: seq<ForeignKey>, roots: seq<string>)
    requires forall walk: seq<string> :: !IsKeyCycle(keys, roots, walk)
    ensures HeldTables(keys, roots) == [] && SafeOrder(keys, HeldTables(keys, roots))
  {
    var held := HeldTables(keys, roots);
    if held != [] {
      assert held[0] in held && KeyCaught(keys, roots)(held[0]);
      var walk: seq<string>, j: nat :| IsKeyLasso(keys, roots, walk, j, held[0]);
      var cycle := walk[..j + 1];
      forall i | 0 <= i < |cycle| - 1
        ensures KeyClimbs(keys, roots, cycle, i)
      {
        assert KeyClimbs(keys, roots, walk, i);
      }
      assert IsKeyCycle(keys, roots, cycle);
    }
  }

  lemma {:induction false} SafeClimbs(keys: seq<ForeignKey>, roots: seq<string>, order: seq<string>,
                                      walk: seq<string>, n: nat, i: nat, j: nat)
    requires Distinct(order) && forall t :: t in order <==> Reachable(keys, roots, t)
    requires SafeOrder(keys, order) && KeyWalk(keys, roots, walk) && 0 < n < |walk|
    requires i < |order| && j < |order| && order[i] == walk[0] && order[j] == walk[n]
    ensures i < j || (i == j && forall m :: 0 <= m <= n ==> walk[m] == walk[0])
    decreases n
  {
    assert KeyClimbs(keys, roots, walk, n - 1);
    assert walk[n - 1] in order;
    var m :| 0 <= m < |order| && order[m] == walk[n - 1];
    if n > 1 { SafeClimbs(keys, roots, order, walk, n - 1, i, m); }
  }

  /** Any safe order shows that every cycle of the schema stays at one table. */
  lemma {:induction false} SafeHasOnlySelfKeys(keys: seq<ForeignKey>, roots: seq<string>, order: seq<string>,
                                               walk: seq<string>)
    requires Distinct(order) && forall t :: t in order <==> Reachable(keys, roots, t)
    requires SafeOrder(keys, order) && IsKeyCycle(keys, roots, walk)
    ensures forall m :: 0 <= m < |walk| ==> walk[m] == walk[0]
  {
    assert KeyClimbs(keys, roots, walk, 0);
    assert walk[0] in order;
    var i :| 0 <= i < |order| && order[i] == walk[0];
    SafeClimbs(keys, roots, order, walk, |walk| - 1, i, i);
  }
}
