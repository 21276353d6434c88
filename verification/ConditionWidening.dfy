/** Which row conditions of the table search hold all that their parent tables are deleted by. */
module ConditionWidening {
  import opened Standard
  import opened TableGraph
  import opened SearchSteps
  import opened TableSearch

  /** The child's rows along the key are taken by all the parent is deleted by. */
  ghost predicate UpToDate(conditions: map<string, seq<Condition>>, fk: ForeignKey) {
    && fk.parent in conditions && fk.child in conditions
    && exists c :: && c in conditions[fk.child] && c.PointsInto? && c.parent == fk.parent && c.col == fk.col
                   && c.parentConditions == conditions[fk.parent]
  }

  /** Every key into the table comes from one discovered strictly before it. */
  ghost predicate ParentsFirst(keys: seq<ForeignKey>, tables: seq<string>, t: string) {
    forall fk :: fk in keys && fk.child == t && fk.parent in tables ==> IndexOf(tables, fk.parent) < IndexOf(tables, t)
  }

  lemma {:induction false} ConditionAlong(keys: seq<ForeignKey>, roots: seq<string>,
                                          tables: seq<string>, conditions: map<string, seq<Condition>>, fk: ForeignKey)
    returns (c: Condition)
    requires SearchResult(keys, roots, tables, conditions)
    requires fk in keys && fk.parent in tables && fk.child !in roots
    ensures fk.child in tables && c in conditions[fk.child]
    ensures c.PointsInto? && c.parent == fk.parent && c.col == fk.col
    ensures c.parentConditions == Snapshot(tables, conditions, fk.parent)
  {
    assert Covers(conditions[fk.child], KeyOf(fk));
    c :| c in conditions[fk.child] && c.PointsInto? && c.parent == fk.parent && c.col == fk.col;
    assert Explained(keys, tables, conditions, fk.child, c);
  }

  /** What the search knew of a table when it was reached is all there is if and
      only if the table's parents were discovered before it. */
  lemma {:induction false} WholeSnapshotIff(keys: seq<ForeignKey>, roots: seq<string>,
                                            tables: seq<string>, conditions: map<string, seq<Condition>>, t: string)
    requires SearchResult(keys, roots, tables, conditions) && t in tables
    ensures Snapshot(tables, conditions, t) == conditions[t] <==> t in roots || ParentsFirst(keys, tables, t)
  {
    var earlier := FromEarlier(tables, t);
    FilterAllIff(earlier, conditions[t]);
    if t !in roots {
      if ParentsFirst(keys, tables, t) {
        forall c | c in conditions[t]
          ensures earlier(c)
        {
          assert Explained(keys, tables, conditions, t, c);
        }
      }
      if forall c :: c in conditions[t] ==> earlier(c) {
        forall fk | fk in keys && fk.child == t && fk.parent in tables
          ensures IndexOf(tables, fk.parent) < IndexOf(tables, t)
        {
          var c := ConditionAlong(keys, roots, tables, conditions, fk);
          assert earlier(c);
        }
      }
    }
  }

  lemma {:induction false} UpToDateIff(keys: seq<ForeignKey>, roots: seq<string>,
                                       tables: seq<string>, conditions: map<string, seq<Condition>>, fk: ForeignKey)
    requires SearchResult(keys, roots, tables, conditions)
    requires fk in keys && fk.parent in tables && fk.child !in roots
    ensures UpToDate(conditions, fk) <==> fk.parent in roots || ParentsFirst(keys, tables, fk.parent)
  {
    WholeSnapshotIff(keys, roots, tables, conditions, fk.parent);
    var c := ConditionAlong(keys, roots, tables, conditions, fk);
  }

  /** A table whose conditions grow after it was reached is queued again, but its
      keys are not followed again. So the conditions of all children are up to date
      if and only if every table with children, other than a root, was discovered
      after all of its own parents. A key of such a table into itself is a failure. */
  lemma {:induction false} ConditionsWidenedIff(keys: seq<ForeignKey>, roots: seq<string>,
                                                tables: seq<string>, conditions: map<string, seq<Condition>>)
    requires SearchResult(keys, roots, tables, conditions)
    ensures (forall fk :: fk in keys && fk.parent in tables && fk.child !in roots ==> UpToDate(conditions, fk))
            <==> (forall fk :: fk in keys && fk.parent in tables && fk.child !in roots ==>
                    fk.parent in roots || ParentsFirst(keys, tables, fk.parent))
  {
    forall fk | fk in keys && fk.parent in tables && fk.child !in roots
      ensures UpToDate(conditions, fk) <==> fk.parent in roots || ParentsFirst(keys, tables, fk.parent)
    {
      UpToDateIff(keys, roots, tables, conditions, fk);
    }
  }

  /** No row is taken for pointing at the table's rows. */
  ghost predicate NoneThrough(conditions: seq<Condition>, t: string) {
    forall d :: d in conditions && d.PointsInto? ==> d.parent != t
  }

  /** A parent that is discovered no earlier than its child: the child's rows are
      deleted along that key, but the rows that point at them are not. */
  lemma {:induction false} LateParentIsMissed(keys: seq<ForeignKey>, roots: seq<string>, tables: seq<string>,
                                              conditions: map<string, seq<Condition>>, late: ForeignKey,
                                              fk: ForeignKey)
    requires SearchResult(keys, roots, tables, conditions) && late in keys && late.parent in tables && fk in keys
    requires fk.parent == late.child && fk.parent !in roots && fk.child !in roots
    requires IndexOf(tables, late.parent) >= IndexOf(tables, late.child)
    ensures late.child in conditions && Covers(conditions[late.child], KeyOf(late))
    ensures fk.child in conditions && !UpToDate(conditions, fk)
    ensures forall c :: c in conditions[fk.child] && c.PointsInto? && c.parent == fk.parent
                        ==> NoneThrough(c.parentConditions, late.parent)
  {
    assert KeysCovered(keys, roots, conditions);
    UpToDateIff(keys, roots, tables, conditions, fk);
    forall c | c in conditions[fk.child] && c.PointsInto? && c.parent == fk.parent
      ensures NoneThrough(c.parentConditions, late.parent)
    {
      assert Explained(keys, tables, conditions, fk.child, c);
      assert forall d :: d in c.parentConditions ==> FromEarlier(tables, fk.parent)(d);
    }
  }

  // ---- A table whose conditions grow too late -----------------------------------------------------

  /** Tables a and b hang off r; a also hangs off b, and c off a. */
  datatype Late = Late(r: string, a: string, b: string, c: string) {
    predicate Four() { r != a && r != b && r != c && a != b && a != c && b != c }

    function Key(child: string, parent: string): ForeignKey { ForeignKey(child, "ref", "id", parent) }

    function Keys(): seq<ForeignKey> { [Key(a, r), Key(b, r), Key(a, b), Key(c, a)] }
  }

  lemma {:induction false} FilterStep(p: ForeignKey -> bool, s: seq<ForeignKey>, x: ForeignKey)
    ensures Filter(p, [x] + s) == (if p(x) then [x] else []) + Filter(p, s)
  {
    assert ([x] + s)[1..] == s;
  }

  lemma {:induction false} LateKids(l: Late, t: string)
    requires l.Four()
    ensures KidsOf(l.Keys(), t) == if t == l.r then [l.Key(l.a, l.r), l.Key(l.b, l.r)]
                                   else if t == l.b then [l.Key(l.a, l.b)]
                                   else if t == l.a then [l.Key(l.c, l.a)]
                                   else []
  {
    var p := PointsAt(t);
    var k3, k2, k1 := [l.Key(l.c, l.a)], [l.Key(l.a, l.b), l.Key(l.c, l.a)],
                      [l.Key(l.b, l.r), l.Key(l.a, l.b), l.Key(l.c, l.a)];
    assert k3 == [l.Key(l.c, l.a)] + [] && k2 == [l.Key(l.a, l.b)] + k3;
    assert k1 == [l.Key(l.b, l.r)] + k2 && l.Keys() == [l.Key(l.a, l.r)] + k1;
    FilterStep(p, [], l.Key(l.c, l.a));
    FilterStep(p, k3, l.Key(l.a, l.b));
    FilterStep(p, k2, l.Key(l.b, l.r));
    FilterStep(p, k1, l.Key(l.a, l.r));
  }

  lemma {:induction false} DiscoverOne(fk: ForeignKey, tables: seq<string>)
    ensures Discovering([fk], tables) == if fk.child in tables then tables else tables + [fk.child]
  {
    assert [fk][..0] == [];
  }

  lemma {:induction false} DiscoverTwo(fk: ForeignKey, gk: ForeignKey, tables: seq<string>)
    ensures Discovering([fk, gk], tables) == Discovering([gk], Discovering([fk], tables))
  {
    assert [fk, gk][..1] == [fk];
    DiscoverOne(gk, Discovering([fk], tables));
  }

  lemma {:induction false} LateUniverse(l: Late)
    requires l.Four()
    ensures |Universe(l.Keys(), [l.r])| == 4
  {
    var keys := l.Keys();
    assert Universe(keys, [l.r]) == {l.r, l.a, l.b, l.c} by {
      assert keys[0] in keys && keys[1] in keys && keys[3] in keys;
    }
  }

  lemma {:induction false} LateTurns(l: Late)
    requires l.Four()
    ensures Discovering(KidsOf(l.Keys(), l.r), [l.r]) == [l.r, l.a, l.b]
    ensures Discovering(KidsOf(l.Keys(), l.a), [l.r, l.a, l.b]) == [l.r, l.a, l.b, l.c]
    ensures Discovering(KidsOf(l.Keys(), l.b), [l.r, l.a, l.b, l.c]) == [l.r, l.a, l.b, l.c]
    ensures Discovering(KidsOf(l.Keys(), l.c), [l.r, l.a, l.b, l.c]) == [l.r, l.a, l.b, l.c]
  {
    assert Discovering(KidsOf(l.Keys(), l.r), [l.r]) == [l.r, l.a, l.b] by {
      LateKids(l, l.r);
      DiscoverTwo(l.Key(l.a, l.r), l.Key(l.b, l.r), [l.r]);
      DiscoverOne(l.Key(l.a, l.r), [l.r]);
      DiscoverOne(l.Key(l.b, l.r), [l.r, l.a]);
    }
    assert Discovering(KidsOf(l.Keys(), l.a), [l.r, l.a, l.b]) == [l.r, l.a, l.b, l.c] by {
      LateKids(l, l.a);
      DiscoverOne(l.Key(l.c, l.a), [l.r, l.a, l.b]);
    }
    assert Discovering(KidsOf(l.Keys(), l.b), [l.r, l.a, l.b, l.c]) == [l.r, l.a, l.b, l.c] by {
      LateKids(l, l.b);
      DiscoverOne(l.Key(l.a, l.b), [l.r, l.a, l.b, l.c]);
    }
    LateKids(l, l.c);
  }

  lemma {:induction false} BreadthNext(keys: seq<ForeignKey>, tables: seq<string>, n: nat, most: nat, t: string,
                                       longer: seq<string>)
    requires n < most && n < |tables| && tables[n] == t && Discovering(KidsOf(keys, t), tables) == longer
    ensures BreadthFirst(keys, tables, n, most) == BreadthFirst(keys, longer, n + 1, most)
  {
  }

  lemma {:induction false} LateOrder(l: Late)
    requires l.Four()
    ensures DiscoveryOrder(l.Keys(), [l.r]) == [l.r, l.a, l.b, l.c]
  {
    var keys, some, all := l.Keys(), [l.r, l.a, l.b], [l.r, l.a, l.b, l.c];
    LateUniverse(l);
    LateTurns(l);
    assert Once([l.r]) == [l.r] by { assert [l.r][..0] == []; }
    BreadthNext(keys, [l.r], 0, 4, l.r, some);
    BreadthNext(keys, some, 1, 4, l.a, all);
    BreadthNext(keys, all, 2, 4, l.b, all);
    BreadthNext(keys, all, 3, 4, l.c, all);
  }

  lemma {:induction false} LatePlaces(l: Late, tables: seq<string>)
    requires l.Four() && tables == [l.r, l.a, l.b, l.c]
    ensures IndexOf(tables, l.a) == 1 && IndexOf(tables, l.b) == 2 && l.b in tables
    ensures l.Key(l.a, l.b) in l.Keys() && l.Key(l.c, l.a) in l.Keys()
  {
    IndexIs(tables, 1);
    IndexIs(tables, 2);
    assert l.Keys()[2] == l.Key(l.a, l.b) && l.Keys()[3] == l.Key(l.c, l.a) && tables[2] in tables;
  }

  /** The rows of a that point at b are deleted, but not the rows of c that point at them. */
  lemma {:induction false} LateConditionIsMissed(l: Late, tables: seq<string>, conditions: map<string, seq<Condition>>)
    requires l.Four() && SearchResult(l.Keys(), [l.r], tables, conditions)
    ensures l.a in conditions && Covers(conditions[l.a], KeyOf(l.Key(l.a, l.b)))
    ensures l.c in conditions && !UpToDate(conditions, l.Key(l.c, l.a))
  {
    LateOrder(l);
    LatePlaces(l, tables);
    LateParentIsMissed(l.Keys(), [l.r], tables, conditions, l.Key(l.a, l.b), l.Key(l.c, l.a));
  }
}
