/** What the last two phases put in containers: one product a container while a free
    product fills one, then what is left over of everything, largest first. */
module LayoutPhases {
  import opened Standard
  import opened DoubleSums
  import opened Sorting
  import opened ContainerPlanner
  import opened ContainerPacking
  import opened ContainerDemand
  import opened ContainerOptimizer
  import opened ServingOrder

  /** Each container holds one product and is full of it. */
  ghost predicate SingleProducts(part: seq<Suggested>, capacity: int) {
    forall k :: 0 <= k < |part| ==> part[k].kind == SingleProduct && OneProduct(part[k].lines, capacity)
  }

  ghost predicate OneProduct(lines: seq<Line>, capacity: int) { |lines| == 1 && lines[0].qty == capacity }

  /** Counts the containers full of a product. */
  function Holding(code: string): Suggested -> int {
    (s: Suggested) => if s.kind == SingleProduct && |s.lines| == 1 && s.lines[0].code == code then 1 else 0
  }

  /** The products come in the order of their quantities, the largest first, then by name. */
  ghost predicate LargestFirst(part: seq<Suggested>, quantity: string -> int, le: (string, string) -> bool) {
    forall i, j :: 0 <= i < j < |part| && |part[i].lines| == |part[j].lines| == 1
                   ==> Before(part[i].lines[0], part[j].lines[0], quantity, le)
  }

  predicate Before(a: Line, b: Line, quantity: string -> int, le: (string, string) -> bool) {
    quantity(a.code) > quantity(b.code) || (quantity(a.code) == quantity(b.code) && le(a.name, b.name))
  }

  /** n containers are the fewest that hold so many bales. */
  ghost predicate Fewest(n: int, bales: int, capacity: int) { (n - 1) * capacity < bales <= n * capacity }

  /** What is left over, one line an article and the largest first, unloads from the mixed
      containers bale by bale. */
  ghost predicate LeftOver(mixed: seq<Suggested>, rest: seq<Line>, capacity: int, le: (string, string) -> bool) {
    && (forall k :: 0 <= k < |mixed| ==> mixed[k].kind == Mixed)
    && Tidy(rest) && (TotalPreorder(le) ==> Sorted(FreeOrder(le), rest))
    && LoadOf(mixed) == Unpacked(rest)
    && (forall code :: SumBy(ContainerBalesOf(code), mixed) == BalesOf(rest, code))
    && Fewest(|mixed|, Bales(rest), capacity)
  }

  /** The free rows are what the shelf holds, one line an article and the largest first. */
  ghost predicate FreeRows(free: seq<Line>, available: seq<Line>, le: (string, string) -> bool) {
    && Tidy(free) && (TotalPreorder(le) ==> Sorted(FreeOrder(le), free))
    && (forall line :: line in free ==> line in available)
    && forall code :: BalesOf(free, code) == BalesOf(available, code)
  }

  // ---- Rows in order ------------------------------------------------------------------------

  lemma {:induction false} FreeOrderIsTotal(le: (string, string) -> bool)
    requires TotalPreorder(le)
    ensures TotalPreorder(FreeOrder(le))
  {
    var order := FreeOrder(le);
    forall x, y
      ensures order(x, y) || order(y, x)
    {
      assert le(x.name, y.name) || le(y.name, x.name);
    }
    forall x, y, z | order(x, y) && order(y, z)
      ensures order(x, z)
    {
      assert le(x.name, y.name) && le(y.name, z.name) ==> le(x.name, z.name);
    }
  }

  lemma {:induction false} SortedTidy(le: (string, string) -> bool, lines: seq<Line>)
    requires Tidy(lines)
    ensures Tidy(Sort(FreeOrder(le), lines))
    ensures TotalPreorder(le) ==> Sorted(FreeOrder(le), Sort(FreeOrder(le), lines))
  {
    var sorted := Sort(FreeOrder(le), lines);
    SortPermutes(FreeOrder(le), lines);
    TidyDistinct(lines);
    DistinctPermutation(lines, sorted);
    StillTidy(lines, sorted);
    if TotalPreorder(le) {
      FreeOrderIsTotal(le);
      SortSorted(FreeOrder(le), lines);
    }
  }

  lemma {:induction false} TidyDistinct(lines: seq<Line>)
    requires Tidy(lines)
    ensures Distinct(lines)
  {
  }

  lemma {:induction false} StillTidy(lines: seq<Line>, sorted: seq<Line>)
    requires Tidy(lines) && Distinct(sorted) && forall line :: line in sorted <==> line in lines
    ensures Tidy(sorted)
  {
    forall i, j | 0 <= i < j < |sorted|
      ensures sorted[i].code != sorted[j].code
    {
      assert sorted[i] in lines && sorted[j] in lines;
    }
    forall i | 0 <= i < |sorted|
      ensures sorted[i].qty > 0
    {
      assert sorted[i] in lines;
    }
  }

  lemma {:induction false} InStockTidy(lines: seq<Line>)
    requires Shelf(lines)
    ensures Tidy(Filter(InStock(), lines))
  {
    if lines != [] {
      InStockTidy(lines[1..]);
      var rest := Filter(InStock(), lines[1..]);
      forall i | 0 <= i < |rest|
        ensures rest[i].code != lines[0].code
      {
        assert rest[i] in rest;
        assert rest[i] in lines[1..];
      }
    }
  }

  lemma {:induction false} FreeRowsAre(le: (string, string) -> bool, available: seq<Line>)
    requires Shelf(available)
    ensures FreeRows(Sort(FreeOrder(le), Filter(InStock(), available)), available, le)
  {
    FreeRowsHold(le, available);
    InStockTidy(available);
    SortPermutes(FreeOrder(le), Filter(InStock(), available));
    SortedTidy(le, Filter(InStock(), available));
  }

  // ---- Single products --------------------------------------------------------------------------

  lemma {:induction false} SinglesAre(row: Line, n: nat, capacity: int, code: string)
    ensures SingleProducts(Singles(row, n, capacity), capacity) && |Singles(row, n, capacity)| == n
    ensures forall k :: 0 <= k < n ==> Singles(row, n, capacity)[k].lines == [Line(row.code, row.name, capacity)]
    ensures SumBy(Holding(code), Singles(row, n, capacity)) == if row.code == code then n else 0
  {
    if n > 0 {
      var s := Suggested(SingleProduct, [Line(row.code, row.name, capacity)]);
      SinglesAre(row, n - 1, capacity, code);
      SumByAppend(Holding(code), Singles(row, n - 1, capacity), [s]);
      SumByOne(Holding(code), s);
    }
  }

  /** Of each product there are as many containers as its rows fill. */
  lemma {:induction false} SinglesCount(rows: seq<Line>, capacity: int, code: string)
    requires capacity > 0 && Tidy(rows)
    ensures SingleProducts(SinglesOf(rows, capacity), capacity)
    ensures SumBy(Holding(code), SinglesOf(rows, capacity)) == Fills(BalesOf(rows, code), capacity)
  {
    if rows != [] {
      var n := |rows| - 1;
      var row := rows[n];
      assert rows == rows[..n] + [row];
      SinglesCount(rows[..n], capacity, code);
      SinglesAre(row, Fills(row.qty, capacity), capacity, code);
      SumByAppend(Holding(code), SinglesOf(rows[..n], capacity), Singles(row, Fills(row.qty, capacity), capacity));
      LineAppended(rows[..n], row);
      if row.code == code { NotOnShelf(rows[..n], code); }
    }
  }

  lemma {:induction false} SingleRow(rows: seq<Line>, capacity: int, k: nat) returns (r: nat)
    requires capacity > 0 && k < |SinglesOf(rows, capacity)|
    ensures r < |rows| && SinglesOf(rows, capacity)[k].lines == [Line(rows[r].code, rows[r].name, capacity)]
  {
    var n := |rows| - 1;
    var front := SinglesOf(rows[..n], capacity);
    SinglesAre(rows[n], Fills(rows[n].qty, capacity), capacity, "");
    if k < |front| {
      r := SingleRow(rows[..n], capacity, k);
    } else {
      r := n;
      assert SinglesOf(rows, capacity)[k] == Singles(rows[n], Fills(rows[n].qty, capacity), capacity)[k - |front|];
    }
  }

  lemma {:induction false} SingleRows(rows: seq<Line>, capacity: int, i: nat, j: nat) returns (r: nat, t: nat)
    requires capacity > 0 && i < j < |SinglesOf(rows, capacity)|
    ensures r <= t < |rows| && SinglesOf(rows, capacity)[i].lines == [Line(rows[r].code, rows[r].name, capacity)]
    ensures SinglesOf(rows, capacity)[j].lines == [Line(rows[t].code, rows[t].name, capacity)]
  {
    var n := |rows| - 1;
    var front := SinglesOf(rows[..n], capacity);
    if j < |front| {
      r, t := SingleRows(rows[..n], capacity, i, j);
    } else {
      SinglesAre(rows[n], Fills(rows[n].qty, capacity), capacity, "");
      t := n;
      assert SinglesOf(rows, capacity)[j] == Singles(rows[n], Fills(rows[n].qty, capacity), capacity)[j - |front|];
      r := SingleRow(rows, capacity, i);
    }
  }

  function ByCode(lines: seq<Line>): string -> int { (code: string) => BalesOf(lines, code) }

  lemma {:induction false} SinglesInOrder(rows: seq<Line>, capacity: int, le: (string, string) -> bool)
    requires capacity > 0 && Tidy(rows) && TotalPreorder(le) && Sorted(FreeOrder(le), rows)
    ensures LargestFirst(SinglesOf(rows, capacity), ByCode(rows), le)
  {
    var part := SinglesOf(rows, capacity);
    forall i, j | 0 <= i < j < |part|
      ensures |part[i].lines| == |part[j].lines| == 1
              ==> Before(part[i].lines[0], part[j].lines[0], ByCode(rows), le)
    {
      var r, t := SingleRows(rows, capacity, i, j);
      LineQtyIsBales(rows, r);
      LineQtyIsBales(rows, t);
      assert r < t ==> FreeOrder(le)(rows[r], rows[t]);
    }
  }

  // ---- What is left over ---------------------------------------------------------------------------

  lemma {:induction false} PacksAreFewest(packs: seq<seq<Line>>, capacity: int)
    requires capacity > 0 && FullButLast(packs, capacity)
    ensures Fewest(|packs|, SumBy(PackBales(), packs), capacity)
  {
    if |packs| == 1 {
      SumByOne(PackBales(), packs[0]);
      assert packs == [packs[0]];
    } else if |packs| > 1 {
      assert packs[1..][|packs| - 2] == packs[|packs| - 1];
      PacksAreFewest(packs[1..], capacity);
      NextMultiple(|packs|, capacity);
      NextMultiple(|packs| - 1, capacity);
    }
  }

  lemma {:induction false} MixedHolds(mixed: seq<Suggested>, packs: seq<seq<Line>>, code: string)
    requires MixedPart(mixed, packs)
    ensures SumBy(ContainerBalesOf(code), mixed) == SumBy(PackBalesOf(code), packs)
  {
    if packs != [] { MixedHolds(mixed[1..], packs[1..], code); }
  }

  lemma {:induction false} MixedIsLeftOver(mixed: seq<Suggested>, packs: seq<seq<Line>>, rest: seq<Line>, capacity: int,
                                           le: (string, string) -> bool)
    requires capacity > 0 && MixedPart(mixed, packs) && FullButLast(packs, capacity)
    requires Tidy(rest) && (TotalPreorder(le) ==> Sorted(FreeOrder(le), rest))
    requires AllUnpacked(packs) == Unpacked(rest)
    requires forall code :: SumBy(PackBalesOf(code), packs) == BalesOf(rest, code)
    requires SumBy(PackBales(), packs) == Bales(rest)
    ensures LeftOver(mixed, rest, capacity, le)
  {
    MixedLoad(mixed, packs);
    PacksAreFewest(packs, capacity);
    forall code
      ensures SumBy(ContainerBalesOf(code), mixed) == BalesOf(rest, code)
    {
      MixedHolds(mixed, packs, code);
    }
  }

  /** The whole layout, and the rows of the last two phases it is made from. */
  datatype Rest = Rest(all: seq<Suggested>, free: seq<Line>, mixed: seq<Suggested>, rest: seq<Line>)

  ghost predicate RestLaid(r: Rest, l: Layout, capacity: int, le: (string, string) -> bool)
    requires capacity > 0
  {
    && r.all == l.containers + SinglesOf(r.free, capacity) + r.mixed
    && FreeRows(r.free, l.available, le) && LeftOver(r.mixed, r.rest, capacity, le)
    && RestHolds(r.all, l, capacity)
  }

  ghost predicate RestHolds(all: seq<Suggested>, l: Layout, capacity: int) {
    && RestAdded(all, l)
    && (forall k :: 0 <= k < |all| - 1 ==> Bales(all[k].lines) == capacity)
    && (all != [] ==> 0 < Bales(all[|all| - 1].lines) <= capacity)
  }

  /** The tails and what the shelf held are all the containers hold more. */
  ghost predicate RestAdded(all: seq<Suggested>, l: Layout) {
    && (forall code :: SumBy(ContainerBalesOf(code), all)
                       == SumBy(ContainerBalesOf(code), l.containers)
                          + BalesOf(l.tails, code) + BalesOf(l.available, code))
    && SumBy(ContainerBales(), all) == SumBy(ContainerBales(), l.containers) + Bales(l.tails) + Bales(l.available)
    && (forall id, code :: SumBy(ReservedFor(id, code), all) == SumBy(ReservedFor(id, code), l.containers))
    && (forall id :: SumBy(Owned(id), all) == SumBy(Owned(id), l.containers))
  }

  ghost predicate SameBales(lines: seq<Line>, others: seq<Line>) {
    Bales(lines) == Bales(others) && forall code :: BalesOf(lines, code) == BalesOf(others, code)
  }

  ghost predicate PacksHoldLines(packs: seq<seq<Line>>, lines: seq<Line>) {
    && SumBy(PackBales(), packs) == Bales(lines)
    && forall code :: SumBy(PackBalesOf(code), packs) == BalesOf(lines, code)
  }

  lemma {:induction false} RestAddsUp(l: Layout, freeRows: seq<Line>, containers: seq<Suggested>, tails: seq<Line>,
                                      rest: seq<Line>, packs: seq<seq<Line>>, all: seq<Suggested>)
    requires SameBales(freeRows, l.available) && Added(freeRows, l.containers, l.tails, containers, tails)
    requires SameBales(rest, tails) && PacksHoldLines(packs, rest) && MixedAdded(packs, containers, all)
    ensures RestAdded(all, l)
  {
  }

  /** The rows and the rest, in order. */
  lemma {:induction false} FreeRowsSame(le: (string, string) -> bool, available: seq<Line>)
    requires Shelf(available)
    ensures var rows := Sort(FreeOrder(le), Filter(InStock(), available));
            SameBales(rows, available) && PositiveLines(rows) && FreeRows(rows, available, le)
  {
    FreeRowsHold(le, available);
    FreeRowsAre(le, available);
  }

  lemma {:induction false} RestSame(le: (string, string) -> bool, merged: seq<Line>, tails: seq<Line>)
    requires Tidy(merged) && SameBales(merged, tails)
    ensures var rest := Sort(FreeOrder(le), merged);
            SameBales(rest, tails) && Tidy(rest) && (TotalPreorder(le) ==> Sorted(FreeOrder(le), rest))
  {
    SortedHolds(le, merged);
    SortedTidy(le, merged);
  }

  /** The last phase: what is left over, merged, in mixed containers. */
  method LayTails(containers: seq<Suggested>, tails: seq<Line>, capacity: int, le: (string, string) -> bool)
    returns (all: seq<Suggested>, ghost packs: seq<seq<Line>>, ghost rest: seq<Line>)
    requires capacity > 0 && AllFull(containers, capacity) && PositiveLines(tails)
    ensures containers <= all && LeftOver(all[|containers|..], rest, capacity, le)
    ensures SameBales(rest, tails) && PacksHoldLines(packs, rest) && MixedAdded(packs, containers, all)
    ensures forall k :: 0 <= k < |all| - 1 ==> Bales(all[k].lines) == capacity
    ensures all != [] ==> 0 < Bales(all[|all| - 1].lines) <= capacity
  {
    var merged := MergeTails(tails);
    RestSame(le, merged, tails);
    var tailLines := Sort(FreeOrder(le), merged);
    var packed := PackLinesIntoContainers(tailLines, capacity);
    all := LayMixed(packed, capacity, containers);
    packs, rest := packed, tailLines;
    MixedIsLeftOver(all[|containers|..], packs, rest, capacity, le);
  }

  /** The last two phases: free products, then everything left over. */
  method LayRest(l: Layout, capacity: int, le: (string, string) -> bool)
    returns (all: seq<Suggested>, fromFreeStock: int, ghost r: Rest)
    requires capacity > 0 && Shelf(l.available) && AllFull(l.containers, capacity) && PositiveLines(l.tails)
    ensures r.all == all && RestLaid(r, l, capacity, le) && fromFreeStock == Bales(l.available)
  {
    var freeRows := Sort(FreeOrder(le), Filter(InStock(), l.available));
    FreeRowsSame(le, l.available);
    fromFreeStock := Bales(freeRows);
    var containers, tails := LayFreeRows(freeRows, capacity, l.containers, l.tails);
    var laid, packs, rest := LayTails(containers, tails, capacity, le);
    all := laid;
    RestAddsUp(l, freeRows, containers, tails, rest, packs, all);
    r := Rest(all, freeRows, all[|containers|..], rest);
  }
}
