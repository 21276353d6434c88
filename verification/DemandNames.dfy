/** What the demand rows of a customer are shown as: the name of its first row, and its
    articles in the order they are first asked for. */
module DemandNames {
  import opened Standard
  import opened DoubleSums
  import opened Sorting
  import opened ContainerPlanner
  import opened ContainerPacking
  import opened ContainerDemand

  predicate AsksFor(row: DemandRow, id: int) { row.customer == id && row.qty > 0 }

  predicate AsksForArticle(row: DemandRow, id: int, code: string) { AsksFor(row, id) && row.code == code }

  /** The first row in which the customer asks for anything. */
  ghost predicate FirstRow(demand: seq<DemandRow>, j: nat, id: int) {
    j < |demand| && AsksFor(demand[j], id) && forall i :: 0 <= i < j ==> !AsksFor(demand[i], id)
  }

  ghost predicate FirstRowOf(demand: seq<DemandRow>, j: nat, id: int, code: string) {
    && j < |demand| && AsksForArticle(demand[j], id, code)
    && forall i :: 0 <= i < j ==> !AsksForArticle(demand[i], id, code)
  }

  ghost predicate CustomerNamed(demand: seq<DemandRow>, c: Customer) {
    exists j: nat :: FirstRow(demand, j, c.id) && c.name == demand[j].customerName
  }

  ghost predicate LineNamed(demand: seq<DemandRow>, id: int, line: Line) {
    exists j: nat :: FirstRowOf(demand, j, id, line.code)
                     && line.name == if demand[j].name == "" then line.code else demand[j].name
  }

  /** The lines stand in the order of the rows that first ask for them. */
  ghost predicate LinesInOrder(demand: seq<DemandRow>, c: Customer) {
    forall a: nat, b: nat :: a < b < |c.lines| ==> EarlierAsked(demand, c.id, c.lines[a].code, c.lines[b].code)
  }

  /** The first article is asked for before the second. */
  ghost predicate EarlierAsked(demand: seq<DemandRow>, id: int, first: string, second: string) {
    forall i: nat, j: nat :: FirstRowOf(demand, i, id, first) && FirstRowOf(demand, j, id, second) ==> i < j
  }

  ghost predicate Named(demand: seq<DemandRow>, c: Customer) {
    && CustomerNamed(demand, c) && LinesInOrder(demand, c)
    && forall l :: 0 <= l < |c.lines| ==> LineNamed(demand, c.id, c.lines[l])
  }

  lemma {:induction false} FirstRowNext(demand: seq<DemandRow>, row: DemandRow, j: nat, id: int)
    ensures FirstRow(demand, j, id) ==> FirstRow(demand + [row], j, id)
    ensures AsksFor(row, id) && (forall i :: 0 <= i < |demand| ==> !AsksFor(demand[i], id))
            ==> FirstRow(demand + [row], |demand|, id)
  {
  }

  lemma {:induction false} FirstRowOfNext(demand: seq<DemandRow>, row: DemandRow, j: nat, id: int, code: string)
    ensures FirstRowOf(demand, j, id, code) ==> FirstRowOf(demand + [row], j, id, code)
    ensures AsksForArticle(row, id, code) && (forall i :: 0 <= i < |demand| ==> !AsksForArticle(demand[i], id, code))
            ==> FirstRowOf(demand + [row], |demand|, id, code)
  {
  }

  lemma {:induction false} OneFirstRowOf(demand: seq<DemandRow>, i: nat, j: nat, id: int, code: string)
    requires FirstRowOf(demand, i, id, code) && FirstRowOf(demand, j, id, code)
    ensures i == j
  {
  }

  lemma {:induction false} NotAskedFor(demand: seq<DemandRow>, id: int, code: string)
    requires SumBy(Wanted(id, code), demand) == 0
    ensures forall i :: 0 <= i < |demand| ==> !AsksForArticle(demand[i], id, code)
  {
    SumByNotNegative(Wanted(id, code), demand);
    forall i | 0 <= i < |demand|
      ensures !AsksForArticle(demand[i], id, code)
    {
      assert demand[i] in demand;
    }
  }

  lemma {:induction false} NotAsking(demand: seq<DemandRow>, id: int)
    requires SumBy(WantedBy(id), demand) == 0
    ensures forall i :: 0 <= i < |demand| ==> !AsksFor(demand[i], id)
  {
    SumByNotNegative(WantedBy(id), demand);
    forall i | 0 <= i < |demand|
      ensures !AsksFor(demand[i], id)
    {
      assert demand[i] in demand;
    }
  }

  lemma {:induction false} CustomerStillNamed(demand: seq<DemandRow>, row: DemandRow, c: Customer, d: Customer)
    requires CustomerNamed(demand, c) && d.id == c.id && d.name == c.name
    ensures CustomerNamed(demand + [row], d)
  {
    var j: nat :| FirstRow(demand, j, c.id) && c.name == demand[j].customerName;
    FirstRowNext(demand, row, j, c.id);
  }

  lemma {:induction false} LineStillNamed(demand: seq<DemandRow>, row: DemandRow, id: int, line: Line, more: Line)
    requires LineNamed(demand, id, line) && more.code == line.code && more.name == line.name
    ensures LineNamed(demand + [row], id, more)
  {
    var j: nat :| FirstRowOf(demand, j, id, line.code)
                  && line.name == if demand[j].name == "" then line.code else demand[j].name;
    FirstRowOfNext(demand, row, j, id, line.code);
    assert (demand + [row])[j] == demand[j];
  }

  /** More rows leave the order of the lines there are. */
  lemma {:induction false} OrderStays(demand: seq<DemandRow>, row: DemandRow, c: Customer, a: nat, b: nat)
    requires LinesInOrder(demand, c) && a < b < |c.lines|
    requires LineNamed(demand, c.id, c.lines[a]) && LineNamed(demand, c.id, c.lines[b])
    ensures EarlierAsked(demand + [row], c.id, c.lines[a].code, c.lines[b].code)
  {
    var first, second := c.lines[a].code, c.lines[b].code;
    var k: nat :| FirstRowOf(demand, k, c.id, first);
    var l: nat :| FirstRowOf(demand, l, c.id, second);
    FirstRowOfNext(demand, row, k, c.id, first);
    FirstRowOfNext(demand, row, l, c.id, second);
    assert EarlierAsked(demand, c.id, first, second);
    OnlyThese(demand + [row], c.id, first, second, k, l);
  }

  lemma {:induction false} OnlyThese(demand: seq<DemandRow>, id: int, first: string, second: string, k: nat, l: nat)
    requires FirstRowOf(demand, k, id, first) && FirstRowOf(demand, l, id, second) && k < l
    ensures EarlierAsked(demand, id, first, second)
  {
    forall i: nat, j: nat | FirstRowOf(demand, i, id, first) && FirstRowOf(demand, j, id, second)
      ensures i < j
    {
      OneFirstRowOf(demand, i, k, id, first);
      OneFirstRowOf(demand, j, l, id, second);
    }
  }

  lemma {:induction false} StillNamed(demand: seq<DemandRow>, row: DemandRow, c: Customer)
    requires Named(demand, c)
    ensures Named(demand + [row], c)
  {
    CustomerStillNamed(demand, row, c, c);
    forall l | 0 <= l < |c.lines|
      ensures LineNamed(demand + [row], c.id, c.lines[l])
    {
      LineStillNamed(demand, row, c.id, c.lines[l], c.lines[l]);
    }
    forall a: nat, b: nat | a < b < |c.lines|
      ensures EarlierAsked(demand + [row], c.id, c.lines[a].code, c.lines[b].code)
    {
      OrderStays(demand, row, c, a, b);
    }
  }

  // ---- A row joins its customer -----------------------------------------------------------------

  lemma {:induction false} MergedNames(lines: seq<Line>, code: string, name: string, qty: int)
    ensures var merged := Merged(lines, code, name, qty);
            && |lines| <= |merged| <= |lines| + 1
            && (forall i :: 0 <= i < |lines| ==> merged[i].name == lines[i].name && merged[i].code == lines[i].code)
            && (|merged| > |lines| ==> merged[|lines|] == Line(code, name, qty)
                                       && forall i :: 0 <= i < |lines| ==> lines[i].code != code)
  {
    if lines != [] && lines[0].code != code { MergedNames(lines[1..], code, name, qty); }
  }

  lemma {:induction false} NewLineNamed(demand: seq<DemandRow>, row: DemandRow)
    requires row.qty > 0 && SumBy(Wanted(row.customer, row.code), demand) == 0
    ensures LineNamed(demand + [row], row.customer, Line(row.code, RowName(row), row.qty))
    ensures FirstRowOf(demand + [row], |demand|, row.customer, row.code)
  {
    NotAskedFor(demand, row.customer, row.code);
    FirstRowOfNext(demand, row, 0, row.customer, row.code);
  }

  lemma {:induction false} JoinedNamed(demand: seq<DemandRow>, row: DemandRow, c: Customer, d: Customer)
    requires Named(demand, c) && Faithful(c, demand) && c.id == row.customer && row.qty > 0
    requires d.id == c.id && d.name == c.name && d.lines == Merged(c.lines, row.code, RowName(row), row.qty)
    ensures Named(demand + [row], d)
  {
    CustomerStillNamed(demand, row, c, d);
    MergedNames(c.lines, row.code, RowName(row), row.qty);
    if |d.lines| > |c.lines| { NoLineNoBales(c.lines, row.code); }
    JoinedLines(demand, row, c, d.lines);
    JoinedOrder(demand, row, c, d);
  }

  /** The old lines with the same names and codes, and perhaps one of the row's article at the end. */
  ghost predicate Extends(more: seq<Line>, lines: seq<Line>, demand: seq<DemandRow>, row: DemandRow) {
    && |lines| <= |more| <= |lines| + 1
    && (forall i :: 0 <= i < |lines| ==> more[i].name == lines[i].name && more[i].code == lines[i].code)
    && (|more| > |lines| ==> more[|lines|] == Line(row.code, RowName(row), row.qty)
                             && SumBy(Wanted(row.customer, row.code), demand) == 0)
  }

  lemma {:induction false} JoinedLines(demand: seq<DemandRow>, row: DemandRow, c: Customer, more: seq<Line>)
    requires Extends(more, c.lines, demand, row) && c.id == row.customer && row.qty > 0
    requires forall l :: 0 <= l < |c.lines| ==> LineNamed(demand, c.id, c.lines[l])
    ensures forall l :: 0 <= l < |more| ==> LineNamed(demand + [row], c.id, more[l])
  {
    forall l | 0 <= l < |more|
      ensures LineNamed(demand + [row], c.id, more[l])
    {
      if l < |c.lines| {
        LineStillNamed(demand, row, c.id, c.lines[l], more[l]);
      } else {
        NewLineNamed(demand, row);
      }
    }
  }

  lemma {:induction false} JoinedOrder(demand: seq<DemandRow>, row: DemandRow, c: Customer, d: Customer)
    requires Named(demand, c) && Extends(d.lines, c.lines, demand, row)
    requires c.id == d.id == row.customer && row.qty > 0
    ensures LinesInOrder(demand + [row], d)
  {
    forall a: nat, b: nat | a < b < |d.lines|
      ensures EarlierAsked(demand + [row], d.id, d.lines[a].code, d.lines[b].code)
    {
      if b < |c.lines| {
        OrderStays(demand, row, c, a, b);
      } else {
        NewLineNamed(demand, row);
        NewLineLast(demand, row, c, a);
      }
    }
  }

  lemma {:induction false} NewLineLast(demand: seq<DemandRow>, row: DemandRow, c: Customer, a: nat)
    requires a < |c.lines| && LineNamed(demand, c.id, c.lines[a])
    requires FirstRowOf(demand + [row], |demand|, c.id, row.code)
    ensures EarlierAsked(demand + [row], c.id, c.lines[a].code, row.code)
  {
    var k: nat :| FirstRowOf(demand, k, c.id, c.lines[a].code);
    FirstRowOfNext(demand, row, k, c.id, c.lines[a].code);
    OnlyThese(demand + [row], c.id, c.lines[a].code, row.code, k, |demand|);
  }

  lemma {:induction false} NoLineNoBales(lines: seq<Line>, code: string)
    requires forall i :: 0 <= i < |lines| ==> lines[i].code != code
    ensures BalesOf(lines, code) == 0
  {
    if lines != [] { NoLineNoBales(lines[1..], code); }
  }

  lemma {:induction false} OpenedNamed(demand: seq<DemandRow>, row: DemandRow, d: Customer)
    requires row.qty > 0 && SumBy(WantedBy(row.customer), demand) == 0
             && SumBy(Wanted(row.customer, row.code), demand) == 0
    requires d.id == row.customer && d.name == row.customerName && d.lines == [Line(row.code, RowName(row), row.qty)]
    ensures Named(demand + [row], d)
  {
    NotAsking(demand, row.customer);
    FirstRowNext(demand, row, 0, row.customer);
    assert (demand + [row])[|demand|] == row;
    NewLineNamed(demand, row);
  }

  lemma {:induction false} UpsertNames(cs: seq<Customer>, row: DemandRow, qty: int) returns (k: nat)
    ensures var after := Upsert(cs, row, qty);
            && k <= |cs| && |after| == (if k < |cs| then |cs| else |cs| + 1)
            && (forall i :: 0 <= i < |cs| && i != k ==> after[i] == cs[i])
            && (forall i :: 0 <= i < k ==> cs[i].id != row.customer)
            && after[k].id == row.customer
            && (k < |cs| ==> cs[k].id == row.customer && after[k].name == cs[k].name
                             && after[k].lines == Merged(cs[k].lines, row.code, RowName(row), qty))
            && (k == |cs| ==>
                  after[k].name == row.customerName && after[k].lines == [Line(row.code, RowName(row), qty)])
  {
    if cs == [] || cs[0].id == row.customer {
      k := 0;
    } else {
      k := UpsertNames(cs[1..], row, qty);
      var rest := Upsert(cs[1..], row, qty);
      assert Upsert(cs, row, qty) == [cs[0]] + rest;
      assert forall i :: 1 <= i < |rest| + 1 ==> ([cs[0]] + rest)[i] == rest[i - 1];
      k := k + 1;
    }
  }

  /** Every customer goes by the name of its first row, and every line by that of the row that
      first asks for its article, in the order of those rows. */
  lemma {:induction false} GroupedNamed(demand: seq<DemandRow>)
    ensures forall i :: 0 <= i < |Grouped(demand)| ==> Named(demand, Grouped(demand)[i])
  {
    if demand != [] {
      var front, row := demand[..|demand| - 1], demand[|demand| - 1];
      var cs, after := Grouped(front), Grouped(demand);
      assert demand == front + [row];
      GroupedNamed(front);
      GroupedIsFaithful(front);
      if row.qty <= 0 {
        forall i | 0 <= i < |after|
          ensures Named(demand, after[i])
        {
          StillNamed(front, row, cs[i]);
        }
      } else {
        RowNamed(front, row, cs, after);
      }
    }
  }

  lemma {:induction false} RowNamed(demand: seq<DemandRow>, row: DemandRow, cs: seq<Customer>, after: seq<Customer>)
    requires row.qty > 0 && cs == Grouped(demand) && after == Upsert(cs, row, row.qty)
    requires forall i :: 0 <= i < |cs| ==> Named(demand, cs[i]) && Faithful(cs[i], demand)
    requires forall id :: SumBy(WantedBy(id), demand) > 0 ==> exists i :: 0 <= i < |cs| && cs[i].id == id
    ensures forall i :: 0 <= i < |after| ==> Named(demand + [row], after[i])
  {
    var k := UpsertNames(cs, row, row.qty);
    forall i | 0 <= i < |after|
      ensures Named(demand + [row], after[i])
    {
      if i != k {
        StillNamed(demand, row, cs[i]);
      } else if k < |cs| {
        JoinedNamed(demand, row, cs[k], after[k]);
      } else {
        WantedNotNegative(demand, row.customer);
        NothingWanted(demand, row.customer);
        OpenedNamed(demand, row, after[k]);
      }
    }
  }

  /** So do those of the ranking. */
  lemma {:induction false} RankedNamed(demand: seq<DemandRow>, le: (string, string) -> bool)
    ensures forall i :: 0 <= i < |Ranked(demand, le)| ==> Named(demand, Ranked(demand, le)[i])
  {
    GroupedNamed(demand);
    GroupedIsFaithful(demand);
    RankedIsPermutation(demand, le);
    forall i | 0 <= i < |Ranked(demand, le)|
      ensures Named(demand, Ranked(demand, le)[i])
    {
      assert Ranked(demand, le)[i] in Grouped(demand);
    }
  }
}
