/** Who gets the stock: the reported shortfalls against the ranking and the demand rows. */
module ServingOrder {
  import opened Standard
  import opened DoubleSums
  import opened ContainerPlanner
  import opened ContainerPacking
  import opened ContainerDemand
  import opened ContainerOptimizer

  ghost predicate AllTidy(customers: seq<Customer>) {
    forall i :: 0 <= i < |customers| ==> Tidy(customers[i].lines)
  }

  /** What customer i gets of an article when those before it are served first. */
  function ServedQty(customers: seq<Customer>, stock: int, code: string, i: nat): int
    requires i < |customers|
  {
    Min(BalesOf(customers[i].lines, code), Left(stock, SumBy(CustomerWants(code), customers[..i])))
  }

  function ServedTotal(customers: seq<Customer>, stock: int, code: string): int {
    if customers == [] then 0
    else
      var (front, c) := (customers[..|customers| - 1], customers[|customers| - 1]);
      ServedTotal(front, stock, code) + Min(BalesOf(c.lines, code), Left(stock, SumBy(CustomerWants(code), front)))
  }

  lemma {:induction false} WantsUpTo(customers: seq<Customer>, code: string, n: nat)
    requires n < |customers|
    ensures SumBy(CustomerWants(code), customers[..n + 1])
            == SumBy(CustomerWants(code), customers[..n]) + BalesOf(customers[n].lines, code)
  {
    PrefixNext(customers, n);
    SumByAppend(CustomerWants(code), customers[..n], [customers[n]]);
    SumByOne(CustomerWants(code), customers[n]);
  }

  lemma {:induction false} WantsGrowWith(customers: seq<Customer>, code: string, i: nat, j: nat)
    requires AllTidy(customers) && i <= j <= |customers|
    ensures SumBy(CustomerWants(code), customers[..i]) <= SumBy(CustomerWants(code), customers[..j])
    decreases j - i
  {
    if i < j {
      WantsUpTo(customers, code, j - 1);
      TidyNotNegative(customers[j - 1].lines, code);
      WantsGrowWith(customers, code, i, j - 1);
    }
  }

  /** Together the customers get the smaller of the stock and their demand. */
  lemma {:induction false} ServedIsMinimum(customers: seq<Customer>, stock: int, code: string)
    requires AllTidy(customers) && stock >= 0
    ensures ServedTotal(customers, stock, code) == Min(stock, SumBy(CustomerWants(code), customers))
  {
    if customers != [] {
      var n := |customers| - 1;
      ServedIsMinimum(customers[..n], stock, code);
      WantsUpTo(customers, code, n);
      assert customers[..n + 1] == customers;
      TidyNotNegative(customers[n].lines, code);
      WantsGrowWith(customers, code, 0, n);
    }
  }

  /** Once a customer is short of an article nobody ranked lower gets any of it. */
  lemma {:induction false} NothingBelowShort(customers: seq<Customer>, stock: int, code: string, i: nat, j: nat)
    requires AllTidy(customers) && i < j < |customers|
    requires ServedQty(customers, stock, code, i) < BalesOf(customers[i].lines, code)
    ensures ServedQty(customers, stock, code, j) == 0
  {
    WantsUpTo(customers, code, i);
    WantsGrowWith(customers, code, i + 1, j);
    TidyNotNegative(customers[j].lines, code);
  }

  // ---- The report, row by row ---------------------------------------------------------------

  lemma {:induction false} LineQtyIsBales(lines: seq<Line>, j: nat)
    requires Tidy(lines) && j < |lines|
    ensures BalesOf(lines, lines[j].code) == lines[j].qty
  {
    if j == 0 {
      NotOnShelf(lines[1..], lines[0].code);
    } else {
      LineQtyIsBales(lines[1..], j - 1);
    }
  }

  /** What is missing to customer i of its line j is reported, and nothing else. */
  ghost predicate IsShortfall(u: Unserved, customers: seq<Customer>, stock: seq<Line>, i: nat, j: nat) {
    && i < |customers| && j < |customers[i].lines|
    && var line := customers[i].lines[j];
       u == Unserved(customers[i].id, line.code,
                     line.qty - ServedQty(customers, BalesOf(stock, line.code), line.code, i))
       && u.shortfall > 0
  }

  lemma {:induction false} LineReport(customers: seq<Customer>, stock: seq<Line>, i: nat, j: nat, u: Unserved)
    requires AllTidy(customers) && i < |customers| && j < |customers[i].lines|
    ensures var line := customers[i].lines[j];
            var found := Left(BalesOf(stock, line.code), SumBy(CustomerWants(line.code), customers[..i]));
            u in Report(customers[i].id, line, Min(line.qty, found)) <==> IsShortfall(u, customers, stock, i, j)
  {
    LineQtyIsBales(customers[i].lines, j);
  }

  lemma {:induction false} LineReports(customers: seq<Customer>, stock: seq<Line>, i: nat, n: nat, u: Unserved)
    requires AllTidy(customers) && i < |customers| && n <= |customers[i].lines|
    ensures u in MissingAfter(customers[i].id, customers[i].lines[..n], stock, customers[..i])
            <==> exists j: nat :: j < n && IsShortfall(u, customers, stock, i, j)
  {
    if n > 0 {
      var lines := customers[i].lines;
      LineReports(customers, stock, i, n - 1, u);
      LineReport(customers, stock, i, n - 1, u);
      assert lines[..n][..n - 1] == lines[..n - 1];
    }
  }

  /** The unserved rows are exactly the shortfalls of the ranking. */
  lemma {:induction false} UnservedAreShortfalls(customers: seq<Customer>, stock: seq<Line>, n: nat, u: Unserved)
    requires AllTidy(customers) && n <= |customers|
    ensures u in UnservedBy(customers[..n], stock)
            <==> exists i: nat, j: nat :: i < n && IsShortfall(u, customers, stock, i, j)
  {
    if n > 0 {
      UnservedAreShortfalls(customers, stock, n - 1, u);
      assert customers[..n][..n - 1] == customers[..n - 1];
      var lines := customers[n - 1].lines;
      assert lines[..|lines|] == lines;
      LineReports(customers, stock, n - 1, |lines|, u);
      var front := UnservedBy(customers[..n - 1], stock);
      var own := MissingAfter(customers[n - 1].id, lines, stock, customers[..n - 1]);
      assert u in front + own <==> u in front || u in own;
    }
  }

  // ---- The report, added up -------------------------------------------------------------------

  function ShortOfCode(code: string): Unserved -> int {
    (u: Unserved) => if u.code == code then u.shortfall else 0
  }

  function ShortOf(id: int, code: string): Unserved -> int {
    (u: Unserved) => if u.customer == id && u.code == code then u.shortfall else 0
  }

  lemma {:induction false} ReportShort(id: int, line: Line, take: int, code: string)
    requires take <= line.qty
    ensures SumBy(ShortOfCode(code), Report(id, line, take)) == if line.code == code then line.qty - take else 0
    ensures forall other :: SumBy(ShortOf(other, code), Report(id, line, take))
                            == if other == id && line.code == code then line.qty - take else 0
  {
    var u := Unserved(id, line.code, line.qty - take);
    SumByOne(ShortOfCode(code), u);
    forall other
      ensures SumBy(ShortOf(other, code), [u]) == ShortOf(other, code)(u)
    {
      SumByOne(ShortOf(other, code), u);
    }
  }

  /** The rows reported of an article add up to what the customer does not get of it. */
  lemma {:induction false} MissingShort(id: int, lines: seq<Line>, stock: seq<Line>, before: seq<Customer>,
                                        code: string)
    requires Tidy(lines)
    ensures var missing := MissingAfter(id, lines, stock, before);
            var wants := BalesOf(lines, code);
            var short := wants - Min(wants, Left(BalesOf(stock, code), SumBy(CustomerWants(code), before)));
            && SumBy(ShortOfCode(code), missing) == short
            && forall other :: SumBy(ShortOf(other, code), missing) == if other == id then short else 0
  {
    if lines != [] {
      var n := |lines| - 1;
      var front, line := lines[..n], lines[n];
      var take := Min(line.qty, Left(BalesOf(stock, line.code), SumBy(CustomerWants(line.code), before)));
      assert lines == front + [line];
      MissingShort(id, front, stock, before, code);
      LineAppended(front, line);
      if line.code == code { NotOnShelf(front, code); }
      ReportShort(id, line, take, code);
      SumByAppend(ShortOfCode(code), MissingAfter(id, front, stock, before), Report(id, line, take));
      forall other
        ensures SumBy(ShortOf(other, code), MissingAfter(id, lines, stock, before))
                == SumBy(ShortOf(other, code), MissingAfter(id, front, stock, before))
                   + SumBy(ShortOf(other, code), Report(id, line, take))
      {
        SumByAppend(ShortOf(other, code), MissingAfter(id, front, stock, before), Report(id, line, take));
      }
    }
  }

  function WantsOf(id: int, code: string): Customer -> int {
    (c: Customer) => if c.id == id then BalesOf(c.lines, code) else 0
  }

  /** What is reported of an article, in total and for one customer, is what was
      asked for and not served. */
  lemma {:induction false} UnservedShort(customers: seq<Customer>, stock: seq<Line>, id: int, code: string)
    requires AllTidy(customers)
    ensures SumBy(ShortOfCode(code), UnservedBy(customers, stock))
            == SumBy(CustomerWants(code), customers) - ServedTotal(customers, BalesOf(stock, code), code)
    ensures SumBy(ShortOf(id, code), UnservedBy(customers, stock))
            == SumBy(WantsOf(id, code), customers) - ServedTo(customers, BalesOf(stock, code), id, code)
  {
    if customers != [] {
      var n := |customers| - 1;
      var front, c := customers[..n], customers[n];
      assert customers == front + [c];
      UnservedShort(front, stock, id, code);
      MissingShort(c.id, c.lines, stock, front, code);
      var before, own := UnservedBy(front, stock), MissingAfter(c.id, c.lines, stock, front);
      SumByAppend(ShortOfCode(code), before, own);
      SumByAppend(ShortOf(id, code), before, own);
      SumByAppend(CustomerWants(code), front, [c]);
      SumByOne(CustomerWants(code), c);
      SumByAppend(WantsOf(id, code), front, [c]);
      SumByOne(WantsOf(id, code), c);
    }
  }

  /** Where a customer stands once in the ranking, its figures are those of its place. */
  lemma {:induction false} OwnPlace(customers: seq<Customer>, stock: int, code: string, i: nat)
    requires OneEach(customers) && i < |customers|
    ensures ServedTo(customers, stock, customers[i].id, code) == ServedQty(customers, stock, code, i)
    ensures SumBy(WantsOf(customers[i].id, code), customers) == BalesOf(customers[i].lines, code)
  {
    var n := |customers| - 1;
    var front, c, id := customers[..n], customers[n], customers[i].id;
    assert customers == front + [c];
    SumByAppend(WantsOf(id, code), front, [c]);
    SumByOne(WantsOf(id, code), c);
    if i < n {
      OwnPlace(front, stock, code, i);
      assert front[..i] == customers[..i];
    } else {
      NoPlace(front, stock, id, code);
    }
  }

  lemma {:induction false} NoPlace(customers: seq<Customer>, stock: int, id: int, code: string)
    requires forall i :: 0 <= i < |customers| ==> customers[i].id != id
    ensures ServedTo(customers, stock, id, code) == 0 && SumBy(WantsOf(id, code), customers) == 0
  {
    SumByZero(WantsOf(id, code), customers);
    if customers != [] { NoPlace(customers[..|customers| - 1], stock, id, code); }
  }

  // ---- Against the demand rows ----------------------------------------------------------

  function RowWants(code: string): DemandRow -> int {
    (row: DemandRow) => if row.code == code then NonNegative(row.qty) else 0
  }

  function AllWants(): DemandRow -> int { (row: DemandRow) => NonNegative(row.qty) }

  lemma {:induction false} UpsertWants(cs: seq<Customer>, row: DemandRow, qty: int, id: int, code: string)
    requires qty > 0 && AllTidy(cs)
    ensures SumBy(CustomerWants(code), Upsert(cs, row, qty))
            == SumBy(CustomerWants(code), cs) + if row.code == code then qty else 0
    ensures SumBy(WantsOf(id, code), Upsert(cs, row, qty))
            == SumBy(WantsOf(id, code), cs) + if row.customer == id && row.code == code then qty else 0
    ensures SumBy(CustomerBales(), Upsert(cs, row, qty)) == SumBy(CustomerBales(), cs) + qty
  {
    if cs == [] {
      OneLine(Line(row.code, RowName(row), qty));
    } else if cs[0].id == row.customer {
      MergedHolds(cs[0].lines, row.code, RowName(row), qty);
      assert Upsert(cs, row, qty)[1..] == cs[1..];
    } else {
      UpsertWants(cs[1..], row, qty, id, code);
      assert Upsert(cs, row, qty)[1..] == Upsert(cs[1..], row, qty);
    }
  }

  lemma {:induction false} GroupedWants(demand: seq<DemandRow>, id: int, code: string)
    ensures SumBy(CustomerWants(code), Grouped(demand)) == SumBy(RowWants(code), demand)
    ensures SumBy(WantsOf(id, code), Grouped(demand)) == SumBy(Wanted(id, code), demand)
    ensures SumBy(CustomerBales(), Grouped(demand)) == SumBy(AllWants(), demand)
  {
    if demand != [] {
      var front, row := demand[..|demand| - 1], demand[|demand| - 1];
      GroupedWants(front, id, code);
      GroupedIsFaithful(front);
      assert demand == front + [row];
      SumByAppend(RowWants(code), front, [row]);
      SumByOne(RowWants(code), row);
      SumByAppend(Wanted(id, code), front, [row]);
      SumByOne(Wanted(id, code), row);
      SumByAppend(AllWants(), front, [row]);
      SumByOne(AllWants(), row);
      if NonNegative(row.qty) > 0 {
        assert forall i :: 0 <= i < |Grouped(front)| ==> Faithful(Grouped(front)[i], front);
        UpsertWants(Grouped(front), row, NonNegative(row.qty), id, code);
      }
    }
  }

  lemma {:induction false} RankedWants(demand: seq<DemandRow>, le: (string, string) -> bool, id: int, code: string)
    ensures AllTidy(Ranked(demand, le)) && OneEach(Ranked(demand, le))
    ensures SumBy(CustomerWants(code), Ranked(demand, le)) == SumBy(RowWants(code), demand)
    ensures SumBy(WantsOf(id, code), Ranked(demand, le)) == SumBy(Wanted(id, code), demand)
    ensures SumBy(CustomerBales(), Ranked(demand, le)) == SumBy(AllWants(), demand)
  {
    var ranked := Ranked(demand, le);
    RankedIsFaithful(demand, le);
    GroupedIsFaithful(demand);
    RankedIsPermutation(demand, le);
    SumByPermutation(CustomerWants(code), ranked, Grouped(demand));
    SumByPermutation(WantsOf(id, code), ranked, Grouped(demand));
    SumByPermutation(CustomerBales(), ranked, Grouped(demand));
    GroupedWants(demand, id, code);
    assert forall i :: 0 <= i < |ranked| ==> Faithful(ranked[i], demand);
  }

  lemma {:induction false} StockNotNegative(rows: seq<StockRow>, code: string)
    ensures SumBy(StockOf(code), rows) >= 0
  {
    if rows != [] { StockNotNegative(rows[1..], code); }
  }
}
