/** The recommended layout: customers first in rank order, then single-product
    containers, then everything left over merged. */
module ContainerOptimizer {
  import opened Standard
  import opened Sorting
  import opened ContainerPlanner
  import opened ContainerPacking
  import opened ContainerDemand

  datatype StockRow = StockRow(code: string, name: string, available: int)

  datatype Kind = ForCustomer(id: int) | SingleProduct | Mixed
  datatype Suggested = Suggested(kind: Kind, lines: seq<Line>)
  datatype Unserved = Unserved(customer: int, code: string, shortfall: int)

  // ---- Measures ---------------------------------------------------------------------

  /** Free bales of an article over the stock rows; a row without a code is skipped. */
  function StockOf(code: string): StockRow -> int {
    (row: StockRow) => if row.code == code && code != "" then NonNegative(row.available) else 0
  }

  function AllStock(): StockRow -> int {
    (row: StockRow) => if row.code != "" then NonNegative(row.available) else 0
  }

  function ContainerBales(): Suggested -> int { (s: Suggested) => Bales(s.lines) }

  function ContainerBalesOf(code: string): Suggested -> int { (s: Suggested) => BalesOf(s.lines, code) }

  /** What the containers reserved for a customer hold of an article. */
  function ReservedFor(id: int, code: string): Suggested -> int {
    (s: Suggested) => if s.kind == ForCustomer(id) then BalesOf(s.lines, code) else 0
  }

  /** Counts the containers reserved for a customer. */
  function Owned(id: int): Suggested -> int { (s: Suggested) => if s.kind == ForCustomer(id) then 1 else 0 }

  function CustomerWants(code: string): Customer -> int { (c: Customer) => BalesOf(c.lines, code) }

  /** What is left to promise of an article once the first customers are served. */
  function Left(stock: int, wantedBefore: int): int { Max(stock - wantedBefore, 0) }

  function Short(): Unserved -> int { (u: Unserved) => u.shortfall }

  function CustomerBales(): Customer -> int { (c: Customer) => Bales(c.lines) }

  /** What the customer with the id gets of an article when the stock is promised in order. */
  function ServedTo(customers: seq<Customer>, stock: int, id: int, code: string): int {
    if customers == [] then 0
    else
      var n := |customers| - 1;
      ServedTo(customers[..n], stock, id, code)
      + if customers[n].id == id then
          Min(BalesOf(customers[n].lines, code), Left(stock, SumBy(CustomerWants(code), customers[..n])))
        else 0
  }

  // ---- The stock map ------------------------------------------------------------------

  /** Articles once each; a quantity may be used up. */
  ghost predicate Shelf(lines: seq<Line>) {
    && (forall i :: 0 <= i < |lines| ==> lines[i].qty >= 0)
    && (forall i, j :: 0 <= i < j < |lines| ==> lines[i].code != lines[j].code)
  }

  function Renamed(lines: seq<Line>, code: string, name: string): seq<Line> {
    if lines == [] then []
    else if lines[0].code == code then [lines[0].(name := name)] + lines[1..]
    else [lines[0]] + Renamed(lines[1..], code, name)
  }

  lemma {:induction false} RenamedAt(lines: seq<Line>, code: string, name: string, c: string)
    ensures |Renamed(lines, code, name)| == |lines|
    ensures forall i :: 0 <= i < |lines| ==>
              Renamed(lines, code, name)[i].code == lines[i].code && Renamed(lines, code, name)[i].qty == lines[i].qty
    ensures BalesOf(Renamed(lines, code, name), c) == BalesOf(lines, c)
    ensures Bales(Renamed(lines, code, name)) == Bales(lines)
  {
    if lines != [] {
      if lines[0].code == code {
        assert ([lines[0].(name := name)] + lines[1..])[1..] == lines[1..];
      } else {
        RenamedAt(lines[1..], code, name, c);
        var rest := Renamed(lines[1..], code, name);
        assert ([lines[0]] + rest)[1..] == rest;
      }
    }
  }

  lemma {:induction false} RenamedHolds(lines: seq<Line>, code: string, name: string)
    requires Tidy(lines)
    ensures Tidy(Renamed(lines, code, name))
    ensures forall c :: BalesOf(Renamed(lines, code, name), c) == BalesOf(lines, c)
    ensures Bales(Renamed(lines, code, name)) == Bales(lines)
  {
    forall c {
      RenamedAt(lines, code, name, c);
    }
    RenamedAt(lines, code, name, code);
  }

  lemma {:induction false} StockAppended(rows: seq<StockRow>, row: StockRow)
    ensures forall code :: SumBy(StockOf(code), rows + [row]) == SumBy(StockOf(code), rows) + StockOf(code)(row)
    ensures SumBy(AllStock(), rows + [row]) == SumBy(AllStock(), rows) + AllStock()(row)
  {
    forall code
      ensures SumBy(StockOf(code), rows + [row]) == SumBy(StockOf(code), rows) + StockOf(code)(row)
    {
      SumByAppend(StockOf(code), rows, [row]);
      SumByOne(StockOf(code), row);
    }
    SumByAppend(AllStock(), rows, [row]);
    SumByOne(AllStock(), row);
  }

  predicate Counts(row: StockRow) { row.available > 0 && row.code != "" }

  /** The row counts for the article and gives it a name. */
  predicate NamesArticle(row: StockRow, code: string) {
    row.code == code && code != "" && row.available > 0 && row.name != ""
  }

  /** An article goes by the last name its rows give it, or else by its code. */
  ghost predicate IsStockName(rows: seq<StockRow>, code: string, name: string) {
    || (exists j :: 0 <= j < |rows| && LastNaming(rows, j, code) && rows[j].name == name)
    || (name == code && forall j :: 0 <= j < |rows| ==> !NamesArticle(rows[j], code))
  }

  ghost predicate LastNaming(rows: seq<StockRow>, j: nat, code: string)
    requires j < |rows|
  {
    NamesArticle(rows[j], code) && forall k :: j < k < |rows| ==> !NamesArticle(rows[k], code)
  }

  ghost predicate StockNames(rows: seq<StockRow>, lines: seq<Line>) {
    forall i {:trigger IsStockName(rows, lines[i].code, lines[i].name)} ::
      0 <= i < |lines| ==> IsStockName(rows, lines[i].code, lines[i].name)
  }

  ghost predicate NamesUpTo(rows: seq<StockRow>, n: nat, lines: seq<Line>)
    requires n <= |rows|
  {
    && StockNames(rows[..n], lines)
    && forall j {:trigger OnShelf(lines, rows[j].code)} ::
         0 <= j < n && Counts(rows[j]) ==> OnShelf(lines, rows[j].code)
  }

  ghost predicate OnShelf(lines: seq<Line>, code: string) { exists i :: 0 <= i < |lines| && lines[i].code == code }

  lemma {:induction false} StockNameNext(rows: seq<StockRow>, row: StockRow, code: string, name: string)
    requires IsStockName(rows, code, name)
    ensures IsStockName(rows + [row], code, if NamesArticle(row, code) then row.name else name)
  {
    var more := rows + [row];
    if NamesArticle(row, code) {
      assert LastNaming(more, |rows|, code) && more[|rows|].name == row.name;
    } else if exists j :: 0 <= j < |rows| && LastNaming(rows, j, code) && rows[j].name == name {
      var j :| 0 <= j < |rows| && LastNaming(rows, j, code) && rows[j].name == name;
      assert LastNaming(more, j, code) && more[j].name == name;
    }
  }

  lemma {:induction false} NewStockName(rows: seq<StockRow>, row: StockRow)
    requires row.code != "" && row.available > 0
    requires forall j :: 0 <= j < |rows| && rows[j].available > 0 ==> rows[j].code != row.code
    ensures IsStockName(rows + [row], row.code, if row.name == "" then row.code else row.name)
  {
    StockNameNext(rows, row, row.code, row.code);
  }

  lemma {:induction false} RenamedNames(lines: seq<Line>, code: string, name: string)
    requires forall i, j :: 0 <= i < j < |lines| ==> lines[i].code != lines[j].code
    ensures |Renamed(lines, code, name)| == |lines|
    ensures forall i :: 0 <= i < |lines| ==>
              Renamed(lines, code, name)[i].code == lines[i].code
              && Renamed(lines, code, name)[i].name == if lines[i].code == code then name else lines[i].name
  {
    if lines != [] && lines[0].code != code { RenamedNames(lines[1..], code, name); }
  }

  /** What a counted row makes of the shelf. */
  function Stocked(lines: seq<Line>, row: StockRow): seq<Line> {
    var merged := Merged(lines, row.code, if row.name == "" then row.code else row.name, NonNegative(row.available));
    if row.name != "" then Renamed(merged, row.code, row.name) else merged
  }

  lemma {:induction false} StockedNames(rows: seq<StockRow>, n: nat, lines: seq<Line>)
    requires n < |rows| && Tidy(lines) && NamesUpTo(rows, n, lines) && Counts(rows[n])
    ensures NamesUpTo(rows, n + 1, Stocked(lines, rows[n]))
  {
    var row, next := rows[n], Stocked(lines, rows[n]);
    PrefixNext(rows, n);
    StockedShape(lines, row);
    forall i | 0 <= i < |next|
      ensures IsStockName(rows[..n] + [row], next[i].code, next[i].name)
    {
      if i < |lines| {
        assert IsStockName(rows[..n], lines[i].code, lines[i].name);
        StockNameNext(rows[..n], row, lines[i].code, lines[i].name);
      } else {
        NotYetStocked(rows, n, lines, row.code);
        NewStockName(rows[..n], row);
      }
    }
    MergedOnShelf(lines, row, next);
    forall j | 0 <= j < n + 1 && Counts(rows[j])
      ensures OnShelf(next, rows[j].code)
    {
      if j < n {
        assert OnShelf(lines, rows[j].code);
        StillOnShelf(lines, next, rows[j].code);
      }
    }
  }

  /** The lines there are keep their places, under the name the row gives its article if it
      gives one; a new article comes at the end. */
  lemma {:induction false} StockedShape(lines: seq<Line>, row: StockRow)
    requires Tidy(lines) && Counts(row)
    ensures var next := Stocked(lines, row);
            && |lines| <= |next| <= |lines| + 1
            && (forall i :: 0 <= i < |lines| ==>
                  next[i].code == lines[i].code
                  && next[i].name == if NamesArticle(row, lines[i].code) then row.name else lines[i].name)
            && (|next| > |lines| ==>
                  && next[|lines|].code == row.code
                  && next[|lines|].name == (if row.name == "" then row.code else row.name)
                  && forall i :: 0 <= i < |lines| ==> lines[i].code != row.code)
  {
    var name := if row.name == "" then row.code else row.name;
    MergedShape(lines, row.code, name, row.available);
    MergedHolds(lines, row.code, name, row.available);
    RenamedNames(Merged(lines, row.code, name, row.available), row.code, row.name);
  }

  lemma {:induction false} NotYetStocked(rows: seq<StockRow>, n: nat, lines: seq<Line>, code: string)
    requires n < |rows| && NamesUpTo(rows, n, lines) && code != ""
    requires forall i :: 0 <= i < |lines| ==> lines[i].code != code
    ensures forall j :: 0 <= j < n && rows[j].available > 0 ==> rows[j].code != code
  {
    forall j | 0 <= j < n && rows[j].available > 0
      ensures rows[j].code != code
    {
      assert Counts(rows[j]) ==> OnShelf(lines, rows[j].code);
    }
  }

  lemma {:induction false} StillOnShelf(lines: seq<Line>, next: seq<Line>, code: string)
    requires OnShelf(lines, code) && |lines| <= |next| && forall i :: 0 <= i < |lines| ==> next[i].code == lines[i].code
    ensures OnShelf(next, code)
  {
    var i :| 0 <= i < |lines| && lines[i].code == code;
    assert next[i].code == code;
  }

  lemma {:induction false} MergedOnShelf(lines: seq<Line>, row: StockRow, next: seq<Line>)
    requires Tidy(lines) && row.available > 0 && next == Stocked(lines, row)
    ensures OnShelf(next, row.code)
  {
    var name := if row.name == "" then row.code else row.name;
    var merged := Merged(lines, row.code, name, row.available);
    MergedHolds(lines, row.code, name, row.available);
    RenamedNames(merged, row.code, row.name);
    TidyNotNegative(lines, row.code);
    assert BalesOf(merged, row.code) > 0;
    if !OnShelf(merged, row.code) { NotOnShelf(merged, row.code); }
    var i :| 0 <= i < |merged| && merged[i].code == row.code;
    assert next[i].code == row.code;
  }

  lemma {:induction false} SkippedNames(rows: seq<StockRow>, n: nat, lines: seq<Line>)
    requires n < |rows| && NamesUpTo(rows, n, lines) && !Counts(rows[n])
    ensures NamesUpTo(rows, n + 1, lines)
  {
    PrefixNext(rows, n);
    forall i | 0 <= i < |lines|
      ensures IsStockName(rows[..n] + [rows[n]], lines[i].code, lines[i].name)
    {
      assert IsStockName(rows[..n], lines[i].code, lines[i].name);
      StockNameNext(rows[..n], rows[n], lines[i].code, lines[i].name);
    }
  }

  /** The first n rows are on the shelf. */
  ghost predicate ShelvedUpTo(rows: seq<StockRow>, n: nat, lines: seq<Line>)
    requires n <= |rows|
  {
    && Tidy(lines) && NamesUpTo(rows, n, lines)
    && (forall code :: BalesOf(lines, code) == SumBy(StockOf(code), rows[..n]))
    && Bales(lines) == SumBy(AllStock(), rows[..n])
  }

  lemma {:induction false} ShelveNext(rows: seq<StockRow>, n: nat, lines: seq<Line>)
    requires n < |rows| && ShelvedUpTo(rows, n, lines)
    ensures ShelvedUpTo(rows, n + 1, if Counts(rows[n]) then Stocked(lines, rows[n]) else lines)
  {
    PrefixNext(rows, n);
    StockAppended(rows[..n], rows[n]);
    if Counts(rows[n]) {
      StockedNames(rows, n, lines);
      StockedHolds(lines, rows[n]);
    } else {
      SkippedNames(rows, n, lines);
    }
  }

  lemma {:induction false} StockedHolds(lines: seq<Line>, row: StockRow)
    requires Tidy(lines) && Counts(row)
    ensures Tidy(Stocked(lines, row)) && Bales(Stocked(lines, row)) == Bales(lines) + row.available
    ensures forall code :: BalesOf(Stocked(lines, row), code)
                           == BalesOf(lines, code) + if code == row.code then row.available else 0
  {
    var name := if row.name == "" then row.code else row.name;
    MergedHolds(lines, row.code, name, row.available);
    RenamedHolds(Merged(lines, row.code, name, row.available), row.code, row.name);
  }

  method CollectStock(rows: seq<StockRow>) returns (available: seq<Line>)
    ensures Tidy(available) && StockNames(rows, available)
    ensures forall code :: BalesOf(available, code) == SumBy(StockOf(code), rows)
    ensures Bales(available) == SumBy(AllStock(), rows)
  {
    available := [];
    var i := 0;
    while i < |rows|
      invariant 0 <= i <= |rows| && ShelvedUpTo(rows, i, available)
    {
      var row := rows[i];
      var qty := NonNegative(row.available);
      ShelveNext(rows, i, available);
      i := i + 1;
      if qty <= 0 || row.code == "" { continue; }
      available := Merged(available, row.code, if row.name == "" then row.code else row.name, qty);
      if row.name != "" { available := Renamed(available, row.code, row.name); }
    }
    assert rows[..i] == rows;
  }

  // ---- Serving one customer --------------------------------------------------------------

  function TakenFrom(lines: seq<Line>, code: string, take: int): seq<Line> {
    if lines == [] then []
    else if lines[0].code == code then [lines[0].(qty := lines[0].qty - take)] + lines[1..]
    else [lines[0]] + TakenFrom(lines[1..], code, take)
  }

  lemma {:induction false} NotOnShelf(lines: seq<Line>, code: string)
    requires forall i :: 0 <= i < |lines| ==> lines[i].code != code
    ensures BalesOf(lines, code) == 0
  {
    if lines != [] { NotOnShelf(lines[1..], code); }
  }

  /** The same articles under the same names, whatever is there of them. */
  ghost predicate SameArticles(lines: seq<Line>, others: seq<Line>) {
    && |lines| == |others|
    && forall i :: 0 <= i < |lines| ==> lines[i].code == others[i].code && lines[i].name == others[i].name
  }

  lemma {:induction false} TakenHolds(lines: seq<Line>, code: string, take: int, c: string)
    requires Shelf(lines) && 0 <= take <= BalesOf(lines, code)
    ensures Shelf(TakenFrom(lines, code, take)) && |TakenFrom(lines, code, take)| == |lines|
    ensures SameArticles(TakenFrom(lines, code, take), lines)
    ensures BalesOf(TakenFrom(lines, code, take), c) == BalesOf(lines, c) - if c == code then take else 0
    ensures Bales(TakenFrom(lines, code, take)) == Bales(lines) - take
  {
    if lines != [] {
      if lines[0].code == code {
        NotOnShelf(lines[1..], code);
        assert ([lines[0].(qty := lines[0].qty - take)] + lines[1..])[1..] == lines[1..];
      } else {
        TakenHolds(lines[1..], code, take, c);
        var rest := TakenFrom(lines[1..], code, take);
        assert ([lines[0]] + rest)[1..] == rest;
      }
    }
  }

  /** Taking at most what is there touches the one article. */
  lemma {:induction false} TakenEverywhere(lines: seq<Line>, code: string, take: int)
    requires Shelf(lines) && 0 <= take <= BalesOf(lines, code)
    ensures Shelf(TakenFrom(lines, code, take)) && SameArticles(TakenFrom(lines, code, take), lines)
    ensures forall c :: BalesOf(TakenFrom(lines, code, take), c) == BalesOf(lines, c) - if c == code then take else 0
    ensures Bales(TakenFrom(lines, code, take)) == Bales(lines) - take
  {
    forall c {
      TakenHolds(lines, code, take, c);
    }
    TakenHolds(lines, code, take, code);
  }

  /** The shortfall of a line that got `take`, reported when there is one. */
  function Report(id: int, line: Line, take: int): seq<Unserved> {
    if take < line.qty then [Unserved(id, line.code, line.qty - take)] else []
  }

  /** What the customer's lines miss, each against the stock it found. */
  function Missing(id: int, lines: seq<Line>, found: seq<Line>): seq<Unserved> {
    if lines == [] then []
    else
      var line := lines[|lines| - 1];
      Missing(id, lines[..|lines| - 1], found) + Report(id, line, Min(line.qty, BalesOf(found, line.code)))
  }

  /** What the customer is given of a line. */
  function Given(line: Line, take: int): seq<Line> {
    if take > 0 then [Line(line.code, line.name, take)] else []
  }

  /** What the customer's lines get, each from the stock it found. */
  function Servable(lines: seq<Line>, found: seq<Line>): seq<Line> {
    if lines == [] then []
    else
      var line := lines[|lines| - 1];
      Servable(lines[..|lines| - 1], found) + Given(line, Min(line.qty, BalesOf(found, line.code)))
  }

  lemma {:induction false} ShelfNotNegative(lines: seq<Line>, code: string)
    requires Shelf(lines)
    ensures 0 <= BalesOf(lines, code) <= Bales(lines)
  {
    if lines != [] { ShelfNotNegative(lines[1..], code); }
  }

  /** The customer's first lines are served: the shelf gave what it had of each. */
  ghost predicate Served(lines: seq<Line>, before: seq<Line>, available: seq<Line>, servable: seq<Line>) {
    && Shelf(available) && SameArticles(available, before) && Tidy(servable)
    && (forall code :: BalesOf(available, code) == Left(BalesOf(before, code), BalesOf(lines, code)))
    && (forall code :: BalesOf(servable, code) == BalesOf(before, code) - BalesOf(available, code))
    && Bales(servable) == Bales(before) - Bales(available)
  }

  lemma {:induction false} NotAmong(lines: seq<Line>, code: string)
    requires Tidy(lines) && BalesOf(lines, code) == 0
    ensures forall i :: 0 <= i < |lines| ==> lines[i].code != code
  {
    if lines != [] {
      TidyNotNegative(lines[1..], code);
      NotAmong(lines[1..], code);
    }
  }

  lemma {:induction false} TidyNotNegative(lines: seq<Line>, code: string)
    requires Tidy(lines)
    ensures BalesOf(lines, code) >= 0
  {
    if lines != [] { TidyNotNegative(lines[1..], code); }
  }

  /** The customer's first i lines are served: what the shelf gave, and what is
      reported missing. */
  ghost predicate ServedUpTo(c: Customer, i: nat, before: seq<Line>, available: seq<Line>, servable: seq<Line>,
                             missing: seq<Unserved>)
    requires i <= |c.lines|
  {
    && Served(c.lines[..i], before, available, servable)
    && missing == Missing(c.id, c.lines[..i], before)
    && servable == Servable(c.lines[..i], before)
    && SumBy(Short(), missing) + Bales(servable) == Bales(c.lines[..i])
  }

  /** What serving a line does to the shelf and to what the customer gets. */
  lemma {:induction false} LineServed(line: Line, lines: seq<Line>, before: seq<Line>, available: seq<Line>,
                                      servable: seq<Line>)
    requires Served(lines, before, available, servable) && Shelf(before)
    requires line.qty > 0 && forall k :: 0 <= k < |lines| ==> lines[k].code != line.code
    ensures BalesOf(available, line.code) == BalesOf(before, line.code) >= 0
    ensures var take := Min(line.qty, BalesOf(before, line.code));
            if take > 0 then
              && Served(lines + [line], before, TakenFrom(available, line.code, take),
                        servable + [Line(line.code, line.name, take)])
              && Bales(servable + [Line(line.code, line.name, take)]) == Bales(servable) + take
            else Served(lines + [line], before, available, servable)
  {
    NotOnShelf(lines, line.code);
    ShelfAll(before);
    LineAppended(lines, line);
    var take := Min(line.qty, BalesOf(before, line.code));
    if take > 0 {
      NotAmong(servable, line.code);
      LineAppended(servable, Line(line.code, line.name, take));
      TakenEverywhere(available, line.code, take);
    }
  }

  /** A line takes what it can, of what the shelf held before the customer's turn. */
  method ServeLine(line: Line, ghost lines: seq<Line>, ghost before: seq<Line>,
                   available0: seq<Line>, servable0: seq<Line>)
    returns (take: int, available: seq<Line>, servable: seq<Line>)
    requires Served(lines, before, available0, servable0) && Shelf(before)
    requires line.qty > 0 && forall k :: 0 <= k < |lines| ==> lines[k].code != line.code
    ensures take == Min(line.qty, BalesOf(before, line.code))
    ensures servable == servable0 + Given(line, take)
    ensures Served(lines + [line], before, available, servable) && Bales(servable) == Bales(servable0) + take
  {
    available, servable := available0, servable0;
    LineServed(line, lines, before, available, servable);
    take := Min(line.qty, BalesOf(available, line.code));
    if take > 0 {
      servable := servable + [Line(line.code, line.name, take)];
      available := TakenFrom(available, line.code, take);
    }
  }

  lemma {:induction false} LineReported(id: int, lines: seq<Line>, line: Line, found: seq<Line>, take: int)
    requires line.qty > 0 && take == Min(line.qty, BalesOf(found, line.code))
    ensures var missing := Missing(id, lines, found);
            && Missing(id, lines + [line], found) == missing + Report(id, line, take)
            && SumBy(Short(), missing + Report(id, line, take)) == SumBy(Short(), missing) + line.qty - take
    ensures Servable(lines + [line], found) == Servable(lines, found) + Given(line, take)
    ensures Bales(lines + [line]) == Bales(lines) + line.qty
  {
    assert (lines + [line])[..|lines|] == lines;
    SumByAppend(Short(), Missing(id, lines, found), Report(id, line, take));
    if take < line.qty { SumByOne(Short(), Unserved(id, line.code, line.qty - take)); }
    LineAppended(lines, line);
  }

  method ServeCustomer(c: Customer, available0: seq<Line>)
    returns (servable: seq<Line>, available: seq<Line>, missing: seq<Unserved>)
    requires Tidy(c.lines) && Shelf(available0)
    ensures Served(c.lines, available0, available, servable)
    ensures missing == Missing(c.id, c.lines, available0) && servable == Servable(c.lines, available0)
    ensures SumBy(Short(), missing) + Bales(servable) == Bales(c.lines)
  {
    servable, available, missing := [], available0, [];
    NothingServed(available0);
    var i := 0;
    while i < |c.lines|
      invariant 0 <= i <= |c.lines| && ServedUpTo(c, i, available0, available, servable, missing)
    {
      var line := c.lines[i];
      var take;
      PrefixNext(c.lines, i);
      take, available, servable := ServeLine(line, c.lines[..i], available0, available, servable);
      LineReported(c.id, c.lines[..i], line, available0, take);
      missing := missing + Report(c.id, line, take);
      i := i + 1;
    }
    assert c.lines[..i] == c.lines;
  }

  lemma {:induction false} NothingServed(before: seq<Line>)
    requires Shelf(before)
    ensures Served([], before, before, [])
  {
    ShelfAll(before);
    assert forall code :: BalesOf([], code) == 0;
  }

  lemma {:induction false} ShelfAll(lines: seq<Line>)
    requires Shelf(lines)
    ensures forall code :: 0 <= BalesOf(lines, code) <= Bales(lines)
  {
    forall code {
      ShelfNotNegative(lines, code);
    }
  }

  // ---- Laying out containers -----------------------------------------------------------

  ghost predicate AllFull(containers: seq<Suggested>, capacity: int) {
    forall k :: 0 <= k < |containers| ==> Bales(containers[k].lines) == capacity
  }

  lemma {:induction false} ContainerAppended(containers: seq<Suggested>, s: Suggested)
    ensures forall code :: SumBy(ContainerBalesOf(code), containers + [s])
                           == SumBy(ContainerBalesOf(code), containers) + BalesOf(s.lines, code)
    ensures SumBy(ContainerBales(), containers + [s]) == SumBy(ContainerBales(), containers) + Bales(s.lines)
    ensures forall id, code :: SumBy(ReservedFor(id, code), containers + [s])
                               == SumBy(ReservedFor(id, code), containers)
                                  + if s.kind == ForCustomer(id) then BalesOf(s.lines, code) else 0
    ensures forall id :: SumBy(Owned(id), containers + [s]) == SumBy(Owned(id), containers) + Owned(id)(s)
  {
    forall id
      ensures SumBy(Owned(id), containers + [s]) == SumBy(Owned(id), containers) + Owned(id)(s)
    {
      SumByAppend(Owned(id), containers, [s]);
      SumByOne(Owned(id), s);
    }
    forall code
      ensures SumBy(ContainerBalesOf(code), containers + [s])
              == SumBy(ContainerBalesOf(code), containers) + BalesOf(s.lines, code)
    {
      SumByAppend(ContainerBalesOf(code), containers, [s]);
      SumByOne(ContainerBalesOf(code), s);
    }
    forall id, code
      ensures SumBy(ReservedFor(id, code), containers + [s])
              == SumBy(ReservedFor(id, code), containers)
                 + if s.kind == ForCustomer(id) then BalesOf(s.lines, code) else 0
    {
      SumByAppend(ReservedFor(id, code), containers, [s]);
      SumByOne(ReservedFor(id, code), s);
    }
    SumByAppend(ContainerBales(), containers, [s]);
    SumByOne(ContainerBales(), s);
  }

  lemma {:induction false} LinesAppended(lines: seq<Line>, more: seq<Line>)
    ensures forall code :: BalesOf(lines + more, code) == BalesOf(lines, code) + BalesOf(more, code)
    ensures Bales(lines + more) == Bales(lines) + Bales(more)
  {
    forall code
      ensures BalesOf(lines + more, code) == BalesOf(lines, code) + BalesOf(more, code)
    {
      SumByAppend(LineQtyOf(code), lines, more);
    }
    SumByAppend(LineQty(), lines, more);
  }

  ghost predicate PositiveLines(lines: seq<Line>) {
    forall i :: 0 <= i < |lines| ==> lines[i].qty > 0
  }

  function FullPack(capacity: int): seq<Line> -> int {
    (pack: seq<Line>) => if Bales(pack) < capacity then 0 else 1
  }

  /** How many containers a number of bales fills. */
  function Fills(bales: int, capacity: int): nat
    requires capacity > 0
    decreases bales
  {
    if bales < capacity then 0 else 1 + Fills(bales - capacity, capacity)
  }

  /** As many packs are full as their bales fill. */
  lemma {:induction false} FullPacks(packs: seq<seq<Line>>, capacity: int)
    requires capacity > 0 && FullButLast(packs, capacity)
    ensures SumBy(FullPack(capacity), packs) == Fills(SumBy(PackBales(), packs), capacity)
    ensures SumBy(PackBales(), packs) >= 0
  {
    if packs != [] {
      var rest := packs[1..];
      assert rest != [] ==> rest[|rest| - 1] == packs[|packs| - 1];
      FullPacks(rest, capacity);
    }
  }

  /** The bales of the containers one by one, in order. */
  function LoadOf(containers: seq<Suggested>): seq<Line> {
    if containers == [] then []
    else
      var n := |containers| - 1;
      LoadOf(containers[..n]) + Unpacked(containers[n].lines)
  }

  lemma {:induction false} LoadNext(containers: seq<Suggested>, s: Suggested)
    ensures LoadOf(containers + [s]) == LoadOf(containers) + Unpacked(s.lines)
  {
    assert (containers + [s])[..|containers|] == containers;
  }

  function OwnPack(id: int, pack: seq<Line>, capacity: int): seq<Suggested> {
    if Bales(pack) < capacity then [] else [Suggested(ForCustomer(id), pack)]
  }

  /** The containers of its own a customer gets of its packs. */
  function OwnOf(id: int, packs: seq<seq<Line>>, capacity: int): seq<Suggested> {
    if packs == [] then []
    else
      var n := |packs| - 1;
      OwnOf(id, packs[..n], capacity) + OwnPack(id, packs[n], capacity)
  }

  /** A run of containers of one customer that unload to the first of its bales. */
  ghost predicate Section(part: seq<Suggested>, id: int, lines: seq<Line>) {
    && (forall k :: 0 <= k < |part| ==> part[k].kind == ForCustomer(id))
    && LoadOf(part) <= Unpacked(lines)
  }

  lemma {:induction false} OwnOfFull(id: int, packs: seq<seq<Line>>, capacity: int)
    requires forall k :: 0 <= k < |packs| ==> Bales(packs[k]) == capacity
    ensures LoadOf(OwnOf(id, packs, capacity)) == AllUnpacked(packs)
  {
    if packs != [] {
      var n := |packs| - 1;
      OwnOfFull(id, packs[..n], capacity);
      LoadNext(OwnOf(id, packs[..n], capacity), Suggested(ForCustomer(id), packs[n]));
    }
  }

  lemma {:induction false} OwnOfSize(id: int, packs: seq<seq<Line>>, capacity: int)
    ensures |OwnOf(id, packs, capacity)| == SumBy(FullPack(capacity), packs)
    ensures forall k :: 0 <= k < |OwnOf(id, packs, capacity)| ==> OwnOf(id, packs, capacity)[k].kind == ForCustomer(id)
  {
    if packs != [] {
      var n := |packs| - 1;
      assert packs == packs[..n] + [packs[n]];
      OwnOfSize(id, packs[..n], capacity);
      SumByAppend(FullPack(capacity), packs[..n], [packs[n]]);
      SumByOne(FullPack(capacity), packs[n]);
    }
  }

  /** Only a last pack that is not full is held back. */
  lemma {:induction false} OwnOfFirst(id: int, packs: seq<seq<Line>>, capacity: int, lines: seq<Line>)
    requires FullButLast(packs, capacity) && AllUnpacked(packs) == Unpacked(lines)
    ensures Section(OwnOf(id, packs, capacity), id, lines)
  {
    OwnOfSize(id, packs, capacity);
    if packs != [] {
      var n := |packs| - 1;
      OwnOfFull(id, packs[..n], capacity);
      if Bales(packs[n]) == capacity {
        OwnOfFull(id, packs, capacity);
      } else {
        assert OwnOf(id, packs, capacity) == OwnOf(id, packs[..n], capacity);
        assert AllUnpacked(packs) == AllUnpacked(packs[..n]) + Unpacked(packs[n]);
      }
    }
  }

  lemma {:induction false} NextMultiple(index: int, capacity: int)
    ensures index * capacity == (index - 1) * capacity + capacity
  {
  }

  lemma {:induction false} MultipleBound(d: int, capacity: int)
    requires capacity > 0
    ensures d >= 1 ==> d * capacity >= capacity
    ensures d <= -1 ==> d * capacity <= -capacity
  {
  }

  lemma {:induction false} QuotientIs(total: int, q: int, r: int, capacity: int)
    requires capacity > 0 && total == q * capacity + r && 0 <= r < capacity
    ensures total / capacity == q && total % capacity == r
  {
    var d := total / capacity - q;
    assert total == (total / capacity) * capacity + total % capacity;
    assert (total / capacity) * capacity == q * capacity + d * capacity;
    assert d * capacity == r - total % capacity;
    MultipleBound(d, capacity);
  }

  /** The containers a number of bales fills are the whole part of the quotient. */
  lemma {:induction false} FillsIsQuotient(bales: int, capacity: int)
    requires capacity > 0 && bales >= 0
    ensures Fills(bales, capacity) == bales / capacity
    decreases bales
  {
    if bales < capacity {
      QuotientIs(bales, 0, bales, capacity);
    } else {
      FillsIsQuotient(bales - capacity, capacity);
      var q, r := (bales - capacity) / capacity, (bales - capacity) % capacity;
      NextMultiple(q + 1, capacity);
      QuotientIs(bales, q + 1, r, capacity);
    }
  }

  /** What laying `lines` of a customer adds, `full` of the packs being containers of its own. */
  ghost predicate CustomerAdded(id: int, lines: seq<Line>, full: int, containers0: seq<Suggested>, tails0: seq<Line>,
                                containers: seq<Suggested>, tails: seq<Line>)
  {
    && (forall code ::
          SumBy(ContainerBalesOf(code), containers) + BalesOf(tails, code)
          == SumBy(ContainerBalesOf(code), containers0) + BalesOf(tails0, code) + BalesOf(lines, code))
    && SumBy(ContainerBales(), containers) + Bales(tails)
       == SumBy(ContainerBales(), containers0) + Bales(tails0) + Bales(lines)
    && (forall other, code ::
          SumBy(ReservedFor(other, code), containers)
          <= SumBy(ReservedFor(other, code), containers0) + if other == id then BalesOf(lines, code) else 0)
    && (forall other ::
          SumBy(Owned(other), containers) == SumBy(Owned(other), containers0) + if other == id then full else 0)
  }

  /** One pack of a customer: a container of its own when full, else held back. */
  method LayPack(id: int, pack: seq<Line>, capacity: int, containers0: seq<Suggested>, tails0: seq<Line>)
    returns (containers: seq<Suggested>, tails: seq<Line>)
    requires Tidy(pack) && Bales(pack) <= capacity && AllFull(containers0, capacity) && PositiveLines(tails0)
    ensures AllFull(containers, capacity) && PositiveLines(tails)
    ensures CustomerAdded(id, pack, FullPack(capacity)(pack), containers0, tails0, containers, tails)
    ensures containers == containers0 + OwnPack(id, pack, capacity)
  {
    containers, tails := containers0, tails0;
    if Bales(pack) < capacity {
      LinesAppended(tails, pack);
      forall code {
        TidyNotNegative(pack, code);
      }
      tails := tails + pack;
    } else {
      ContainerAppended(containers, Suggested(ForCustomer(id), pack));
      containers := containers + [Suggested(ForCustomer(id), pack)];
    }
  }

  method LayCustomer(id: int, servable: seq<Line>, capacity: int, containers0: seq<Suggested>, tails0: seq<Line>)
    returns (containers: seq<Suggested>, tails: seq<Line>, ghost own: seq<Suggested>)
    requires capacity > 0 && AllFull(containers0, capacity) && PositiveLines(tails0)
    ensures containers == containers0 + own && |own| == Fills(Bales(servable), capacity)
    ensures Tidy(servable) ==> Section(own, id, servable)
    ensures AllFull(containers, capacity) && PositiveLines(tails)
    ensures CustomerAdded(id, servable, Fills(Bales(servable), capacity), containers0, tails0, containers, tails)
  {
    containers, tails := containers0, tails0;
    var packs := PackLinesIntoContainers(servable, capacity);
    var k := 0;
    NoPacksLaid(id, packs, capacity, containers0, tails0);
    while k < |packs|
      invariant 0 <= k <= |packs| && AllFull(containers, capacity) && PositiveLines(tails)
      invariant PacksLaid(id, packs, k, capacity, containers0, tails0, containers, tails)
      invariant OwnUpTo(id, packs, k, capacity, containers0, containers)
    {
      ghost var containers1, tails1 := containers, tails;
      containers, tails := LayPack(id, packs[k], capacity, containers, tails);
      PacksLaidNext(id, packs, k, capacity, containers0, tails0, containers1, tails1, containers, tails);
      OwnNext(id, packs, k, capacity, containers0);
      k := k + 1;
    }
    own := OwnOf(id, packs, capacity);
    AllPacksLaid(id, packs, servable, capacity, containers0, tails0, containers, tails);
  }

  /** The first k packs of a customer gave its own containers. */
  ghost predicate OwnUpTo(id: int, packs: seq<seq<Line>>, k: nat, capacity: int, containers0: seq<Suggested>,
                          containers: seq<Suggested>)
    requires k <= |packs|
  {
    containers == containers0 + OwnOf(id, packs[..k], capacity)
  }

  lemma {:induction false} OwnNext(id: int, packs: seq<seq<Line>>, k: nat, capacity: int, containers0: seq<Suggested>)
    requires k < |packs|
    ensures containers0 + OwnOf(id, packs[..k + 1], capacity)
            == (containers0 + OwnOf(id, packs[..k], capacity)) + OwnPack(id, packs[k], capacity)
  {
    assert packs[..k + 1][..k] == packs[..k];
    Regroup(containers0, OwnOf(id, packs[..k], capacity), OwnPack(id, packs[k], capacity));
  }

  /** What laying the first k packs of a customer added. */
  ghost predicate PacksLaid(id: int, packs: seq<seq<Line>>, k: nat, capacity: int,
                            containers0: seq<Suggested>, tails0: seq<Line>,
                            containers: seq<Suggested>, tails: seq<Line>)
    requires k <= |packs|
  {
    && (forall code ::
          SumBy(ContainerBalesOf(code), containers) + BalesOf(tails, code)
          == SumBy(ContainerBalesOf(code), containers0) + BalesOf(tails0, code) + SumBy(PackBalesOf(code), packs[..k]))
    && SumBy(ContainerBales(), containers) + Bales(tails)
       == SumBy(ContainerBales(), containers0) + Bales(tails0) + SumBy(PackBales(), packs[..k])
    && (forall other, code ::
          SumBy(ReservedFor(other, code), containers)
          <= SumBy(ReservedFor(other, code), containers0)
             + if other == id then SumBy(PackBalesOf(code), packs[..k]) else 0)
    && (forall other ::
          SumBy(Owned(other), containers)
          == SumBy(Owned(other), containers0)
             + if other == id then SumBy(FullPack(capacity), packs[..k]) else 0)
  }

  lemma {:induction false} NoPacksLaid(id: int, packs: seq<seq<Line>>, capacity: int, containers0: seq<Suggested>,
                                       tails0: seq<Line>)
    ensures PacksLaid(id, packs, 0, capacity, containers0, tails0, containers0, tails0)
    ensures OwnUpTo(id, packs, 0, capacity, containers0, containers0)
  {
    assert packs[..0] == [] && SumBy(FullPack(capacity), packs[..0]) == 0;
  }

  lemma {:induction false} PacksLaidNext(id: int, packs: seq<seq<Line>>, k: nat, capacity: int,
                                         containers0: seq<Suggested>, tails0: seq<Line>,
                                         containers1: seq<Suggested>, tails1: seq<Line>,
                                         containers: seq<Suggested>, tails: seq<Line>)
    requires k < |packs| && PacksLaid(id, packs, k, capacity, containers0, tails0, containers1, tails1)
    requires CustomerAdded(id, packs[k], FullPack(capacity)(packs[k]), containers1, tails1, containers, tails)
    ensures PacksLaid(id, packs, k + 1, capacity, containers0, tails0, containers, tails)
  {
    PrefixNext(packs, k);
    PackAppended(packs[..k], packs[k]);
    SumByAppend(FullPack(capacity), packs[..k], [packs[k]]);
    SumByOne(FullPack(capacity), packs[k]);
  }

  lemma {:induction false} AllPacksLaid(id: int, packs: seq<seq<Line>>, servable: seq<Line>, capacity: int,
                                        containers0: seq<Suggested>, tails0: seq<Line>,
                                        containers: seq<Suggested>, tails: seq<Line>)
    requires capacity > 0 && PacksLaid(id, packs, |packs|, capacity, containers0, tails0, containers, tails)
    requires OwnUpTo(id, packs, |packs|, capacity, containers0, containers) && FullButLast(packs, capacity)
    requires forall code :: SumBy(PackBalesOf(code), packs) == BalesOf(servable, code)
    requires SumBy(PackBales(), packs) == Bales(servable)
    requires Tidy(servable) ==> AllUnpacked(packs) == Unpacked(servable)
    ensures CustomerAdded(id, servable, Fills(Bales(servable), capacity), containers0, tails0, containers, tails)
    ensures var own := OwnOf(id, packs, capacity);
            && containers == containers0 + own && |own| == Fills(Bales(servable), capacity)
            && (Tidy(servable) ==> Section(own, id, servable))
  {
    assert packs[..|packs|] == packs;
    FullPacks(packs, capacity);
    OwnOfSize(id, packs, capacity);
    if Tidy(servable) { OwnOfFirst(id, packs, capacity, servable); }
  }

  // ---- Serving everybody -------------------------------------------------------------------

  /** What a customer misses when those before it were served from the stock. */
  function MissingAfter(id: int, lines: seq<Line>, stock: seq<Line>, before: seq<Customer>): seq<Unserved> {
    if lines == [] then []
    else
      var line := lines[|lines| - 1];
      var found := Left(BalesOf(stock, line.code), SumBy(CustomerWants(line.code), before));
      MissingAfter(id, lines[..|lines| - 1], stock, before) + Report(id, line, Min(line.qty, found))
  }

  /** What a customer gets when those before it were served from the stock. */
  function ServedLines(lines: seq<Line>, stock: seq<Line>, before: seq<Customer>): seq<Line> {
    if lines == [] then []
    else
      var line := lines[|lines| - 1];
      var found := Left(BalesOf(stock, line.code), SumBy(CustomerWants(line.code), before));
      ServedLines(lines[..|lines| - 1], stock, before) + Given(line, Min(line.qty, found))
  }

  function UnservedBy(customers: seq<Customer>, stock: seq<Line>): seq<Unserved> {
    if customers == [] then []
    else
      var (front, c) := (customers[..|customers| - 1], customers[|customers| - 1]);
      UnservedBy(front, stock) + MissingAfter(c.id, c.lines, stock, front)
  }

  lemma {:induction false} MissingSame(id: int, lines: seq<Line>, stock: seq<Line>, before: seq<Customer>,
                                       found: seq<Line>)
    requires ShelfLeft(found, before, stock)
    ensures Missing(id, lines, found) == MissingAfter(id, lines, stock, before)
    ensures Servable(lines, found) == ServedLines(lines, stock, before)
  {
    if lines != [] { MissingSame(id, lines[..|lines| - 1], stock, before, found); }
  }

  lemma {:induction false} CustomerAppended(customers: seq<Customer>, c: Customer)
    ensures forall code :: SumBy(CustomerWants(code), customers + [c])
                           == SumBy(CustomerWants(code), customers) + BalesOf(c.lines, code)
    ensures SumBy(CustomerBales(), customers + [c]) == SumBy(CustomerBales(), customers) + Bales(c.lines)
  {
    forall code
      ensures SumBy(CustomerWants(code), customers + [c])
              == SumBy(CustomerWants(code), customers) + BalesOf(c.lines, code)
    {
      SumByAppend(CustomerWants(code), customers, [c]);
      SumByOne(CustomerWants(code), c);
    }
    SumByAppend(CustomerBales(), customers, [c]);
    SumByOne(CustomerBales(), c);
  }

  lemma {:induction false} ServedToAppended(customers: seq<Customer>, c: Customer, stock: int, id: int, code: string)
    ensures ServedTo(customers + [c], stock, id, code)
            == ServedTo(customers, stock, id, code)
               + if c.id == id then Min(BalesOf(c.lines, code), Left(stock, SumBy(CustomerWants(code), customers)))
                 else 0
  {
    assert (customers + [c])[..|customers|] == customers;
  }

  /** A customer gets as many containers as the bales he is served fill. */
  function ContainersFor(customers: seq<Customer>, stock: seq<Line>, id: int, capacity: int): int
    requires capacity > 0
  {
    if customers == [] then 0
    else
      var n := |customers| - 1;
      ContainersFor(customers[..n], stock, id, capacity)
      + if customers[n].id == id then OwnFull(customers[n], stock, customers[..n], capacity) else 0
  }

  /** The containers a customer's served bales fill, when those before it are served first. */
  function OwnFull(c: Customer, stock: seq<Line>, before: seq<Customer>, capacity: int): int
    requires capacity > 0
  {
    Fills(Bales(c.lines) - SumBy(Short(), MissingAfter(c.id, c.lines, stock, before)), capacity)
  }

  ghost predicate WholeContainers(containers: seq<Suggested>, customers: seq<Customer>, stock: seq<Line>, capacity: int)
    requires capacity > 0
  {
    forall id :: SumBy(Owned(id), containers) == ContainersFor(customers, stock, id, capacity)
  }

  /** The containers are those of the customers in turn, each its number of full ones. */
  ghost predicate InSections(containers: seq<Suggested>, customers: seq<Customer>, stock: seq<Line>, capacity: int)
    requires capacity > 0
    decreases |customers|
  {
    if customers == [] then containers == []
    else
      var (front, c) := (customers[..|customers| - 1], customers[|customers| - 1]);
      var cut := |containers| - OwnFull(c, stock, front, capacity);
      && 0 <= cut <= |containers| && InSections(containers[..cut], front, stock, capacity)
      && Section(containers[cut..], c.id, ServedLines(c.lines, stock, front))
  }

  lemma {:induction false} SectionAdded(containers: seq<Suggested>, own: seq<Suggested>, customers: seq<Customer>,
                                        c: Customer, stock: seq<Line>, capacity: int)
    requires capacity > 0 && InSections(containers, customers, stock, capacity)
    requires |own| == OwnFull(c, stock, customers, capacity)
    requires Section(own, c.id, ServedLines(c.lines, stock, customers))
    ensures InSections(containers + own, customers + [c], stock, capacity)
  {
    var more, all := customers + [c], containers + own;
    assert more[..|more| - 1] == customers && more[|more| - 1] == c;
    assert all[..|containers|] == containers && all[|containers|..] == own;
  }

  /** The state of the plan once the given customers are served. */
  datatype Layout = Layout(containers: seq<Suggested>, tails: seq<Line>, available: seq<Line>, unserved: seq<Unserved>,
                           fromDemand: int)

  /** The shelf holds what the customers left of the stock. */
  ghost predicate ShelfLeft(available: seq<Line>, customers: seq<Customer>, stock: seq<Line>) {
    && Shelf(available) && SameArticles(available, stock)
    && forall code :: BalesOf(available, code) == Left(BalesOf(stock, code), SumBy(CustomerWants(code), customers))
  }

  /** What left the shelf is in the containers and the tails. */
  ghost predicate NothingLost(l: Layout, stock: seq<Line>) {
    && (forall code :: SumBy(ContainerBalesOf(code), l.containers) + BalesOf(l.tails, code)
                       == BalesOf(stock, code) - BalesOf(l.available, code))
    && SumBy(ContainerBales(), l.containers) + Bales(l.tails) == Bales(stock) - Bales(l.available) == l.fromDemand
  }

  /** No more of an article is reserved for a customer than the customer is served. */
  ghost predicate ReservedServed(containers: seq<Suggested>, customers: seq<Customer>, stock: seq<Line>) {
    forall id, code :: SumBy(ReservedFor(id, code), containers) <= ServedTo(customers, BalesOf(stock, code), id, code)
  }

  /** Every customer has its whole containers, and they stand in the order of the customers. */
  ghost predicate Placed(containers: seq<Suggested>, customers: seq<Customer>, stock: seq<Line>, capacity: int)
    requires capacity > 0
  {
    && WholeContainers(containers, customers, stock, capacity)
    && InSections(containers, customers, stock, capacity)
    && OnlyCustomers(containers)
  }

  ghost predicate OnlyCustomers(part: seq<Suggested>) {
    forall k :: 0 <= k < |part| ==> part[k].kind.ForCustomer?
  }

  lemma {:induction false} CustomersJoined(part: seq<Suggested>, own: seq<Suggested>, id: int, lines: seq<Line>)
    requires OnlyCustomers(part) && Section(own, id, lines)
    ensures OnlyCustomers(part + own)
  {
  }

  ghost predicate LaidOut(l: Layout, customers: seq<Customer>, stock: seq<Line>, capacity: int)
    requires capacity > 0
  {
    && Placed(l.containers, customers, stock, capacity)
    && AllFull(l.containers, capacity) && PositiveLines(l.tails)
    && ShelfLeft(l.available, customers, stock) && NothingLost(l, stock)
    && ReservedServed(l.containers, customers, stock)
    && l.unserved == UnservedBy(customers, stock)
    && l.fromDemand + SumBy(Short(), l.unserved) == SumBy(CustomerBales(), customers)
  }

  method ServeNext(c: Customer, ghost customers: seq<Customer>, ghost stock: seq<Line>, capacity: int, l: Layout)
    returns (next: Layout)
    requires capacity > 0 && Tidy(c.lines) && LaidOut(l, customers, stock, capacity)
    ensures LaidOut(next, customers + [c], stock, capacity)
  {
    var servable, available, missing := ServeCustomer(c, l.available);
    var containers, tails, own := LayCustomer(c.id, servable, capacity, l.containers, l.tails);
    next := Layout(containers, tails, available, l.unserved + missing, l.fromDemand + Bales(servable));
    LaidOutNext(c, customers, stock, capacity, l, next, servable, missing, own);
  }

  lemma {:induction false} LaidOutNext(c: Customer, customers: seq<Customer>, stock: seq<Line>, capacity: int,
                                       l: Layout, next: Layout, servable: seq<Line>, missing: seq<Unserved>,
                                       own: seq<Suggested>)
    requires capacity > 0 && Tidy(c.lines) && LaidOut(l, customers, stock, capacity)
    requires Served(c.lines, l.available, next.available, servable)
    requires missing == Missing(c.id, c.lines, l.available) && servable == Servable(c.lines, l.available)
    requires SumBy(Short(), missing) + Bales(servable) == Bales(c.lines)
    requires next.containers == l.containers + own && |own| == Fills(Bales(servable), capacity)
    requires Section(own, c.id, servable)
    requires AllFull(next.containers, capacity) && PositiveLines(next.tails)
    requires CustomerAdded(c.id, servable, |own|, l.containers, l.tails, next.containers, next.tails)
    requires next.unserved == l.unserved + missing && next.fromDemand == l.fromDemand + Bales(servable)
    ensures LaidOut(next, customers + [c], stock, capacity)
  {
    ShelfFalls(stock, customers, c, l.available, next.available, servable);
    ReservedGrows(stock, customers, c, l, next, servable, |own|);
    ReportsGrow(stock, customers, c, l, missing);
    TurnIs(c, customers, stock, capacity, l.available, servable);
    PlacedNext(c, customers, stock, capacity, l, next, servable, own);
    StillNothingLost(c, stock, l, next, servable, |own|);
  }

  lemma {:induction false} PlacedNext(c: Customer, customers: seq<Customer>, stock: seq<Line>, capacity: int,
                                      l: Layout, next: Layout, servable: seq<Line>, own: seq<Suggested>)
    requires capacity > 0 && Placed(l.containers, customers, stock, capacity)
    requires |own| == OwnFull(c, stock, customers, capacity)
    requires Section(own, c.id, ServedLines(c.lines, stock, customers))
    requires next.containers == l.containers + own
    requires CustomerAdded(c.id, servable, |own|, l.containers, l.tails, next.containers, next.tails)
    ensures Placed(next.containers, customers + [c], stock, capacity)
  {
    SectionAdded(l.containers, own, customers, c, stock, capacity);
    OwnedGrow(stock, customers, c, l, next, capacity, servable, |own|);
    CustomersJoined(l.containers, own, c.id, ServedLines(c.lines, stock, customers));
  }

  /** What a customer gets of the shelf is what those before it leave it. */
  lemma {:induction false} TurnIs(c: Customer, customers: seq<Customer>, stock: seq<Line>, capacity: int,
                                  available: seq<Line>, servable: seq<Line>)
    requires capacity > 0 && ShelfLeft(available, customers, stock) && servable == Servable(c.lines, available)
    requires SumBy(Short(), Missing(c.id, c.lines, available)) + Bales(servable) == Bales(c.lines)
    ensures servable == ServedLines(c.lines, stock, customers)
    ensures Fills(Bales(servable), capacity) == OwnFull(c, stock, customers, capacity)
  {
    MissingSame(c.id, c.lines, stock, customers, available);
  }

  lemma {:induction false} StillNothingLost(c: Customer, stock: seq<Line>, l: Layout, next: Layout,
                                            servable: seq<Line>, own: int)
    requires NothingLost(l, stock) && Served(c.lines, l.available, next.available, servable)
    requires CustomerAdded(c.id, servable, own, l.containers, l.tails, next.containers, next.tails)
    requires next.fromDemand == l.fromDemand + Bales(servable)
    ensures NothingLost(next, stock)
  {
  }

  lemma {:induction false} ContainersForAppended(customers: seq<Customer>, c: Customer, stock: seq<Line>, id: int,
                                                 capacity: int)
    requires capacity > 0
    ensures ContainersFor(customers + [c], stock, id, capacity)
            == ContainersFor(customers, stock, id, capacity)
               + if c.id == id then OwnFull(c, stock, customers, capacity) else 0
  {
    var more := customers + [c];
    assert more[..|more| - 1] == customers && more[|more| - 1] == c;
  }

  lemma {:induction false} OwnedGrow(stock: seq<Line>, customers: seq<Customer>, c: Customer, l: Layout, next: Layout,
                                     capacity: int, servable: seq<Line>, own: int)
    requires capacity > 0 && WholeContainers(l.containers, customers, stock, capacity)
    requires own == OwnFull(c, stock, customers, capacity)
    requires CustomerAdded(c.id, servable, own, l.containers, l.tails, next.containers, next.tails)
    ensures WholeContainers(next.containers, customers + [c], stock, capacity)
  {
    forall id
      ensures SumBy(Owned(id), next.containers) == ContainersFor(customers + [c], stock, id, capacity)
    {
      ContainersForAppended(customers, c, stock, id, capacity);
    }
  }

  lemma {:induction false} ShelfFalls(stock: seq<Line>, customers: seq<Customer>, c: Customer,
                                      available0: seq<Line>, available: seq<Line>, servable: seq<Line>)
    requires Tidy(c.lines) && ShelfLeft(available0, customers, stock)
             && Served(c.lines, available0, available, servable)
    ensures ShelfLeft(available, customers + [c], stock)
  {
    CustomerAppended(customers, c);
    forall code
      ensures BalesOf(available, code) == Left(BalesOf(stock, code), SumBy(CustomerWants(code), customers + [c]))
    {
      TidyNotNegative(c.lines, code);
    }
  }

  lemma {:induction false} ReservedGrows(stock: seq<Line>, customers: seq<Customer>, c: Customer, l: Layout,
                                         next: Layout, servable: seq<Line>, own: int)
    requires ShelfLeft(l.available, customers, stock) && ReservedServed(l.containers, customers, stock)
    requires Served(c.lines, l.available, next.available, servable)
    requires CustomerAdded(c.id, servable, own, l.containers, l.tails, next.containers, next.tails)
    ensures ReservedServed(next.containers, customers + [c], stock)
  {
    forall id, code
      ensures SumBy(ReservedFor(id, code), next.containers)
              <= ServedTo(customers + [c], BalesOf(stock, code), id, code)
    {
      ServedToAppended(customers, c, BalesOf(stock, code), id, code);
    }
  }

  lemma {:induction false} ReportsGrow(stock: seq<Line>, customers: seq<Customer>, c: Customer, l: Layout,
                                       missing: seq<Unserved>)
    requires ShelfLeft(l.available, customers, stock) && l.unserved == UnservedBy(customers, stock)
    requires missing == Missing(c.id, c.lines, l.available)
    ensures missing == MissingAfter(c.id, c.lines, stock, customers)
    ensures l.unserved + missing == UnservedBy(customers + [c], stock)
    ensures SumBy(Short(), l.unserved + missing) == SumBy(Short(), l.unserved) + SumBy(Short(), missing)
    ensures SumBy(CustomerBales(), customers + [c]) == SumBy(CustomerBales(), customers) + Bales(c.lines)
  {
    MissingSame(c.id, c.lines, stock, customers, l.available);
    assert (customers + [c])[..|customers|] == customers;
    SumByAppend(Short(), l.unserved, missing);
    CustomerAppended(customers, c);
  }

  /** The first i customers are served. */
  ghost predicate ServedFirst(l: Layout, customers: seq<Customer>, i: nat, stock: seq<Line>, capacity: int)
    requires i <= |customers| && capacity > 0
  {
    LaidOut(l, customers[..i], stock, capacity)
  }

  method ServeAll(customers: seq<Customer>, stock: seq<Line>, capacity: int) returns (l: Layout)
    requires capacity > 0 && Shelf(stock)
    requires forall i :: 0 <= i < |customers| ==> Tidy(customers[i].lines)
    ensures LaidOut(l, customers, stock, capacity)
  {
    l := Layout([], [], stock, [], 0);
    NothingLaidOut(stock, capacity);
    var i := 0;
    assert customers[..0] == [];
    while i < |customers|
      invariant 0 <= i <= |customers| && ServedFirst(l, customers, i, stock, capacity)
    {
      PrefixNext(customers, i);
      l := ServeNext(customers[i], customers[..i], stock, capacity, l);
      i := i + 1;
    }
    assert customers[..i] == customers;
  }

  lemma {:induction false} NothingLaidOut(stock: seq<Line>, capacity: int)
    requires capacity > 0 && Shelf(stock)
    ensures LaidOut(Layout([], [], stock, [], 0), [], stock, capacity)
  {
    ShelfAll(stock);
    assert forall code :: BalesOf([], code) == 0;
  }

  // ---- Stock nobody ordered, and what is left over -----------------------------------------

  /** The larger quantity first, then the name. */
  function FreeOrder(le: (string, string) -> bool): (Line, Line) -> bool {
    (a: Line, b: Line) => a.qty > b.qty || (a.qty == b.qty && le(a.name, b.name))
  }

  lemma {:induction false} SortedHolds(le: (string, string) -> bool, lines: seq<Line>)
    ensures var sorted := Sort(FreeOrder(le), lines);
            && Bales(sorted) == Bales(lines)
            && (forall code :: BalesOf(sorted, code) == BalesOf(lines, code))
            && (PositiveLines(lines) ==> PositiveLines(sorted))
  {
    var sorted := Sort(FreeOrder(le), lines);
    SortPermutes(FreeOrder(le), lines);
    SumByPermutation(LineQty(), sorted, lines);
    forall code
      ensures BalesOf(sorted, code) == BalesOf(lines, code)
    {
      SumByPermutation(LineQtyOf(code), sorted, lines);
    }
    forall i | 0 <= i < |sorted|
      ensures PositiveLines(lines) ==> sorted[i].qty > 0
    {
      assert sorted[i] in lines;
    }
  }

  function InStock(): Line -> bool { (line: Line) => line.qty > 0 }

  /** Leaving out what counts nothing leaves the sum. */
  lemma {:induction false} EmptyLinesDropped(f: Line -> int, lines: seq<Line>)
    requires forall line :: line in lines && line.qty <= 0 ==> f(line) == 0
    ensures SumBy(f, Filter(InStock(), lines)) == SumBy(f, lines)
  {
    if lines != [] {
      assert forall line :: line in lines[1..] ==> line in lines;
      EmptyLinesDropped(f, lines[1..]);
      var rest := Filter(InStock(), lines[1..]);
      if lines[0].qty > 0 {
        assert ([lines[0]] + rest)[1..] == rest;
      } else {
        assert [] + rest == rest;
      }
    }
  }

  /** The free rows hold what the shelf holds. */
  lemma {:induction false} FreeRowsHold(le: (string, string) -> bool, available: seq<Line>)
    requires Shelf(available)
    ensures var rows := Sort(FreeOrder(le), Filter(InStock(), available));
            && Bales(rows) == Bales(available)
            && (forall code :: BalesOf(rows, code) == BalesOf(available, code))
            && PositiveLines(rows)
  {
    var rows := Filter(InStock(), available);
    forall code
      ensures BalesOf(rows, code) == BalesOf(available, code)
    {
      EmptyLinesDropped(LineQtyOf(code), available);
    }
    EmptyLinesDropped(LineQty(), available);
    assert forall i :: 0 <= i < |rows| ==> rows[i] in rows;
    SortedHolds(le, rows);
  }

  /** Both parts of the layout together hold `lines` more than before. */
  ghost predicate Added(lines: seq<Line>, containers0: seq<Suggested>, tails0: seq<Line>,
                        containers: seq<Suggested>, tails: seq<Line>)
  {
    && (forall code ::
          SumBy(ContainerBalesOf(code), containers) + BalesOf(tails, code)
          == SumBy(ContainerBalesOf(code), containers0) + BalesOf(tails0, code) + BalesOf(lines, code))
    && SumBy(ContainerBales(), containers) + Bales(tails)
       == SumBy(ContainerBales(), containers0) + Bales(tails0) + Bales(lines)
    && (forall id, code :: SumBy(ReservedFor(id, code), containers) == SumBy(ReservedFor(id, code), containers0))
    && (forall id :: SumBy(Owned(id), containers) == SumBy(Owned(id), containers0))
  }

  /** A number of containers full of one product. */
  function Singles(row: Line, n: nat, capacity: int): seq<Suggested> {
    if n == 0 then []
    else Singles(row, n - 1, capacity) + [Suggested(SingleProduct, [Line(row.code, row.name, capacity)])]
  }

  function SinglesOf(rows: seq<Line>, capacity: int): seq<Suggested>
    requires capacity > 0
  {
    if rows == [] then []
    else
      var row := rows[|rows| - 1];
      SinglesOf(rows[..|rows| - 1], capacity) + Singles(row, Fills(row.qty, capacity), capacity)
  }

  ghost predicate SinglesLaid(rows: seq<Line>, capacity: int, containers0: seq<Suggested>, containers: seq<Suggested>)
    requires capacity > 0
  {
    containers == containers0 + SinglesOf(rows, capacity)
  }

  lemma {:induction false} SinglesNext(rows: seq<Line>, row: Line, capacity: int, containers0: seq<Suggested>)
    requires capacity > 0
    ensures containers0 + SinglesOf(rows + [row], capacity)
            == (containers0 + SinglesOf(rows, capacity)) + Singles(row, Fills(row.qty, capacity), capacity)
  {
    assert (rows + [row])[..|rows|] == rows;
    Regroup(containers0, SinglesOf(rows, capacity), Singles(row, Fills(row.qty, capacity), capacity));
  }

  /** A free product fills as many containers of its own as it can. */
  method LayFreeRow(row: Line, capacity: int, containers0: seq<Suggested>, tails0: seq<Line>)
    returns (containers: seq<Suggested>, tails: seq<Line>)
    requires capacity > 0 && row.qty > 0 && AllFull(containers0, capacity) && PositiveLines(tails0)
    ensures AllFull(containers, capacity) && PositiveLines(tails)
    ensures Added([row], containers0, tails0, containers, tails)
    ensures |containers| == |containers0| + row.qty / capacity
    ensures containers == containers0 + Singles(row, Fills(row.qty, capacity), capacity)
  {
    containers, tails := containers0, tails0;
    FillsIsQuotient(row.qty, capacity);
    var fullContainers := row.qty / capacity;
    var full := Line(row.code, row.name, capacity);
    OneLine(full);
    OneLine(row);
    var index := 0;
    while index < fullContainers
      invariant 0 <= index <= fullContainers && |containers| == |containers0| + index
      invariant AllFull(containers, capacity) && containers == containers0 + Singles(row, index, capacity)
      invariant FullAdded(row.code, index * capacity, containers0, containers)
    {
      ContainerAppended(containers, Suggested(SingleProduct, [full]));
      containers := containers + [Suggested(SingleProduct, [full])];
      index := index + 1;
      NextMultiple(index, capacity);
    }
    var remainder := row.qty - fullContainers * capacity;
    RemainderWithin(row.qty, capacity);
    if remainder > 0 {
      LineAppended(tails, Line(row.code, row.name, remainder));
      tails := tails + [Line(row.code, row.name, remainder)];
    }
  }

  ghost predicate FullAdded(product: string, qty: int, containers0: seq<Suggested>, containers: seq<Suggested>) {
    && (forall code ::
          SumBy(ContainerBalesOf(code), containers)
          == SumBy(ContainerBalesOf(code), containers0) + if code == product then qty else 0)
    && SumBy(ContainerBales(), containers) == SumBy(ContainerBales(), containers0) + qty
    && (forall id, code :: SumBy(ReservedFor(id, code), containers) == SumBy(ReservedFor(id, code), containers0))
    && (forall id :: SumBy(Owned(id), containers) == SumBy(Owned(id), containers0))
  }

  lemma {:induction false} RemainderWithin(qty: int, capacity: int)
    requires qty > 0 && capacity > 0
    ensures 0 <= qty - (qty / capacity) * capacity < capacity
  {
    assert qty == (qty / capacity) * capacity + qty % capacity;
  }

  method LayFreeRows(rows: seq<Line>, capacity: int, containers0: seq<Suggested>, tails0: seq<Line>)
    returns (containers: seq<Suggested>, tails: seq<Line>)
    requires capacity > 0 && PositiveLines(rows) && AllFull(containers0, capacity) && PositiveLines(tails0)
    ensures AllFull(containers, capacity) && PositiveLines(tails)
    ensures Added(rows, containers0, tails0, containers, tails)
    ensures containers == containers0 + SinglesOf(rows, capacity)
  {
    containers, tails := containers0, tails0;
    var i := 0;
    ghost var done: seq<Line> := [];
    assert forall code :: BalesOf([], code) == 0;
    while i < |rows|
      invariant 0 <= i <= |rows| && done == rows[..i]
      invariant AllFull(containers, capacity) && PositiveLines(tails)
      invariant Added(done, containers0, tails0, containers, tails)
      invariant SinglesLaid(done, capacity, containers0, containers)
    {
      SinglesNext(done, rows[i], capacity, containers0);
      LinesAppended(done, [rows[i]]);
      containers, tails := LayFreeRow(rows[i], capacity, containers, tails);
      done := done + [rows[i]];
      i := i + 1;
      assert done == rows[..i];
    }
    assert done == rows;
  }

  method MergeTails(tails: seq<Line>) returns (merged: seq<Line>)
    requires PositiveLines(tails)
    ensures Tidy(merged) && Bales(merged) == Bales(tails)
    ensures forall code :: BalesOf(merged, code) == BalesOf(tails, code)
  {
    merged := [];
    var i := 0;
    while i < |tails|
      invariant 0 <= i <= |tails| && Tidy(merged)
      invariant Bales(merged) == Bales(tails[..i])
      invariant forall code :: BalesOf(merged, code) == BalesOf(tails[..i], code)
    {
      LineAppended(tails[..i], tails[i]);
      assert tails[..i + 1] == tails[..i] + [tails[i]];
      MergedHolds(merged, tails[i].code, tails[i].name, tails[i].qty);
      merged := Merged(merged, tails[i].code, tails[i].name, tails[i].qty);
      i := i + 1;
    }
    assert tails[..i] == tails;
  }

  method LayMixed(packs: seq<seq<Line>>, capacity: int,
                  containers0: seq<Suggested>) returns (containers: seq<Suggested>)
    requires capacity > 0 && AllFull(containers0, capacity) && FullButLast(packs, capacity)
    ensures containers0 <= containers && MixedPart(containers[|containers0|..], packs)
    ensures forall k :: 0 <= k < |containers| - 1 ==> Bales(containers[k].lines) == capacity
    ensures containers != [] ==> 0 < Bales(containers[|containers| - 1].lines) <= capacity
    ensures MixedAdded(packs, containers0, containers)
  {
    containers := containers0;
    var k := 0;
    while k < |packs|
      invariant 0 <= k <= |packs| && MixedLaid(packs, k, containers0, containers)
    {
      PrefixNext(packs, k);
      PackAppended(packs[..k], packs[k]);
      ContainerAppended(containers, Suggested(Mixed, packs[k]));
      containers := containers + [Suggested(Mixed, packs[k])];
      k := k + 1;
    }
    assert packs[..k] == packs;
    OnlyLastOpen(packs, capacity, containers0, containers);
  }

  ghost predicate MixedPart(part: seq<Suggested>, packs: seq<seq<Line>>) {
    && |part| == |packs|
    && forall k :: 0 <= k < |packs| ==> part[k] == Suggested(Mixed, packs[k])
  }

  lemma {:induction false} MixedLoad(part: seq<Suggested>, packs: seq<seq<Line>>)
    requires MixedPart(part, packs)
    ensures LoadOf(part) == AllUnpacked(packs)
  {
    if packs != [] { MixedLoad(part[..|part| - 1], packs[..|packs| - 1]); }
  }

  /** The packs are all the containers hold more. */
  ghost predicate MixedAdded(packs: seq<seq<Line>>, containers0: seq<Suggested>, containers: seq<Suggested>) {
    && (forall code ::
          SumBy(ContainerBalesOf(code), containers)
          == SumBy(ContainerBalesOf(code), containers0) + SumBy(PackBalesOf(code), packs))
    && SumBy(ContainerBales(), containers) == SumBy(ContainerBales(), containers0) + SumBy(PackBales(), packs)
    && (forall id, code :: SumBy(ReservedFor(id, code), containers) == SumBy(ReservedFor(id, code), containers0))
    && (forall id :: SumBy(Owned(id), containers) == SumBy(Owned(id), containers0))
  }

  lemma {:induction false} OnlyLastOpen(packs: seq<seq<Line>>, capacity: int, containers0: seq<Suggested>,
                                        containers: seq<Suggested>)
    requires capacity > 0 && AllFull(containers0, capacity) && FullButLast(packs, capacity)
    requires MixedLaid(packs, |packs|, containers0, containers)
    ensures forall k :: 0 <= k < |containers| - 1 ==> Bales(containers[k].lines) == capacity
    ensures containers != [] ==> 0 < Bales(containers[|containers| - 1].lines) <= capacity
  {
    forall k | 0 <= k < |containers|
      ensures k < |containers| - 1 ==> Bales(containers[k].lines) == capacity
      ensures 0 < Bales(containers[k].lines) <= capacity
    {
      if k >= |containers0| {
        var i := k - |containers0|;
        assert containers[|containers0| + i] == Suggested(Mixed, packs[i]);
      }
    }
  }

  /** The first k mixed packs follow the containers there were. */
  ghost predicate MixedLaid(packs: seq<seq<Line>>, k: nat, containers0: seq<Suggested>, containers: seq<Suggested>)
    requires k <= |packs|
  {
    && |containers| == |containers0| + k
    && (forall i :: 0 <= i < |containers0| ==> containers[i] == containers0[i])
    && (forall i :: 0 <= i < k ==> containers[|containers0| + i] == Suggested(Mixed, packs[i]))
    && (forall code ::
          SumBy(ContainerBalesOf(code), containers)
          == SumBy(ContainerBalesOf(code), containers0) + SumBy(PackBalesOf(code), packs[..k]))
    && SumBy(ContainerBales(), containers) == SumBy(ContainerBales(), containers0) + SumBy(PackBales(), packs[..k])
    && (forall id, code :: SumBy(ReservedFor(id, code), containers) == SumBy(ReservedFor(id, code), containers0))
    && (forall id :: SumBy(Owned(id), containers) == SumBy(Owned(id), containers0))
  }
}
