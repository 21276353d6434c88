/** Open customer demand, grouped by customer and ranked for serving. */
module ContainerDemand {
  import opened Standard
  import opened Sorting
  import opened ContainerPlanner
  import opened ContainerPacking

  datatype DemandRow = DemandRow(customer: int, customerName: string, code: string, name: string, qty: int,
                                 priority: int)

  datatype Customer = Customer(id: int, name: string, priority: int, lines: seq<Line>, total: int)

  function RowName(row: DemandRow): string { if row.name == "" then row.code else row.name }

  /** A row joins its customer's entry, or opens one. */
  function Upsert(cs: seq<Customer>, row: DemandRow, qty: int): seq<Customer> {
    if cs == [] then
      [Customer(row.customer, row.customerName, NonNegative(row.priority), [Line(row.code, RowName(row), qty)], qty)]
    else if cs[0].id == row.customer then
      [cs[0].(priority := Max(cs[0].priority, NonNegative(row.priority)),
              lines := Merged(cs[0].lines, row.code, RowName(row), qty),
              total := cs[0].total + qty)] + cs[1..]
    else
      [cs[0]] + Upsert(cs[1..], row, qty)
  }

  function Grouped(demand: seq<DemandRow>): seq<Customer> {
    if demand == [] then []
    else
      var front, row := Grouped(demand[..|demand| - 1]), demand[|demand| - 1];
      if NonNegative(row.qty) <= 0 then front else Upsert(front, row, NonNegative(row.qty))
  }

  /** Higher priority first, then the larger order, then the name. */
  function CustomerOrder(le: (string, string) -> bool): (Customer, Customer) -> bool {
    (a: Customer, b: Customer) =>
      a.priority > b.priority
      || (a.priority == b.priority && (a.total > b.total || (a.total == b.total && le(a.name, b.name))))
  }

  function Ranked(demand: seq<DemandRow>, le: (string, string) -> bool): seq<Customer> {
    Sort(CustomerOrder(le), Grouped(demand))
  }

  // ---- What the groups say about the rows ------------------------------------------

  /** What a customer asks of an article over all rows. */
  function Wanted(id: int, code: string): DemandRow -> int {
    (row: DemandRow) => if row.customer == id && row.code == code then NonNegative(row.qty) else 0
  }

  function WantedBy(id: int): DemandRow -> int {
    (row: DemandRow) => if row.customer == id then NonNegative(row.qty) else 0
  }

  /** The highest priority among a customer's rows that ask for anything. */
  function TopPriority(demand: seq<DemandRow>, id: int): int {
    if demand == [] then 0
    else
      var front, row := TopPriority(demand[..|demand| - 1], id), demand[|demand| - 1];
      if row.customer == id && NonNegative(row.qty) > 0 then Max(front, NonNegative(row.priority)) else front
  }

  ghost predicate Faithful(c: Customer, demand: seq<DemandRow>) {
    && Tidy(c.lines)
    && c.total == Bales(c.lines) == SumBy(WantedBy(c.id), demand)
    && c.total > 0
    && c.priority == TopPriority(demand, c.id)
    && forall code :: BalesOf(c.lines, code) == SumBy(Wanted(c.id, code), demand)
  }

  ghost predicate OneEach(cs: seq<Customer>) {
    forall i, j :: 0 <= i < j < |cs| ==> cs[i].id != cs[j].id
  }

  /** The entry a row lands in; the others stay as they are. */
  lemma {:induction false} UpsertShape(cs: seq<Customer>, row: DemandRow, qty: int) returns (k: nat)
    ensures var after := Upsert(cs, row, qty);
            && k < |after|
            && |after| == (if k < |cs| then |cs| else |cs| + 1)
            && k <= |cs|
            && (forall i :: 0 <= i < |cs| && i != k ==> after[i] == cs[i])
            && after[k].id == row.customer
            && (forall i :: 0 <= i < k ==> cs[i].id != row.customer)
            && (k < |cs| ==>
                  && cs[k].id == row.customer
                  && after[k].priority == Max(cs[k].priority, NonNegative(row.priority))
                  && after[k].lines == Merged(cs[k].lines, row.code, RowName(row), qty)
                  && after[k].total == cs[k].total + qty)
            && (k == |cs| ==>
                  && after[k].priority == NonNegative(row.priority)
                  && after[k].lines == [Line(row.code, RowName(row), qty)]
                  && after[k].total == qty)
  {
    if cs == [] || cs[0].id == row.customer {
      k := 0;
    } else {
      var k' := UpsertShape(cs[1..], row, qty);
      var rest := Upsert(cs[1..], row, qty);
      k := k' + 1;
      assert Upsert(cs, row, qty) == [cs[0]] + rest;
      assert forall i :: 0 <= i < |cs| && i != k ==> i == 0 || ([cs[0]] + rest)[i] == rest[i - 1] == cs[1..][i - 1];
    }
  }

  lemma {:induction false} UpsertOneEach(cs: seq<Customer>, row: DemandRow, qty: int)
    requires OneEach(cs)
    ensures OneEach(Upsert(cs, row, qty))
  {
    var k := UpsertShape(cs, row, qty);
  }

  lemma {:induction false} RowAppended(demand: seq<DemandRow>, row: DemandRow, id: int)
    ensures forall code :: SumBy(Wanted(id, code), demand + [row])
                           == SumBy(Wanted(id, code), demand) + Wanted(id, code)(row)
    ensures SumBy(WantedBy(id), demand + [row]) == SumBy(WantedBy(id), demand) + WantedBy(id)(row)
    ensures TopPriority(demand + [row], id)
            == if row.customer == id && NonNegative(row.qty) > 0
               then Max(TopPriority(demand, id), NonNegative(row.priority)) else TopPriority(demand, id)
  {
    forall code
      ensures SumBy(Wanted(id, code), demand + [row]) == SumBy(Wanted(id, code), demand) + Wanted(id, code)(row)
    {
      SumByAppend(Wanted(id, code), demand, [row]);
      SumByOne(Wanted(id, code), row);
    }
    SumByAppend(WantedBy(id), demand, [row]);
    SumByOne(WantedBy(id), row);
    assert (demand + [row])[..|demand|] == demand;
  }

  lemma {:induction false} NothingWanted(demand: seq<DemandRow>, id: int)
    requires SumBy(WantedBy(id), demand) == 0
    ensures forall code :: SumBy(Wanted(id, code), demand) == 0
    ensures TopPriority(demand, id) == 0
  {
    if demand != [] {
      var front, row := demand[..|demand| - 1], demand[|demand| - 1];
      assert demand == front + [row];
      RowAppended(front, row, id);
      WantedNotNegative(front, id);
      NothingWanted(front, id);
    }
  }

  lemma {:induction false} WantedNotNegative(demand: seq<DemandRow>, id: int)
    ensures SumBy(WantedBy(id), demand) >= 0
  {
    if demand != [] { WantedNotNegative(demand[1..], id); }
  }

  lemma {:induction false} OneLine(line: Line)
    requires line.qty > 0
    ensures Tidy([line]) && Bales([line]) == line.qty
    ensures forall code :: BalesOf([line], code) == if code == line.code then line.qty else 0
  {
    LineAppended([], line);
    assert [] + [line] == [line];
    assert forall code :: BalesOf([], code) == 0;
  }

  /** Each customer who asks for anything is there once, with all it asks for. */
  lemma {:induction false} GroupedIsFaithful(demand: seq<DemandRow>)
    ensures OneEach(Grouped(demand))
    ensures forall i :: 0 <= i < |Grouped(demand)| ==> Faithful(Grouped(demand)[i], demand)
    ensures forall id :: SumBy(WantedBy(id), demand) > 0 ==>
                           exists i :: 0 <= i < |Grouped(demand)| && Grouped(demand)[i].id == id
  {
    if demand != [] {
      var front, row := demand[..|demand| - 1], demand[|demand| - 1];
      assert demand == front + [row];
      GroupedIsFaithful(front);
      forall id {
        RowAppended(front, row, id);
      }
      if NonNegative(row.qty) > 0 { UpsertIsFaithful(Grouped(front), front, row); }
    }
  }

  lemma {:induction false} UpsertIsFaithful(cs: seq<Customer>, demand: seq<DemandRow>, row: DemandRow)
    requires OneEach(cs) && NonNegative(row.qty) > 0
    requires forall i :: 0 <= i < |cs| ==> Faithful(cs[i], demand)
    requires forall id :: SumBy(WantedBy(id), demand) > 0 ==> exists i :: 0 <= i < |cs| && cs[i].id == id
    ensures var after := Upsert(cs, row, NonNegative(row.qty));
            && OneEach(after)
            && (forall i :: 0 <= i < |after| ==> Faithful(after[i], demand + [row]))
            && forall id :: SumBy(WantedBy(id), demand + [row]) > 0 ==>
               exists i :: 0 <= i < |after| && after[i].id == id
  {
    var qty := NonNegative(row.qty);
    var after := Upsert(cs, row, qty);
    var k := UpsertShape(cs, row, qty);
    UpsertOneEach(cs, row, qty);
    forall i | 0 <= i < |after|
      ensures Faithful(after[i], demand + [row])
    {
      RowAppended(demand, row, after[i].id);
      if i == k { UpsertedIsFaithful(cs, demand, row, after[k], k); }
      else { assert Faithful(cs[i], demand); }
    }
    forall id | SumBy(WantedBy(id), demand + [row]) > 0
      ensures exists i :: 0 <= i < |after| && after[i].id == id
    {
      RowAppended(demand, row, id);
      if id == row.customer {
        assert after[k].id == id;
      } else {
        var i :| 0 <= i < |cs| && cs[i].id == id;
        assert after[i].id == id;
      }
    }
  }

  lemma {:induction false} UpsertedIsFaithful(cs: seq<Customer>, demand: seq<DemandRow>, row: DemandRow, c: Customer,
                                              k: nat)
    requires NonNegative(row.qty) > 0 && c.id == row.customer && k <= |cs|
    requires k < |cs| ==>
               && Faithful(cs[k], demand) && cs[k].id == row.customer
               && c.priority == Max(cs[k].priority, NonNegative(row.priority))
               && c.lines == Merged(cs[k].lines, row.code, RowName(row), NonNegative(row.qty))
               && c.total == cs[k].total + NonNegative(row.qty)
    requires k == |cs| ==>
               && c.priority == NonNegative(row.priority)
               && c.lines == [Line(row.code, RowName(row), NonNegative(row.qty))] && c.total == NonNegative(row.qty)
               && SumBy(WantedBy(row.customer), demand) <= 0
    ensures Faithful(c, demand + [row])
  {
    var qty := NonNegative(row.qty);
    RowAppended(demand, row, c.id);
    WantedNotNegative(demand, c.id);
    if k < |cs| {
      MergedHolds(cs[k].lines, row.code, RowName(row), qty);
    } else {
      OneLine(Line(row.code, RowName(row), qty));
      NothingWanted(demand, c.id);
    }
  }

  /** The ranking holds every customer once. */
  lemma {:induction false} RankedIsFaithful(demand: seq<DemandRow>, le: (string, string) -> bool)
    ensures OneEach(Ranked(demand, le))
    ensures forall i :: 0 <= i < |Ranked(demand, le)| ==> Faithful(Ranked(demand, le)[i], demand)
    ensures forall id :: SumBy(WantedBy(id), demand) > 0 ==>
                           exists i :: 0 <= i < |Ranked(demand, le)| && Ranked(demand, le)[i].id == id
  {
    var cs, ranked := Grouped(demand), Ranked(demand, le);
    GroupedIsFaithful(demand);
    RankedIsPermutation(demand, le);
    forall i | 0 <= i < |ranked|
      ensures Faithful(ranked[i], demand)
    {
      assert ranked[i] in cs;
    }
    forall id | SumBy(WantedBy(id), demand) > 0
      ensures exists i :: 0 <= i < |ranked| && ranked[i].id == id
    {
      var k :| 0 <= k < |cs| && cs[k].id == id;
      assert cs[k] in ranked;
    }
  }

  lemma {:induction false} RankedIsPermutation(demand: seq<DemandRow>, le: (string, string) -> bool)
    requires OneEach(Grouped(demand))
    ensures multiset(Ranked(demand, le)) == multiset(Grouped(demand))
    ensures forall c :: c in Ranked(demand, le) <==> c in Grouped(demand)
    ensures OneEach(Ranked(demand, le))
  {
    var cs, ranked := Grouped(demand), Ranked(demand, le);
    SortPermutes(CustomerOrder(le), cs);
    DistinctPermutation(cs, ranked);
    forall i, j | 0 <= i < j < |ranked|
      ensures ranked[i].id != ranked[j].id
    {
      assert ranked[i] in cs && ranked[j] in cs;
    }
  }

  /** No customer comes before one that outranks it. */
  lemma {:induction false} RankedInOrder(demand: seq<DemandRow>, le: (string, string) -> bool, i: nat, j: nat)
    requires TotalPreorder(le) && i < j < |Ranked(demand, le)|
    ensures var (a, b) := (Ranked(demand, le)[i], Ranked(demand, le)[j]);
            && a.priority >= b.priority
            && (a.priority == b.priority ==> a.total >= b.total)
            && (a.priority == b.priority && a.total == b.total ==> le(a.name, b.name))
  {
    CustomerOrderIsTotal(le);
    SortSorted(CustomerOrder(le), Grouped(demand));
    assert CustomerOrder(le)(Ranked(demand, le)[i], Ranked(demand, le)[j]);
  }

  lemma {:induction false} CustomerOrderIsTotal(le: (string, string) -> bool)
    requires TotalPreorder(le)
    ensures TotalPreorder(CustomerOrder(le))
  {
    var order := CustomerOrder(le);
    forall x, y
      ensures order(x, y) || order(y, x)
    {
      assert le(x.name, y.name) || le(y.name, x.name);
    }
    forall x, y, z | order(x, y) && order(y, z)
      ensures order(x, z)
    {
      assert le(x.name, y.name) && le(y.name, z.name) ==> le(x.name, z.name);
    }
  }

  method SortedDemandByCustomer(demand: seq<DemandRow>, le: (string, string) -> bool) returns (ranked: seq<Customer>)
    ensures ranked == Ranked(demand, le)
  {
    var byCustomer: seq<Customer> := [];
    var i := 0;
    while i < |demand|
      invariant 0 <= i <= |demand|
      invariant byCustomer == Grouped(demand[..i])
    {
      var row := demand[i];
      var qty := NonNegative(row.qty);
      assert demand[..i + 1][..i] == demand[..i];
      i := i + 1;
      if qty <= 0 { continue; }
      byCustomer := Upsert(byCustomer, row, qty);
    }
    assert demand[..i] == demand;
    ranked := Sort(CustomerOrder(le), byCustomer);
  }
}
