/** The recommended plan as a whole, against the stock and demand rows it is made from. */
module OptimizationPlan {
  import opened Standard
  import opened Sorting
  import opened ContainerPlanner
  import opened ContainerPacking
  import opened ContainerDemand
  import opened ContainerOptimizer
  import opened ServingOrder
  import opened DoubleSums
  import opened LayoutPhases

  datatype Plan = Plan(
    capacity: int, containers: seq<Suggested>, totalBales: int, fromDemand: int, fromFreeStock: int,
    unusedCapacity: int, fullContainers: int, customerContainers: int, singleProductContainers: int,
    mixedContainers: int, leftoverBales: int, unserved: seq<Unserved>)

  // ---- Figures ---------------------------------------------------------------------------

  function IsFull(capacity: int): Suggested -> bool { (s: Suggested) => Bales(s.lines) >= capacity }
  function IsCustomers(): Suggested -> bool { (s: Suggested) => s.kind.ForCustomer? }
  function IsSingle(): Suggested -> bool { (s: Suggested) => s.kind.SingleProduct? }
  function IsMixed(): Suggested -> bool { (s: Suggested) => s.kind.Mixed? }

  /** All containers but the last are full, and none is empty or overfull. */
  ghost predicate OnlyLastOpenIn(containers: seq<Suggested>, capacity: int) {
    && (forall k :: 0 <= k < |containers| - 1 ==> Bales(containers[k].lines) == capacity)
    && (containers != [] ==> 0 < Bales(containers[|containers| - 1].lines) <= capacity)
  }

  lemma {:induction false} FullTotal(containers: seq<Suggested>, capacity: int)
    requires AllFull(containers, capacity)
    ensures SumBy(ContainerBales(), containers) == |containers| * capacity
    ensures |Filter(IsFull(capacity), containers)| == |containers|
  {
    if containers != [] {
      FullTotal(containers[1..], capacity);
      NextMultiple(|containers|, capacity);
    }
  }

  /** The last container alone decides how many are full and what is left over. */
  lemma {:induction false} LastDecides(containers: seq<Suggested>, capacity: int) returns (last: int)
    requires capacity > 0 && containers != [] && OnlyLastOpenIn(containers, capacity)
    ensures last == Bales(containers[|containers| - 1].lines) && 0 < last <= capacity
    ensures SumBy(ContainerBales(), containers) == (|containers| - 1) * capacity + last
    ensures |Filter(IsFull(capacity), containers)| == |containers| - 1 + if last == capacity then 1 else 0
  {
    var front, s := containers[..|containers| - 1], containers[|containers| - 1];
    assert containers == front + [s];
    FullTotal(front, capacity);
    ContainerAppended(front, s);
    FilterAppend(IsFull(capacity), front, s);
    last := Bales(s.lines);
  }

  /** There are exactly as many containers as the total divided by the capacity,
      rounded up; the full ones are the quotient, and the remainder is left over. */
  ghost predicate Counted(plan: Plan)
    requires plan.capacity > 0
  {
    && plan.totalBales == SumBy(ContainerBales(), plan.containers)
    && plan.fullContainers == plan.totalBales / plan.capacity
    && plan.leftoverBales == plan.totalBales % plan.capacity
    && |plan.containers| == plan.fullContainers + (if plan.leftoverBales > 0 then 1 else 0)
    && plan.unusedCapacity == if plan.leftoverBales > 0 then plan.capacity - plan.leftoverBales else 0
  }

  lemma {:induction false} CountIsCeiling(plan: Plan)
    requires plan.capacity > 0 && OnlyLastOpenIn(plan.containers, plan.capacity)
    requires plan.totalBales == SumBy(ContainerBales(), plan.containers)
    requires plan.unusedCapacity == |plan.containers| * plan.capacity - plan.totalBales
    requires plan.fullContainers == |Filter(IsFull(plan.capacity), plan.containers)|
    requires plan.leftoverBales == LeftoverOf(plan.containers, plan.capacity)
    ensures Counted(plan)
  {
    if plan.containers == [] {
      QuotientIs(0, 0, 0, plan.capacity);
    } else {
      var last := LastDecides(plan.containers, plan.capacity);
      NextMultiple(|plan.containers|, plan.capacity);
      if last == plan.capacity {
        QuotientIs(plan.totalBales, |plan.containers|, 0, plan.capacity);
      } else {
        QuotientIs(plan.totalBales, |plan.containers| - 1, last, plan.capacity);
      }
    }
  }

  function LeftoverOf(containers: seq<Suggested>, capacity: int): int {
    if containers == [] || IsFull(capacity)(containers[|containers| - 1]) then 0
    else Bales(containers[|containers| - 1].lines)
  }

  /** Every container is counted under its one kind. */
  ghost predicate KindsCounted(plan: Plan) {
    && plan.customerContainers == |Filter(IsCustomers(), plan.containers)|
    && plan.singleProductContainers == |Filter(IsSingle(), plan.containers)|
    && plan.mixedContainers == |Filter(IsMixed(), plan.containers)|
    && plan.customerContainers + plan.singleProductContainers + plan.mixedContainers == |plan.containers|
  }

  lemma {:induction false} KindsAddUp(containers: seq<Suggested>)
    ensures |Filter(IsCustomers(), containers)| + |Filter(IsSingle(), containers)| + |Filter(IsMixed(), containers)|
            == |containers|
  {
    if containers != [] { KindsAddUp(containers[1..]); }
  }

  // ---- Stock and demand --------------------------------------------------------------------

  /** Every free bale is in a container, article by article. */
  ghost predicate StockPacked(plan: Plan, rows: seq<StockRow>) {
    && (forall code :: SumBy(ContainerBalesOf(code), plan.containers) == SumBy(StockOf(code), rows))
    && plan.totalBales == SumBy(AllStock(), rows)
    && plan.fromDemand + plan.fromFreeStock == plan.totalBales
  }

  /** What a customer's rows ask of an article, less the shortfall the plan reports. */
  function Promised(plan: Plan, demand: seq<DemandRow>, id: int, code: string): int {
    SumBy(Wanted(id, code), demand) - SumBy(ShortOf(id, code), plan.unserved)
  }

  /** Of each article the lesser of stock and demand is promised; the containers
      reserved for a customer hold no more than the customer is promised. */
  ghost predicate DemandServed(plan: Plan, rows: seq<StockRow>, demand: seq<DemandRow>) {
    && (forall code ::
          SumBy(RowWants(code), demand) - SumBy(ShortOfCode(code), plan.unserved)
          == Min(SumBy(StockOf(code), rows), SumBy(RowWants(code), demand)))
    && (forall id, code ::
          SumBy(ReservedFor(id, code), plan.containers) <= Promised(plan, demand, id, code))
    && plan.fromDemand == SumBy(AllWants(), demand) - SumBy(Short(), plan.unserved)
  }

  /** While a customer is short of an article nobody ranked lower is promised any of it. */
  ghost predicate RankRespected(plan: Plan, demand: seq<DemandRow>, ranked: seq<Customer>) {
    forall i, j, code :: 0 <= i < j < |ranked| && SumBy(ShortOf(ranked[i].id, code), plan.unserved) > 0
                         ==> Promised(plan, demand, ranked[j].id, code) == 0
  }

  function ShortBy(id: int): Unserved -> int { (u: Unserved) => if u.customer == id then u.shortfall else 0 }

  /** Each customer gets as many containers of its own as its promised bales fill. */
  ghost predicate OwnContainers(plan: Plan, demand: seq<DemandRow>)
    requires plan.capacity > 0
  {
    forall id :: SumBy(Owned(id), plan.containers)
                 == Fills(SumBy(WantedBy(id), demand) - SumBy(ShortBy(id), plan.unserved), plan.capacity)
  }

  /** The lines of a customer with what each is promised; a line promised nothing drops out. */
  function PromisedLines(plan: Plan, demand: seq<DemandRow>, id: int, lines: seq<Line>): seq<Line> {
    if lines == [] then []
    else
      var line := lines[|lines| - 1];
      PromisedLines(plan, demand, id, lines[..|lines| - 1]) + Given(line, Promised(plan, demand, id, line.code))
  }

  /** The containers that the promised bales of a customer fill. */
  function PromisedFill(plan: Plan, demand: seq<DemandRow>, id: int): nat
    requires plan.capacity > 0
  {
    Fills(SumBy(WantedBy(id), demand) - SumBy(ShortBy(id), plan.unserved), plan.capacity)
  }

  /** Customer after customer in the order given: the containers its promised bales fill,
      and in them the first of those bales, in the order of its lines. */
  ghost predicate CustomersInTurn(part: seq<Suggested>, customers: seq<Customer>, plan: Plan, demand: seq<DemandRow>)
    requires plan.capacity > 0
    decreases |customers|
  {
    if customers == [] then part == []
    else
      var (front, c) := (customers[..|customers| - 1], customers[|customers| - 1]);
      var cut := |part| - PromisedFill(plan, demand, c.id);
      && 0 <= cut <= |part| && CustomersInTurn(part[..cut], front, plan, demand)
      && Section(part[cut..], c.id, PromisedLines(plan, demand, c.id, c.lines))
  }

  /** The stock of an article beyond what is asked of it. */
  function Surplus(rows: seq<StockRow>, demand: seq<DemandRow>): string -> int {
    (code: string) => Left(SumBy(StockOf(code), rows), SumBy(RowWants(code), demand))
  }

  /** First the containers of the customers, then those of one product, then the mixed ones. */
  ghost predicate InPhases(plan: Plan, rows: seq<StockRow>, demand: seq<DemandRow>, le: (string, string) -> bool,
                           rest: seq<Line>)
    requires plan.capacity > 0
  {
    var (c, s) := (plan.customerContainers, plan.singleProductContainers);
    && 0 <= c && 0 <= s && 0 <= plan.mixedContainers && c + s + plan.mixedContainers == |plan.containers|
    && Phases(plan.containers[..c], plan.containers[c..c + s], plan.containers[c + s..], plan, rows, demand, le, rest)
  }

  ghost predicate Phases(customers: seq<Suggested>, singles: seq<Suggested>, mixed: seq<Suggested>, plan: Plan,
                         rows: seq<StockRow>, demand: seq<DemandRow>, le: (string, string) -> bool, rest: seq<Line>)
    requires plan.capacity > 0
  {
    && CustomersInTurn(customers, Ranked(demand, le), plan, demand)
    && SurplusInSingles(singles, rows, demand, le, plan.capacity)
    && LeftOver(mixed, rest, plan.capacity, le)
    && RestOfStock(rest, rows, customers + singles)
  }

  /** Of each article as many containers as its surplus fills, the largest surplus first. */
  ghost predicate SurplusInSingles(part: seq<Suggested>, rows: seq<StockRow>, demand: seq<DemandRow>,
                                   le: (string, string) -> bool, capacity: int)
    requires capacity > 0
  {
    && SingleProducts(part, capacity)
    && (forall code :: SumBy(Holding(code), part) == Fills(Surplus(rows, demand)(code), capacity))
    && (TotalPreorder(le) ==> LargestFirst(part, Surplus(rows, demand), le))
    && forall k :: 0 <= k < |part| ==> StockNames(rows, part[k].lines)
  }

  ghost predicate GoodPlan(plan: Plan, rows: seq<StockRow>, demand: seq<DemandRow>, le: (string, string) -> bool) {
    && plan.capacity > 0 && OnlyLastOpenIn(plan.containers, plan.capacity) && Counted(plan)
    && KindsCounted(plan)
    && StockPacked(plan, rows) && DemandServed(plan, rows, demand)
    && RankRespected(plan, demand, Ranked(demand, le)) && OwnContainers(plan, demand)
  }

  /** What the report says of one customer and article is what the ranking gives him. */
  lemma {:induction false} PromisedIsServed(plan: Plan, demand: seq<DemandRow>, le: (string, string) -> bool,
                                            stock: seq<Line>, id: int, code: string)
    requires plan.unserved == UnservedBy(Ranked(demand, le), stock)
    ensures Promised(plan, demand, id, code) == ServedTo(Ranked(demand, le), BalesOf(stock, code), id, code)
  {
    RankedWants(demand, le, id, code);
    UnservedShort(Ranked(demand, le), stock, id, code);
  }

  lemma {:induction false} RankIsRespected(plan: Plan, demand: seq<DemandRow>, le: (string, string) -> bool,
                                           stock: seq<Line>)
    requires plan.unserved == UnservedBy(Ranked(demand, le), stock)
    ensures RankRespected(plan, demand, Ranked(demand, le))
  {
    var ranked := Ranked(demand, le);
    forall i, j, code | 0 <= i < j < |ranked| && SumBy(ShortOf(ranked[i].id, code), plan.unserved) > 0
      ensures Promised(plan, demand, ranked[j].id, code) == 0
    {
      PlaceServed(plan, demand, le, stock, i, code);
      PlaceServed(plan, demand, le, stock, j, code);
      RankedWants(demand, le, 0, code);
      NothingBelowShort(ranked, BalesOf(stock, code), code, i, j);
    }
  }

  lemma {:induction false} PlaceServed(plan: Plan, demand: seq<DemandRow>, le: (string, string) -> bool,
                                       stock: seq<Line>, i: nat, code: string)
    requires plan.unserved == UnservedBy(Ranked(demand, le), stock) && i < |Ranked(demand, le)|
    ensures var ranked := Ranked(demand, le);
            && Promised(plan, demand, ranked[i].id, code) == ServedQty(ranked, BalesOf(stock, code), code, i)
            && SumBy(ShortOf(ranked[i].id, code), plan.unserved)
               == BalesOf(ranked[i].lines, code) - ServedQty(ranked, BalesOf(stock, code), code, i)
  {
    var ranked := Ranked(demand, le);
    RankedWants(demand, le, ranked[i].id, code);
    OwnPlace(ranked, BalesOf(stock, code), code, i);
    UnservedShort(ranked, stock, ranked[i].id, code);
  }

  lemma {:induction false} DemandIsServed(plan: Plan, rows: seq<StockRow>, demand: seq<DemandRow>,
                                          le: (string, string) -> bool, stock: seq<Line>)
    requires plan.unserved == UnservedBy(Ranked(demand, le), stock)
    requires forall code :: BalesOf(stock, code) == SumBy(StockOf(code), rows)
    requires ReservedServed(plan.containers, Ranked(demand, le), stock)
    requires plan.fromDemand + SumBy(Short(), plan.unserved) == SumBy(CustomerBales(), Ranked(demand, le))
    ensures DemandServed(plan, rows, demand)
  {
    var ranked := Ranked(demand, le);
    forall code
      ensures SumBy(RowWants(code), demand) - SumBy(ShortOfCode(code), plan.unserved)
              == Min(SumBy(StockOf(code), rows), SumBy(RowWants(code), demand))
    {
      RankedWants(demand, le, 0, code);
      UnservedShort(ranked, stock, 0, code);
      StockNotNegative(rows, code);
      ServedIsMinimum(ranked, BalesOf(stock, code), code);
    }
    forall id, code
      ensures SumBy(ReservedFor(id, code), plan.containers) <= Promised(plan, demand, id, code)
    {
      PromisedIsServed(plan, demand, le, stock, id, code);
    }
    RankedWants(demand, le, 0, "");
  }

  lemma {:induction false} OwnMissing(id: int, lines: seq<Line>, stock: seq<Line>, before: seq<Customer>, other: int)
    ensures SumBy(ShortBy(other), MissingAfter(id, lines, stock, before))
            == if other == id then SumBy(Short(), MissingAfter(id, lines, stock, before)) else 0
  {
    if lines != [] {
      var n := |lines| - 1;
      var take := Min(lines[n].qty, Left(BalesOf(stock, lines[n].code), SumBy(CustomerWants(lines[n].code), before)));
      var front, own := MissingAfter(id, lines[..n], stock, before), Report(id, lines[n], take);
      OwnMissing(id, lines[..n], stock, before, other);
      SumByAppend(ShortBy(other), front, own);
      SumByAppend(Short(), front, own);
      if own != [] {
        SumByOne(ShortBy(other), own[0]);
        SumByOne(Short(), own[0]);
      }
    }
  }

  /** What customer i misses when those before it are served first. */
  function ShortAt(customers: seq<Customer>, stock: seq<Line>, i: nat): int
    requires i < |customers|
  {
    SumBy(Short(), MissingAfter(customers[i].id, customers[i].lines, stock, customers[..i]))
  }

  lemma {:induction false} NoReport(customers: seq<Customer>, stock: seq<Line>, id: int)
    requires forall i :: 0 <= i < |customers| ==> customers[i].id != id
    ensures SumBy(ShortBy(id), UnservedBy(customers, stock)) == 0
  {
    if customers != [] {
      var n := |customers| - 1;
      var front, c := customers[..n], customers[n];
      NoReport(front, stock, id);
      SumByAppend(ShortBy(id), UnservedBy(front, stock), MissingAfter(c.id, c.lines, stock, front));
      OwnMissing(c.id, c.lines, stock, front, id);
    }
  }

  /** In a ranking where every customer stands once, the report of one is its own shortfall. */
  lemma {:induction false} OwnReport(customers: seq<Customer>, stock: seq<Line>, i: nat)
    requires OneEach(customers) && i < |customers|
    ensures SumBy(ShortBy(customers[i].id), UnservedBy(customers, stock)) == ShortAt(customers, stock, i)
  {
    var n := |customers| - 1;
    var front, c, id := customers[..n], customers[n], customers[i].id;
    SumByAppend(ShortBy(id), UnservedBy(front, stock), MissingAfter(c.id, c.lines, stock, front));
    OwnMissing(c.id, c.lines, stock, front, id);
    if i < n {
      OwnReport(front, stock, i);
      assert front[..i] == customers[..i];
    } else {
      NoReport(front, stock, id);
    }
  }

  lemma {:induction false} NoContainers(customers: seq<Customer>, stock: seq<Line>, id: int, capacity: int)
    requires capacity > 0 && forall i :: 0 <= i < |customers| ==> customers[i].id != id
    ensures ContainersFor(customers, stock, id, capacity) == 0
  {
    if customers != [] { NoContainers(customers[..|customers| - 1], stock, id, capacity); }
  }

  lemma {:induction false} OwnContainersAt(customers: seq<Customer>, stock: seq<Line>, i: nat, capacity: int)
    requires capacity > 0 && OneEach(customers) && i < |customers|
    ensures ContainersFor(customers, stock, customers[i].id, capacity)
            == Fills(Bales(customers[i].lines) - ShortAt(customers, stock, i), capacity)
  {
    var n := |customers| - 1;
    var front, c, id := customers[..n], customers[n], customers[i].id;
    assert customers == front + [c];
    ContainersForAppended(front, c, stock, id, capacity);
    if i < n {
      OwnContainersAt(front, stock, i, capacity);
      assert front[..i] == customers[..i];
    } else {
      NoContainers(front, stock, id, capacity);
    }
  }

  /** The customers are those of the demand rows, once each. */
  ghost predicate AllCustomers(customers: seq<Customer>, demand: seq<DemandRow>) {
    && OneEach(customers)
    && (forall i :: 0 <= i < |customers| ==> Bales(customers[i].lines) == SumBy(WantedBy(customers[i].id), demand))
    && forall id :: SumBy(WantedBy(id), demand) > 0 ==> Ranks(customers, id)
  }

  ghost predicate Ranks(customers: seq<Customer>, id: int) {
    exists i :: 0 <= i < |customers| && customers[i].id == id
  }

  lemma {:induction false} ContainersOf(customers: seq<Customer>, demand: seq<DemandRow>, stock: seq<Line>,
                                        capacity: int, id: int)
    requires capacity > 0 && AllCustomers(customers, demand)
    ensures ContainersFor(customers, stock, id, capacity)
            == Fills(SumBy(WantedBy(id), demand) - SumBy(ShortBy(id), UnservedBy(customers, stock)), capacity)
  {
    if Ranks(customers, id) {
      var i: nat :| i < |customers| && customers[i].id == id;
      OwnContainersAt(customers, stock, i, capacity);
      OwnReport(customers, stock, i);
    } else {
      NoContainers(customers, stock, id, capacity);
      NoReport(customers, stock, id);
      WantedNotNegative(demand, id);
    }
  }

  lemma {:induction false} ContainersAreOwn(containers: seq<Suggested>, unserved: seq<Unserved>,
                                            demand: seq<DemandRow>, customers: seq<Customer>, stock: seq<Line>,
                                            capacity: int, id: int)
    requires capacity > 0 && unserved == UnservedBy(customers, stock) && AllCustomers(customers, demand)
    requires WholeContainers(containers, customers, stock, capacity)
    ensures SumBy(Owned(id), containers)
            == Fills(SumBy(WantedBy(id), demand) - SumBy(ShortBy(id), unserved), capacity)
  {
    ContainersOf(customers, demand, stock, capacity, id);
  }

  lemma {:induction false} AllContainersAreOwn(plan: Plan, demand: seq<DemandRow>, customers: seq<Customer>,
                                               stock: seq<Line>)
    requires plan.capacity > 0 && plan.unserved == UnservedBy(customers, stock) && AllCustomers(customers, demand)
    requires WholeContainers(plan.containers, customers, stock, plan.capacity)
    ensures OwnContainers(plan, demand)
  {
    forall id {
      ContainersAreOwn(plan.containers, plan.unserved, demand, customers, stock, plan.capacity, id);
    }
  }

  lemma {:induction false} RankedAreAll(demand: seq<DemandRow>, le: (string, string) -> bool)
    ensures AllCustomers(Ranked(demand, le), demand)
  {
    RankedIsFaithful(demand, le);
    assert forall i :: 0 <= i < |Ranked(demand, le)| ==> Faithful(Ranked(demand, le)[i], demand);
  }

  // ---- Building the plan ---------------------------------------------------------------------

  // ---- The phases -----------------------------------------------------------------------------

  /** What line j of customer i gets is what the customer is promised of its article. */
  lemma {:induction false} LinePromised(plan: Plan, demand: seq<DemandRow>, le: (string, string) -> bool,
                                        stock: seq<Line>, i: nat, j: nat)
    requires plan.unserved == UnservedBy(Ranked(demand, le), stock)
    requires i < |Ranked(demand, le)| && j < |Ranked(demand, le)[i].lines|
    ensures var (ranked, line) := (Ranked(demand, le), Ranked(demand, le)[i].lines[j]);
            Min(line.qty, Left(BalesOf(stock, line.code), SumBy(CustomerWants(line.code), ranked[..i])))
            == Promised(plan, demand, ranked[i].id, line.code)
  {
    var lines := Ranked(demand, le)[i].lines;
    PlaceServed(plan, demand, le, stock, i, lines[j].code);
    RankedWants(demand, le, 0, "");
    LineQtyIsBales(lines, j);
  }

  lemma {:induction false} LinesPromised(plan: Plan, demand: seq<DemandRow>, id: int, lines: seq<Line>,
                                         stock: seq<Line>, before: seq<Customer>)
    requires forall j :: 0 <= j < |lines| ==>
               Min(lines[j].qty, Left(BalesOf(stock, lines[j].code), SumBy(CustomerWants(lines[j].code), before)))
               == Promised(plan, demand, id, lines[j].code)
    ensures ServedLines(lines, stock, before) == PromisedLines(plan, demand, id, lines)
  {
    if lines != [] { LinesPromised(plan, demand, id, lines[..|lines| - 1], stock, before); }
  }

  lemma {:induction false} PlacePromised(plan: Plan, demand: seq<DemandRow>, le: (string, string) -> bool,
                                         stock: seq<Line>, i: nat)
    requires plan.unserved == UnservedBy(Ranked(demand, le), stock) && i < |Ranked(demand, le)|
    ensures var ranked := Ranked(demand, le);
            ServedLines(ranked[i].lines, stock, ranked[..i])
            == PromisedLines(plan, demand, ranked[i].id, ranked[i].lines)
  {
    var ranked := Ranked(demand, le);
    forall j | 0 <= j < |ranked[i].lines| {
      LinePromised(plan, demand, le, stock, i, j);
    }
    LinesPromised(plan, demand, ranked[i].id, ranked[i].lines, stock, ranked[..i]);
  }

  lemma {:induction false} FillPromised(plan: Plan, demand: seq<DemandRow>, le: (string, string) -> bool,
                                        stock: seq<Line>, i: nat)
    requires plan.capacity > 0 && plan.unserved == UnservedBy(Ranked(demand, le), stock) && i < |Ranked(demand, le)|
    ensures var ranked := Ranked(demand, le);
            OwnFull(ranked[i], stock, ranked[..i], plan.capacity) == PromisedFill(plan, demand, ranked[i].id)
  {
    var ranked := Ranked(demand, le);
    RankedAreAll(demand, le);
    OwnReport(ranked, stock, i);
  }

  ghost predicate AsPromised(customers: seq<Customer>, i: nat, plan: Plan, demand: seq<DemandRow>, stock: seq<Line>)
    requires plan.capacity > 0 && i < |customers|
  {
    && OwnFull(customers[i], stock, customers[..i], plan.capacity) == PromisedFill(plan, demand, customers[i].id)
    && ServedLines(customers[i].lines, stock, customers[..i])
       == PromisedLines(plan, demand, customers[i].id, customers[i].lines)
  }

  lemma {:induction false} SectionsPromised(part: seq<Suggested>, customers: seq<Customer>, plan: Plan,
                                            demand: seq<DemandRow>, stock: seq<Line>)
    requires plan.capacity > 0 && InSections(part, customers, stock, plan.capacity)
    requires forall i :: 0 <= i < |customers| ==> AsPromised(customers, i, plan, demand, stock)
    ensures CustomersInTurn(part, customers, plan, demand)
    decreases |customers|
  {
    if customers != [] {
      var n := |customers| - 1;
      var front := customers[..n];
      assert AsPromised(customers, n, plan, demand, stock);
      forall i | 0 <= i < n
        ensures AsPromised(front, i, plan, demand, stock)
      {
        assert AsPromised(customers, i, plan, demand, stock);
        assert front[..i] == customers[..i];
      }
      SectionsPromised(part[..|part| - PromisedFill(plan, demand, customers[n].id)], front, plan, demand, stock);
    }
  }

  lemma {:induction false} FilterParts(p: Suggested -> bool, s: seq<Suggested>, t: seq<Suggested>)
    ensures |Filter(p, s + t)| == |Filter(p, s)| + |Filter(p, t)|
  {
    if s == [] {
      assert s + t == t;
    } else {
      assert (s + t)[1..] == s[1..] + t;
      FilterParts(p, s[1..], t);
    }
  }

  lemma {:induction false} FilterAll(p: Suggested -> bool, s: seq<Suggested>)
    ensures AllAre(p, s) ==> |Filter(p, s)| == |s|
    ensures NoneAre(p, s) ==> |Filter(p, s)| == 0
  {
    if s != [] { FilterAll(p, s[1..]); }
  }

  ghost predicate AllAre(p: Suggested -> bool, s: seq<Suggested>) { forall k :: 0 <= k < |s| ==> p(s[k]) }

  ghost predicate NoneAre(p: Suggested -> bool, s: seq<Suggested>) { forall k :: 0 <= k < |s| ==> !p(s[k]) }

  lemma {:induction false} PartsCounted(p: Suggested -> bool, a: seq<Suggested>, b: seq<Suggested>, c: seq<Suggested>)
    ensures |Filter(p, a + b + c)| == |Filter(p, a)| + |Filter(p, b)| + |Filter(p, c)|
  {
    FilterParts(p, a + b, c);
    FilterParts(p, a, b);
  }

  lemma {:induction false} KindOfPart(p: Suggested -> bool, a: seq<Suggested>, b: seq<Suggested>, c: seq<Suggested>)
    ensures AllAre(p, a) && NoneAre(p, b) && NoneAre(p, c) ==> |Filter(p, a + b + c)| == |a|
    ensures NoneAre(p, a) && AllAre(p, b) && NoneAre(p, c) ==> |Filter(p, a + b + c)| == |b|
    ensures NoneAre(p, a) && NoneAre(p, b) && AllAre(p, c) ==> |Filter(p, a + b + c)| == |c|
  {
    PartsCounted(p, a, b, c);
    FilterAll(p, a);
    FilterAll(p, b);
    FilterAll(p, c);
  }

  lemma {:induction false} KindsOfParts(a: seq<Suggested>, b: seq<Suggested>, c: seq<Suggested>, capacity: int)
    requires OnlyCustomers(a) && SingleProducts(b, capacity)
    requires forall k :: 0 <= k < |c| ==> c[k].kind == Mixed
    ensures |Filter(IsCustomers(), a + b + c)| == |a|
    ensures |Filter(IsSingle(), a + b + c)| == |b|
    ensures |Filter(IsMixed(), a + b + c)| == |c|
  {
    KindOfPart(IsCustomers(), a, b, c);
    KindOfPart(IsSingle(), a, b, c);
    KindOfPart(IsMixed(), a, b, c);
  }

  lemma {:induction false} SinglesNamed(free: seq<Line>, available: seq<Line>, rows: seq<StockRow>, capacity: int)
    requires capacity > 0 && StockNames(rows, available) && forall line :: line in free ==> line in available
    ensures var part := SinglesOf(free, capacity);
            forall k :: 0 <= k < |part| ==> StockNames(rows, part[k].lines)
  {
    var part := SinglesOf(free, capacity);
    forall k | 0 <= k < |part|
      ensures StockNames(rows, part[k].lines)
    {
      var r := SingleRow(free, capacity, k);
      assert free[r] in available;
      var i :| 0 <= i < |available| && available[i] == free[r];
      assert IsStockName(rows, available[i].code, available[i].name);
    }
  }

  lemma {:induction false} ShelfNamed(rows: seq<StockRow>, stock: seq<Line>, available: seq<Line>)
    requires StockNames(rows, stock) && SameArticles(available, stock)
    ensures StockNames(rows, available)
  {
    forall i | 0 <= i < |available|
      ensures IsStockName(rows, available[i].code, available[i].name)
    {
      assert IsStockName(rows, stock[i].code, stock[i].name);
    }
  }

  lemma {:induction false} SinglesAreSurplus(free: seq<Line>, available: seq<Line>, rows: seq<StockRow>,
                                             demand: seq<DemandRow>, le: (string, string) -> bool, capacity: int)
    requires capacity > 0 && FreeRows(free, available, le)
    requires forall code :: BalesOf(available, code) == Surplus(rows, demand)(code)
    requires StockNames(rows, available)
    ensures SurplusInSingles(SinglesOf(free, capacity), rows, demand, le, capacity)
  {
    var part := SinglesOf(free, capacity);
    forall code
      ensures SumBy(Holding(code), part) == Fills(Surplus(rows, demand)(code), capacity)
      ensures SingleProducts(part, capacity)
    {
      SinglesCount(free, capacity, code);
    }
    SinglesCount(free, capacity, "");
    SinglesNamed(free, available, rows, capacity);
    if TotalPreorder(le) {
      SinglesInOrder(free, capacity, le);
      assert forall code :: ByCode(free)(code) == Surplus(rows, demand)(code);
    }
  }

  ghost predicate RestOfStock(rest: seq<Line>, rows: seq<StockRow>, front: seq<Suggested>) {
    forall code :: BalesOf(rest, code) == SumBy(StockOf(code), rows) - SumBy(ContainerBalesOf(code), front)
  }

  lemma {:induction false} RestIs(plan: Plan, rows: seq<StockRow>, front: seq<Suggested>, mixed: seq<Suggested>,
                                  rest: seq<Line>, le: (string, string) -> bool)
    requires plan.containers == front + mixed && StockPacked(plan, rows) && LeftOver(mixed, rest, plan.capacity, le)
    ensures RestOfStock(rest, rows, front)
  {
    forall code
      ensures BalesOf(rest, code) == SumBy(StockOf(code), rows) - SumBy(ContainerBalesOf(code), front)
    {
      SumByAppend(ContainerBalesOf(code), front, mixed);
    }
  }

  lemma {:induction false} ShelfIsSurplus(available: seq<Line>, rows: seq<StockRow>, demand: seq<DemandRow>,
                                          le: (string, string) -> bool, stock: seq<Line>)
    requires ShelfLeft(available, Ranked(demand, le), stock)
    requires forall code :: BalesOf(stock, code) == SumBy(StockOf(code), rows)
    ensures forall code :: BalesOf(available, code) == Surplus(rows, demand)(code)
  {
    forall code
      ensures BalesOf(available, code) == Surplus(rows, demand)(code)
    {
      RankedWants(demand, le, 0, code);
    }
  }

  /** The parts of a plan are found again by its counts. */
  lemma {:induction false} PartsFound(plan: Plan, a: seq<Suggested>, b: seq<Suggested>, c: seq<Suggested>)
    requires plan.containers == a + b + c && KindsCounted(plan)
    requires OnlyCustomers(a) && SingleProducts(b, plan.capacity) && forall k :: 0 <= k < |c| ==> c[k].kind == Mixed
    ensures plan.customerContainers == |a| && plan.singleProductContainers == |b| && plan.mixedContainers == |c|
    ensures plan.containers[..|a|] == a && plan.containers[|a|..|a| + |b|] == b
    ensures plan.containers[|a| + |b|..] == c && plan.containers[..|a| + |b|] == a + b
  {
    KindsOfParts(a, b, c, plan.capacity);
  }

  lemma {:induction false} PhasesHold(plan: Plan, rows: seq<StockRow>, demand: seq<DemandRow>,
                                      le: (string, string) -> bool, stock: seq<Line>, l: Layout, free: seq<Line>,
                                      mixed: seq<Suggested>, rest: seq<Line>)
    requires plan.capacity > 0 && plan.unserved == UnservedBy(Ranked(demand, le), stock)
    requires plan.containers == l.containers + SinglesOf(free, plan.capacity) + mixed && StockPacked(plan, rows)
    requires InSections(l.containers, Ranked(demand, le), stock, plan.capacity)
    requires ShelfLeft(l.available, Ranked(demand, le), stock)
    requires FreeRows(free, l.available, le) && LeftOver(mixed, rest, plan.capacity, le)
    requires StockNames(rows, stock) && forall code :: BalesOf(stock, code) == SumBy(StockOf(code), rows)
    ensures Phases(l.containers, SinglesOf(free, plan.capacity), mixed, plan, rows, demand, le, rest)
  {
    var ranked := Ranked(demand, le);
    ShelfIsSurplus(l.available, rows, demand, le, stock);
    ShelfNamed(rows, stock, l.available);
    SinglesAreSurplus(free, l.available, rows, demand, le, plan.capacity);
    forall i | 0 <= i < |ranked|
      ensures AsPromised(ranked, i, plan, demand, stock)
    {
      FillPromised(plan, demand, le, stock, i);
      PlacePromised(plan, demand, le, stock, i);
    }
    SectionsPromised(l.containers, ranked, plan, demand, stock);
    RestIs(plan, rows, l.containers + SinglesOf(free, plan.capacity), mixed, rest, le);
  }

  lemma {:induction false} PhasesFound(plan: Plan, rows: seq<StockRow>, demand: seq<DemandRow>,
                                       le: (string, string) -> bool, customers: seq<Suggested>,
                                       singles: seq<Suggested>, mixed: seq<Suggested>, rest: seq<Line>)
    requires plan.capacity > 0 && plan.containers == customers + singles + mixed && KindsCounted(plan)
    requires OnlyCustomers(customers) && Phases(customers, singles, mixed, plan, rows, demand, le, rest)
    ensures InPhases(plan, rows, demand, le, rest)
  {
    PartsFound(plan, customers, singles, mixed);
  }

  /** The plan with its figures. */
  function PlanOf(l: Layout, capacity: int, all: seq<Suggested>, fromFreeStock: int): Plan {
    var totalBales := SumBy(ContainerBales(), all);
    Plan(capacity, all, totalBales, l.fromDemand, fromFreeStock, |all| * capacity - totalBales,
         |Filter(IsFull(capacity), all)|, |Filter(IsCustomers(), all)|, |Filter(IsSingle(), all)|,
         |Filter(IsMixed(), all)|, LeftoverOf(all, capacity), l.unserved)
  }

  lemma {:induction false} FiguresHold(l: Layout, capacity: int, all: seq<Suggested>, fromFreeStock: int)
    requires capacity > 0 && OnlyLastOpenIn(all, capacity)
    ensures Counted(PlanOf(l, capacity, all, fromFreeStock)) && KindsCounted(PlanOf(l, capacity, all, fromFreeStock))
  {
    CountIsCeiling(PlanOf(l, capacity, all, fromFreeStock));
    KindsAddUp(all);
  }

  /** The plan is made from a layout of the ranking, and from the last two phases. */
  ghost predicate MadeFrom(plan: Plan, rows: seq<StockRow>, demand: seq<DemandRow>, le: (string, string) -> bool,
                           stock: seq<Line>, l: Layout, r: Rest) {
    && plan.capacity > 0 && plan == PlanOf(l, plan.capacity, r.all, Bales(l.available))
    && StockNames(rows, stock) && Bales(stock) == SumBy(AllStock(), rows)
    && (forall code :: BalesOf(stock, code) == SumBy(StockOf(code), rows))
    && LaidOut(l, Ranked(demand, le), stock, plan.capacity) && RestLaid(r, l, plan.capacity, le)
  }

  lemma {:induction false} StockIsPacked(plan: Plan, rows: seq<StockRow>, demand: seq<DemandRow>,
                                         le: (string, string) -> bool, stock: seq<Line>, l: Layout, r: Rest)
    requires MadeFrom(plan, rows, demand, le, stock, l, r)
    ensures StockPacked(plan, rows) && ReservedServed(r.all, Ranked(demand, le), stock)
    ensures WholeContainers(r.all, Ranked(demand, le), stock, plan.capacity)
    ensures Counted(plan) && KindsCounted(plan) && OnlyLastOpenIn(plan.containers, plan.capacity)
  {
    FiguresHold(l, plan.capacity, r.all, Bales(l.available));
  }

  lemma {:induction false} PlanIsGood(plan: Plan, rows: seq<StockRow>, demand: seq<DemandRow>,
                                      le: (string, string) -> bool, stock: seq<Line>, l: Layout, r: Rest)
    requires MadeFrom(plan, rows, demand, le, stock, l, r)
    ensures GoodPlan(plan, rows, demand, le)
  {
    StockIsPacked(plan, rows, demand, le, stock, l, r);
    DemandIsServed(plan, rows, demand, le, stock);
    RankIsRespected(plan, demand, le, stock);
    RankedAreAll(demand, le);
    AllContainersAreOwn(plan, demand, Ranked(demand, le), stock);
  }

  lemma {:induction false} PlanIsInPhases(plan: Plan, rows: seq<StockRow>, demand: seq<DemandRow>,
                                          le: (string, string) -> bool, stock: seq<Line>, l: Layout, r: Rest)
    requires MadeFrom(plan, rows, demand, le, stock, l, r)
    ensures InPhases(plan, rows, demand, le, r.rest)
  {
    StockIsPacked(plan, rows, demand, le, stock, l, r);
    PhasesHold(plan, rows, demand, le, stock, l, r.free, r.mixed, r.rest);
    PhasesFound(plan, rows, demand, le, l.containers, SinglesOf(r.free, plan.capacity), r.mixed, r.rest);
  }

  method BuildOptimizationPlan(rows: seq<StockRow>, demand: seq<DemandRow>, capacityBales: Option<int>,
                               le: (string, string) -> bool)
    returns (plan: Plan, ghost stock: seq<Line>, ghost rest: seq<Line>)
    ensures plan.capacity == NormalizeContainerCapacity(capacityBales)
    ensures GoodPlan(plan, rows, demand, le) && InPhases(plan, rows, demand, le, rest)
    ensures forall code :: BalesOf(stock, code) == SumBy(StockOf(code), rows)
    ensures plan.unserved == UnservedBy(Ranked(demand, le), stock)
  {
    var capacity := NormalizeContainerCapacity(capacityBales);
    var available := CollectStock(rows);
    stock := available;
    var customers := SortedDemandByCustomer(demand, le);
    RankedIsFaithful(demand, le);
    var l := ServeAll(customers, available, capacity);
    var all, fromFreeStock, r := LayRest(l, capacity, le);
    rest := r.rest;
    plan := PlanOf(l, capacity, all, fromFreeStock);
    PlanIsGood(plan, rows, demand, le, stock, l, r);
    PlanIsInPhases(plan, rows, demand, le, stock, l, r);
  }
}
