/** The read-only preview built from stock rows: how many containers, and what
    each of them holds. */
module ContainerPreview {
  import opened Standard
  import opened Sorting
  import opened ContainerPlanner

  datatype SourceRow = SourceRow(code: string, name: string, stockAvailable: int, expectedToLoad: int,
                                 totalLoaded: int, freeToPromise: int, garbage: bool)

  /** The display totals over all rows. */
  datatype Totals = Totals(stock: int, committed: int, loading: int, shortage: int)

  datatype Preview = Preview(
    capacity: int, containerCount: int, totalPlannable: int, excluded: int,
    plans: seq<ProductPlan>, totals: seq<int>, figures: Totals)

  /** By product name, then article code, each as `le` compares strings. */
  function NameOrder(le: (string, string) -> bool): (Product, Product) -> bool {
    (a: Product, b: Product) => !le(b.name, a.name) || (le(a.name, b.name) && le(a.code, b.code))
  }

  lemma {:induction false} NameOrderIsTotal(le: (string, string) -> bool)
    requires TotalPreorder(le)
    ensures TotalPreorder(NameOrder(le))
  {
    var order := NameOrder(le);
    forall x, y
      ensures order(x, y) || order(y, x)
    {
      assert le(x.name, y.name) || le(y.name, x.name);
      assert le(x.code, y.code) || le(y.code, x.code);
    }
    forall x, y, z | order(x, y) && order(y, z)
      ensures order(x, z)
    {
      assert le(x.name, y.name) || le(y.name, x.name);
      assert le(y.name, z.name) || le(z.name, y.name);
    }
  }

  /** One list in the order of the names, the codes deciding between equal names. */
  ghost predicate InNameOrder(products: seq<Product>, le: (string, string) -> bool) {
    forall i, j :: 0 <= i < j < |products| ==>
      le(products[i].name, products[j].name)
      && (le(products[j].name, products[i].name) ==> le(products[i].code, products[j].code))
  }

  lemma {:induction false} SortedByName(products: seq<Product>, le: (string, string) -> bool)
    requires TotalPreorder(le)
    ensures InNameOrder(Sort(NameOrder(le), products), le)
  {
    var sorted := Sort(NameOrder(le), products);
    NameOrderIsTotal(le);
    SortSorted(NameOrder(le), products);
    forall i, j | 0 <= i < j < |sorted|
      ensures le(sorted[i].name, sorted[j].name)
      ensures le(sorted[j].name, sorted[i].name) ==> le(sorted[i].code, sorted[j].code)
    {
      NameOrderMeans(sorted[i], sorted[j], le);
    }
  }

  lemma {:induction false} NameOrderMeans(a: Product, b: Product, le: (string, string) -> bool)
    requires TotalPreorder(le) && NameOrder(le)(a, b)
    ensures le(a.name, b.name) && (le(b.name, a.name) ==> le(a.code, b.code))
  {
    assert le(a.name, b.name) || le(b.name, a.name);
  }

  predicate Planned(row: SourceRow, includeGarbage: bool) {
    NonNegative(row.freeToPromise) > 0 && (includeGarbage || !row.garbage)
  }

  function AsProduct(row: SourceRow): Product {
    Product(row.code, if row.name == "" then row.code else row.name, NonNegative(row.freeToPromise))
  }

  function PlannableRows(rows: seq<SourceRow>, includeGarbage: bool): seq<Product> {
    if rows == [] then []
    else (if Planned(rows[0], includeGarbage) then [AsProduct(rows[0])] else [])
         + PlannableRows(rows[1..], includeGarbage)
  }

  /** The product stands for the row: its code, its name or else its code, and all it has free. */
  predicate StandsFor(p: Product, row: SourceRow, includeGarbage: bool) {
    && row.freeToPromise > 0 && (row.garbage ==> includeGarbage)
    && p.code == row.code && p.qty == row.freeToPromise
    && (row.name != "" ==> p.name == row.name) && (row.name == "" ==> p.name == row.code)
  }

  /** Counts the rows that can be planned. */
  function Plannable(includeGarbage: bool): SourceRow -> int {
    (row: SourceRow) => if row.freeToPromise > 0 && (row.garbage ==> includeGarbage) then 1 else 0
  }

  /** The products are those of the rows that can be planned, one a row. */
  ghost predicate ProductsOfRows(products: seq<Product>, rows: seq<SourceRow>, includeGarbage: bool) {
    && |products| == SumBy(Plannable(includeGarbage), rows)
    && (forall p :: p in products ==> exists row :: row in rows && StandsFor(p, row, includeGarbage))
    && (forall row :: row in rows && Plannable(includeGarbage)(row) == 1
                      ==> exists p :: p in products && StandsFor(p, row, includeGarbage))
  }

  lemma {:induction false} PlannableRowsAre(rows: seq<SourceRow>, includeGarbage: bool)
    ensures ProductsOfRows(PlannableRows(rows, includeGarbage), rows, includeGarbage)
  {
    if rows != [] {
      PlannableRowsAre(rows[1..], includeGarbage);
      assert rows == [rows[0]] + rows[1..];
      var all := PlannableRows(rows, includeGarbage);
      assert Plannable(includeGarbage)(rows[0]) == 1 ==> StandsFor(AsProduct(rows[0]), rows[0], includeGarbage);
      forall row | row in rows && Plannable(includeGarbage)(row) == 1
        ensures exists p :: p in all && StandsFor(p, row, includeGarbage)
      {
        if row == rows[0] { assert AsProduct(row) in all; }
      }
    }
  }

  lemma {:induction false} SortedAreThose(rows: seq<SourceRow>, includeGarbage: bool, le: (string, string) -> bool)
    requires TotalPreorder(le)
    ensures var sorted := Sort(NameOrder(le), PlannableRows(rows, includeGarbage));
            ProductsOfRows(sorted, rows, includeGarbage) && InNameOrder(sorted, le)
  {
    PlannableRowsAre(rows, includeGarbage);
    SortPermutes(NameOrder(le), PlannableRows(rows, includeGarbage));
    SortedByName(PlannableRows(rows, includeGarbage), le);
  }

  /** Free bales of the rows, split by whether the plan takes them. */
  function FreeBales(planned: bool, includeGarbage: bool): SourceRow -> int {
    (row: SourceRow) =>
      if (includeGarbage || !row.garbage) == planned then NonNegative(row.freeToPromise) else 0
  }

  function AllFreeBales(): SourceRow -> int { (row: SourceRow) => NonNegative(row.freeToPromise) }

  lemma {:induction false} PlannableTotal(rows: seq<SourceRow>, includeGarbage: bool)
    ensures QtyTotal(PlannableRows(rows, includeGarbage)) == SumBy(FreeBales(true, includeGarbage), rows)
    ensures SumBy(FreeBales(true, includeGarbage), rows) + SumBy(FreeBales(false, includeGarbage), rows)
            == SumBy(AllFreeBales(), rows)
    ensures forall p :: p in PlannableRows(rows, includeGarbage) ==> p.qty > 0
  {
    if rows != [] {
      PlannableTotal(rows[1..], includeGarbage);
      var rest := PlannableRows(rows[1..], includeGarbage);
      if Planned(rows[0], includeGarbage) {
        assert ([AsProduct(rows[0])] + rest)[1..] == rest;
      } else {
        assert PlannableRows(rows, includeGarbage) == rest;
      }
    }
  }

  function StockQty(): SourceRow -> int { (row: SourceRow) => NonNegative(row.stockAvailable) }
  function CommittedQty(): SourceRow -> int { (row: SourceRow) => NonNegative(row.expectedToLoad) }
  function LoadingQty(): SourceRow -> int { (row: SourceRow) => NonNegative(row.totalLoaded) }
  function ShortQty(): SourceRow -> int { (row: SourceRow) => NonNegative(-row.freeToPromise) }

  function TotalsOver(rows: seq<SourceRow>): Totals {
    Totals(SumBy(StockQty(), rows), SumBy(CommittedQty(), rows), SumBy(LoadingQty(), rows), SumBy(ShortQty(), rows))
  }

  /** Each figure grows by its own field of a row. */
  lemma {:induction false} FiguresNext(rows: seq<SourceRow>, row: SourceRow)
    ensures TotalsOver([]) == Totals(0, 0, 0, 0)
    ensures var (before, after) := (TotalsOver(rows), TotalsOver(rows + [row]));
            && after.stock == before.stock + Max(0, row.stockAvailable)
            && after.committed == before.committed + Max(0, row.expectedToLoad)
            && after.loading == before.loading + Max(0, row.totalLoaded)
            && after.shortage == before.shortage + Max(0, -row.freeToPromise)
  {
    SumByAppend(StockQty(), rows, [row]);
    SumByOne(StockQty(), row);
    SumByAppend(CommittedQty(), rows, [row]);
    SumByOne(CommittedQty(), row);
    SumByAppend(LoadingQty(), rows, [row]);
    SumByOne(LoadingQty(), row);
    SumByAppend(ShortQty(), rows, [row]);
    SumByOne(ShortQty(), row);
  }

  /** A row as it is loaded: what is free is the stock less what is committed and loading. */
  predicate LoadedRow(row: SourceRow) {
    && row.stockAvailable >= 0 && row.expectedToLoad >= 0 && row.totalLoaded >= 0
    && row.freeToPromise == row.stockAvailable - row.expectedToLoad - row.totalLoaded
  }

  /** The totals account for every bale: what is neither committed nor loading is
      planned or excluded, less what is short. */
  lemma {:induction false} StockIsAccountedFor(rows: seq<SourceRow>, includeGarbage: bool)
    requires forall row :: row in rows ==> LoadedRow(row)
    ensures var figures := TotalsOver(rows);
            figures.stock - figures.committed - figures.loading
            == SumBy(FreeBales(true, includeGarbage), rows) + SumBy(FreeBales(false, includeGarbage), rows)
               - figures.shortage
  {
    if rows != [] {
      assert forall row :: row in rows[1..] ==> row in rows;
      StockIsAccountedFor(rows[1..], includeGarbage);
      assert LoadedRow(rows[0]);
    }
  }

  function CeilingDivide(a: int, b: int): int
    requires b > 0
  {
    (a + b - 1) / b
  }

  lemma {:induction false} CeilingIsLeast(a: int, b: int)
    requires a > 0 && b > 0
    ensures 0 < CeilingDivide(a, b) && (CeilingDivide(a, b) - 1) * b < a <= CeilingDivide(a, b) * b
  {
    var n := CeilingDivide(a, b);
    assert (a + b - 1) == n * b + (a + b - 1) % b;
    assert (n - 1) * b == n * b - b;
  }

  /** As few containers as can hold the bales, none beyond capacity, every bale of
      every product in one of them, all loaded alike to within one bale. */
  ghost predicate WellPlanned(preview: Preview) {
    && |preview.totals| == preview.containerCount
    && (preview.totalPlannable > 0 ==>
          (preview.containerCount - 1) * preview.capacity < preview.totalPlannable
          <= preview.containerCount * preview.capacity)
    && (preview.totalPlannable == 0 ==> preview.containerCount == 0 && preview.plans == [])
    && Sum(preview.totals) == preview.totalPlannable && Balanced(preview.totals)
    && (forall j :: 0 <= j < |preview.totals| ==> preview.totals[j] <= preview.capacity)
    && GoodPlans(preview.plans, preview.containerCount)
    && (forall j :: 0 <= j < |preview.totals| ==> preview.totals[j] == HeldIn(preview.plans, j))
  }

  /** The preview plans every free bale the options admit, product by product in name order. */
  method BuildPreview(rows: seq<SourceRow>, requestedCapacity: Option<int>, includeGarbage: bool,
                      le: (string, string) -> bool)
    returns (preview: Preview)
    requires TotalPreorder(le)
    ensures preview.capacity == NormalizeContainerCapacity(requestedCapacity)
    ensures preview.figures == TotalsOver(rows)
    ensures preview.totalPlannable == SumBy(FreeBales(true, includeGarbage), rows)
    ensures preview.totalPlannable + preview.excluded == SumBy(AllFreeBales(), rows)
    ensures WellPlanned(preview)
    ensures Map(PlannedProduct(), preview.plans) == Sort(NameOrder(le), PlannableRows(rows, includeGarbage))
    ensures ProductsOfRows(Map(PlannedProduct(), preview.plans), rows, includeGarbage)
    ensures InNameOrder(Map(PlannedProduct(), preview.plans), le)
  {
    SortedAreThose(rows, includeGarbage, le);
    var capacity, figures := NormalizeContainerCapacity(requestedCapacity), TotalsOver(rows);
    var excluded := SumBy(FreeBales(false, includeGarbage), rows);
    var sorted := Sort(NameOrder(le), PlannableRows(rows, includeGarbage));
    SortedRows(rows, includeGarbage, le);
    var totalPlannable := QtyTotal(sorted);
    if totalPlannable <= 0 {
      preview := Preview(capacity, 0, 0, excluded, [], [], figures);
      assert WellPlanned(preview);
      return;
    }
    var containerCount := CeilingDivide(totalPlannable, capacity);
    CeilingIsLeast(totalPlannable, capacity);
    var totals, plans := DistributeProducts(sorted, containerCount);
    preview := Preview(capacity, containerCount, totalPlannable, excluded, plans, totals, figures);
    PreviewFits(sorted, preview);
    PlansNameProducts(Zeros(containerCount), sorted);
  }

  lemma {:induction false} SortedRows(rows: seq<SourceRow>, includeGarbage: bool, le: (string, string) -> bool)
    ensures var sorted := Sort(NameOrder(le), PlannableRows(rows, includeGarbage));
            && QtyTotal(sorted) == SumBy(FreeBales(true, includeGarbage), rows)
            && QtyTotal(sorted) + SumBy(FreeBales(false, includeGarbage), rows) == SumBy(AllFreeBales(), rows)
            && (forall i :: 0 <= i < |sorted| ==> sorted[i].qty > 0)
            && QtyTotal(sorted) >= |sorted| == |PlannableRows(rows, includeGarbage)|
  {
    var plannable := PlannableRows(rows, includeGarbage);
    var sorted := Sort(NameOrder(le), plannable);
    PlannableTotal(rows, includeGarbage);
    SortPermutes(NameOrder(le), plannable);
    SumByPermutation(ProductQty(), sorted, plannable);
    forall i | 0 <= i < |sorted|
      ensures sorted[i].qty > 0
    {
      assert sorted[i] in plannable;
    }
    SumByNonNegative(sorted);
  }

  function PlannedProduct(): ProductPlan -> Product { (p: ProductPlan) => Product(p.code, p.name, p.plannable) }

  /** One plan a product, in the same order and for its whole quantity. */
  lemma {:induction false} PlansNameProducts(totals: seq<int>, products: seq<Product>)
    requires |totals| > 0 && forall i :: 0 <= i < |products| ==> products[i].qty > 0
    ensures Map(PlannedProduct(), PlansOf(totals, products)) == products
    decreases |products|
  {
    if products != [] {
      var next := TotalsAfter(totals, products[0].qty);
      PlansNameProducts(next, products[1..]);
      var plan := ProductPlan(products[0].code, products[0].name, products[0].qty,
        Allocations(totals, products[0].qty));
      assert ([plan] + PlansOf(next, products[1..]))[1..] == PlansOf(next, products[1..]);
      assert products == [products[0]] + products[1..];
    }
  }

  /** Enough containers for the total are enough for every container. */
  lemma {:induction false} DistributionFits(products: seq<Product>, n: int, capacity: int)
    requires n > 0 && QtyTotal(products) <= n * capacity
    ensures var totals, plans := TotalsOf(Zeros(n), products), PlansOf(Zeros(n), products);
            && Sum(totals) == QtyTotal(products) && Balanced(totals)
            && (forall j :: 0 <= j < n ==> totals[j] <= capacity)
            && GoodPlans(plans, n)
            && (forall j :: 0 <= j < n ==> totals[j] == HeldIn(plans, j))
  {
    SumConstant(n, 0);
    DistributionIsBalanced(Zeros(n), products);
    BalancedWithin(TotalsOf(Zeros(n), products), capacity);
  }

  lemma {:induction false} PreviewFits(products: seq<Product>, preview: Preview)
    requires preview.containerCount > 0 && preview.totalPlannable == QtyTotal(products) > 0
    requires preview.totals == TotalsOf(Zeros(preview.containerCount), products)
    requires preview.plans == PlansOf(Zeros(preview.containerCount), products)
    requires (preview.containerCount - 1) * preview.capacity < preview.totalPlannable
             <= preview.containerCount * preview.capacity
    ensures WellPlanned(preview)
  {
    DistributionFits(products, preview.containerCount, preview.capacity);
  }

  lemma {:induction false} SumByNonNegative(products: seq<Product>)
    requires forall i :: 0 <= i < |products| ==> products[i].qty > 0
    ensures QtyTotal(products) >= |products|
  {
    if products != [] { SumByNonNegative(products[1..]); }
  }
}
