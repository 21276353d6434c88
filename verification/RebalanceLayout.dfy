/** How a rebalance fills the unlocked containers: in which order they come, what their
    lines are called, and how evenly they are loaded. */
module RebalanceLayout {
  import opened Standard
  import opened Sorting
  import opened ContainerPlanner
  import opened ContainerPreview
  import opened ContainerRebalance
  import opened RebalanceProperties

  // ---- The containers in order --------------------------------------------------------------

  /** By position, the lower id deciding between equal positions. */
  predicate Precedes(a: SavedContainer, b: SavedContainer) {
    a.position < b.position || (a.position == b.position && a.id < b.id)
  }

  /** The result has the unlocked containers, each once, in the order of their positions. */
  ghost predicate UnlockedInOrder(result: seq<NewContainer>, cs: seq<SavedContainer>) {
    && (forall c {:trigger InResult(result, c.id)} :: c in cs && !c.locked ==> InResult(result, c.id))
    && (forall j {:trigger IsOpenId(cs, result[j].id)} :: 0 <= j < |result| ==> IsOpenId(cs, result[j].id))
    && (forall i, j :: 0 <= i < j < |result| ==> IdPrecedes(cs, result[i].id, result[j].id))
  }

  ghost predicate InResult(result: seq<NewContainer>, id: int) { exists j :: 0 <= j < |result| && result[j].id == id }

  ghost predicate IsOpenId(cs: seq<SavedContainer>, id: int) { exists c :: c in cs && !c.locked && c.id == id }

  ghost predicate IdPrecedes(cs: seq<SavedContainer>, x: int, y: int) {
    forall a, b :: a in cs && b in cs && a.id == x && b.id == y ==> Precedes(a, b)
  }

  lemma {:induction false} OpenPrecedes(cs: seq<SavedContainer>)
    requires DistinctIds(cs)
    ensures forall i, j :: 0 <= i < j < |Unlocked(cs)| ==> Precedes(Unlocked(cs)[i], Unlocked(cs)[j])
  {
    var open, order := Unlocked(cs), PositionOrder();
    UnlockedIds(cs);
    SortSorted(order, Filter(IsOpen(), cs));
    forall i, j | 0 <= i < j < |open|
      ensures Precedes(open[i], open[j])
    {
      assert order(open[i], open[j]);
    }
  }

  lemma {:induction false} ById(cs: seq<SavedContainer>, a: SavedContainer, b: SavedContainer)
    requires DistinctIds(cs) && a in cs && b in cs && a.id == b.id
    ensures a == b
  {
  }

  lemma {:induction false} ResultInOrder(cs: seq<SavedContainer>, requested: Option<int>, le: (string, string) -> bool)
    requires DistinctIds(cs) && Rebalanced(cs, requested, le).Ok?
    ensures UnlockedInOrder(Rebalanced(cs, requested, le).containers, cs)
  {
    var open, result := Unlocked(cs), Rebalanced(cs, requested, le).containers;
    ResultShape(cs, requested, le);
    UnlockedIds(cs);
    OpenPrecedes(cs);
    forall c | c in cs && !c.locked
      ensures InResult(result, c.id)
    {
      var j :| 0 <= j < |open| && open[j] == c;
      assert result[j].id == c.id;
    }
    forall j | 0 <= j < |result|
      ensures IsOpenId(cs, result[j].id)
    {
      assert open[j] in open;
    }
    forall i, j | 0 <= i < j < |result|
      ensures IdPrecedes(cs, result[i].id, result[j].id)
    {
      assert open[i] in open && open[j] in open;
      PairPrecedes(cs, open[i], open[j]);
    }
  }

  lemma {:induction false} PairPrecedes(cs: seq<SavedContainer>, x: SavedContainer, y: SavedContainer)
    requires DistinctIds(cs) && x in cs && y in cs && Precedes(x, y)
    ensures IdPrecedes(cs, x.id, y.id)
  {
    forall a, b | a in cs && b in cs && a.id == x.id && b.id == y.id
      ensures Precedes(a, b)
    {
      ById(cs, a, x);
      ById(cs, b, y);
    }
  }

  // ---- What the lines are called ----------------------------------------------------------------

  /** Line l of container k is the last in the plan of its article. */
  ghost predicate LastOfArticle(cs: seq<SavedContainer>, k: nat, l: nat)
    requires k < |cs| && l < |cs[k].lines|
  {
    && (forall m :: l < m < |cs[k].lines| ==> cs[k].lines[m].code != cs[k].lines[l].code)
    && forall j :: k < j < |cs| ==> NoLineOf(cs[j].lines, cs[k].lines[l].code)
  }

  ghost predicate NoLineOf(lines: seq<Line>, code: string) {
    forall m :: 0 <= m < |lines| ==> lines[m].code != code
  }

  lemma {:induction false} NameInFront(before: seq<PlanLine>, lines: seq<Line>, locked: bool, code: string)
    requires NoLineOf(lines, code)
    ensures LastName(before + PlanLines(lines, locked), code) == LastName(before, code)
  {
    if lines == [] {
      assert before + [] == before;
    } else {
      var n := |lines| - 1;
      var last := PlanLine(lines[n], locked);
      var all := before + PlanLines(lines, locked);
      assert all[..|all| - 1] == before + PlanLines(lines[..n], locked) && all[|all| - 1] == last;
      NameInFront(before, lines[..n], locked, code);
    }
  }

  lemma {:induction false} NameOfLast(before: seq<PlanLine>, lines: seq<Line>, locked: bool, l: nat)
    requires l < |lines| && forall m :: l < m < |lines| ==> lines[m].code != lines[l].code
    ensures LastName(before + PlanLines(lines, locked), lines[l].code) == EffectiveName(lines[l])
  {
    var n := |lines| - 1;
    var all := before + PlanLines(lines, locked);
    assert all[..|all| - 1] == before + PlanLines(lines[..n], locked) && all[|all| - 1] == PlanLine(lines[n], locked);
    if l < n { NameOfLast(before, lines[..n], locked, l); }
  }

  /** An article goes by the name its last line in the plan gives it, or else by its code. */
  lemma {:induction false} NameIsLast(cs: seq<SavedContainer>, k: nat, l: nat)
    requires k < |cs| && l < |cs[k].lines| && LastOfArticle(cs, k, l)
    ensures var line := cs[k].lines[l];
            LastName(AllLines(cs), line.code) == if line.name == "" then line.code else line.name
  {
    var front, c := cs[..|cs| - 1], cs[|cs| - 1];
    if k < |cs| - 1 {
      assert NoLineOf(c.lines, cs[k].lines[l].code);
      NameInFront(AllLines(front), c.lines, c.locked, cs[k].lines[l].code);
      assert forall j :: k < j < |front| ==> NoLineOf(front[j].lines, cs[k].lines[l].code);
      NameIsLast(front, k, l);
    } else {
      NameOfLast(AllLines(front), c.lines, c.locked, l);
    }
  }

  // ---- The lines of a container -----------------------------------------------------------------

  function OwnLine(p: ProductPlan, j: nat): nat
    requires j < |p.allocations|
  {
    if p.allocations[j] > 0 then 1 else 0
  }

  lemma {:induction false} LinesInTail(plans: seq<ProductPlan>, j: nat, i: nat)
    requires (forall k :: 0 <= k < |plans| ==> j < |plans[k].allocations|) && plans != []
    requires OwnLine(plans[0], j) <= i < |LinesIn(plans, j)|
    ensures i - OwnLine(plans[0], j) < |LinesIn(plans[1..], j)|
    ensures LinesIn(plans, j)[i] == LinesIn(plans[1..], j)[i - OwnLine(plans[0], j)]
  {
  }

  lemma {:induction false} LinesInPlaces(plans: seq<ProductPlan>, j: nat, a: nat, b: nat) returns (p: nat, q: nat)
    requires (forall k :: 0 <= k < |plans| ==> j < |plans[k].allocations|) && a < b < |LinesIn(plans, j)|
    ensures p < q < |plans|
    ensures LinesIn(plans, j)[a].code == plans[p].code && LinesIn(plans, j)[a].name == plans[p].name
    ensures LinesIn(plans, j)[b].code == plans[q].code && LinesIn(plans, j)[b].name == plans[q].name
  {
    var own, rest := OwnLine(plans[0], j), plans[1..];
    LinesInTail(plans, j, b);
    if a < own {
      p := 0;
      q := LinesInNames(rest, j, b - own);
      q := q + 1;
    } else {
      LinesInTail(plans, j, a);
      p, q := LinesInPlaces(rest, j, a - own, b - own);
      p, q := p + 1, q + 1;
    }
  }

  lemma {:induction false} LinesInPositive(plans: seq<ProductPlan>, j: nat)
    requires forall k :: 0 <= k < |plans| ==> j < |plans[k].allocations|
    ensures forall line :: line in LinesIn(plans, j) ==> line.qty > 0
  {
    if plans != [] { LinesInPositive(plans[1..], j); }
  }

  /** One line an article, none empty, in the order of the names. */
  ghost predicate WellListed(lines: seq<Line>, le: (string, string) -> bool) {
    && (forall i :: 0 <= i < |lines| ==> lines[i].qty > 0)
    && forall i, j :: 0 <= i < j < |lines| ==>
         && lines[i].code != lines[j].code && le(lines[i].name, lines[j].name)
         && (le(lines[j].name, lines[i].name) ==> le(lines[i].code, lines[j].code))
  }

  lemma {:induction false} RemainingListed(cs: seq<SavedContainer>, le: (string, string) -> bool)
    requires TotalPreorder(le)
    ensures var products := Remaining(cs, le);
            && InNameOrder(products, le) && (forall i :: 0 <= i < |products| ==> products[i].qty > 0)
            && forall i, j :: 0 <= i < j < |products| ==> products[i].code != products[j].code
  {
    var products := Remaining(cs, le);
    RemainingAreThose(cs, le);
    SortedByName(Remainders(cs, Codes(AllLines(cs))), le);
    forall i | 0 <= i < |products|
      ensures products[i].qty > 0 && products[i] == Remainder(cs, products[i].code)
    {
      assert products[i] in products;
    }
  }

  lemma {:induction false} LinesListed(products: seq<Product>, n: nat, j: nat, le: (string, string) -> bool)
    requires j < n && InNameOrder(products, le) && (forall i :: 0 <= i < |products| ==> products[i].qty > 0)
    requires forall i, k :: 0 <= i < k < |products| ==> products[i].code != products[k].code
    requires GoodPlans(PlansOf(Zeros(n), products), n)
    ensures WellListed(LinesIn(PlansOf(Zeros(n), products), j), le)
  {
    var plans := PlansOf(Zeros(n), products);
    PlansNameProducts(Zeros(n), products);
    LinesInPositive(plans, j);
    var lines := LinesIn(plans, j);
    forall a, b | 0 <= a < b < |lines|
      ensures lines[a].code != lines[b].code && le(lines[a].name, lines[b].name)
      ensures le(lines[b].name, lines[a].name) ==> le(lines[a].code, lines[b].code)
    {
      var p, q := LinesInPlaces(plans, j, a, b);
      assert Map(PlannedProduct(), plans)[p] == products[p] && Map(PlannedProduct(), plans)[q] == products[q];
    }
    forall a | 0 <= a < |lines|
      ensures lines[a].qty > 0
    {
      assert lines[a] in lines;
    }
  }

  // ---- How evenly they are loaded ------------------------------------------------------------------

  ghost predicate Descending(totals: seq<int>) { forall i, j :: 0 <= i < j < |totals| ==> totals[i] >= totals[j] }

  lemma {:induction false} TotalsDescend(totals: seq<int>, products: seq<Product>)
    requires |totals| > 0 && Balanced(totals) && Descending(totals)
    ensures Descending(TotalsOf(totals, products))
    decreases |products|
  {
    if products != [] {
      var qty := NonNegative(products[0].qty);
      if qty == 0 {
        TotalsDescend(totals, products[1..]);
      } else {
        ProductIsSpread(totals, qty);
        NextDescends(totals, qty);
        TotalsDescend(TotalsAfter(totals, qty), products[1..]);
      }
    }
  }

  lemma {:induction false} NextDescends(totals: seq<int>, qty: nat)
    requires |totals| > 0 && Balanced(totals) && Descending(totals)
    ensures Descending(TotalsAfter(totals, qty))
  {
    var r, after := Allocations(totals, qty), TotalsAfter(totals, qty);
    ProductIsSpread(totals, qty);
    forall i, j | 0 <= i < j < |after|
      ensures after[i] >= after[j]
    {
      assert r[j] - r[i] <= 1;
      assert r[j] > r[i] ==> Lighter(totals, j, i);
    }
  }

  /** The containers are loaded alike to within one bale, the fuller ones in front. */
  ghost predicate LoadedEvenly(result: seq<NewContainer>) {
    forall i, j :: 0 <= i < j < |result| ==>
      Loaded(result[j]) <= Loaded(result[i]) <= Loaded(result[j]) + 1
  }

  function Loaded(c: NewContainer): int { SumBy(LineQty(), c.lines) }

  /** Each article is spread alike to within one bale. */
  ghost predicate SpreadEvenly(result: seq<NewContainer>, code: string) {
    forall i, j :: 0 <= i < |result| && 0 <= j < |result| ==> OfCode(result[i], code) <= OfCode(result[j], code) + 1
  }

  function OfCode(c: NewContainer, code: string): int { SumBy(LineQtyOf(code), c.lines) }

  lemma {:induction false} NoColumn(plans: seq<ProductPlan>, code: string, j: nat)
    requires forall i :: 0 <= i < |plans| ==> j < |plans[i].allocations| && plans[i].code != code
    ensures ColumnQty(plans, code, j) == 0
  {
    if plans != [] { NoColumn(plans[1..], code, j); }
  }

  lemma {:induction false} ColumnsEven(plans: seq<ProductPlan>, n: nat, code: string, i: nat, j: nat)
    requires GoodPlans(plans, n) && i < n && j < n
    requires forall a, b :: 0 <= a < b < |plans| ==> plans[a].code != plans[b].code
    ensures ColumnQty(plans, code, i) <= ColumnQty(plans, code, j) + 1
  {
    if plans != [] {
      if plans[0].code == code {
        NoColumn(plans[1..], code, i);
        NoColumn(plans[1..], code, j);
      } else {
        ColumnsEven(plans[1..], n, code, i, j);
      }
    }
  }

  lemma {:induction false} PlanCodesDiffer(products: seq<Product>, n: nat)
    requires n > 0 && (forall i :: 0 <= i < |products| ==> products[i].qty > 0)
    requires forall i, k :: 0 <= i < k < |products| ==> products[i].code != products[k].code
    ensures var plans := PlansOf(Zeros(n), products);
            forall a, b :: 0 <= a < b < |plans| ==> plans[a].code != plans[b].code
  {
    var plans := PlansOf(Zeros(n), products);
    PlansNameProducts(Zeros(n), products);
    forall a, b | 0 <= a < b < |plans|
      ensures plans[a].code != plans[b].code
    {
      assert Map(PlannedProduct(), plans)[a] == products[a] && Map(PlannedProduct(), plans)[b] == products[b];
    }
  }

  /** Container j of a result by the plans it is made from. */
  ghost predicate MadeFrom(c: NewContainer, products: seq<Product>, n: nat, j: nat, code: string,
                           le: (string, string) -> bool)
    requires j < n
  {
    var plans := PlansOf(Zeros(n), products);
    && GoodPlans(plans, n) && WellListed(c.lines, le)
    && Loaded(c) == TotalsOf(Zeros(n), products)[j] && OfCode(c, code) == ColumnQty(plans, code, j)
  }

  lemma {:induction false} LinesMadeFrom(c: NewContainer, products: seq<Product>, n: nat, j: nat, code: string,
                                         le: (string, string) -> bool)
    requires j < n && GoodPlans(PlansOf(Zeros(n), products), n) && c.lines == LinesIn(PlansOf(Zeros(n), products), j)
    requires InNameOrder(products, le) && (forall i :: 0 <= i < |products| ==> products[i].qty > 0)
    requires forall i, k :: 0 <= i < k < |products| ==> products[i].code != products[k].code
    ensures MadeFrom(c, products, n, j, code, le)
  {
    DistributionIsBalanced(Zeros(n), products);
    LinesListed(products, n, j, le);
    LinesInQty(PlansOf(Zeros(n), products), n, code, j);
  }

  lemma {:induction false} ResultAt(cs: seq<SavedContainer>, requested: Option<int>, le: (string, string) -> bool,
                                    code: string, j: nat)
    requires TotalPreorder(le) && Rebalanced(cs, requested, le).Ok? && j < |Unlocked(cs)|
    ensures |Rebalanced(cs, requested, le).containers| == |Unlocked(cs)|
    ensures MadeFrom(Rebalanced(cs, requested, le).containers[j], Remaining(cs, le), |Unlocked(cs)|, j, code, le)
  {
    ResultShape(cs, requested, le);
    RemainingListed(cs, le);
    LinesMadeFrom(Rebalanced(cs, requested, le).containers[j], Remaining(cs, le), |Unlocked(cs)|, j, code, le);
  }

  /** What a rebalance gives the unlocked containers: one line an article in the order of the
      names, every container loaded alike to within one bale, the fuller ones in front. */
  lemma {:induction false} ResultIsEven(cs: seq<SavedContainer>, requested: Option<int>, le: (string, string) -> bool)
    requires TotalPreorder(le) && Rebalanced(cs, requested, le).Ok?
    ensures var result := Rebalanced(cs, requested, le).containers;
            (forall j :: 0 <= j < |result| ==> WellListed(result[j].lines, le)) && LoadedEvenly(result)
  {
    var n, products, result := |Unlocked(cs)|, Remaining(cs, le), Rebalanced(cs, requested, le).containers;
    ResultShape(cs, requested, le);
    if n > 0 {
      var totals := TotalsOf(Zeros(n), products);
      DistributionIsBalanced(Zeros(n), products);
      TotalsDescend(Zeros(n), products);
      forall j | 0 <= j < n
        ensures WellListed(result[j].lines, le) && Loaded(result[j]) == totals[j]
      {
        ResultAt(cs, requested, le, "", j);
      }
    }
  }

  /** Every article is spread over the unlocked containers alike to within one bale. */
  lemma {:induction false} ArticleIsSpread(cs: seq<SavedContainer>, requested: Option<int>,
                                           le: (string, string) -> bool, code: string)
    requires TotalPreorder(le) && Rebalanced(cs, requested, le).Ok?
    ensures SpreadEvenly(Rebalanced(cs, requested, le).containers, code)
  {
    var n, products, result := |Unlocked(cs)|, Remaining(cs, le), Rebalanced(cs, requested, le).containers;
    ResultShape(cs, requested, le);
    forall i, j | 0 <= i < n && 0 <= j < n
      ensures OfCode(result[i], code) <= OfCode(result[j], code) + 1
    {
      ResultAt(cs, requested, le, code, i);
      ResultAt(cs, requested, le, code, j);
      RemainingListed(cs, le);
      PlanCodesDiffer(products, n);
      ColumnsEven(PlansOf(Zeros(n), products), n, code, i, j);
    }
  }
}
