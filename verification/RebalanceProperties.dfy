/** What a rebalance keeps: every article's plan-wide total, the capacity of every
    container, and itself when run again. */
module RebalanceProperties {
  import opened Standard
  import opened Sorting
  import opened ContainerPlanner
  import opened ContainerPreview
  import opened ContainerRebalance

  function NewLines(result: seq<NewContainer>, id: int): seq<Line> {
    if result == [] then [] else if result[0].id == id then result[0].lines else NewLines(result[1..], id)
  }

  function WithNewLines(result: seq<NewContainer>): SavedContainer -> SavedContainer {
    (c: SavedContainer) => if c.locked then c else c.(lines := NewLines(result, c.id))
  }

  /** The saved plan once the new lines are written; locked containers stay. */
  function Applied(cs: seq<SavedContainer>, result: seq<NewContainer>): seq<SavedContainer> {
    Map(WithNewLines(result), cs)
  }

  ghost predicate DistinctIds(cs: seq<SavedContainer>) {
    forall i, j :: 0 <= i < j < |cs| ==> cs[i].id != cs[j].id
  }

  // ---- The throw that never happens --------------------------------------------------

  /** The remaining quantity always fits once the unlocked capacity covers it. */
  lemma {:induction false} CannotFitIsUnreachable(cs: seq<SavedContainer>, requested: Option<int>,
                                                  le: (string, string) -> bool)
    ensures Rebalanced(cs, requested, le) != Err(CannotFit)
  {
    var capacity := NormalizeContainerCapacity(requested);
    var open, products := Unlocked(cs), Remaining(cs, le);
    if |open| > 0 && QtyTotal(products) <= |open| * capacity {
      DistributionFits(products, |open|, capacity);
    }
  }

  // ---- Remaining products ----------------------------------------------------------------

  lemma {:induction false} RemaindersAreThose(cs: seq<SavedContainer>, codes: seq<string>)
    requires Distinct(codes)
    ensures Distinct(Remainders(cs, codes))
    ensures forall p :: p in Remainders(cs, codes) <==> p.code in codes && p == Remainder(cs, p.code) && p.qty > 0
  {
    if codes != [] {
      assert codes == [codes[0]] + codes[1..];
      assert codes[0] !in codes[1..];
      RemaindersAreThose(cs, codes[1..]);
    }
  }

  lemma {:induction false} CodeHeld(lines: seq<PlanLine>, code: string)
    requires SumBy(PlanQtyOf(code), lines) > 0
    ensures exists i :: 0 <= i < |lines| && lines[i].line.code == code
  {
    if lines[0].line.code != code {
      CodeHeld(lines[1..], code);
      var i :| 0 <= i < |lines[1..]| && lines[1..][i].line.code == code;
      assert lines[i + 1].line.code == code;
    }
  }

  lemma {:induction false} LockedWithin(cs: seq<SavedContainer>, code: string)
    ensures SumBy(HeldOf(code), cs) == SumBy(LockedHeldOf(code), cs) + SumBy(OpenHeldOf(code), cs)
    ensures SumBy(OpenHeldOf(code), cs) >= 0 && SumBy(LockedHeldOf(code), cs) >= 0
  {
    if cs != [] {
      LockedWithin(cs[1..], code);
      LinesHoldNoLess(cs[0].lines, code);
    }
  }

  lemma {:induction false} LinesHoldNoLess(lines: seq<Line>, code: string)
    ensures SumBy(LineQtyOf(code), lines) >= 0
  {
    if lines != [] { LinesHoldNoLess(lines[1..], code); }
  }

  /** Each article with something left is there once, under its last name. */
  lemma {:induction false} RemainingAreThose(cs: seq<SavedContainer>, le: (string, string) -> bool)
    ensures Distinct(Remaining(cs, le))
    ensures forall p :: p in Remaining(cs, le) <==> p == Remainder(cs, p.code) && p.qty > 0
  {
    var codes := Codes(AllLines(cs));
    CodesAreThose(AllLines(cs));
    RemaindersAreThose(cs, codes);
    SortPermutes(NameOrder(le), Remainders(cs, codes));
    DistinctPermutation(Remainders(cs, codes), Remaining(cs, le));
    forall p: Product | p == Remainder(cs, p.code) && p.qty > 0
      ensures p.code in codes
    {
      LockedWithin(cs, p.code);
      PlanSums(cs, p.code);
      CodeHeld(AllLines(cs), p.code);
    }
  }

  function ProductQtyOf(code: string): Product -> int {
    (p: Product) => if p.code == code then NonNegative(p.qty) else 0
  }

  lemma {:induction false} NoneOfCode(products: seq<Product>, code: string)
    requires forall p :: p in products ==> p.code != code
    ensures SumBy(ProductQtyOf(code), products) == 0
  {
    if products != [] {
      assert products[0] in products;
      assert forall p :: p in products[1..] ==> p in products;
      NoneOfCode(products[1..], code);
    }
  }

  lemma {:induction false} OneOfCode(products: seq<Product>, p: Product)
    requires p in products && p.qty > 0
    requires forall i, j :: 0 <= i < j < |products| ==> products[i].code != products[j].code
    ensures SumBy(ProductQtyOf(p.code), products) == p.qty
  {
    if products[0] == p {
      NoneOfCode(products[1..], p.code);
    } else {
      OneOfCode(products[1..], p);
    }
  }

  /** The quantity to redistribute of an article is what its unlocked containers hold. */
  lemma {:induction false} RemainingQty(cs: seq<SavedContainer>, le: (string, string) -> bool, code: string)
    ensures SumBy(ProductQtyOf(code), Remaining(cs, le)) == SumBy(OpenHeldOf(code), cs)
  {
    var products := Remaining(cs, le);
    var p := Remainder(cs, code);
    RemainingAreThose(cs, le);
    LockedWithin(cs, code);
    forall i, j | 0 <= i < j < |products|
      ensures products[i].code != products[j].code
    {
      assert products[i] in products && products[j] in products;
    }
    if p.qty > 0 {
      assert p in products;
      OneOfCode(products, p);
    } else {
      forall q | q in products
        ensures q.code != code
      {
      }
      NoneOfCode(products, code);
    }
  }

  // ---- From plans to lines -----------------------------------------------------------------

  /** What container j gets of an article over the plans. */
  function ColumnQty(plans: seq<ProductPlan>, code: string, j: nat): int
    requires forall i :: 0 <= i < |plans| ==> j < |plans[i].allocations|
  {
    if plans == [] then 0
    else (if plans[0].code == code then plans[0].allocations[j] else 0) + ColumnQty(plans[1..], code, j)
  }

  lemma {:induction false} LinesInQty(plans: seq<ProductPlan>, n: nat, code: string, j: nat)
    requires GoodPlans(plans, n) && j < n
    ensures SumBy(LineQtyOf(code), LinesIn(plans, j)) == ColumnQty(plans, code, j)
    ensures SumBy(LineQty(), LinesIn(plans, j)) == HeldIn(plans, j)
  {
    if plans != [] {
      LinesInQty(plans[1..], n, code, j);
      var rest := LinesIn(plans[1..], j);
      var line := Line(plans[0].code, plans[0].name, plans[0].allocations[j]);
      if plans[0].allocations[j] > 0 {
        assert ([line] + rest)[1..] == rest;
      } else {
        assert [] + rest == rest;
      }
    }
  }

  function PlanQty(code: string): ProductPlan -> int {
    (p: ProductPlan) => if p.code == code then p.plannable else 0
  }

  lemma {:induction false} ColumnsSum(plans: seq<ProductPlan>, n: nat, code: string)
    requires GoodPlans(plans, n)
    ensures Sum(seq(n, j requires 0 <= j < n => ColumnQty(plans, code, j))) == SumBy(PlanQty(code), plans)
  {
    var column := seq(n, j requires 0 <= j < n => ColumnQty(plans, code, j));
    if plans == [] {
      SumConstant(n, 0);
      assert column == seq(n, j => 0);
    } else {
      var rest := seq(n, j requires 0 <= j < n => ColumnQty(plans[1..], code, j));
      ColumnsSum(plans[1..], n, code);
      var own := if plans[0].code == code then plans[0].allocations else seq(n, j => 0);
      SumConstant(n, 0);
      SumPointwise(own, rest, column);
    }
  }

  lemma {:induction false} PlansQty(totals: seq<int>, products: seq<Product>, code: string)
    requires |totals| > 0
    ensures SumBy(PlanQty(code), PlansOf(totals, products)) == SumBy(ProductQtyOf(code), products)
    decreases |products|
  {
    if products != [] {
      var qty := NonNegative(products[0].qty);
      var next := if qty == 0 then totals else TotalsAfter(totals, qty);
      PlansQty(next, products[1..], code);
      if qty > 0 {
        var rest := PlansOf(next, products[1..]);
        var plan := ProductPlan(products[0].code, products[0].name, qty, Allocations(totals, qty));
        assert ([plan] + rest)[1..] == rest;
      }
    }
  }

  // ---- Conservation ----------------------------------------------------------------------------

  lemma {:induction false} SumByIndexed<T>(f: T -> int, s: seq<T>, column: seq<int>)
    requires |column| == |s| && forall i :: 0 <= i < |s| ==> column[i] == f(s[i])
    ensures SumBy(f, s) == Sum(column)
  {
    if s != [] { SumByIndexed(f, s[1..], column[1..]); }
  }

  lemma {:induction false} NewLinesAt(result: seq<NewContainer>, j: nat)
    requires j < |result| && forall a, b :: 0 <= a < b < |result| ==> result[a].id != result[b].id
    ensures NewLines(result, result[j].id) == result[j].lines
  {
    if j > 0 { NewLinesAt(result[1..], j - 1); }
  }

  function NewHeldOf(result: seq<NewContainer>, code: string): SavedContainer -> int {
    (c: SavedContainer) => SumBy(LineQtyOf(code), NewLines(result, c.id))
  }

  lemma {:induction false} AppliedHeld(cs: seq<SavedContainer>, result: seq<NewContainer>, code: string)
    ensures SumBy(LockedHeldOf(code), Applied(cs, result)) == SumBy(LockedHeldOf(code), cs)
    ensures SumBy(OpenHeldOf(code), Applied(cs, result)) == SumBy(NewHeldOf(result, code), Filter(IsOpen(), cs))
  {
    if cs != [] {
      AppliedHeld(cs[1..], result, code);
      assert Applied(cs, result)[1..] == Applied(cs[1..], result);
      var rest := Filter(IsOpen(), cs[1..]);
      if cs[0].locked {
        assert Filter(IsOpen(), cs) == rest;
      } else {
        assert ([cs[0]] + rest)[1..] == rest;
      }
    }
  }

  lemma {:induction false} UnlockedIds(cs: seq<SavedContainer>)
    requires DistinctIds(cs)
    ensures forall i, j :: 0 <= i < j < |Unlocked(cs)| ==> Unlocked(cs)[i].id != Unlocked(cs)[j].id
    ensures forall c :: c in Unlocked(cs) <==> c in cs && !c.locked
  {
    var open := Filter(IsOpen(), cs);
    FilterDistinct(IsOpen(), cs);
    SortPermutes(PositionOrder(), open);
    DistinctPermutation(open, Unlocked(cs));
    forall i, j | 0 <= i < j < |Unlocked(cs)|
      ensures Unlocked(cs)[i].id != Unlocked(cs)[j].id
    {
      assert Unlocked(cs)[i] in cs && Unlocked(cs)[j] in cs;
    }
  }

  /** What every successful rebalance returns, container by container. */
  lemma {:induction false} ResultShape(cs: seq<SavedContainer>, requested: Option<int>, le: (string, string) -> bool)
    requires Rebalanced(cs, requested, le).Ok?
    ensures var open, products, result := Unlocked(cs), Remaining(cs, le), Rebalanced(cs, requested, le).containers;
            && |result| == |open|
            && (forall j :: 0 <= j < |open| ==> result[j].id == open[j].id)
            && (|open| == 0 ==> products == [])
            && (|open| > 0 ==>
                  var plans := PlansOf(Zeros(|open|), products);
                  && GoodPlans(plans, |open|)
                  && forall j :: 0 <= j < |open| ==>
                       && result[j].lines == LinesIn(plans, j)
                       && HeldIn(plans, j) <= NormalizeContainerCapacity(requested))
  {
    var open, products := Unlocked(cs), Remaining(cs, le);
    RemainingAreThose(cs, le);
    if QtyTotal(products) == 0 {
      NoQtyNoProducts(products);
    } else {
      DistributionFits(products, |open|, NormalizeContainerCapacity(requested));
    }
    ShapeOf(open, products, NormalizeContainerCapacity(requested));
  }

  /** The lines the two successful branches build. */
  lemma {:induction false} ShapeOf(open: seq<SavedContainer>, products: seq<Product>, capacity: int)
    requires capacity > 0
    requires products != [] ==> |open| > 0 && QtyTotal(products) <= |open| * capacity
    ensures var empty := Emptied(open);
            |empty| == |open| && forall j :: 0 <= j < |open| ==> empty[j].id == open[j].id && empty[j].lines == []
    ensures |open| > 0 ==>
              var plans := PlansOf(Zeros(|open|), products);
              && GoodPlans(plans, |open|)
              && (forall j :: 0 <= j < |open| ==> HeldIn(plans, j) <= capacity)
              && (products == [] ==> plans == [])
  {
    if |open| > 0 && products != [] { DistributionFits(products, |open|, capacity); }
  }

  lemma {:induction false} NoQtyNoProducts(products: seq<Product>)
    requires QtyTotal(products) == 0 && forall p :: p in products ==> p.qty > 0
    ensures products == []
  {
    forall i | 0 <= i < |products|
      ensures products[i].qty > 0
    {
      assert products[i] in products;
    }
    SumByNonNegative(products);
  }

  lemma {:induction false} NewLinesHold(cs: seq<SavedContainer>, requested: Option<int>,
                                        le: (string, string) -> bool, code: string)
    requires DistinctIds(cs) && Rebalanced(cs, requested, le).Ok?
    ensures SumBy(NewHeldOf(Rebalanced(cs, requested, le).containers, code), Unlocked(cs))
            == SumBy(ProductQtyOf(code), Remaining(cs, le))
  {
    var result := Rebalanced(cs, requested, le).containers;
    var open, products := Unlocked(cs), Remaining(cs, le);
    ResultShape(cs, requested, le);
    if |open| > 0 {
      var plans := PlansOf(Zeros(|open|), products);
      ColumnsSum(plans, |open|, code);
      PlansQty(Zeros(|open|), products, code);
      UnlockedIds(cs);
      ColumnsAreNewLines(open, result, plans, code);
    }
  }

  lemma {:induction false} ColumnsAreNewLines(open: seq<SavedContainer>, result: seq<NewContainer>,
                                              plans: seq<ProductPlan>, code: string)
    requires |result| == |open| && GoodPlans(plans, |open|)
    requires forall j :: 0 <= j < |open| ==> result[j].id == open[j].id && result[j].lines == LinesIn(plans, j)
    requires forall a, b :: 0 <= a < b < |open| ==> open[a].id != open[b].id
    ensures SumBy(NewHeldOf(result, code), open)
            == Sum(seq(|open|, j requires 0 <= j < |open| => ColumnQty(plans, code, j)))
  {
    var column := seq(|open|, j requires 0 <= j < |open| => ColumnQty(plans, code, j));
    forall j: nat | j < |open| {
      ColumnIsNewLines(open, result, plans, code, j);
    }
    SumByIndexed(NewHeldOf(result, code), open, column);
  }

  lemma {:induction false} ColumnIsNewLines(open: seq<SavedContainer>, result: seq<NewContainer>,
                                            plans: seq<ProductPlan>,
                         code: string, j: nat)
    requires |result| == |open| && GoodPlans(plans, |open|) && j < |open|
    requires forall j :: 0 <= j < |open| ==> result[j].id == open[j].id && result[j].lines == LinesIn(plans, j)
    requires forall a, b :: 0 <= a < b < |open| ==> open[a].id != open[b].id
    ensures ColumnQty(plans, code, j) == NewHeldOf(result, code)(open[j])
  {
    NewLinesAt(result, j);
    LinesInQty(plans, |open|, code, j);
  }

  /** The new lines and the untouched locked ones together give every article its
      old plan-wide total. */
  lemma {:induction false} RebalanceConserves(cs: seq<SavedContainer>, requested: Option<int>,
                                              le: (string, string) -> bool, code: string)
    requires DistinctIds(cs) && Rebalanced(cs, requested, le).Ok?
    ensures var after := Applied(cs, Rebalanced(cs, requested, le).containers);
            && SumBy(HeldOf(code), after) == SumBy(HeldOf(code), cs)
            && SumBy(LockedHeldOf(code), after) == SumBy(LockedHeldOf(code), cs)
  {
    var result := Rebalanced(cs, requested, le).containers;
    NewLinesHold(cs, requested, le, code);
    RemainingQty(cs, le, code);
    AppliedHeld(cs, result, code);
    LockedWithin(cs, code);
    LockedWithin(Applied(cs, result), code);
    SortPermutes(PositionOrder(), Filter(IsOpen(), cs));
    SumByPermutation(NewHeldOf(result, code), Filter(IsOpen(), cs), Unlocked(cs));
  }

  /** No container of the new plan exceeds the capacity. */
  lemma {:induction false} RebalanceWithinCapacity(cs: seq<SavedContainer>, requested: Option<int>,
                                                   le: (string, string) -> bool)
    requires DistinctIds(cs) && Rebalanced(cs, requested, le).Ok?
    ensures var after := Applied(cs, Rebalanced(cs, requested, le).containers);
            forall i :: 0 <= i < |after| ==> Held(after[i]) <= NormalizeContainerCapacity(requested)
  {
    var capacity := NormalizeContainerCapacity(requested);
    var result := Rebalanced(cs, requested, le).containers;
    var after, open := Applied(cs, result), Unlocked(cs);
    ResultShape(cs, requested, le);
    UnlockedIds(cs);
    forall i | 0 <= i < |after|
      ensures Held(after[i]) <= capacity
    {
      if cs[i].locked {
        NoneOver(cs, capacity, i);
      } else {
        assert cs[i] in open;
        var j :| 0 <= j < |open| && open[j] == cs[i];
        NewLinesAt(result, j);
        LinesInQty(PlansOf(Zeros(|open|), Remaining(cs, le)), |open|, "", j);
      }
    }
  }

  lemma {:induction false} NoneOver(cs: seq<SavedContainer>, capacity: int, i: nat)
    requires FirstOver(cs, capacity).None? && i < |cs|
    ensures Held(cs[i]) <= capacity
  {
    if i > 0 { NoneOver(cs[1..], capacity, i - 1); }
  }

  lemma {:induction false} NoneOverAll(cs: seq<SavedContainer>, capacity: int)
    requires forall i :: 0 <= i < |cs| ==> Held(cs[i]) <= capacity
    ensures FirstOver(cs, capacity).None?
  {
    if cs != [] { NoneOverAll(cs[1..], capacity); }
  }

  // ---- Twice is once -------------------------------------------------------------------------

  /** Every line of an article goes by the same name. */
  ghost predicate SingleNames(cs: seq<SavedContainer>) {
    forall i, j, k, l ::
      0 <= i < |cs| && 0 <= j < |cs[i].lines| && 0 <= k < |cs| && 0 <= l < |cs[k].lines|
      && cs[i].lines[j].code == cs[k].lines[l].code ==>
        EffectiveName(cs[i].lines[j]) == EffectiveName(cs[k].lines[l])
  }

  /** All lines of the article carry this name. */
  ghost predicate NamedThroughout(cs: seq<SavedContainer>, code: string, name: string) {
    forall i, j :: 0 <= i < |cs| && 0 <= j < |cs[i].lines| && cs[i].lines[j].code == code ==>
                     EffectiveName(cs[i].lines[j]) == name
  }

  lemma {:induction false} PlanLineOrigin(lines: seq<Line>, locked: bool, i: nat)
    requires i < |PlanLines(lines, locked)|
    ensures |PlanLines(lines, locked)| == |lines|
    ensures PlanLines(lines, locked)[i].line == lines[i]
  {
    PlanLinesLength(lines, locked);
    if i < |lines| - 1 { PlanLineOrigin(lines[..|lines| - 1], locked, i); }
    else { PlanLinesLength(lines[..|lines| - 1], locked); }
  }

  lemma {:induction false} PlanLinesLength(lines: seq<Line>, locked: bool)
    ensures |PlanLines(lines, locked)| == |lines|
  {
    if lines != [] { PlanLinesLength(lines[..|lines| - 1], locked); }
  }

  lemma {:induction false} LineOrigin(cs: seq<SavedContainer>, i: nat) returns (k: nat, l: nat)
    requires i < |AllLines(cs)|
    ensures k < |cs| && l < |cs[k].lines| && AllLines(cs)[i].line == cs[k].lines[l]
  {
    var front, c := cs[..|cs| - 1], cs[|cs| - 1];
    if i < |AllLines(front)| {
      k, l := LineOrigin(front, i);
    } else {
      k, l := |cs| - 1, i - |AllLines(front)|;
      PlanLineOrigin(c.lines, c.locked, l);
    }
  }

  lemma {:induction false} LastNameFrom(lines: seq<PlanLine>, code: string) returns (i: nat)
    requires exists i :: 0 <= i < |lines| && lines[i].line.code == code
    ensures i < |lines| && lines[i].line.code == code && LastName(lines, code) == EffectiveName(lines[i].line)
  {
    var last := |lines| - 1;
    if lines[last].line.code == code {
      i := last;
    } else {
      var k :| 0 <= k < |lines| && lines[k].line.code == code;
      assert lines[..last][k].line.code == code;
      i := LastNameFrom(lines[..last], code);
    }
  }

  /** With single names the remainder of an article is named by any of its lines. */
  lemma {:induction false} NameOfHeld(cs: seq<SavedContainer>, code: string, name: string)
    requires NamedThroughout(cs, code, name) && SumBy(HeldOf(code), cs) > 0
    ensures LastName(AllLines(cs), code) == name
  {
    PlanSums(cs, code);
    CodeHeld(AllLines(cs), code);
    var i := LastNameFrom(AllLines(cs), code);
    var k, l := LineOrigin(cs, i);
  }

  lemma {:induction false} OldName(cs: seq<SavedContainer>, code: string)
    requires SingleNames(cs) && SumBy(HeldOf(code), cs) > 0
    ensures NamedThroughout(cs, code, LastName(AllLines(cs), code))
    ensures LastName(AllLines(cs), code) == "" ==> code == ""
  {
    PlanSums(cs, code);
    CodeHeld(AllLines(cs), code);
    var i := LastNameFrom(AllLines(cs), code);
    var k, l := LineOrigin(cs, i);
  }

  lemma {:induction false} LinesInNames(plans: seq<ProductPlan>, j: nat, i: nat) returns (p: nat)
    requires forall k :: 0 <= k < |plans| ==> j < |plans[k].allocations|
    requires i < |LinesIn(plans, j)|
    ensures p < |plans| && LinesIn(plans, j)[i].code == plans[p].code && LinesIn(plans, j)[i].name == plans[p].name
  {
    var own := if plans[0].allocations[j] > 0 then 1 else 0;
    if i < own {
      p := 0;
    } else {
      p := LinesInNames(plans[1..], j, i - own);
      p := p + 1;
    }
  }

  lemma {:induction false} PlanOrigin(totals: seq<int>, products: seq<Product>, p: nat) returns (q: nat)
    requires |totals| > 0 && p < |PlansOf(totals, products)|
    ensures q < |products| && PlansOf(totals, products)[p].code == products[q].code
    ensures PlansOf(totals, products)[p].name == products[q].name
    decreases |products|
  {
    var qty := NonNegative(products[0].qty);
    if qty == 0 {
      q := PlanOrigin(totals, products[1..], p);
      q := q + 1;
    } else if p == 0 {
      q := 0;
    } else {
      q := PlanOrigin(TotalsAfter(totals, qty), products[1..], p - 1);
      q := q + 1;
    }
  }

  /** A line of the new plan is an old locked line, or named as its article was. */
  lemma {:induction false} NewNames(cs: seq<SavedContainer>, requested: Option<int>, le: (string, string) -> bool,
                                    code: string)
    requires DistinctIds(cs) && SingleNames(cs) && Rebalanced(cs, requested, le).Ok?
    requires SumBy(HeldOf(code), cs) > 0
    ensures NamedThroughout(Applied(cs, Rebalanced(cs, requested, le).containers), code, LastName(AllLines(cs), code))
  {
    var result := Rebalanced(cs, requested, le).containers;
    var after := Applied(cs, result);
    var name := LastName(AllLines(cs), code);
    OldName(cs, code);
    forall i: nat, l: nat | i < |after| && l < |after[i].lines| && after[i].lines[l].code == code
      ensures EffectiveName(after[i].lines[l]) == name
    {
      if !cs[i].locked { NewLineName(cs, requested, le, i, l); }
    }
  }

  lemma {:induction false} NewLineName(cs: seq<SavedContainer>, requested: Option<int>, le: (string, string) -> bool,
                                       i: nat, l: nat)
    requires DistinctIds(cs) && Rebalanced(cs, requested, le).Ok? && i < |cs| && !cs[i].locked
    requires l < |NewLines(Rebalanced(cs, requested, le).containers, cs[i].id)|
    ensures var line := NewLines(Rebalanced(cs, requested, le).containers, cs[i].id)[l];
            line.name == LastName(AllLines(cs), line.code)
  {
    var open, products := Unlocked(cs), Remaining(cs, le);
    var j := NewLinesAreIn(cs, requested, le, i);
    var p := PlanLineName(|open|, products, j, l);
    RemainingAreThose(cs, le);
    assert p == Remainder(cs, p.code);
  }

  lemma {:induction false} NewLinesAreIn(cs: seq<SavedContainer>, requested: Option<int>,
                                         le: (string, string) -> bool, i: nat)
    returns (j: nat)
    requires DistinctIds(cs) && Rebalanced(cs, requested, le).Ok? && i < |cs| && !cs[i].locked
    ensures j < |Unlocked(cs)|
    ensures GoodPlans(PlansOf(Zeros(|Unlocked(cs)|), Remaining(cs, le)), |Unlocked(cs)|)
    ensures NewLines(Rebalanced(cs, requested, le).containers, cs[i].id)
            == LinesIn(PlansOf(Zeros(|Unlocked(cs)|), Remaining(cs, le)), j)
  {
    var open := Unlocked(cs);
    ResultShape(cs, requested, le);
    UnlockedIds(cs);
    assert cs[i] in open;
    j :| 0 <= j < |open| && open[j] == cs[i];
    NewLinesAt(Rebalanced(cs, requested, le).containers, j);
  }

  lemma {:induction false} PlanLineName(n: nat, products: seq<Product>, j: nat, l: nat) returns (product: Product)
    requires n > 0 && j < n && GoodPlans(PlansOf(Zeros(n), products), n)
    requires l < |LinesIn(PlansOf(Zeros(n), products), j)|
    ensures var line := LinesIn(PlansOf(Zeros(n), products), j)[l];
            product in products && product.code == line.code && product.name == line.name
  {
    var p := LinesInNames(PlansOf(Zeros(n), products), j, l);
    var q := PlanOrigin(Zeros(n), products, p);
    product := products[q];
  }

  lemma {:induction false} RemainderKept(cs: seq<SavedContainer>, requested: Option<int>,
                                         le: (string, string) -> bool, code: string)
    requires DistinctIds(cs) && SingleNames(cs) && Rebalanced(cs, requested, le).Ok?
    ensures var after := Applied(cs, Rebalanced(cs, requested, le).containers);
            && Remainder(after, code).qty == Remainder(cs, code).qty
            && (Remainder(cs, code).qty > 0 ==> Remainder(after, code) == Remainder(cs, code))
  {
    var after := Applied(cs, Rebalanced(cs, requested, le).containers);
    RebalanceConserves(cs, requested, le, code);
    LockedWithin(cs, code);
    if Remainder(cs, code).qty > 0 {
      NewNames(cs, requested, le, code);
      NameOfHeld(after, code, LastName(AllLines(cs), code));
    }
  }

  lemma {:induction false} RemainingKept(cs: seq<SavedContainer>, requested: Option<int>, le: (string, string) -> bool)
    requires TotalPreorder(le) && Antisymmetric(le)
    requires DistinctIds(cs) && SingleNames(cs) && Rebalanced(cs, requested, le).Ok?
    ensures Remaining(Applied(cs, Rebalanced(cs, requested, le).containers), le) == Remaining(cs, le)
  {
    var after := Applied(cs, Rebalanced(cs, requested, le).containers);
    NameOrderIsTotal(le);
    SortSorted(NameOrder(le), Remainders(cs, Codes(AllLines(cs))));
    SortSorted(NameOrder(le), Remainders(after, Codes(AllLines(after))));
    RemainingAreThose(cs, le);
    RemainingAreThose(after, le);
    forall p: Product
      ensures p in Remaining(cs, le) <==> p in Remaining(after, le)
    {
      RemainderKept(cs, requested, le, p.code);
    }
    SortedUnique(NameOrder(le), Remaining(cs, le), Remaining(after, le));
  }

  lemma {:induction false} FilterMapped(cs: seq<SavedContainer>, result: seq<NewContainer>)
    ensures Filter(IsOpen(), Applied(cs, result)) == Map(WithNewLines(result), Filter(IsOpen(), cs))
  {
    if cs != [] {
      FilterMapped(cs[1..], result);
      assert Applied(cs, result)[1..] == Applied(cs[1..], result);
      var rest := Filter(IsOpen(), cs[1..]);
      if !cs[0].locked {
        assert ([cs[0]] + rest)[1..] == rest;
      }
    }
  }

  /** Rebalancing a rebalanced plan changes nothing. */
  lemma {:induction false} RebalanceIsIdempotent(cs: seq<SavedContainer>, requested: Option<int>,
                                                 le: (string, string) -> bool)
    requires TotalPreorder(le) && Antisymmetric(le)
    requires DistinctIds(cs) && SingleNames(cs) && Rebalanced(cs, requested, le).Ok?
    ensures var once := Rebalanced(cs, requested, le);
            Rebalanced(Applied(cs, once.containers), requested, le) == once
  {
    var result := Rebalanced(cs, requested, le).containers;
    var after := Applied(cs, result);
    RemainingKept(cs, requested, le);
    RebalanceWithinCapacity(cs, requested, le);
    NoneOverAll(after, NormalizeContainerCapacity(requested));
    SameUnlocked(cs, result);
    SameContainers(Unlocked(cs), Unlocked(after), Remaining(cs, le));
    SameOutcome(cs, after, requested, le);
  }

  lemma {:induction false} SameUnlocked(cs: seq<SavedContainer>, result: seq<NewContainer>)
    ensures var open, after := Unlocked(cs), Unlocked(Applied(cs, result));
            |open| == |after| && forall j :: 0 <= j < |open| ==> after[j].id == open[j].id
  {
    FilterMapped(cs, result);
    SortMapped(PositionOrder(), PositionOrder(), WithNewLines(result), Filter(IsOpen(), cs));
  }

  /** The outcome is determined by the remaining products and the unlocked ids. */
  lemma {:induction false} SameOutcome(cs: seq<SavedContainer>, after: seq<SavedContainer>, requested: Option<int>,
                                       le: (string, string) -> bool)
    requires FirstOver(cs, NormalizeContainerCapacity(requested)).None?
    requires FirstOver(after, NormalizeContainerCapacity(requested)).None?
    requires Remaining(after, le) == Remaining(cs, le) && |Unlocked(after)| == |Unlocked(cs)|
    requires Emptied(Unlocked(cs)) == Emptied(Unlocked(after))
    requires |Unlocked(cs)| > 0 ==>
               var plans := PlansOf(Zeros(|Unlocked(cs)|), Remaining(cs, le));
               && WidePlans(plans, |Unlocked(cs)|)
               && Filled(Unlocked(cs), plans) == Filled(Unlocked(after), plans)
    ensures Rebalanced(after, requested, le) == Rebalanced(cs, requested, le)
  {
  }

  lemma {:induction false} SameContainers(open: seq<SavedContainer>, after: seq<SavedContainer>, products: seq<Product>)
    requires |open| == |after| && forall j :: 0 <= j < |open| ==> after[j].id == open[j].id
    ensures Emptied(open) == Emptied(after)
    ensures |open| > 0 ==>
              && WidePlans(PlansOf(Zeros(|open|), products), |open|)
              && Filled(open, PlansOf(Zeros(|open|), products)) == Filled(after, PlansOf(Zeros(|open|), products))
  {
    if |open| > 0 { PlansAreWide(Zeros(|open|), products); }
  }
}
