/** Spreading products evenly over a number of containers. */
module ContainerPlanner {
  import opened Standard
  import opened Sorting

  const DEFAULT_CONTAINER_CAPACITY := 600
  const MAX_CONTAINER_CAPACITY := 5000

  datatype Product = Product(code: string, name: string, qty: int)
  datatype ProductPlan = ProductPlan(code: string, name: string, plannable: int, allocations: seq<int>)

  /** A line of a container: how much of an article it holds. */
  datatype Line = Line(code: string, name: string, qty: int)

  function NonNegative(qty: int): int { Max(0, qty) }

  function LineQty(): Line -> int { (line: Line) => NonNegative(line.qty) }

  function LineQtyOf(code: string): Line -> int {
    (line: Line) => if line.code == code then NonNegative(line.qty) else 0
  }

  function Apart(a: int, b: int): int { if a >= b then a - b else b - a }

  /** None stands for a capacity that is not a finite number; any other is moved to
      the nearest legal one. */
  function NormalizeContainerCapacity(value: Option<int>): (capacity: int)
    ensures 1 <= capacity <= 5000
    ensures value.None? ==> capacity == 600
    ensures value.Some? ==> forall c :: 1 <= c <= 5000 ==>
            Apart(value.value, capacity) <= Apart(value.value, c)
  {
    if value.None? then DEFAULT_CONTAINER_CAPACITY else Min(MAX_CONTAINER_CAPACITY, Max(1, value.value))
  }

  function Sum(s: seq<int>): int {
    if s == [] then 0 else s[0] + Sum(s[1..])
  }

  /** No two entries further apart than one. */
  ghost predicate Balanced(s: seq<int>) {
    forall i, j :: 0 <= i < |s| && 0 <= j < |s| ==> s[i] - s[j] <= 1
  }

  // ---- Lightest first ------------------------------------------------------------

  /** A container's index with the total it holds. */
  datatype Load = Load(total: int, index: nat)

  function LoadOrder(): (Load, Load) -> bool {
    (a: Load, b: Load) => a.total < b.total || (a.total == b.total && a.index <= b.index)
  }

  function Loads(totals: seq<int>): seq<Load> {
    seq(|totals|, i requires 0 <= i < |totals| => Load(totals[i], i))
  }

  /** The containers that take one bale more, lightest first. */
  function Lightest(totals: seq<int>, count: nat): seq<nat>
    requires count <= |totals|
  {
    SortPermutes(LoadOrder(), Loads(totals));
    var order := Sort(LoadOrder(), Loads(totals));
    seq(count, i requires 0 <= i < count => order[i].index)
  }

  /** Container i comes before container j: it is lighter, or as light with a lower index. */
  predicate Lighter(totals: seq<int>, i: nat, j: nat)
    requires i < |totals| && j < |totals|
  {
    totals[i] < totals[j] || (totals[i] == totals[j] && i < j)
  }

  /** The chosen containers are distinct, and each comes before every one that was passed over. */
  lemma {:induction false} LightestAreLightest(totals: seq<int>, count: nat)
    requires count <= |totals|
    ensures var chosen := Lightest(totals, count);
            && |chosen| == count
            && (forall i :: 0 <= i < count ==> chosen[i] < |totals|)
            && Distinct(chosen)
            && (forall i, j :: i in chosen && 0 <= j < |totals| && j !in chosen ==> Lighter(totals, i, j))
  {
    var le, loads := LoadOrder(), Loads(totals);
    SortPermutes(le, loads);
    SortSorted(le, loads);
    var order := Sort(le, loads);
    var chosen := Lightest(totals, count);
    forall i | 0 <= i < |order|
      ensures order[i].index < |totals| && order[i].total == totals[order[i].index]
    {
      assert order[i] in loads;
    }
    DistinctPermutation(loads, order);
    forall i, j | i in chosen && 0 <= j < |totals| && j !in chosen
      ensures Lighter(totals, i, j)
    {
      var p :| 0 <= p < count && chosen[p] == i;
      assert loads[j] in order;
      var q :| 0 <= q < |order| && order[q] == Load(totals[j], j);
      assert forall k :: 0 <= k < count ==> order[k].index == chosen[k] != j;
      assert q >= count;
      assert le(order[p], order[q]);
    }
    forall i, j | 0 <= i < j < count
      ensures chosen[i] != chosen[j]
    {
      assert order[i] != order[j];
    }
  }

  // ---- One product ---------------------------------------------------------------

  function Raise(s: seq<int>, extra: int): seq<int> {
    seq(|s|, i requires 0 <= i < |s| => s[i] + extra)
  }

  /** One more at each of the listed places, in order. */
  function Bump(s: seq<int>, places: seq<nat>): (r: seq<int>)
    requires forall i :: 0 <= i < |places| ==> places[i] < |s|
    ensures |r| == |s|
    decreases |places|
  {
    if places == [] then s else Bump(s[places[0] := s[places[0]] + 1], places[1..])
  }

  /** `base` for every container and one more for the lightest `odd` of them. */
  function Shares(totals: seq<int>, base: nat, odd: nat): (r: seq<int>)
    requires odd <= |totals|
    ensures |r| == |totals|
  {
    LightestAreLightest(Raise(totals, base), odd);
    Bump(seq(|totals|, i => base), Lightest(Raise(totals, base), odd))
  }

  function Loaded(totals: seq<int>, base: nat, odd: nat): (r: seq<int>)
    requires odd <= |totals|
    ensures |r| == |totals|
  {
    LightestAreLightest(Raise(totals, base), odd);
    Bump(Raise(totals, base), Lightest(Raise(totals, base), odd))
  }

  /** What each container receives of a product. */
  function Allocations(totals: seq<int>, qty: nat): (r: seq<int>)
    requires |totals| > 0
    ensures |r| == |totals|
  {
    Shares(totals, qty / |totals|, qty % |totals|)
  }

  function TotalsAfter(totals: seq<int>, qty: nat): (r: seq<int>)
    requires |totals| > 0
    ensures |r| == |totals|
  {
    Loaded(totals, qty / |totals|, qty % |totals|)
  }

  lemma {:induction false} SumUpdate(s: seq<int>, i: nat, x: int)
    requires i < |s|
    ensures Sum(s[i := x]) == Sum(s) - s[i] + x
  {
    if i == 0 {
      assert s[0 := x][1..] == s[1..];
    } else {
      assert s[i := x][1..] == s[1..][i - 1 := x];
      SumUpdate(s[1..], i - 1, x);
    }
  }

  lemma {:induction false} BumpAt(s: seq<int>, places: seq<nat>)
    requires (forall i :: 0 <= i < |places| ==> places[i] < |s|) && Distinct(places)
    ensures Sum(Bump(s, places)) == Sum(s) + |places|
    ensures forall j :: 0 <= j < |s| ==> Bump(s, places)[j] == s[j] + if j in places then 1 else 0
    decreases |places|
  {
    if places != [] {
      var p := places[0];
      var s' := s[p := s[p] + 1];
      SumUpdate(s, p, s[p] + 1);
      BumpAt(s', places[1..]);
      assert p !in places[1..];
      forall j | 0 <= j < |s|
        ensures j in places <==> j == p || j in places[1..]
      {
        assert places == [p] + places[1..];
      }
    }
  }

  lemma {:induction false} SumConstant(n: nat, x: int)
    ensures Sum(seq(n, i => x)) == n * x
  {
    if n > 0 {
      assert seq(n, i => x)[1..] == seq(n - 1, i => x);
      SumConstant(n - 1, x);
    }
  }

  /** Where the odd bales of a product go. */
  lemma {:induction false} SharesAt(totals: seq<int>, base: nat, odd: nat) returns (chosen: seq<nat>)
    requires odd <= |totals|
    ensures Sum(Shares(totals, base, odd)) == |totals| * base + odd
    ensures forall i, j :: i in chosen && 0 <= j < |totals| && j !in chosen ==> i < |totals| && Lighter(totals, i, j)
    ensures forall j :: 0 <= j < |totals| ==> Shares(totals, base, odd)[j] == base + (if j in chosen then 1 else 0)
    ensures forall j :: 0 <= j < |totals| ==>
              Loaded(totals, base, odd)[j] == totals[j] + base + (if j in chosen then 1 else 0)
  {
    var raised := Raise(totals, base);
    var even := seq(|totals|, i => base);
    chosen := Lightest(raised, odd);
    LightestAreLightest(raised, odd);
    BumpAt(even, chosen);
    BumpAt(raised, chosen);
    SumConstant(|totals|, base);
    forall i, j | i in chosen && 0 <= j < |totals| && j !in chosen
      ensures i < |totals| && Lighter(totals, i, j)
    {
      assert Lighter(raised, i, j);
    }
  }

  lemma {:induction false} SharesAreEven(totals: seq<int>, base: nat, odd: nat)
    requires odd <= |totals| && Balanced(totals)
    ensures Balanced(Shares(totals, base, odd)) && Balanced(Loaded(totals, base, odd))
    ensures forall j :: 0 <= j < |totals| ==>
              && Shares(totals, base, odd)[j] >= 0
              && Loaded(totals, base, odd)[j] == totals[j] + Shares(totals, base, odd)[j]
  {
    var chosen := SharesAt(totals, base, odd);
    var after := Loaded(totals, base, odd);
    forall i, j | 0 <= i < |after| && 0 <= j < |after|
      ensures after[i] - after[j] <= 1
    {
      assert totals[i] - totals[j] <= 1;
    }
  }

  /** A product is placed in full, its containers differ by at most one bale, where one
      gets more than another it comes before it, and balanced containers stay balanced. */
  lemma {:induction false} ProductIsSpread(totals: seq<int>, qty: nat)
    requires |totals| > 0 && Balanced(totals)
    ensures var r := Allocations(totals, qty);
            && Sum(r) == qty && Balanced(r)
            && (forall j :: 0 <= j < |r| ==> r[j] >= 0 && TotalsAfter(totals, qty)[j] == totals[j] + r[j])
            && (forall i, j :: 0 <= i < |r| && 0 <= j < |r| && r[i] > r[j] ==> Lighter(totals, i, j))
    ensures Balanced(TotalsAfter(totals, qty))
  {
    var chosen := SharesAt(totals, qty / |totals|, qty % |totals|);
    SharesAreEven(totals, qty / |totals|, qty % |totals|);
  }

  // ---- All products ----------------------------------------------------------------

  function TotalsOf(totals: seq<int>, products: seq<Product>): (r: seq<int>)
    requires |totals| > 0
    ensures |r| == |totals|
    decreases |products|
  {
    if products == [] then totals
    else TotalsOf(if NonNegative(products[0].qty) == 0 then totals
                  else TotalsAfter(totals, NonNegative(products[0].qty)), products[1..])
  }

  function PlansOf(totals: seq<int>, products: seq<Product>): seq<ProductPlan>
    requires |totals| > 0
    decreases |products|
  {
    if products == [] then []
    else
      var p := products[0];
      var qty := NonNegative(p.qty);
      if qty == 0 then PlansOf(totals, products[1..])
      else [ProductPlan(p.code, p.name, qty, Allocations(totals, qty))]
           + PlansOf(TotalsAfter(totals, qty), products[1..])
  }

  function Zeros(n: nat): (r: seq<int>)
    ensures |r| == n
  {
    seq(n, i => 0)
  }

  function ProductQty(): Product -> int { (p: Product) => NonNegative(p.qty) }

  function QtyTotal(products: seq<Product>): int { SumBy(ProductQty(), products) }

  /** What container j holds over all plans. */
  function HeldIn(plans: seq<ProductPlan>, j: nat): int
    requires forall i :: 0 <= i < |plans| ==> j < |plans[i].allocations|
  {
    if plans == [] then 0 else plans[0].allocations[j] + HeldIn(plans[1..], j)
  }

  ghost predicate GoodPlans(plans: seq<ProductPlan>, n: nat) {
    forall i :: 0 <= i < |plans| ==>
      && |plans[i].allocations| == n
      && plans[i].plannable > 0
      && Sum(plans[i].allocations) == plans[i].plannable
      && Balanced(plans[i].allocations)
      && forall j :: 0 <= j < n ==> plans[i].allocations[j] >= 0
  }

  lemma {:induction false} SumPointwise(a: seq<int>, b: seq<int>, c: seq<int>)
    requires |a| == |b| == |c| && forall j :: 0 <= j < |a| ==> c[j] == a[j] + b[j]
    ensures Sum(c) == Sum(a) + Sum(b)
  {
    if a != [] { SumPointwise(a[1..], b[1..], c[1..]); }
  }

  /** After any list of products: every product placed in full and evenly, the
      containers even with each other, and each holding what its plans say. */
  lemma {:induction false} DistributionIsBalanced(totals: seq<int>, products: seq<Product>)
    requires |totals| > 0 && Balanced(totals)
    ensures var after, plans := TotalsOf(totals, products), PlansOf(totals, products);
            && GoodPlans(plans, |totals|)
            && Balanced(after)
            && Sum(after) == Sum(totals) + QtyTotal(products)
            && forall j :: 0 <= j < |totals| ==> after[j] == totals[j] + HeldIn(plans, j)
    decreases |products|
  {
    if products != [] {
      var qty := NonNegative(products[0].qty);
      if qty == 0 {
        DistributionIsBalanced(totals, products[1..]);
      } else {
        ProductIsSpread(totals, qty);
        SumPointwise(totals, Allocations(totals, qty), TotalsAfter(totals, qty));
        DistributionIsBalanced(TotalsAfter(totals, qty), products[1..]);
      }
    }
  }

  /** Balanced containers are each at most the average rounded up. */
  lemma {:induction false} BalancedWithin(s: seq<int>, capacity: int)
    requires Balanced(s) && Sum(s) <= |s| * capacity
    ensures forall j :: 0 <= j < |s| ==> s[j] <= capacity
  {
    forall j | 0 <= j < |s|
      ensures s[j] <= capacity
    {
      if s[j] > capacity { SumAbove(s, capacity, j); }
    }
  }

  lemma {:induction false} SumAtLeast(s: seq<int>, low: int)
    requires forall i :: 0 <= i < |s| ==> s[i] >= low
    ensures Sum(s) >= |s| * low
  {
    if s != [] { SumAtLeast(s[1..], low); }
  }

  lemma {:induction false} SumAbove(s: seq<int>, capacity: int, j: nat)
    requires j < |s| && s[j] > capacity && forall i :: 0 <= i < |s| ==> s[i] >= capacity
    ensures Sum(s) > |s| * capacity
  {
    SumUpdate(s, j, capacity);
    SumAtLeast(s[j := capacity], capacity);
  }

  /** The loops over the working arrays: totals and allocations updated in place. */
  method DistributeProducts(products: seq<Product>, containerCount: int)
    returns (totals: seq<int>, plans: seq<ProductPlan>)
    ensures containerCount <= 0 ==> totals == [] && plans == []
    ensures containerCount > 0 ==>
              && totals == TotalsOf(Zeros(containerCount), products)
              && plans == PlansOf(Zeros(containerCount), products)
  {
    if containerCount <= 0 { return [], []; }
    var n: nat := containerCount;
    var containerTotals := new int[n](_ => 0);
    plans := [];
    var k := 0;
    assert containerTotals[..] == Zeros(n);
    while k < |products|
      invariant 0 <= k <= |products| && containerTotals.Length == n
      invariant TotalsOf(containerTotals[..], products[k..]) == TotalsOf(Zeros(n), products)
      invariant plans + PlansOf(containerTotals[..], products[k..]) == PlansOf(Zeros(n), products)
    {
      var row := products[k];
      var qty := NonNegative(row.qty);
      ghost var before := containerTotals[..];
      assert products[k..][1..] == products[k + 1..];
      k := k + 1;
      if qty <= 0 { continue; }
      var allocations := PlaceProduct(containerTotals, qty);
      plans := plans + [ProductPlan(row.code, row.name, qty, allocations)];
    }
    totals := containerTotals[..];
  }

  /** One pass of the product loop. */
  method PlaceProduct(containerTotals: array<int>, qty: nat) returns (placed: seq<int>)
    requires containerTotals.Length > 0
    modifies containerTotals
    ensures containerTotals[..] == TotalsAfter(old(containerTotals[..]), qty)
    ensures placed == Allocations(old(containerTotals[..]), qty)
  {
    var n := containerTotals.Length;
    var baseQty, remainder := qty / n, qty % n;
    var allocations := new int[n](_ => baseQty);
    assert allocations[..] == seq(n, i => baseQty);
    RaiseAll(containerTotals, baseQty);
    BumpLightest(containerTotals, allocations, remainder);
    placed := allocations[..];
  }

  method RaiseAll(containerTotals: array<int>, baseQty: nat)
    modifies containerTotals
    ensures containerTotals[..] == Raise(old(containerTotals[..]), baseQty)
  {
    ghost var before := containerTotals[..];
    if baseQty > 0 {
      var index := 0;
      while index < containerTotals.Length
        invariant 0 <= index <= containerTotals.Length
        invariant forall j :: 0 <= j < index ==> containerTotals[j] == before[j] + baseQty
        invariant forall j :: index <= j < containerTotals.Length ==> containerTotals[j] == before[j]
      {
        containerTotals[index] := containerTotals[index] + baseQty;
        index := index + 1;
      }
    }
  }

  method BumpLightest(containerTotals: array<int>, allocations: array<int>, remainder: nat)
    requires containerTotals.Length == allocations.Length && containerTotals != allocations
    requires remainder <= containerTotals.Length
    modifies containerTotals, allocations
    ensures forall i :: 0 <= i < remainder ==>
              Lightest(old(containerTotals[..]), remainder)[i] < containerTotals.Length
    ensures containerTotals[..] == Bump(old(containerTotals[..]), Lightest(old(containerTotals[..]), remainder))
    ensures allocations[..] == Bump(old(allocations[..]), Lightest(old(containerTotals[..]), remainder))
  {
    LightestAreLightest(containerTotals[..], remainder);
    var lightestFirst := Lightest(containerTotals[..], remainder);
    BumpBoth(containerTotals, allocations, lightestFirst);
  }

  method BumpBoth(containerTotals: array<int>, allocations: array<int>, lightestFirst: seq<nat>)
    requires containerTotals.Length == allocations.Length && containerTotals != allocations
    requires forall i :: 0 <= i < |lightestFirst| ==> lightestFirst[i] < allocations.Length
    modifies containerTotals, allocations
    ensures containerTotals[..] == Bump(old(containerTotals[..]), lightestFirst)
    ensures allocations[..] == Bump(old(allocations[..]), lightestFirst)
  {
    var i := 0;
    while i < |lightestFirst|
      invariant 0 <= i <= |lightestFirst|
      invariant Bump(containerTotals[..], lightestFirst[i..]) == Bump(old(containerTotals[..]), lightestFirst)
      invariant Bump(allocations[..], lightestFirst[i..]) == Bump(old(allocations[..]), lightestFirst)
    {
      var containerIndex := lightestFirst[i];
      assert lightestFirst[i..][1..] == lightestFirst[i + 1..];
      ghost var a, t := allocations[..], containerTotals[..];
      allocations[containerIndex] := allocations[containerIndex] + 1;
      containerTotals[containerIndex] := containerTotals[containerIndex] + 1;
      assert allocations[..] == a[containerIndex := a[containerIndex] + 1];
      assert containerTotals[..] == t[containerIndex := t[containerIndex] + 1];
      i := i + 1;
    }
  }
}
