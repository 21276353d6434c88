/** When a rebalance fails: only where the saved plan is already over capacity. */
module RebalanceOutcome {
  import opened Standard
  import opened DoubleSums
  import opened Sorting
  import opened ContainerPlanner
  import opened ContainerRebalance
  import opened RebalanceProperties

  /** The bales of the containers that may be rearranged. */
  function OpenHeld(): SavedContainer -> int { (c: SavedContainer) => if c.locked then 0 else Held(c) }

  function OpenOf(): (Product, SavedContainer) -> int {
    (p: Product, c: SavedContainer) => if c.locked then 0 else SumBy(LineQtyOf(p.code), c.lines)
  }

  function LineOf(): (Product, Line) -> int {
    (p: Product, line: Line) => if line.code == p.code then NonNegative(line.qty) else 0
  }

  function HasCode(code: string): Product -> int { (p: Product) => if p.code == code then 1 else 0 }

  lemma {:induction false} HeldSomewhere(cs: seq<SavedContainer>, le: (string, string) -> bool, c: SavedContainer,
                                         line: Line)
    requires c in cs && !c.locked && line in c.lines && line.qty > 0
    ensures Remainder(cs, line.code) in Remaining(cs, le)
  {
    RemainingAreThose(cs, le);
    LockedWithin(cs, line.code);
    SumByNotNegative(LineQtyOf(line.code), c.lines);
    assert LineQtyOf(line.code)(line) > 0;
    forall d | d in cs
      ensures OpenHeldOf(line.code)(d) >= 0
    {
      LinesHoldNoLess(d.lines, line.code);
    }
    SumByNotNegative(OpenHeldOf(line.code), cs);
    assert OpenHeldOf(line.code)(c) > 0;
  }

  /** Each line of an open container is redistributed under its article, once. */
  lemma {:induction false} LineCounted(cs: seq<SavedContainer>, le: (string, string) -> bool, c: SavedContainer,
                                       line: Line)
    requires c in cs && !c.locked && line in c.lines
    ensures SumBy(Column(LineOf(), line), Remaining(cs, le)) == LineQty()(line)
  {
    var products := Remaining(cs, le);
    if line.qty <= 0 {
      SumByZero(Column(LineOf(), line), products);
    } else {
      HeldSomewhere(cs, le, c, line);
      RemainingAreThose(cs, le);
      var p := Remainder(cs, line.code);
      CountedOnce(HasCode(line.code), products, p);
      OneTerm(Column(LineOf(), line), HasCode(line.code), products, p);
    }
  }

  lemma {:induction false} ContainerCounted(cs: seq<SavedContainer>, le: (string, string) -> bool, c: SavedContainer)
    requires c in cs
    ensures SumBy(Column(OpenOf(), c), Remaining(cs, le)) == OpenHeld()(c)
  {
    var products := Remaining(cs, le);
    if c.locked {
      SumByZero(Column(OpenOf(), c), products);
    } else {
      forall p | p in products
        ensures Column(OpenOf(), c)(p) == RowSums(LineOf(), c.lines)(p)
      {
        SumBySame(LineQtyOf(p.code), Row(LineOf(), p), c.lines);
      }
      SumBySame(Column(OpenOf(), c), RowSums(LineOf(), c.lines), products);
      SwapSums(LineOf(), products, c.lines);
      forall line | line in c.lines
        ensures ColumnSums(LineOf(), products)(line) == LineQty()(line)
      {
        LineCounted(cs, le, c, line);
      }
      SumBySame(ColumnSums(LineOf(), products), LineQty(), c.lines);
    }
  }

  /** What is redistributed is exactly what the open containers hold. */
  lemma {:induction false} RemainingTotal(cs: seq<SavedContainer>, le: (string, string) -> bool)
    ensures QtyTotal(Remaining(cs, le)) == SumBy(OpenHeld(), cs)
  {
    var products := Remaining(cs, le);
    RemainingAreThose(cs, le);
    forall p | p in products
      ensures ProductQty()(p) == RowSums(OpenOf(), cs)(p)
    {
      LockedWithin(cs, p.code);
      SumBySame(OpenHeldOf(p.code), Row(OpenOf(), p), cs);
    }
    SumBySame(ProductQty(), RowSums(OpenOf(), cs), products);
    SwapSums(OpenOf(), products, cs);
    forall c | c in cs
      ensures ColumnSums(OpenOf(), products)(c) == OpenHeld()(c)
    {
      ContainerCounted(cs, le, c);
    }
    SumBySame(ColumnSums(OpenOf(), products), OpenHeld(), cs);
  }

  lemma {:induction false} RoomNext(n: int, capacity: int)
    ensures (n + 1) * capacity == n * capacity + capacity
  {
  }

  lemma {:induction false} OpenCount(cs: seq<SavedContainer>)
    requires cs != []
    ensures |Filter(IsOpen(), cs)| == |Filter(IsOpen(), cs[1..])| + if cs[0].locked then 0 else 1
  {
  }

  lemma {:induction false} OpenFit(cs: seq<SavedContainer>, capacity: int)
    requires forall i :: 0 <= i < |cs| ==> Held(cs[i]) <= capacity
    ensures SumBy(OpenHeld(), cs) <= |Filter(IsOpen(), cs)| * capacity
  {
    if cs != [] {
      OpenFit(cs[1..], capacity);
      OpenCount(cs);
      RoomNext(|Filter(IsOpen(), cs[1..])|, capacity);
    }
  }

  /** A rebalance succeeds if and only if no container is over capacity to begin
      with; otherwise it names the first that is. The other three errors never
      happen: containers within capacity always leave room for what they hold. */
  lemma {:induction false} RebalanceFailsOnlyOverCapacity(cs: seq<SavedContainer>, requested: Option<int>,
                                                          le: (string, string) -> bool)
    ensures var r, capacity := Rebalanced(cs, requested, le), NormalizeContainerCapacity(requested);
            && (r.Ok? <==> forall i :: 0 <= i < |cs| ==> Held(cs[i]) <= capacity)
            && (r.Err? ==> exists i :: IsFirstOver(cs, capacity, i) && r.error == OverCapacity(cs[i].position))
  {
    var capacity := NormalizeContainerCapacity(requested);
    if FirstOver(cs, capacity).Some? {
      var i := FirstOverAt(cs, capacity);
    } else {
      forall i | 0 <= i < |cs|
        ensures Held(cs[i]) <= capacity
      {
        NoneOver(cs, capacity, i);
      }
      OpenFit(cs, capacity);
      RemainingTotal(cs, le);
      SortPermutes(PositionOrder(), Filter(IsOpen(), cs));
      SumByNotNegative(ProductQty(), Remaining(cs, le));
      assert 0 * capacity == 0;
      CannotFitIsUnreachable(cs, requested, le);
    }
  }

  ghost predicate IsFirstOver(cs: seq<SavedContainer>, capacity: int, i: int) {
    0 <= i < |cs| && Held(cs[i]) > capacity && forall k :: 0 <= k < i ==> Held(cs[k]) <= capacity
  }

  lemma {:induction false} FirstOverAt(cs: seq<SavedContainer>, capacity: int) returns (i: nat)
    requires FirstOver(cs, capacity).Some?
    ensures IsFirstOver(cs, capacity, i) && FirstOver(cs, capacity) == Some(cs[i].position)
  {
    if Held(cs[0]) > capacity {
      i := 0;
    } else {
      i := FirstOverAt(cs[1..], capacity);
      i := i + 1;
    }
  }
}
