/** Rebalancing the unlocked containers of a saved plan around its locked ones. */
module ContainerRebalance {
  import opened Standard
  import opened Sorting
  import opened ContainerPlanner
  import opened ContainerPreview

  datatype SavedContainer = SavedContainer(id: int, position: int, locked: bool, lines: seq<Line>)
  datatype NewContainer = NewContainer(id: int, lines: seq<Line>)

  datatype RebalanceError =
    | OverCapacity(position: int)
    | AllLocked
    | NoRoom(unlockedCapacity: int, remaining: int)
    | CannotFit

  datatype Result = Ok(containers: seq<NewContainer>) | Err(error: RebalanceError)

  // ---- What the saved plan holds -----------------------------------------------------

  function Held(c: SavedContainer): int { SumBy(LineQty(), c.lines) }

  function HeldOf(code: string): SavedContainer -> int {
    (c: SavedContainer) => SumBy(LineQtyOf(code), c.lines)
  }

  function LockedHeldOf(code: string): SavedContainer -> int {
    (c: SavedContainer) => if c.locked then SumBy(LineQtyOf(code), c.lines) else 0
  }

  function OpenHeldOf(code: string): SavedContainer -> int {
    (c: SavedContainer) => if c.locked then 0 else SumBy(LineQtyOf(code), c.lines)
  }

  function EffectiveName(line: Line): string { if line.name == "" then line.code else line.name }

  /** A line together with whether its container is locked. */
  datatype PlanLine = PlanLine(line: Line, locked: bool)

  function PlanLines(lines: seq<Line>, locked: bool): seq<PlanLine> {
    if lines == [] then [] else PlanLines(lines[..|lines| - 1], locked) + [PlanLine(lines[|lines| - 1], locked)]
  }

  function AllLines(cs: seq<SavedContainer>): seq<PlanLine> {
    if cs == [] then []
    else AllLines(cs[..|cs| - 1]) + PlanLines(cs[|cs| - 1].lines, cs[|cs| - 1].locked)
  }

  /** The article codes of the lines in order of first appearance. */
  function Codes(lines: seq<PlanLine>): seq<string> {
    if lines == [] then []
    else
      var front := Codes(lines[..|lines| - 1]);
      var code := lines[|lines| - 1].line.code;
      if code in front then front else front + [code]
  }

  /** The name the last line of an article gives it. */
  function LastName(lines: seq<PlanLine>, code: string): string {
    if lines == [] then code
    else if lines[|lines| - 1].line.code == code then EffectiveName(lines[|lines| - 1].line)
    else LastName(lines[..|lines| - 1], code)
  }

  function IsOpen(): SavedContainer -> bool { (c: SavedContainer) => !c.locked }

  function PositionOrder(): (SavedContainer, SavedContainer) -> bool {
    (a: SavedContainer, b: SavedContainer) => a.position < b.position || (a.position == b.position && a.id <= b.id)
  }

  function Unlocked(cs: seq<SavedContainer>): seq<SavedContainer> {
    Sort(PositionOrder(), Filter(IsOpen(), cs))
  }

  function FirstOver(cs: seq<SavedContainer>, capacity: int): Option<int> {
    if cs == [] then None
    else if Held(cs[0]) > capacity then Some(cs[0].position)
    else FirstOver(cs[1..], capacity)
  }

  /** What is left of an article for the unlocked containers. */
  function Remainder(cs: seq<SavedContainer>, code: string): Product {
    Product(code, LastName(AllLines(cs), code),
            Max(SumBy(HeldOf(code), cs) - SumBy(LockedHeldOf(code), cs), 0))
  }

  function Remainders(cs: seq<SavedContainer>, codes: seq<string>): seq<Product> {
    if codes == [] then []
    else
      var p := Remainder(cs, codes[0]);
      (if p.qty > 0 then [p] else []) + Remainders(cs, codes[1..])
  }

  function Remaining(cs: seq<SavedContainer>, le: (string, string) -> bool): seq<Product> {
    Sort(NameOrder(le), Remainders(cs, Codes(AllLines(cs))))
  }

  // ---- The new lines -------------------------------------------------------------------

  function LinesIn(plans: seq<ProductPlan>, j: nat): seq<Line>
    requires forall i :: 0 <= i < |plans| ==> j < |plans[i].allocations|
  {
    if plans == [] then []
    else (if plans[0].allocations[j] > 0 then [Line(plans[0].code, plans[0].name, plans[0].allocations[j])] else [])
         + LinesIn(plans[1..], j)
  }

  function Emptied(open: seq<SavedContainer>): seq<NewContainer> {
    Map((c: SavedContainer) => NewContainer(c.id, []), open)
  }

  ghost predicate WidePlans(plans: seq<ProductPlan>, n: nat) {
    forall i :: 0 <= i < |plans| ==> |plans[i].allocations| >= n
  }

  function Filled(open: seq<SavedContainer>, plans: seq<ProductPlan>): (r: seq<NewContainer>)
    requires WidePlans(plans, |open|)
    ensures |r| == |open|
  {
    seq(|open|, j requires 0 <= j < |open| => NewContainer(open[j].id, LinesIn(plans, j)))
  }

  lemma {:induction false} PlansAreWide(totals: seq<int>, products: seq<Product>)
    requires |totals| > 0
    ensures WidePlans(PlansOf(totals, products), |totals|)
    decreases |products|
  {
    if products != [] {
      var qty := NonNegative(products[0].qty);
      PlansAreWide(if qty == 0 then totals else TotalsAfter(totals, qty), products[1..]);
    }
  }

  function Rebalanced(cs: seq<SavedContainer>, requested: Option<int>, le: (string, string) -> bool): Result {
    var capacity := NormalizeContainerCapacity(requested);
    var over := FirstOver(cs, capacity);
    var open := Unlocked(cs);
    var products := Remaining(cs, le);
    var total := QtyTotal(products);
    if over.Some? then Err(OverCapacity(over.value))
    else if total == 0 then Ok(Emptied(open))
    else if |open| == 0 then Err(AllLocked)
    else if total > |open| * capacity then Err(NoRoom(|open| * capacity, total))
    else
      PlansAreWide(Zeros(|open|), products);
      if exists j :: 0 <= j < |open| && TotalsOf(Zeros(|open|), products)[j] > capacity then Err(CannotFit)
      else Ok(Filled(open, PlansOf(Zeros(|open|), products)))
  }

  // ---- The loops --------------------------------------------------------------------------

  /** The maps the loop fills: the codes in order of insertion, the latest name,
      the plan-wide and the locked quantity of each. */
  datatype Tally = Tally(codes: seq<string>, names: map<string, string>, totals: map<string, int>,
                         locked: map<string, int>)

  function At(m: map<string, int>, code: string): int { if code in m then m[code] else 0 }

  function AddLine(t: Tally, l: PlanLine): Tally {
    var code, qty := l.line.code, NonNegative(l.line.qty);
    Tally(if code in t.codes then t.codes else t.codes + [code],
          t.names[code := EffectiveName(l.line)],
          t.totals[code := At(t.totals, code) + qty],
          if l.locked then t.locked[code := At(t.locked, code) + qty] else t.locked)
  }

  function TallyOf(lines: seq<PlanLine>): Tally {
    if lines == [] then Tally([], map[], map[], map[])
    else AddLine(TallyOf(lines[..|lines| - 1]), lines[|lines| - 1])
  }

  function PlanQtyOf(code: string): PlanLine -> int {
    (l: PlanLine) => if l.line.code == code then NonNegative(l.line.qty) else 0
  }

  function LockedQtyOf(code: string): PlanLine -> int {
    (l: PlanLine) => if l.locked && l.line.code == code then NonNegative(l.line.qty) else 0
  }

  lemma {:induction false} TallyMeaning(lines: seq<PlanLine>, code: string)
    ensures var t := TallyOf(lines);
            && t.codes == Codes(lines)
            && (code in t.names <==> code in t.codes)
            && (code in t.names ==> t.names[code] == LastName(lines, code))
            && At(t.totals, code) == SumBy(PlanQtyOf(code), lines)
            && At(t.locked, code) == SumBy(LockedQtyOf(code), lines)
  {
    if lines != [] {
      var front, last := lines[..|lines| - 1], lines[|lines| - 1];
      TallyMeaning(front, code);
      assert lines == front + [last];
      SumByAppend(PlanQtyOf(code), front, [last]);
      SumByOne(PlanQtyOf(code), last);
      SumByAppend(LockedQtyOf(code), front, [last]);
      SumByOne(LockedQtyOf(code), last);
    }
  }

  lemma {:induction false} ContainerLines(lines: seq<Line>, locked: bool, code: string)
    ensures SumBy(PlanQtyOf(code), PlanLines(lines, locked)) == SumBy(LineQtyOf(code), lines)
    ensures SumBy(LockedQtyOf(code), PlanLines(lines, locked)) == if locked then SumBy(LineQtyOf(code), lines) else 0
  {
    if lines != [] {
      var front, last := lines[..|lines| - 1], lines[|lines| - 1];
      ContainerLines(front, locked, code);
      assert lines == front + [last];
      SumByAppend(LineQtyOf(code), front, [last]);
      SumByOne(LineQtyOf(code), last);
      var flagged := PlanLine(last, locked);
      SumByAppend(PlanQtyOf(code), PlanLines(front, locked), [flagged]);
      SumByOne(PlanQtyOf(code), flagged);
      SumByAppend(LockedQtyOf(code), PlanLines(front, locked), [flagged]);
      SumByOne(LockedQtyOf(code), flagged);
    }
  }

  /** A total over the lines of all containers is taken container by container. */
  lemma {:induction false} AllLinesSum(f: PlanLine -> int, g: SavedContainer -> int, cs: seq<SavedContainer>)
    requires forall c :: c in cs ==> SumBy(f, PlanLines(c.lines, c.locked)) == g(c)
    ensures SumBy(f, AllLines(cs)) == SumBy(g, cs)
  {
    if cs != [] {
      var front, c := cs[..|cs| - 1], cs[|cs| - 1];
      assert cs == front + [c];
      assert forall x :: x in front ==> x in cs;
      AllLinesSum(f, g, front);
      SumByAppend(f, AllLines(front), PlanLines(c.lines, c.locked));
      SumByAppend(g, front, [c]);
      SumByOne(g, c);
    }
  }

  lemma {:induction false} PlanSums(cs: seq<SavedContainer>, code: string)
    ensures SumBy(PlanQtyOf(code), AllLines(cs)) == SumBy(HeldOf(code), cs)
    ensures SumBy(LockedQtyOf(code), AllLines(cs)) == SumBy(LockedHeldOf(code), cs)
  {
    forall c | c in cs
      ensures SumBy(PlanQtyOf(code), PlanLines(c.lines, c.locked)) == HeldOf(code)(c)
      ensures SumBy(LockedQtyOf(code), PlanLines(c.lines, c.locked)) == LockedHeldOf(code)(c)
    {
      ContainerLines(c.lines, c.locked, code);
    }
    AllLinesSum(PlanQtyOf(code), HeldOf(code), cs);
    AllLinesSum(LockedQtyOf(code), LockedHeldOf(code), cs);
  }

  lemma {:induction false} CodesAreThose(lines: seq<PlanLine>)
    ensures Distinct(Codes(lines))
    ensures forall code :: code in Codes(lines) <==> exists i :: 0 <= i < |lines| && lines[i].line.code == code
  {
    if lines != [] {
      CodesAreThose(lines[..|lines| - 1]);
      assert lines == lines[..|lines| - 1] + [lines[|lines| - 1]];
    }
  }

  lemma {:induction false} OverAppend(cs: seq<SavedContainer>, k: nat, capacity: int)
    requires k <= |cs| && FirstOver(cs[..k], capacity).None?
    ensures FirstOver(cs, capacity) == FirstOver(cs[k..], capacity)
    decreases k
  {
    if k == 0 {
      assert cs[0..] == cs;
    } else {
      assert cs[..k][1..] == cs[1..][..k - 1];
      assert cs[1..][k - 1..] == cs[k..];
      OverAppend(cs[1..], k - 1, capacity);
    }
  }

  lemma {:induction false} NoneOverAppend(cs: seq<SavedContainer>, c: SavedContainer, capacity: int)
    requires FirstOver(cs, capacity).None? && Held(c) <= capacity
    ensures FirstOver(cs + [c], capacity).None?
  {
    if cs == [] {
      assert ([] + [c])[1..] == [];
    } else {
      assert (cs + [c])[1..] == cs[1..] + [c];
      NoneOverAppend(cs[1..], c, capacity);
    }
  }

  lemma {:induction false} RemaindersAppend(cs: seq<SavedContainer>, codes: seq<string>, code: string)
    ensures var p := Remainder(cs, code);
            Remainders(cs, codes + [code]) == Remainders(cs, codes) + if p.qty > 0 then [p] else []
  {
    if codes == [] {
      assert ([] + [code])[1..] == [];
    } else {
      assert (codes + [code])[1..] == codes[1..] + [code];
      RemaindersAppend(cs, codes[1..], code);
    }
  }

  /** The first k containers are within capacity and their lines are tallied. */
  ghost predicate ReadUpTo(cs: seq<SavedContainer>, k: nat, capacity: int, tally: Tally)
    requires k <= |cs|
  {
    FirstOver(cs[..k], capacity).None? && tally == TallyOf(AllLines(cs[..k]))
  }

  lemma {:induction false} ReadNext(cs: seq<SavedContainer>, k: nat, capacity: int, tally0: Tally, tally: Tally)
    requires k < |cs| && ReadUpTo(cs, k, capacity, tally0) && Held(cs[k]) <= capacity
    requires tally == TallyOf(AllLines(cs[..k]) + PlanLines(cs[k].lines, cs[k].locked))
    ensures ReadUpTo(cs, k + 1, capacity, tally)
  {
    PrefixNext(cs, k);
    NoneOverAppend(cs[..k], cs[k], capacity);
    assert (cs[..k] + [cs[k]])[..k] == cs[..k];
  }

  /** Reads every container, stopping at one that exceeds the capacity. */
  method TallyPlan(cs: seq<SavedContainer>, capacity: int) returns (over: Option<int>, tally: Tally)
    ensures over == FirstOver(cs, capacity)
    ensures over.None? ==> tally == TallyOf(AllLines(cs))
  {
    tally := Tally([], map[], map[], map[]);
    var k := 0;
    while k < |cs|
      invariant 0 <= k <= |cs| && ReadUpTo(cs, k, capacity, tally)
    {
      var c := cs[k];
      if SumBy(LineQty(), c.lines) > capacity {
        OverAppend(cs, k, capacity);
        return Some(c.position), tally;
      }
      ghost var tally0 := tally;
      tally := TallyContainer(tally, c, AllLines(cs[..k]));
      ReadNext(cs, k, capacity, tally0, tally);
      k := k + 1;
    }
    assert cs[..k] == cs;
    over := None;
  }

  /** The first i lines of a container are tallied after what was read before. */
  ghost predicate LinesTallied(before: seq<PlanLine>, c: SavedContainer, i: nat, tally: Tally)
    requires i <= |c.lines|
  {
    tally == TallyOf(before + PlanLines(c.lines[..i], c.locked))
  }

  lemma {:induction false} LineTallied(before: seq<PlanLine>, c: SavedContainer, i: nat, tally: Tally)
    requires i < |c.lines| && LinesTallied(before, c, i, tally)
    ensures LinesTallied(before, c, i + 1, AddLine(tally, PlanLine(c.lines[i], c.locked)))
  {
    var read, l := before + PlanLines(c.lines[..i], c.locked), PlanLine(c.lines[i], c.locked);
    assert c.lines[..i + 1][..i] == c.lines[..i];
    assert before + PlanLines(c.lines[..i + 1], c.locked) == read + [l];
    assert (read + [l])[..|read|] == read;
  }

  method TallyContainer(t: Tally, c: SavedContainer, ghost before: seq<PlanLine>) returns (tally: Tally)
    requires t == TallyOf(before)
    ensures tally == TallyOf(before + PlanLines(c.lines, c.locked))
  {
    tally := t;
    var i := 0;
    assert before + PlanLines(c.lines[..0], c.locked) == before;
    while i < |c.lines|
      invariant 0 <= i <= |c.lines| && LinesTallied(before, c, i, tally)
    {
      LineTallied(before, c, i, tally);
      tally := AddLine(tally, PlanLine(c.lines[i], c.locked));
      i := i + 1;
    }
    assert c.lines[..i] == c.lines;
  }

  /** What the tally leaves of an article once the locked containers have theirs. */
  function RowOf(tally: Tally, code: string): Product
    requires code in tally.names
  {
    Product(code, tally.names[code], Max(At(tally.totals, code) - At(tally.locked, code), 0))
  }

  lemma {:induction false} RowIsRemainder(cs: seq<SavedContainer>, tally: Tally, code: string)
    requires tally == TallyOf(AllLines(cs)) && code in tally.codes
    ensures code in tally.names && RowOf(tally, code) == Remainder(cs, code)
  {
    TallyMeaning(AllLines(cs), code);
    PlanSums(cs, code);
  }

  /** The first i articles of the tally are collected. */
  ghost predicate CollectedUpTo(cs: seq<SavedContainer>, codes: seq<string>, i: nat, remainders: seq<Product>)
    requires i <= |codes|
  {
    remainders == Remainders(cs, codes[..i])
  }

  lemma {:induction false} CollectNext(cs: seq<SavedContainer>, codes: seq<string>, i: nat, remainders: seq<Product>)
    requires i < |codes| && CollectedUpTo(cs, codes, i, remainders)
    ensures var row := Remainder(cs, codes[i]);
            CollectedUpTo(cs, codes, i + 1, remainders + if row.qty > 0 then [row] else [])
  {
    PrefixNext(codes, i);
    RemaindersAppend(cs, codes[..i], codes[i]);
  }

  method CollectRemainders(ghost cs: seq<SavedContainer>, tally: Tally) returns (remainders: seq<Product>)
    requires tally == TallyOf(AllLines(cs))
    ensures remainders == Remainders(cs, Codes(AllLines(cs)))
  {
    remainders := [];
    var i := 0;
    while i < |tally.codes|
      invariant 0 <= i <= |tally.codes| && CollectedUpTo(cs, tally.codes, i, remainders)
    {
      RowIsRemainder(cs, tally, tally.codes[i]);
      CollectNext(cs, tally.codes, i, remainders);
      var row := RowOf(tally, tally.codes[i]);
      remainders := remainders + if row.qty > 0 then [row] else [];
      i := i + 1;
    }
    assert tally.codes[..i] == tally.codes;
    TallyMeaning(AllLines(cs), "");
  }

  method RebalanceUnlocked(cs: seq<SavedContainer>, requested: Option<int>, le: (string, string) -> bool)
    returns (result: Result)
    ensures result == Rebalanced(cs, requested, le)
  {
    var capacity := NormalizeContainerCapacity(requested);
    var open := Unlocked(cs);
    var over, tally := TallyPlan(cs, capacity);
    if over.Some? { return Err(OverCapacity(over.value)); }
    var remainders := CollectRemainders(cs, tally);
    result := PlaceRemaining(cs, open, Sort(NameOrder(le), remainders), requested, le);
  }

  method PlaceRemaining(cs: seq<SavedContainer>, open: seq<SavedContainer>, remaining: seq<Product>,
                        requested: Option<int>, le: (string, string) -> bool) returns (result: Result)
    requires open == Unlocked(cs) && remaining == Remaining(cs, le)
    requires FirstOver(cs, NormalizeContainerCapacity(requested)).None?
    ensures result == Rebalanced(cs, requested, le)
  {
    var capacity := NormalizeContainerCapacity(requested);
    var totalRemaining := QtyTotal(remaining);
    if totalRemaining == 0 { return Ok(Emptied(open)); }
    if |open| == 0 { return Err(AllLocked); }
    var unlockedCapacity := |open| * capacity;
    if totalRemaining > unlockedCapacity { return Err(NoRoom(unlockedCapacity, totalRemaining)); }
    var totals, plans := DistributeProducts(remaining, |open|);
    if exists j :: 0 <= j < |open| && totals[j] > capacity { return Err(CannotFit); }
    PlansAreWide(Zeros(|open|), remaining);
    return Ok(Filled(open, plans));
  }
}
