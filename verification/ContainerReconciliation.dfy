/** Comparing a saved plan with the current stock picture, article by article. */
module ContainerReconciliation {
  import opened Standard
  import opened DoubleSums
  import opened Sorting
  import opened ContainerPlanner
  import opened ContainerPreview
  import opened ContainerRebalance
  import opened RebalanceProperties

  datatype Status = InSync | Drift | LockedConflict

  datatype Compared = Compared(code: string, planned: int, locked: int, plannable: int,
                               delta: int, unplanned: int, overplanned: int, lockedConflict: int)

  datatype Reconciliation = Reconciliation(
    status: Status, figures: Totals, currentPlannable: int, excludedFree: int,
    planned: int, unplanned: int, overplanned: int, lockedConflict: int, products: seq<Compared>)

  datatype Hold = Hold(planned: int, locked: int)

  /** The row a map built in list order keeps: the last one of the article. */
  function SourceOf(rows: seq<SourceRow>, code: string): Option<SourceRow> {
    if rows == [] then None
    else
      var n := |rows| - 1;
      if rows[n].code == code then Some(rows[n]) else SourceOf(rows[..n], code)
  }

  function PlannableIn(source: Option<SourceRow>, includeGarbage: bool): int {
    if source.None? || (!includeGarbage && source.value.garbage) then 0 else NonNegative(source.value.freeToPromise)
  }

  function Compare(code: string, tally: Hold, plannable: int): Compared {
    var delta := plannable - tally.planned;
    Compared(code, tally.planned, tally.locked, plannable, delta, Max(delta, 0), Max(-delta, 0),
      Max(tally.locked - plannable, 0))
  }

  function HoldOf(cs: seq<SavedContainer>, code: string): Hold {
    Hold(SumBy(HeldOf(code), cs), SumBy(LockedHeldOf(code), cs))
  }

  function ComparedOf(rows: seq<SourceRow>, cs: seq<SavedContainer>, includeGarbage: bool, code: string): Compared {
    Compare(code, HoldOf(cs, code), PlannableIn(SourceOf(rows, code), includeGarbage))
  }

  predicate Shown(p: Compared) { p.planned != 0 || p.plannable != 0 || p.lockedConflict != 0 }

  function PlannedOf(): Compared -> int { (p: Compared) => p.planned }
  function PlannableOf(): Compared -> int { (p: Compared) => p.plannable }
  function UnplannedOf(): Compared -> int { (p: Compared) => p.unplanned }
  function OverplannedOf(): Compared -> int { (p: Compared) => p.overplanned }
  function LockedConflictOf(): Compared -> int { (p: Compared) => p.lockedConflict }

  /** The comparisons listed: each coded article with anything to show, once. */
  ghost predicate Complete(products: seq<Compared>, rows: seq<SourceRow>, cs: seq<SavedContainer>,
                           includeGarbage: bool) {
    && (forall i, j :: 0 <= i < j < |products| ==> products[i].code != products[j].code)
    && forall p :: p in products <==> p.code != "" && p == ComparedOf(rows, cs, includeGarbage, p.code) && Shown(p)
  }

  // ---- What a comparison says ------------------------------------------------------------------

  /** Row i stands for the article: it is the last one of it. */
  ghost predicate StandsForArticle(rows: seq<SourceRow>, i: nat, code: string)
    requires i < |rows|
  {
    rows[i].code == code && forall j :: i < j < |rows| ==> rows[j].code != code
  }

  /** What the row that stands for the article has free, or nothing if it is excluded or there is none. */
  ghost predicate IsPlannable(qty: int, rows: seq<SourceRow>, includeGarbage: bool, code: string) {
    && (forall i :: 0 <= i < |rows| && StandsForArticle(rows, i, code)
                    ==> qty == if rows[i].garbage && !includeGarbage then 0 else Max(0, rows[i].freeToPromise))
    && ((forall i :: 0 <= i < |rows| ==> rows[i].code != code) ==> qty == 0)
  }

  ghost predicate IsComparison(p: Compared, rows: seq<SourceRow>, cs: seq<SavedContainer>, includeGarbage: bool) {
    && p.planned == SumBy(HeldOf(p.code), cs) && p.locked == SumBy(LockedHeldOf(p.code), cs)
    && IsPlannable(p.plannable, rows, includeGarbage, p.code)
    && p.planned + p.delta == p.plannable
    && p.unplanned >= 0 && p.overplanned >= 0 && p.unplanned - p.overplanned == p.delta
    && (p.unplanned == 0 || p.overplanned == 0)
    && (p.locked > p.plannable ==> p.lockedConflict == p.locked - p.plannable)
    && (p.locked <= p.plannable ==> p.lockedConflict == 0)
  }

  ghost predicate ListedIn(products: seq<Compared>, code: string) { exists p :: p in products && p.code == code }

  /** An article is listed exactly when it has a code and is planned or plannable. */
  ghost predicate AllListed(products: seq<Compared>, rows: seq<SourceRow>, cs: seq<SavedContainer>,
                            includeGarbage: bool) {
    forall code :: ListedIn(products, code) <==>
      code != "" && !(SumBy(HeldOf(code), cs) == 0 && IsPlannable(0, rows, includeGarbage, code))
  }

  lemma {:induction false} SourceStands(rows: seq<SourceRow>, code: string)
    ensures SourceOf(rows, code).None? ==> forall i :: 0 <= i < |rows| ==> rows[i].code != code
    ensures SourceOf(rows, code).Some? ==>
              exists i :: 0 <= i < |rows| && StandsForArticle(rows, i, code) && rows[i] == SourceOf(rows, code).value
  {
    if rows != [] {
      var n := |rows| - 1;
      if rows[n].code == code {
        assert StandsForArticle(rows, n, code);
      } else {
        SourceStands(rows[..n], code);
        if SourceOf(rows[..n], code).Some? {
          var i :| 0 <= i < n && StandsForArticle(rows[..n], i, code) && rows[..n][i] == SourceOf(rows, code).value;
          assert StandsForArticle(rows, i, code);
        }
      }
    }
  }

  lemma {:induction false} PlannableIs(rows: seq<SourceRow>, includeGarbage: bool, code: string, qty: int)
    ensures IsPlannable(qty, rows, includeGarbage, code) <==> qty == PlannableIn(SourceOf(rows, code), includeGarbage)
  {
    SourceStands(rows, code);
    if SourceOf(rows, code).Some? {
      var i :| 0 <= i < |rows| && StandsForArticle(rows, i, code) && rows[i] == SourceOf(rows, code).value;
      OneStands(rows, code, i);
    }
  }

  lemma {:induction false} OneStands(rows: seq<SourceRow>, code: string, i: nat)
    requires i < |rows| && StandsForArticle(rows, i, code)
    ensures forall j :: 0 <= j < |rows| && StandsForArticle(rows, j, code) ==> j == i
  {
  }

  lemma {:induction false} ComparisonIs(rows: seq<SourceRow>, cs: seq<SavedContainer>, includeGarbage: bool,
                                        code: string)
    ensures var p := ComparedOf(rows, cs, includeGarbage, code);
            && p.code == code && IsComparison(p, rows, cs, includeGarbage)
            && (Shown(p) <==> !(SumBy(HeldOf(code), cs) == 0 && IsPlannable(0, rows, includeGarbage, code)))
  {
    PlannableIs(rows, includeGarbage, code, PlannableIn(SourceOf(rows, code), includeGarbage));
    PlannableIs(rows, includeGarbage, code, 0);
    LockedWithin(cs, code);
  }

  lemma {:induction false} ListIs(products: seq<Compared>, rows: seq<SourceRow>, cs: seq<SavedContainer>,
                                  includeGarbage: bool)
    requires Complete(products, rows, cs, includeGarbage)
    ensures AllListed(products, rows, cs, includeGarbage)
    ensures forall p :: p in products ==> IsComparison(p, rows, cs, includeGarbage)
  {
    forall code
      ensures ListedIn(products, code) <==>
              code != "" && !(SumBy(HeldOf(code), cs) == 0 && IsPlannable(0, rows, includeGarbage, code))
    {
      ComparisonIs(rows, cs, includeGarbage, code);
      var p := ComparedOf(rows, cs, includeGarbage, code);
      assert p in products <==> p.code != "" && Shown(p);
    }
    forall p | p in products
      ensures IsComparison(p, rows, cs, includeGarbage)
    {
      ComparisonIs(rows, cs, includeGarbage, p.code);
    }
  }

  // ---- The maps ----------------------------------------------------------------------------

  ghost predicate Sources(m: map<string, SourceRow>, rows: seq<SourceRow>) {
    forall code :: if code in m then code != "" && SourceOf(rows, code) == Some(m[code])
                   else code == "" || SourceOf(rows, code).None?
  }

  method IndexSources(rows: seq<SourceRow>) returns (m: map<string, SourceRow>)
    ensures Sources(m, rows)
  {
    m := map[];
    var i := 0;
    while i < |rows|
      invariant 0 <= i <= |rows| && Sources(m, rows[..i])
    {
      assert rows[..i + 1][..i] == rows[..i];
      if rows[i].code != "" { m := m[rows[i].code := rows[i]]; }
      i := i + 1;
    }
    assert rows[..i] == rows;
  }

  function HoldIn(m: map<string, Hold>, code: string): Hold { if code in m then m[code] else Hold(0, 0) }

  /** The tallies of the plan's containers so far, and of the lines of the next. */
  ghost predicate Holds(m: map<string, Hold>, cs: seq<SavedContainer>, lines: seq<Line>, locked: bool) {
    && "" !in m
    && forall code :: code != "" ==>
         HoldIn(m, code) == Hold(HoldOf(cs, code).planned + SumBy(LineQtyOf(code), lines),
                                   HoldOf(cs, code).locked + if locked then SumBy(LineQtyOf(code), lines) else 0)
  }

  method TallyLine(m0: map<string, Hold>, line: Line, locked: bool, ghost cs: seq<SavedContainer>,
                   ghost lines: seq<Line>)
    returns (m: map<string, Hold>)
    requires Holds(m0, cs, lines, locked)
    ensures Holds(m, cs, lines + [line], locked)
  {
    m := m0;
    var qty := NonNegative(line.qty);
    NextLine(lines, line);
    if qty > 0 && line.code != "" {
      var existing := HoldIn(m, line.code);
      m := m[line.code := Hold(existing.planned + qty, existing.locked + if locked then qty else 0)];
    }
  }

  method TallyLines(m0: map<string, Hold>, c: SavedContainer, ghost cs: seq<SavedContainer>) returns (m: map<string,
                    Hold>)
    requires Holds(m0, cs, [], c.locked)
    ensures Holds(m, cs, c.lines, c.locked)
  {
    m := m0;
    var i := 0;
    while i < |c.lines|
      invariant 0 <= i <= |c.lines| && Holds(m, cs, c.lines[..i], c.locked)
    {
      PrefixNext(c.lines, i);
      m := TallyLine(m, c.lines[i], c.locked, cs, c.lines[..i]);
      i := i + 1;
    }
    assert c.lines[..i] == c.lines;
  }

  lemma {:induction false} NextLine(lines: seq<Line>, line: Line)
    ensures forall code :: SumBy(LineQtyOf(code), lines + [line])
                           == SumBy(LineQtyOf(code), lines) + if line.code == code then NonNegative(line.qty) else 0
  {
    forall code
      ensures SumBy(LineQtyOf(code), lines + [line])
              == SumBy(LineQtyOf(code), lines) + if line.code == code then NonNegative(line.qty) else 0
    {
      SumByAppend(LineQtyOf(code), lines, [line]);
      SumByOne(LineQtyOf(code), line);
    }
  }

  method TallyPlan(cs: seq<SavedContainer>) returns (m: map<string, Hold>)
    ensures "" !in m && forall code :: code != "" ==> HoldIn(m, code) == HoldOf(cs, code)
  {
    m := map[];
    var i := 0;
    while i < |cs|
      invariant 0 <= i <= |cs|
      invariant "" !in m && forall code :: code != "" ==> HoldIn(m, code) == HoldOf(cs[..i], code)
    {
      PrefixNext(cs, i);
      NextContainer(cs[..i], cs[i]);
      m := TallyLines(m, cs[i], cs[..i]);
      i := i + 1;
    }
    assert cs[..i] == cs;
  }

  lemma {:induction false} NextContainer(cs: seq<SavedContainer>, c: SavedContainer)
    ensures forall code :: HoldOf(cs + [c], code)
                           == Hold(HoldOf(cs, code).planned + SumBy(LineQtyOf(code), c.lines),
                                    HoldOf(cs, code).locked + if c.locked then SumBy(LineQtyOf(code), c.lines) else 0)
  {
    forall code
      ensures HoldOf(cs + [c], code)
              == Hold(HoldOf(cs, code).planned + SumBy(LineQtyOf(code), c.lines),
                       HoldOf(cs, code).locked + if c.locked then SumBy(LineQtyOf(code), c.lines) else 0)
    {
      SumByAppend(HeldOf(code), cs, [c]);
      SumByOne(HeldOf(code), c);
      SumByAppend(LockedHeldOf(code), cs, [c]);
      SumByOne(LockedHeldOf(code), c);
    }
  }

  // ---- The reconciliation ----------------------------------------------------------------------

  /** The articles are taken in any order; the list is sorted for display afterwards. */
  method CompareAll(sources: map<string, SourceRow>, tallies: map<string, Hold>, includeGarbage: bool,
                    ghost rows: seq<SourceRow>, ghost cs: seq<SavedContainer>)
    returns (products: seq<Compared>)
    requires Sources(sources, rows)
    requires "" !in tallies && forall code :: code != "" ==> HoldIn(tallies, code) == HoldOf(cs, code)
    ensures Complete(products, rows, cs, includeGarbage)
  {
    products := [];
    var all := sources.Keys + tallies.Keys;
    var todo := all;
    while todo != {}
      invariant todo <= all
      invariant forall i, j :: 0 <= i < j < |products| ==> products[i].code != products[j].code
      invariant forall p :: p in products <==>
                  p.code in all - todo && p == ComparedOf(rows, cs, includeGarbage, p.code) && Shown(p)
      decreases todo
    {
      var code :| code in todo;
      var source := if code in sources then Some(sources[code]) else None;
      var p := Compare(code, HoldIn(tallies, code), PlannableIn(source, includeGarbage));
      assert p == ComparedOf(rows, cs, includeGarbage, code);
      assert forall i :: 0 <= i < |products| ==> products[i] in products;
      if Shown(p) { products := products + [p]; }
      todo := todo - {code};
    }
    OthersHidden(sources, tallies, includeGarbage, rows, cs);
  }

  lemma {:induction false} OthersHidden(sources: map<string, SourceRow>, tallies: map<string, Hold>,
                                        includeGarbage: bool,
                                        rows: seq<SourceRow>, cs: seq<SavedContainer>)
    requires Sources(sources, rows)
    requires "" !in tallies && forall code :: code != "" ==> HoldIn(tallies, code) == HoldOf(cs, code)
    ensures forall code :: code != "" && Shown(ComparedOf(rows, cs, includeGarbage, code)) ==>
            code in sources || code in tallies
  {
    forall code | code != "" && code !in sources && code !in tallies
      ensures !Shown(ComparedOf(rows, cs, includeGarbage, code))
    {
      assert HoldOf(cs, code) == Hold(0, 0) && SourceOf(rows, code).None?;
    }
  }

  method BuildReconciliation(rows: seq<SourceRow>, cs: seq<SavedContainer>,
                             includeGarbage: bool) returns (r: Reconciliation)
    ensures Complete(r.products, rows, cs, includeGarbage)
    ensures forall p :: p in r.products ==> IsComparison(p, rows, cs, includeGarbage)
    ensures AllListed(r.products, rows, cs, includeGarbage)
    ensures r.figures == TotalsOver(rows)
    ensures r.currentPlannable == SumBy(FreeBales(true, includeGarbage), rows)
    ensures r.excludedFree == SumBy(FreeBales(false, includeGarbage), rows)
    ensures r.planned == SumBy(PlannedOf(), r.products) && r.unplanned == SumBy(UnplannedOf(), r.products)
    ensures r.overplanned == SumBy(OverplannedOf(), r.products)
            && r.lockedConflict == SumBy(LockedConflictOf(), r.products)
    ensures r.status.LockedConflict? <==> AnyConflict(rows, cs, includeGarbage)
    ensures r.status.InSync? <==> Agrees(rows, cs, includeGarbage)
  {
    var sources := IndexSources(rows);
    var tallies := TallyPlan(cs);
    var products := CompareAll(sources, tallies, includeGarbage, rows, cs);
    var unplanned, overplanned := SumBy(UnplannedOf(), products), SumBy(OverplannedOf(), products);
    var lockedConflict := SumBy(LockedConflictOf(), products);
    StatusMeans(products, rows, cs, includeGarbage);
    ListIs(products, rows, cs, includeGarbage);
    var status := if lockedConflict > 0 then LockedConflict
                  else if unplanned > 0 || overplanned > 0 then Drift
                  else InSync;
    r := Reconciliation(status, TotalsOver(rows), SumBy(FreeBales(true, includeGarbage), rows),
                        SumBy(FreeBales(false, includeGarbage), rows), SumBy(PlannedOf(), products),
                        unplanned, overplanned, lockedConflict, products);
  }

  /** The plan holds exactly the current plannable stock of every article. */
  ghost predicate Agrees(rows: seq<SourceRow>, cs: seq<SavedContainer>, includeGarbage: bool) {
    forall code :: code != "" ==> HoldOf(cs, code).planned == PlannableIn(SourceOf(rows, code), includeGarbage)
  }

  /** Locked containers alone hold more of some article than there is. */
  ghost predicate AnyConflict(rows: seq<SourceRow>, cs: seq<SavedContainer>, includeGarbage: bool) {
    exists code :: code != "" && HoldOf(cs, code).locked > PlannableIn(SourceOf(rows, code), includeGarbage)
  }

  lemma {:induction false} Listed(products: seq<Compared>, rows: seq<SourceRow>, cs: seq<SavedContainer>,
                                  includeGarbage: bool, code: string)
    requires Complete(products, rows, cs, includeGarbage) && code != ""
    ensures var held, plannable := HoldOf(cs, code), PlannableIn(SourceOf(rows, code), includeGarbage);
            held.locked <= held.planned
            && (held.planned != plannable ==> ComparedOf(rows, cs, includeGarbage, code) in products)
  {
    LockedWithin(cs, code);
  }

  lemma {:induction false} StatusMeans(products: seq<Compared>, rows: seq<SourceRow>, cs: seq<SavedContainer>,
                                       includeGarbage: bool)
    requires Complete(products, rows, cs, includeGarbage)
    ensures SumBy(LockedConflictOf(), products) > 0 <==> AnyConflict(rows, cs, includeGarbage)
    ensures SumBy(UnplannedOf(), products) <= 0 && SumBy(OverplannedOf(), products) <= 0
            <==> Agrees(rows, cs, includeGarbage)
    ensures Agrees(rows, cs, includeGarbage) ==> !AnyConflict(rows, cs, includeGarbage)
  {
    ConflictMeans(products, rows, cs, includeGarbage);
    AgreementMeans(products, rows, cs, includeGarbage);
    forall code | code != ""
      ensures HoldOf(cs, code).locked <= HoldOf(cs, code).planned
    {
      LockedWithin(cs, code);
    }
  }

  lemma {:induction false} ConflictMeans(products: seq<Compared>, rows: seq<SourceRow>, cs: seq<SavedContainer>,
                                         includeGarbage: bool)
    requires Complete(products, rows, cs, includeGarbage)
    ensures SumBy(LockedConflictOf(), products) > 0 <==> AnyConflict(rows, cs, includeGarbage)
  {
    SumByNotNegative(LockedConflictOf(), products);
    if AnyConflict(rows, cs, includeGarbage) {
      var code :| code != "" && HoldOf(cs, code).locked > PlannableIn(SourceOf(rows, code), includeGarbage);
      Listed(products, rows, cs, includeGarbage, code);
      assert LockedConflictOf()(ComparedOf(rows, cs, includeGarbage, code)) > 0;
    }
  }

  lemma {:induction false} AgreementMeans(products: seq<Compared>, rows: seq<SourceRow>, cs: seq<SavedContainer>,
                                          includeGarbage: bool)
    requires Complete(products, rows, cs, includeGarbage)
    ensures SumBy(UnplannedOf(), products) <= 0 && SumBy(OverplannedOf(), products) <= 0
            <==> Agrees(rows, cs, includeGarbage)
  {
    SumByNotNegative(UnplannedOf(), products);
    SumByNotNegative(OverplannedOf(), products);
    if !Agrees(rows, cs, includeGarbage) {
      var code :| code != "" && HoldOf(cs, code).planned != PlannableIn(SourceOf(rows, code), includeGarbage);
      var p := ComparedOf(rows, cs, includeGarbage, code);
      Listed(products, rows, cs, includeGarbage, code);
      assert UnplannedOf()(p) > 0 || OverplannedOf()(p) > 0;
    }
  }

  // ---- Planned and plannable ---------------------------------------------------------------------

  function Free(row: SourceRow, includeGarbage: bool): int {
    if includeGarbage || !row.garbage then NonNegative(row.freeToPromise) else 0
  }

  /** The plannable bales of the rows of one article. */
  function FreeOf(code: string, includeGarbage: bool): SourceRow -> int {
    (row: SourceRow) => if row.code == code then Free(row, includeGarbage) else 0
  }

  /** An article listed again later counts for nothing in its earlier rows. */
  ghost predicate OnlyLastCounts(rows: seq<SourceRow>, includeGarbage: bool, code: string) {
    forall i, j :: 0 <= i < j < |rows| && rows[i].code == code && rows[j].code == code ==>
      Free(rows[i], includeGarbage) == 0
  }

  ghost predicate NoneFree(rows: seq<SourceRow>, includeGarbage: bool, code: string) {
    forall i :: 0 <= i < |rows| && rows[i].code == code ==> Free(rows[i], includeGarbage) == 0
  }

  lemma {:induction false} NothingFree(rows: seq<SourceRow>, includeGarbage: bool, code: string)
    ensures SumBy(FreeOf(code, includeGarbage), rows) == 0 <==> NoneFree(rows, includeGarbage, code)
  {
    SumByNotNegative(FreeOf(code, includeGarbage), rows);
    if forall row :: row in rows ==> FreeOf(code, includeGarbage)(row) == 0 {
      assert forall i :: 0 <= i < |rows| ==> rows[i] in rows;
    }
  }

  lemma {:induction false} LastCountsNext(rows: seq<SourceRow>, includeGarbage: bool, code: string, row: SourceRow)
    ensures OnlyLastCounts(rows + [row], includeGarbage, code)
            <==> if row.code == code then NoneFree(rows, includeGarbage, code)
              else OnlyLastCounts(rows, includeGarbage, code)
  {
    var more := rows + [row];
    assert more[|rows|] == row && forall i :: 0 <= i < |rows| ==> more[i] == rows[i];
  }

  lemma {:induction false} SourceAgainstRows(rows: seq<SourceRow>, includeGarbage: bool, code: string)
    ensures SumBy(FreeOf(code, includeGarbage), rows) == PlannableIn(SourceOf(rows, code), includeGarbage)
            <==> OnlyLastCounts(rows, includeGarbage, code)
  {
    if rows != [] {
      var n := |rows| - 1;
      SourceAgainstRows(rows[..n], includeGarbage, code);
      assert rows == rows[..n] + [rows[n]];
      SumByAppend(FreeOf(code, includeGarbage), rows[..n], [rows[n]]);
      SumByOne(FreeOf(code, includeGarbage), rows[n]);
      NothingFree(rows[..n], includeGarbage, code);
      LastCountsNext(rows[..n], includeGarbage, code, rows[n]);
    }
  }

  /** The saved containers of a fresh preview, locked or not. */
  ghost predicate SavedFrom(cs: seq<SavedContainer>, plans: seq<ProductPlan>) {
    GoodPlans(plans, |cs|) && forall j :: 0 <= j < |cs| ==> cs[j].lines == LinesIn(plans, j)
  }

  lemma {:induction false} FreshHolds(rows: seq<SourceRow>, includeGarbage: bool, le: (string, string) -> bool,
                                      plans: seq<ProductPlan>, cs: seq<SavedContainer>, code: string)
    requires Map(PlannedProduct(), plans) == Sort(NameOrder(le), PlannableRows(rows, includeGarbage))
    requires SavedFrom(cs, plans)
    ensures SumBy(HeldOf(code), cs) == SumBy(FreeOf(code, includeGarbage), rows)
  {
    var column := seq(|cs|, j requires 0 <= j < |cs| => ColumnQty(plans, code, j));
    forall j | 0 <= j < |cs|
      ensures column[j] == HeldOf(code)(cs[j])
    {
      LinesInQty(plans, |cs|, code, j);
    }
    SumByIndexed(HeldOf(code), cs, column);
    ColumnsSum(plans, |cs|, code);
    forall p | p in plans
      ensures PlanQty(code)(p) == ProductQtyOf(code)(PlannedProduct()(p))
    {
    }
    SumByMapped(PlannedProduct(), ProductQtyOf(code), PlanQty(code), plans);
    SortPermutes(NameOrder(le), PlannableRows(rows, includeGarbage));
    SumByPermutation(ProductQtyOf(code), Map(PlannedProduct(), plans), PlannableRows(rows, includeGarbage));
    RowsHold(rows, includeGarbage, code);
  }

  lemma {:induction false} RowsHold(rows: seq<SourceRow>, includeGarbage: bool, code: string)
    ensures SumBy(ProductQtyOf(code), PlannableRows(rows, includeGarbage)) == SumBy(FreeOf(code, includeGarbage), rows)
  {
    if rows != [] {
      var rest := PlannableRows(rows[1..], includeGarbage);
      RowsHold(rows[1..], includeGarbage, code);
      if Planned(rows[0], includeGarbage) {
        assert ([AsProduct(rows[0])] + rest)[1..] == rest;
      } else {
        assert PlannableRows(rows, includeGarbage) == rest;
      }
    }
  }

  /** A plan saved from a fresh preview agrees with the very stock it was made from
      exactly when no article has plannable bales in a row that a later one hides. */
  lemma {:induction false} FreshPlanAgreesIff(rows: seq<SourceRow>, includeGarbage: bool, le: (string, string) -> bool,
                                              plans: seq<ProductPlan>, cs: seq<SavedContainer>)
    requires Map(PlannedProduct(), plans) == Sort(NameOrder(le), PlannableRows(rows, includeGarbage))
    requires SavedFrom(cs, plans)
    ensures Agrees(rows, cs, includeGarbage)
            <==> forall code :: code != "" ==> OnlyLastCounts(rows, includeGarbage, code)
  {
    forall code | code != ""
      ensures HoldOf(cs, code).planned == PlannableIn(SourceOf(rows, code), includeGarbage)
              <==> OnlyLastCounts(rows, includeGarbage, code)
    {
      FreshHolds(rows, includeGarbage, le, plans, cs, code);
      SourceAgainstRows(rows, includeGarbage, code);
    }
  }

  /** Rows loaded from the database list an article once, so that a fresh plan agrees. */
  lemma {:induction false} DistinctArticlesAgree(rows: seq<SourceRow>, includeGarbage: bool,
                                                 le: (string, string) -> bool,
                                                 plans: seq<ProductPlan>, cs: seq<SavedContainer>)
    requires DistinctArticles(rows) && SavedFrom(cs, plans)
    requires Map(PlannedProduct(), plans) == Sort(NameOrder(le), PlannableRows(rows, includeGarbage))
    ensures Agrees(rows, cs, includeGarbage)
  {
    FreshPlanAgreesIff(rows, includeGarbage, le, plans, cs);
    assert forall code :: OnlyLastCounts(rows, includeGarbage, code);
  }

  ghost predicate DistinctArticles(rows: seq<SourceRow>) {
    forall i, j :: 0 <= i < j < |rows| ==> rows[i].code != rows[j].code
  }

  function OfRow(includeGarbage: bool): (Compared, SourceRow) -> int {
    (p: Compared, row: SourceRow) => if row.code == p.code then Free(row, includeGarbage) else 0
  }

  function IsArticle(code: string): Compared -> int { (p: Compared) => if p.code == code then 1 else 0 }

  lemma {:induction false} ListedAtMostOnce(products: seq<Compared>, code: string)
    requires forall i, j :: 0 <= i < j < |products| ==> products[i].code != products[j].code
    ensures SumBy(IsArticle(code), products) <= 1
    ensures SumBy(IsArticle(code), products) == 1 <==> exists p :: p in products && p.code == code
  {
    if products != [] {
      assert products == [products[0]] + products[1..];
      ListedAtMostOnce(products[1..], code);
      SumByNotNegative(IsArticle(code), products[1..]);
      if products[0].code == code {
        assert forall p :: p in products[1..] ==> p.code != code;
        assert products[0] in products;
      }
    }
  }

  lemma {:induction false} RowCounted(rows: seq<SourceRow>, cs: seq<SavedContainer>, includeGarbage: bool,
                                      products: seq<Compared>, row: SourceRow)
    requires Complete(products, rows, cs, includeGarbage) && DistinctArticles(rows) && row in rows && row.code != ""
    ensures SumBy(Column(OfRow(includeGarbage), row), products) == Free(row, includeGarbage)
  {
    if Free(row, includeGarbage) == 0 {
      SumByZero(Column(OfRow(includeGarbage), row), products);
    } else {
      SourceOfRow(rows, row);
      var p := ComparedOf(rows, cs, includeGarbage, row.code);
      assert p in products;
      ListedAtMostOnce(products, row.code);
      OneTerm(Column(OfRow(includeGarbage), row), IsArticle(row.code), products, p);
    }
  }

  lemma {:induction false} SourceOfRow(rows: seq<SourceRow>, row: SourceRow)
    requires DistinctArticles(rows) && row in rows
    ensures SourceOf(rows, row.code) == Some(row)
  {
    var n := |rows| - 1;
    assert rows == rows[..n] + [rows[n]];
    if row in rows[..n] {
      var i :| 0 <= i < n && rows[i] == row;
      assert rows[n].code != row.code;
      SourceOfRow(rows[..n], row);
    }
  }

  /** The plan, plus what it misses, less what it has too much, is the plannable stock. */
  lemma {:induction false} ReconciliationBalances(rows: seq<SourceRow>, cs: seq<SavedContainer>, includeGarbage: bool,
                                                  products: seq<Compared>)
    requires Complete(products, rows, cs, includeGarbage) && DistinctArticles(rows)
    requires forall row :: row in rows ==> row.code != ""
    ensures SumBy(PlannedOf(), products) + SumBy(UnplannedOf(), products) - SumBy(OverplannedOf(), products)
            == SumBy(FreeBales(true, includeGarbage), rows)
  {
    forall p | p in products
      ensures p.planned + p.unplanned - p.overplanned == p.plannable
      ensures PlannableOf()(p) == RowSums(OfRow(includeGarbage), rows)(p)
    {
      assert OnlyLastCounts(rows, includeGarbage, p.code);
      SourceAgainstRows(rows, includeGarbage, p.code);
      SumBySame(Row(OfRow(includeGarbage), p), FreeOf(p.code, includeGarbage), rows);
    }
    var both := (p: Compared) => p.planned + p.unplanned;
    SumByPlus(both, PlannedOf(), UnplannedOf(), products);
    SumByPlus(both, PlannableOf(), OverplannedOf(), products);
    SumBySame(PlannableOf(), RowSums(OfRow(includeGarbage), rows), products);
    SwapSums(OfRow(includeGarbage), products, rows);
    forall row | row in rows
      ensures ColumnSums(OfRow(includeGarbage), products)(row) == Free(row, includeGarbage)
    {
      RowCounted(rows, cs, includeGarbage, products, row);
    }
    forall row
      ensures FreeBales(true, includeGarbage)(row) == Free(row, includeGarbage)
    {
    }
    SumBySame(ColumnSums(OfRow(includeGarbage), products), FreeBales(true, includeGarbage), rows);
  }

  /** Rebalancing the unlocked containers changes no comparison, and so no status. */
  lemma {:induction false} RebalanceKeepsComparison(rows: seq<SourceRow>, cs: seq<SavedContainer>, includeGarbage: bool,
                                                    requested: Option<int>, le: (string, string) -> bool, code: string)
    requires DistinctIds(cs) && Rebalanced(cs, requested, le).Ok?
    ensures var after := Applied(cs, Rebalanced(cs, requested, le).containers);
            ComparedOf(rows, after, includeGarbage, code) == ComparedOf(rows, cs, includeGarbage, code)
  {
    RebalanceConserves(cs, requested, le, code);
  }
}
