/** Different routes through the costing engine that must meet: short-then-settled
    against received-then-issued, issue against re-receipt, one split of an issue
    against another. */
module InventoryPaths {
  import opened Rounding
  import opened Standard
  import opened InventoryCosting
  import opened InventoryLedger
  import opened InventoryRuns

  ghost predicate WithinOneCent(a: int, b: int) { -1 <= a - b <= 1 }

  // ---- Provisional costing converges ----------------------------------------------

  /** What is left of a value after its settled share, against re-valuing the
      units left at an average that reproduces the value. */
  lemma {:induction false} ResidualAgainstShare(qty: int, value: int, part: int, average: real)
    requires 0 < part < qty && Worth(qty, average) == value
    ensures WithinOneCent(Worth(qty - part, average), value - Share(value, part, qty))
  {
    var exact := PerUnit(value, qty);
    var error := average - exact;
    AverageTimes(value, qty);
    TimesShift(qty, exact, error);
    TimesShift(qty - part, exact, error);
    TimesSum(qty - part, part, exact);
    ErrorShrinks(part, qty - part, error);
  }

  /** A per-unit error weighs less over part of the quantity than over all of it. */
  lemma {:induction false} ErrorShrinks(part: nat, rest: nat, error: real)
    requires part > 0 && -0.5 <= Times(rest + part, error) <= 0.5
    ensures -0.5 < Times(rest, error) < 0.5
  {
    TimesSum(rest, part, error);
    TimesSum(part - 1, 1, error);
    SameSign(part - 1, error);
    SameSign(rest, error);
    assert Times(1, error) == Times(0, error) + error;
  }

  lemma {:induction false} SameSign(n: nat, error: real)
    ensures error >= 0.0 ==> Times(n, error) >= 0.0
    ensures error <= 0.0 ==> Times(n, error) <= 0.0
    ensures error == 0.0 ==> Times(n, error) == 0.0
  {
    TimesIsProduct(n, 0.0);
    if error >= 0.0 { TimesRateOrder(n, 0.0, error); }
    if error <= 0.0 { TimesRateOrder(n, error, 0.0); }
  }

  /** A receipt whose worth does not depend on the row it lands on. */
  predicate PricedReceipt(m: Movement) {
    m.delta > 0 && (m.rate.Some? || m.worth.Some?)
  }

  /** Issuing short and receiving later ends where receiving first and issuing
      later ends: same quantity, value and cost within one cent of each other,
      whatever rate the shortage was provisionally costed at. */
  lemma {:induction false} ProvisionalCostingConverges(s: State, issue: Movement, receipt: Movement, rowCompany: nat,
                                                       b: Books)
    requires QtyOf(s) == 0 && ValueOf(s) == 0
    requires issue.delta < 0 && PricedReceipt(receipt) && receipt.delta >= -issue.delta
    ensures var shortFirst := [Move(issue), Move(receipt)];
            var receiptFirst := [Move(receipt), Move(issue)];
            var x, y := Run(s, shortFirst, rowCompany), Run(s, receiptFirst, rowCompany);
            && QtyOf(x) == QtyOf(y) == receipt.delta + issue.delta
            && WithinOneCent(ValueOf(x), ValueOf(y))
            && WithinOneCent(PostedRun(b, s, shortFirst, rowCompany).cogs,
                             PostedRun(b, s, receiptFirst, rowCompany).cogs)
  {
    var shortFirst := [Move(issue), Move(receipt)];
    var receiptFirst := [Move(receipt), Move(issue)];
    var x1, y1 := Adjusted(s, issue), Adjusted(s, receipt);
    var x, y := Adjusted(x1, receipt), Adjusted(y1, issue);
    TwoSteps(s, issue, receipt, rowCompany);
    TwoSteps(s, receipt, issue, rowCompany);
    var short, qty := -issue.delta, receipt.delta;
    var worth := ReceiptWorth(0, 0, RateBefore(s, receipt), receipt);
    assert QtyOf(x1) == -short && ValueOf(y1) == worth && QtyOf(y1) == qty;
    if short < qty {
      var average := AverageAnchor(qty, worth, RateBefore(y1, issue));
      AnchorReproduces(qty, worth, RateBefore(y1, issue));
      ResidualAgainstShare(qty, worth, short, average);
      assert ValueOf(y) == Worth(qty - short, average);
      assert ValueOf(x) == worth - Share(worth, short, qty);
    }
    StockPlusCostIsReceipts(b, s, shortFirst, rowCompany);
    StockPlusCostIsReceipts(b, s, receiptFirst, rowCompany);
    TwoPostings(b, s, issue, receipt, rowCompany);
    TwoPostings(b, s, receipt, issue, rowCompany);
  }

  lemma {:induction false} TwoSteps(s: State, first: Movement, second: Movement, rowCompany: nat)
    ensures Run(s, [Move(first), Move(second)], rowCompany) == Adjusted(Adjusted(s, first), second)
  {
    assert [Move(first), Move(second)][1..] == [Move(second)];
    assert Run(Adjusted(s, first), [Move(second)], rowCompany) == Adjusted(Adjusted(s, first), second);
  }

  lemma {:induction false} TwoPostings(b: Books, s: State, first: Movement, second: Movement, rowCompany: nat)
    ensures PostedRun(b, s, [Move(first), Move(second)], rowCompany).received - b.received
            == AdjustResult(s, first).receiptValue + AdjustResult(Adjusted(s, first), second).receiptValue
  {
    var b1 := Posted(b, s, Move(first));
    assert [Move(first), Move(second)][1..] == [Move(second)];
    assert PostedRun(b1, Adjusted(s, first), [Move(second)], rowCompany)
      == Posted(b1, Adjusted(s, first), Move(second));
  }

  // ---- Issue and take back ----------------------------------------------------------

  /** The share of what came back that settles the shortage is the provisional
      value, to within a cent. */
  lemma {:induction false} SettledShareIsProvisional(qty: int, value: int, issued: int, average: real)
    requires 0 < qty < issued && Worth(qty, average) == value
    ensures var provisional := Worth(issued - qty, average);
            WithinOneCent(Share(value + provisional, issued - qty, issued), provisional)
  {
    var provisional := Worth(issued - qty, average);
    var short := issued - qty;
    var exact := PerUnit(value + provisional, issued);
    var error := exact - average;
    AverageTimes(value + provisional, issued);
    TimesShift(issued, average, error);
    TimesShift(short, average, error);
    TimesSum(qty, short, average);
    TimesSum(qty, short, error);
    SameSign(qty, error);
    SameSign(short, error);
  }

  /** Issuing and then receiving the same quantity at exactly the value relieved
      restores the row: to the cent when stock covered the issue, to within one
      cent when it went short. */
  lemma {:induction false} IssueThenReceiveBack(s: State, issue: Movement, company: nat)
    requires QtyOf(s) > 0 && ValueOf(s) > 0 && issue.delta < 0
    ensures var relieved := -AdjustResult(s, issue).valueDelta;
            var back := Movement(-issue.delta, company, None, Some(relieved as real));
            var end := Adjusted(Adjusted(s, issue), back);
            && QtyOf(end) == QtyOf(s)
            && (-issue.delta <= QtyOf(s) ==> ValueOf(end) == ValueOf(s))
            && WithinOneCent(ValueOf(end), ValueOf(s))
  {
    var (qty, value, rate) := (QtyOf(s), ValueOf(s), RateBefore(s, issue));
    var relieved := -AdjustResult(s, issue).valueDelta;
    IssueKeepsSign(qty, value, rate, -issue.delta);
    RoundWhole(relieved);
    AnchorReproduces(qty, value, rate);
    if -issue.delta > qty {
      var average := AverageAnchor(qty, value, rate);
      SettledShareIsProvisional(qty, value, -issue.delta, average);
    }
  }

  // ---- Path independence --------------------------------------------------------------

  function Total(parts: seq<nat>): nat {
    if parts == [] then 0 else parts[0] + Total(parts[1..])
  }

  function Issue(qty: int, company: nat): Operation { Move(Movement(-qty, company, None, None)) }

  function Issues(parts: seq<nat>, company: nat): (ops: seq<Operation>)
    ensures |ops| == |parts| && AdjustOnly(ops)
  {
    if parts == [] then [] else [Issue(parts[0], company)] + Issues(parts[1..], company)
  }

  /** The row at another quantity, valued at its stored rate. */
  function AtRate(row: Row, qty: int): Row { Row(qty, row.rate, Worth(qty, RateOf(row.rate))) }

  /** From a row whose stored rate reproduces its value, any split of an issue the
      stock covers ends in the same row: the rate untouched, the value that of the
      units left, nothing at all when the row is emptied. */
  lemma {:induction false} IssuesEndAtTotal(s: State, parts: seq<nat>, company: nat, rowCompany: nat)
    requires s.row.Some? && Signed(s) && NoDrift(s) && QtyOf(s) >= Total(parts)
    ensures Run(s, Issues(parts, company), rowCompany).row == Some(AtRate(s.row.value, s.row.value.qty - Total(parts)))
    decreases |parts|
  {
    var row := s.row.value;
    StoredRateSurvives(row.rate);
    if parts == [] {
      NothingIsWorthNothing(RateOf(row.rate));
    } else {
      var m := Issue(parts[0], company).m;
      var next := Adjusted(s, m);
      assert Issues(parts, company)[1..] == Issues(parts[1..], company);
      OneIssue(s, m);
      MovementKeepsSign(s, m);
      MovementKeepsNoDrift(s, m);
      IssuesEndAtTotal(next, parts[1..], company, rowCompany);
    }
  }

  lemma {:induction false} NothingIsWorthNothing(rate: real)
    ensures Worth(0, rate) == 0
  {
  }

  lemma {:induction false} OneIssue(s: State, m: Movement)
    requires s.row.Some? && Signed(s) && NoDrift(s) && m.delta <= 0 && QtyOf(s) >= -m.delta
    ensures var next := Adjusted(s, m).row;
            next.Some? && next.value.qty == QtyOf(s) + m.delta && next.value.rate == s.row.value.rate
  {
    var row := s.row.value;
    StoredRateSurvives(row.rate);
    if row.qty > 0 { AnchorIsStoredRate(row.qty, row.value, row.rate); }
  }

  /** The value relieved depends only on the total issued. */
  lemma {:induction false} IssuesAreSplitIndependent(s: State, xs: seq<nat>, ys: seq<nat>, company: nat,
                                                     rowCompany: nat)
    requires s.row.Some? && Signed(s) && NoDrift(s) && QtyOf(s) >= Total(xs) == Total(ys)
    ensures var x, y := Run(s, Issues(xs, company), rowCompany), Run(s, Issues(ys, company), rowCompany);
            && x.row == y.row
            && (Total(xs) == QtyOf(s) ==> ValueOf(x) == 0)
  {
    IssuesEndAtTotal(s, xs, company, rowCompany);
    IssuesEndAtTotal(s, ys, company, rowCompany);
    NothingIsWorthNothing(RateOf(s.row.value.rate));
  }

  function WorthSum(parts: seq<nat>, rate: real): int {
    if parts == [] then 0 else Worth(parts[0], rate) + WorthSum(parts[1..], rate)
  }

  /** A row that is empty or short relieves every further issue at its stored rate,
      and never changes that rate. */
  lemma {:induction false} ShortIssuesAtMemory(s: State, parts: seq<nat>, company: nat, rowCompany: nat)
    requires s.row.Some? && Signed(s) && QtyOf(s) <= 0
    ensures var row := s.row.value;
            Run(s, Issues(parts, company), rowCompany).row
            == Some(Row(row.qty - Total(parts), row.rate, row.value - WorthSum(parts, RateOf(row.rate))))
    decreases |parts|
  {
    var row := s.row.value;
    StoredRateSurvives(row.rate);
    if parts != [] {
      var m := Issue(parts[0], company).m;
      assert Issues(parts, company)[1..] == Issues(parts[1..], company);
      NothingIsWorthNothing(RateOf(row.rate));
      OneShortIssue(s, m);
      MovementKeepsSign(s, m);
      ShortIssuesAtMemory(Adjusted(s, m), parts[1..], company, rowCompany);
    }
  }

  lemma {:induction false} OneShortIssue(s: State, m: Movement)
    requires s.row.Some? && Signed(s) && QtyOf(s) <= 0 && m.delta <= 0
    ensures var row := s.row.value;
            Adjusted(s, m).row == Some(Row(row.qty + m.delta, row.rate, row.value - Worth(-m.delta, RateOf(row.rate))))
  {
    StoredRateSurvives(s.row.value.rate);
    NothingIsWorthNothing(RateOf(s.row.value.rate));
  }

  // ---- The settlement variance ----------------------------------------------------------

  /** Within half a cent of the quantity at an exact rate. */
  ghost predicate Near(taken: int, qty: int, rate: real) {
    -0.5 <= taken as real - Times(qty, rate) <= 0.5
  }

  lemma {:induction false} ShareIsNear(value: int, part: int, whole: int)
    requires whole != 0
    ensures Near(if part == whole then value else Share(value, part, whole), part, PerUnit(value, whole))
  {
    AverageTimes(value, whole);
  }

  lemma {:induction false} SameRate(value: int, qty: int)
    requires qty != 0
    ensures PerUnit(-value, -qty) == PerUnit(value, qty)
  {
    assert (-value) as real / (-qty) as real == value as real / qty as real;
  }

  /** A receipt into a shortage charges cost of goods sold with the difference
      between the receipt rate and the provisional rate of the units it settles,
      to within a cent. */
  lemma {:induction false} VarianceIsRateDifference(s: State, m: Movement)
    requires QtyOf(s) < 0 && m.delta > 0
    ensures var result := AdjustResult(s, m);
            var receiptRate := PerUnit(result.receiptValue, m.delta);
            var provisionalRate := PerUnit(ValueOf(s), QtyOf(s));
            && result.settledQty == Min(-QtyOf(s), m.delta)
            && -1.0 <= result.variance as real - Times(result.settledQty, receiptRate - provisionalRate) <= 1.0
  {
    var (qty, value, worth) := (QtyOf(s), ValueOf(s), AdjustResult(s, m).receiptValue);
    var settled := Min(-qty, m.delta);
    ShareIsNear(worth, settled, m.delta);
    ShareIsNear(-value, settled, -qty);
    SameRate(value, qty);
    TimesShift(settled, PerUnit(worth, m.delta), -PerUnit(value, qty));
    TimesNegated(settled, PerUnit(value, qty));
  }
}
