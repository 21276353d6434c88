/** What every run of movements and reversals keeps: the books balance, the
    value has the sign of the quantity, and the stored rate never drifts. */
module InventoryRuns {
  import opened Rounding
  import opened Standard
  import opened InventoryCosting
  import opened InventoryLedger

  datatype Operation = Move(m: Movement) | Reverse(r: Reversal)

  function After(s: State, op: Operation, rowCompany: nat): State {
    match op
    case Move(m) => Adjusted(s, m)
    case Reverse(r) => Reversed(s, r, rowCompany)
  }

  function Run(s: State, ops: seq<Operation>, rowCompany: nat): State
    decreases |ops|
  {
    if ops == [] then s else Run(After(s, ops[0], rowCompany), ops[1..], rowCompany)
  }

  predicate AdjustOnly(ops: seq<Operation>) {
    forall i :: 0 <= i < |ops| ==> ops[i].Move?
  }

  // ---- The general ledger beside the stored rows --------------------------------

  /** The accounts a caller posts to, in cents. */
  datatype Books = Books(inventory: int, cogs: int, received: int)

  /** A movement posts its value delta to Inventory and its variance (minus the
      delta, for an issue) to cost of goods sold; a reversal takes back its value. */
  function Posted(b: Books, s: State, op: Operation): Books {
    match op
    case Move(m) =>
      var result := AdjustResult(s, m);
      Books(b.inventory + result.valueDelta, b.cogs + result.variance, b.received + result.receiptValue)
    case Reverse(r) =>
      if s.row.None? then b else b.(inventory := b.inventory - Round(r.worth))
  }

  function PostedRun(b: Books, s: State, ops: seq<Operation>, rowCompany: nat): Books
    decreases |ops|
  {
    if ops == [] then b
    else PostedRun(Posted(b, s, ops[0]), After(s, ops[0], rowCompany), ops[1..], rowCompany)
  }

  /** The Inventory account moves with the stored value through every mix of
      adjustments and exact reversals. */
  lemma {:induction false} SubLedgerEqualsLedger(b: Books, s: State, ops: seq<Operation>, rowCompany: nat)
    ensures PostedRun(b, s, ops, rowCompany).inventory - b.inventory == ValueOf(Run(s, ops, rowCompany)) - ValueOf(s)
    decreases |ops|
  {
    if ops != [] {
      SubLedgerEqualsLedger(Posted(b, s, ops[0]), After(s, ops[0], rowCompany), ops[1..], rowCompany);
    }
  }

  /** No value is created or lost: what is held plus what was expensed is what
      was received. */
  lemma {:induction false} StockPlusCostIsReceipts(b: Books, s: State, ops: seq<Operation>, rowCompany: nat)
    requires AdjustOnly(ops)
    ensures var after := PostedRun(b, s, ops, rowCompany);
            ValueOf(Run(s, ops, rowCompany)) + (after.cogs - b.cogs) == ValueOf(s) + (after.received - b.received)
    decreases |ops|
  {
    if ops != [] {
      StockPlusCostIsReceipts(Posted(b, s, ops[0]), After(s, ops[0], rowCompany), ops[1..], rowCompany);
    }
  }

  /** Reversing a movement at once, by its quantity and its value delta, restores
      the quantity and value of the row it found. */
  lemma {:induction false} ReversalUndoesMovement(s: State, m: Movement, rowCompany: nat, company: Option<nat>)
    ensures var delta := AdjustResult(s, m).valueDelta;
            var undone := Reversed(Adjusted(s, m), Reversal(m.delta, delta as real, company), rowCompany);
            QtyOf(undone) == QtyOf(s) && ValueOf(undone) == ValueOf(s)
  {
    RoundWhole(AdjustResult(s, m).valueDelta);
  }

  // ---- Sign of the value ---------------------------------------------------------

  /** Value carries the sign of the quantity, an empty row holds none, and the
      cost memory is never negative. */
  ghost predicate Signed(s: State) {
    s.row.Some? ==>
      var row := s.row.value;
      && row.rate >= 0
      && (row.qty > 0 ==> row.value >= 0)
      && (row.qty == 0 ==> row.value == 0)
      && (row.qty < 0 ==> row.value <= 0)
  }

  lemma {:induction false} MemoryNotNegative(qty: int, value: int, rate: real)
    requires qty > 0 ==> value >= 0
    ensures CostMemory(qty, value, rate) >= 0.0
  {
    if qty > 0 && value > 0 { AnchorReproduces(qty, value, rate); }
  }

  lemma {:induction false} IssueKeepsSign(qty: int, value: int, rate: real, issue: int)
    requires issue > 0
    requires (qty > 0 ==> value >= 0) && (qty == 0 ==> value == 0) && (qty < 0 ==> value <= 0)
    ensures var o := IssueOutcome(qty, value, rate, issue);
            && o.value <= value && o.rate >= 0.0
            && (o.qty > 0 ==> o.value >= 0) && (o.qty == 0 ==> o.value == 0) && (o.qty < 0 ==> o.value <= 0)
  {
    var newQty := qty - issue;
    MemoryNotNegative(qty, value, rate);
    if newQty > 0 {
      AnchorReproduces(qty, value, rate);
      WorthMonotone(newQty, qty, AverageAnchor(qty, value, rate));
    } else {
      var shortage := IncrementalShortage(qty, newQty);
      WorthMonotone(0, shortage, CostMemory(qty, value, rate));
    }
  }

  lemma {:induction false} ReceiptKeepsSign(qty: int, value: int, rate: real, receipt: int, worth: int)
    requires receipt > 0 && worth >= 0 && rate >= 0.0
    requires (qty > 0 ==> value >= 0) && (qty == 0 ==> value == 0) && (qty < 0 ==> value <= 0)
    ensures var o := ReceiptOutcome(qty, value, rate, receipt, worth);
            && o.value >= value && o.rate >= 0.0
            && (o.qty > 0 ==> o.value >= 0) && (o.qty == 0 ==> o.value == 0) && (o.qty < 0 ==> o.value <= 0)
  {
    PerUnitSign(worth, receipt);
    if qty < 0 {
      var settled := Min(-qty, receipt);
      ShareWithin(-value, settled, -qty);
      ShareWithin(worth, settled, receipt);
    }
    var o := ReceiptOutcome(qty, value, rate, receipt, worth);
    if o.qty > 0 { PerUnitSign(o.value, o.qty); }
  }

  /** One movement keeps the signs, and an issue never raises the stored value. */
  lemma {:induction false} MovementKeepsSign(s: State, m: Movement)
    requires Signed(s)
    ensures Signed(Adjusted(s, m))
    ensures m.delta < 0 ==> ValueOf(Adjusted(s, m)) <= ValueOf(s)
    ensures m.delta > 0 ==> ValueOf(Adjusted(s, m)) >= ValueOf(s)
  {
    var (qty, value, rate) := (QtyOf(s), ValueOf(s), RateBefore(s, m));
    assert rate >= 0.0;
    if m.delta > 0 {
      ReceiptKeepsSign(qty, value, rate, m.delta, ReceiptWorth(qty, value, rate, m));
    } else if m.delta < 0 {
      IssueKeepsSign(qty, value, rate, -m.delta);
    }
    var o := OutcomeOf(s, m);
    StoredRateSign(o.rate);
  }

  lemma {:induction false} RunKeepsSign(s: State, ops: seq<Operation>, rowCompany: nat)
    requires Signed(s) && AdjustOnly(ops)
    ensures Signed(Run(s, ops, rowCompany))
    decreases |ops|
  {
    if ops != [] {
      MovementKeepsSign(s, ops[0].m);
      RunKeepsSign(After(s, ops[0], rowCompany), ops[1..], rowCompany);
    }
  }

  // ---- No drift -------------------------------------------------------------------

  /** 100,000 units, in thousandths: half of 1e-7 times this is half a cent. */
  const DRIFT_LIMIT := 100_000_000

  /** While stock is held, the stored 7dp rate reproduces the stored value. */
  ghost predicate NoDrift(s: State) {
    s.row.Some? && s.row.value.qty > 0 ==>
      s.row.value.value == Worth(s.row.value.qty, RateOf(s.row.value.rate))
  }

  /** Every receipt of the run leaves at most DRIFT_LIMIT in stock. */
  ghost predicate ReceiptsWithin(s: State, ops: seq<Operation>, rowCompany: nat)
    decreases |ops|
  {
    ops != [] ==>
      var next := After(s, ops[0], rowCompany);
      && (ops[0].Move? && ops[0].m.delta > 0 ==> QtyOf(next) <= DRIFT_LIMIT)
      && ReceiptsWithin(next, ops[1..], rowCompany)
  }

  /** The average held as a 7dp rate still gives the value back. */
  lemma {:induction false} StoredAverageReproduces(qty: int, value: int)
    requires 0 < qty <= DRIFT_LIMIT && value >= 0
    ensures Worth(qty, RateOf(StoredRate(PerUnit(value, qty)))) == value
  {
    var average := PerUnit(value, qty);
    var back := RateOf(StoredRate(average));
    var error := back - average;
    AverageTimes(value, qty);
    if qty == DRIFT_LIMIT {
      assert average * RATE_SCALE == value as real;
      RoundWhole(value);
    }
    TimesShift(qty, average, error);
    ErrorWithin(qty, error);
    RoundUnique(Times(qty, back), value);
  }

  /** Half a 7dp count, over less than the limit, is less than half a cent. */
  lemma {:induction false} ErrorWithin(qty: nat, error: real)
    requires qty <= DRIFT_LIMIT && (qty == DRIFT_LIMIT ==> error == 0.0)
    requires -0.5 / RATE_SCALE <= error <= 0.5 / RATE_SCALE
    ensures -0.5 < Times(qty, error) < 0.5
  {
    TimesRateOrder(qty, error, 0.5 / RATE_SCALE);
    TimesRateOrder(qty, -0.5 / RATE_SCALE, error);
    TimesIsProduct(qty, 0.5 / RATE_SCALE);
    TimesIsProduct(qty, -0.5 / RATE_SCALE);
    TimesIsProduct(qty, 0.0);
  }

  lemma {:induction false} MovementKeepsNoDrift(s: State, m: Movement)
    requires Signed(s) && NoDrift(s)
    requires m.delta > 0 ==> QtyOf(Adjusted(s, m)) <= DRIFT_LIMIT
    ensures NoDrift(Adjusted(s, m))
  {
    MovementKeepsSign(s, m);
    var (qty, value, rate) := (QtyOf(s), ValueOf(s), RateBefore(s, m));
    var o := OutcomeOf(s, m);
    if o.qty > 0 {
      if s.row.Some? { StoredRateSurvives(s.row.value.rate); }
      if m.delta > 0 {
        assert o.rate == PerUnit(o.value, o.qty);
        PerUnitSign(o.value, o.qty);
        StoredAverageReproduces(o.qty, o.value);
      } else if m.delta < 0 {
        AnchorIsStoredRate(qty, value, s.row.value.rate);
      }
    }
  }

  /** A reversal that leaves stock of positive value within the limit leaves a row
      that does not drift, whatever it found. */
  lemma {:induction false} ReversalLeavesNoDrift(s: State, r: Reversal, rowCompany: nat)
    requires s.row.Some? && QtyOf(Reversed(s, r, rowCompany)) <= DRIFT_LIMIT && ValueOf(Reversed(s, r, rowCompany)) > 0
    ensures NoDrift(Reversed(s, r, rowCompany))
  {
    var after := Reversed(s, r, rowCompany);
    if QtyOf(after) > 0 { StoredAverageReproduces(QtyOf(after), ValueOf(after)); }
  }

  /** A row that does not drift is issued at its stored rate. */
  lemma {:induction false} AnchorIsStoredRate(qty: int, value: int, stored: int)
    requires qty > 0 && stored >= 0 && value == Worth(qty, RateOf(stored))
    ensures AverageAnchor(qty, value, RateOf(stored)) == RateOf(stored)
  {
    StoredRateSurvives(stored);
    if stored == 0 { TimesIsProduct(qty, 0.0); }
  }

  /** No drift: from a missing row, through every run of movements within the
      limit, quantity times the stored rate is the stored value to the cent. */
  lemma {:induction false} RunKeepsNoDrift(s: State, ops: seq<Operation>, rowCompany: nat)
    requires Signed(s) && NoDrift(s) && AdjustOnly(ops) && ReceiptsWithin(s, ops, rowCompany)
    ensures NoDrift(Run(s, ops, rowCompany)) && Signed(Run(s, ops, rowCompany))
    decreases |ops|
  {
    if ops != [] {
      MovementKeepsSign(s, ops[0].m);
      MovementKeepsNoDrift(s, ops[0].m);
      RunKeepsNoDrift(After(s, ops[0], rowCompany), ops[1..], rowCompany);
    }
  }

  lemma {:induction false} NoDriftFromMissingRow(ops: seq<Operation>, rowCompany: nat)
    requires AdjustOnly(ops) && ReceiptsWithin(EMPTY, ops, rowCompany)
    ensures var s := Run(EMPTY, ops, rowCompany);
            && NoDrift(s) && Signed(s)
  {
    RunKeepsNoDrift(EMPTY, ops, rowCompany);
  }
}
