/** The weighted-average costing of one inventory row.

    Units: a quantity counts thousandths (3dp), a value counts cents (2dp), a
    stored rate counts 1e-7 of the currency per unit (7dp). A rate in flight is
    an exact real in cents per thousandth, so value == quantity * rate. */
module InventoryCosting {
  import opened Rounding
  import opened Standard

  /** A 7dp rate count per (cent per thousandth): 1e7 * 1000 / 100. */
  const RATE_SCALE := 100_000_000.0
  /** The layer table keeps its rate at 4dp. */
  const LAYER_RATE_SCALE := 100_000.0

  datatype Row = Row(qty: int, rate: int, value: int)

  /** A new shortage and the rate it was relieved at. */
  datatype Shortage = Shortage(qty: int, rate: real)

  datatype Outcome = Outcome(
    qty: int, value: int, rate: real, receiptValue: int, settledQty: int, shortage: Option<Shortage>)

  /** What a caller learns from a movement, quantities and values only. */
  datatype MovementResult = MovementResult(
    previousQty: int, newQty: int, previousValue: int, newValue: int, averageRate: int, created: bool,
    valueDelta: int, receiptValue: int, settledQty: int, variance: int)

  function StoredRate(rate: real): int { Round(rate * RATE_SCALE) }

  function RateOf(stored: int): real { stored as real / RATE_SCALE }

  function Worth(qty: int, rate: real): int { Round(Times(qty, rate)) }

  function PerUnit(value: int, qty: int): real
    requires qty != 0
  {
    value as real / qty as real
  }

  /** `value` shared pro rata: `part` out of `whole`. */
  function Share(value: int, part: int, whole: int): int
    requires whole != 0
  {
    Worth(part, PerUnit(value, whole))
  }

  function ShortageOf(qty: int): int { Max(-qty, 0) }

  function IncrementalShortage(before: int, after: int): int {
    Max(ShortageOf(after) - ShortageOf(before), 0)
  }

  function AverageAnchor(qty: int, value: int, rate: real): real
    requires qty > 0
  {
    var stored := RateOf(StoredRate(rate));
    if stored > 0.0 && Worth(qty, stored) == value then stored else PerUnit(value, qty)
  }

  function CostMemory(qty: int, value: int, rate: real): real {
    if qty > 0 && value > 0 then AverageAnchor(qty, value, rate)
    else if rate > 0.0 then rate else 0.0
  }

  function IssueOutcome(qty: int, value: int, rate: real, issue: int): Outcome
    requires issue > 0
  {
    var memory := CostMemory(qty, value, rate);
    var newQty := qty - issue;
    if newQty > 0 then
      var anchor := AverageAnchor(qty, value, rate);
      Outcome(newQty, Worth(newQty, anchor), anchor, 0, 0, None)
    else
      var shortage := IncrementalShortage(qty, newQty);
      var priorShortValue := if qty < 0 then value else 0;
      Outcome(newQty, if newQty == 0 then 0 else priorShortValue - Worth(shortage, memory), memory, 0, 0,
              if shortage > 0 then Some(Shortage(shortage, memory)) else None)
  }

  function MemoryAfterReceipt(newQty: int, value: int, rate: real, receiptRate: real): real {
    if newQty > 0 then PerUnit(value, newQty) else if receiptRate > 0.0 then receiptRate else rate
  }

  function ReceiptOutcome(qty: int, value: int, rate: real, receipt: int, worth: int): Outcome
    requires receipt > 0
  {
    var newQty := qty + receipt;
    var receiptRate := PerUnit(worth, receipt);
    if qty == 0 then
      Outcome(newQty, worth, MemoryAfterReceipt(newQty, worth, rate, receiptRate), worth, 0, None)
    else if qty > 0 then
      Outcome(newQty, value + worth, MemoryAfterReceipt(newQty, value + worth, rate, receiptRate), worth, 0, None)
    else
      var short := -qty;
      var settled := Min(short, receipt);
      var restored := if settled >= short then -value else Share(-value, settled, short);
      var settledShare := if settled == receipt then worth else Share(worth, settled, receipt);
      var newValue := value + restored + (worth - settledShare);
      Outcome(newQty, if newQty == 0 then 0 else newValue,
              MemoryAfterReceipt(newQty, newValue, rate, receiptRate), worth, settled, None)
  }

  /** The row a movement writes. A negative cost memory is stored as zero. */
  function RowWritten(o: Outcome): Row {
    Row(o.qty, StoredRate(if o.rate < 0.0 then 0.0 else o.rate), o.value)
  }

  function ResultOf(previousQty: int, previousValue: int, o: Outcome, created: bool): MovementResult {
    var delta := o.value - previousValue;
    MovementResult(previousQty, o.qty, previousValue, o.value, RowWritten(o).rate, created,
                   delta, o.receiptValue, o.settledQty, o.receiptValue - delta)
  }

  // ---- What the rates reproduce ------------------------------------------------

  lemma {:induction false} StoredRateSurvives(stored: int)
    ensures StoredRate(RateOf(stored)) == stored
  {
    assert RateOf(stored) * RATE_SCALE == stored as real;
  }

  lemma {:induction false} StoredRateSign(rate: real)
    requires rate >= 0.0
    ensures StoredRate(rate) >= 0
  {
  }

  /** The exact average gives the value back. */
  lemma {:induction false} AverageTimes(value: int, qty: int)
    requires qty != 0
    ensures Times(qty, PerUnit(value, qty)) == value as real
  {
    TimesIsProduct(qty, PerUnit(value, qty));
  }

  lemma {:induction false} PerUnitSign(value: int, qty: int)
    requires value >= 0 && qty > 0
    ensures PerUnit(value, qty) >= 0.0
  {
  }

  lemma {:induction false} WorthMonotone(less: int, more: int, rate: real)
    requires less <= more && rate >= 0.0
    ensures Worth(less, rate) <= Worth(more, rate)
    ensures less >= 0 ==> Worth(less, rate) >= 0
  {
    TimesOrder(less, more, rate);
    RoundMonotone(Times(less, rate), Times(more, rate));
    if less >= 0 { TimesOrder(0, less, rate); }
  }

  /** A share of a non-negative value never exceeds the value. */
  lemma {:induction false} ShareWithin(value: int, part: int, whole: int)
    requires value >= 0 && 0 <= part <= whole && whole > 0
    ensures 0 <= Share(value, part, whole) <= value
  {
    PerUnitSign(value, whole);
    WorthMonotone(part, whole, PerUnit(value, whole));
    AverageTimes(value, whole);
    RoundWhole(value);
  }

  /** The average of a row reproduces the stored value to the cent, and is
      never negative for a non-negative value. */
  lemma {:induction false} AnchorReproduces(qty: int, value: int, rate: real)
    requires qty > 0 && value >= 0
    ensures AverageAnchor(qty, value, rate) >= 0.0
    ensures Worth(qty, AverageAnchor(qty, value, rate)) == value
  {
    AverageTimes(value, qty);
    PerUnitSign(value, qty);
    RoundWhole(value);
  }
}
