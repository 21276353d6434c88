/** The valuation policy of the costing engine, in plain arithmetic: what each
    movement is worth, what it leaves, and at which rate. Nothing here is stated
    through the engine's own pricing functions; `Times(n, r)` is the product. */
module InventoryPolicy {
  import opened Rounding
  import opened Standard
  import opened InventoryCosting
  import opened InventoryLedger

  /** The whole number nearest to x, halves away from zero. */
  ghost predicate Nearest(n: int, x: real) {
    if x >= 0.0 then -0.5 < n as real - x <= 0.5 else -0.5 <= n as real - x < 0.5
  }

  lemma {:induction false} NearestIsRound(n: int, x: real)
    ensures Nearest(n, x) <==> n == Round(x)
  {
  }

  lemma {:induction false} WorthIsNearest(n: int, qty: int, rate: real)
    ensures Nearest(n, Times(qty, rate)) <==> n == Worth(qty, rate)
  {
    NearestIsRound(n, Times(qty, rate));
  }

  /** The column keeps 1e-7 of the currency per unit; a rate counts cents per
      thousandth. A negative rate is kept as zero. */
  ghost predicate KeptAs(stored: int, rate: real) {
    if rate < 0.0 then stored == 0 else Nearest(stored, rate * 100_000_000.0)
  }

  /** The layer table keeps 1e-4. */
  ghost predicate LayerKeptAs(stored: int, rate: real) {
    if rate < 0.0 then stored == 0 else Nearest(stored, rate * 100_000.0)
  }

  ghost function RateHeld(row: Row): real { row.rate as real / 100_000_000.0 }

  ghost function Average(row: Row): real
    requires row.qty != 0
  {
    row.value as real / row.qty as real
  }

  /** The average units are issued at: the stored rate while it gives the value back
      to the cent, else the exact quotient. */
  ghost function IssueRate(row: Row): real
    requires row.qty != 0
  {
    if row.rate > 0 && Nearest(row.value, Times(row.qty, RateHeld(row))) then RateHeld(row) else Average(row)
  }

  ghost function NotBelowZero(x: real): real { if x > 0.0 then x else 0.0 }

  /** The rate a row remembers its cost at: its average while it holds stock of some
      value, else the stored rate; for a first movement the incoming one. */
  ghost function Memory(s: State, m: Movement): real {
    if s.row.None? then NotBelowZero(if m.rate.Some? then m.rate.value else 0.0)
    else if s.row.value.qty > 0 && s.row.value.value > 0 then IssueRate(s.row.value)
    else NotBelowZero(RateHeld(s.row.value))
  }

  lemma {:induction false} AnchorIsIssueRate(row: Row)
    requires row.qty > 0
    ensures AverageAnchor(row.qty, row.value, RateOf(row.rate)) == IssueRate(row)
  {
    StoredRateSurvives(row.rate);
    WorthIsNearest(row.value, row.qty, RateHeld(row));
    assert RateOf(row.rate) == RateHeld(row);
  }

  lemma {:induction false} MemoryIs(s: State, m: Movement)
    ensures CostMemory(QtyOf(s), ValueOf(s), RateBefore(s, m)) == Memory(s, m)
  {
    if s.row.Some? && s.row.value.qty > 0 { AnchorIsIssueRate(s.row.value); }
  }

  // ---- Receipts --------------------------------------------------------------------------

  /** What a receipt is worth: the exact value where one is given, else its quantity
      at the incoming rate, else at the cost memory; nothing negative. */
  ghost predicate IsWorth(value: int, s: State, m: Movement) {
    var exact := if m.worth.Some? then m.worth.value
                 else Times(m.delta, if m.rate.Some? then m.rate.value else Memory(s, m));
    if exact >= 0.0 then Nearest(value, exact) else value == 0
  }

  lemma {:induction false} ReceiptIsWorth(s: State, m: Movement)
    requires m.delta > 0
    ensures IsWorth(AdjustResult(s, m).receiptValue, s, m)
  {
    MemoryIs(s, m);
    var rate := if m.rate.Some? then m.rate.value else Memory(s, m);
    WorthIsNearest(Worth(m.delta, rate), m.delta, rate);
    if m.worth.Some? { NearestIsRound(Round(m.worth.value), m.worth.value); }
  }

  /** A part of a value, pro rata, to the cent. */
  ghost predicate IsShare(share: int, value: int, part: int, whole: int)
    requires whole != 0
  {
    Nearest(share, Times(part, value as real / whole as real))
  }

  /** What a receipt leaves: all of its value in stock or on an empty row; a shortage
      first takes back its share, the whole of it when it is covered. */
  ghost predicate ReceiptLeaves(qty: int, value: int, receipt: int, worth: int, newValue: int)
    requires receipt > 0
  {
    if qty > 0 then newValue == value + worth
    else if qty == 0 then newValue == worth
    else if receipt == -qty then newValue == 0
    else if receipt < -qty then IsShare(newValue - value, -value, receipt, -qty)
    else IsShare(worth - newValue, worth, -qty, receipt)
  }

  /** The rate a receipt leaves: the new average of stock, else the receipt's own, else the old. */
  ghost function RateLeft(row: Option<Row>, newQty: int, newValue: int, receipt: int, worth: int): real
    requires receipt > 0
  {
    if newQty > 0 then newValue as real / newQty as real
    else if worth > 0 then worth as real / receipt as real
    else if row.Some? then RateHeld(row.value) else 0.0
  }

  ghost function Shortfall(qty: int): int { if qty < 0 then -qty else 0 }

  lemma {:induction false} ShareIsShare(value: int, part: int, whole: int)
    requires whole != 0
    ensures IsShare(Share(value, part, whole), value, part, whole)
  {
    WorthIsNearest(Share(value, part, whole), part, PerUnit(value, whole));
  }

  lemma {:induction false} ReceiptIsLeft(s: State, m: Movement)
    requires m.delta > 0
    ensures var worth, after := AdjustResult(s, m).receiptValue, Adjusted(s, m).row.value;
            ReceiptLeaves(QtyOf(s), ValueOf(s), m.delta, worth, after.value)
  {
    var qty, value, worth := QtyOf(s), ValueOf(s), AdjustResult(s, m).receiptValue;
    if qty < 0 && m.delta < -qty { ShareIsShare(-value, m.delta, -qty); }
    if qty < 0 && m.delta > -qty { ShareIsShare(worth, -qty, m.delta); }
  }

  lemma {:induction false} ReceiptRate(s: State, m: Movement)
    requires m.delta > 0
    ensures var worth, after := AdjustResult(s, m).receiptValue, Adjusted(s, m).row.value;
            KeptAs(after.rate, RateLeft(s.row, after.qty, after.value, m.delta, worth))
  {
    var o := OutcomeOf(s, m);
    assert o.receiptValue > 0 ==> PerUnit(o.receiptValue, m.delta) > 0.0;
    assert o.rate == RateLeft(s.row, o.qty, o.value, m.delta, o.receiptValue);
    NearestIsRound(RowWritten(o).rate, o.rate * RATE_SCALE);
  }

  /** A receipt from the row as it was found. */
  lemma {:induction false} ReceiptPolicy(s: State, m: Movement)
    requires m.delta > 0
    ensures var result, after := AdjustResult(s, m), Adjusted(s, m).row.value;
            && after.qty == QtyOf(s) + m.delta && IsWorth(result.receiptValue, s, m)
            && ReceiptLeaves(QtyOf(s), ValueOf(s), m.delta, result.receiptValue, after.value)
            && KeptAs(after.rate, RateLeft(s.row, after.qty, after.value, m.delta, result.receiptValue))
            && result.settledQty == Min(Shortfall(QtyOf(s)), m.delta)
  {
    ReceiptIsWorth(s, m);
    ReceiptIsLeft(s, m);
    ReceiptRate(s, m);
  }

  // ---- Issues ------------------------------------------------------------------------------

  /** What an issue leaves: the units left at the average; nothing on an emptied row;
      beyond that the new shortage comes off at the cost memory. */
  ghost predicate IssueLeaves(s: State, m: Movement, newValue: int)
    requires m.delta < 0
  {
    var qty, newQty := QtyOf(s), QtyOf(s) + m.delta;
    if newQty > 0 then s.row.Some? && Nearest(newValue, Times(newQty, IssueRate(s.row.value)))
    else if newQty == 0 then newValue == 0
    else if qty < 0 then Nearest(ValueOf(s) - newValue, Times(-m.delta, Memory(s, m)))
    else Nearest(-newValue, Times(-newQty, Memory(s, m)))
  }

  /** A layer is added for what the issue adds to the shortage, at the cost memory. */
  ghost predicate LayersLeft(s: State, m: Movement, layers: seq<Layer>)
    requires m.delta < 0
  {
    var qty, newQty := QtyOf(s), QtyOf(s) + m.delta;
    newQty < 0 ==>
      && |layers| == |s.layers| + 1 && layers[..|s.layers|] == s.layers
      && var layer := layers[|s.layers|];
         && layer.company == m.company && layer.qty == (if qty < 0 then -m.delta else -newQty)
         && LayerKeptAs(layer.rate, Memory(s, m))
  }

  lemma {:induction false} IssueIsLeft(s: State, m: Movement)
    requires m.delta < 0
    ensures IssueLeaves(s, m, Adjusted(s, m).row.value.value)
  {
    var newQty := QtyOf(s) + m.delta;
    MemoryIs(s, m);
    if newQty > 0 {
      AnchorIsIssueRate(s.row.value);
      WorthIsNearest(Worth(newQty, IssueRate(s.row.value)), newQty, IssueRate(s.row.value));
    } else {
      var added := if QtyOf(s) < 0 then -m.delta else -newQty;
      WorthIsNearest(Worth(added, Memory(s, m)), added, Memory(s, m));
    }
  }

  lemma {:induction false} IssueLayers(s: State, m: Movement)
    requires m.delta < 0
    ensures LayersLeft(s, m, Adjusted(s, m).layers)
  {
    MemoryIs(s, m);
    var o := OutcomeOf(s, m);
    if o.qty < 0 {
      var layer := NewLayer(m.company, o.shortage.value.qty, o.shortage.value.rate);
      assert Adjusted(s, m).layers == s.layers + [layer];
      NearestIsRound(layer.rate, Memory(s, m) * LAYER_RATE_SCALE);
    }
  }

  /** An issue from the row as it was found. */
  lemma {:induction false} IssuePolicy(s: State, m: Movement)
    requires m.delta < 0
    ensures var result, after := AdjustResult(s, m), Adjusted(s, m).row.value;
            && after.qty == QtyOf(s) + m.delta && result.receiptValue == 0 && result.settledQty == 0
            && IssueLeaves(s, m, after.value) && LayersLeft(s, m, Adjusted(s, m).layers)
            && KeptAs(after.rate, if after.qty > 0 then IssueRate(s.row.value) else Memory(s, m))
  {
    IssueIsLeft(s, m);
    IssueLayers(s, m);
    MemoryIs(s, m);
    var o := OutcomeOf(s, m);
    if o.qty > 0 { AnchorIsIssueRate(s.row.value); }
    NearestIsRound(RowWritten(o).rate, o.rate * RATE_SCALE);
  }

  /** A zero movement writes the row it found; on a missing one an empty row that
      remembers the incoming rate. */
  lemma {:induction false} ZeroPolicy(s: State, m: Movement)
    requires m.delta == 0
    ensures var after := Adjusted(s, m).row.value;
            && after.qty == QtyOf(s) && after.value == ValueOf(s) && AdjustResult(s, m).receiptValue == 0
            && KeptAs(after.rate, if s.row.Some? then RateHeld(s.row.value) else Memory(s, m))
  {
    var o := OutcomeOf(s, m);
    NearestIsRound(RowWritten(o).rate, o.rate * RATE_SCALE);
  }

  /** What a movement reports: the row before and after, and its value change. */
  lemma {:induction false} ResultPolicy(s: State, m: Movement)
    ensures var result, after := AdjustResult(s, m), Adjusted(s, m).row.value;
            && result.previousQty == QtyOf(s) && result.previousValue == ValueOf(s)
            && result.newQty == after.qty && result.newValue == after.value && result.averageRate == after.rate
            && result.valueDelta == after.value - ValueOf(s)
            && result.variance == result.receiptValue - result.valueDelta
            && (result.created <==> s.row.None?)
  {
  }

  // ---- Reversals -----------------------------------------------------------------------------

  /** The rate a reversal leaves: the remaining average, of stock or of a shortage,
      where quantity and value have one sign; else the cost memory. */
  ghost function ReversalRate(row: Row, newQty: int, newValue: int): real {
    if (newQty > 0 && newValue > 0) || (newQty < 0 && newValue < 0) then newValue as real / newQty as real
    else NotBelowZero(RateHeld(row))
  }

  /** The rate of the layer a reversal books: the one it leaves, else what it takes
      back per unit. */
  ghost function ReversalLayer(rate: real, taken: int, qty: int): real {
    if rate > 0.0 then rate
    else if qty > 0 then (if taken < 0 then -taken else taken) as real / qty as real
    else 0.0
  }

  lemma {:induction false} ReversalPolicy(s: State, r: Reversal, rowCompany: nat)
    requires s.row.Some?
    ensures var row, after := s.row.value, Reversed(s, r, rowCompany).row.value;
            && after.qty == row.qty - r.qty && Nearest(row.value - after.value, r.worth)
            && KeptAs(after.rate, ReversalRate(row, after.qty, after.value))
  {
    var row, after := s.row.value, Reversed(s, r, rowCompany).row.value;
    NearestIsRound(Round(r.worth), r.worth);
    var rate := RateAfterReversal(after.qty, after.value, RateOf(row.rate));
    SameSignRate(after.value, after.qty);
    NearestIsRound(after.rate, rate * RATE_SCALE);
  }

  lemma {:induction false} SameSignRate(value: int, qty: int)
    ensures qty > 0 && value > 0 ==> value as real / qty as real > 0.0
    ensures qty < 0 && value < 0 ==> value as real / qty as real > 0.0
  {
    if qty < 0 && value < 0 { assert value as real / qty as real == (-value) as real / (-qty) as real; }
  }

  /** The layer for what a reversal adds to the shortage. */
  lemma {:induction false} ReversalLayerPolicy(s: State, r: Reversal, rowCompany: nat)
    requires s.row.Some?
    ensures var row, after := s.row.value, Reversed(s, r, rowCompany);
            var company := if r.company.Some? then r.company.value else rowCompany;
            var added := if row.qty < 0 then r.qty else r.qty - row.qty;
            if added > 0 && company != 0 then
              && |after.layers| == |s.layers| + 1 && after.layers[..|s.layers|] == s.layers
              && var layer := after.layers[|s.layers|];
                 && layer.company == company && layer.qty == added
                 && LayerKeptAs(layer.rate,
                                ReversalLayer(ReversalRate(row, after.row.value.qty, after.row.value.value),
                                              row.value - after.row.value.value, r.qty))
            else after.layers == s.layers
  {
    var row, after := s.row.value, Reversed(s, r, rowCompany);
    var newQty, newValue := after.row.value.qty, after.row.value.value;
    var rate := RateAfterReversal(newQty, newValue, RateOf(row.rate));
    SameSignRate(newValue, newQty);
    assert rate == ReversalRate(row, newQty, newValue);
    var taken := Round(r.worth);
    if r.qty > 0 { AbsolutePerUnit(taken, r.qty); }
    assert ReversalLayerRate(r, rate) == ReversalLayer(rate, taken, r.qty);
    NearestIsRound(NewLayer(0, 0, ReversalLayerRate(r, rate)).rate, ReversalLayerRate(r, rate) * LAYER_RATE_SCALE);
  }

  lemma {:induction false} AbsolutePerUnit(value: int, qty: int)
    requires qty > 0
    ensures (if value < 0 then -value else value) as real / qty as real
            == if PerUnit(value, qty) < 0.0 then -PerUnit(value, qty) else PerUnit(value, qty)
  {
    assert (-value) as real / qty as real == -(value as real / qty as real);
  }
}
