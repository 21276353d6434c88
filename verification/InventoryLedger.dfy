/** One inventory row with its queue of shortage layers, as adjustInventory and
    reverseInventoryByExactValue read and write them under the row lock. */
module InventoryLedger {
  import opened Rounding
  import opened Standard
  import opened InventoryCosting

  /** A shortage layer; the queue is kept in id order, oldest first. */
  datatype Layer = Layer(company: nat, qty: int, rate: int)

  datatype State = State(row: Option<Row>, layers: seq<Layer>)

  /** A call of adjustInventory. `rate` is the incoming rate in cents per
      thousandth, `worth` the exact value received in cents. */
  datatype Movement = Movement(delta: int, company: nat, rate: Option<real>, worth: Option<real>)

  /** A call of reverseInventoryByExactValue. */
  datatype Reversal = Reversal(qty: int, worth: real, company: Option<nat>)

  datatype ReversalResult = ReversalResult(
    previousQty: int, newQty: int, previousValue: int, newValue: int, valueDelta: int)

  const EMPTY := State(None, [])

  function QtyOf(s: State): int { if s.row.Some? then s.row.value.qty else 0 }
  function ValueOf(s: State): int { if s.row.Some? then s.row.value.value else 0 }

  /** The rate a movement starts from: the stored one, or the incoming rate of a
      first movement. */
  function RateBefore(s: State, m: Movement): real {
    if s.row.Some? then RateOf(s.row.value.rate)
    else if m.rate.Some? && m.rate.value > 0.0 then m.rate.value else 0.0
  }

  /** What a receipt is worth; a negative value is received at zero. */
  function ReceiptWorth(qty: int, value: int, rate: real, m: Movement): int {
    var worth :=
      if m.worth.Some? then Round(m.worth.value)
      else Worth(m.delta, if m.rate.Some? then m.rate.value else CostMemory(qty, value, rate));
    Max(worth, 0)
  }

  function OutcomeOf(s: State, m: Movement): Outcome {
    var (qty, value, rate) := (QtyOf(s), ValueOf(s), RateBefore(s, m));
    if m.delta > 0 then ReceiptOutcome(qty, value, rate, m.delta, ReceiptWorth(qty, value, rate, m))
    else if m.delta < 0 then IssueOutcome(qty, value, rate, -m.delta)
    else Outcome(qty, value, rate, 0, 0, None)
  }

  /** A layer keeps its rate to the nearest 1e-4, a negative one as zero. */
  function NewLayer(company: nat, qty: int, rate: real): (layer: Layer)
    ensures layer.company == company && layer.qty == qty && layer.rate >= 0
    ensures rate >= 0.0 ==> -0.5 < layer.rate as real - rate * LAYER_RATE_SCALE <= 0.5
    ensures rate < 0.0 ==> layer.rate == 0
  {
    Layer(company, qty, Round((if rate < 0.0 then 0.0 else rate) * LAYER_RATE_SCALE))
  }

  /** First in, first out: what is left of the queue once `qty` is settled. */
  function Settle(layers: seq<Layer>, qty: int): seq<Layer> {
    if qty <= 0 || layers == [] then layers
    else
      var consume := Min(layers[0].qty, qty);
      var left := layers[0].qty - consume;
      (if left <= 0 then [] else [layers[0].(qty := left)]) + Settle(layers[1..], qty - consume)
  }

  lemma {:induction false} SettleStep(layers: seq<Layer>, qty: int)
    requires qty > 0 && layers != []
    ensures var consume := Min(layers[0].qty, qty);
            var left := layers[0].qty - consume;
            Settle(layers, qty)
            == (if left <= 0 then [] else [layers[0].(qty := left)]) + Settle(layers[1..], qty - consume)
  {
  }

  lemma {:induction false} SettleAt(rows: seq<Layer>, i: nat, qty: int, reduced: seq<Layer>, kept: seq<Layer>)
    requires i < |rows| && qty > 0
    requires var left := rows[i].qty - Min(rows[i].qty, qty);
             kept == if left <= 0 then [] else [rows[i].(qty := left)]
    ensures reduced + Settle(rows[i..], qty)
            == (reduced + kept) + Settle(rows[i + 1..], qty - Min(rows[i].qty, qty))
  {
    SettleStep(rows[i..], qty);
    assert rows[i..][1..] == rows[i + 1..];
  }

  /** Once stock is not short any more the company's layers are stale. */
  function ClearResolved(layers: seq<Layer>, company: nat, qty: int): seq<Layer> {
    if qty < 0 then layers else WithoutCompany(layers, company)
  }

  function WithoutCompany(layers: seq<Layer>, company: nat): seq<Layer> {
    if layers == [] then []
    else (if layers[0].company == company then [] else [layers[0]]) + WithoutCompany(layers[1..], company)
  }

  lemma {:induction false} WithoutCompanyAt(layers: seq<Layer>, i: nat, company: nat, kept: seq<Layer>)
    requires i < |layers|
    ensures kept + WithoutCompany(layers[i..], company)
            == (if layers[i].company == company then kept else kept + [layers[i]])
               + WithoutCompany(layers[i + 1..], company)
  {
    assert layers[i..][1..] == layers[i + 1..];
  }

  /** The layer queue after a movement with outcome `o`. */
  function LayersAfter(layers: seq<Layer>, company: nat, o: Outcome): seq<Layer> {
    var settled := Settle(layers, o.settledQty);
    var extended := if o.shortage.Some?
                    then settled + [NewLayer(company, o.shortage.value.qty, o.shortage.value.rate)] else settled;
    ClearResolved(extended, company, o.qty)
  }

  function Adjusted(s: State, m: Movement): State {
    var o := OutcomeOf(s, m);
    State(Some(RowWritten(o)), LayersAfter(s.layers, m.company, o))
  }

  function AdjustResult(s: State, m: Movement): MovementResult {
    ResultOf(QtyOf(s), ValueOf(s), OutcomeOf(s, m), s.row.None?)
  }

  /** The rate a reversal leaves: the remaining average, else the cost memory. */
  function RateAfterReversal(newQty: int, newValue: int, rate: real): real {
    if (newQty > 0 && newValue > 0) || (newQty < 0 && newValue < 0) then PerUnit(newValue, newQty)
    else if rate < 0.0 then 0.0 else rate
  }

  function ReversalLayerRate(r: Reversal, rate: real): real {
    if rate > 0.0 then rate
    else if r.qty > 0 then
      var perUnit := PerUnit(Round(r.worth), r.qty);
      if perUnit < 0.0 then -perUnit else perUnit
    else 0.0
  }

  /** The company a reversal's layer is booked to; 0 stands for none. The row's
      own company is used when the caller names none. */
  function LayerCompany(r: Reversal, rowCompany: nat): nat {
    if r.company.Some? then r.company.value else rowCompany
  }

  function Reversed(s: State, r: Reversal, rowCompany: nat): State {
    if s.row.None? then s
    else
      var qty := s.row.value.qty - r.qty;
      var value := s.row.value.value - Round(r.worth);
      var rate := RateAfterReversal(qty, value, RateOf(s.row.value.rate));
      var shortage := IncrementalShortage(s.row.value.qty, qty);
      var company := LayerCompany(r, rowCompany);
      State(Some(Row(qty, StoredRate(rate), value)),
            if shortage > 0 && company != 0
            then s.layers + [NewLayer(company, shortage, ReversalLayerRate(r, rate))] else s.layers)
  }

  /** The stored row and layer table of one location and item. */
  class StockRecord {
    const rowCompany: nat
    var row: Option<Row>
    var layers: seq<Layer>

    function Contents(): State
      reads this
    {
      State(row, layers)
    }

    constructor (company: nat)
      ensures Contents() == EMPTY && rowCompany == company
    {
      rowCompany := company;
      row := None;
      layers := [];
    }

    method CreateNegativeLayer(company: nat, qty: int, rate: real)
      modifies this`layers
      ensures layers == old(layers) + [NewLayer(company, qty, rate)]
    {
      layers := layers + [NewLayer(company, qty, rate)];
    }

    /** Walks the rows selected at the start and deletes or reduces each in the
        table until the settled quantity is used up. */
    method SettleNegativeLayers(settleQty: int)
      modifies this`layers
      ensures layers == Settle(old(layers), settleQty)
    {
      var rows := layers;
      var remaining := settleQty;
      var i := 0;
      var reduced: seq<Layer> := [];
      while i < |rows| && remaining > 0
        invariant 0 <= i <= |rows|
        invariant layers == reduced + rows[i..]
        invariant reduced + Settle(rows[i..], remaining) == Settle(rows, settleQty)
        decreases |rows| - i
      {
        var consume := Min(rows[i].qty, remaining);
        var left := rows[i].qty - consume;
        var kept := if left <= 0 then [] else [rows[i].(qty := left)];
        SettleAt(rows, i, remaining, reduced, kept);
        remaining := remaining - consume;
        reduced := reduced + kept;
        i := i + 1;
        layers := reduced + rows[i..];
      }
    }

    method ClearResolvedNegativeLayers(company: nat, qty: int)
      modifies this`layers
      ensures layers == ClearResolved(old(layers), company, qty)
    {
      if qty < 0 { return; }
      var i := 0;
      var kept: seq<Layer> := [];
      while i < |layers|
        invariant 0 <= i <= |layers| && layers == old(layers)
        invariant kept + WithoutCompany(layers[i..], company) == WithoutCompany(layers, company)
      {
        WithoutCompanyAt(layers, i, company, kept);
        if layers[i].company != company { kept := kept + [layers[i]]; }
        i := i + 1;
      }
      assert layers[i..] == [] && kept + [] == kept;
      layers := kept;
    }

    /** adjustInventory with the row lock held. */
    method AdjustInventory(m: Movement) returns (result: MovementResult)
      modifies this
      ensures Contents() == Adjusted(old(Contents()), m)
      ensures result == AdjustResult(old(Contents()), m)
    {
      var created := row.None?;
      var prevQty := if row.Some? then row.value.qty else 0;
      var prevValue := if row.Some? then row.value.value else 0;
      var prevRate := RateBefore(Contents(), m);
      var outcome: Outcome;
      if m.delta > 0 {
        var worth := ReceiptWorth(prevQty, prevValue, prevRate, m);
        outcome := ReceiptOutcome(prevQty, prevValue, prevRate, m.delta, worth);
        if prevQty < 0 && outcome.settledQty > 0 {
          SettleNegativeLayers(outcome.settledQty);
        }
      } else if m.delta < 0 {
        outcome := IssueOutcome(prevQty, prevValue, prevRate, -m.delta);
      } else {
        outcome := Outcome(prevQty, prevValue, prevRate, 0, 0, None);
      }
      row := Some(RowWritten(outcome));
      if outcome.shortage.Some? {
        CreateNegativeLayer(m.company, outcome.shortage.value.qty, outcome.shortage.value.rate);
      }
      ClearResolvedNegativeLayers(m.company, outcome.qty);
      result := ResultOf(prevQty, prevValue, outcome, created);
    }

    /** A non-positive quantity is not a receipt: its value is ignored. */
    method ReceiveInventoryAtValue(qty: int, worth: real, company: nat) returns (result: MovementResult)
      modifies this
      ensures qty > 0 ==> result.receiptValue == Max(Round(worth), 0)
      ensures qty <= 0 ==> result.receiptValue == 0 && QtyOf(Contents()) == QtyOf(old(Contents())) + qty
      ensures Contents() ==
              Adjusted(old(Contents()), Movement(qty, company, None, if qty > 0 then Some(worth) else None))
    {
      result := AdjustInventory(Movement(qty, company, None, if qty > 0 then Some(worth) else None));
    }

    method ReverseInventoryByExactValue(r: Reversal) returns (result: Option<ReversalResult>)
      modifies this
      ensures Contents() == Reversed(old(Contents()), r, rowCompany)
      ensures result.None? <==> old(row).None?
      ensures result.Some? ==>
                && result.value.previousQty == old(QtyOf(Contents())) && result.value.newQty == QtyOf(Contents())
                && result.value.previousValue == old(ValueOf(Contents()))
                && result.value.newValue == ValueOf(Contents())
                && result.value.valueDelta == -Round(r.worth)
    {
      if row.None? { return None; }
      var reverseValue := Round(r.worth);
      var newQty := row.value.qty - r.qty;
      var newValue := row.value.value - reverseValue;
      var newRate := RateAfterReversal(newQty, newValue, RateOf(row.value.rate));
      var shortage := IncrementalShortage(row.value.qty, newQty);
      var company := LayerCompany(r, rowCompany);
      if shortage > 0 && company != 0 {
        CreateNegativeLayer(company, shortage, ReversalLayerRate(r, newRate));
      }
      result := Some(ReversalResult(row.value.qty, newQty, row.value.value, newValue, newValue - row.value.value));
      row := Some(Row(newQty, StoredRate(newRate), newValue));
    }
  }
}
