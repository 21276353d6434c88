/** The FIFO queue of shortage layers against the row's own shortage. */
module InventoryShortage {
  import opened Standard
  import opened InventoryCosting
  import opened InventoryLedger
  import opened InventoryRuns

  function LayerTotal(layers: seq<Layer>): int {
    if layers == [] then 0 else layers[0].qty + LayerTotal(layers[1..])
  }

  ghost predicate AllPositive(layers: seq<Layer>) {
    forall i :: 0 <= i < |layers| ==> layers[i].qty > 0
  }

  /** The layers say exactly how much the row is short. */
  ghost predicate LayersMatch(s: State) {
    AllPositive(s.layers) && LayerTotal(s.layers) == ShortageOf(QtyOf(s))
  }

  /** The layers account for at least the shortage; more of them are stale. */
  ghost predicate LayersCover(s: State) {
    AllPositive(s.layers) && LayerTotal(s.layers) >= ShortageOf(QtyOf(s))
  }

  lemma {:induction false} TotalOfAppended(layers: seq<Layer>, more: seq<Layer>)
    ensures LayerTotal(layers + more) == LayerTotal(layers) + LayerTotal(more)
  {
    if layers == [] {
      assert layers + more == more;
    } else {
      assert (layers + more)[1..] == layers[1..] + more;
      TotalOfAppended(layers[1..], more);
    }
  }

  lemma {:induction false} TotalPositive(layers: seq<Layer>)
    requires AllPositive(layers)
    ensures LayerTotal(layers) >= |layers|
  {
    if layers != [] { TotalPositive(layers[1..]); }
  }

  /** A settlement takes exactly what it settles, or everything there is. */
  lemma {:induction false} SettleTotal(layers: seq<Layer>, qty: int)
    requires AllPositive(layers) && qty >= 0
    ensures AllPositive(Settle(layers, qty))
    ensures LayerTotal(Settle(layers, qty)) == Max(LayerTotal(layers) - qty, 0)
  {
    TotalPositive(layers);
    if qty > 0 && layers != [] {
      var rest := layers[1..];
      SettleStep(layers, qty);
      TotalPositive(rest);
      if layers[0].qty > qty {
        assert Settle(rest, 0) == rest;
        ReducedHead(layers[0].(qty := layers[0].qty - qty), rest);
      } else {
        SettleTotal(rest, qty - layers[0].qty);
        assert [] + Settle(rest, qty - layers[0].qty) == Settle(rest, qty - layers[0].qty);
      }
    }
  }

  lemma {:induction false} ReducedHead(head: Layer, rest: seq<Layer>)
    requires head.qty > 0 && AllPositive(rest)
    ensures AllPositive([head] + rest) && LayerTotal([head] + rest) == head.qty + LayerTotal(rest)
  {
    assert ([head] + rest)[1..] == rest;
  }

  /** What a settlement leaves: the old queue from some layer on, with at most
      that layer reduced. */
  ghost predicate SuffixWithReducedHead(after: seq<Layer>, before: seq<Layer>, k: nat, head: int) {
    && k <= |before|
    && if k == |before| then after == []
       else 0 < head <= before[k].qty && after == [before[k].(qty := head)] + before[k + 1..]
  }

  lemma {:induction false} SettleLeavesSuffix(layers: seq<Layer>, qty: int) returns (k: nat, head: int)
    requires AllPositive(layers)
    ensures SuffixWithReducedHead(Settle(layers, qty), layers, k, head)
  {
    if layers == [] {
      k, head := 0, 0;
    } else if qty <= 0 {
      k, head := 0, layers[0].qty;
      assert layers == [layers[0]] + layers[1..];
    } else {
      var consume := Min(layers[0].qty, qty);
      var left := layers[0].qty - consume;
      if left > 0 {
        k, head := 0, left;
        assert Settle(layers[1..], 0) == layers[1..];
      } else {
        k, head := SettleLeavesSuffix(layers[1..], qty - consume);
        k := k + 1;
      }
    }
  }

  lemma {:induction false} ClearKeepsPositive(layers: seq<Layer>, company: nat)
    requires AllPositive(layers)
    ensures AllPositive(WithoutCompany(layers, company))
    ensures forall i :: 0 <= i < |WithoutCompany(layers, company)| ==>
            WithoutCompany(layers, company)[i].company != company
  {
    if layers != [] { ClearKeepsPositive(layers[1..], company); }
  }

  lemma {:induction false} OutcomeQuantities(s: State, m: Movement)
    ensures var o := OutcomeOf(s, m);
            && o.qty == QtyOf(s) + m.delta
            && o.settledQty == (if m.delta > 0 then Min(ShortageOf(QtyOf(s)), m.delta) else 0)
            && (if m.delta < 0 && IncrementalShortage(QtyOf(s), o.qty) > 0
                then o.shortage.Some? && o.shortage.value.qty == IncrementalShortage(QtyOf(s), o.qty)
                else o.shortage.None?)
  {
  }

  /** The queue after a movement, before stale layers are cleared. */
  lemma {:induction false} QueueTotal(layers: seq<Layer>, s: State, m: Movement)
    requires AllPositive(layers) && LayerTotal(layers) >= ShortageOf(QtyOf(s))
    ensures var o := OutcomeOf(s, m);
            var queue := Settle(layers, o.settledQty)
                         + if o.shortage.Some?
                           then [NewLayer(m.company, o.shortage.value.qty, o.shortage.value.rate)] else [];
            && AllPositive(queue)
            && LayerTotal(queue) == LayerTotal(layers) + ShortageOf(o.qty) - ShortageOf(QtyOf(s))
  {
    OutcomeQuantities(s, m);
    var o := OutcomeOf(s, m);
    SettleTotal(layers, o.settledQty);
    if o.shortage.Some? {
      var added := [NewLayer(m.company, o.shortage.value.qty, o.shortage.value.rate)];
      TotalOfAppended(Settle(layers, o.settledQty), added);
      assert LayerTotal(added) == added[0].qty + LayerTotal(added[1..]);
    } else {
      assert Settle(layers, o.settledQty) + [] == Settle(layers, o.settledQty);
    }
  }

  /** A movement by any company keeps the layers equal to the shortage, so the
      clearing of stale layers never finds one. */
  lemma {:induction false} MovementKeepsMatch(s: State, m: Movement)
    requires LayersMatch(s)
    ensures LayersMatch(Adjusted(s, m))
  {
    QueueTotal(s.layers, s, m);
    OutcomeQuantities(s, m);
    var o := OutcomeOf(s, m);
    if o.qty >= 0 {
      var settled := Settle(s.layers, o.settledQty);
      assert settled + [] == settled;
      TotalPositive(settled);
    } else {
      assert Settle(s.layers, o.settledQty) + [] == Settle(s.layers, o.settledQty);
    }
  }

  lemma {:induction false} MovementKeepsCover(s: State, m: Movement)
    requires LayersCover(s)
    ensures LayersCover(Adjusted(s, m))
  {
    QueueTotal(s.layers, s, m);
    OutcomeQuantities(s, m);
    var o := OutcomeOf(s, m);
    var settled := Settle(s.layers, o.settledQty);
    assert settled + [] == settled;
    if o.qty >= 0 {
      ClearKeepsPositive(settled, m.company);
      TotalPositive(WithoutCompany(settled, m.company));
    }
  }

  lemma {:induction false} NoneLeftIff(layers: seq<Layer>, company: nat)
    ensures WithoutCompany(layers, company) == [] <==> forall i :: 0 <= i < |layers| ==> layers[i].company == company
  {
    if layers != [] {
      NoneLeftIff(layers[1..], company);
      assert layers == [layers[0]] + layers[1..];
    }
  }

  /** What is left of the queue once the movement has settled its part belongs to
      the company that moves the stock. */
  ghost predicate LeftoversAreOwn(s: State, m: Movement) {
    var left := Settle(s.layers, OutcomeOf(s, m).settledQty);
    forall i :: 0 <= i < |left| ==> left[i].company == m.company
  }

  /** From layers that cover the shortage, stale ones among them, a movement ends with
      layers equal to it exactly when either the row stays short and there were none
      stale, or all that is left over belongs to the moving company. */
  lemma {:induction false} MovementRestoresMatchIff(s: State, m: Movement)
    requires LayersCover(s)
    ensures LayersMatch(Adjusted(s, m)) <==>
            if QtyOf(s) + m.delta < 0 then LayersMatch(s) else LeftoversAreOwn(s, m)
  {
    QueueTotal(s.layers, s, m);
    OutcomeQuantities(s, m);
    var settled := Settle(s.layers, OutcomeOf(s, m).settledQty);
    assert settled + [] == settled;
    if QtyOf(s) + m.delta >= 0 {
      SettleTotal(s.layers, OutcomeOf(s, m).settledQty);
      ClearKeepsPositive(settled, m.company);
      TotalPositive(WithoutCompany(settled, m.company));
      NoneLeftIff(settled, m.company);
    }
  }

  lemma {:induction false} ReversalTotal(s: State, r: Reversal, rowCompany: nat)
    requires s.row.Some? && AllPositive(s.layers)
    ensures var after := Reversed(s, r, rowCompany);
            var added := IncrementalShortage(QtyOf(s), QtyOf(after));
            && AllPositive(after.layers)
            && LayerTotal(after.layers)
               == LayerTotal(s.layers) + if LayerCompany(r, rowCompany) != 0 then added else 0
  {
    var after := Reversed(s, r, rowCompany);
    if |after.layers| > |s.layers| {
      var added := after.layers[|s.layers|..];
      assert after.layers == s.layers + added;
      TotalOfAppended(s.layers, added);
      assert LayerTotal(added) == added[0].qty + LayerTotal(added[1..]);
    }
  }

  /** A reversal keeps the layers equal to the shortage exactly when it does not
      return units to a short row, and does not take the row (further) short
      without a company to book the layer to. */
  lemma {:induction false} ReversalKeepsMatchIff(s: State, r: Reversal, rowCompany: nat)
    requires s.row.Some? && LayersMatch(s)
    ensures LayersMatch(Reversed(s, r, rowCompany)) <==>
            && !(r.qty < 0 && QtyOf(s) < 0)
            && (LayerCompany(r, rowCompany) != 0 || r.qty <= Max(QtyOf(s), 0))
  {
    ReversalTotal(s, r, rowCompany);
  }

  lemma {:induction false} ReversalKeepsCover(s: State, r: Reversal, rowCompany: nat)
    requires LayersCover(s) && LayerCompany(r, rowCompany) != 0
    ensures LayersCover(Reversed(s, r, rowCompany))
  {
    if s.row.Some? { ReversalTotal(s, r, rowCompany); }
  }

  /** Layers have a company to be booked to throughout the run. */
  ghost predicate CompaniesKnown(ops: seq<Operation>, rowCompany: nat) {
    forall i :: 0 <= i < |ops| && ops[i].Reverse? ==> LayerCompany(ops[i].r, rowCompany) != 0
  }

  ghost predicate ReversalsTakeOut(ops: seq<Operation>) {
    forall i :: 0 <= i < |ops| && ops[i].Reverse? ==> ops[i].r.qty >= 0
  }

  /** Over every run of movements and reversals of non-negative quantity the
      layers sum to the shortage. */
  lemma {:induction false} RunKeepsMatch(s: State, ops: seq<Operation>, rowCompany: nat)
    requires LayersMatch(s) && CompaniesKnown(ops, rowCompany) && ReversalsTakeOut(ops)
    ensures LayersMatch(Run(s, ops, rowCompany))
    decreases |ops|
  {
    if ops != [] {
      match ops[0]
      case Move(m) => MovementKeepsMatch(s, m);
      case Reverse(r) => if s.row.Some? { ReversalKeepsMatchIff(s, r, rowCompany); }
    }
    if ops != [] { RunKeepsMatch(After(s, ops[0], rowCompany), ops[1..], rowCompany); }
  }

  /** With reversals of any sign the layers never fall below the shortage. */
  lemma {:induction false} RunKeepsCover(s: State, ops: seq<Operation>, rowCompany: nat)
    requires LayersCover(s) && CompaniesKnown(ops, rowCompany)
    ensures LayersCover(Run(s, ops, rowCompany))
    decreases |ops|
  {
    if ops != [] {
      match ops[0]
      case Move(m) => MovementKeepsCover(s, m);
      case Reverse(r) => ReversalKeepsCover(s, r, rowCompany);
    }
    if ops != [] { RunKeepsCover(After(s, ops[0], rowCompany), ops[1..], rowCompany); }
  }

  /** Stale layers are cleared for the company that moves the stock, and for no
      other: a layer booked by another company survives the row's recovery. */
  lemma {:induction false} OtherCompanysLayerSurvives(qty: int, worth: real)
    requires qty > 0
    ensures var short := State(Some(Row(-qty, 0, 0)), [Layer(2, qty, 0)]);
            var restored := Reversed(short, Reversal(-qty, 0.0, None), 1);
            var received := Adjusted(restored, Movement(qty, 1, None, Some(worth)));
            && QtyOf(restored) == 0 && QtyOf(received) == qty && received.layers == [Layer(2, qty, 0)]
            && Adjusted(restored, Movement(qty, 2, None, Some(worth))).layers == []
  {
    var layers := [Layer(2, qty, 0)];
    NoneLeftIff(layers, 2);
    assert layers[1..] == [];
    assert WithoutCompany([], 1) == [];
    assert WithoutCompany(layers, 1) == [layers[0]] + WithoutCompany(layers[1..], 1);
    var restored := Reversed(State(Some(Row(-qty, 0, 0)), layers), Reversal(-qty, 0.0, None), 1);
    assert restored.layers == layers && QtyOf(restored) == 0;
    OutcomeQuantities(restored, Movement(qty, 1, None, Some(worth)));
    OutcomeQuantities(restored, Movement(qty, 2, None, Some(worth)));
  }
}
