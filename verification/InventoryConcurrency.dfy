/** Concurrent calls of adjustInventory on one location and item, each in its own
    read-committed transaction: SELECT .. FOR UPDATE, then either the update of the
    locked row or INSERT .. ON CONFLICT DO NOTHING with one more try. */
module InventoryConcurrency {
  import opened Standard
  import opened InventoryCosting
  import opened InventoryLedger

  /** Where a call stands. From Holding to Done its transaction owns the row. */
  datatype Phase =
    | Ready
    | SawNoRow
    | Holding(found: Row)
    | Settled(o: Outcome)
    | Written(o: Outcome)
    | Done
    | Committed
    | Aborted

  /** The tables as committed, the transaction that owns the row and what it has
      written so far, and for each call its phase and retries. `order` records the
      commits. */
  datatype System = System(
    committed: State, owner: Option<nat>, pending: State,
    phases: seq<Phase>, retries: seq<nat>, order: seq<nat>)

  datatype Action =
    | Select(call: nat)
    | SettleLayers(call: nat)
    | UpdateRow(call: nat)
    | InsertRow(call: nat)
    | RecordLayers(call: nat)
    | Commit(call: nat)
    | Abort(call: nat)

  function Start(s: State, calls: seq<Movement>): System {
    System(s, None, s, seq(|calls|, i => Ready), seq(|calls|, i => 0), [])
  }

  predicate Finished(p: Phase) { p.Committed? || p.Aborted? }

  predicate Owns(p: Phase) { p.Holding? || p.Settled? || p.Written? || p.Done? }

  /** The row as one transaction's SELECT or INSERT meets it: a committed row is
      waited for while owned; an uncommitted insert is invisible to SELECT and
      waited for by INSERT. */
  predicate Enabled(calls: seq<Movement>, s: System, a: Action) {
    && a.call < |calls| == |s.phases| == |s.retries|
    && var phase := s.phases[a.call];
       match a
       case Select(_) => phase.Ready? && (s.committed.row.None? || s.owner.None?)
       case SettleLayers(_) => phase.Holding?
       case UpdateRow(_) => phase.Settled?
       case InsertRow(_) => phase.SawNoRow? && (s.committed.row.Some? || s.owner.None?)
       case RecordLayers(_) => phase.Written?
       case Commit(_) => phase.Done?
       case Abort(_) => !Finished(phase)
  }

  function Step(calls: seq<Movement>, s: System, a: Action): System
    requires Enabled(calls, s, a)
  {
    var (t, m) := (a.call, calls[a.call]);
    match a
    case Select(_) =>
      if s.committed.row.None? then s.(phases := s.phases[t := SawNoRow])
      else s.(owner := Some(t), pending := s.committed, phases := s.phases[t := Holding(s.committed.row.value)])
    case SettleLayers(_) =>
      var o := OutcomeOf(State(Some(s.phases[t].found), []), m);
      var layers := if o.settledQty > 0 then Settle(s.pending.layers, o.settledQty) else s.pending.layers;
      s.(pending := s.pending.(layers := layers), phases := s.phases[t := Settled(o)])
    case UpdateRow(_) =>
      var o := s.phases[t].o;
      s.(pending := s.pending.(row := Some(RowWritten(o))), phases := s.phases[t := Written(o)])
    case InsertRow(_) =>
      if s.committed.row.Some? then
        s.(phases := s.phases[t := Ready], retries := s.retries[t := s.retries[t] + 1])
      else
        var o := OutcomeOf(State(None, []), m);
        s.(owner := Some(t), pending := State(Some(RowWritten(o)), s.committed.layers),
           phases := s.phases[t := Written(o)])
    case RecordLayers(_) =>
      var o := s.phases[t].o;
      var extended := if o.shortage.Some?
                      then s.pending.layers + [NewLayer(m.company, o.shortage.value.qty, o.shortage.value.rate)]
                      else s.pending.layers;
      s.(pending := s.pending.(layers := ClearResolved(extended, m.company, o.qty)), phases := s.phases[t := Done])
    case Commit(_) =>
      s.(committed := s.pending, owner := None, phases := s.phases[t := Committed], order := s.order + [t])
    case Abort(_) =>
      s.(owner := if Owns(s.phases[t]) then None else s.owner, phases := s.phases[t := Aborted])
  }

  ghost predicate Runs(calls: seq<Movement>, s: System, actions: seq<Action>)
    decreases |actions|
  {
    actions != [] ==> Enabled(calls, s, actions[0]) && Runs(calls, Step(calls, s, actions[0]), actions[1..])
  }

  function EndOf(calls: seq<Movement>, s: System, actions: seq<Action>): System
    requires Runs(calls, s, actions)
    decreases |actions|
  {
    if actions == [] then s else EndOf(calls, Step(calls, s, actions[0]), actions[1..])
  }

  /** One call after another, each whole. */
  function Serial(start: State, calls: seq<Movement>, order: seq<nat>): State
    requires forall i :: 0 <= i < |order| ==> order[i] < |calls|
  {
    if order == [] then start
    else Adjusted(Serial(start, calls, order[..|order| - 1]), calls[order[|order| - 1]])
  }

  /** What the owner has written so far, in terms of the committed tables. */
  ghost predicate OwnerProgress(committed: State, pending: State, m: Movement, p: Phase) {
    match p
    case Holding(found) => committed.row == Some(found) && pending == committed
    case Settled(o) =>
      committed.row.Some? && o == OutcomeOf(committed, m)
      && pending == State(committed.row, Settle(committed.layers, o.settledQty))
    case Written(o) =>
      o == OutcomeOf(committed, m)
      && pending == State(Some(RowWritten(o)), Settle(committed.layers, o.settledQty))
    case Done => pending == Adjusted(committed, m)
    case _ => true
  }

  /** Bookkeeping of the calls: one owner, each commit recorded once, and no
      second retry because a committed row never goes away. */
  ghost predicate Ordered(calls: seq<Movement>, s: System) {
    && |calls| == |s.phases| == |s.retries|
    && (forall i :: 0 <= i < |s.order| ==> s.order[i] < |calls|)
    && Distinct(s.order)
    && (forall t: nat :: t < |calls| ==> (t in s.order <==> s.phases[t].Committed?))
    && (forall t: nat :: t < |calls| ==> (s.owner == Some(t) <==> Owns(s.phases[t])))
    && (s.owner.Some? ==> s.owner.value < |calls|)
    && (forall t: nat :: t < |calls| ==> s.retries[t] <= 1)
    && (forall t: nat :: t < |calls| && s.retries[t] == 1 ==> s.committed.row.Some? && !s.phases[t].SawNoRow?)
  }

  ghost predicate Sound(start: State, calls: seq<Movement>, s: System) {
    && Ordered(calls, s)
    && s.committed == Serial(start, calls, s.order)
    && (s.owner.Some? ==>
          OwnerProgress(s.committed, s.pending, calls[s.owner.value], s.phases[s.owner.value]))
  }

  /** The outcome depends on the row alone. */
  lemma {:induction false} OutcomeIgnoresLayers(s: State, m: Movement)
    ensures OutcomeOf(State(s.row, []), m) == OutcomeOf(s, m)
    ensures s.row.None? ==> OutcomeOf(s, m).settledQty == 0
  {
  }

  lemma {:induction false} StartIsSound(start: State, calls: seq<Movement>)
    ensures Sound(start, calls, Start(start, calls))
  {
  }

  lemma {:induction false} SerialAppend(start: State, calls: seq<Movement>, order: seq<nat>, t: nat)
    requires (forall i :: 0 <= i < |order| ==> order[i] < |calls|) && t < |calls|
    ensures forall i :: 0 <= i < |order + [t]| ==> (order + [t])[i] < |calls|
    ensures Serial(start, calls, order + [t]) == Adjusted(Serial(start, calls, order), calls[t])
  {
    assert (order + [t])[..|order|] == order;
  }

  lemma {:induction false} StepKeepsOrder(calls: seq<Movement>, s: System, a: Action)
    requires Ordered(calls, s) && Enabled(calls, s, a)
    requires a.Commit? ==> s.pending.row.Some?
    ensures Ordered(calls, Step(calls, s, a))
  {
    var t := a.call;
    if a.Commit? {
      assert t !in s.order;
      assert forall u :: u in s.order + [t] <==> u in s.order || u == t;
    }
  }

  /** A step of the owner makes its next write; nobody else's step touches it. */
  lemma {:induction false} StepKeepsProgress(calls: seq<Movement>, s: System, a: Action)
    requires Ordered(calls, s) && Enabled(calls, s, a)
    requires s.owner.Some? ==>
               OwnerProgress(s.committed, s.pending, calls[s.owner.value], s.phases[s.owner.value])
    ensures var next := Step(calls, s, a);
            next.owner.Some? ==>
              OwnerProgress(next.committed, next.pending, calls[next.owner.value], next.phases[next.owner.value])
  {
    var t := a.call;
    OutcomeIgnoresLayers(s.committed, calls[t]);
    match a
    case Select(_) =>
    case SettleLayers(_) => assert s.owner == Some(t);
    case UpdateRow(_) => assert s.owner == Some(t);
    case InsertRow(_) =>
    case RecordLayers(_) => assert s.owner == Some(t);
    case Commit(_) =>
    case Abort(_) =>
  }

  lemma {:induction false} StepIsSound(start: State, calls: seq<Movement>, s: System, a: Action)
    requires Sound(start, calls, s) && Enabled(calls, s, a)
    ensures Sound(start, calls, Step(calls, s, a))
  {
    StepKeepsOrder(calls, s, a);
    StepKeepsProgress(calls, s, a);
    if a.Commit? {
      assert s.owner == Some(a.call);
      SerialAppend(start, calls, s.order, a.call);
    }
  }

  /** Every interleaving: what is committed is the serial result of the committed
      calls in commit order, each once, and no call has retried twice. */
  lemma {:induction false} RunIsSound(start: State, calls: seq<Movement>, s: System, actions: seq<Action>)
    requires Sound(start, calls, s) && Runs(calls, s, actions)
    ensures Sound(start, calls, EndOf(calls, s, actions))
    decreases |actions|
  {
    if actions != [] {
      StepIsSound(start, calls, s, actions[0]);
      RunIsSound(start, calls, Step(calls, s, actions[0]), actions[1..]);
    }
  }

  /** Some call can always move on by itself until all have finished. */
  lemma {:induction false} NoDeadlock(start: State, calls: seq<Movement>, s: System) returns (a: Action)
    requires Sound(start, calls, s)
    requires exists t: nat :: t < |calls| && !Finished(s.phases[t])
    ensures Enabled(calls, s, a) && !a.Abort?
  {
    var t: nat :| t < |calls| && !Finished(s.phases[t]);
    if s.owner.Some? { t := s.owner.value; }
    a := match s.phases[t]
         case Ready => Select(t)
         case SawNoRow => InsertRow(t)
         case Holding(_) => SettleLayers(t)
         case Settled(_) => UpdateRow(t)
         case Written(_) => RecordLayers(t)
         case _ => Commit(t);
  }

  function Rank(p: Phase, retries: nat): nat {
    match p
    case Ready => if retries == 0 then 0 else 2
    case SawNoRow => 1
    case Holding(_) => 3
    case Settled(_) => 4
    case Written(_) => 5
    case Done => 6
    case Committed => 7
    case Aborted => 7
  }

  function Progress(phases: seq<Phase>, retries: seq<nat>): nat
    requires |phases| == |retries|
  {
    if phases == [] then 0 else Rank(phases[0], retries[0]) + Progress(phases[1..], retries[1..])
  }

  lemma {:induction false} ProgressBound(phases: seq<Phase>, retries: seq<nat>)
    requires |phases| == |retries|
    ensures Progress(phases, retries) <= 7 * |phases|
  {
    if phases != [] { ProgressBound(phases[1..], retries[1..]); }
  }

  lemma {:induction false} ProgressGrows(ps: seq<Phase>, rs: seq<nat>, ps': seq<Phase>, rs': seq<nat>, t: nat)
    requires |ps| == |rs| == |ps'| == |rs'| && t < |ps|
    requires forall i :: 0 <= i < |ps| && i != t ==> ps'[i] == ps[i] && rs'[i] == rs[i]
    requires Rank(ps'[t], rs'[t]) > Rank(ps[t], rs[t])
    ensures Progress(ps', rs') > Progress(ps, rs)
  {
    if t == 0 {
      assert ps[1..] == ps'[1..] && rs[1..] == rs'[1..];
    } else {
      ProgressGrows(ps[1..], rs[1..], ps'[1..], rs'[1..], t - 1);
    }
  }

  /** A step moves its own call up in rank and no other call at all. */
  lemma {:induction false} StepMovesOne(calls: seq<Movement>, s: System, a: Action)
    requires Ordered(calls, s) && Enabled(calls, s, a)
    ensures var next := Step(calls, s, a);
            && |next.phases| == |next.retries| == |s.phases|
            && (forall i :: 0 <= i < |s.phases| && i != a.call ==>
                  next.phases[i] == s.phases[i] && next.retries[i] == s.retries[i])
            && Rank(next.phases[a.call], next.retries[a.call]) > Rank(s.phases[a.call], s.retries[a.call])
  {
    assert s.retries[a.call] <= 1;
  }

  lemma {:induction false} StepProgresses(calls: seq<Movement>, s: System, a: Action)
    requires Ordered(calls, s) && Enabled(calls, s, a)
    ensures var next := Step(calls, s, a);
            |next.phases| == |next.retries| && Progress(next.phases, next.retries) > Progress(s.phases, s.retries)
  {
    var next := Step(calls, s, a);
    StepMovesOne(calls, s, a);
    ProgressGrows(s.phases, s.retries, next.phases, next.retries, a.call);
  }

  /** Every step moves its call forward for good, so a run of n calls ends within
      7n steps; with NoDeadlock, every maximal run finishes every call. */
  lemma {:induction false} RunsAreShort(start: State, calls: seq<Movement>, s: System, actions: seq<Action>)
    requires Sound(start, calls, s) && Runs(calls, s, actions)
    ensures |actions| + Progress(s.phases, s.retries) <= 7 * |calls|
    decreases |actions|
  {
    ProgressBound(s.phases, s.retries);
    if actions != [] {
      StepIsSound(start, calls, s, actions[0]);
      StepProgresses(calls, s, actions[0]);
      RunsAreShort(start, calls, Step(calls, s, actions[0]), actions[1..]);
    }
  }

  /** First movements on a missing row: any interleaving that runs every call to
      the end without a rollback leaves the tables as if the calls had run one
      after another in some order, each exactly once, after at most one retry. */
  lemma {:induction false} ConcurrentFirstMovements(calls: seq<Movement>, actions: seq<Action>)
    requires Runs(calls, Start(EMPTY, calls), actions)
    requires forall p :: p in EndOf(calls, Start(EMPTY, calls), actions).phases ==> p.Committed?
    ensures var end := EndOf(calls, Start(EMPTY, calls), actions);
            && Sound(EMPTY, calls, end)
            && |end.order| == |calls|
            && (forall t: nat :: t < |calls| ==> t in end.order)
            && (forall n :: n in end.retries ==> n <= 1)
            && end.committed == Serial(EMPTY, calls, end.order)
            && |actions| <= 7 * |calls|
  {
    StartIsSound(EMPTY, calls);
    RunIsSound(EMPTY, calls, Start(EMPTY, calls), actions);
    RunsAreShort(EMPTY, calls, Start(EMPTY, calls), actions);
    var end := EndOf(calls, Start(EMPTY, calls), actions);
    EachOnce(end.order, |calls|);
  }

  lemma {:induction false} EachOnce(order: seq<nat>, n: nat)
    requires Distinct(order)
    requires forall i :: 0 <= i < |order| ==> order[i] < n
    requires forall t: nat :: t < n ==> t in order
    ensures |order| == n
  {
    ElementsAreMembers(order);
    DistinctSize(order);
    BelowIsRange(n);
    assert Elements(order) == Below(n);
  }

  function Below(n: nat): set<nat> {
    if n == 0 then {} else Below(n - 1) + {n - 1}
  }

  lemma {:induction false} BelowIsRange(n: nat)
    ensures forall t: nat :: t in Below(n) <==> t < n
    ensures |Below(n)| == n
  {
    if n > 0 { BelowIsRange(n - 1); }
  }
}
