/** Packing lines into containers of a fixed capacity, filling each before the next. */
module ContainerPacking {
  import opened Standard
  import opened ContainerPlanner

  function Bales(lines: seq<Line>): int { SumBy(LineQty(), lines) }

  function BalesOf(lines: seq<Line>, code: string): int { SumBy(LineQtyOf(code), lines) }

  function PackBales(): seq<Line> -> int { (pack: seq<Line>) => Bales(pack) }

  function PackBalesOf(code: string): seq<Line> -> int { (pack: seq<Line>) => BalesOf(pack, code) }

  /** One line an article, none empty. */
  ghost predicate Tidy(lines: seq<Line>) {
    && (forall i :: 0 <= i < |lines| ==> lines[i].qty > 0)
    && (forall i, j :: 0 <= i < j < |lines| ==> lines[i].code != lines[j].code)
  }

  /** Adds to the line of the article, or opens one at the end. */
  function Merged(lines: seq<Line>, code: string, name: string, qty: int): seq<Line> {
    if lines == [] then [Line(code, name, qty)]
    else if lines[0].code == code then [lines[0].(qty := lines[0].qty + qty)] + lines[1..]
    else [lines[0]] + Merged(lines[1..], code, name, qty)
  }

  lemma {:induction false} MergedQuantities(lines: seq<Line>, code: string, name: string, qty: int, c: string)
    requires Tidy(lines) && qty > 0
    ensures Bales(Merged(lines, code, name, qty)) == Bales(lines) + qty
    ensures BalesOf(Merged(lines, code, name, qty), c) == BalesOf(lines, c) + if c == code then qty else 0
  {
    if lines == [] {
      assert [Line(code, name, qty)][1..] == [];
    } else if lines[0].code == code {
      assert ([lines[0].(qty := lines[0].qty + qty)] + lines[1..])[1..] == lines[1..];
    } else {
      MergedQuantities(lines[1..], code, name, qty, c);
      var rest := Merged(lines[1..], code, name, qty);
      assert ([lines[0]] + rest)[1..] == rest;
    }
  }

  /** A merge keeps the lines where they are, or adds one at the end. */
  lemma {:induction false} MergedShape(lines: seq<Line>, code: string, name: string, qty: int)
    requires Tidy(lines) && qty > 0
    ensures var merged := Merged(lines, code, name, qty);
            && |lines| <= |merged| <= |lines| + 1
            && (forall i :: 0 <= i < |lines| ==>
                  merged[i].code == lines[i].code && merged[i].name == lines[i].name && merged[i].qty >= lines[i].qty)
            && (|merged| > |lines| ==>
                  && merged[|lines|] == Line(code, name, qty)
                  && forall i :: 0 <= i < |lines| ==> lines[i].code != code)
  {
    if lines != [] && lines[0].code != code { MergedShape(lines[1..], code, name, qty); }
  }

  lemma {:induction false} MergedHolds(lines: seq<Line>, code: string, name: string, qty: int)
    requires Tidy(lines) && qty > 0
    ensures Tidy(Merged(lines, code, name, qty)) && Merged(lines, code, name, qty) != []
    ensures Bales(Merged(lines, code, name, qty)) == Bales(lines) + qty
    ensures forall c :: BalesOf(Merged(lines, code, name, qty), c) == BalesOf(lines, c) + if c == code then qty else 0
  {
    forall c {
      MergedQuantities(lines, code, name, qty, c);
    }
    MergedQuantities(lines, code, name, qty, code);
    MergedShape(lines, code, name, qty);
  }

  lemma {:induction false} TidyBales(lines: seq<Line>)
    requires Tidy(lines)
    ensures Bales(lines) >= |lines|
  {
    if lines != [] { TidyBales(lines[1..]); }
  }

  /** The bales of the lines one by one, in order. */
  function Unpacked(lines: seq<Line>): seq<Line> {
    if lines == [] then []
    else
      var n := |lines| - 1;
      Unpacked(lines[..n]) + Repeated(lines[n].code, lines[n].name, NonNegative(lines[n].qty))
  }

  function Repeated(code: string, name: string, qty: nat): seq<Line> {
    if qty == 0 then [] else Repeated(code, name, qty - 1) + [Line(code, name, 1)]
  }

  function AllUnpacked(packs: seq<seq<Line>>): seq<Line> {
    if packs == [] then [] else AllUnpacked(packs[..|packs| - 1]) + Unpacked(packs[|packs| - 1])
  }

  lemma {:induction false} RepeatedMore(code: string, name: string, a: nat, b: nat)
    ensures Repeated(code, name, a + b) == Repeated(code, name, a) + Repeated(code, name, b)
    ensures |Repeated(code, name, b)| == b
  {
    if b > 0 {
      RepeatedMore(code, name, a, b - 1);
      assert Repeated(code, name, a + b) == Repeated(code, name, a + (b - 1)) + [Line(code, name, 1)];
    }
  }

  lemma {:induction false} UnpackedNext(lines: seq<Line>, line: Line)
    ensures Unpacked(lines + [line]) == Unpacked(lines) + Repeated(line.code, line.name, NonNegative(line.qty))
  {
    assert (lines + [line])[..|lines|] == lines;
  }

  lemma {:induction false} AllUnpackedNext(packs: seq<seq<Line>>, pack: seq<Line>)
    ensures AllUnpacked(packs + [pack]) == AllUnpacked(packs) + Unpacked(pack)
  {
    assert (packs + [pack])[..|packs|] == packs;
  }

  lemma {:induction false} UnpackedSize(lines: seq<Line>)
    ensures |Unpacked(lines)| == Bales(lines)
  {
    if lines != [] {
      var n := |lines| - 1;
      assert lines == lines[..n] + [lines[n]];
      UnpackedSize(lines[..n]);
      LineAppended(lines[..n], lines[n]);
      RepeatedMore(lines[n].code, lines[n].name, 0, NonNegative(lines[n].qty));
    }
  }

  /** The article is new to the lines, or theirs is the last of them, under the same name. */
  ghost predicate AtEnd(lines: seq<Line>, code: string, name: string) {
    forall i :: 0 <= i < |lines| && lines[i].code == code ==> i == |lines| - 1 && lines[i].name == name
  }

  lemma {:induction false} MergedAtEnd(lines: seq<Line>, code: string, name: string, qty: nat)
    requires AtEnd(lines, code, name) && qty > 0
    ensures Merged(lines, code, name, qty)
            == if lines != [] && lines[|lines| - 1].code == code
               then lines[..|lines| - 1] + [lines[|lines| - 1].(qty := lines[|lines| - 1].qty + qty)]
               else lines + [Line(code, name, qty)]
    ensures AtEnd(Merged(lines, code, name, qty), code, name)
  {
    if lines != [] && lines[0].code != code {
      MergedAtEnd(lines[1..], code, name, qty);
    }
  }

  /** A merge at the end adds the bales at the end. */
  lemma {:induction false} MergedUnpacked(lines: seq<Line>, code: string, name: string, qty: nat)
    requires AtEnd(lines, code, name) && qty > 0 && Tidy(lines)
    ensures Unpacked(Merged(lines, code, name, qty)) == Unpacked(lines) + Repeated(code, name, qty)
  {
    MergedAtEnd(lines, code, name, qty);
    if lines != [] && lines[|lines| - 1].code == code {
      var n := |lines| - 1;
      var last := lines[n];
      assert lines == lines[..n] + [last];
      UnpackedNext(lines[..n], last);
      UnpackedNext(lines[..n], last.(qty := last.qty + qty));
      RepeatedMore(code, name, last.qty, qty);
      Regroup(Unpacked(lines[..n]), Repeated(code, name, last.qty), Repeated(code, name, qty));
    } else {
      UnpackedNext(lines, Line(code, name, qty));
    }
  }

  /** Every container but the last exactly full, the last not empty and not over. */
  ghost predicate FullButLast(packed: seq<seq<Line>>, capacity: int) {
    && (forall k :: 0 <= k < |packed| - 1 ==> Bales(packed[k]) == capacity)
    && (packed != [] ==> 0 < Bales(packed[|packed| - 1]) <= capacity)
  }

  lemma {:induction false} LineAppended(lines: seq<Line>, line: Line)
    ensures forall code :: BalesOf(lines + [line], code)
                           == BalesOf(lines, code) + if code == line.code then NonNegative(line.qty) else 0
    ensures Bales(lines + [line]) == Bales(lines) + NonNegative(line.qty)
  {
    forall code
      ensures BalesOf(lines + [line], code) == BalesOf(lines, code)
              + if code == line.code then NonNegative(line.qty) else 0
    {
      SumByAppend(LineQtyOf(code), lines, [line]);
      SumByOne(LineQtyOf(code), line);
    }
    SumByAppend(LineQty(), lines, [line]);
    SumByOne(LineQty(), line);
  }

  lemma {:induction false} PackAppended(packed: seq<seq<Line>>, pack: seq<Line>)
    ensures forall code :: SumBy(PackBalesOf(code), packed + [pack])
                           == SumBy(PackBalesOf(code), packed) + BalesOf(pack, code)
    ensures SumBy(PackBales(), packed + [pack]) == SumBy(PackBales(), packed) + Bales(pack)
  {
    forall code
      ensures SumBy(PackBalesOf(code), packed + [pack]) == SumBy(PackBalesOf(code), packed) + BalesOf(pack, code)
    {
      SumByAppend(PackBalesOf(code), packed, [pack]);
      SumByOne(PackBalesOf(code), pack);
    }
    SumByAppend(PackBales(), packed, [pack]);
    SumByOne(PackBales(), pack);
  }

  // ---- The packing, step by step ---------------------------------------------------------

  /** The closed containers, the open one, and what it still takes. */
  datatype Packing = Packing(closed: seq<seq<Line>>, current: seq<Line>, remaining: int)

  /** A full container is closed before anything more is packed. */
  function Opened(p: Packing, capacity: int): Packing {
    if p.remaining == 0 then Packing(p.closed + [p.current], [], capacity) else p
  }

  function Topped(p: Packing, code: string, name: string, take: int): Packing {
    Packing(p.closed, Merged(p.current, code, name, take), p.remaining - take)
  }

  ghost predicate Sound(p: Packing, capacity: int) {
    && 0 <= p.remaining <= capacity && Bales(p.current) == capacity - p.remaining
    && (p.current == [] ==> p.closed == [])
    && Tidy(p.current)
    && (forall k :: 0 <= k < |p.closed| ==> Tidy(p.closed[k]) && Bales(p.closed[k]) == capacity)
  }

  /** What happens to a line: topped up into the open container and as many more as it needs. */
  function LinePacked(p: Packing, code: string, name: string, qty: nat, capacity: int): (r: Packing)
    requires capacity > 0 && Sound(p, capacity)
    ensures Sound(r, capacity) && (qty > 0 ==> r.current != [])
    decreases qty
  {
    if qty == 0 then p
    else
      var q := Opened(p, capacity);
      var take := Min(qty, q.remaining);
      assert Sound(Topped(q, code, name, take), capacity) by { ToppedIsSound(p, code, name, take, capacity); }
      LinePacked(Topped(q, code, name, take), code, name, qty - take, capacity)
  }

  lemma {:induction false} ToppedIsSound(p: Packing, code: string, name: string, take: int, capacity: int)
    requires capacity > 0 && Sound(p, capacity) && 0 < take <= Opened(p, capacity).remaining
    ensures var r := Topped(Opened(p, capacity), code, name, take); Sound(r, capacity) && r.current != []
  {
    MergedHolds(Opened(p, capacity).current, code, name, take);
  }

  function LinesPacked(lines: seq<Line>, capacity: int): (r: Packing)
    requires capacity > 0
    ensures Sound(r, capacity)
  {
    if lines == [] then Packing([], [], capacity)
    else
      var n := |lines| - 1;
      LinePacked(LinesPacked(lines[..n], capacity), lines[n].code, lines[n].name, NonNegative(lines[n].qty), capacity)
  }

  function PacksOf(p: Packing): seq<seq<Line>> { if p.current != [] then p.closed + [p.current] else p.closed }

  /** Fills each container before opening the next: where no article is listed twice,
      unloading the containers in turn gives the lines back bale by bale. */
  method PackLinesIntoContainers(lines: seq<Line>, capacity: int) returns (packed: seq<seq<Line>>)
    requires capacity > 0
    ensures FullButLast(packed, capacity)
    ensures forall k :: 0 <= k < |packed| ==> Tidy(packed[k])
    ensures forall code :: SumBy(PackBalesOf(code), packed) == BalesOf(lines, code)
    ensures SumBy(PackBales(), packed) == Bales(lines)
    ensures Tidy(lines) ==> AllUnpacked(packed) == Unpacked(lines)
  {
    packed := [];
    var current: seq<Line> := [];
    var remaining := capacity;
    var i := 0;
    while i < |lines|
      invariant 0 <= i <= |lines|
      invariant PackedFirst(lines, i, capacity, Packing(packed, current, remaining))
    {
      assert lines[..i + 1][..i] == lines[..i];
      packed, current, remaining := PackLine(lines[i], packed, current, remaining, capacity);
      i := i + 1;
    }
    assert lines[..i] == lines;
    PacksHold(lines, capacity);
    if |current| > 0 { packed := packed + [current]; }
  }

  ghost predicate PackedFirst(lines: seq<Line>, i: nat, capacity: int, p: Packing)
    requires i <= |lines| && capacity > 0
  {
    p == LinesPacked(lines[..i], capacity)
  }

  method PackLine(line: Line, packed0: seq<seq<Line>>, current0: seq<Line>, remaining0: int, capacity: int)
    returns (packed: seq<seq<Line>>, current: seq<Line>, remaining: int)
    requires capacity > 0 && Sound(Packing(packed0, current0, remaining0), capacity)
    ensures Packing(packed, current, remaining)
            == LinePacked(Packing(packed0, current0, remaining0), line.code, line.name, NonNegative(line.qty), capacity)
  {
    packed, current, remaining := packed0, current0, remaining0;
    var qtyLeft := NonNegative(line.qty);
    while qtyLeft > 0
      invariant 0 <= qtyLeft && Sound(Packing(packed, current, remaining), capacity)
      invariant LinePacked(Packing(packed, current, remaining), line.code, line.name, qtyLeft, capacity)
                == LinePacked(Packing(packed0, current0, remaining0), line.code, line.name, NonNegative(line.qty),
                   capacity)
      decreases qtyLeft
    {
      ghost var p := Packing(packed, current, remaining);
      if remaining == 0 { packed, current, remaining := packed + [current], [], capacity; }
      var take := Min(qtyLeft, remaining);
      ToppedIsSound(p, line.code, line.name, take, capacity);
      current := Merged(current, line.code, line.name, take);
      qtyLeft := qtyLeft - take;
      remaining := remaining - take;
    }
  }

  // ---- What is packed ------------------------------------------------------------------------

  function AllBales(p: Packing): int { SumBy(PackBales(), p.closed) + Bales(p.current) }

  function AllBalesOf(p: Packing, code: string): int { SumBy(PackBalesOf(code), p.closed) + BalesOf(p.current, code) }

  lemma {:induction false} OpenedHolds(p: Packing, capacity: int, code: string)
    ensures AllBales(Opened(p, capacity)) == AllBales(p)
    ensures AllBalesOf(Opened(p, capacity), code) == AllBalesOf(p, code)
  {
    PackAppended(p.closed, p.current);
  }

  lemma {:induction false} LineHolds(p: Packing, own: string, name: string, qty: nat, capacity: int, code: string)
    requires capacity > 0 && Sound(p, capacity)
    ensures var r := LinePacked(p, own, name, qty, capacity);
            && AllBales(r) == AllBales(p) + qty
            && AllBalesOf(r, code) == AllBalesOf(p, code) + if code == own then qty else 0
    decreases qty
  {
    if qty > 0 {
      var q := Opened(p, capacity);
      var take := Min(qty, q.remaining);
      OpenedHolds(p, capacity, code);
      MergedHolds(q.current, own, name, take);
      ToppedIsSound(p, own, name, take, capacity);
      LineHolds(Topped(q, own, name, take), own, name, qty - take, capacity, code);
    }
  }

  lemma {:induction false} LinesHold(lines: seq<Line>, capacity: int, code: string)
    requires capacity > 0
    ensures AllBales(LinesPacked(lines, capacity)) == Bales(lines)
    ensures AllBalesOf(LinesPacked(lines, capacity), code) == BalesOf(lines, code)
  {
    if lines != [] {
      var n := |lines| - 1;
      assert lines == lines[..n] + [lines[n]];
      LinesHold(lines[..n], capacity, code);
      LineAppended(lines[..n], lines[n]);
      LineHolds(LinesPacked(lines[..n], capacity), lines[n].code, lines[n].name, NonNegative(lines[n].qty), capacity,
                code);
    }
  }

  // ---- In which order --------------------------------------------------------------------------

  function Unloaded(p: Packing): seq<Line> { AllUnpacked(p.closed) + Unpacked(p.current) }

  lemma {:induction false} OpenedUnloads(p: Packing, capacity: int)
    ensures Unloaded(Opened(p, capacity)) == Unloaded(p)
  {
    AllUnpackedNext(p.closed, p.current);
  }

  lemma {:induction false} ToppedUnloads(p: Packing, code: string, name: string, take: nat, capacity: int)
    requires Sound(p, capacity) && AtEnd(p.current, code, name) && take > 0
    ensures var next := Topped(Opened(p, capacity), code, name, take);
            && Unloaded(next) == Unloaded(p) + Repeated(code, name, take) && AtEnd(next.current, code, name)
  {
    var q := Opened(p, capacity);
    OpenedUnloads(p, capacity);
    MergedAtEnd(q.current, code, name, take);
    MergedUnpacked(q.current, code, name, take);
    Regroup(AllUnpacked(q.closed), Unpacked(q.current), Repeated(code, name, take));
  }

  lemma {:induction false} LineUnloads(p: Packing, code: string, name: string, qty: nat, capacity: int)
    requires capacity > 0 && Sound(p, capacity) && AtEnd(p.current, code, name)
    ensures Unloaded(LinePacked(p, code, name, qty, capacity)) == Unloaded(p) + Repeated(code, name, qty)
    decreases qty
  {
    if qty > 0 {
      var take := Min(qty, Opened(p, capacity).remaining);
      var next := Topped(Opened(p, capacity), code, name, take);
      ToppedIsSound(p, code, name, take, capacity);
      ToppedUnloads(p, code, name, take, capacity);
      LineUnloads(next, code, name, qty - take, capacity);
      RepeatedMore(code, name, take, qty - take);
      Regroup(Unloaded(p), Repeated(code, name, take), Repeated(code, name, qty - take));
    }
  }

  /** The open container holds only articles of the lines packed so far. */
  lemma {:induction false} OnlyThese(p: Packing, code: string, name: string, qty: nat, capacity: int, other: string)
    requires capacity > 0 && Sound(p, capacity) && other != code && BalesOf(p.current, other) == 0
    ensures BalesOf(LinePacked(p, code, name, qty, capacity).current, other) == 0
    decreases qty
  {
    if qty > 0 {
      var q := Opened(p, capacity);
      var take := Min(qty, q.remaining);
      MergedHolds(q.current, code, name, take);
      ToppedIsSound(p, code, name, take, capacity);
      OnlyThese(Topped(q, code, name, take), code, name, qty - take, capacity, other);
    }
  }

  lemma {:induction false} NotYet(lines: seq<Line>, capacity: int, other: string)
    requires capacity > 0 && forall i :: 0 <= i < |lines| ==> lines[i].code != other
    ensures BalesOf(LinesPacked(lines, capacity).current, other) == 0
  {
    if lines != [] {
      var n := |lines| - 1;
      NotYet(lines[..n], capacity, other);
      OnlyThese(LinesPacked(lines[..n], capacity), lines[n].code, lines[n].name, NonNegative(lines[n].qty), capacity,
                other);
    }
  }

  lemma {:induction false} NoneOf(lines: seq<Line>, code: string)
    requires Tidy(lines) && BalesOf(lines, code) == 0
    ensures forall i :: 0 <= i < |lines| ==> lines[i].code != code
  {
    if lines != [] {
      NoneNegative(lines[1..], code);
      NoneOf(lines[1..], code);
    }
  }

  lemma {:induction false} NoneNegative(lines: seq<Line>, code: string)
    ensures BalesOf(lines, code) >= 0
  {
    if lines != [] { NoneNegative(lines[1..], code); }
  }

  lemma {:induction false} LinesUnload(lines: seq<Line>, capacity: int)
    requires capacity > 0 && Tidy(lines)
    ensures Unloaded(LinesPacked(lines, capacity)) == Unpacked(lines)
  {
    if lines != [] {
      var n := |lines| - 1;
      var p := LinesPacked(lines[..n], capacity);
      LinesUnload(lines[..n], capacity);
      NotYet(lines[..n], capacity, lines[n].code);
      NoneOf(p.current, lines[n].code);
      LineUnloads(p, lines[n].code, lines[n].name, NonNegative(lines[n].qty), capacity);
    }
  }

  lemma {:induction false} PacksFull(p: Packing, capacity: int)
    requires capacity > 0 && Sound(p, capacity)
    ensures FullButLast(PacksOf(p), capacity) && forall k :: 0 <= k < |PacksOf(p)| ==> Tidy(PacksOf(p)[k])
  {
    TidyBales(p.current);
  }

  lemma {:induction false} PacksSum(p: Packing, code: string)
    ensures SumBy(PackBalesOf(code), PacksOf(p)) == AllBalesOf(p, code)
    ensures SumBy(PackBales(), PacksOf(p)) == AllBales(p)
  {
    PackAppended(p.closed, p.current);
  }

  lemma {:induction false} PacksUnload(p: Packing)
    ensures AllUnpacked(PacksOf(p)) == Unloaded(p)
  {
    AllUnpackedNext(p.closed, p.current);
  }

  lemma {:induction false} PacksHold(lines: seq<Line>, capacity: int)
    requires capacity > 0
    ensures var packed := PacksOf(LinesPacked(lines, capacity));
            && FullButLast(packed, capacity) && (forall k :: 0 <= k < |packed| ==> Tidy(packed[k]))
            && (forall code :: SumBy(PackBalesOf(code), packed) == BalesOf(lines, code))
            && SumBy(PackBales(), packed) == Bales(lines)
            && (Tidy(lines) ==> AllUnpacked(packed) == Unpacked(lines))
  {
    var p := LinesPacked(lines, capacity);
    PacksFull(p, capacity);
    PacksUnload(p);
    forall code
      ensures SumBy(PackBalesOf(code), PacksOf(p)) == BalesOf(lines, code)
      ensures SumBy(PackBales(), PacksOf(p)) == Bales(lines)
    {
      PacksSum(p, code);
      LinesHold(lines, capacity, code);
    }
    PacksSum(p, "");
    LinesHold(lines, capacity, "");
    if Tidy(lines) { LinesUnload(lines, capacity); }
  }
}
