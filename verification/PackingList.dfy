/** Handing out the physical bales of a container to the customers it serves. */
module PackingList {
  import opened Standard
  import opened Sorting
  import opened ContainerPlanner

  datatype Allocation = Allocation(customer: int, article: string, qty: int)
  datatype CodedBale = CodedBale(article: string, code: string)
  datatype Loaded = Loaded(id: int, allocations: seq<Allocation>, bales: seq<CodedBale>)

  datatype PackingLine = PackingLine(article: string, qty: int, codes: seq<string>)
  datatype PackedContainer = PackedContainer(id: int, lines: seq<PackingLine>)

  function CodeOrder(le: (string, string) -> bool): (CodedBale, CodedBale) -> bool {
    (a: CodedBale, b: CodedBale) => le(a.code, b.code)
  }

  function AllocationOrder(le: (string, string) -> bool): (Allocation, Allocation) -> bool {
    (a: Allocation, b: Allocation) => a.customer < b.customer || (a.customer == b.customer && le(a.article, b.article))
  }

  function CodesOf(bales: seq<CodedBale>, article: string): seq<string> {
    if bales == [] then []
    else
      var last := bales[|bales| - 1];
      CodesOf(bales[..|bales| - 1], article) + if last.article == article then [last.code] else []
  }

  /** The bale codes of an article in code order. */
  function Pool(c: Loaded, article: string, le: (string, string) -> bool): seq<string> {
    CodesOf(Sort(CodeOrder(le), c.bales), article)
  }

  function Ordered(c: Loaded, le: (string, string) -> bool): seq<Allocation> {
    Sort(AllocationOrder(le), c.allocations)
  }

  /** What the first n allocations take of an article. */
  function TakenBefore(ordered: seq<Allocation>, n: nat, article: string): int
    requires n <= |ordered|
  {
    if n == 0 then 0
    else TakenBefore(ordered, n - 1, article)
         + if ordered[n - 1].article == article then NonNegative(ordered[n - 1].qty) else 0
  }

  /** pool.slice(from, from + qty), which stops at the end of the pool. */
  function Slice(pool: seq<string>, from: nat, qty: nat): seq<string> {
    pool[Min(from, |pool|)..Min(from + qty, |pool|)]
  }

  lemma {:induction false} TakenNotNegative(ordered: seq<Allocation>, n: nat, article: string)
    requires n <= |ordered|
    ensures TakenBefore(ordered, n, article) >= 0
  {
    if n > 0 { TakenNotNegative(ordered, n - 1, article); }
  }

  /** The line of the k-th allocation: its slice of the article's pool. */
  function LineAt(c: Loaded, le: (string, string) -> bool, k: nat): PackingLine
    requires k < |Ordered(c, le)|
  {
    var a := Ordered(c, le)[k];
    TakenNotNegative(Ordered(c, le), k, a.article);
    var qty := NonNegative(a.qty);
    PackingLine(a.article, qty, Slice(Pool(c, a.article, le), TakenBefore(Ordered(c, le), k, a.article), qty))
  }

  predicate Mine(c: Loaded, le: (string, string) -> bool, customer: int, k: nat)
    requires k < |Ordered(c, le)|
  {
    Ordered(c, le)[k].customer == customer && NonNegative(Ordered(c, le)[k].qty) > 0
  }

  function LinesUpTo(c: Loaded, le: (string, string) -> bool, customer: int, n: nat): seq<PackingLine>
    requires n <= |Ordered(c, le)|
  {
    if n == 0 then []
    else LinesUpTo(c, le, customer, n - 1) + if Mine(c, le, customer, n - 1) then [LineAt(c, le, n - 1)] else []
  }

  function LinesOf(c: Loaded, le: (string, string) -> bool, customer: int): seq<PackingLine> {
    LinesUpTo(c, le, customer, |Ordered(c, le)|)
  }

  function PackedFor(cs: seq<Loaded>, le: (string, string) -> bool, customer: int): seq<PackedContainer> {
    if cs == [] then []
    else
      var (front, c) := (PackedFor(cs[..|cs| - 1], le, customer), cs[|cs| - 1]);
      var lines := LinesOf(c, le, customer);
      if lines == [] then front else front + [PackedContainer(c.id, lines)]
  }

  // ---- The loops -------------------------------------------------------------------------

  function PoolIn(pools: map<string, seq<string>>, article: string): seq<string> {
    if article in pools then pools[article] else []
  }

  ghost predicate PoolsOf(pools: map<string, seq<string>>, bales: seq<CodedBale>) {
    forall article :: PoolIn(pools, article) == CodesOf(bales, article)
  }

  lemma {:induction false} PoolsNext(pools: map<string, seq<string>>, bales: seq<CodedBale>, b: CodedBale)
    requires PoolsOf(pools, bales)
    ensures PoolsOf(pools[b.article := PoolIn(pools, b.article) + [b.code]], bales + [b])
  {
    var next := pools[b.article := PoolIn(pools, b.article) + [b.code]];
    assert (bales + [b])[..|bales|] == bales;
    forall article
      ensures PoolIn(next, article) == CodesOf(bales + [b], article)
    {
      assert PoolIn(pools, article) == CodesOf(bales, article);
    }
  }

  method PoolByArticle(bales: seq<CodedBale>) returns (pools: map<string, seq<string>>)
    ensures PoolsOf(pools, bales)
  {
    pools := map[];
    var i := 0;
    ghost var done: seq<CodedBale> := [];
    while i < |bales|
      invariant 0 <= i <= |bales| && done == bales[..i]
      invariant PoolsOf(pools, done)
    {
      var b := bales[i];
      PoolsNext(pools, done, b);
      pools := pools[b.article := PoolIn(pools, b.article) + [b.code]];
      i := i + 1;
      done := done + [b];
      assert done == bales[..i];
    }
    assert done == bales;
  }

  function CursorIn(cursors: map<string, nat>, article: string): nat {
    if article in cursors then cursors[article] else 0
  }

  /** Every cursor stands where the allocations so far have left it. */
  ghost predicate CursorsAt(cursors: map<string, nat>, ordered: seq<Allocation>, k: nat) {
    k <= |ordered| && forall article :: CursorIn(cursors, article) == TakenBefore(ordered, k, article)
  }

  lemma {:induction false} CursorsNext(cursors: map<string, nat>, ordered: seq<Allocation>, k: nat)
    requires k < |ordered| && CursorsAt(cursors, ordered, k)
    ensures var (article, qty) := (ordered[k].article, NonNegative(ordered[k].qty));
            && CursorsAt(cursors[article := CursorIn(cursors, article) + qty], ordered, k + 1)
            && (qty == 0 ==> CursorsAt(cursors, ordered, k + 1))
  {
    var own, qty := ordered[k].article, NonNegative(ordered[k].qty);
    var next := cursors[own := CursorIn(cursors, own) + qty];
    forall article
      ensures CursorIn(next, article) == TakenBefore(ordered, k + 1, article)
      ensures qty == 0 ==> CursorIn(cursors, article) == TakenBefore(ordered, k + 1, article)
    {
      assert CursorIn(cursors, article) == TakenBefore(ordered, k, article);
    }
  }

  method PackContainer(c: Loaded, le: (string, string) -> bool, customer: int) returns (lines: seq<PackingLine>)
    ensures lines == LinesOf(c, le, customer)
  {
    var balesByArticle := PoolByArticle(Sort(CodeOrder(le), c.bales));
    var cursorByArticle: map<string, nat> := map[];
    var ordered := Ordered(c, le);
    lines := [];
    var k := 0;
    while k < |ordered|
      invariant 0 <= k <= |ordered|
      invariant lines == LinesUpTo(c, le, customer, k)
      invariant CursorsAt(cursorByArticle, ordered, k)
    {
      var a := ordered[k];
      var qty := NonNegative(a.qty);
      CursorsNext(cursorByArticle, ordered, k);
      if qty > 0 {
        var cursor := CursorIn(cursorByArticle, a.article);
        var codes := Slice(PoolIn(balesByArticle, a.article), cursor, qty);
        LineIs(c, le, k, cursor, codes);
        cursorByArticle := cursorByArticle[a.article := cursor + qty];
        if a.customer == customer { lines := lines + [PackingLine(a.article, qty, codes)]; }
      }
      k := k + 1;
    }
  }

  lemma {:induction false} LineIs(c: Loaded, le: (string, string) -> bool, k: nat, cursor: nat, codes: seq<string>)
    requires k < |Ordered(c, le)|
    requires var a := Ordered(c, le)[k];
             && cursor == TakenBefore(Ordered(c, le), k, a.article)
             && codes == Slice(Pool(c, a.article, le), cursor, NonNegative(a.qty))
    ensures LineAt(c, le, k) == PackingLine(Ordered(c, le)[k].article, NonNegative(Ordered(c, le)[k].qty), codes)
  {
  }

  method BuildCustomerPackingList(customer: int, cs: seq<Loaded>, le: (string, string) -> bool)
    returns (packed: seq<PackedContainer>)
    ensures packed == PackedFor(cs, le, customer)
  {
    packed := [];
    var i := 0;
    while i < |cs|
      invariant 0 <= i <= |cs|
      invariant packed == PackedFor(cs[..i], le, customer)
    {
      var c := cs[i];
      assert cs[..i + 1][..i] == cs[..i];
      i := i + 1;
      var lines := PackContainer(c, le, customer);
      if |lines| == 0 { continue; }
      packed := packed + [PackedContainer(c.id, lines)];
    }
    assert cs[..i] == cs;
  }

  // ---- Which bale is on which list ---------------------------------------------------------

  ghost predicate OnLines(lines: seq<PackingLine>, code: string) {
    exists l :: 0 <= l < |lines| && code in lines[l].codes
  }

  ghost predicate OnList(packed: seq<PackedContainer>, code: string) {
    exists i :: 0 <= i < |packed| && OnLines(packed[i].lines, code)
  }

  ghost predicate DistinctCodes(bales: seq<CodedBale>) {
    forall i, j :: 0 <= i < j < |bales| ==> bales[i].code != bales[j].code
  }

  ghost predicate HasCode(bales: seq<CodedBale>, code: string) {
    exists i :: 0 <= i < |bales| && bales[i].code == code
  }

  /** Every bale code occurs once over all containers. */
  ghost predicate CodesIdentify(cs: seq<Loaded>) {
    && (forall i :: 0 <= i < |cs| ==> DistinctCodes(cs[i].bales))
    && (forall i, j, code :: 0 <= i < j < |cs| && HasCode(cs[i].bales, code) ==> !HasCode(cs[j].bales, code))
  }

  lemma {:induction false} LinesAreSlices(c: Loaded, le: (string, string) -> bool, customer: int, n: nat, code: string)
    requires n <= |Ordered(c, le)|
    ensures OnLines(LinesUpTo(c, le, customer, n), code)
            <==> exists k :: 0 <= k < n && Mine(c, le, customer, k) && code in LineAt(c, le, k).codes
  {
    if n > 0 {
      LinesAreSlices(c, le, customer, n - 1, code);
      var front := LinesUpTo(c, le, customer, n - 1);
      var own := if Mine(c, le, customer, n - 1) then [LineAt(c, le, n - 1)] else [];
      OnMoreLines(front, own, code);
      assert OnLines(own, code) <==> Mine(c, le, customer, n - 1) && code in LineAt(c, le, n - 1).codes by {
        if Mine(c, le, customer, n - 1) { assert own[0] == LineAt(c, le, n - 1); }
      }
    }
  }

  lemma {:induction false} OnMoreLines(front: seq<PackingLine>, own: seq<PackingLine>, code: string)
    ensures OnLines(front + own, code) <==> OnLines(front, code) || OnLines(own, code)
  {
    if OnLines(front, code) {
      var l :| 0 <= l < |front| && code in front[l].codes;
      assert code in (front + own)[l].codes;
    }
    if OnLines(own, code) {
      var l :| 0 <= l < |own| && code in own[l].codes;
      assert code in (front + own)[|front| + l].codes;
    }
  }

  lemma {:induction false} CodesOfMembers(bales: seq<CodedBale>, article: string)
    ensures forall code :: code in CodesOf(bales, article) <==> CodedBale(article, code) in bales
  {
    if bales != [] {
      var front, last := bales[..|bales| - 1], bales[|bales| - 1];
      assert bales == front + [last];
      CodesOfMembers(front, article);
    }
  }

  lemma {:induction false} CodesOfDistinct(bales: seq<CodedBale>, article: string)
    requires DistinctCodes(bales)
    ensures Distinct(CodesOf(bales, article))
  {
    if bales != [] {
      var front, last := bales[..|bales| - 1], bales[|bales| - 1];
      CodesOfDistinct(front, article);
      CodesOfMembers(front, article);
      assert CodedBale(article, last.code) !in front;
    }
  }

  /** The pool of an article: its bales, each once. */
  lemma {:induction false} PoolIsArticle(c: Loaded, article: string, le: (string, string) -> bool)
    requires DistinctCodes(c.bales)
    ensures Distinct(Pool(c, article, le))
    ensures forall code :: code in Pool(c, article, le) <==> CodedBale(article, code) in c.bales
  {
    var ordered := Sort(CodeOrder(le), c.bales);
    SortPermutes(CodeOrder(le), c.bales);
    DistinctPermutation(c.bales, ordered);
    assert DistinctCodes(ordered) by {
      forall i, j | 0 <= i < j < |ordered|
        ensures ordered[i].code != ordered[j].code
      {
        assert ordered[i] in c.bales && ordered[j] in c.bales;
      }
    }
    CodesOfDistinct(ordered, article);
    CodesOfMembers(ordered, article);
  }

  lemma {:induction false} CodesOfSorted(bales: seq<CodedBale>, article: string, le: (string, string) -> bool)
    requires Sorted(CodeOrder(le), bales)
    ensures Sorted(le, CodesOf(bales, article))
  {
    if bales != [] {
      var front, last := bales[..|bales| - 1], bales[|bales| - 1];
      CodesOfSorted(front, article, le);
      CodesOfMembers(front, article);
      var codes := CodesOf(front, article);
      forall i | 0 <= i < |codes|
        ensures le(codes[i], last.code)
      {
        assert codes[i] in codes && CodedBale(article, codes[i]) in front;
        var j :| 0 <= j < |front| && front[j] == CodedBale(article, codes[i]);
        assert CodeOrder(le)(bales[j], last);
      }
    }
  }

  /** The pool is in code order. */
  lemma {:induction false} PoolInOrder(c: Loaded, article: string, le: (string, string) -> bool)
    requires TotalPreorder(le)
    ensures Sorted(le, Pool(c, article, le))
  {
    var byCode := CodeOrder(le);
    assert forall x, y :: byCode(x, y) == le(x.code, y.code);
    assert TotalPreorder(byCode) by {
      forall x, y
        ensures byCode(x, y) || byCode(y, x)
      {
        assert le(x.code, y.code) || le(y.code, x.code);
      }
      forall x, y, z | byCode(x, y) && byCode(y, z)
        ensures byCode(x, z)
      {
        assert le(x.code, y.code) && le(y.code, z.code);
      }
    }
    SortSorted(byCode, c.bales);
    CodesOfSorted(Sort(CodeOrder(le), c.bales), article, le);
  }

  /** What the allocations of a container take of an article. */
  function AllocatedOf(article: string): Allocation -> int {
    (a: Allocation) => if a.article == article then NonNegative(a.qty) else 0
  }

  lemma {:induction false} TakenIsSum(ordered: seq<Allocation>, n: nat, article: string)
    requires n <= |ordered|
    ensures TakenBefore(ordered, n, article) == SumBy(AllocatedOf(article), ordered[..n])
  {
    if n > 0 {
      TakenIsSum(ordered, n - 1, article);
      PrefixNext(ordered, n - 1);
      SumByAppend(AllocatedOf(article), ordered[..n - 1], [ordered[n - 1]]);
      SumByOne(AllocatedOf(article), ordered[n - 1]);
    }
  }

  lemma {:induction false} AllTakenIsSum(c: Loaded, le: (string, string) -> bool, article: string)
    ensures TakenBefore(Ordered(c, le), |Ordered(c, le)|, article) == SumBy(AllocatedOf(article), c.allocations)
  {
    var ordered := Ordered(c, le);
    TakenIsSum(ordered, |ordered|, article);
    assert ordered[..|ordered|] == ordered;
    SortPermutes(AllocationOrder(le), c.allocations);
    SumByPermutation(AllocatedOf(article), ordered, c.allocations);
  }

  lemma {:induction false} CursorsMoveOn(ordered: seq<Allocation>, k: nat, n: nat, article: string)
    requires k < n <= |ordered| && ordered[k].article == article
    ensures TakenBefore(ordered, k, article) + NonNegative(ordered[k].qty) <= TakenBefore(ordered, n, article)
  {
    if n > k + 1 { CursorsMoveOn(ordered, k, n - 1, article); }
  }

  /** The slices of two allocations have no bale in common. */
  lemma {:induction false} SlicesDisjoint(c: Loaded, le: (string, string) -> bool, k: nat, n: nat, code: string)
    requires DistinctCodes(c.bales) && k < n < |Ordered(c, le)|
    requires code in LineAt(c, le, k).codes
    ensures code !in LineAt(c, le, n).codes
  {
    var ordered := Ordered(c, le);
    var (a, b) := (ordered[k].article, ordered[n].article);
    PoolIsArticle(c, a, le);
    PoolIsArticle(c, b, le);
    var pool := Pool(c, a, le);
    assert code in pool;
    if a == b {
      CursorsMoveOn(ordered, k, n, a);
    } else {
      assert CodedBale(b, code) !in c.bales;
    }
  }

  lemma {:induction false} OnLinesIsHeld(c: Loaded, le: (string, string) -> bool, customer: int, code: string)
    requires DistinctCodes(c.bales) && OnLines(LinesOf(c, le, customer), code)
    ensures HasCode(c.bales, code)
  {
    LinesAreSlices(c, le, customer, |Ordered(c, le)|, code);
    var k :| 0 <= k < |Ordered(c, le)| && Mine(c, le, customer, k) && code in LineAt(c, le, k).codes;
    var article := Ordered(c, le)[k].article;
    PoolIsArticle(c, article, le);
    assert code in Pool(c, article, le);
    assert CodedBale(article, code) in c.bales;
  }

  /** The part of the pool an allocation takes. */
  lemma {:induction false} SliceAt(pool: seq<string>, from: nat, qty: nat, p: nat)
    requires from <= p < from + qty && p < |pool|
    ensures pool[p] in Slice(pool, from, qty)
  {
    assert Slice(pool, from, qty)[p - from] == pool[p];
  }

  lemma {:induction false} InSlice(pool: seq<string>, from: nat, qty: nat, p: nat)
    requires Distinct(pool) && p < |pool| && pool[p] in Slice(pool, from, qty)
    ensures from <= p < from + qty
  {
    var q :| 0 <= q < |Slice(pool, from, qty)| && Slice(pool, from, qty)[q] == pool[p];
    assert pool[Min(from, |pool|) + q] == pool[p];
  }

  lemma {:induction false} LinesDisjoint(c: Loaded, le: (string, string) -> bool, x: int, y: int, code: string)
    requires DistinctCodes(c.bales) && x != y && OnLines(LinesOf(c, le, x), code)
    ensures !OnLines(LinesOf(c, le, y), code)
  {
    LinesAreSlices(c, le, x, |Ordered(c, le)|, code);
    LinesAreSlices(c, le, y, |Ordered(c, le)|, code);
    var k :| 0 <= k < |Ordered(c, le)| && Mine(c, le, x, k) && code in LineAt(c, le, k).codes;
    forall n | 0 <= n < |Ordered(c, le)| && Mine(c, le, y, n)
      ensures code !in LineAt(c, le, n).codes
    {
      if k < n {
        SlicesDisjoint(c, le, k, n, code);
      } else if code in LineAt(c, le, n).codes {
        SlicesDisjoint(c, le, n, k, code);
      }
    }
  }

  lemma {:induction false} OnListIsSomewhere(cs: seq<Loaded>, le: (string, string) -> bool, customer: int, code: string)
    ensures OnList(PackedFor(cs, le, customer), code)
            <==> exists i :: 0 <= i < |cs| && OnLines(LinesOf(cs[i], le, customer), code)
  {
    if cs != [] {
      var front, c := cs[..|cs| - 1], cs[|cs| - 1];
      OnListIsSomewhere(front, le, customer, code);
      var packed, lines := PackedFor(front, le, customer), LinesOf(c, le, customer);
      var next := PackedFor(cs, le, customer);
      if OnList(packed, code) {
        var i :| 0 <= i < |front| && OnLines(LinesOf(front[i], le, customer), code);
        assert cs[i] == front[i];
        var p :| 0 <= p < |packed| && OnLines(packed[p].lines, code);
        assert next[p] == packed[p];
      }
      if OnLines(lines, code) {
        assert next[|packed|].lines == lines;
        assert cs[|cs| - 1] == c;
      }
      if OnList(next, code) {
        var p :| 0 <= p < |next| && OnLines(next[p].lines, code);
        if p < |packed| { assert packed[p] == next[p]; }
      }
      if exists i :: 0 <= i < |cs| && OnLines(LinesOf(cs[i], le, customer), code) {
        var i :| 0 <= i < |cs| && OnLines(LinesOf(cs[i], le, customer), code);
        if i < |front| { assert front[i] == cs[i]; }
      }
    }
  }

  /** A bale is never on the packing lists of two customers. */
  lemma {:induction false} ListsNeverShareABale(cs: seq<Loaded>, le: (string, string) -> bool, x: int, y: int,
                                                code: string)
    requires CodesIdentify(cs) && x != y && OnList(PackedFor(cs, le, x), code)
    ensures !OnList(PackedFor(cs, le, y), code)
  {
    OnListIsSomewhere(cs, le, x, code);
    OnListIsSomewhere(cs, le, y, code);
    var i :| 0 <= i < |cs| && OnLines(LinesOf(cs[i], le, x), code);
    OnLinesIsHeld(cs[i], le, x, code);
    forall j | 0 <= j < |cs|
      ensures !OnLines(LinesOf(cs[j], le, y), code)
    {
      if j == i {
        LinesDisjoint(cs[i], le, x, y, code);
      } else if OnLines(LinesOf(cs[j], le, y), code) {
        OnLinesIsHeld(cs[j], le, y, code);
      }
    }
  }

  /** Some allocation covers every position below the total taken. */
  lemma {:induction false} SomebodyTakes(ordered: seq<Allocation>, n: nat, article: string, p: nat) returns (k: nat)
    requires n <= |ordered| && p < TakenBefore(ordered, n, article)
    ensures k < n && ordered[k].article == article
    ensures TakenBefore(ordered, k, article) <= p < TakenBefore(ordered, k, article) + NonNegative(ordered[k].qty)
  {
    if p < TakenBefore(ordered, n - 1, article) {
      k := SomebodyTakes(ordered, n - 1, article, p);
    } else {
      k := n - 1;
    }
  }

  /** Some customer's list has the bale. */
  ghost predicate ListedFor(cs: seq<Loaded>, le: (string, string) -> bool, code: string) {
    exists customer :: OnList(PackedFor(cs, le, customer), code)
  }

  ghost predicate HandedOut(c: Loaded, le: (string, string) -> bool, code: string) {
    exists customer :: OnLines(LinesOf(c, le, customer), code)
  }

  /** The lists of one container cover the first bales of an article, as many as are allocated. */
  lemma {:induction false} LinesCoverThePool(c: Loaded, le: (string, string) -> bool, article: string, p: nat)
    requires DistinctCodes(c.bales) && p < |Pool(c, article, le)|
    ensures HandedOut(c, le, Pool(c, article, le)[p]) <==> p < SumBy(AllocatedOf(article), c.allocations)
  {
    var ordered, pool := Ordered(c, le), Pool(c, article, le);
    AllTakenIsSum(c, le, article);
    if p < TakenBefore(ordered, |ordered|, article) {
      var k := SomebodyTakes(ordered, |ordered|, article, p);
      TakenNotNegative(ordered, k, article);
      SliceAt(pool, TakenBefore(ordered, k, article), NonNegative(ordered[k].qty), p);
      LinesAreSlices(c, le, ordered[k].customer, |ordered|, pool[p]);
      assert Mine(c, le, ordered[k].customer, k);
      assert OnLines(LinesOf(c, le, ordered[k].customer), pool[p]);
    }
    forall customer | OnLines(LinesOf(c, le, customer), pool[p])
      ensures p < TakenBefore(ordered, |ordered|, article)
    {
      ListedIsCovered(c, le, customer, article, p);
    }
  }

  lemma {:induction false} ListedIsCovered(c: Loaded, le: (string, string) -> bool, customer: int, article: string,
                                           p: nat)
    requires DistinctCodes(c.bales) && p < |Pool(c, article, le)|
    requires OnLines(LinesOf(c, le, customer), Pool(c, article, le)[p])
    ensures p < TakenBefore(Ordered(c, le), |Ordered(c, le)|, article)
  {
    var ordered, pool := Ordered(c, le), Pool(c, article, le);
    PoolIsArticle(c, article, le);
    LinesAreSlices(c, le, customer, |ordered|, pool[p]);
    var k :| 0 <= k < |ordered| && Mine(c, le, customer, k) && pool[p] in LineAt(c, le, k).codes;
    PoolIsArticle(c, ordered[k].article, le);
    assert pool[p] in Pool(c, ordered[k].article, le);
    assert CodedBale(ordered[k].article, pool[p]) in c.bales && CodedBale(article, pool[p]) in c.bales;
    assert ordered[k].article == article;
    TakenNotNegative(ordered, k, article);
    InSlice(pool, TakenBefore(ordered, k, article), NonNegative(ordered[k].qty), p);
    CursorsMoveOn(ordered, k, |ordered|, article);
  }

  /** Over all customers the lists cover exactly the first bales of each article of
      each container in code order: as many as are allocated, or all there are. */
  lemma {:induction false} ListsCoverThePool(cs: seq<Loaded>, le: (string, string) -> bool, i: nat, article: string,
                                             p: nat)
    requires CodesIdentify(cs) && TotalPreorder(le) && i < |cs| && p < |Pool(cs[i], article, le)|
    ensures Sorted(le, Pool(cs[i], article, le))
    ensures ListedFor(cs, le, Pool(cs[i], article, le)[p]) <==> p < SumBy(AllocatedOf(article), cs[i].allocations)
  {
    var code := Pool(cs[i], article, le)[p];
    PoolInOrder(cs[i], article, le);
    LinesCoverThePool(cs[i], le, article, p);
    forall customer
      ensures OnList(PackedFor(cs, le, customer), code) <==> OnLines(LinesOf(cs[i], le, customer), code)
    {
      ListedAtHome(cs, le, i, article, customer, code);
    }
    assert ListedFor(cs, le, code) <==> HandedOut(cs[i], le, code);
  }

  /** A bale is listed from its own container, or not at all. */
  lemma {:induction false} ListedAtHome(cs: seq<Loaded>, le: (string, string) -> bool, i: nat, article: string,
                                        customer: int, code: string)
    requires CodesIdentify(cs) && i < |cs| && code in Pool(cs[i], article, le)
    ensures OnList(PackedFor(cs, le, customer), code) <==> OnLines(LinesOf(cs[i], le, customer), code)
  {
    OnListIsSomewhere(cs, le, customer, code);
    PoolIsArticle(cs[i], article, le);
    assert CodedBale(article, code) in cs[i].bales;
    assert HasCode(cs[i].bales, code);
    if OnList(PackedFor(cs, le, customer), code) {
      var j :| 0 <= j < |cs| && OnLines(LinesOf(cs[j], le, customer), code);
      OnLinesIsHeld(cs[j], le, customer, code);
    }
  }

  // ---- What a list says ----------------------------------------------------------------------

  /** A container's allocations are served in the order of the customers' numbers, then of the articles. */
  lemma {:induction false} ServedInOrder(c: Loaded, le: (string, string) -> bool)
    requires TotalPreorder(le)
    ensures var ordered := Ordered(c, le);
            && multiset(ordered) == multiset(c.allocations)
            && forall i, j :: 0 <= i < j < |ordered| ==>
                 ordered[i].customer < ordered[j].customer
                 || (ordered[i].customer == ordered[j].customer && le(ordered[i].article, ordered[j].article))
  {
    var order := AllocationOrder(le);
    SortPermutes(order, c.allocations);
    assert TotalPreorder(order) by {
      forall x, y
        ensures order(x, y) || order(y, x)
      {
        assert le(x.article, y.article) || le(y.article, x.article);
      }
      forall x, y, z | order(x, y) && order(y, z)
        ensures order(x, z)
      {
        assert le(x.article, y.article) && le(y.article, z.article) ==> le(x.article, z.article);
      }
    }
    SortSorted(order, c.allocations);
    forall i, j | 0 <= i < j < |Ordered(c, le)|
      ensures order(Ordered(c, le)[i], Ordered(c, le)[j])
    {
    }
  }

  /** The line of an allocation names its article and quantity, and the bales of the pool from
      where the allocations before it stopped, as many as are left. */
  lemma {:induction false} LineHolds(c: Loaded, le: (string, string) -> bool, k: nat)
    requires k < |Ordered(c, le)|
    ensures var (a, line) := (Ordered(c, le)[k], LineAt(c, le, k));
            var (pool, taken) := (Pool(c, a.article, le), SumBy(AllocatedOf(a.article), Ordered(c, le)[..k]));
            && line.article == a.article && line.qty == Max(0, a.qty) && taken >= 0
            && |line.codes| == Max(0, Min(line.qty, |pool| - taken))
            && forall m :: 0 <= m < |line.codes| ==> line.codes[m] == pool[taken + m]
  {
    TakenIsSum(Ordered(c, le), k, Ordered(c, le)[k].article);
    TakenNotNegative(Ordered(c, le), k, Ordered(c, le)[k].article);
  }

  /** The places below n that are to be kept. */
  function Places(n: nat, keep: nat -> bool): seq<nat> {
    if n == 0 then [] else Places(n - 1, keep) + if keep(n - 1) then [n - 1] else []
  }

  /** They are all there, in ascending order. */
  lemma {:induction false} PlacesAscend(n: nat, keep: nat -> bool)
    ensures var places := Places(n, keep);
            && (forall i, j :: 0 <= i < j < |places| ==> places[i] < places[j])
            && forall k: nat :: k in places <==> k < n && keep(k)
  {
    if n > 0 {
      PlacesAscend(n - 1, keep);
      var front := Places(n - 1, keep);
      assert forall i :: 0 <= i < |front| ==> front[i] in front;
    }
  }

  lemma {:induction false} PlacesNext<T>(f: nat -> T, n: nat, keep: nat -> bool)
    ensures Map<nat, T>(f, Places(n + 1, keep))
            == Map<nat, T>(f, Places(n, keep)) + if keep(n) then [f(n)] else []
  {
    MapNext<nat, T>(f, Places(n, keep), n);
  }

  /** The allocations of something to the customer. */
  function ForCustomer(c: Loaded, le: (string, string) -> bool, customer: int): nat -> bool {
    (k: nat) => k < |Ordered(c, le)| && Ordered(c, le)[k].customer == customer && Ordered(c, le)[k].qty > 0
  }

  function LineFor(c: Loaded, le: (string, string) -> bool): nat -> PackingLine {
    (k: nat) => if k < |Ordered(c, le)| then LineAt(c, le, k) else PackingLine("", 0, [])
  }

  lemma {:induction false} LinesUpToAre(c: Loaded, le: (string, string) -> bool, customer: int, n: nat)
    requires n <= |Ordered(c, le)|
    ensures LinesUpTo(c, le, customer, n)
            == Map<nat, PackingLine>(LineFor(c, le), Places(n, ForCustomer(c, le, customer)))
  {
    if n > 0 {
      LinesUpToAre(c, le, customer, n - 1);
      PlacesNext(LineFor(c, le), n - 1, ForCustomer(c, le, customer));
      assert ForCustomer(c, le, customer)(n - 1) == Mine(c, le, customer, n - 1);
      assert LineFor(c, le)(n - 1) == LineAt(c, le, n - 1);
    }
  }

  /** The customer's lines are those of its allocations of something, in the order they are served. */
  lemma {:induction false} LinesAreMine(c: Loaded, le: (string, string) -> bool, customer: int)
    ensures LinesOf(c, le, customer)
            == Map<nat, PackingLine>(LineFor(c, le), Places(|c.allocations|, ForCustomer(c, le, customer)))
  {
    SortPermutes(AllocationOrder(le), c.allocations);
    LinesUpToAre(c, le, customer, |c.allocations|);
  }

  /** The containers that hold anything for the customer. */
  function WithLines(cs: seq<Loaded>, le: (string, string) -> bool, customer: int): nat -> bool {
    (k: nat) => k < |cs| && LinesOf(cs[k], le, customer) != []
  }

  function ContainerFor(cs: seq<Loaded>, le: (string, string) -> bool, customer: int): nat -> PackedContainer {
    (k: nat) => if k < |cs| then PackedContainer(cs[k].id, LinesOf(cs[k], le, customer)) else PackedContainer(0, [])
  }

  lemma {:induction false} PackedUpToAre(cs: seq<Loaded>, le: (string, string) -> bool, customer: int, n: nat)
    requires n <= |cs|
    ensures PackedFor(cs[..n], le, customer)
            == Map<nat, PackedContainer>(ContainerFor(cs, le, customer), Places(n, WithLines(cs, le, customer)))
  {
    if n > 0 {
      PackedUpToAre(cs, le, customer, n - 1);
      assert cs[..n][..n - 1] == cs[..n - 1];
      PlacesNext(ContainerFor(cs, le, customer), n - 1, WithLines(cs, le, customer));
    }
  }

  /** The list has the containers that hold anything for the customer, in their order. */
  lemma {:induction false} ContainersAreMine(cs: seq<Loaded>, le: (string, string) -> bool, customer: int)
    ensures PackedFor(cs, le, customer)
            == Map<nat, PackedContainer>(ContainerFor(cs, le, customer), Places(|cs|, WithLines(cs, le, customer)))
  {
    PackedUpToAre(cs, le, customer, |cs|);
    assert cs[..|cs|] == cs;
  }
}
