/** Saving one customer's allocation on a container: the request is checked line by
    line and replaces what the customer had there. */
module AllocationRequest {
  import opened Standard
  import opened DoubleSums
  import opened ContainerPlanner

  datatype Allocation = Allocation(container: int, customer: int, article: string, qty: int)

  /** The trimmed article code; None is a quantity that is not a safe whole number. */
  datatype RequestLine = RequestLine(article: string, qty: Option<int>)

  datatype Reason = InvalidQuantity | ArticleNotPlanned | ContainerQuantityExceeded | OrderDemandExceeded

  datatype Grant = Grant(article: string, qty: int)
  datatype Verdict = Accepted(grant: Grant) | Rejected(article: string, reason: Reason)

  datatype Limits = Limits(
    planned: map<string, int>, existing: map<string, int>, current: map<string, int>,
    demand: Option<map<string, int>>, elsewhere: map<string, int>)

  function At(m: map<string, int>, article: string): int { if article in m then m[article] else 0 }

  /** Room left for the customer beside the other customers of the container. */
  function Headroom(limits: Limits, article: string): int {
    At(limits.planned, article)
    - Max(NonNegative(At(limits.existing, article)) - NonNegative(At(limits.current, article)), 0)
  }

  /** The quantity fits beside the other customers and within the order. */
  predicate Fits(limits: Limits, article: string, qty: int) {
    && qty <= Headroom(limits, article)
    && (limits.demand.Some? ==>
          qty + NonNegative(At(limits.elsewhere, article)) <= NonNegative(At(limits.demand.value, article)))
  }

  function Judge(limits: Limits, line: RequestLine): Verdict {
    if line.article == "" || line.qty.None? || line.qty.value < 0 then Rejected(line.article, InvalidQuantity)
    else if At(limits.planned, line.article) <= 0 then Rejected(line.article, ArticleNotPlanned)
    else if line.qty.value > Headroom(limits, line.article) then Rejected(line.article, ContainerQuantityExceeded)
    else if limits.demand.Some?
            && line.qty.value + NonNegative(At(limits.elsewhere, line.article))
               > NonNegative(At(limits.demand.value, line.article))
    then Rejected(line.article, OrderDemandExceeded)
    else Accepted(Grant(line.article, line.qty.value))
  }

  function Grants(limits: Limits, lines: seq<RequestLine>): seq<Grant> {
    if lines == [] then []
    else
      var n := |lines| - 1;
      var v := Judge(limits, lines[n]);
      Grants(limits, lines[..n]) + if v.Accepted? then [v.grant] else []
  }

  function Refusals(limits: Limits, lines: seq<RequestLine>): seq<Verdict> {
    if lines == [] then []
    else
      var n := |lines| - 1;
      var v := Judge(limits, lines[n]);
      Refusals(limits, lines[..n]) + if v.Accepted? then [] else [v]
  }

  // ---- What a line is judged by ---------------------------------------------------------

  /** What bears on one article: what is planned of it, what the other customers have of it
      in the container, what the order asks for and what the customer has of it elsewhere. */
  datatype Bounds = Bounds(planned: int, others: int, demand: Option<int>, elsewhere: int)

  /** A code, a whole quantity, a planned article, and room for it in container and order. */
  predicate Admissible(b: Bounds, line: RequestLine) {
    && line.article != "" && line.qty.Some? && line.qty.value >= 0 && b.planned > 0
    && line.qty.value + b.others <= b.planned
    && (b.demand.Some? ==> line.qty.value + b.elsewhere <= b.demand.value)
  }

  /** Why a line that is not admissible is rejected: the first thing wrong with it. */
  function Grounds(b: Bounds, line: RequestLine): Reason {
    if line.article == "" || line.qty.None? || line.qty.value < 0 then InvalidQuantity
    else if b.planned <= 0 then ArticleNotPlanned
    else if line.qty.value + b.others > b.planned then ContainerQuantityExceeded
    else OrderDemandExceeded
  }

  function BoundsIn(limits: Limits): string -> Bounds {
    (article: string) =>
      Bounds(At(limits.planned, article),
             Max(0, NonNegative(At(limits.existing, article)) - NonNegative(At(limits.current, article))),
             if limits.demand.Some? then Some(NonNegative(At(limits.demand.value, article))) else None,
             NonNegative(At(limits.elsewhere, article)))
  }

  function Passes(bounds: string -> Bounds): RequestLine -> bool {
    (line: RequestLine) => Admissible(bounds(line.article), line)
  }

  function Fails(bounds: string -> Bounds): RequestLine -> bool {
    (line: RequestLine) => !Admissible(bounds(line.article), line)
  }

  function AsGrant(): RequestLine -> Grant {
    (line: RequestLine) => Grant(line.article, if line.qty.Some? then line.qty.value else 0)
  }

  function AsRefusal(bounds: string -> Bounds): RequestLine -> Verdict {
    (line: RequestLine) => Rejected(line.article, Grounds(bounds(line.article), line))
  }

  /** The admissible lines are accepted as they stand, and the others rejected with their
      grounds, both in the order of the request. */
  ghost predicate Decided(accepted: seq<Grant>, rejected: seq<Verdict>, lines: seq<RequestLine>,
                          bounds: string -> Bounds) {
    && accepted == Map(AsGrant(), Filter(Passes(bounds), lines))
    && rejected == Map(AsRefusal(bounds), Filter(Fails(bounds), lines))
  }

  lemma {:induction false} LineDecided(limits: Limits, line: RequestLine)
    ensures var b := BoundsIn(limits)(line.article);
            Judge(limits, line)
            == if Admissible(b, line) then Accepted(Grant(line.article, line.qty.value))
               else Rejected(line.article, Grounds(b, line))
  {
  }

  lemma {:induction false} JudgedNext(limits: Limits, lines: seq<RequestLine>, line: RequestLine)
    ensures var v := Judge(limits, line);
            && Grants(limits, lines + [line]) == Grants(limits, lines) + (if v.Accepted? then [v.grant] else [])
            && Refusals(limits, lines + [line]) == Refusals(limits, lines) + if v.Accepted? then [] else [v]
  {
    assert (lines + [line])[..|lines|] == lines;
  }

  lemma {:induction false} DecidedNext(accepted: seq<Grant>, rejected: seq<Verdict>, lines: seq<RequestLine>,
                                       bounds: string -> Bounds, line: RequestLine)
    requires Decided(accepted, rejected, lines, bounds)
    ensures if Admissible(bounds(line.article), line) then
              Decided(accepted + [AsGrant()(line)], rejected, lines + [line], bounds)
            else Decided(accepted, rejected + [AsRefusal(bounds)(line)], lines + [line], bounds)
  {
    FilterAppend(Passes(bounds), lines, line);
    FilterAppend(Fails(bounds), lines, line);
    MapNext(AsGrant(), Filter(Passes(bounds), lines), line);
    MapNext(AsRefusal(bounds), Filter(Fails(bounds), lines), line);
  }

  lemma {:induction false} LinesDecided(limits: Limits, lines: seq<RequestLine>, bounds: string -> Bounds)
    requires forall article :: bounds(article) == BoundsIn(limits)(article)
    ensures Decided(Grants(limits, lines), Refusals(limits, lines), lines, bounds)
  {
    if lines != [] {
      var front, line := lines[..|lines| - 1], lines[|lines| - 1];
      assert lines == front + [line];
      LinesDecided(limits, front, bounds);
      LineDecided(limits, line);
      JudgedNext(limits, front, line);
      DecidedNext(Grants(limits, front), Refusals(limits, front), front, bounds, line);
    }
  }

  method ValidateContainerAllocation(limits: Limits, lines: seq<RequestLine>)
    returns (accepted: seq<Grant>, rejected: seq<Verdict>)
    ensures accepted == Grants(limits, lines) && rejected == Refusals(limits, lines)
    ensures Decided(accepted, rejected, lines, BoundsIn(limits))
    ensures |accepted| + |rejected| == |lines|
    ensures forall g :: g in accepted ==>
            g.qty >= 0 && At(limits.planned, g.article) > 0 && Fits(limits, g.article, g.qty)
  {
    accepted, rejected := [], [];
    var i := 0;
    while i < |lines|
      invariant 0 <= i <= |lines|
      invariant accepted == Grants(limits, lines[..i]) && rejected == Refusals(limits, lines[..i])
      invariant |accepted| + |rejected| == i
      invariant forall g :: g in accepted ==>
                g.qty >= 0 && At(limits.planned, g.article) > 0 && Fits(limits, g.article, g.qty)
    {
      assert lines[..i + 1][..i] == lines[..i];
      var v := Judge(limits, lines[i]);
      if v.Accepted? { accepted := accepted + [v.grant]; } else { rejected := rejected + [v]; }
      i := i + 1;
    }
    assert lines[..i] == lines;
    LinesDecided(limits, lines, BoundsIn(limits));
  }

  // ---- What is on record ------------------------------------------------------------------

  function InContainer(container: int, article: string): Allocation -> int {
    (a: Allocation) => if a.container == container && a.article == article then a.qty else 0
  }

  function HereOf(container: int, customer: int, article: string): Allocation -> int {
    (a: Allocation) => if a.container == container && a.customer == customer && a.article == article then a.qty else 0
  }

  function ElsewhereOf(container: int, customer: int, article: string): Allocation -> int {
    (a: Allocation) => if a.container != container && a.customer == customer && a.article == article then a.qty else 0
  }

  /** What is on record of one article. */
  datatype Usage = Usage(existing: int, current: int, elsewhere: int)

  function UsageOf(allocations: seq<Allocation>, container: int, customer: int, article: string): Usage {
    Usage(SumBy(InContainer(container, article), allocations), SumBy(HereOf(container, customer, article), allocations),
          SumBy(ElsewhereOf(container, customer, article), allocations))
  }

  /** The three maps hold the sums of the allocations read so far. */
  ghost predicate Collected(limits: Limits, allocations: seq<Allocation>, container: int, customer: int) {
    forall article :: Recorded(limits, article) == UsageOf(allocations, container, customer, article)
  }

  /** What the three maps say of an article. */
  function Recorded(limits: Limits, article: string): Usage {
    Usage(At(limits.existing, article), At(limits.current, article), At(limits.elsewhere, article))
  }

  function Add(m: map<string, int>, article: string, qty: int): map<string, int> { m[article := At(m, article) + qty] }

  function Counting(limits: Limits, a: Allocation, container: int, customer: int): Limits {
    if a.container == container then
      limits.(existing := Add(limits.existing, a.article, a.qty),
              current := if a.customer == customer then Add(limits.current, a.article, a.qty) else limits.current)
    else if a.customer == customer then limits.(elsewhere := Add(limits.elsewhere, a.article, a.qty))
    else limits
  }

  /** What a request is checked against: the maps filled from the allocations on record. */
  function LimitsOf(allocations: seq<Allocation>, container: int, customer: int,
                    planned: map<string, int>, demand: Option<map<string, int>>): (limits: Limits)
    ensures limits.planned == planned && limits.demand == demand
  {
    if allocations == [] then Limits(planned, map[], map[], demand, map[])
    else
      var n := |allocations| - 1;
      Counting(LimitsOf(allocations[..n], container, customer, planned, demand), allocations[n], container, customer)
  }

  method CollectAllocated(allocations: seq<Allocation>, container: int, customer: int,
                          planned: map<string, int>, demand: Option<map<string, int>>)
    returns (limits: Limits)
    ensures limits == LimitsOf(allocations, container, customer, planned, demand)
  {
    limits := Limits(planned, map[], map[], demand, map[]);
    var i := 0;
    while i < |allocations|
      invariant 0 <= i <= |allocations|
      invariant limits == LimitsOf(allocations[..i], container, customer, planned, demand)
    {
      var a := allocations[i];
      assert allocations[..i + 1][..i] == allocations[..i];
      if a.container == container {
        limits := limits.(existing := Add(limits.existing, a.article, a.qty));
        if a.customer == customer { limits := limits.(current := Add(limits.current, a.article, a.qty)); }
      } else if a.customer == customer {
        limits := limits.(elsewhere := Add(limits.elsewhere, a.article, a.qty));
      }
      i := i + 1;
    }
    assert allocations[..i] == allocations;
  }

  lemma {:induction false} LimitsAreSums(allocations: seq<Allocation>, container: int, customer: int,
                                         planned: map<string, int>, demand: Option<map<string, int>>)
    ensures Collected(LimitsOf(allocations, container, customer, planned, demand), allocations, container, customer)
  {
    if allocations != [] {
      var n := |allocations| - 1;
      LimitsAreSums(allocations[..n], container, customer, planned, demand);
      assert allocations == allocations[..n] + [allocations[n]];
      CountingKeepsSums(LimitsOf(allocations[..n], container, customer, planned, demand), allocations[..n],
                        allocations[n], container, customer);
    }
  }

  lemma {:induction false} CountingKeepsSums(limits: Limits, allocations: seq<Allocation>, a: Allocation,
                                             container: int, customer: int)
    requires Collected(limits, allocations, container, customer)
    ensures Collected(Counting(limits, a, container, customer), allocations + [a], container, customer)
  {
    var next := Counting(limits, a, container, customer);
    forall article
      ensures Recorded(next, article) == UsageOf(allocations + [a], container, customer, article)
    {
      assert Recorded(limits, article) == UsageOf(allocations, container, customer, article);
      UsageNext(allocations, a, container, customer, article);
      RecordedNext(limits, a, container, customer, article);
    }
  }

  lemma {:induction false} RecordedNext(limits: Limits, a: Allocation, container: int, customer: int, article: string)
    ensures Recorded(Counting(limits, a, container, customer), article)
            == if article == a.article then Counted(Recorded(limits, article), a, container, customer)
               else Recorded(limits, article)
  {
  }

  function Counted(u: Usage, a: Allocation, container: int, customer: int): Usage {
    if a.container == container then
      Usage(u.existing + a.qty, u.current + if a.customer == customer then a.qty else 0, u.elsewhere)
    else Usage(u.existing, u.current, u.elsewhere + if a.customer == customer then a.qty else 0)
  }

  lemma {:induction false} UsageNext(allocations: seq<Allocation>, a: Allocation, container: int, customer: int,
                                     article: string)
    ensures UsageOf(allocations + [a], container, customer, article)
            == if article == a.article then
               Counted(UsageOf(allocations, container, customer, article), a, container, customer)
               else UsageOf(allocations, container, customer, article)
  {
    SumByAppend(InContainer(container, article), allocations, [a]);
    SumByOne(InContainer(container, article), a);
    SumByAppend(HereOf(container, customer, article), allocations, [a]);
    SumByOne(HereOf(container, customer, article), a);
    SumByAppend(ElsewhereOf(container, customer, article), allocations, [a]);
    SumByOne(ElsewhereOf(container, customer, article), a);
  }

  lemma {:induction false} UsageHead(a: Allocation, rest: seq<Allocation>, container: int, customer: int,
                                     article: string)
    ensures UsageOf([a] + rest, container, customer, article)
            == if article == a.article then Counted(UsageOf(rest, container, customer, article), a, container, customer)
               else UsageOf(rest, container, customer, article)
  {
    assert ([a] + rest)[1..] == rest;
  }

  // ---- The bounds on record ---------------------------------------------------------------

  function OthersOf(container: int, customer: int, article: string): Allocation -> int {
    (a: Allocation) => if a.container == container && a.customer != customer && a.article == article then a.qty else 0
  }

  /** What bears on an article, by the allocations on record. The customer's own allocation in
      the container does not: the request replaces it. */
  function BoundsOn(allocations: seq<Allocation>, container: int, customer: int, planned: map<string, int>,
                    demand: Option<map<string, int>>): string -> Bounds {
    (article: string) =>
      Bounds(if article in planned then planned[article] else 0,
             SumBy(OthersOf(container, customer, article), allocations),
             if demand.None? then None
             else if article in demand.value then Some(Max(0, demand.value[article])) else Some(0),
             SumBy(ElsewhereOf(container, customer, article), allocations))
  }

  lemma {:induction false} BoundsAgree(allocations: seq<Allocation>, container: int, customer: int,
                                       planned: map<string, int>, demand: Option<map<string, int>>, article: string)
    requires NoneNegative(allocations)
    ensures BoundsOn(allocations, container, customer, planned, demand)(article)
            == BoundsIn(LimitsOf(allocations, container, customer, planned, demand))(article)
  {
    RecordedIs(allocations, container, customer, planned, demand, article);
    OthersAre(allocations, container, customer, article);
    HereWithin(allocations, container, customer, article);
  }

  lemma {:induction false} RecordedIs(allocations: seq<Allocation>, container: int, customer: int,
                                      planned: map<string, int>, demand: Option<map<string, int>>, article: string)
    ensures Recorded(LimitsOf(allocations, container, customer, planned, demand), article)
            == UsageOf(allocations, container, customer, article)
  {
    LimitsAreSums(allocations, container, customer, planned, demand);
  }

  lemma {:induction false} OthersAre(allocations: seq<Allocation>, container: int, customer: int, article: string)
    requires NoneNegative(allocations)
    ensures var u := UsageOf(allocations, container, customer, article);
            SumBy(OthersOf(container, customer, article), allocations) == u.existing - u.current >= 0
  {
    SumByPlus(InContainer(container, article), HereOf(container, customer, article),
              OthersOf(container, customer, article), allocations);
    SumByNotNegative(OthersOf(container, customer, article), allocations);
  }

  /** A request is decided by the allocations on record. */
  lemma {:induction false} DecidedOnRecord(allocations: seq<Allocation>, container: int, customer: int,
                                           planned: map<string, int>, demand: Option<map<string, int>>,
                                           lines: seq<RequestLine>)
    requires NoneNegative(allocations)
    ensures var limits := LimitsOf(allocations, container, customer, planned, demand);
            Decided(Grants(limits, lines), Refusals(limits, lines), lines,
                    BoundsOn(allocations, container, customer, planned, demand))
  {
    forall article {
      BoundsAgree(allocations, container, customer, planned, demand, article);
    }
    LinesDecided(LimitsOf(allocations, container, customer, planned, demand), lines,
                 BoundsOn(allocations, container, customer, planned, demand));
  }

  // ---- Saving -----------------------------------------------------------------------------

  function IsOther(container: int, customer: int): Allocation -> bool {
    (a: Allocation) => !(a.container == container && a.customer == customer)
  }

  function Entries(container: int, customer: int, grants: seq<Grant>): seq<Allocation> {
    if grants == [] then []
    else (if grants[0].qty > 0 then [Allocation(container, customer, grants[0].article, grants[0].qty)] else [])
         + Entries(container, customer, grants[1..])
  }

  /** The table's unique index covers container, customer and article. */
  predicate KeyTaken(table: seq<Allocation>, a: Allocation) {
    exists i :: 0 <= i < |table| &&
      table[i].container == a.container && table[i].customer == a.customer && table[i].article == a.article
  }

  ghost predicate UniqueKeys(table: seq<Allocation>) {
    forall i, j :: 0 <= i < j < |table| ==>
      !(table[i].container == table[j].container && table[i].customer == table[j].customer
        && table[i].article == table[j].article)
  }

  /** How a save ends. Anything but a commit is rolled back. */
  datatype SaveResult = Committed(allocations: seq<Allocation>) | NothingAccepted | DuplicateEntry

  /** The table once the request is over. */
  function Stored(before: seq<Allocation>, result: SaveResult): seq<Allocation> {
    if result.Committed? then result.allocations else before
  }

  /** Inserting the entries in order stops at the first whose key is taken. */
  function Inserted(table: seq<Allocation>, entries: seq<Allocation>): SaveResult
    decreases |entries|
  {
    if entries == [] then Committed(table)
    else if KeyTaken(table, entries[0]) then DuplicateEntry
    else Inserted(table + [entries[0]], entries[1..])
  }

  /** The customer's allocations on the container are replaced by what was granted. */
  function SaveOf(allocations: seq<Allocation>, container: int, customer: int, grants: seq<Grant>): SaveResult {
    if grants == [] then NothingAccepted
    else Inserted(Filter(IsOther(container, customer), allocations), Entries(container, customer, grants))
  }

  method InsertEntries(table0: seq<Allocation>, entries: seq<Allocation>) returns (result: SaveResult)
    ensures result == Inserted(table0, entries)
  {
    var table := table0;
    var i := 0;
    assert entries[0..] == entries;
    while i < |entries|
      invariant 0 <= i <= |entries|
      invariant Inserted(table, entries[i..]) == Inserted(table0, entries)
    {
      assert entries[i..][1..] == entries[i + 1..];
      if KeyTaken(table, entries[i]) { return DuplicateEntry; }
      table := table + [entries[i]];
      i := i + 1;
    }
    result := Committed(table);
  }

  /** What is accepted by the bounds is what is saved, and the rest is reported. */
  ghost predicate DecidedAndStored(result: SaveResult, rejected: seq<Verdict>, lines: seq<RequestLine>,
                                   allocations: seq<Allocation>, container: int, customer: int,
                                   bounds: string -> Bounds) {
    && result == SaveOf(allocations, container, customer, Map(AsGrant(), Filter(Passes(bounds), lines)))
    && rejected == Map(AsRefusal(bounds), Filter(Fails(bounds), lines))
  }

  /** Reads what is on record, checks the request against it, deletes the
      customer's allocation and inserts what was accepted. */
  method SaveAllocation(allocations: seq<Allocation>, container: int, customer: int,
                        planned: map<string, int>, demand: Option<map<string, int>>, lines: seq<RequestLine>)
    returns (result: SaveResult, rejected: seq<Verdict>)
    ensures var limits := LimitsOf(allocations, container, customer, planned, demand);
            result == SaveOf(allocations, container, customer, Grants(limits, lines))
              && rejected == Refusals(limits, lines)
    ensures NoneNegative(allocations) ==>
              DecidedAndStored(result, rejected, lines, allocations, container, customer,
                               BoundsOn(allocations, container, customer, planned, demand))
    ensures NoneNegative(allocations) && WithinPlan(allocations, container, planned) ==>
              WithinPlan(Stored(allocations, result), container, planned)
    ensures NoneNegative(allocations) ==> NoneNegative(Stored(allocations, result))
    ensures UniqueKeys(allocations) ==> UniqueKeys(Stored(allocations, result))
  {
    var limits := CollectAllocated(allocations, container, customer, planned, demand);
    var accepted, refused := ValidateContainerAllocation(limits, lines);
    rejected := refused;
    if |accepted| == 0 {
      result := NothingAccepted;
    } else {
      result := InsertEntries(Filter(IsOther(container, customer), allocations),
        Entries(container, customer, accepted));
    }
    if NoneNegative(allocations) && WithinPlan(allocations, container, planned) {
      SaveStaysWithinPlan(allocations, container, customer, planned, demand, lines);
    }
    if NoneNegative(allocations) { DecidedOnRecord(allocations, container, customer, planned, demand, lines); }
    if NoneNegative(allocations) { SaveStaysNonNegative(allocations, container, customer, planned, demand, lines); }
    if UniqueKeys(allocations) { SaveKeepsUnique(allocations, container, customer, accepted); }
  }

  ghost predicate NoneNegative(allocations: seq<Allocation>) {
    forall a :: a in allocations ==> a.qty >= 0
  }

  /** No more of an article is allocated in the container than is planned for it. */
  ghost predicate WithinPlan(allocations: seq<Allocation>, container: int, planned: map<string, int>) {
    forall article :: SumBy(InContainer(container, article), allocations) <= NonNegative(At(planned, article))
  }

  function GrantQty(article: string): Grant -> int { (g: Grant) => if g.article == article then g.qty else 0 }

  // ---- What the unique index refuses --------------------------------------------------------

  /** No two positive grants name the same article. */
  ghost predicate OneEach(grants: seq<Grant>) {
    forall i, j :: 0 <= i < j < |grants| && grants[i].qty > 0 && grants[j].qty > 0 ==>
      grants[i].article != grants[j].article
  }

  ghost predicate KeysFree(table: seq<Allocation>, container: int, customer: int, grants: seq<Grant>) {
    forall g :: g in grants && g.qty > 0 ==> !KeyTaken(table, Allocation(container, customer, g.article, g.qty))
  }

  lemma {:induction false} TakenAppended(table: seq<Allocation>, a: Allocation, b: Allocation)
    ensures KeyTaken(table + [a], b) <==>
            KeyTaken(table, b) || (a.container == b.container && a.customer == b.customer && a.article == b.article)
  {
    var more := table + [a];
    assert more[|table|] == a && forall i :: 0 <= i < |table| ==> more[i] == table[i];
  }

  /** The inserts succeed exactly when the positive grants name different articles. */
  lemma {:induction false} InsertedIff(table: seq<Allocation>, container: int, customer: int, grants: seq<Grant>)
    requires KeysFree(table, container, customer, grants)
    ensures var result := Inserted(table, Entries(container, customer, grants));
            if OneEach(grants) then result == Committed(table + Entries(container, customer, grants))
            else result == DuplicateEntry
    decreases |grants|
  {
    if grants == [] {
      assert table + [] == table;
    } else {
      assert forall g :: g in grants[1..] ==> g in grants;
      var g, entries := grants[0], Entries(container, customer, grants[1..]);
      OneEachHead(grants);
      if g.qty > 0 {
        var a := Allocation(container, customer, g.article, g.qty);
        assert ([a] + entries)[1..] == entries;
        assert table + ([a] + entries) == (table + [a]) + entries;
        if forall h :: h in grants[1..] && h.qty > 0 ==> h.article != g.article {
          ApartAppended(table, a, container, customer, grants[1..]);
          InsertedIff(table + [a], container, customer, grants[1..]);
        } else {
          var h :| h in grants[1..] && h.qty > 0 && h.article == g.article;
          TakenAppended(table, a, Allocation(container, customer, h.article, h.qty));
          RefusedWhereTaken(table + [a], container, customer, grants[1..], h);
        }
      } else {
        assert Entries(container, customer, grants) == entries;
        InsertedIff(table, container, customer, grants[1..]);
      }
    }
  }

  lemma {:induction false} OneEachHead(grants: seq<Grant>)
    requires grants != []
    ensures OneEach(grants) <==>
            OneEach(grants[1..])
            && (grants[0].qty > 0 ==> forall h :: h in grants[1..] && h.qty > 0 ==> h.article != grants[0].article)
  {
    if OneEach(grants) {
      forall h | h in grants[1..] && h.qty > 0 && grants[0].qty > 0
        ensures h.article != grants[0].article
      {
        var j :| 0 <= j < |grants[1..]| && grants[1..][j] == h;
        assert grants[j + 1] == h;
      }
    }
    assert forall j :: 1 <= j < |grants| ==> grants[j] == grants[1..][j - 1] && grants[j] in grants[1..];
    assert forall j :: 0 <= j < |grants[1..]| ==> grants[1..][j] == grants[j + 1];
  }

  lemma {:induction false} ApartAppended(table: seq<Allocation>, a: Allocation, container: int, customer: int,
                                         grants: seq<Grant>)
    requires KeysFree(table, container, customer, grants)
    requires forall h :: h in grants && h.qty > 0 ==> h.article != a.article
    ensures KeysFree(table + [a], container, customer, grants)
  {
    forall g | g in grants && g.qty > 0
      ensures !KeyTaken(table + [a], Allocation(container, customer, g.article, g.qty))
    {
      TakenAppended(table, a, Allocation(container, customer, g.article, g.qty));
    }
  }

  lemma {:induction false} RefusedWhereTaken(table: seq<Allocation>, container: int, customer: int,
                                             grants: seq<Grant>, h: Grant)
    requires h in grants && h.qty > 0 && KeyTaken(table, Allocation(container, customer, h.article, h.qty))
    ensures Inserted(table, Entries(container, customer, grants)) == DuplicateEntry
    decreases |grants|
  {
    var g, entries := grants[0], Entries(container, customer, grants[1..]);
    if g.qty > 0 {
      var a := Allocation(container, customer, g.article, g.qty);
      assert ([a] + entries)[1..] == entries;
      if !KeyTaken(table, a) {
        TakenAppended(table, a, Allocation(container, customer, h.article, h.qty));
        assert h in grants[1..];
        RefusedWhereTaken(table + [a], container, customer, grants[1..], h);
      }
    } else {
      assert Entries(container, customer, grants) == entries;
      assert h in grants[1..];
      RefusedWhereTaken(table, container, customer, grants[1..], h);
    }
  }

  lemma {:induction false} OthersApart(allocations: seq<Allocation>, container: int, customer: int, grants: seq<Grant>)
    ensures KeysFree(Filter(IsOther(container, customer), allocations), container, customer, grants)
  {
    var others := Filter(IsOther(container, customer), allocations);
    assert forall i :: 0 <= i < |others| ==> others[i] in others;
  }

  /** A save commits if and only if a line is accepted and no article has two
      positive accepted lines; the rows are then the others' and the accepted. */
  lemma {:induction false} CommitsIff(allocations: seq<Allocation>, container: int, customer: int, grants: seq<Grant>)
    ensures var result := SaveOf(allocations, container, customer, grants);
            && (result.Committed? <==> grants != [] && OneEach(grants))
            && (result.Committed? ==>
                  result.allocations
                  == Filter(IsOther(container, customer), allocations) + Entries(container, customer, grants))
  {
    OthersApart(allocations, container, customer, grants);
    InsertedIff(Filter(IsOther(container, customer), allocations), container, customer, grants);
  }

  // ---- What a save leaves --------------------------------------------------------------------

  lemma {:induction false} OthersLeft(allocations: seq<Allocation>, container: int, customer: int, article: string)
    ensures var u := UsageOf(allocations, container, customer, article);
            UsageOf(Filter(IsOther(container, customer), allocations), container, customer, article)
            == Usage(u.existing - u.current, 0, u.elsewhere)
  {
    if allocations != [] {
      var a := allocations[0];
      var rest := Filter(IsOther(container, customer), allocations[1..]);
      OthersLeft(allocations[1..], container, customer, article);
      assert allocations == [a] + allocations[1..];
      UsageHead(a, allocations[1..], container, customer, article);
      UsageHead(a, rest, container, customer, article);
      assert [] + rest == rest;
    }
  }

  lemma {:induction false} EntriesHold(container: int, customer: int, grants: seq<Grant>, article: string)
    requires forall g :: g in grants ==> g.qty >= 0
    ensures var total := SumBy(GrantQty(article), grants);
            UsageOf(Entries(container, customer, grants), container, customer, article) == Usage(total, total, 0)
  {
    if grants != [] {
      assert forall g :: g in grants[1..] ==> g in grants;
      EntriesHold(container, customer, grants[1..], article);
      var rest := Entries(container, customer, grants[1..]);
      var a := Allocation(container, customer, grants[0].article, grants[0].qty);
      assert grants[0] in grants;
      UsageHead(a, rest, container, customer, article);
      assert [] + rest == rest;
    }
  }

  lemma {:induction false} GrantsFit(limits: Limits, lines: seq<RequestLine>)
    ensures forall g :: g in Grants(limits, lines) ==> g.qty >= 0 && Fits(limits, g.article, g.qty)
  {
    if lines != [] { GrantsFit(limits, lines[..|lines| - 1]); }
  }

  /** Where each article is granted once, the total granted of it is one grant's. */
  lemma {:induction false} GrantedOnce(grants: seq<Grant>, article: string)
    requires OneEach(grants) && forall g :: g in grants ==> g.qty >= 0
    ensures var total := SumBy(GrantQty(article), grants);
            total == 0 || exists g :: g in grants && g.article == article && g.qty == total
  {
    if grants != [] {
      assert forall g :: g in grants[1..] ==> g in grants;
      assert grants[0] in grants;
      OneEachHead(grants);
      GrantedOnce(grants[1..], article);
      if grants[0].article == article && grants[0].qty > 0 {
        forall h | h in grants[1..]
          ensures GrantQty(article)(h) == 0
        {
        }
        SumByZero(GrantQty(article), grants[1..]);
      }
    }
  }

  /** A committed save: what the customer has here is what was granted. */
  lemma {:induction false} SavedSums(allocations: seq<Allocation>, container: int, customer: int, grants: seq<Grant>,
                                     article: string)
    requires forall g :: g in grants ==> g.qty >= 0
    ensures var saved := Filter(IsOther(container, customer), allocations) + Entries(container, customer, grants);
            var before, after := UsageOf(allocations, container, customer, article),
                                 UsageOf(saved, container, customer, article);
            && after.elsewhere == before.elsewhere
            && after.current == SumBy(GrantQty(article), grants)
            && after.existing == before.existing - before.current + after.current
  {
    var others, entries := Filter(IsOther(container, customer), allocations), Entries(container, customer, grants);
    OthersLeft(allocations, container, customer, article);
    EntriesHold(container, customer, grants, article);
    SumByAppend(InContainer(container, article), others, entries);
    SumByAppend(HereOf(container, customer, article), others, entries);
    SumByAppend(ElsewhereOf(container, customer, article), others, entries);
  }

  lemma {:induction false} HereWithin(allocations: seq<Allocation>, container: int, customer: int, article: string)
    requires NoneNegative(allocations)
    ensures var u := UsageOf(allocations, container, customer, article);
            0 <= u.current <= u.existing && 0 <= u.elsewhere
  {
    SumByNotNegative(HereOf(container, customer, article), allocations);
    SumByNotNegative(ElsewhereOf(container, customer, article), allocations);
    SumByMonotone(HereOf(container, customer, article), InContainer(container, article), allocations);
  }

  /** What a committed save leaves of one article: nothing of the customer's, or an
      amount that fits beside the others and within the order. */
  lemma {:induction false} CommittedFits(allocations: seq<Allocation>, container: int, customer: int,
                                         planned: map<string, int>, demand: Option<map<string, int>>,
                                         lines: seq<RequestLine>, article: string)
    requires NoneNegative(allocations)
    requires SaveOf(allocations, container, customer,
                    Grants(LimitsOf(allocations, container, customer, planned, demand), lines)).Committed?
    ensures var limits := LimitsOf(allocations, container, customer, planned, demand);
            var saved := SaveOf(allocations, container, customer, Grants(limits, lines)).allocations;
            var before, after := UsageOf(allocations, container, customer, article),
                                 UsageOf(saved, container, customer, article);
            && after.existing == before.existing - before.current + after.current
            && after.elsewhere == before.elsewhere
            && (after.current == 0
                || (&& after.existing <= At(planned, article)
                    && (demand.Some? ==>
                          after.current + after.elsewhere <= NonNegative(At(demand.value, article)))))
  {
    var limits := LimitsOf(allocations, container, customer, planned, demand);
    var grants := Grants(limits, lines);
    LimitsAreSums(allocations, container, customer, planned, demand);
    assert Recorded(limits, article)
        == UsageOf(allocations, container, customer, article);
    CommitsIff(allocations, container, customer, grants);
    GrantsFit(limits, lines);
    GrantedOnce(grants, article);
    SavedSums(allocations, container, customer, grants, article);
    HereWithin(allocations, container, customer, article);
  }

  /** No request over-allocates the container: what commits stays within the plan
      and what does not changes nothing. */
  lemma {:induction false} SaveStaysWithinPlan(allocations: seq<Allocation>, container: int, customer: int,
                                               planned: map<string, int>, demand: Option<map<string, int>>,
                                               lines: seq<RequestLine>)
    requires NoneNegative(allocations) && WithinPlan(allocations, container, planned)
    ensures var limits := LimitsOf(allocations, container, customer, planned, demand);
            var result := SaveOf(allocations, container, customer, Grants(limits, lines));
            WithinPlan(Stored(allocations, result), container, planned)
  {
    var limits := LimitsOf(allocations, container, customer, planned, demand);
    var result := SaveOf(allocations, container, customer, Grants(limits, lines));
    if result.Committed? {
      forall article
        ensures SumBy(InContainer(container, article), result.allocations) <= NonNegative(At(planned, article))
      {
        CommittedFits(allocations, container, customer, planned, demand, lines, article);
        HereWithin(allocations, container, customer, article);
        assert UsageOf(result.allocations, container, customer, article).existing
            == SumBy(InContainer(container, article), result.allocations);
      }
    }
  }

  /** Nor does a committed save take more of an article, over all containers, than
      the order needs. */
  lemma {:induction false} SaveStaysWithinDemand(allocations: seq<Allocation>, container: int, customer: int,
                                                 planned: map<string, int>, demand: map<string, int>,
                                                 lines: seq<RequestLine>, article: string)
    requires NoneNegative(allocations)
    requires SaveOf(allocations, container, customer,
                    Grants(LimitsOf(allocations, container, customer, planned, Some(demand)), lines)).Committed?
    ensures var limits := LimitsOf(allocations, container, customer, planned, Some(demand));
            var u := UsageOf(SaveOf(allocations, container, customer, Grants(limits, lines)).allocations,
                             container, customer, article);
            u.current == 0 || u.current + u.elsewhere <= NonNegative(At(demand, article))
  {
    CommittedFits(allocations, container, customer, planned, Some(demand), lines, article);
  }

  lemma {:induction false} SaveStaysNonNegative(allocations: seq<Allocation>, container: int, customer: int,
                                                planned: map<string, int>, demand: Option<map<string, int>>,
                                                lines: seq<RequestLine>)
    requires NoneNegative(allocations)
    ensures var limits := LimitsOf(allocations, container, customer, planned, demand);
            NoneNegative(Stored(allocations, SaveOf(allocations, container, customer, Grants(limits, lines))))
  {
    var grants := Grants(LimitsOf(allocations, container, customer, planned, demand), lines);
    CommitsIff(allocations, container, customer, grants);
    EntriesPositive(container, customer, grants);
  }

  lemma {:induction false} EntriesPositive(container: int, customer: int, grants: seq<Grant>)
    ensures forall a :: a in Entries(container, customer, grants) ==> a.qty > 0
  {
    if grants != [] { EntriesPositive(container, customer, grants[1..]); }
  }

  /** The table keeps one row for each container, customer and article. */
  lemma {:induction false} SaveKeepsUnique(allocations: seq<Allocation>, container: int, customer: int,
                                           grants: seq<Grant>)
    requires UniqueKeys(allocations)
    ensures UniqueKeys(Stored(allocations, SaveOf(allocations, container, customer, grants)))
  {
    FilterKeepsUnique(allocations, container, customer);
    InsertKeepsUnique(Filter(IsOther(container, customer), allocations), Entries(container, customer, grants));
  }

  predicate SameKey(a: Allocation, b: Allocation) {
    a.container == b.container && a.customer == b.customer && a.article == b.article
  }

  lemma {:induction false} UniqueHead(a: Allocation, rest: seq<Allocation>)
    requires UniqueKeys(rest) && forall b :: b in rest ==> !SameKey(a, b)
    ensures UniqueKeys([a] + rest)
  {
    forall i, j | 0 <= i < j < |[a] + rest|
      ensures !SameKey(([a] + rest)[i], ([a] + rest)[j])
    {
      assert rest[j - 1] in rest;
      if i > 0 { assert ([a] + rest)[i] == rest[i - 1]; }
    }
  }

  lemma {:induction false} UniqueTail(table: seq<Allocation>)
    requires UniqueKeys(table) && table != []
    ensures UniqueKeys(table[1..]) && forall b :: b in table[1..] ==> !SameKey(table[0], b)
  {
  }

  lemma {:induction false} FilterKeepsUnique(allocations: seq<Allocation>, container: int, customer: int)
    requires UniqueKeys(allocations)
    ensures UniqueKeys(Filter(IsOther(container, customer), allocations))
  {
    if allocations != [] {
      UniqueTail(allocations);
      FilterKeepsUnique(allocations[1..], container, customer);
      var rest := Filter(IsOther(container, customer), allocations[1..]);
      UniqueHead(allocations[0], rest);
      assert [] + rest == rest;
    }
  }

  lemma {:induction false} InsertKeepsUnique(table: seq<Allocation>, entries: seq<Allocation>)
    requires UniqueKeys(table)
    ensures Inserted(table, entries).Committed? ==> UniqueKeys(Inserted(table, entries).allocations)
    decreases |entries|
  {
    if entries != [] && !KeyTaken(table, entries[0]) { InsertKeepsUnique(table + [entries[0]], entries[1..]); }
  }

  // ---- The accepted list on its own -------------------------------------------------------------

  /** The quantity of a line that passes every check by itself. */
  function PassingQty(limits: Limits, article: string): RequestLine -> int {
    (line: RequestLine) =>
      if line.article == article && article != "" && line.qty.Some? && line.qty.value >= 0
         && At(limits.planned, article) > 0 && Fits(limits, article, line.qty.value)
      then line.qty.value else 0
  }

  lemma {:induction false} AcceptedArePassing(limits: Limits, lines: seq<RequestLine>, article: string)
    ensures SumBy(GrantQty(article), Grants(limits, lines)) == SumBy(PassingQty(limits, article), lines)
  {
    if lines != [] {
      var n := |lines| - 1;
      AcceptedArePassing(limits, lines[..n], article);
      assert lines == lines[..n] + [lines[n]];
      SumByAppend(PassingQty(limits, article), lines[..n], [lines[n]]);
      SumByOne(PassingQty(limits, article), lines[n]);
      GrantedNext(limits, lines[..n], lines[n], article);
    }
  }

  lemma {:induction false} GrantedNext(limits: Limits, lines: seq<RequestLine>, line: RequestLine, article: string)
    ensures SumBy(GrantQty(article), Grants(limits, lines + [line]))
            == SumBy(GrantQty(article), Grants(limits, lines)) + PassingQty(limits, article)(line)
  {
    assert (lines + [line])[..|lines|] == lines;
    var v := Judge(limits, line);
    if v.Accepted? {
      SumByAppend(GrantQty(article), Grants(limits, lines), [v.grant]);
      SumByOne(GrantQty(article), v.grant);
    } else {
      assert Grants(limits, lines + [line]) == Grants(limits, lines);
    }
  }

  /** The accepted list fits the container as a whole. */
  ghost predicate ListFits(limits: Limits, grants: seq<Grant>) {
    forall article :: SumBy(GrantQty(article), grants) > 0 ==>
      SumBy(GrantQty(article), grants) <= Headroom(limits, article)
  }

  /** Lines are judged one by one, so the accepted list fits as a whole if and only
      if, of each article, the lines that pass alone come to no more than the room left. */
  lemma {:induction false} AcceptedFitsIff(limits: Limits, lines: seq<RequestLine>)
    ensures ListFits(limits, Grants(limits, lines)) <==>
            forall article :: SumBy(PassingQty(limits, article), lines) > 0 ==>
                                SumBy(PassingQty(limits, article), lines) <= Headroom(limits, article)
  {
    forall article
      ensures SumBy(GrantQty(article), Grants(limits, lines)) == SumBy(PassingQty(limits, article), lines)
    {
      AcceptedArePassing(limits, lines, article);
    }
  }

  /** Two lines of one article, each within bounds, are both accepted and together
      exceed the plan; the table then refuses the second row and nothing is stored. */
  lemma {:induction false} RepeatedArticleIsRefused()
    ensures var planned := map["A" := 5];
            var limits := LimitsOf([], 1, 1, planned, None);
            var grants := Grants(limits, [RequestLine("A", Some(4)), RequestLine("A", Some(3))]);
            && grants == [Grant("A", 4), Grant("A", 3)]
            && !ListFits(limits, grants)
            && SaveOf([], 1, 1, grants) == DuplicateEntry
            && Stored([], SaveOf([], 1, 1, grants)) == []
  {
    var limits := LimitsOf([], 1, 1, map["A" := 5], None);
    var lines := [RequestLine("A", Some(4)), RequestLine("A", Some(3))];
    assert lines[..1] == [lines[0]] && [lines[0]][..0] == [];
    assert Grants(limits, [lines[0]]) == [Grant("A", 4)];
    var grants := Grants(limits, lines);
    assert grants == [Grant("A", 4), Grant("A", 3)];
    assert grants[1..] == [Grant("A", 3)] && [Grant("A", 3)][1..] == [];
    assert SumBy(GrantQty("A"), grants) == 7;
    CommitsIff([], 1, 1, grants);
    OthersApart([], 1, 1, grants);
    InsertedIff(Filter(IsOther(1, 1), []), 1, 1, grants);
  }
}
