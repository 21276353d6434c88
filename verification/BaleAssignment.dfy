/** Assigning physical bales to a container under article quotas and a capacity. */
module BaleAssignment {
  import opened Standard
  import opened Sorting
  import opened ContainerPlanner

  datatype Bale = Bale(id: int, article: string, status: string, container: Option<int>)

  datatype Target = Target(container: int, capacity: int, planned: map<string, int>, placed: map<string, int>)

  datatype Request = Request(token: string, bale: Option<Bale>)

  datatype Reason =
    | NotFound
    | DuplicateInRequest
    | AlreadyAssignedHere
    | AssignedToOtherContainer
    | NotInStock
    | ArticleNotPlanned
    | ProductQuotaExceeded
    | ContainerCapacityExceeded

  datatype Rejection = Rejection(token: string, reason: Reason)

  datatype AssignmentPlan = AssignmentPlan(accepted: seq<Bale>, rejected: seq<Rejection>)

  const IN_STOCK := "IN_STOCK"

  function Lookup(m: map<string, int>, article: string): int {
    if article in m then NonNegative(m[article]) else 0
  }

  function Planned(t: Target, article: string): int { Lookup(t.planned, article) }

  function Held(t: Target, article: string): int { Lookup(t.placed, article) }

  /** The sum of the values of a map, in whatever order they are taken. */
  ghost function MapTotal(m: map<string, int>): int {
    if m == map[] then 0
    else
      var k :| k in m;
      NonNegative(m[k]) + MapTotal(m - {k})
  }

  lemma {:induction false} MapTotalAt(m: map<string, int>, k: string)
    requires k in m
    ensures MapTotal(m) == NonNegative(m[k]) + MapTotal(m - {k})
    decreases |m|
  {
    var l :| l in m && MapTotal(m) == NonNegative(m[l]) + MapTotal(m - {l});
    if l != k {
      MapTotalAt(m - {l}, k);
      MapTotalAt(m - {k}, l);
      assert (m - {l}) - {k} == (m - {k}) - {l};
    }
  }

  method SumValues(m: map<string, int>) returns (total: int)
    ensures total == MapTotal(m)
  {
    total := 0;
    var rest := m;
    while rest != map[]
      invariant total + MapTotal(rest) == MapTotal(m)
      decreases |rest|
    {
      var k :| k in rest;
      MapTotalAt(rest, k);
      total := total + NonNegative(rest[k]);
      rest := rest - {k};
    }
  }

  // ---- One bale -------------------------------------------------------------------------

  function OfArticle(article: string): Bale -> int { (b: Bale) => if b.article == article then 1 else 0 }

  function Count(bales: seq<Bale>, article: string): int { SumBy(OfArticle(article), bales) }

  predicate HasId(bales: seq<Bale>, id: int) { exists b :: b in bales && b.id == id }

  predicate Free(b: Bale) { b.status == IN_STOCK && b.container.None? }

  /** Room for one more of the article, given what has been taken so far. */
  ghost predicate QuotaLeft(t: Target, taken: seq<Bale>, article: string) {
    Held(t, article) + Count(taken, article) < Planned(t, article)
  }

  ghost predicate RoomLeft(t: Target, taken: seq<Bale>) {
    MapTotal(t.placed) + |taken| < NonNegative(t.capacity)
  }

  /** The first rule a requested bale breaks, in the order they are checked. */
  ghost function Verdict(t: Target, accepted: seq<Bale>, request: Request): Option<Reason> {
    if request.bale.None? then Some(NotFound)
    else
      var b := request.bale.value;
      if HasId(accepted, b.id) then Some(DuplicateInRequest)
      else if b.container == Some(t.container) then Some(AlreadyAssignedHere)
      else if b.container.Some? then Some(AssignedToOtherContainer)
      else if b.status != IN_STOCK then Some(NotInStock)
      else if Planned(t, b.article) <= 0 then Some(ArticleNotPlanned)
      else if !QuotaLeft(t, accepted, b.article) then Some(ProductQuotaExceeded)
      else if !RoomLeft(t, accepted) then Some(ContainerCapacityExceeded)
      else None
  }

  ghost function Assignment(t: Target, requests: seq<Request>): AssignmentPlan {
    if requests == [] then AssignmentPlan([], [])
    else
      var (front, request) := (Assignment(t, requests[..|requests| - 1]), requests[|requests| - 1]);
      var verdict := Verdict(t, front.accepted, request);
      if verdict.None? then front.(accepted := front.accepted + [request.bale.value])
      else front.(rejected := front.rejected + [Rejection(request.token, verdict.value)])
  }

  lemma {:induction false} CountAppended(bales: seq<Bale>, b: Bale, article: string)
    ensures Count(bales + [b], article) == Count(bales, article) + if b.article == article then 1 else 0
  {
    SumByAppend(OfArticle(article), bales, [b]);
    SumByOne(OfArticle(article), b);
  }

  lemma {:induction false} CountNotNegative(bales: seq<Bale>, article: string)
    ensures Count(bales, article) >= 0
  {
    if bales != [] { CountNotNegative(bales[1..], article); }
  }

  method PlanBaleAssignment(t: Target, requests: seq<Request>) returns (plan: AssignmentPlan)
    ensures plan == Assignment(t, requests)
  {
    var accepted: seq<Bale> := [];
    var rejected: seq<Rejection> := [];
    var assignedByArticle := t.placed;
    var containerTotal := SumValues(t.placed);
    var seen: set<int> := {};
    var i := 0;
    ghost var done: seq<Request> := [];
    while i < |requests|
      invariant 0 <= i <= |requests| && done == requests[..i]
      invariant Assignment(t, done) == AssignmentPlan(accepted, rejected)
      invariant Tracks(t, accepted, assignedByArticle, containerTotal, seen)
    {
      var entry := requests[i];
      AssignmentNext(t, done, entry);
      i := i + 1;
      done := done + [entry];
      assert done == requests[..i];
      var reason := Judge(t, assignedByArticle, containerTotal, seen, entry);
      JudgeIsVerdict(t, accepted, assignedByArticle, containerTotal, seen, entry);
      if reason.Some? {
        rejected := rejected + [Rejection(entry.token, reason.value)];
        continue;
      }
      var bale := entry.bale.value;
      TracksNext(t, accepted, assignedByArticle, containerTotal, seen, bale);
      seen := seen + {bale.id};
      assignedByArticle := assignedByArticle[bale.article := Lookup(assignedByArticle, bale.article) + 1];
      containerTotal := containerTotal + 1;
      accepted := accepted + [bale];
    }
    assert done == requests;
    plan := AssignmentPlan(accepted, rejected);
  }

  /** The chain of checks against the running counters. */
  function Judge(t: Target, assignedByArticle: map<string, int>, containerTotal: int, seen: set<int>, entry: Request)
    : Option<Reason>
  {
    if entry.bale.None? then Some(NotFound)
    else
      var bale := entry.bale.value;
      var planned := Lookup(t.planned, bale.article);
      if bale.id in seen then Some(DuplicateInRequest)
      else if bale.container == Some(t.container) then Some(AlreadyAssignedHere)
      else if bale.container.Some? then Some(AssignedToOtherContainer)
      else if bale.status != IN_STOCK then Some(NotInStock)
      else if planned <= 0 then Some(ArticleNotPlanned)
      else if Lookup(assignedByArticle, bale.article) >= planned then Some(ProductQuotaExceeded)
      else if containerTotal >= NonNegative(t.capacity) then Some(ContainerCapacityExceeded)
      else None
  }

  /** The running counters judge as the batch accepted so far does. */
  lemma {:induction false} JudgeIsVerdict(t: Target, accepted: seq<Bale>, assignedByArticle: map<string, int>,
                                          containerTotal: int, seen: set<int>, entry: Request)
    requires Tracks(t, accepted, assignedByArticle, containerTotal, seen)
    ensures Judge(t, assignedByArticle, containerTotal, seen, entry) == Verdict(t, accepted, entry)
    ensures Verdict(t, accepted, entry).None? ==> entry.bale.Some?
  {
  }

  lemma {:induction false} AssignmentNext(t: Target, done: seq<Request>, entry: Request)
    ensures var front := Assignment(t, done);
            var verdict := Verdict(t, front.accepted, entry);
            Assignment(t, done + [entry])
            == if verdict.None? then front.(accepted := front.accepted + [entry.bale.value])
               else front.(rejected := front.rejected + [Rejection(entry.token, verdict.value)])
  {
    assert (done + [entry])[..|done|] == done;
  }

  /** The loop's counters say what the accepted bales add up to. */
  ghost predicate Tracks(t: Target, accepted: seq<Bale>, assignedByArticle: map<string, int>, containerTotal: int,
                         seen: set<int>)
  {
    && (forall article :: Lookup(assignedByArticle, article) == Held(t, article) + Count(accepted, article))
    && containerTotal == MapTotal(t.placed) + |accepted|
    && (forall id :: id in seen <==> HasId(accepted, id))
  }

  lemma {:induction false} TracksNext(t: Target, accepted: seq<Bale>, assignedByArticle: map<string, int>,
                                      containerTotal: int, seen: set<int>, bale: Bale)
    requires Tracks(t, accepted, assignedByArticle, containerTotal, seen)
    ensures Tracks(t, accepted + [bale],
                   assignedByArticle[bale.article := Lookup(assignedByArticle, bale.article) + 1],
                   containerTotal + 1, seen + {bale.id})
  {
    var next := assignedByArticle[bale.article := Lookup(assignedByArticle, bale.article) + 1];
    forall article
      ensures Lookup(next, article) == Held(t, article) + Count(accepted + [bale], article)
    {
      CountAppended(accepted, bale, article);
      CountNotNegative(accepted, article);
    }
    forall id
      ensures id in seen + {bale.id} <==> HasId(accepted + [bale], id)
    {
      if HasId(accepted, id) {
        var b :| b in accepted && b.id == id;
        assert b in accepted + [bale];
      }
      assert bale in accepted + [bale];
    }
  }

  // ---- Legal and largest ---------------------------------------------------------------------

  ghost predicate DistinctIds(bales: seq<Bale>) {
    forall i, j :: 0 <= i < j < |bales| ==> bales[i].id != bales[j].id
  }

  /** A batch the container may take: free bales, each once, within every quota it
      touches and within the capacity. */
  ghost predicate Legal(t: Target, bales: seq<Bale>) {
    && DistinctIds(bales)
    && (forall i :: 0 <= i < |bales| ==>
          Free(bales[i]) && Held(t, bales[i].article) + Count(bales, bales[i].article) <= Planned(t, bales[i].article))
    && (bales != [] ==> MapTotal(t.placed) + |bales| <= NonNegative(t.capacity))
  }

  ghost predicate Requested(requests: seq<Request>, b: Bale) {
    exists i :: 0 <= i < |requests| && requests[i].bale == Some(b)
  }

  lemma {:induction false} LegalAppended(t: Target, bales: seq<Bale>, b: Bale)
    requires Legal(t, bales) && Free(b) && !HasId(bales, b.id) && QuotaLeft(t, bales, b.article) && RoomLeft(t, bales)
    ensures Legal(t, bales + [b])
  {
    var more := bales + [b];
    forall i | 0 <= i < |more|
      ensures Free(more[i]) && Held(t, more[i].article) + Count(more, more[i].article) <= Planned(t, more[i].article)
    {
      CountAppended(bales, b, more[i].article);
    }
    forall i, j | 0 <= i < j < |more|
      ensures more[i].id != more[j].id
    {
      assert more[i] in bales;
    }
  }

  /** What is accepted is legal and was asked for. */
  lemma {:induction false} AcceptedIsLegal(t: Target, requests: seq<Request>)
    ensures Legal(t, Assignment(t, requests).accepted)
    ensures forall b :: b in Assignment(t, requests).accepted ==> Requested(requests, b)
    ensures |Assignment(t, requests).accepted| + |Assignment(t, requests).rejected| == |requests|
  {
    if requests != [] {
      var front, request := requests[..|requests| - 1], requests[|requests| - 1];
      AcceptedIsLegal(t, front);
      var accepted := Assignment(t, front).accepted;
      if Verdict(t, accepted, request).None? { LegalAppended(t, accepted, request.bale.value); }
      forall b | b in Assignment(t, requests).accepted
        ensures Requested(requests, b)
      {
        if b in accepted {
          var i :| 0 <= i < |front| && front[i].bale == Some(b);
          assert requests[i].bale == Some(b);
        } else {
          assert requests[|requests| - 1].bale == Some(b);
        }
      }
    }
  }

  // ---- Request by request --------------------------------------------------------------------

  /** The rule a reason stands for is broken, given what has been accepted. */
  ghost predicate Breaks(t: Target, accepted: seq<Bale>, request: Request, reason: Reason) {
    if request.bale.None? then reason == NotFound
    else
      var b := request.bale.value;
      match reason
      case NotFound => false
      case DuplicateInRequest => HasId(accepted, b.id)
      case AlreadyAssignedHere => b.container == Some(t.container)
      case AssignedToOtherContainer => b.container.Some? && b.container.value != t.container
      case NotInStock => b.status != "IN_STOCK"
      case ArticleNotPlanned => EntryOf(t.planned, b.article) == 0
      case ProductQuotaExceeded =>
        EntryOf(t.placed, b.article) + Count(accepted, b.article) >= EntryOf(t.planned, b.article)
      case ContainerCapacityExceeded => MapTotal(t.placed) + |accepted| >= Max(0, t.capacity)
  }

  /** An entry of a map of quantities: nothing where there is none, or a negative one. */
  function EntryOf(m: map<string, int>, article: string): int {
    if article in m && m[article] > 0 then m[article] else 0
  }

  /** The order in which the rules are looked at. */
  function Place(reason: Reason): nat {
    match reason
    case NotFound => 0
    case DuplicateInRequest => 1
    case AlreadyAssignedHere => 2
    case AssignedToOtherContainer => 3
    case NotInStock => 4
    case ArticleNotPlanned => 5
    case ProductQuotaExceeded => 6
    case ContainerCapacityExceeded => 7
  }

  ghost predicate FirstBroken(t: Target, accepted: seq<Bale>, request: Request, reason: Reason) {
    && Breaks(t, accepted, request, reason)
    && forall other :: Place(other) < Place(reason) ==> !Breaks(t, accepted, request, other)
  }

  lemma {:induction false} VerdictIsFirst(t: Target, accepted: seq<Bale>, request: Request)
    ensures var verdict := Verdict(t, accepted, request);
            && (verdict.Some? ==> FirstBroken(t, accepted, request, verdict.value))
            && (verdict.None? ==> request.bale.Some? && forall reason :: !Breaks(t, accepted, request, reason))
  {
  }

  /** Each request in turn: accepted when it breaks no rule, and otherwise rejected, at the end
      of the list and under its token, for the first rule it breaks. */
  lemma {:induction false} InTurn(t: Target, requests: seq<Request>, n: nat)
    requires n < |requests|
    ensures var (before, after) := (Assignment(t, requests[..n]), Assignment(t, requests[..n + 1]));
            if forall reason :: !Breaks(t, before.accepted, requests[n], reason) then
              requests[n].bale.Some? && after == before.(accepted := before.accepted + [requests[n].bale.value])
            else
              exists reason :: FirstBroken(t, before.accepted, requests[n], reason)
                               && after == before.(rejected := before.rejected + [Rejection(requests[n].token, reason)])
  {
    PrefixNext(requests, n);
    AssignmentNext(t, requests[..n], requests[n]);
    VerdictIsFirst(t, Assignment(t, requests[..n]).accepted, requests[n]);
  }

  // ---- The plan as it ends ---------------------------------------------------------------------

  /** The reason given for a request, as a fact about the finished plan. */
  ghost predicate ReasonHolds(t: Target, accepted: seq<Bale>, request: Request, reason: Reason) {
    if request.bale.None? then reason == NotFound
    else
      var b := request.bale.value;
      match reason
      case NotFound => false
      case DuplicateInRequest => HasId(accepted, b.id)
      case AlreadyAssignedHere => b.container == Some(t.container)
      case AssignedToOtherContainer => b.container.Some? && b.container != Some(t.container)
      case NotInStock => b.container.None? && b.status != IN_STOCK
      case ArticleNotPlanned => Free(b) && Planned(t, b.article) <= 0
      case ProductQuotaExceeded => Free(b) && Planned(t, b.article) > 0 && !QuotaLeft(t, accepted, b.article)
      case ContainerCapacityExceeded => Free(b) && !RoomLeft(t, accepted)
  }

  ghost predicate Explained(t: Target, accepted: seq<Bale>, requests: seq<Request>, r: Rejection) {
    exists n :: 0 <= n < |requests| && requests[n].token == r.token && ReasonHolds(t, accepted, requests[n], r.reason)
  }

  lemma {:induction false} ReasonsLast(t: Target, accepted: seq<Bale>, b: Bale, request: Request, reason: Reason)
    requires ReasonHolds(t, accepted, request, reason)
    ensures ReasonHolds(t, accepted + [b], request, reason)
  {
    if request.bale.Some? {
      CountAppended(accepted, b, request.bale.value.article);
      assert forall c :: c in accepted ==> c in accepted + [b];
    }
  }

  /** Every rejection gives a reason that is true of the plan as it ends. */
  lemma {:induction false} RejectionsAreTrue(t: Target, requests: seq<Request>, r: Rejection)
    requires r in Assignment(t, requests).rejected
    ensures Explained(t, Assignment(t, requests).accepted, requests, r)
  {
    var n := |requests| - 1;
    var front, request := Assignment(t, requests[..n]), requests[n];
    if r in front.rejected {
      RejectionsAreTrue(t, requests[..n], r);
      var i :| 0 <= i < n && requests[i].token == r.token && ReasonHolds(t, front.accepted, requests[..n][i], r.reason);
      if Verdict(t, front.accepted, request).None? {
        ReasonsLast(t, front.accepted, request.bale.value, requests[i], r.reason);
      }
    } else {
      assert requests[n].token == r.token && ReasonHolds(t, front.accepted, requests[n], r.reason);
    }
  }

  lemma {:induction false} AcceptedGrows(t: Target, requests: seq<Request>, n: nat)
    requires n <= |requests|
    ensures Assignment(t, requests[..n]).accepted <= Assignment(t, requests).accepted
    decreases |requests|
  {
    if n < |requests| {
      var front := requests[..|requests| - 1];
      assert front[..n] == requests[..n];
      AcceptedGrows(t, front, n);
    } else {
      assert requests[..n] == requests;
    }
  }

  lemma {:induction false} CountGrows(bales: seq<Bale>, more: seq<Bale>, article: string)
    requires bales <= more
    ensures Count(bales, article) <= Count(more, article)
  {
    var rest := more[|bales|..];
    assert more == bales + rest;
    SumByAppend(OfArticle(article), bales, rest);
    CountNotNegative(rest, article);
  }

  /** A free bale that was asked for is accepted (itself or under its id), unless
      its quota or the container is used up in the end. */
  lemma {:induction false} FateOfRequested(t: Target, requests: seq<Request>, n: nat)
    requires n < |requests| && requests[n].bale.Some? && Free(requests[n].bale.value)
    ensures var (b, accepted) := (requests[n].bale.value, Assignment(t, requests).accepted);
            HasId(accepted, b.id) || !QuotaLeft(t, accepted, b.article) || !RoomLeft(t, accepted)
  {
    var b, accepted := requests[n].bale.value, Assignment(t, requests).accepted;
    var earlier, next := Assignment(t, requests[..n]).accepted, Assignment(t, requests[..n + 1]).accepted;
    AcceptedGrows(t, requests, n);
    AcceptedGrows(t, requests, n + 1);
    CountGrows(earlier, accepted, b.article);
    assert requests[..n + 1][..n] == requests[..n];
    if HasId(earlier, b.id) {
      var c :| c in earlier && c.id == b.id;
      assert c in accepted;
    } else if QuotaLeft(t, earlier, b.article) && RoomLeft(t, earlier) {
      CountNotNegative(earlier, b.article);
      assert next == earlier + [b];
      assert b in next && b in accepted;
    }
  }

  function Articles(bales: seq<Bale>): seq<string> { Map((b: Bale) => b.article, bales) }

  lemma {:induction false} CountIsMultiplicity(bales: seq<Bale>, article: string)
    ensures Count(bales, article) == multiset(Articles(bales))[article]
  {
    if bales != [] {
      CountIsMultiplicity(bales[1..], article);
      assert Articles(bales) == [bales[0].article] + Articles(bales[1..]);
    }
  }

  /** No more of any article means no more in all. */
  lemma {:induction false} NoMoreInAll(few: seq<Bale>, many: seq<Bale>)
    requires forall article :: Count(few, article) <= Count(many, article)
    ensures |few| <= |many|
  {
    var a, b := multiset(Articles(few)), multiset(Articles(many));
    forall article
      ensures a[article] <= b[article]
    {
      CountIsMultiplicity(few, article);
      CountIsMultiplicity(many, article);
    }
    assert b == a + (b - a);
    assert |b| == |a| + |b - a|;
  }

  function HasArticle(article: string): Bale -> bool { (b: Bale) => b.article == article }

  lemma {:induction false} CountIsFiltered(bales: seq<Bale>, article: string)
    ensures Count(bales, article) == |Filter(HasArticle(article), bales)|
  {
    if bales != [] { CountIsFiltered(bales[1..], article); }
  }

  lemma {:induction false} FilteredDistinct(bales: seq<Bale>, article: string)
    requires DistinctIds(bales)
    ensures Distinct(Filter(HasArticle(article), bales))
  {
    if bales != [] {
      FilteredDistinct(bales[1..], article);
      assert bales[0] !in bales[1..];
    }
  }

  lemma {:induction false} SubsetSize<T>(a: set<T>, b: set<T>)
    requires a <= b
    ensures |a| <= |b|
  {
    assert b == a + (b - a);
  }

  /** If every bale of the article among `few` is among `many`, there are no more. */
  lemma {:induction false} CountWithin(few: seq<Bale>, many: seq<Bale>, article: string)
    requires DistinctIds(few) && DistinctIds(many)
    requires forall b :: b in few && b.article == article ==> b in many
    ensures Count(few, article) <= Count(many, article)
  {
    var f, m := Filter(HasArticle(article), few), Filter(HasArticle(article), many);
    CountIsFiltered(few, article);
    CountIsFiltered(many, article);
    FilteredDistinct(few, article);
    FilteredDistinct(many, article);
    DistinctSize(f);
    DistinctSize(m);
    ElementsAreMembers(f);
    ElementsAreMembers(m);
    SubsetSize(Elements(f), Elements(m));
  }

  /** An id stands for one bale throughout the request. */
  ghost predicate IdsIdentify(requests: seq<Request>) {
    forall i, j :: 0 <= i < |requests| && 0 <= j < |requests| ==>
      var (x, y) := (requests[i].bale, requests[j].bale);
      x.Some? && y.Some? && x.value.id == y.value.id ==> x == y
  }

  lemma {:induction false} NoMoreOfArticle(t: Target, requests: seq<Request>, batch: seq<Bale>, article: string)
    requires IdsIdentify(requests) && Legal(t, batch) && forall b :: b in batch ==> Requested(requests, b)
    requires RoomLeft(t, Assignment(t, requests).accepted)
    ensures Count(batch, article) <= Count(Assignment(t, requests).accepted, article)
  {
    var accepted := Assignment(t, requests).accepted;
    AcceptedIsLegal(t, requests);
    CountNotNegative(accepted, article);
    if QuotaLeft(t, accepted, article) {
      forall b | b in batch && b.article == article
        ensures b in accepted
      {
        var n :| 0 <= n < |requests| && requests[n].bale == Some(b);
        FateOfRequested(t, requests, n);
        var c :| c in accepted && c.id == b.id;
        var k :| 0 <= k < |requests| && requests[k].bale == Some(c);
      }
      CountWithin(batch, accepted, article);
    } else if exists i :: 0 <= i < |batch| && batch[i].article == article {
      var i :| 0 <= i < |batch| && batch[i].article == article;
    } else {
      CountNone(batch, article);
    }
  }

  lemma {:induction false} CountNone(bales: seq<Bale>, article: string)
    requires forall i :: 0 <= i < |bales| ==> bales[i].article != article
    ensures Count(bales, article) == 0
  {
    if bales != [] { CountNone(bales[1..], article); }
  }

  /** Greedy is optimal: no legal batch of requested bales is larger. */
  lemma {:induction false} AcceptedIsLargest(t: Target, requests: seq<Request>, batch: seq<Bale>)
    requires IdsIdentify(requests) && Legal(t, batch) && forall b :: b in batch ==> Requested(requests, b)
    ensures |batch| <= |Assignment(t, requests).accepted|
  {
    var accepted := Assignment(t, requests).accepted;
    if RoomLeft(t, accepted) {
      forall article {
        NoMoreOfArticle(t, requests, batch, article);
      }
      NoMoreInAll(batch, accepted);
    }
  }

  /** A legal batch is accepted in full. */
  lemma {:induction false} LegalIsAccepted(t: Target, bales: seq<Bale>)
    requires Legal(t, bales)
    ensures Assignment(t, AsRequests(bales)) == AssignmentPlan(bales, [])
  {
    PrefixIsAccepted(t, bales, |bales|);
    assert AsRequests(bales)[..|bales|] == AsRequests(bales);
    assert bales[..|bales|] == bales;
  }

  function AsRequests(bales: seq<Bale>): seq<Request> { Map((b: Bale) => Request("", Some(b)), bales) }

  lemma {:induction false} PrefixIsAccepted(t: Target, bales: seq<Bale>, n: nat)
    requires Legal(t, bales) && n <= |bales|
    ensures Assignment(t, AsRequests(bales)[..n]) == AssignmentPlan(bales[..n], [])
  {
    if n > 0 {
      PrefixIsAccepted(t, bales, n - 1);
      assert AsRequests(bales)[..n][..n - 1] == AsRequests(bales)[..n - 1];
      assert bales[..n] == bales[..n - 1] + [bales[n - 1]];
      NextIsTaken(t, bales, n - 1);
    }
  }

  lemma {:induction false} NextIsTaken(t: Target, bales: seq<Bale>, n: nat)
    requires Legal(t, bales) && n < |bales|
    ensures Verdict(t, bales[..n], Request("", Some(bales[n]))).None?
  {
    var b, taken := bales[n], bales[..n];
    assert bales[..n + 1] == taken + [b];
    CountAppended(taken, b, b.article);
    CountGrows(bales[..n + 1], bales, b.article);
    CountNotNegative(taken, b.article);
    assert !HasId(taken, b.id);
  }

  // ---- Automatic selection ----------------------------------------------------------------------

  function IdOrder(): (Bale, Bale) -> bool { (a: Bale, b: Bale) => a.id <= b.id }

  /** Whether the next bale in id order is taken. */
  ghost predicate Takes(t: Target, picked: seq<Bale>, b: Bale) {
    Free(b) && QuotaLeft(t, picked, b.article) && RoomLeft(t, picked)
  }

  ghost function Picked(t: Target, ordered: seq<Bale>): seq<Bale> {
    if ordered == [] then []
    else
      var (picked, b) := (Picked(t, ordered[..|ordered| - 1]), ordered[|ordered| - 1]);
      if Takes(t, picked, b) then picked + [b] else picked
  }

  method SelectAutoAssignmentBales(t: Target, candidates: seq<Bale>) returns (picked: seq<Bale>)
    ensures picked == Picked(t, Sort(IdOrder(), candidates))
  {
    var needByArticle := NeedByArticle(t);
    var assignedTotal := SumValues(t.placed);
    var capacityLeft := NonNegative(t.capacity) - assignedTotal;
    picked := [];
    var ordered := Sort(IdOrder(), candidates);
    var i := 0;
    while i < |ordered|
      invariant 0 <= i <= |ordered| && Selecting(t, ordered, i, picked, needByArticle, capacityLeft)
    {
      if capacityLeft <= 0 {
        NothingMoreWithoutRoom(t, ordered, i);
        return;
      }
      var bale := ordered[i];
      SelectNext(t, ordered, i, picked, needByArticle, capacityLeft);
      i := i + 1;
      if bale.status != IN_STOCK || bale.container.Some? { continue; }
      var need := NeedOf(needByArticle, bale.article);
      if need <= 0 { continue; }
      needByArticle := needByArticle[bale.article := need - 1];
      capacityLeft := capacityLeft - 1;
      picked := picked + [bale];
    }
    assert ordered[..i] == ordered;
  }

  function NeedOf(need: map<string, int>, article: string): int { if article in need then need[article] else 0 }

  /** The first i bales have been looked at: what is picked, still needed and left of the capacity. */
  ghost predicate Selecting(t: Target, ordered: seq<Bale>, i: nat, picked: seq<Bale>, need: map<string, int>,
                            capacityLeft: int)
    requires i <= |ordered|
  {
    && PickedUpTo(t, ordered, i, picked) && StillNeeded(t, picked, need)
    && capacityLeft == NonNegative(t.capacity) - MapTotal(t.placed) - |picked|
  }

  lemma {:induction false} SelectNext(t: Target, ordered: seq<Bale>, i: nat, picked: seq<Bale>,
                                      need: map<string, int>, capacityLeft: int)
    requires i < |ordered| && capacityLeft > 0 && Selecting(t, ordered, i, picked, need, capacityLeft)
    ensures var b := ordered[i];
            if b.status != IN_STOCK || b.container.Some? || NeedOf(need, b.article) <= 0 then
              Selecting(t, ordered, i + 1, picked, need, capacityLeft)
            else
              && b.article in need
              && Selecting(t, ordered, i + 1, picked + [b], need[b.article := need[b.article] - 1], capacityLeft - 1)
  {
    var b := ordered[i];
    PickNext(t, ordered, i, picked);
    if b.article in need { NeededNext(t, picked, need, b); }
  }

  /** The first i bales have been looked at. */
  ghost predicate PickedUpTo(t: Target, ordered: seq<Bale>, i: nat, picked: seq<Bale>)
    requires i <= |ordered|
  {
    picked == Picked(t, ordered[..i])
  }

  /** What the need map says once some bales are picked. */
  ghost predicate StillNeeded(t: Target, picked: seq<Bale>, need: map<string, int>) {
    forall article ::
      && ((article in need && need[article] > 0) <==> QuotaLeft(t, picked, article))
      && (article in need ==> need[article] == Planned(t, article) - Held(t, article) - Count(picked, article))
  }

  lemma {:induction false} NeededNext(t: Target, picked: seq<Bale>, need: map<string, int>, b: Bale)
    requires StillNeeded(t, picked, need) && b.article in need
    ensures StillNeeded(t, picked + [b], need[b.article := need[b.article] - 1])
  {
    var next := need[b.article := need[b.article] - 1];
    forall article
      ensures (article in next && next[article] > 0) <==> QuotaLeft(t, picked + [b], article)
      ensures article in next ==> next[article] == Planned(t, article) - Held(t, article) - Count(picked + [b], article)
    {
      CountAppended(picked, b, article);
    }
  }

  lemma {:induction false} PickedNext(t: Target, done: seq<Bale>, b: Bale)
    ensures var picked := Picked(t, done);
            Picked(t, done + [b]) == if Takes(t, picked, b) then picked + [b] else picked
  {
    assert (done + [b])[..|done|] == done;
  }

  lemma {:induction false} PickNext(t: Target, ordered: seq<Bale>, i: nat, picked: seq<Bale>)
    requires i < |ordered| && PickedUpTo(t, ordered, i, picked)
    ensures PickedUpTo(t, ordered, i + 1, if Takes(t, picked, ordered[i]) then picked + [ordered[i]] else picked)
  {
    PrefixNext(ordered, i);
    PickedNext(t, ordered[..i], ordered[i]);
  }

  method NeedByArticle(t: Target) returns (need: map<string, int>)
    ensures forall article :: article in need <==> Planned(t, article) > Held(t, article)
    ensures forall article :: article in need ==> need[article] == Planned(t, article) - Held(t, article)
  {
    need := map[];
    var rest := t.planned.Keys;
    while rest != {}
      invariant rest <= t.planned.Keys
      invariant forall article :: article in need <==>
                  article in t.planned && article !in rest && Planned(t, article) > Held(t, article)
      invariant forall article :: article in need ==> need[article] == Planned(t, article) - Held(t, article)
      decreases |rest|
    {
      var article :| article in rest;
      var n := Lookup(t.planned, article) - Lookup(t.placed, article);
      if n > 0 { need := need[article := n]; }
      rest := rest - {article};
    }
  }

  /** Leaving the loop when the container is full loses nothing. */
  lemma {:induction false} NothingMoreWithoutRoom(t: Target, ordered: seq<Bale>, n: nat)
    requires n <= |ordered| && !RoomLeft(t, Picked(t, ordered[..n]))
    ensures Picked(t, ordered) == Picked(t, ordered[..n])
    decreases |ordered|
  {
    if n < |ordered| {
      var front := ordered[..|ordered| - 1];
      assert front[..n] == ordered[..n];
      NothingMoreWithoutRoom(t, front, n);
    } else {
      assert ordered[..n] == ordered;
    }
  }

  lemma {:induction false} AsRequestsNext(bales: seq<Bale>, b: Bale)
    ensures AsRequests(bales + [b]) == AsRequests(bales) + [Request("", Some(b))]
  {
    assert |AsRequests(bales + [b])| == |bales| + 1;
  }

  lemma {:induction false} TakesIsVerdict(t: Target, picked: seq<Bale>, b: Bale)
    requires !HasId(picked, b.id)
    ensures Takes(t, picked, b) <==> Verdict(t, picked, Request("", Some(b))).None?
  {
    CountNotNegative(picked, b.article);
  }

  /** With distinct ids the automatic choice is what a request for all of them in
      id order would accept. */
  lemma {:induction false} PickedIsAccepted(t: Target, ordered: seq<Bale>)
    requires DistinctIds(ordered)
    ensures Picked(t, ordered) == Assignment(t, AsRequests(ordered)).accepted
    ensures forall b :: b in Picked(t, ordered) ==> b in ordered
  {
    if ordered != [] {
      var front, b := ordered[..|ordered| - 1], ordered[|ordered| - 1];
      PickedIsAccepted(t, front);
      AsRequestsNext(front, b);
      AssignmentNext(t, AsRequests(front), Request("", Some(b)));
      assert ordered == front + [b];
      PickedNext(t, front, b);
      assert !HasId(Picked(t, front), b.id);
      TakesIsVerdict(t, Picked(t, front), b);
    }
  }

  lemma {:induction false} OrderedCandidates(candidates: seq<Bale>)
    requires DistinctIds(candidates)
    ensures var ordered := Sort(IdOrder(), candidates);
            && DistinctIds(ordered)
            && (forall b :: b in ordered <==> b in candidates)
            && (forall i, j :: 0 <= i < j < |ordered| ==> ordered[i].id < ordered[j].id)
  {
    var ordered := Sort(IdOrder(), candidates);
    SortPermutes(IdOrder(), candidates);
    SortSorted(IdOrder(), candidates);
    DistinctPermutation(candidates, ordered);
    forall i, j | 0 <= i < j < |ordered|
      ensures ordered[i].id < ordered[j].id
    {
      assert ordered[i] in candidates && ordered[j] in candidates;
      assert IdOrder()(ordered[i], ordered[j]);
    }
  }

  /** The automatic choice is legal, as large as any legal batch of the
      candidates, and accepted in full by the manual rules. */
  lemma {:induction false} PickedIsLargest(t: Target, candidates: seq<Bale>, batch: seq<Bale>)
    requires DistinctIds(candidates) && Legal(t, batch) && forall b :: b in batch ==> b in candidates
    ensures var picked := Picked(t, Sort(IdOrder(), candidates));
            && Legal(t, picked)
            && |batch| <= |picked|
            && Assignment(t, AsRequests(picked)) == AssignmentPlan(picked, [])
  {
    var ordered := Sort(IdOrder(), candidates);
    OrderedCandidates(candidates);
    PickedIsAccepted(t, ordered);
    AcceptedIsLegal(t, AsRequests(ordered));
    forall b | b in batch
      ensures Requested(AsRequests(ordered), b)
    {
      var i :| 0 <= i < |ordered| && ordered[i] == b;
      assert AsRequests(ordered)[i].bale == Some(b);
    }
    AcceptedIsLargest(t, AsRequests(ordered), batch);
    LegalIsAccepted(t, Picked(t, ordered));
  }

  lemma {:induction false} PickedGrows(t: Target, ordered: seq<Bale>, n: nat)
    requires n <= |ordered|
    ensures Picked(t, ordered[..n]) <= Picked(t, ordered)
    decreases |ordered|
  {
    if n < |ordered| {
      var front := ordered[..|ordered| - 1];
      assert front[..n] == ordered[..n];
      PickedGrows(t, front, n);
    } else {
      assert ordered[..n] == ordered;
    }
  }

  lemma {:induction false} PickedAt(t: Target, ordered: seq<Bale>, b: Bale) returns (n: nat)
    requires b in Picked(t, ordered)
    ensures n < |ordered| && ordered[n] == b && Takes(t, Picked(t, ordered[..n]), b)
  {
    var front := ordered[..|ordered| - 1];
    if b in Picked(t, front) {
      n := PickedAt(t, front, b);
      assert front[..n] == ordered[..n];
    } else {
      n := |ordered| - 1;
    }
  }

  /** Of each article the lowest ids are taken first. */
  lemma {:induction false} LowestIdsFirst(t: Target, candidates: seq<Bale>, b: Bale, c: Bale)
    requires DistinctIds(candidates)
    requires b in Picked(t, Sort(IdOrder(), candidates))
    requires c in candidates && Free(c) && c.article == b.article && c.id < b.id
    ensures c in Picked(t, Sort(IdOrder(), candidates))
  {
    var ordered := Sort(IdOrder(), candidates);
    OrderedCandidates(candidates);
    var n := PickedAt(t, ordered, b);
    var k :| 0 <= k < |ordered| && ordered[k] == c;
    assert k < n;
    EarlierIsTaken(t, ordered, k, n);
  }

  lemma {:induction false} TakenIsPicked(t: Target, done: seq<Bale>, b: Bale)
    ensures Takes(t, Picked(t, done), b) ==> b in Picked(t, done + [b])
  {
    PickedNext(t, done, b);
  }

  lemma {:induction false} SkippedForQuota(t: Target, ordered: seq<Bale>, k: nat, n: nat)
    requires k < n < |ordered| && Free(ordered[k]) && ordered[k] !in Picked(t, ordered)
    requires Takes(t, Picked(t, ordered[..n]), ordered[n])
    ensures !QuotaLeft(t, Picked(t, ordered[..k]), ordered[k].article)
  {
    PickedGrows(t, ordered, k + 1);
    PrefixNext(ordered, k);
    TakenIsPicked(t, ordered[..k], ordered[k]);
    RoomBefore(t, ordered, k, n);
    var next := Picked(t, ordered[..k + 1]);
    assert forall x :: x in next ==> x in Picked(t, ordered);
  }

  lemma {:induction false} TakenAreEarlier(t: Target, ordered: seq<Bale>, k: nat)
    requires k < |ordered| && forall i, j :: 0 <= i < j < |ordered| ==> ordered[i].id < ordered[j].id
    ensures forall x :: x in Picked(t, ordered[..k]) ==> x.id < ordered[k].id
    decreases k
  {
    if k > 0 {
      TakenAreEarlier(t, ordered, k - 1);
      PrefixNext(ordered, k - 1);
      PickedNext(t, ordered[..k - 1], ordered[k - 1]);
    }
  }

  /** A free bale passed over for one with a higher id had no quota left: those taken before
      its turn, all of lower ids, used it up. */
  lemma {:induction false} PassedOverForQuota(t: Target, candidates: seq<Bale>, b: Bale, c: Bale)
                                              returns (taken: seq<Bale>)
    requires DistinctIds(candidates)
    requires b in Picked(t, Sort(IdOrder(), candidates)) && c.id < b.id
    requires c in candidates && Free(c) && c !in Picked(t, Sort(IdOrder(), candidates))
    ensures taken <= Picked(t, Sort(IdOrder(), candidates)) && forall x :: x in taken ==> x.id < c.id
    ensures Held(t, c.article) + Count(taken, c.article) >= Planned(t, c.article)
  {
    var ordered := Sort(IdOrder(), candidates);
    OrderedCandidates(candidates);
    var n := PickedAt(t, ordered, b);
    var k :| 0 <= k < |ordered| && ordered[k] == c;
    taken := Picked(t, ordered[..k]);
    PickedGrows(t, ordered, k);
    SkippedForQuota(t, ordered, k, n);
    TakenAreEarlier(t, ordered, k);
  }

  lemma {:induction false} RoomBefore(t: Target, ordered: seq<Bale>, k: nat, n: nat)
    requires k < n < |ordered| && Takes(t, Picked(t, ordered[..n]), ordered[n])
    ensures RoomLeft(t, Picked(t, ordered[..k]))
  {
    assert ordered[..n][..k] == ordered[..k];
    PickedGrows(t, ordered[..n], k);
  }

  /** A free bale before one that was taken, of the same article, was taken too. */
  lemma {:induction false} EarlierIsTaken(t: Target, ordered: seq<Bale>, k: nat, n: nat)
    requires k < n < |ordered| && Free(ordered[k]) && ordered[k].article == ordered[n].article
    requires Takes(t, Picked(t, ordered[..n]), ordered[n])
    ensures ordered[k] in Picked(t, ordered)
  {
    var earlier, later := Picked(t, ordered[..k]), Picked(t, ordered[..n]);
    assert ordered[..n][..k] == ordered[..k];
    PickedGrows(t, ordered[..n], k);
    CountGrows(earlier, later, ordered[n].article);
    assert ordered[..k + 1] == ordered[..k] + [ordered[k]];
    PickedNext(t, ordered[..k], ordered[k]);
    PickedGrows(t, ordered, k + 1);
    assert ordered[k] in Picked(t, ordered[..k + 1]);
  }
}
