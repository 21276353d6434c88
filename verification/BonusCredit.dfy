/** Sharing a day's production among the workers: a linked team's output stands in
    the record of every member, is counted once, and is split among those present. */
module BonusCredit {
  import opened Standard
  import opened DoubleSums
  import opened Sorting

  datatype Status = Present | Absent | New

  datatype Worker = Worker(id: int, name: string, status: Status, target: Option<int>, produced: Option<int>)

  datatype Link = Link(id: int, workerIds: seq<int>)

  datatype Issue =
    | NotFinalized | EmptyFinalizedDay | InvalidProduction | LinkMemberMissing | OverlappingLinks
    | LinkedOutputConflict | NoTarget | IsAbsent | RateDisabled | NoRate | OddLinkedBales

  datatype Share = Share(credited: int, linkId: Option<int>, partners: seq<int>, issues: set<Issue>)

  const MAX_SAFE_INTEGER := 0x1F_FFFF_FFFF_FFFF

  predicate ValidBales(v: Option<int>) { v.Some? && 0 <= v.value <= MAX_SAFE_INTEGER }

  /** The worker a map built in list order keeps under the id: the last one. */
  function Find(workers: seq<Worker>, id: int): Option<Worker> {
    if workers == [] then None
    else
      var n := |workers| - 1;
      if workers[n].id == id then Some(workers[n]) else Find(workers[..n], id)
  }

  lemma {:induction false} FoundIsMember(workers: seq<Worker>, id: int)
    ensures Find(workers, id).Some? ==> Find(workers, id).value in workers && Find(workers, id).value.id == id
    ensures Find(workers, id).None? <==> forall w :: w in workers ==> w.id != id
  {
    if workers != [] {
      var n := |workers| - 1;
      assert workers == workers[..n] + [workers[n]];
      FoundIsMember(workers[..n], id);
    }
  }

  // ---- Teams ---------------------------------------------------------------------------

  /** [...new Set(ids)]: first occurrences, in order. */
  function Dedup(ids: seq<int>): seq<int> {
    if ids == [] then []
    else
      var n := |ids| - 1;
      Dedup(ids[..n]) + if ids[n] in ids[..n] then [] else [ids[n]]
  }

  lemma {:induction false} DedupIsDistinct(ids: seq<int>)
    ensures Distinct(Dedup(ids)) && forall x :: x in Dedup(ids) <==> x in ids
  {
    if ids != [] {
      var n := |ids| - 1;
      assert ids == ids[..n] + [ids[n]];
      DedupIsDistinct(ids[..n]);
    }
  }

  function Lowest(): (int, int) -> bool { (a: int, b: int) => a <= b }

  function TeamIds(link: Link): seq<int> { Sort(Lowest(), Dedup(link.workerIds)) }

  lemma {:induction false} TeamIdsAre(link: Link)
    ensures Distinct(TeamIds(link)) && forall x :: x in TeamIds(link) <==> x in link.workerIds
  {
    DedupIsDistinct(link.workerIds);
    SortPermutes(Lowest(), Dedup(link.workerIds));
    DistinctPermutation(Dedup(link.workerIds), TeamIds(link));
  }

  function Mentions(id: int): Link -> int { (l: Link) => if id in l.workerIds then 1 else 0 }

  /** Named by more than one link. */
  predicate Overlaps(links: seq<Link>, id: int) { SumBy(Mentions(id), links) > 1 }

  predicate Linked(links: seq<Link>, id: int) { SumBy(Mentions(id), links) > 0 }

  /** The ids that have a record that day. */
  function Existing(workers: seq<Worker>, ids: seq<int>): seq<Worker> {
    if ids == [] then []
    else
      var n := |ids| - 1;
      var w := Find(workers, ids[n]);
      Existing(workers, ids[..n]) + if w.Some? then [w.value] else []
  }

  predicate Consistent(team: seq<Worker>) {
    forall i :: 0 <= i < |team| ==> ValidBales(team[i].produced) && team[i].produced == team[0].produced
  }

  predicate HasMissing(workers: seq<Worker>, ids: seq<int>) {
    exists i :: 0 <= i < |ids| && Find(workers, ids[i]).None?
  }

  predicate HasOverlap(links: seq<Link>, ids: seq<int>) {
    exists i :: 0 <= i < |ids| && Overlaps(links, ids[i])
  }

  predicate Sound(workers: seq<Worker>, links: seq<Link>, link: Link) {
    && !HasMissing(workers, TeamIds(link))
    && !HasOverlap(links, TeamIds(link))
    && Consistent(Existing(workers, TeamIds(link)))
  }

  /** The team's output, which every member's record repeats. */
  function TeamOutput(workers: seq<Worker>, links: seq<Link>, link: Link): (bales: int)
    ensures bales >= 0
  {
    var team := Existing(workers, TeamIds(link));
    if Sound(workers, links, link) && team != [] then team[0].produced.value else 0
  }

  function OutputOf(workers: seq<Worker>, links: seq<Link>): Link -> int {
    (l: Link) => TeamOutput(workers, links, l)
  }

  function AtWork(): Worker -> bool { (w: Worker) => !w.status.Absent? }

  function ByWorkerId(): (Worker, Worker) -> bool { (a: Worker, b: Worker) => a.id <= b.id }

  function Recipients(workers: seq<Worker>, link: Link): seq<Worker> {
    Sort(ByWorkerId(), Filter(AtWork(), Existing(workers, TeamIds(link))))
  }

  // ---- Splitting a team's output ---------------------------------------------------------

  datatype Payout = Payout(id: int, bales: int)

  function PaidTo(id: int): Payout -> int { (p: Payout) => if p.id == id then p.bales else 0 }

  /** An equal share each, and one more for the first `remainder` of them. */
  function Split(recipients: seq<Worker>, each: int, remainder: int): seq<Payout> {
    if recipients == [] then []
    else
      var n := |recipients| - 1;
      Split(recipients[..n], each, remainder) + [Payout(recipients[n].id, each + if n < remainder then 1 else 0)]
  }

  /** The problems that keep the team's output from being credited. */
  function Blocking(workers: seq<Worker>, links: seq<Link>, link: Link): set<Issue> {
    (if HasMissing(workers, TeamIds(link)) then {LinkMemberMissing} else {})
    + (if HasOverlap(links, TeamIds(link)) then {OverlappingLinks} else {})
    + (if Consistent(Existing(workers, TeamIds(link))) then {} else {LinkedOutputConflict})
    + (if Recipients(workers, link) == [] && TeamOutput(workers, links, link) > 0 then {IsAbsent} else {})
  }

  function Payouts(workers: seq<Worker>, links: seq<Link>, link: Link): seq<Payout> {
    var recipients := Recipients(workers, link);
    var bales := TeamOutput(workers, links, link);
    if Blocking(workers, links, link) == {} && recipients != []
    then Split(recipients, bales / |recipients|, bales % |recipients|) else []
  }

  function LinkIssues(workers: seq<Worker>, links: seq<Link>, link: Link): set<Issue> {
    var recipients := Recipients(workers, link);
    var blocking := Blocking(workers, links, link);
    if link.workerIds == [] then {}
    else if blocking == {} && recipients != [] && TeamOutput(workers, links, link) % |recipients| > 0
    then {OddLinkedBales} else blocking
  }

  /** What a link credits to one worker. */
  function CreditFrom(workers: seq<Worker>, links: seq<Link>, id: int): Link -> int {
    (l: Link) => SumBy(PaidTo(id), Payouts(workers, links, l))
  }

  // ---- What the grouping comes to ----------------------------------------------------------

  function LastLink(links: seq<Link>, id: int): Option<Link> {
    if links == [] then None
    else
      var n := |links| - 1;
      if id in links[n].workerIds then Some(links[n]) else LastLink(links[..n], id)
  }

  function Other(id: int): int -> bool { (x: int) => x != id }

  function OwnShare(w: Worker): Share {
    if ValidBales(w.produced) then Share(w.produced.value, None, [], {}) else Share(0, None, [], {InvalidProduction})
  }

  function TeamShare(workers: seq<Worker>, links: seq<Link>, link: Link, id: int): Share {
    Share(SumBy(PaidTo(id), Payouts(workers, links, link)), Some(link.id), Filter(Other(id), TeamIds(link)),
          LinkIssues(workers, links, link))
  }

  function ShareOf(workers: seq<Worker>, links: seq<Link>, w: Worker): Share {
    match LastLink(links, w.id)
    case Some(link) => TeamShare(workers, links, link, w.id)
    case None => OwnShare(w)
  }

  /** Output that is not a team's. */
  function OwnOutput(links: seq<Link>): Worker -> int {
    (w: Worker) => if Linked(links, w.id) then 0 else OwnShare(w).credited
  }

  function TotalProduced(workers: seq<Worker>, links: seq<Link>): int {
    SumBy(OutputOf(workers, links), links) + SumBy(OwnOutput(links), workers)
  }

  ghost predicate LinkWarns(workers: seq<Worker>, links: seq<Link>, done: seq<Link>, issue: Issue) {
    exists i :: 0 <= i < |done| && issue in LinkIssues(workers, links, done[i])
  }

  ghost predicate AnyOverlap(links: seq<Link>) {
    exists id :: Overlaps(links, id)
  }

  ghost predicate OwnWarns(workers: seq<Worker>, links: seq<Link>, issue: Issue) {
    exists w :: w in workers && !Linked(links, w.id) && issue in OwnShare(w).issues
  }

  ghost predicate Warns(workers: seq<Worker>, links: seq<Link>, issue: Issue) {
    (issue == OverlappingLinks && AnyOverlap(links)) || LinkWarns(workers, links, links, issue)
      || OwnWarns(workers, links, issue)
  }

  // ---- groupBales -----------------------------------------------------------------------------

  method IndexWorkers(workers: seq<Worker>) returns (byId: map<int, Worker>)
    ensures Indexes(byId, workers)
  {
    byId := map[];
    var i := 0;
    while i < |workers|
      invariant 0 <= i <= |workers| && Indexes(byId, workers[..i])
    {
      assert workers[..i + 1][..i] == workers[..i];
      byId := byId[workers[i].id := workers[i]];
      i := i + 1;
    }
    assert workers[..i] == workers;
  }

  ghost predicate Indexes(byId: map<int, Worker>, workers: seq<Worker>) {
    forall id :: Find(workers, id) == if id in byId then Some(byId[id]) else None
  }

  lemma {:induction false} MentionsAppend(links: seq<Link>, link: Link, id: int)
    ensures SumBy(Mentions(id), links + [link]) == SumBy(Mentions(id), links) + if id in link.workerIds then 1 else 0
    ensures SumBy(Mentions(id), links) >= 0
  {
    SumByAppend(Mentions(id), links, [link]);
    SumByOne(Mentions(id), link);
    SumByNotNegative(Mentions(id), links);
  }

  method FindConflicts(links: seq<Link>) returns (conflictIds: set<int>)
    ensures forall id :: id in conflictIds <==> Overlaps(links, id)
  {
    var memberships: map<int, int> := map[];
    conflictIds := {};
    var i := 0;
    while i < |links|
      invariant 0 <= i <= |links|
      invariant forall id :: id in memberships <==> Linked(links[..i], id)
      invariant forall id :: id in conflictIds <==> Overlaps(links[..i], id)
    {
      var ids := Dedup(links[i].workerIds);
      DedupIsDistinct(links[i].workerIds);
      var j := 0;
      while j < |ids|
        invariant 0 <= j <= |ids|
        invariant forall id :: id in memberships <==> Linked(links[..i], id) || id in ids[..j]
        invariant forall id :: id in conflictIds
                               <==> Overlaps(links[..i], id) || (Linked(links[..i], id) && id in ids[..j])
      {
        assert ids[j] !in ids[..j];
        assert ids[..j + 1] == ids[..j] + [ids[j]];
        if ids[j] in memberships { conflictIds := conflictIds + {ids[j]}; }
        memberships := memberships[ids[j] := links[i].id];
        j := j + 1;
      }
      assert ids[..j] == ids;
      assert links[..i + 1] == links[..i] + [links[i]];
      forall id
        ensures Linked(links[..i + 1], id) <==> Linked(links[..i], id) || id in ids
        ensures Overlaps(links[..i + 1], id) <==> Overlaps(links[..i], id) || (Linked(links[..i], id) && id in ids)
      {
        MentionsAppend(links[..i], links[i], id);
      }
      i := i + 1;
    }
    assert links[..i] == links;
  }

  /** What the grouping decides about one link. */
  datatype Verdict = Verdict(team: seq<Worker>, output: int, credits: map<int, int>, issues: set<Issue>)

  function CreditIn(credits: map<int, int>, id: int): int { if id in credits then credits[id] else 0 }

  ghost predicate IsVerdict(v: Verdict, workers: seq<Worker>, links: seq<Link>, link: Link) {
    && v.team == Existing(workers, TeamIds(link))
    && v.output == TeamOutput(workers, links, link)
    && v.issues == LinkIssues(workers, links, link)
    && forall id :: CreditIn(v.credits, id) == SumBy(PaidTo(id), Payouts(workers, links, link))
  }

  method CreditRecipients(recipients: seq<Worker>, each: int, remainder: int) returns (credits: map<int, int>)
    requires forall i, j :: 0 <= i < j < |recipients| ==> recipients[i].id != recipients[j].id
    ensures forall id :: CreditIn(credits, id) == SumBy(PaidTo(id), Split(recipients, each, remainder))
  {
    credits := map[];
    var i := 0;
    while i < |recipients|
      invariant 0 <= i <= |recipients|
      invariant forall id :: id in credits ==> exists j :: 0 <= j < i && recipients[j].id == id
      invariant forall id :: CreditIn(credits, id) == SumBy(PaidTo(id), Split(recipients[..i], each, remainder))
    {
      assert recipients[..i + 1][..i] == recipients[..i];
      var paid := each + if i < remainder then 1 else 0;
      assert recipients[i].id !in credits;
      forall id
        ensures SumBy(PaidTo(id), Split(recipients[..i + 1], each, remainder))
                == SumBy(PaidTo(id), Split(recipients[..i], each, remainder))
                   + if id == recipients[i].id then paid else 0
      {
        SumByAppend(PaidTo(id), Split(recipients[..i], each, remainder), [Payout(recipients[i].id, paid)]);
        SumByOne(PaidTo(id), Payout(recipients[i].id, paid));
      }
      credits := credits[recipients[i].id := paid];
      i := i + 1;
    }
    assert recipients[..i] == recipients;
  }

  method FindMembers(ids: seq<int>, byId: map<int, Worker>, ghost workers: seq<Worker>)
    returns (exist: seq<Worker>, anyMissing: bool)
    requires Indexes(byId, workers)
    ensures exist == Existing(workers, ids) && anyMissing == HasMissing(workers, ids)
  {
    exist, anyMissing := [], false;
    var i := 0;
    while i < |ids|
      invariant 0 <= i <= |ids| && exist == Existing(workers, ids[..i])
      invariant anyMissing == exists j :: 0 <= j < i && Find(workers, ids[j]).None?
    {
      assert ids[..i + 1][..i] == ids[..i];
      if ids[i] in byId { exist := exist + [byId[ids[i]]]; } else { anyMissing := true; }
      i := i + 1;
    }
    assert ids[..i] == ids;
  }

  lemma {:induction false} ExistingAre(workers: seq<Worker>, ids: seq<int>)
    ensures forall w :: w in Existing(workers, ids) <==> w.id in ids && Find(workers, w.id) == Some(w)
    ensures Distinct(ids) ==> forall i, j :: 0 <= i < j < |Existing(workers, ids)| ==>
                                Existing(workers, ids)[i].id != Existing(workers, ids)[j].id
  {
    if ids != [] {
      var n := |ids| - 1;
      assert ids == ids[..n] + [ids[n]];
      ExistingAre(workers, ids[..n]);
      FoundIsMember(workers, ids[n]);
      if Distinct(ids) {
        var before := Existing(workers, ids[..n]);
        assert forall i :: 0 <= i < |before| ==> before[i] in before;
        assert ids[n] !in ids[..n];
      }
    }
  }

  lemma {:induction false} RecipientsAre(workers: seq<Worker>, link: Link)
    ensures forall w :: w in Recipients(workers, link) <==>
              w.id in link.workerIds && Find(workers, w.id) == Some(w) && !w.status.Absent?
    ensures forall i, j :: 0 <= i < j < |Recipients(workers, link)| ==>
              Recipients(workers, link)[i].id < Recipients(workers, link)[j].id
  {
    var team := Existing(workers, TeamIds(link));
    var present := Filter(AtWork(), team);
    var recipients := Recipients(workers, link);
    TeamIdsAre(link);
    ExistingAre(workers, TeamIds(link));
    FilterDistinct(AtWork(), team);
    SortPermutes(ByWorkerId(), present);
    SortSorted(ByWorkerId(), present);
    DistinctPermutation(present, recipients);
    forall i, j | 0 <= i < j < |recipients|
      ensures recipients[i].id < recipients[j].id
    {
      assert recipients[i] in recipients && recipients[j] in recipients;
    }
  }

  method GroupIssues(anyMissing: bool, anyOverlap: bool, consistent: bool, nobody: bool) returns (issues: set<Issue>)
    ensures issues == (if anyMissing then {LinkMemberMissing} else {}) + (if anyOverlap then {OverlappingLinks} else {})
                      + (if consistent then {} else {LinkedOutputConflict}) + (if nobody then {IsAbsent} else {})
  {
    issues := {};
    if anyMissing { issues := issues + {LinkMemberMissing}; }
    if anyOverlap { issues := issues + {OverlappingLinks}; }
    if !consistent { issues := issues + {LinkedOutputConflict}; }
    if nobody { issues := issues + {IsAbsent}; }
  }

  method JudgeLink(link: Link, byId: map<int, Worker>, conflictIds: set<int>,
                   ghost workers: seq<Worker>, ghost links: seq<Link>)
    returns (v: Verdict)
    requires link.workerIds != [] && Indexes(byId, workers)
    requires forall id :: id in conflictIds <==> Overlaps(links, id)
    ensures IsVerdict(v, workers, links, link)
  {
    var ids := TeamIds(link);
    var exist, anyMissing := FindMembers(ids, byId, workers);
    var anyOverlap := exists i :: 0 <= i < |ids| && ids[i] in conflictIds;
    var consistent := Consistent(exist);
    var output := if !anyOverlap && !anyMissing && consistent && exist != [] then exist[0].produced.value else 0;
    var recipients := Sort(ByWorkerId(), Filter(AtWork(), exist));
    var issues := GroupIssues(anyMissing, anyOverlap, consistent, recipients == [] && output > 0);
    var credits: map<int, int> := map[];
    if issues == {} && recipients != [] {
      RecipientsAre(workers, link);
      credits := CreditRecipients(recipients, output / |recipients|, output % |recipients|);
      if output % |recipients| > 0 { issues := issues + {OddLinkedBales}; }
    }
    v := Verdict(exist, output, credits, issues);
  }

  lemma {:induction false} LastLinkIs(links: seq<Link>, id: int)
    ensures LastLink(links, id).Some? <==> Linked(links, id)
    ensures LastLink(links, id).Some? ==>
            LastLink(links, id).value in links && id in LastLink(links, id).value.workerIds
  {
    if links != [] {
      var n := |links| - 1;
      assert links == links[..n] + [links[n]];
      LastLinkIs(links[..n], id);
      MentionsAppend(links[..n], links[n], id);
    }
  }

  /** The maps and counters of the grouping once the links in `done` are dealt with. */
  datatype Progress = Progress(shares: map<int, Share>, linked: set<int>, produced: int, warnings: set<Issue>)

  ghost predicate LinksDone(p: Progress, workers: seq<Worker>, links: seq<Link>, done: seq<Link>) {
    && LinkShares(p.shares, p.linked, workers, links, done)
    && p.produced == SumBy(OutputOf(workers, links), done)
    && LinkWarnings(p.warnings, workers, links, done)
  }

  ghost predicate LinkShares(shares: map<int, Share>, linked: set<int>, workers: seq<Worker>, links: seq<Link>,
                             done: seq<Link>) {
    && (forall id :: id in linked <==> Find(workers, id).Some? && Linked(done, id))
    && (forall id :: id in shares <==> id in linked)
    && (forall id :: id in shares ==>
          LastLink(done, id).Some? && shares[id] == TeamShare(workers, links, LastLink(done, id).value, id))
  }

  ghost predicate LinkWarnings(warnings: set<Issue>, workers: seq<Worker>, links: seq<Link>, done: seq<Link>) {
    forall x :: x in warnings <==> (x == OverlappingLinks && AnyOverlap(links)) || LinkWarns(workers, links, done, x)
  }

  method ShareWithTeam(shares0: map<int, Share>, linked0: set<int>, v: Verdict, link: Link,
                       ghost workers: seq<Worker>, ghost links: seq<Link>)
    returns (shares: map<int, Share>, linked: set<int>)
    requires IsVerdict(v, workers, links, link)
    ensures SharesSet(shares0, linked0, shares, linked, workers, links, link)
  {
    shares, linked := shares0, linked0;
    var i := 0;
    while i < |v.team|
      invariant 0 <= i <= |v.team|
      invariant forall id :: id in linked <==> id in linked0 || HasId(v.team[..i], id)
      invariant forall id :: id in shares <==> id in shares0 || HasId(v.team[..i], id)
      invariant forall id :: id in shares ==>
                  shares[id] == if HasId(v.team[..i], id) then TeamShare(workers, links, link, id) else shares0[id]
    {
      var id := v.team[i].id;
      HasIdAppend(v.team, i);
      shares := shares[id := Share(CreditIn(v.credits, id), Some(link.id), Filter(Other(id), TeamIds(link)), v.issues)];
      linked := linked + {id};
      i := i + 1;
    }
    assert v.team[..i] == v.team;
    TeamIdsAre(link);
    ExistingAre(workers, TeamIds(link));
    forall id
      ensures HasId(v.team, id) <==> id in link.workerIds && Find(workers, id).Some?
    {
      FoundIsMember(workers, id);
      if id in link.workerIds && Find(workers, id).Some? { assert Find(workers, id).value in v.team; }
    }
  }

  ghost predicate HasId(team: seq<Worker>, id: int) {
    exists w :: w in team && w.id == id
  }

  lemma {:induction false} HasIdAppend(team: seq<Worker>, i: nat)
    requires i < |team|
    ensures forall id :: HasId(team[..i + 1], id) <==> HasId(team[..i], id) || id == team[i].id
  {
    assert team[..i + 1] == team[..i] + [team[i]];
    assert team[i] in team[..i + 1];
  }

  method ApplyLink(p0: Progress, link: Link, byId: map<int, Worker>, conflictIds: set<int>,
                   ghost workers: seq<Worker>, ghost links: seq<Link>, ghost done: seq<Link>)
    returns (p: Progress)
    requires LinksDone(p0, workers, links, done) && Indexes(byId, workers)
    requires forall id :: id in conflictIds <==> Overlaps(links, id)
    ensures LinksDone(p, workers, links, done + [link])
  {
    SumByAppend(OutputOf(workers, links), done, [link]);
    SumByOne(OutputOf(workers, links), link);
    WarningsNext(p0.warnings, workers, links, done, link);
    p := p0;
    if link.workerIds != [] {
      var v := JudgeLink(link, byId, conflictIds, workers, links);
      var shares, linked := ShareWithTeam(p.shares, p.linked, v, link, workers, links);
      p := Progress(shares, linked, p.produced + v.output, p.warnings + v.issues);
    } else {
      NoTeam(workers, links, link);
    }
    SharesSetNext(p0.shares, p0.linked, p.shares, p.linked, workers, links, done, link);
  }

  /** A link that names nobody counts for nothing. */
  lemma {:induction false} NoTeam(workers: seq<Worker>, links: seq<Link>, link: Link)
    requires link.workerIds == []
    ensures TeamOutput(workers, links, link) == 0 && LinkIssues(workers, links, link) == {}
  {
    assert Dedup(link.workerIds) == [] && TeamIds(link) == [];
    assert Existing(workers, TeamIds(link)) == [];
  }

  ghost predicate SharesSet(shares0: map<int, Share>, linked0: set<int>, shares: map<int, Share>, linked: set<int>,
                            workers: seq<Worker>, links: seq<Link>, link: Link)
  {
    && (forall id :: id in linked <==> id in linked0 || (id in link.workerIds && Find(workers, id).Some?))
    && (forall id :: id in shares <==> id in shares0 || (id in link.workerIds && Find(workers, id).Some?))
    && (forall id :: id in shares ==>
          shares[id] == if id in link.workerIds && Find(workers, id).Some?
                        then TeamShare(workers, links, link, id) else shares0[id])
  }

  lemma {:induction false} SharesSetNext(shares0: map<int, Share>, linked0: set<int>, shares: map<int, Share>,
                                         linked: set<int>,
                                         workers: seq<Worker>, links: seq<Link>, done: seq<Link>, link: Link)
    requires LinkShares(shares0, linked0, workers, links, done)
    requires SharesSet(shares0, linked0, shares, linked, workers, links, link)
    ensures LinkShares(shares, linked, workers, links, done + [link])
  {
    assert (done + [link])[..|done|] == done;
    forall id
      ensures Linked(done + [link], id) <==> Linked(done, id) || id in link.workerIds
    {
      MentionsAppend(done, link, id);
    }
  }

  lemma {:induction false} WarningsNext(warnings: set<Issue>, workers: seq<Worker>, links: seq<Link>,
                                        done: seq<Link>, link: Link)
    requires LinkWarnings(warnings, workers, links, done)
    ensures LinkWarnings(warnings + LinkIssues(workers, links, link), workers, links, done + [link])
  {
    var more := done + [link];
    assert more[|done|] == link && forall i :: 0 <= i < |done| ==> more[i] == done[i];
    forall x
      ensures LinkWarns(workers, links, more, x)
              <==> LinkWarns(workers, links, done, x) || x in LinkIssues(workers, links, link)
    {
      if LinkWarns(workers, links, done, x) {
        var i :| 0 <= i < |done| && x in LinkIssues(workers, links, done[i]);
        assert more[i] == done[i];
      }
    }
  }

  /** Then the workers in no link, one by one. */
  ghost predicate WorkersDone(p: Progress, workers: seq<Worker>, links: seq<Link>, done: seq<Worker>) {
    && AllShares(p.shares, p.linked, workers, links, done)
    && p.produced == SumBy(OutputOf(workers, links), links) + SumBy(OwnOutput(links), done)
    && AllWarnings(p.warnings, workers, links, done)
  }

  function Lookup(shares: map<int, Share>, id: int): Option<Share> { if id in shares then Some(shares[id]) else None }

  function Settled(workers: seq<Worker>, links: seq<Link>, done: seq<Worker>, id: int): Option<Share> {
    if Linked(links, id) then
      if Find(workers, id).Some? then Some(TeamShare(workers, links, LastLinkOf(links, id), id)) else None
    else if Find(done, id).Some? then Some(OwnShare(Find(done, id).value)) else None
  }

  ghost predicate AllShares(shares: map<int, Share>, linked: set<int>, workers: seq<Worker>, links: seq<Link>,
                            done: seq<Worker>) {
    && (forall id :: id in linked <==> Find(workers, id).Some? && Linked(links, id))
    && (forall id :: Lookup(shares, id) == Settled(workers, links, done, id))
  }

  ghost predicate AllWarnings(warnings: set<Issue>, workers: seq<Worker>, links: seq<Link>, done: seq<Worker>) {
    forall x :: x in warnings <==>
      (x == OverlappingLinks && AnyOverlap(links)) || LinkWarns(workers, links, links, x) || OwnWarns(done, links, x)
  }

  function LastLinkOf(links: seq<Link>, id: int): Link
    requires Linked(links, id)
  {
    LastLinkIs(links, id);
    LastLink(links, id).value
  }

  lemma {:induction false} OwnWarningsNext(warnings: set<Issue>, workers: seq<Worker>, links: seq<Link>,
                                           done: seq<Worker>, w: Worker)
    requires AllWarnings(warnings, workers, links, done)
    ensures AllWarnings(if Linked(links, w.id) then warnings else warnings + OwnShare(w).issues,
                        workers, links, done + [w])
  {
    var more := done + [w];
    assert w in more && forall v :: v in done ==> v in more;
    forall x
      ensures OwnWarns(more, links, x)
              <==> OwnWarns(done, links, x) || (!Linked(links, w.id) && x in OwnShare(w).issues)
    {
    }
  }

  lemma {:induction false} OwnSharesNext(shares: map<int, Share>, linked: set<int>, workers: seq<Worker>,
                                         links: seq<Link>,
                                         done: seq<Worker>, w: Worker)
    requires AllShares(shares, linked, workers, links, done) && w in workers
    ensures w.id in linked <==> Linked(links, w.id)
    ensures AllShares(if w.id in linked then shares else shares[w.id := OwnShare(w)],
                      linked, workers, links, done + [w])
  {
    FoundIsMember(workers, w.id);
    assert (done + [w])[..|done|] == done;
    forall id
      ensures Settled(workers, links, done + [w], id)
              == if id == w.id && !Linked(links, id) then Some(OwnShare(w)) else Settled(workers, links, done, id)
    {
      assert Find(done + [w], id) == if id == w.id then Some(w) else Find(done, id);
    }
  }

  method ApplyWorker(p0: Progress, w: Worker, ghost workers: seq<Worker>, ghost links: seq<Link>,
                     ghost done: seq<Worker>)
    returns (p: Progress)
    requires WorkersDone(p0, workers, links, done) && w in workers
    ensures WorkersDone(p, workers, links, done + [w])
  {
    p := p0;
    OwnSharesNext(p.shares, p.linked, workers, links, done, w);
    OwnWarningsNext(p.warnings, workers, links, done, w);
    SumByAppend(OwnOutput(links), done, [w]);
    SumByOne(OwnOutput(links), w);
    if w.id in p.linked { return; }
    var valid := ValidBales(w.produced);
    var credited := if valid then w.produced.value else 0;
    var issues := if valid then {} else {InvalidProduction};
    p := Progress(p.shares[w.id := Share(credited, None, [], issues)], p.linked,
                  p.produced + credited, p.warnings + issues);
  }

  lemma {:induction false} ConflictsShow(conflictIds: set<int>, links: seq<Link>)
    requires forall id :: id in conflictIds <==> Overlaps(links, id)
    ensures |conflictIds| > 0 <==> AnyOverlap(links)
  {
    if AnyOverlap(links) {
      var id :| Overlaps(links, id);
      assert conflictIds != {} by { assert id in conflictIds; }
    } else {
      assert forall id :: id !in conflictIds;
      assert conflictIds == {};
    }
  }

  method ShareAmongTeams(workers: seq<Worker>, links: seq<Link>) returns (p: Progress)
    ensures WorkersDone(p, workers, links, [])
  {
    var byId := IndexWorkers(workers);
    var conflictIds := FindConflicts(links);
    p := Progress(map[], {}, 0, if |conflictIds| > 0 then {OverlappingLinks} else {});
    ConflictsShow(conflictIds, links);
    var i := 0;
    while i < |links|
      invariant 0 <= i <= |links| && LinksDone(p, workers, links, links[..i])
    {
      PrefixNext(links, i);
      p := ApplyLink(p, links[i], byId, conflictIds, workers, links, links[..i]);
      i := i + 1;
    }
    assert links[..i] == links;
    AllLinksDone(p, workers, links);
  }

  /** Every worker's share, the day's output with each team counted once, and what
      is wrong with the evidence. */
  method GroupBales(workers: seq<Worker>, links: seq<Link>)
    returns (shares: map<int, Share>, produced: int, warnings: set<Issue>)
    ensures forall id :: id in shares <==> Find(workers, id).Some?
    ensures forall id :: id in shares ==> shares[id] == ShareOf(workers, links, Find(workers, id).value)
    ensures produced == TotalProduced(workers, links)
    ensures forall x :: x in warnings <==> Warns(workers, links, x)
  {
    var p := ShareAmongTeams(workers, links);
    var i := 0;
    while i < |workers|
      invariant 0 <= i <= |workers| && WorkersDone(p, workers, links, workers[..i])
    {
      PrefixNext(workers, i);
      p := ApplyWorker(p, workers[i], workers, links, workers[..i]);
      i := i + 1;
    }
    assert workers[..i] == workers;
    AllWorkersDone(p, workers, links);
    shares, produced, warnings := p.shares, p.produced, p.warnings;
  }

  lemma {:induction false} AllLinksDone(p: Progress, workers: seq<Worker>, links: seq<Link>)
    requires LinksDone(p, workers, links, links)
    ensures WorkersDone(p, workers, links, [])
  {
    assert forall x :: !OwnWarns([], links, x);
    assert AllWarnings(p.warnings, workers, links, []);
    forall id
      ensures Lookup(p.shares, id) == Settled(workers, links, [], id)
    {
      LastLinkIs(links, id);
    }
  }

  lemma {:induction false} AllWorkersDone(p: Progress, workers: seq<Worker>, links: seq<Link>)
    requires WorkersDone(p, workers, links, workers)
    ensures forall id :: id in p.shares <==> Find(workers, id).Some?
    ensures forall id :: id in p.shares ==> p.shares[id] == ShareOf(workers, links, Find(workers, id).value)
    ensures p.produced == TotalProduced(workers, links)
    ensures forall x :: x in p.warnings <==> Warns(workers, links, x)
  {
    forall id
      ensures Lookup(p.shares, id)
              == if Find(workers, id).Some? then Some(ShareOf(workers, links, Find(workers, id).value)) else None
    {
      FoundIsMember(workers, id);
      LastLinkIs(links, id);
      assert Lookup(p.shares, id) == Settled(workers, links, workers, id);
    }
  }
}
