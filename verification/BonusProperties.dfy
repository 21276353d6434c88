/** What the sharing of bales promises: output is credited exactly once, evenly, to
    those present, whatever the order of the records. */
module BonusProperties {
  import opened Standard
  import opened DoubleSums
  import opened Sorting
  import opened BonusCredit

  ghost predicate UniqueWorkers(workers: seq<Worker>) {
    forall i, j :: 0 <= i < j < |workers| ==> workers[i].id != workers[j].id
  }

  function Credit(workers: seq<Worker>, links: seq<Link>): Worker -> int {
    (w: Worker) => ShareOf(workers, links, w).credited
  }

  lemma {:induction false} FindUnique(workers: seq<Worker>, w: Worker)
    requires UniqueWorkers(workers)
    ensures w in workers <==> Find(workers, w.id) == Some(w)
  {
    if workers != [] {
      var n := |workers| - 1;
      assert workers == workers[..n] + [workers[n]];
      FindUnique(workers[..n], w);
      FoundIsMember(workers[..n], w.id);
      if w in workers[..n] {
        var i :| 0 <= i < n && workers[i] == w;
        assert workers[n].id != w.id;
      }
    }
  }

  // ---- Who is paid -----------------------------------------------------------------------

  function Bales(): Payout -> int { (p: Payout) => p.bales }

  lemma {:induction false} SplitIs(rs: seq<Worker>, each: int, remainder: int)
    ensures |Split(rs, each, remainder)| == |rs|
    ensures forall k :: 0 <= k < |rs| ==>
              Split(rs, each, remainder)[k] == Payout(rs[k].id, each + if k < remainder then 1 else 0)
  {
    if rs != [] { SplitIs(rs[..|rs| - 1], each, remainder); }
  }

  lemma {:induction false} SplitTotal(rs: seq<Worker>, each: int, remainder: nat)
    ensures SumBy(Bales(), Split(rs, each, remainder)) == |rs| * each + Min(|rs|, remainder)
  {
    if rs != [] {
      var n := |rs| - 1;
      SplitTotal(rs[..n], each, remainder);
      var last := Payout(rs[n].id, each + if n < remainder then 1 else 0);
      SumByAppend(Bales(), Split(rs[..n], each, remainder), [last]);
      SumByOne(Bales(), last);
      assert (n + 1) * each == n * each + each;
    }
  }

  /** Payouts go to recipients of the link, one each. */
  lemma {:induction false} PayoutsAre(workers: seq<Worker>, links: seq<Link>, link: Link)
    ensures |Payouts(workers, links, link)| <= |Recipients(workers, link)|
    ensures forall k :: 0 <= k < |Payouts(workers, links, link)| ==>
              Payouts(workers, links, link)[k].id == Recipients(workers, link)[k].id
  {
    var rs := Recipients(workers, link);
    var bales := TeamOutput(workers, links, link);
    if rs != [] { SplitIs(rs, bales / |rs|, bales % |rs|); }
  }

  lemma {:induction false} PaidOnlyThose(payouts: seq<Payout>, id: int)
    requires forall k :: 0 <= k < |payouts| ==> payouts[k].id != id
    ensures SumBy(PaidTo(id), payouts) == 0
  {
    SumByZero(PaidTo(id), payouts);
  }

  lemma {:induction false} PaidOnce(payouts: seq<Payout>, k: nat)
    requires k < |payouts| && forall i, j :: 0 <= i < j < |payouts| ==> payouts[i].id != payouts[j].id
    ensures SumBy(PaidTo(payouts[k].id), payouts) == payouts[k].bales
  {
    if k == 0 {
      PaidOnlyThose(payouts[1..], payouts[0].id);
    } else {
      PaidOnce(payouts[1..], k - 1);
    }
  }

  /** Nobody outside the team, and nobody absent, is credited by its link. */
  lemma {:induction false} UnpaidByLink(workers: seq<Worker>, links: seq<Link>, link: Link, id: int)
    requires id !in link.workerIds || Find(workers, id).None? || Find(workers, id).value.status.Absent?
    ensures CreditFrom(workers, links, id)(link) == 0
  {
    var payouts := Payouts(workers, links, link);
    PayoutsAre(workers, links, link);
    RecipientsAre(workers, link);
    forall k | 0 <= k < |payouts|
      ensures payouts[k].id != id
    {
      assert Recipients(workers, link)[k] in Recipients(workers, link);
    }
    PaidOnlyThose(payouts, id);
  }

  /** Overlapping links credit nothing to anyone in them. */
  lemma {:induction false} OverlapUnpaid(workers: seq<Worker>, links: seq<Link>, link: Link, id: int)
    requires id in link.workerIds && Overlaps(links, id)
    ensures Payouts(workers, links, link) == [] && OverlappingLinks in LinkIssues(workers, links, link)
    ensures OddLinkedBales !in LinkIssues(workers, links, link)
  {
    TeamIdsAre(link);
    assert id in TeamIds(link);
    assert HasOverlap(links, TeamIds(link));
    assert OverlappingLinks in Blocking(workers, links, link);
  }

  lemma {:induction false} MentionCounts(links: seq<Link>, link: Link, id: int)
    requires link in links && id in link.workerIds
    ensures Linked(links, id) && (Overlaps(links, id) || SumBy(Mentions(id), links) == 1)
  {
    SumByNotNegative(Mentions(id), links);
    assert Mentions(id)(link) == 1;
  }

  /** A linked worker's credit is what any one of his links gives him, and what all
      of them give together. */
  lemma {:induction false} LinkedCredit(workers: seq<Worker>, links: seq<Link>, w: Worker, link: Link)
    requires link in links && w.id in link.workerIds
    ensures Credit(workers, links)(w) == CreditFrom(workers, links, w.id)(link)
    ensures Credit(workers, links)(w) == SumBy(CreditFrom(workers, links, w.id), links)
  {
    MentionCounts(links, link, w.id);
    LastLinkIs(links, w.id);
    CreditsTogether(workers, links, link, w.id);
    CreditsTogether(workers, links, LastLink(links, w.id).value, w.id);
  }

  lemma {:induction false} CreditsTogether(workers: seq<Worker>, links: seq<Link>, link: Link, id: int)
    requires link in links && id in link.workerIds
    ensures SumBy(CreditFrom(workers, links, id), links) == CreditFrom(workers, links, id)(link)
  {
    MentionCounts(links, link, id);
    forall l | l in links && (Mentions(id)(l) == 0 || Overlaps(links, id))
      ensures CreditFrom(workers, links, id)(l) == 0
    {
      if id in l.workerIds { OverlapUnpaid(workers, links, l, id); } else { UnpaidByLink(workers, links, l, id); }
    }
    if Overlaps(links, id) {
      SumByZero(CreditFrom(workers, links, id), links);
    } else {
      OneTerm(CreditFrom(workers, links, id), Mentions(id), links, link);
    }
  }

  lemma {:induction false} CreditParts(workers: seq<Worker>, links: seq<Link>, w: Worker)
    ensures Credit(workers, links)(w) == OwnOutput(links)(w) + SumBy(CreditFrom(workers, links, w.id), links)
  {
    LastLinkIs(links, w.id);
    if Linked(links, w.id) {
      LinkedCredit(workers, links, w, LastLink(links, w.id).value);
    } else {
      SumByNotNegative(Mentions(w.id), links);
      forall l | l in links
        ensures CreditFrom(workers, links, w.id)(l) == 0
      {
        assert Mentions(w.id)(l) == 0;
        UnpaidByLink(workers, links, l, w.id);
      }
      SumByZero(CreditFrom(workers, links, w.id), links);
    }
  }

  // ---- Conservation ------------------------------------------------------------------------

  /** The output of a team of which nobody was present. */
  function Unattributed(workers: seq<Worker>, links: seq<Link>): Link -> int {
    (l: Link) => if Recipients(workers, l) == [] then TeamOutput(workers, links, l) else 0
  }

  lemma {:induction false} EvenTotal(rs: seq<Worker>, bales: nat)
    requires rs != []
    ensures SumBy(Bales(), Split(rs, bales / |rs|, bales % |rs|)) == bales
  {
    var each, remainder := bales / |rs|, bales % |rs|;
    assert bales == |rs| * each + remainder;
    SplitTotal(rs, each, remainder);
  }

  lemma {:induction false} PayoutTotal(workers: seq<Worker>, links: seq<Link>, link: Link)
    ensures SumBy(Bales(), Payouts(workers, links, link)) + Unattributed(workers, links)(link)
            == TeamOutput(workers, links, link)
  {
    var rs := Recipients(workers, link);
    var bales := TeamOutput(workers, links, link);
    if rs != [] && Blocking(workers, links, link) == {} {
      EvenTotal(rs, bales);
    } else if rs != [] {
      assert !Sound(workers, links, link);
    }
  }

  function HasThisId(id: int): Worker -> int { (w: Worker) => if w.id == id then 1 else 0 }

  lemma {:induction false} OnceEach(workers: seq<Worker>, id: int)
    requires UniqueWorkers(workers)
    ensures SumBy(HasThisId(id), workers) == if Find(workers, id).Some? then 1 else 0
  {
    if workers != [] {
      var n := |workers| - 1;
      assert workers == workers[..n] + [workers[n]];
      OnceEach(workers[..n], id);
      SumByAppend(HasThisId(id), workers[..n], [workers[n]]);
      SumByOne(HasThisId(id), workers[n]);
      FoundIsMember(workers[..n], id);
    }
  }

  function Pays(): (Payout, Worker) -> int { (p: Payout, w: Worker) => if p.id == w.id then p.bales else 0 }

  lemma {:induction false} ScaledOnce(workers: seq<Worker>, p: Payout)
    requires UniqueWorkers(workers) && Find(workers, p.id).Some?
    ensures SumBy(Row(Pays(), p), workers) == p.bales
  {
    OnceEach(workers, p.id);
    FoundIsMember(workers, p.id);
    var w := Find(workers, p.id).value;
    OneTerm(Row(Pays(), p), HasThisId(p.id), workers, w);
  }

  function LinkToWorker(workers: seq<Worker>, links: seq<Link>): (Worker, Link) -> int {
    (w: Worker, l: Link) => CreditFrom(workers, links, w.id)(l)
  }

  /** What one link credits over all workers is what it pays out. */
  lemma {:induction false} LinkCreditsItsPayouts(workers: seq<Worker>, links: seq<Link>, link: Link)
    requires UniqueWorkers(workers)
    ensures SumBy(Column(LinkToWorker(workers, links), link), workers) == SumBy(Bales(), Payouts(workers, links, link))
  {
    var payouts := Payouts(workers, links, link);
    forall w
      ensures ColumnSums(Pays(), payouts)(w) == Column(LinkToWorker(workers, links), link)(w)
    {
      SumBySame(Column(Pays(), w), PaidTo(w.id), payouts);
      assert ColumnSums(Pays(), payouts)(w) == SumBy(Column(Pays(), w), payouts);
      assert Column(LinkToWorker(workers, links), link)(w) == CreditFrom(workers, links, w.id)(link);
    }
    SumBySame(ColumnSums(Pays(), payouts), Column(LinkToWorker(workers, links), link), workers);
    SwapSums(Pays(), payouts, workers);
    PayoutsAre(workers, links, link);
    RecipientsAre(workers, link);
    forall p | p in payouts
      ensures RowSums(Pays(), workers)(p) == Bales()(p)
    {
      var k :| 0 <= k < |payouts| && payouts[k] == p;
      assert Recipients(workers, link)[k] in Recipients(workers, link);
      ScaledOnce(workers, p);
    }
    SumBySame(RowSums(Pays(), workers), Bales(), payouts);
  }

  /** Credits plus the output of wholly absent teams come to the day's output, each
      team's counted once. */
  lemma {:induction false} CreditsAndLosses(workers: seq<Worker>, links: seq<Link>)
    requires UniqueWorkers(workers)
    ensures SumBy(Credit(workers, links), workers) + SumBy(Unattributed(workers, links), links)
            == TotalProduced(workers, links)
  {
    var f := LinkToWorker(workers, links);
    forall w | w in workers
      ensures Credit(workers, links)(w) == OwnOutput(links)(w) + RowSums(f, links)(w)
    {
      CreditParts(workers, links, w);
      SumBySame(Row(f, w), CreditFrom(workers, links, w.id), links);
    }
    SumByPlus(Credit(workers, links), OwnOutput(links), RowSums(f, links), workers);
    SwapSums(f, workers, links);
    forall l | l in links
      ensures OutputOf(workers, links)(l) == ColumnSums(f, workers)(l) + Unattributed(workers, links)(l)
    {
      LinkCreditsItsPayouts(workers, links, l);
      PayoutTotal(workers, links, l);
    }
    SumByPlus(OutputOf(workers, links), ColumnSums(f, workers), Unattributed(workers, links), links);
  }

  /** All output is credited exactly when every team that produced had somebody present. */
  lemma {:induction false} CreditsConservedIff(workers: seq<Worker>, links: seq<Link>)
    requires UniqueWorkers(workers)
    ensures SumBy(Credit(workers, links), workers) == TotalProduced(workers, links)
            <==> forall l :: l in links && Recipients(workers, l) == [] ==> TeamOutput(workers, links, l) == 0
  {
    CreditsAndLosses(workers, links);
    SumByNotNegative(Unattributed(workers, links), links);
    forall l | l in links
      ensures Unattributed(workers, links)(l) == 0
              <==> (Recipients(workers, l) == [] ==> TeamOutput(workers, links, l) == 0)
    {
    }
  }

  /** On a day without warnings that hold up payment nothing is lost. */
  lemma {:induction false} ReadyDayConserves(workers: seq<Worker>, links: seq<Link>)
    requires UniqueWorkers(workers) && forall x :: Warns(workers, links, x) ==> x == OddLinkedBales
    ensures SumBy(Credit(workers, links), workers) == TotalProduced(workers, links)
  {
    CreditsConservedIff(workers, links);
    forall l | l in links && Recipients(workers, l) == []
      ensures TeamOutput(workers, links, l) == 0
    {
      if TeamOutput(workers, links, l) > 0 { LossWarns(workers, links, l); }
    }
  }

  lemma {:induction false} LossWarns(workers: seq<Worker>, links: seq<Link>, link: Link)
    requires link in links && Recipients(workers, link) == [] && TeamOutput(workers, links, link) > 0
    ensures Warns(workers, links, IsAbsent)
  {
    var i :| 0 <= i < |links| && links[i] == link;
    NoTeamNoOutput(workers, links, link);
    assert IsAbsent in LinkIssues(workers, links, links[i]);
  }

  lemma {:induction false} NoTeamNoOutput(workers: seq<Worker>, links: seq<Link>, link: Link)
    ensures link.workerIds == [] ==> TeamOutput(workers, links, link) == 0
  {
    if link.workerIds == [] { NoTeam(workers, links, link); }
  }

  // ---- Fairness -----------------------------------------------------------------------------

  /** The k-th of the team's recipients gets an even share, and one more while the
      remainder lasts. */
  lemma {:induction false} RecipientCredit(workers: seq<Worker>, links: seq<Link>, link: Link, k: nat)
    requires k < |Recipients(workers, link)| && Blocking(workers, links, link) == {}
    ensures var rs := Recipients(workers, link);
            var bales := TeamOutput(workers, links, link);
            CreditFrom(workers, links, rs[k].id)(link) == bales / |rs| + if k < bales % |rs| then 1 else 0
  {
    var rs := Recipients(workers, link);
    var bales := TeamOutput(workers, links, link);
    SplitIs(rs, bales / |rs|, bales % |rs|);
    RecipientsAre(workers, link);
    PaidOnce(Payouts(workers, links, link), k);
  }

  /** Team mates who are present get the same to within one bale, and the lower
      number never less. */
  lemma {:induction false} TeamMatesEven(workers: seq<Worker>, links: seq<Link>, link: Link, a: Worker, b: Worker)
    requires link in links && a.id in link.workerIds && b.id in link.workerIds && a.id < b.id
    requires Find(workers, a.id) == Some(a) && Find(workers, b.id) == Some(b) && !a.status.Absent? && !b.status.Absent?
    ensures Credit(workers, links)(b) <= Credit(workers, links)(a) <= Credit(workers, links)(b) + 1
  {
    LinkedCredit(workers, links, a, link);
    LinkedCredit(workers, links, b, link);
    if Blocking(workers, links, link) == {} {
      var i, j := PlacesOf(workers, link, a, b);
      RecipientCredit(workers, links, link, i);
      RecipientCredit(workers, links, link, j);
    }
  }

  lemma {:induction false} PlacesOf(workers: seq<Worker>, link: Link, a: Worker, b: Worker) returns (i: nat, j: nat)
    requires a.id in link.workerIds && b.id in link.workerIds && a.id < b.id
    requires Find(workers, a.id) == Some(a) && Find(workers, b.id) == Some(b) && !a.status.Absent? && !b.status.Absent?
    ensures i < j < |Recipients(workers, link)| && Recipients(workers, link)[i] == a
            && Recipients(workers, link)[j] == b
  {
    RecipientsAre(workers, link);
    var rs := Recipients(workers, link);
    assert a in rs && b in rs;
    i :| 0 <= i < |rs| && rs[i] == a;
    j :| 0 <= j < |rs| && rs[j] == b;
  }

  /** An absent worker is credited nothing unless he works alone and has output of
      his own on record, which the grouping credits without looking at his status. */
  lemma {:induction false} AbsentCreditIff(workers: seq<Worker>, links: seq<Link>, w: Worker)
    requires Find(workers, w.id) == Some(w) && w.status.Absent?
    ensures Credit(workers, links)(w) == 0 <==> Linked(links, w.id) || !ValidBales(w.produced) || w.produced.value == 0
  {
    LastLinkIs(links, w.id);
    if Linked(links, w.id) { UnpaidByLink(workers, links, LastLink(links, w.id).value, w.id); }
  }

  lemma {:induction false} AbsentYetCredited()
    ensures var w := Worker(1, "A", Absent, Some(10), Some(12)); Credit([w], [])(w) == 12
  {
    assert LastLink([], 1) == None;
  }

  // ---- Order of the records ---------------------------------------------------------------------

  /** Two days with the same records in another order. */
  ghost predicate Rearranged(ws: seq<Worker>, ls: seq<Link>, ws2: seq<Worker>, ls2: seq<Link>) {
    UniqueWorkers(ws) && UniqueWorkers(ws2) && multiset(ws) == multiset(ws2) && multiset(ls) == multiset(ls2)
  }

  ghost predicate SameFacts(ws: seq<Worker>, ls: seq<Link>, ws2: seq<Worker>, ls2: seq<Link>) {
    && (forall id :: Find(ws, id) == Find(ws2, id))
    && (forall id :: Overlaps(ls, id) == Overlaps(ls2, id))
    && (forall id :: Linked(ls, id) == Linked(ls2, id))
  }

  lemma {:induction false} RearrangedFacts(ws: seq<Worker>, ls: seq<Link>, ws2: seq<Worker>, ls2: seq<Link>)
    requires Rearranged(ws, ls, ws2, ls2)
    ensures SameFacts(ws, ls, ws2, ls2)
  {
    SameMembers(ws, ws2);
    forall id
      ensures Find(ws, id) == Find(ws2, id)
    {
      FoundIsMember(ws, id);
      FoundIsMember(ws2, id);
      if Find(ws, id).Some? { FindUnique(ws2, Find(ws, id).value); }
    }
    forall id
      ensures SumBy(Mentions(id), ls) == SumBy(Mentions(id), ls2)
    {
      SumByPermutation(Mentions(id), ls, ls2);
    }
  }

  lemma {:induction false} SameExisting(ws: seq<Worker>, ws2: seq<Worker>, ids: seq<int>)
    requires forall id :: Find(ws, id) == Find(ws2, id)
    ensures Existing(ws, ids) == Existing(ws2, ids)
  {
    if ids != [] { SameExisting(ws, ws2, ids[..|ids| - 1]); }
  }

  lemma {:induction false} SameTeam(ws: seq<Worker>, ls: seq<Link>, ws2: seq<Worker>, ls2: seq<Link>, link: Link)
    requires SameFacts(ws, ls, ws2, ls2)
    ensures TeamOutput(ws, ls, link) == TeamOutput(ws2, ls2, link)
    ensures Payouts(ws, ls, link) == Payouts(ws2, ls2, link)
    ensures LinkIssues(ws, ls, link) == LinkIssues(ws2, ls2, link)
  {
    SameExisting(ws, ws2, TeamIds(link));
    assert HasMissing(ws, TeamIds(link)) == HasMissing(ws2, TeamIds(link));
    assert HasOverlap(ls, TeamIds(link)) == HasOverlap(ls2, TeamIds(link));
  }

  /** A worker in at most one link has the same share; one in several has no credit
      and is held up, either way. */
  lemma {:induction false} ShareIgnoresOrder(ws: seq<Worker>, ls: seq<Link>, ws2: seq<Worker>, ls2: seq<Link>,
                                             w: Worker)
    requires Rearranged(ws, ls, ws2, ls2)
    ensures Credit(ws, ls)(w) == Credit(ws2, ls2)(w)
    ensures !Overlaps(ls, w.id) ==> ShareOf(ws, ls, w) == ShareOf(ws2, ls2, w)
    ensures Overlaps(ls, w.id) ==> HeldUp(ShareOf(ws, ls, w).issues) && HeldUp(ShareOf(ws2, ls2, w).issues)
  {
    RearrangedFacts(ws, ls, ws2, ls2);
    LastLinkIs(ls, w.id);
    LastLinkIs(ls2, w.id);
    if Linked(ls, w.id) {
      var l, l2 := LastLink(ls, w.id).value, LastLink(ls2, w.id).value;
      SameTeam(ws, ls, ws2, ls2, l);
      SameTeam(ws, ls, ws2, ls2, l2);
      SameMembers(ls, ls2);
      LinkedCredit(ws, ls, w, l);
      LinkedCredit(ws, ls, w, l2);
      if Overlaps(ls, w.id) {
        OverlapUnpaid(ws, ls, l, w.id);
        OverlapUnpaid(ws2, ls2, l2, w.id);
      } else {
        MentionCounts(ls, l, w.id);
        OneTerm(Mentions(w.id), Mentions(w.id), ls, l);
        assert Mentions(w.id)(l2) == 1;
      }
    }
  }

  /** Overlapping links stop the payment, and never ask for a review. */
  ghost predicate HeldUp(issues: set<Issue>) {
    OverlappingLinks in issues && OddLinkedBales !in issues
  }

  lemma {:induction false} TotalsIgnoreOrder(ws: seq<Worker>, ls: seq<Link>, ws2: seq<Worker>, ls2: seq<Link>)
    requires Rearranged(ws, ls, ws2, ls2)
    ensures TotalProduced(ws, ls) == TotalProduced(ws2, ls2)
    ensures SumBy(Credit(ws, ls), ws) == SumBy(Credit(ws2, ls2), ws2)
  {
    RearrangedFacts(ws, ls, ws2, ls2);
    forall l | l in ls
      ensures OutputOf(ws, ls)(l) == OutputOf(ws2, ls2)(l)
    {
      SameTeam(ws, ls, ws2, ls2, l);
    }
    SumBySame(OutputOf(ws, ls), OutputOf(ws2, ls2), ls);
    SumByPermutation(OutputOf(ws2, ls2), ls, ls2);
    SumBySame(OwnOutput(ls), OwnOutput(ls2), ws);
    SumByPermutation(OwnOutput(ls2), ws, ws2);
    forall w | w in ws
      ensures Credit(ws, ls)(w) == Credit(ws2, ls2)(w)
    {
      ShareIgnoresOrder(ws, ls, ws2, ls2, w);
    }
    SumBySame(Credit(ws, ls), Credit(ws2, ls2), ws);
    SumByPermutation(Credit(ws2, ls2), ws, ws2);
  }

  lemma {:induction false} WarningsIgnoreOrder(ws: seq<Worker>, ls: seq<Link>, ws2: seq<Worker>, ls2: seq<Link>,
                                               x: Issue)
    requires Rearranged(ws, ls, ws2, ls2) && Warns(ws, ls, x)
    ensures Warns(ws2, ls2, x)
  {
    RearrangedFacts(ws, ls, ws2, ls2);
    SameMembers(ws, ws2);
    SameMembers(ls, ls2);
    if LinkWarns(ws, ls, ls, x) {
      var i :| 0 <= i < |ls| && x in LinkIssues(ws, ls, ls[i]);
      SameTeam(ws, ls, ws2, ls2, ls[i]);
      assert ls[i] in ls2;
      var j :| 0 <= j < |ls2| && ls2[j] == ls[i];
      assert x in LinkIssues(ws2, ls2, ls2[j]);
    }
  }
}
