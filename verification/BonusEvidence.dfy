/** The day's evidence as it stands on record: what a team's output is, which evidence
    raises which issue, and when a day is ready to be paid. */
module BonusEvidence {
  import opened Standard
  import opened DoubleSums
  import opened Sorting
  import opened BonusCredit
  import opened BonusProperties

  /** The record that counts for a worker: the last one under the id. */
  ghost predicate OnRecord(workers: seq<Worker>, w: Worker) {
    exists i :: 0 <= i < |workers| && workers[i] == w && LastOfId(workers, i)
  }

  ghost predicate LastOfId(workers: seq<Worker>, i: nat)
    requires i < |workers|
  {
    forall j :: i < j < |workers| ==> workers[j].id != workers[i].id
  }

  ghost predicate HasRecord(workers: seq<Worker>, id: int) { exists w :: w in workers && w.id == id }

  ghost predicate InTwoLinks(links: seq<Link>, id: int) {
    exists i, j :: 0 <= i < j < |links| && id in links[i].workerIds && id in links[j].workerIds
  }

  ghost predicate InALink(links: seq<Link>, id: int) { exists link :: link in links && id in link.workerIds }

  ghost predicate Counts(v: Option<int>) { v.Some? && 0 <= v.value < 0x20_0000_0000_0000 }

  /** Every member has a record. */
  ghost predicate Complete(workers: seq<Worker>, link: Link) {
    forall id :: id in link.workerIds ==> HasRecord(workers, id)
  }

  /** No member is named by two links. */
  ghost predicate Apart(links: seq<Link>, link: Link) {
    forall id :: id in link.workerIds ==> !InTwoLinks(links, id)
  }

  /** The records of the members repeat one valid count. */
  ghost predicate Agreed(workers: seq<Worker>, link: Link) {
    forall w, v :: OnRecord(workers, w) && OnRecord(workers, v) && w.id in link.workerIds && v.id in link.workerIds
                   ==> Counts(w.produced) && w.produced == v.produced
  }

  ghost predicate Trusted(workers: seq<Worker>, links: seq<Link>, link: Link) {
    Complete(workers, link) && Apart(links, link) && Agreed(workers, link)
  }

  // ---- The records behind the grouping ------------------------------------------------------

  lemma {:induction false} FoundIsOnRecord(workers: seq<Worker>, w: Worker)
    ensures Find(workers, w.id) == Some(w) <==> OnRecord(workers, w)
  {
    if workers != [] {
      var n := |workers| - 1;
      var front := workers[..n];
      FoundIsOnRecord(front, w);
      if workers[n].id == w.id {
        assert LastOfId(workers, n);
      } else {
        assert forall i :: 0 <= i < n && workers[i] == w ==> (LastOfId(front, i) <==> LastOfId(workers, i));
        if OnRecord(front, w) {
          var i :| 0 <= i < n && front[i] == w && LastOfId(front, i);
          assert workers[i] == w && LastOfId(workers, i);
        }
        if OnRecord(workers, w) {
          var i :| 0 <= i <= n && workers[i] == w && LastOfId(workers, i);
          assert front[i] == w && LastOfId(front, i);
        }
      }
    }
  }

  lemma {:induction false} RecordFound(workers: seq<Worker>, id: int)
    ensures Find(workers, id).Some? <==> HasRecord(workers, id)
  {
    FoundIsMember(workers, id);
  }

  lemma {:induction false} InTwoNext(front: seq<Link>, link: Link, id: int)
    ensures InTwoLinks(front + [link], id) <==> InTwoLinks(front, id) || (InALink(front, id) && id in link.workerIds)
  {
    var links, n := front + [link], |front|;
    if InTwoLinks(links, id) {
      var i, j :| 0 <= i < j < |links| && id in links[i].workerIds && id in links[j].workerIds;
      assert links[i] == front[i] && front[i] in front;
      if j < n { assert id in front[i].workerIds && id in front[j].workerIds; }
    }
    if InTwoLinks(front, id) {
      var i, j :| 0 <= i < j < n && id in front[i].workerIds && id in front[j].workerIds;
      assert id in links[i].workerIds && id in links[j].workerIds;
    }
    if InALink(front, id) && id in link.workerIds {
      var l :| l in front && id in l.workerIds;
      var i :| 0 <= i < n && front[i] == l;
      assert id in links[i].workerIds && id in links[n].workerIds;
    }
  }

  lemma {:induction false} InALinkNext(front: seq<Link>, link: Link, id: int)
    ensures InALink(front + [link], id) <==> InALink(front, id) || id in link.workerIds
  {
    assert forall l :: l in front + [link] <==> l in front || l == link;
  }

  lemma {:induction false} LinkedMeans(links: seq<Link>, id: int)
    ensures Linked(links, id) <==> InALink(links, id)
    ensures Overlaps(links, id) <==> InTwoLinks(links, id)
  {
    if links != [] {
      var front, link := links[..|links| - 1], links[|links| - 1];
      assert links == front + [link];
      LinkedMeans(front, id);
      MentionsAppend(front, link, id);
      InTwoNext(front, link, id);
      InALinkNext(front, link, id);
    }
  }

  /** What the grouping looks at is the evidence on record. */
  lemma {:induction false} EvidenceIs(workers: seq<Worker>, links: seq<Link>, link: Link)
    ensures HasMissing(workers, TeamIds(link)) <==> !Complete(workers, link)
    ensures HasOverlap(links, TeamIds(link)) <==> !Apart(links, link)
    ensures Consistent(Existing(workers, TeamIds(link))) <==> Agreed(workers, link)
  {
    MissingIs(workers, link);
    OverlapIs(links, link);
    AgreedIs(workers, link);
  }

  lemma {:induction false} MissingIs(workers: seq<Worker>, link: Link)
    ensures HasMissing(workers, TeamIds(link)) <==> !Complete(workers, link)
  {
    TeamIdsAre(link);
    forall id {
      RecordFound(workers, id);
    }
    if !Complete(workers, link) {
      var id :| id in link.workerIds && !HasRecord(workers, id);
      assert id in TeamIds(link);
    }
  }

  lemma {:induction false} OverlapIs(links: seq<Link>, link: Link)
    ensures HasOverlap(links, TeamIds(link)) <==> !Apart(links, link)
  {
    TeamIdsAre(link);
    forall id {
      LinkedMeans(links, id);
    }
    if !Apart(links, link) {
      var id :| id in link.workerIds && InTwoLinks(links, id);
      assert id in TeamIds(link);
    }
  }

  lemma {:induction false} AgreedIs(workers: seq<Worker>, link: Link)
    ensures Consistent(Existing(workers, TeamIds(link))) <==> Agreed(workers, link)
  {
    var team := Existing(workers, TeamIds(link));
    TeamIs(workers, link);
    if Agreed(workers, link) {
      forall i | 0 <= i < |team|
        ensures ValidBales(team[i].produced) && team[i].produced == team[0].produced
      {
        assert team[i] in team && team[0] in team;
      }
    }
    if Consistent(team) {
      forall w, v | OnRecord(workers, w) && OnRecord(workers, v) && w.id in link.workerIds && v.id in link.workerIds
        ensures Counts(w.produced) && w.produced == v.produced
      {
        assert w in team && v in team;
      }
    }
  }

  lemma {:induction false} TeamIs(workers: seq<Worker>, link: Link)
    ensures forall w :: w in Existing(workers, TeamIds(link)) <==> OnRecord(workers, w) && w.id in link.workerIds
  {
    TeamIdsAre(link);
    ExistingAre(workers, TeamIds(link));
    forall w {
      FoundIsOnRecord(workers, w);
    }
  }

  // ---- A team's output -----------------------------------------------------------------------

  /** A team's output is what any member's record says, once, if the evidence can be
      trusted, and nothing otherwise. */
  lemma {:induction false} TeamOutputIs(workers: seq<Worker>, links: seq<Link>, link: Link, w: Worker)
    requires OnRecord(workers, w) && w.id in link.workerIds
    ensures TeamOutput(workers, links, link) == if Trusted(workers, links, link) then w.produced.value else 0
  {
    EvidenceIs(workers, links, link);
    TeamIs(workers, link);
    assert w in Existing(workers, TeamIds(link));
  }

  lemma {:induction false} NobodyNoOutput(workers: seq<Worker>, links: seq<Link>, link: Link)
    requires forall w :: OnRecord(workers, w) ==> w.id !in link.workerIds
    ensures TeamOutput(workers, links, link) == 0
  {
    TeamIs(workers, link);
    SomeMember(Existing(workers, TeamIds(link)));
  }

  /** What a team's members have on record, counted once. */
  ghost function OnceATeam(workers: seq<Worker>, links: seq<Link>): Link -> int {
    (l: Link) => if Trusted(workers, links, l) && l.workerIds != [] then RecordedCount(workers, l.workerIds[0]) else 0
  }

  /** What the worker's own record says; a count that is not valid is none. */
  ghost function RecordedCount(workers: seq<Worker>, id: int): (bales: int)
    ensures forall w :: OnRecord(workers, w) && w.id == id && Counts(w.produced) ==> bales == w.produced.value
  {
    forall w
      ensures OnRecord(workers, w) && w.id == id ==> Find(workers, id) == Some(w)
    {
      FoundIsOnRecord(workers, w);
    }
    var found := Find(workers, id);
    if found.Some? && found.value.produced.Some? then found.value.produced.value else 0
  }

  ghost function OnTheirOwn(links: seq<Link>): Worker -> int {
    (w: Worker) => if !InALink(links, w.id) && Counts(w.produced) then w.produced.value else 0
  }

  lemma {:induction false} OutputOnce(workers: seq<Worker>, links: seq<Link>, link: Link)
    ensures OutputOf(workers, links)(link) == OnceATeam(workers, links)(link)
  {
    if link.workerIds == [] {
      NoTeam(workers, links, link);
    } else {
      var id := link.workerIds[0];
      RecordFound(workers, id);
      if Find(workers, id).Some? {
        var w := Find(workers, id).value;
        FoundIsMember(workers, id);
        FoundIsOnRecord(workers, w);
        TeamOutputIs(workers, links, link, w);
      } else {
        EvidenceIs(workers, links, link);
        assert !HasRecord(workers, id);
      }
    }
  }

  /** The day's total is one member's record for every team that can be trusted, and
      every other worker's own. */
  lemma {:induction false} TotalIsRecorded(workers: seq<Worker>, links: seq<Link>)
    ensures TotalProduced(workers, links)
            == SumBy(OnceATeam(workers, links), links) + SumBy(OnTheirOwn(links), workers)
  {
    forall l {
      OutputOnce(workers, links, l);
    }
    SumBySame(OutputOf(workers, links), OnceATeam(workers, links), links);
    forall w: Worker
      ensures OwnOutput(links)(w) == OnTheirOwn(links)(w)
    {
      LinkedMeans(links, w.id);
    }
    SumBySame(OwnOutput(links), OnTheirOwn(links), workers);
  }

  // ---- Which evidence raises which issue -----------------------------------------------------

  ghost predicate SomebodyAtWork(workers: seq<Worker>, link: Link) {
    exists w :: OnRecord(workers, w) && w.id in link.workerIds && !w.status.Absent?
  }

  ghost predicate ProducedSomething(workers: seq<Worker>, link: Link) {
    exists w :: OnRecord(workers, w) && w.id in link.workerIds && w.produced.Some? && w.produced.value > 0
  }

  lemma {:induction false} NobodyAtWork(workers: seq<Worker>, link: Link)
    ensures Recipients(workers, link) == [] <==> !SomebodyAtWork(workers, link)
  {
    RecipientsAre(workers, link);
    forall w {
      FoundIsOnRecord(workers, w);
    }
    if Recipients(workers, link) != [] { assert Recipients(workers, link)[0] in Recipients(workers, link); }
  }

  lemma {:induction false} OutputIsSomething(workers: seq<Worker>, links: seq<Link>, link: Link)
    ensures TeamOutput(workers, links, link) > 0 <==> Trusted(workers, links, link) && ProducedSomething(workers, link)
  {
    if w :| OnRecord(workers, w) && w.id in link.workerIds {
      TeamOutputIs(workers, links, link, w);
      assert Trusted(workers, links, link) ==> Counts(w.produced);
    } else {
      NobodyNoOutput(workers, links, link);
    }
  }

  /** The issues of a link, each by the evidence that raises it. */
  ghost predicate Raised(workers: seq<Worker>, links: seq<Link>, link: Link, x: Issue) {
    match x
    case LinkMemberMissing => !Complete(workers, link)
    case OverlappingLinks => !Apart(links, link)
    case LinkedOutputConflict => !Agreed(workers, link)
    case IsAbsent =>
      Trusted(workers, links, link) && ProducedSomething(workers, link) && !SomebodyAtWork(workers, link)
    case OddLinkedBales =>
      var n := |Recipients(workers, link)|;
      Trusted(workers, links, link) && n > 0 && TeamOutput(workers, links, link) % n > 0
    case _ => false
  }

  lemma {:induction false} BlockingParts(workers: seq<Worker>, links: seq<Link>, link: Link, x: Issue)
    ensures x in Blocking(workers, links, link)
            <==> || (x == LinkMemberMissing && HasMissing(workers, TeamIds(link)))
                 || (x == OverlappingLinks && HasOverlap(links, TeamIds(link)))
                 || (x == LinkedOutputConflict && !Consistent(Existing(workers, TeamIds(link))))
                 || (x == IsAbsent && Recipients(workers, link) == [] && TeamOutput(workers, links, link) > 0)
  {
  }

  lemma {:induction false} BlockingAre(workers: seq<Worker>, links: seq<Link>, link: Link, x: Issue)
    ensures x in Blocking(workers, links, link) <==> x != OddLinkedBales && Raised(workers, links, link, x)
  {
    BlockingParts(workers, links, link, x);
    EvidenceIs(workers, links, link);
    NobodyAtWork(workers, link);
    OutputIsSomething(workers, links, link);
  }

  lemma {:induction false} LinkIssuesAre(workers: seq<Worker>, links: seq<Link>, link: Link, x: Issue)
    requires link.workerIds != []
    ensures x in LinkIssues(workers, links, link) <==> Raised(workers, links, link, x)
  {
    var blocking := Blocking(workers, links, link);
    BlockingAre(workers, links, link, x);
    TrustedBlocks(workers, links, link);
    if Recipients(workers, link) != [] {
      assert blocking == {} <==> Trusted(workers, links, link);
    }
  }

  lemma {:induction false} TrustedBlocks(workers: seq<Worker>, links: seq<Link>, link: Link)
    ensures Blocking(workers, links, link) == {} <==> Trusted(workers, links, link)
                                                      && (ProducedSomething(workers, link)
                                                          ==> SomebodyAtWork(workers, link))
    ensures Recipients(workers, link) == [] <==> !SomebodyAtWork(workers, link)
  {
    EvidenceIs(workers, links, link);
    NobodyAtWork(workers, link);
    OutputIsSomething(workers, links, link);
    NothingBlocks(workers, links, link);
  }

  lemma {:induction false} NothingBlocks(workers: seq<Worker>, links: seq<Link>, link: Link)
    ensures Blocking(workers, links, link) == {}
            <==> Sound(workers, links, link)
                 && !(Recipients(workers, link) == [] && TeamOutput(workers, links, link) > 0)
  {
    var blocking := Blocking(workers, links, link);
    assert HasMissing(workers, TeamIds(link)) ==> LinkMemberMissing in blocking;
    assert HasOverlap(links, TeamIds(link)) ==> OverlappingLinks in blocking;
    assert !Consistent(Existing(workers, TeamIds(link))) ==> LinkedOutputConflict in blocking;
    assert Recipients(workers, link) == [] && TeamOutput(workers, links, link) > 0 ==> IsAbsent in blocking;
  }

  /** A worker in no link is held up exactly by a count that is not valid. */
  lemma {:induction false} OwnIssuesAre(w: Worker)
    ensures OwnShare(w).credited == if Counts(w.produced) then w.produced.value else 0
    ensures OwnShare(w).issues == if Counts(w.produced) then {} else {InvalidProduction}
    ensures OwnShare(w).linkId == None && OwnShare(w).partners == []
  {
  }

  /** Every team can be trusted and had somebody at work if it produced, and every other
      worker has a valid count. */
  ghost predicate GoodEvidence(workers: seq<Worker>, links: seq<Link>) {
    && (forall l :: l in links ==> Trusted(workers, links, l)
                                   && (ProducedSomething(workers, l) ==> SomebodyAtWork(workers, l)))
    && (forall w :: w in workers && !InALink(links, w.id) ==> Counts(w.produced))
  }

  lemma {:induction false} LinkHoldsUp(workers: seq<Worker>, links: seq<Link>, link: Link)
    ensures (exists x :: x in LinkIssues(workers, links, link) && x != OddLinkedBales)
            <==> !Trusted(workers, links, link)
                 || (ProducedSomething(workers, link) && !SomebodyAtWork(workers, link))
  {
    if link.workerIds == [] {
      NoTeam(workers, links, link);
    } else {
      TrustedBlocks(workers, links, link);
      forall x: Issue
        ensures x in LinkIssues(workers, links, link) <==> Raised(workers, links, link, x)
        ensures x in Blocking(workers, links, link) <==> x != OddLinkedBales && Raised(workers, links, link, x)
      {
        LinkIssuesAre(workers, links, link, x);
        BlockingAre(workers, links, link, x);
      }
      if Blocking(workers, links, link) != {} {
        var x :| x in Blocking(workers, links, link);
        assert x in LinkIssues(workers, links, link) && x != OddLinkedBales;
      }
    }
  }

  /** Nothing but an uneven split is warned of exactly when the evidence is good. */
  lemma {:induction false} CleanIffGood(workers: seq<Worker>, links: seq<Link>)
    ensures (forall x :: Warns(workers, links, x) ==> x == OddLinkedBales) <==> GoodEvidence(workers, links)
  {
    if GoodEvidence(workers, links) {
      forall x | Warns(workers, links, x)
        ensures x == OddLinkedBales
      {
        GoodWarnsNothing(workers, links, x);
      }
    }
    if forall x :: Warns(workers, links, x) ==> x == OddLinkedBales {
      forall l | l in links
        ensures Trusted(workers, links, l) && (ProducedSomething(workers, l) ==> SomebodyAtWork(workers, l))
      {
        LinkHoldsUp(workers, links, l);
        var i :| 0 <= i < |links| && links[i] == l;
        assert forall x :: x in LinkIssues(workers, links, links[i]) ==> Warns(workers, links, x);
      }
      forall w | w in workers && !InALink(links, w.id)
        ensures Counts(w.produced)
      {
        LinkedMeans(links, w.id);
        assert InvalidProduction in OwnShare(w).issues ==> Warns(workers, links, InvalidProduction);
      }
    }
  }

  lemma {:induction false} OverlapNotApart(links: seq<Link>, id: int)
    requires Overlaps(links, id)
    ensures exists link :: link in links && !Apart(links, link)
  {
    LinkedMeans(links, id);
    var i, j :| 0 <= i < j < |links| && id in links[i].workerIds && id in links[j].workerIds;
    assert links[i] in links && !Apart(links, links[i]);
  }

  lemma {:induction false} GoodWarnsNothing(workers: seq<Worker>, links: seq<Link>, x: Issue)
    requires GoodEvidence(workers, links) && Warns(workers, links, x)
    ensures x == OddLinkedBales
  {
    if LinkWarns(workers, links, links, x) {
      var i :| 0 <= i < |links| && x in LinkIssues(workers, links, links[i]);
      LinkHoldsUp(workers, links, links[i]);
    } else if OwnWarns(workers, links, x) {
      var w :| w in workers && !Linked(links, w.id) && x in OwnShare(w).issues;
      LinkedMeans(links, w.id);
    } else {
      var id :| Overlaps(links, id);
      OverlapNotApart(links, id);
    }
  }

  /** The k-th member at work, in the order of the numbers, is credited an even share of what
      the record says, and one bale more while the remainder lasts; nothing if the evidence
      cannot be trusted. */
  lemma {:induction false} MemberCredit(workers: seq<Worker>, links: seq<Link>, link: Link, k: nat)
    requires link in links && k < |Recipients(workers, link)|
    ensures var rs := Recipients(workers, link);
            && OnRecord(workers, rs[k]) && rs[k].id in link.workerIds && !rs[k].status.Absent?
            && Credit(workers, links)(rs[k])
               == if Trusted(workers, links, link)
                  then rs[k].produced.value / |rs| + if k < rs[k].produced.value % |rs| then 1 else 0
                  else 0
  {
    var rs := Recipients(workers, link);
    var w := rs[k];
    RecipientsAre(workers, link);
    assert w in rs;
    FoundIsOnRecord(workers, w);
    TeamOutputIs(workers, links, link, w);
    EvidenceIs(workers, links, link);
    LinkedCredit(workers, links, w, link);
    if Trusted(workers, links, link) { RecipientCredit(workers, links, link, k); }
  }

  /** A worker in one link is shown with that link: its number, the other members in
      ascending order, and its issues. */
  lemma {:induction false} ShareNamesLink(workers: seq<Worker>, links: seq<Link>, link: Link, w: Worker)
    requires link in links && w.id in link.workerIds && !InTwoLinks(links, w.id)
    ensures var share := ShareOf(workers, links, w);
            && share.linkId == Some(link.id) && share.issues == LinkIssues(workers, links, link)
            && (forall id :: id in share.partners <==> id in link.workerIds && id != w.id)
            && Rises(share.partners)
  {
    LinkedMeans(links, w.id);
    LastLinkIs(links, w.id);
    MentionCounts(links, link, w.id);
    OneTerm(Mentions(w.id), Mentions(w.id), links, link);
    assert Mentions(w.id)(LastLink(links, w.id).value) == 1;
    PartnersAre(link, w.id);
  }

  ghost predicate Rises(ids: seq<int>) { forall i, j :: 0 <= i < j < |ids| ==> ids[i] < ids[j] }

  lemma {:induction false} PartnersAre(link: Link, id: int)
    ensures var partners := Filter(Other(id), TeamIds(link));
            (forall x :: x in partners <==> x in link.workerIds && x != id) && Rises(partners)
  {
    TeamIdsAre(link);
    SortSorted(Lowest(), Dedup(link.workerIds));
    assert forall i, j :: 0 <= i < j < |TeamIds(link)| ==> Lowest()(TeamIds(link)[i], TeamIds(link)[j]);
    FilterRises(Other(id), TeamIds(link));
  }

  lemma {:induction false} FilterRises(p: int -> bool, s: seq<int>)
    requires Rises(s)
    ensures Rises(Filter(p, s))
  {
    if s != [] {
      FilterRises(p, s[1..]);
      var rest := Filter(p, s[1..]);
      forall i | 0 <= i < |rest|
        ensures s[0] < rest[i]
      {
        assert rest[i] in s[1..];
      }
      assert Filter(p, s) == (if p(s[0]) then [s[0]] else []) + rest;
    }
  }
}
