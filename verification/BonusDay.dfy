/** The bonus proposal for one day, and the sums over several days. */
module BonusDay {
  import opened Standard
  import opened DoubleSums
  import opened Rounding
  import opened Sorting
  import opened BonusCredit
  import opened BonusProperties
  import opened BonusEvidence
  import opened BonusRate

  datatype DayInput = DayInput(date: int, finalized: bool, workers: seq<Worker>, links: seq<Link>)

  /** The bonus is in cents. */
  datatype Preview = Preview(
    workerId: int, name: string, linkId: Option<int>, partners: seq<int>, target: Option<int>,
    credited: int, extra: int,
    rate: Option<Rate>, bonus: int, eligible: bool, review: bool, issues: set<Issue>)

  datatype DayPreview = DayPreview(
    payoutReady: bool, totalProduced: int, extra: int, bonus: int, workers: seq<Preview>, warnings: set<Issue>)

  predicate HasTarget(w: Worker) { ValidBales(w.target) && w.target.value > 0 }

  function IssuesOf(share: Share, w: Worker, rate: Option<Rate>, finalized: bool): set<Issue> {
    share.issues
    + (if finalized then {} else {NotFinalized})
    + (if HasTarget(w) then {} else {NoTarget})
    + (if w.status.Absent? then {IsAbsent} else {})
    + (if rate.None? || !rate.value.enabled then {RateDisabled} else if rate.value.perBale > 0.0 then {} else {NoRate})
  }

  predicate Blocked(issues: set<Issue>) { exists x :: x in issues && x != OddLinkedBales }

  function PreviewFor(share: Share, w: Worker, rate: Option<Rate>, finalized: bool): Preview {
    var issues := IssuesOf(share, w, rate, finalized);
    var extra := if HasTarget(w) then Max(0, share.credited - w.target.value) else 0;
    var blocking := Blocked(issues);
    var bonus := if blocking || rate.None? then 0 else Round(Times(extra, rate.value.perBale));
    Preview(w.id, w.name, share.linkId, share.partners, w.target, share.credited, extra, rate, bonus,
            !blocking && extra > 0, OddLinkedBales in issues, issues)
  }

  /** The share kept under the worker's id, which is his own where ids are unique. */
  function ShareFor(day: DayInput, w: Worker): Share {
    var kept := Find(day.workers, w.id);
    ShareOf(day.workers, day.links, if kept.Some? then kept.value else w)
  }

  function PreviewOf(day: DayInput, versions: seq<Rate>): Worker -> Preview {
    (w: Worker) => PreviewFor(ShareFor(day, w), w, ResolveRate(w.id, day.date, versions), day.finalized)
  }

  function CreditOf(): Preview -> int { (p: Preview) => p.credited }
  function ExtraOf(): Preview -> int { (p: Preview) => if p.eligible then p.extra else 0 }
  function BonusOf(): Preview -> int { (p: Preview) => p.bonus }

  function ByName(le: (string, string) -> bool): (Preview, Preview) -> bool {
    (a: Preview, b: Preview) => le(a.name, b.name) && (le(b.name, a.name) ==> a.workerId <= b.workerId)
  }

  function RowsOf(day: DayInput, versions: seq<Rate>, le: (string, string) -> bool): seq<Preview> {
    Sort(ByName(le), Map(PreviewOf(day, versions), day.workers))
  }

  ghost predicate DayWarns(day: DayInput, x: Issue) {
    || Warns(day.workers, day.links, x)
    || (x == NotFinalized && !day.finalized)
    || (x == EmptyFinalizedDay && day.finalized && day.workers == [])
  }

  /** Payment may go ahead: only an uneven split asks for a look. */
  ghost predicate Ready(day: DayInput) {
    day.finalized && forall x :: DayWarns(day, x) ==> x == OddLinkedBales
  }

  ghost predicate SharesFor(day: DayInput, shares: map<int, Share>) {
    && (forall id :: id in shares <==> Find(day.workers, id).Some?)
    && (forall id :: id in shares ==> shares[id] == ShareOf(day.workers, day.links, Find(day.workers, id).value))
  }

  method PreviewWorker(day: DayInput, versions: seq<Rate>, shares: map<int, Share>, w: Worker) returns (p: Preview)
    requires SharesFor(day, shares) && w in day.workers
    ensures p == PreviewOf(day, versions)(w)
  {
    FoundIsMember(day.workers, w.id);
    p := PreviewFor(shares[w.id], w, ResolveRate(w.id, day.date, versions), day.finalized);
  }

  method PreviewWorkers(day: DayInput, versions: seq<Rate>, shares: map<int, Share>) returns (rows: seq<Preview>)
    requires SharesFor(day, shares)
    ensures rows == Map(PreviewOf(day, versions), day.workers)
  {
    rows := [];
    var i := 0;
    while i < |day.workers|
      invariant 0 <= i <= |day.workers| && rows == Map(PreviewOf(day, versions), day.workers[..i])
    {
      PrefixNext(day.workers, i);
      MapNext(PreviewOf(day, versions), day.workers[..i], day.workers[i]);
      var p := PreviewWorker(day, versions, shares, day.workers[i]);
      rows := rows + [p];
      i := i + 1;
    }
    assert day.workers[..i] == day.workers;
  }

  /** A day is ready exactly when it is finalized, has records, and their evidence is good. */
  lemma {:induction false} ReadyIff(day: DayInput)
    ensures Ready(day) <==> day.finalized && day.workers != [] && GoodEvidence(day.workers, day.links)
  {
    CleanIffGood(day.workers, day.links);
    assert Ready(day) && day.workers == [] ==> !DayWarns(day, EmptyFinalizedDay);
    forall x | Warns(day.workers, day.links, x)
      ensures DayWarns(day, x)
    {
    }
  }

  method CalculateDay(day: DayInput, versions: seq<Rate>, le: (string, string) -> bool) returns (r: DayPreview)
    ensures r.workers == RowsOf(day, versions, le)
    ensures r.totalProduced == TotalProduced(day.workers, day.links)
    ensures r.extra == SumBy(ExtraOf(), r.workers) && r.bonus == SumBy(BonusOf(), r.workers)
    ensures forall x :: x in r.warnings <==> DayWarns(day, x)
    ensures r.payoutReady <==> Ready(day)
    ensures r.totalProduced
            == SumBy(OnceATeam(day.workers, day.links), day.links) + SumBy(OnTheirOwn(day.links), day.workers)
    ensures r.payoutReady <==> day.finalized && day.workers != [] && GoodEvidence(day.workers, day.links)
    ensures r.payoutReady && UniqueWorkers(day.workers) ==> SumBy(CreditOf(), r.workers) == r.totalProduced
  {
    var shares, produced, grouped := GroupBales(day.workers, day.links);
    var previews := PreviewWorkers(day, versions, shares);
    var warnings := grouped + (if day.finalized then {} else {NotFinalized})
                    + (if day.finalized && |day.workers| == 0 then {EmptyFinalizedDay} else {});
    var ready := day.finalized && !Blocked(warnings);
    var rows := Sort(ByName(le), previews);
    SortPermutes(ByName(le), previews);
    SumByPermutation(ExtraOf(), previews, rows);
    SumByPermutation(BonusOf(), previews, rows);
    r := DayPreview(ready, produced, SumBy(ExtraOf(), previews), SumBy(BonusOf(), previews), rows, warnings);
    TotalIsRecorded(day.workers, day.links);
    ReadyIff(day);
    if ready && UniqueWorkers(day.workers) { ReadyRowsConserve(day, versions, le); }
  }

  lemma {:induction false} RowSum(day: DayInput, versions: seq<Rate>, le: (string, string) -> bool,
                                  f: Preview -> int, h: Worker -> int)
    requires forall w :: w in day.workers ==> h(w) == f(PreviewOf(day, versions)(w))
    ensures SumBy(f, RowsOf(day, versions, le)) == SumBy(h, day.workers)
  {
    var previews := Map(PreviewOf(day, versions), day.workers);
    SortPermutes(ByName(le), previews);
    SumByPermutation(f, RowsOf(day, versions, le), previews);
    SumByMapped(PreviewOf(day, versions), f, h, day.workers);
  }

  lemma {:induction false} ReadyRowsConserve(day: DayInput, versions: seq<Rate>, le: (string, string) -> bool)
    requires UniqueWorkers(day.workers) && Ready(day)
    ensures SumBy(CreditOf(), RowsOf(day, versions, le)) == TotalProduced(day.workers, day.links)
  {
    forall w | w in day.workers
      ensures Credit(day.workers, day.links)(w) == CreditOf()(PreviewOf(day, versions)(w))
    {
      FindUnique(day.workers, w);
    }
    RowSum(day, versions, le, CreditOf(), Credit(day.workers, day.links));
    forall x | Warns(day.workers, day.links, x)
      ensures x == OddLinkedBales
    {
      assert DayWarns(day, x);
    }
    ReadyDayConserves(day.workers, day.links);
  }

  // ---- What a bonus means -------------------------------------------------------------------

  /** Money is proposed only to a worker who was there on a finalized day, with an
      enabled rate, for credited bales beyond a real target, and with nothing else wrong. */
  lemma {:induction false} BonusIsEarned(day: DayInput, versions: seq<Rate>, w: Worker)
    ensures var p := PreviewOf(day, versions)(w);
            && p.bonus >= 0 && p.extra >= 0
            && (p.bonus > 0 ==> p.eligible)
            && (p.eligible <==>
                && day.finalized && !w.status.Absent? && HasTarget(w) && p.credited > w.target.value
                && p.rate.Some? && p.rate.value.enabled && p.rate.value.perBale > 0.0
                && !Blocked(ShareFor(day, w).issues))
            && (p.eligible ==> p.bonus == Round(Times(p.credited - w.target.value, p.rate.value.perBale)))
  {
    var share := ShareFor(day, w);
    var rate := ResolveRate(w.id, day.date, versions);
    BlockedParts(share, w, rate, day.finalized);
    var extra := PreviewOf(day, versions)(w).extra;
    if rate.Some? && !Blocked(IssuesOf(share, w, rate, day.finalized)) {
      TimesOrder(0, extra, rate.value.perBale);
      RoundMonotone(0.0, Times(extra, rate.value.perBale));
      RoundWhole(0);
    }
  }

  /** What a row says of its worker: his share, the rate that applies and what is beyond a
      target there is. */
  lemma {:induction false} RowIs(day: DayInput, versions: seq<Rate>, w: Worker)
    requires UniqueWorkers(day.workers) && w in day.workers
    ensures var (p, share) := (PreviewOf(day, versions)(w), ShareOf(day.workers, day.links, w));
            && p.workerId == w.id && p.name == w.name && p.target == w.target
            && p.credited == share.credited && p.linkId == share.linkId && p.partners == share.partners
            && p.rate == ResolveRate(w.id, day.date, versions)
            && (Counts(w.target) ==> p.extra == if w.target.value == 0 then 0 else Max(0, p.credited - w.target.value))
            && (!Counts(w.target) ==> p.extra == 0)
  {
    FindUnique(day.workers, w);
  }

  lemma {:induction false} RowIssuesAre(day: DayInput, versions: seq<Rate>, w: Worker, x: Issue)
    requires UniqueWorkers(day.workers) && w in day.workers
    ensures var (p, share) := (PreviewOf(day, versions)(w), ShareOf(day.workers, day.links, w));
            && (x in p.issues <==> x in share.issues || RowRaises(w, p.rate, day.finalized, x))
            && (p.review <==> OddLinkedBales in share.issues)
  {
    FindUnique(day.workers, w);
    var share, rate := ShareOf(day.workers, day.links, w), ResolveRate(w.id, day.date, versions);
    IssuesRaised(share, w, rate, day.finalized, x);
    IssuesRaised(share, w, rate, day.finalized, OddLinkedBales);
  }

  lemma {:induction false} IssuesRaised(share: Share, w: Worker, rate: Option<Rate>, finalized: bool, x: Issue)
    ensures x in IssuesOf(share, w, rate, finalized) <==> x in share.issues || RowRaises(w, rate, finalized, x)
  {
  }

  /** The issues a row adds to those of the share, each with its reason. */
  ghost predicate RowRaises(w: Worker, rate: Option<Rate>, finalized: bool, x: Issue) {
    match x
    case NotFinalized => !finalized
    case NoTarget => !Counts(w.target) || w.target.value == 0
    case IsAbsent => w.status.Absent?
    case RateDisabled => rate.None? || !rate.value.enabled
    case NoRate => rate.Some? && rate.value.enabled && rate.value.perBale <= 0.0
    case _ => false
  }

  /** One row a worker, in the order of the names, the lower number deciding between equal names. */
  lemma {:induction false} RowsInOrder(day: DayInput, versions: seq<Rate>, le: (string, string) -> bool)
    requires TotalPreorder(le)
    ensures var rows := RowsOf(day, versions, le);
            && multiset(rows) == multiset(Map(PreviewOf(day, versions), day.workers))
            && forall i, j :: 0 <= i < j < |rows| ==>
                 le(rows[i].name, rows[j].name)
                 && (le(rows[j].name, rows[i].name) ==> rows[i].workerId <= rows[j].workerId)
  {
    var previews := Map(PreviewOf(day, versions), day.workers);
    var rows := RowsOf(day, versions, le);
    SortPermutes(ByName(le), previews);
    ByNameIsTotal(le);
    SortSorted(ByName(le), previews);
    forall i, j | 0 <= i < j < |rows|
      ensures le(rows[i].name, rows[j].name)
      ensures le(rows[j].name, rows[i].name) ==> rows[i].workerId <= rows[j].workerId
    {
      assert ByName(le)(rows[i], rows[j]);
    }
  }

  lemma {:induction false} ByNameIsTotal(le: (string, string) -> bool)
    requires TotalPreorder(le)
    ensures TotalPreorder(ByName(le))
  {
    var order := ByName(le);
    forall x, y
      ensures order(x, y) || order(y, x)
    {
      assert le(x.name, y.name) || le(y.name, x.name);
    }
    forall x, y, z | order(x, y) && order(y, z)
      ensures order(x, z)
    {
      assert le(x.name, y.name) && le(y.name, z.name);
      assert le(z.name, x.name) ==> le(z.name, y.name) && le(y.name, x.name);
    }
  }

  lemma {:induction false} BlockedParts(share: Share, w: Worker, rate: Option<Rate>, finalized: bool)
    ensures Blocked(IssuesOf(share, w, rate, finalized)) <==>
            || Blocked(share.issues) || !finalized || !HasTarget(w) || w.status.Absent?
            || rate.None? || !rate.value.enabled || rate.value.perBale <= 0.0
  {
    var issues := IssuesOf(share, w, rate, finalized);
    if Blocked(share.issues) {
      var x :| x in share.issues && x != OddLinkedBales;
      assert x in issues;
    }
    assert !finalized ==> NotFinalized in issues;
    assert !HasTarget(w) ==> NoTarget in issues;
    assert w.status.Absent? ==> IsAbsent in issues;
    assert (rate.None? || !rate.value.enabled) ==> RateDisabled in issues;
    assert rate.Some? && rate.value.enabled && rate.value.perBale <= 0.0 ==> NoRate in issues;
  }

  // ---- Order of the records --------------------------------------------------------------------

  ghost predicate SameDay(day: DayInput, versions: seq<Rate>, day2: DayInput, versions2: seq<Rate>) {
    && day.date == day2.date && day.finalized == day2.finalized
    && Rearranged(day.workers, day.links, day2.workers, day2.links)
    && multiset(versions) == multiset(versions2) && UniqueVersions(versions)
  }

  /** All the figures of a row; the team it names may differ only under overlapping links. */
  ghost predicate SameFigures(p: Preview, q: Preview) {
    && p.workerId == q.workerId && p.name == q.name && p.target == q.target && p.credited == q.credited
    && p.extra == q.extra && p.rate == q.rate && p.bonus == q.bonus && p.eligible == q.eligible && p.review == q.review
  }

  lemma {:induction false} PreviewIgnoresOrder(day: DayInput, versions: seq<Rate>, day2: DayInput,
                                               versions2: seq<Rate>, w: Worker)
    requires SameDay(day, versions, day2, versions2)
    ensures SameFigures(PreviewOf(day, versions)(w), PreviewOf(day2, versions2)(w))
  {
    SharesAlike(day, day2, w);
    RateIgnoresOrder(w.id, day.date, versions, versions2);
    RowsAlike(ShareFor(day, w), ShareFor(day2, w), w, ResolveRate(w.id, day.date, versions), day.finalized);
  }

  lemma {:induction false} SharesAlike(day: DayInput, day2: DayInput, w: Worker)
    requires Rearranged(day.workers, day.links, day2.workers, day2.links)
    ensures Alike(ShareFor(day, w), ShareFor(day2, w))
  {
    RearrangedFacts(day.workers, day.links, day2.workers, day2.links);
    var kept := Find(day.workers, w.id);
    ShareIgnoresOrder(day.workers, day.links, day2.workers, day2.links, if kept.Some? then kept.value else w);
  }

  ghost predicate Alike(share: Share, share2: Share) {
    share == share2 || (share.credited == share2.credited && HeldUp(share.issues) && HeldUp(share2.issues))
  }

  lemma {:induction false} RowsAlike(share: Share, share2: Share, w: Worker, rate: Option<Rate>, finalized: bool)
    requires Alike(share, share2)
    ensures SameFigures(PreviewFor(share, w, rate, finalized), PreviewFor(share2, w, rate, finalized))
  {
    if share != share2 {
      HeldUpRow(share, w, rate, finalized);
      HeldUpRow(share2, w, rate, finalized);
    }
  }

  lemma {:induction false} HeldUpRow(share: Share, w: Worker, rate: Option<Rate>, finalized: bool)
    requires HeldUp(share.issues)
    ensures var p := PreviewFor(share, w, rate, finalized); p.bonus == 0 && !p.eligible && !p.review
  {
    assert OverlappingLinks in IssuesOf(share, w, rate, finalized);
  }

  /** A figure of a row, such as its bales or its bonus. */
  ghost predicate IsFigure(f: Preview -> int) {
    forall p, q :: SameFigures(p, q) ==> f(p) == f(q)
  }

  /** No sum over a day depends on the order of its records. */
  lemma {:induction false} DaySumIgnoresOrder(day: DayInput, versions: seq<Rate>, day2: DayInput, versions2: seq<Rate>,
                                              le: (string, string) -> bool, f: Preview -> int)
    requires SameDay(day, versions, day2, versions2) && IsFigure(f)
    ensures SumBy(f, RowsOf(day, versions, le)) == SumBy(f, RowsOf(day2, versions2, le))
  {
    var h := (w: Worker) => f(PreviewOf(day, versions)(w));
    RowSum(day, versions, le, f, h);
    forall w
      ensures h(w) == f(PreviewOf(day2, versions2)(w))
    {
      PreviewIgnoresOrder(day, versions, day2, versions2, w);
    }
    RowSum(day2, versions2, le, f, h);
    SumByPermutation(h, day.workers, day2.workers);
  }

  lemma {:induction false} ReadinessIgnoresOrder(day: DayInput, versions: seq<Rate>, day2: DayInput,
                                                 versions2: seq<Rate>)
    requires SameDay(day, versions, day2, versions2) && SameDay(day2, versions2, day, versions)
    ensures Ready(day) <==> Ready(day2)
  {
    assert |day.workers| == |multiset(day.workers)| == |day2.workers|;
    forall x
      ensures DayWarns(day, x) <==> DayWarns(day2, x)
    {
      if Warns(day.workers, day.links, x) { WarningsIgnoreOrder(day.workers, day.links, day2.workers, day2.links, x); }
      if Warns(day2.workers, day2.links, x) {
        WarningsIgnoreOrder(day2.workers, day2.links, day.workers, day.links, x);
      }
    }
  }
}
