/** Each worker's totals over several days. */
module BonusSummary {
  import opened Standard
  import opened DoubleSums
  import opened Sorting
  import opened BonusCredit
  import opened BonusDay
  import opened BonusProperties
  import opened BonusRate

  datatype Summary = Summary(
    workerId: int, name: string, target: int, credited: int, extra: int, bonus: int, eligibleDays: int, reviewDays: int)

  function AllRows(days: seq<DayPreview>): seq<Preview> {
    if days == [] then [] else AllRows(days[..|days| - 1]) + days[|days| - 1].workers
  }

  function TargetOf(): Preview -> int { (p: Preview) => if p.target.Some? then p.target.value else 0 }
  function EligibleDay(): Preview -> int { (p: Preview) => if p.eligible then 1 else 0 }
  function ReviewDay(): Preview -> int { (p: Preview) => if p.review then 1 else 0 }

  /** A figure of the rows of one worker. */
  function Of(id: int, f: Preview -> int): Preview -> int { (p: Preview) => if p.workerId == id then f(p) else 0 }

  ghost predicate Adds(item: Summary, id: int, rows: seq<Preview>) {
    && item.workerId == id
    && item.target == SumBy(Of(id, TargetOf()), rows)
    && item.credited == SumBy(Of(id, CreditOf()), rows)
    && item.extra == SumBy(Of(id, ExtraOf()), rows)
    && item.bonus == SumBy(Of(id, BonusOf()), rows)
    && item.eligibleDays == SumBy(Of(id, EligibleDay()), rows)
    && item.reviewDays == SumBy(Of(id, ReviewDay()), rows)
  }

  ghost predicate HasRow(rows: seq<Preview>, id: int) {
    exists p :: p in rows && p.workerId == id
  }

  /** A line carries the name of the worker's first row. */
  ghost predicate FirstNamed(rows: seq<Preview>, id: int, name: string) {
    exists j :: 0 <= j < |rows| && IsFirstRow(rows, j, id) && rows[j].name == name
  }

  ghost predicate IsFirstRow(rows: seq<Preview>, j: nat, id: int)
    requires j < |rows|
  {
    rows[j].workerId == id && forall i :: 0 <= i < j ==> rows[i].workerId != id
  }

  lemma {:induction false} FirstNamedNext(rows: seq<Preview>, p: Preview, id: int, name: string)
    ensures FirstNamed(rows, id, name) ==> FirstNamed(rows + [p], id, name)
    ensures p.workerId == id && !HasRow(rows, id) ==> FirstNamed(rows + [p], id, p.name)
  {
    if FirstNamed(rows, id, name) {
      var j :| 0 <= j < |rows| && IsFirstRow(rows, j, id) && rows[j].name == name;
      assert IsFirstRow(rows + [p], j, id);
    }
    if p.workerId == id && !HasRow(rows, id) {
      assert forall i :: 0 <= i < |rows| ==> rows[i] in rows;
      assert IsFirstRow(rows + [p], |rows|, id);
    }
  }

  /** The map in insertion order. */
  datatype Book = Book(ids: seq<int>, items: map<int, Summary>)

  ghost predicate Summarizes(b: Book, rows: seq<Preview>) {
    && Distinct(b.ids)
    && (forall id :: id in b.ids <==> id in b.items)
    && (forall id :: id in b.ids <==> HasRow(rows, id))
    && (forall id :: id in b.items ==> Adds(b.items[id], id, rows))
    && (forall id :: id in b.items ==> FirstNamed(rows, id, b.items[id].name))
  }

  lemma {:induction false} OfNext(rows: seq<Preview>, p: Preview, id: int, f: Preview -> int)
    ensures SumBy(Of(id, f), rows + [p]) == SumBy(Of(id, f), rows) + if p.workerId == id then f(p) else 0
  {
    SumByAppend(Of(id, f), rows, [p]);
    SumByOne(Of(id, f), p);
  }

  lemma {:induction false} NoRowsNothing(rows: seq<Preview>, id: int, f: Preview -> int)
    requires !HasRow(rows, id)
    ensures SumBy(Of(id, f), rows) == 0
  {
    SumByZero(Of(id, f), rows);
  }

  lemma {:induction false} NothingYet(rows: seq<Preview>, id: int, name: string)
    requires !HasRow(rows, id)
    ensures Adds(Summary(id, name, 0, 0, 0, 0, 0, 0), id, rows)
  {
    NoRowsNothing(rows, id, TargetOf());
    NoRowsNothing(rows, id, CreditOf());
    NoRowsNothing(rows, id, ExtraOf());
    NoRowsNothing(rows, id, BonusOf());
    NoRowsNothing(rows, id, EligibleDay());
    NoRowsNothing(rows, id, ReviewDay());
  }

  lemma {:induction false} AddsNext(item: Summary, more: Summary, id: int, rows: seq<Preview>, p: Preview)
    requires Adds(item, id, rows)
    requires more == if p.workerId == id then AddRow(item, p) else item
    ensures Adds(more, id, rows + [p])
  {
    OfNext(rows, p, id, TargetOf());
    OfNext(rows, p, id, CreditOf());
    OfNext(rows, p, id, ExtraOf());
    OfNext(rows, p, id, BonusOf());
    OfNext(rows, p, id, EligibleDay());
    OfNext(rows, p, id, ReviewDay());
  }

  function AddRow(item: Summary, p: Preview): Summary {
    item.(target := item.target + if p.target.Some? then p.target.value else 0,
          credited := item.credited + p.credited,
          extra := item.extra + if p.eligible then p.extra else 0,
          bonus := item.bonus + p.bonus,
          eligibleDays := item.eligibleDays + if p.eligible then 1 else 0,
          reviewDays := item.reviewDays + if p.review then 1 else 0)
  }

  method EnterRow(b0: Book, p: Preview, ghost rows: seq<Preview>) returns (b: Book)
    requires Summarizes(b0, rows)
    ensures Summarizes(b, rows + [p])
  {
    var id := p.workerId;
    var item := if id in b0.items then b0.items[id] else Summary(id, p.name, 0, 0, 0, 0, 0, 0);
    if id !in b0.items { NothingYet(rows, id, p.name); }
    var items := b0.items[id := AddRow(item, p)];
    b := Book(if id in b0.items then b0.ids else b0.ids + [id], items);
    forall k | k in items
      ensures Adds(items[k], k, rows + [p])
    {
      AddsNext(if k == id then item else b0.items[k], items[k], k, rows, p);
    }
    forall k | k in items
      ensures FirstNamed(rows + [p], k, items[k].name)
    {
      FirstNamedNext(rows, p, k, items[k].name);
    }
    assert p in rows + [p] && forall q :: q in rows ==> q in rows + [p];
  }

  method EnterDay(b0: Book, day: seq<Preview>, ghost rows: seq<Preview>) returns (b: Book)
    requires Summarizes(b0, rows)
    ensures Summarizes(b, rows + day)
  {
    b := b0;
    var i := 0;
    assert rows + day[..0] == rows;
    while i < |day|
      invariant 0 <= i <= |day| && Summarizes(b, rows + day[..i])
    {
      PrefixNext(day, i);
      assert rows + day[..i + 1] == rows + day[..i] + [day[i]];
      b := EnterRow(b, day[i], rows + day[..i]);
      i := i + 1;
    }
    assert rows + day[..i] == rows + day;
  }

  /** One line for each worker with a row, holding the sums of his rows. */
  method SummarizeDays(days: seq<DayPreview>) returns (b: Book)
    ensures Summarizes(b, AllRows(days))
  {
    b := Book([], map[]);
    var i := 0;
    while i < |days|
      invariant 0 <= i <= |days| && Summarizes(b, AllRows(days[..i]))
    {
      assert days[..i + 1][..i] == days[..i];
      b := EnterDay(b, days[i].workers, AllRows(days[..i]));
      i := i + 1;
    }
    assert days[..i] == days;
  }

  // ---- The lines add up to the days ---------------------------------------------------------

  function BonusOn(): (int, Preview) -> int { (id: int, p: Preview) => Of(id, BonusOf())(p) }

  function Line(b: Book): int -> int { (id: int) => if id in b.items then b.items[id].bonus else 0 }

  function DayBonus(): DayPreview -> int { (day: DayPreview) => day.bonus }

  lemma {:induction false} RowsOfDays(days: seq<DayPreview>)
    requires forall i :: 0 <= i < |days| ==> days[i].bonus == SumBy(BonusOf(), days[i].workers)
    ensures SumBy(BonusOf(), AllRows(days)) == SumBy(DayBonus(), days)
  {
    if days != [] {
      var n := |days| - 1;
      RowsOfDays(days[..n]);
      SumByAppend(BonusOf(), AllRows(days[..n]), days[n].workers);
      assert days == days[..n] + [days[n]];
      SumByAppend(DayBonus(), days[..n], [days[n]]);
      SumByOne(DayBonus(), days[n]);
    }
  }

  function IsId(id: int): int -> int { (x: int) => if x == id then 1 else 0 }

  /** What the workers are proposed comes to what the days are: to the cent. */
  lemma {:induction false} LinesAddUpToDays(b: Book, days: seq<DayPreview>)
    requires Summarizes(b, AllRows(days))
    requires forall i :: 0 <= i < |days| ==> days[i].bonus == SumBy(BonusOf(), days[i].workers)
    ensures SumBy(Line(b), b.ids) == SumBy(DayBonus(), days)
  {
    var rows := AllRows(days);
    forall id | id in b.ids
      ensures Line(b)(id) == RowSums(BonusOn(), rows)(id)
    {
      SumBySame(Row(BonusOn(), id), Of(id, BonusOf()), rows);
    }
    SumBySame(Line(b), RowSums(BonusOn(), rows), b.ids);
    SwapSums(BonusOn(), b.ids, rows);
    forall p | p in rows
      ensures ColumnSums(BonusOn(), b.ids)(p) == BonusOf()(p)
    {
      assert HasRow(rows, p.workerId);
      CountedOnce(IsId(p.workerId), b.ids, p.workerId);
      OneTerm(Column(BonusOn(), p), IsId(p.workerId), b.ids, p.workerId);
    }
    SumBySame(ColumnSums(BonusOn(), b.ids), BonusOf(), rows);
    RowsOfDays(days);
  }

  // ---- Order ----------------------------------------------------------------------------------

  ghost predicate SameRows(days: seq<DayPreview>, days2: seq<DayPreview>, f: Preview -> int) {
    |days| == |days2| && forall i :: 0 <= i < |days| ==> SumBy(f, days[i].workers) == SumBy(f, days2[i].workers)
  }

  lemma {:induction false} SumOverDays(days: seq<DayPreview>, days2: seq<DayPreview>, f: Preview -> int)
    requires SameRows(days, days2, f)
    ensures SumBy(f, AllRows(days)) == SumBy(f, AllRows(days2))
  {
    if days != [] {
      var n := |days| - 1;
      SumOverDays(days[..n], days2[..n], f);
      SumByAppend(f, AllRows(days[..n]), days[n].workers);
      SumByAppend(f, AllRows(days2[..n]), days2[n].workers);
    }
  }

  ghost predicate SameInputs(days: seq<DayInput>, days2: seq<DayInput>, versions: seq<Rate>, versions2: seq<Rate>) {
    |days| == |days2| && forall i :: 0 <= i < |days| ==> SameDay(days[i], versions, days2[i], versions2)
  }

  ghost predicate Calculated(r: seq<DayPreview>, days: seq<DayInput>, versions: seq<Rate>,
                             le: (string, string) -> bool) {
    |r| == |days| && forall i :: 0 <= i < |days| ==> r[i].workers == RowsOf(days[i], versions, le)
  }

  lemma {:induction false} SameDaysSameSum(r: seq<DayPreview>, days: seq<DayInput>, versions: seq<Rate>,
                                           r2: seq<DayPreview>, days2: seq<DayInput>, versions2: seq<Rate>,
                                           le: (string, string) -> bool, f: Preview -> int)
    requires SameInputs(days, days2, versions, versions2) && IsFigure(f)
    requires Calculated(r, days, versions, le) && Calculated(r2, days2, versions2, le)
    ensures SumBy(f, AllRows(r)) == SumBy(f, AllRows(r2))
  {
    forall i | 0 <= i < |r|
      ensures SumBy(f, r[i].workers) == SumBy(f, r2[i].workers)
    {
      DaySumIgnoresOrder(days[i], versions, days2[i], versions2, le, f);
    }
    SumOverDays(r, r2, f);
  }

  /** A worker's line is the same however workers, links and rates were listed. */
  lemma {:induction false} LineIgnoresOrder(r: seq<DayPreview>, days: seq<DayInput>, versions: seq<Rate>,
                                            r2: seq<DayPreview>, days2: seq<DayInput>, versions2: seq<Rate>,
                                            le: (string, string) -> bool, item: Summary, item2: Summary, id: int)
    requires SameInputs(days, days2, versions, versions2)
    requires Calculated(r, days, versions, le) && Calculated(r2, days2, versions2, le)
    requires Adds(item, id, AllRows(r)) && Adds(item2, id, AllRows(r2))
    ensures item2 == item.(name := item2.name)
  {
    forall f | IsFigure(f)
      ensures SumBy(f, AllRows(r)) == SumBy(f, AllRows(r2))
    {
      SameDaysSameSum(r, days, versions, r2, days2, versions2, le, f);
    }
    LineFromFigures(AllRows(r), AllRows(r2), item, item2, id);
  }

  ghost predicate SameFigureSums(rows: seq<Preview>, rows2: seq<Preview>) {
    forall f :: IsFigure(f) ==> SumBy(f, rows) == SumBy(f, rows2)
  }

  lemma {:induction false} LineFromFigures(rows: seq<Preview>, rows2: seq<Preview>, item: Summary, item2: Summary,
                                           id: int)
    requires SameFigureSums(rows, rows2) && Adds(item, id, rows) && Adds(item2, id, rows2)
    ensures item2 == item.(name := item2.name)
  {
    assert IsFigure(Of(id, TargetOf()));
    assert IsFigure(Of(id, CreditOf()));
    assert IsFigure(Of(id, ExtraOf()));
    assert IsFigure(Of(id, BonusOf()));
    assert IsFigure(Of(id, EligibleDay()));
    assert IsFigure(Of(id, ReviewDay()));
  }
}
