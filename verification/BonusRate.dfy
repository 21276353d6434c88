/** Which dated rate version applies to a worker on a day. */
module BonusRate {
  import opened Standard
  import opened Sorting

  datatype Scope = OfCompany | OfWorker

  /** Dates are day numbers; the rate is in cents for each extra bale. */
  datatype Rate = Rate(id: int, scope: Scope, workerId: Option<int>, effectiveFrom: int, enabled: bool, perBale: real)

  function Eligible(workerId: int, date: int): Rate -> bool {
    (v: Rate) => v.effectiveFrom <= date && (v.scope.OfCompany? || (v.scope.OfWorker? && v.workerId == Some(workerId)))
  }

  function InScope(scope: Scope): Rate -> bool { (v: Rate) => v.scope == scope }

  function NewestFirst(): (Rate, Rate) -> bool {
    (a: Rate, b: Rate) => a.effectiveFrom > b.effectiveFrom || (a.effectiveFrom == b.effectiveFrom && a.id >= b.id)
  }

  function First<T>(s: seq<T>): Option<T> { if s == [] then None else Some(s[0]) }

  function NewestOf(versions: seq<Rate>, scope: Scope): Option<Rate> {
    First(Sort(NewestFirst(), Filter(InScope(scope), versions)))
  }

  function ResolveRate(workerId: int, date: int, versions: seq<Rate>): Option<Rate> {
    var eligible := Filter(Eligible(workerId, date), versions);
    var own := NewestOf(eligible, OfWorker);
    if own.Some? then own else NewestOf(eligible, OfCompany)
  }

  /** A worker's own setting beats the company's, then the later date, then the
      later version. */
  predicate Outranks(a: Rate, b: Rate) {
    || (a.scope.OfWorker? && b.scope.OfCompany?)
    || (a.scope == b.scope && a.effectiveFrom > b.effectiveFrom)
    || (a.scope == b.scope && a.effectiveFrom == b.effectiveFrom && a.id >= b.id)
  }

  /** The version is in force on the day, for the company or for the worker himself. */
  predicate InForce(v: Rate, workerId: int, date: int) {
    v.effectiveFrom <= date && (v.scope.OfWorker? ==> v.workerId == Some(workerId))
  }

  lemma {:induction false} NewestIs(versions: seq<Rate>, scope: Scope)
    ensures NewestOf(versions, scope).None? <==> forall v :: v in versions ==> v.scope != scope
    ensures NewestOf(versions, scope).Some? ==>
              var v := NewestOf(versions, scope).value;
              v in versions && v.scope == scope && forall u :: u in versions && u.scope == scope ==> NewestFirst()(v, u)
  {
    var mine := Filter(InScope(scope), versions);
    var sorted := Sort(NewestFirst(), mine);
    SortPermutes(NewestFirst(), mine);
    SortSorted(NewestFirst(), mine);
    if sorted != [] {
      assert sorted[0] in sorted;
      forall u | u in versions && u.scope == scope
        ensures NewestFirst()(sorted[0], u)
      {
        assert u in sorted;
        var i :| 0 <= i < |sorted| && sorted[i] == u;
      }
    }
    assert forall v :: v in versions && v.scope == scope ==> v in sorted;
  }

  /** The rate found is eligible and outranks every other eligible one; there is
      none only when nothing is eligible. */
  lemma {:induction false} ResolvedOutranksAll(workerId: int, date: int, versions: seq<Rate>)
    ensures var r := ResolveRate(workerId, date, versions);
            && (r.None? <==> forall v :: v in versions ==> !InForce(v, workerId, date))
            && (r.Some? ==> r.value in versions && InForce(r.value, workerId, date))
            && (r.Some? ==> forall u :: u in versions && InForce(u, workerId, date) ==> Outranks(r.value, u))
  {
    var eligible := Filter(Eligible(workerId, date), versions);
    NewestIs(eligible, OfWorker);
    NewestIs(eligible, OfCompany);
    forall v | v in versions && Eligible(workerId, date)(v)
      ensures v in eligible && (v.scope == OfWorker || v.scope == OfCompany)
    {
    }
  }

  ghost predicate UniqueVersions(versions: seq<Rate>) {
    forall u, v :: u in versions && v in versions && u.id == v.id ==> u == v
  }

  lemma {:induction false} RateIgnoresOrder(workerId: int, date: int, versions: seq<Rate>, versions2: seq<Rate>)
    requires multiset(versions) == multiset(versions2) && UniqueVersions(versions)
    ensures ResolveRate(workerId, date, versions) == ResolveRate(workerId, date, versions2)
  {
    SameMembers(versions, versions2);
    ResolvedOutranksAll(workerId, date, versions);
    ResolvedOutranksAll(workerId, date, versions2);
  }
}
