/** `get_service_metrics`: per service, the number of documents over its hourly buckets,
    and the grand total over all services. */
module AnalyzeMetrics {
  import opened PyBase
  import opened PyDict

  /** A row of `SELECT id, name FROM services`. */
  datatype ServiceRow = ServiceRow(id: int, name: string)

  /** The tuple appended per service: its buckets, their number, name, id and total. */
  datatype ServiceMetrics = ServiceMetrics(buckets: seq<Entries<Json>>, length: nat, name: string, id: int, total: int)

  /** `record["doc_count"]` as `total +=` adds it: an integer, or a JSON boolean as 1 or 0;
      a missing field is a KeyError, a null, string, list or object a TypeError. Totals
      stay integers here, so a float count is a TypeError too. */
  function DocCount(record: Entries<Json>): (r: Result<int, Exception>)
    ensures r == Err(KeyError("doc_count")) <==> !HasKey(record, "doc_count")
    ensures r.Err? && HasKey(record, "doc_count") ==> r.error == TypeError
    ensures r.Ok? <==> Lookup(record, "doc_count").Some? && (Lookup(record, "doc_count").value.Int? || Lookup(record, "doc_count").value.Bool?)
    ensures forall n :: Lookup(record, "doc_count") == Some(Int(n)) ==> r == Ok(n)
    ensures Lookup(record, "doc_count") == Some(Bool(true)) ==> r == Ok(1)
    ensures Lookup(record, "doc_count") == Some(Bool(false)) ==> r == Ok(0)
  {
    match Lookup(record, "doc_count")
    case None => Err(KeyError("doc_count"))
    case Some(v) =>
      if v.Int? then Ok(v.i)
      else if v.Bool? then Ok(if v.b then 1 else 0)
      else Err(TypeError)
  }

  /** The doc counts of the buckets in order, or the first failing bucket's exception. */
  function DocCounts(buckets: seq<Entries<Json>>): (r: Result<seq<int>, Exception>)
    ensures r.Ok? ==> |r.value| == |buckets|
    ensures r.Ok? <==> forall i :: 0 <= i < |buckets| ==> DocCount(buckets[i]).Ok?
    ensures r.Ok? ==> forall i :: 0 <= i < |buckets| ==> r.value[i] == DocCount(buckets[i]).value
  {
    if |buckets| == 0 then Ok([])
    else match DocCounts(buckets[..|buckets| - 1])
      case Err(e) => Err(e)
      case Ok(init) =>
        match DocCount(buckets[|buckets| - 1])
        case Err(e) => Err(e)
        case Ok(c) =>
          assert forall i :: 0 <= i < |buckets| - 1 ==> buckets[..|buckets| - 1][i] == buckets[i];
          Ok(init + [c])
  }

  lemma {:induction false} DocCountsStop(buckets: seq<Entries<Json>>, i: nat)
    requires i <= |buckets| && DocCounts(buckets[..i]).Err?
    ensures DocCounts(buckets) == DocCounts(buckets[..i])
    decreases |buckets|
  {
    if i < |buckets| {
      var init := buckets[..|buckets| - 1];
      assert init[..i] == buckets[..i];
      DocCountsStop(init, i);
    } else {
      assert buckets[..i] == buckets;
    }
  }

  /** The `total +=` loop over one service's buckets. */
  method ServiceTotal(buckets: seq<Entries<Json>>) returns (r: Result<int, Exception>)
    ensures DocCounts(buckets).Ok? ==> r == Ok(Sum(DocCounts(buckets).value))
    ensures DocCounts(buckets).Err? ==> r == Err(DocCounts(buckets).error)
  {
    var total := 0;
    for i := 0 to |buckets|
      invariant DocCounts(buckets[..i]).Ok? && total == Sum(DocCounts(buckets[..i]).value)
    {
      assert buckets[..i + 1][..i] == buckets[..i];
      var c := DocCount(buckets[i]);
      if c.Err? {
        DocCountsStop(buckets, i + 1);
        return Err(c.error);
      }
      assert DocCounts(buckets[..i + 1]).value == DocCounts(buckets[..i]).value + [c.value];
      total := total + c.value;
    }
    assert buckets[..|buckets|] == buckets;
    return Ok(total);
  }

  /** The per-service totals. */
  function Totals(ms: seq<ServiceMetrics>): seq<int>
  {
    seq(|ms|, i requires 0 <= i < |ms| => ms[i].total)
  }

  /** All doc counts of a list of bucket lists, service by service. */
  function AllCounts(counts: seq<seq<int>>): seq<int>
  {
    if |counts| == 0 then [] else AllCounts(counts[..|counts| - 1]) + counts[|counts| - 1]
  }

  /** The tuple of a service whose search and doc counts succeed. */
  function MetricsOf(s: ServiceRow, buckets: seq<Entries<Json>>): ServiceMetrics
    requires DocCounts(buckets).Ok?
  {
    ServiceMetrics(buckets, |buckets|, s.name, s.id, Sum(DocCounts(buckets).value))
  }

  /** The tuples of the first services, each from a search and doc counts that succeed. */
  predicate Gathered(services: seq<ServiceRow>, search: int -> Result<seq<Entries<Json>>, Exception>,
                     aggs: seq<ServiceMetrics>)
  {
    && |aggs| <= |services|
    && forall i :: 0 <= i < |aggs| ==>
         var s := services[i];
         && search(s.id).Ok? && DocCounts(search(s.id).value).Ok?
         && aggs[i] == MetricsOf(s, search(s.id).value)
  }

  /** The `metrics.json` writes of the first `n` services succeed. */
  predicate Written(services: seq<ServiceRow>, writeFails: int -> Option<Exception>, n: int)
    requires n <= |services|
  {
    forall i :: 0 <= i < n ==> writeFails(services[i].id).None?
  }

  /** One more service whose search and doc counts succeed adds its tuple. */
  lemma GatheredSnoc(services: seq<ServiceRow>, search: int -> Result<seq<Entries<Json>>, Exception>,
                     aggs: seq<ServiceMetrics>)
    requires Gathered(services, search, aggs) && |aggs| < |services|
    requires var s := services[|aggs|]; search(s.id).Ok? && DocCounts(search(s.id).value).Ok?
    ensures var s := services[|aggs|]; Gathered(services, search, aggs + [MetricsOf(s, search(s.id).value)])
  {
  }

  /** The body of `get_service_metrics`. The registry query, every search, every sum and
      every file write share one `try`: the first exception ends the loop, the grand total
      is not printed (None), and the tuples collected so far are returned. A service's
      tuple is appended before its directory and `metrics.json` are written, so a failing
      write (`writeFails`) keeps that service's tuple. */
  method GetServiceMetrics(registry: Result<seq<ServiceRow>, Exception>,
                           search: int -> Result<seq<Entries<Json>>, Exception>,
                           writeFails: int -> Option<Exception>)
    returns (totalAggs: seq<ServiceMetrics>, grand: Option<int>)
    ensures registry.Err? ==> totalAggs == [] && grand.None?
    ensures registry.Ok? ==> Gathered(registry.value, search, totalAggs)
    ensures registry.Ok? ==> Written(registry.value, writeFails, |totalAggs| - 1)
    ensures grand.Some? <==> registry.Ok? && |totalAggs| == |registry.value|
                             && Written(registry.value, writeFails, |totalAggs|)
    ensures registry.Ok? && grand.None? ==>
      || (|totalAggs| > 0 && writeFails(registry.value[|totalAggs| - 1].id).Some?)
      || (&& |totalAggs| < |registry.value|
          && Written(registry.value, writeFails, |totalAggs|)
          && var s := registry.value[|totalAggs|];
             search(s.id).Err? || DocCounts(search(s.id).value).Err?)
    ensures grand.Some? ==> grand.value == Sum(Totals(totalAggs))
  {
    totalAggs := [];
    if registry.Err? {
      return [], None;
    }
    var services := registry.value;
    for i := 0 to |services|
      invariant |totalAggs| == i
      invariant Gathered(services, search, totalAggs)
      invariant Written(services, writeFails, i)
    {
      var s := services[i];
      var data := search(s.id);
      if data.Err? {
        return totalAggs, None;
      }
      var total := ServiceTotal(data.value);
      if total.Err? {
        return totalAggs, None;
      }
      GatheredSnoc(services, search, totalAggs);
      totalAggs := totalAggs + [ServiceMetrics(data.value, |data.value|, s.name, s.id, total.value)];
      var failure := writeFails(s.id);
      if failure.Some? {
        return totalAggs, None;
      }
    }
    grand := Some(Sum(Totals(totalAggs)));
  }

  /** The grand total is the number of documents over every bucket of every service. */
  lemma {:induction false} GrandTotal(counts: seq<seq<int>>, ms: seq<ServiceMetrics>)
    requires |counts| == |ms| && forall i :: 0 <= i < |ms| ==> ms[i].total == Sum(counts[i])
    ensures Sum(Totals(ms)) == Sum(AllCounts(counts))
    decreases |ms|
  {
    if |ms| > 0 {
      var n := |ms| - 1;
      GrandTotal(counts[..n], ms[..n]);
      assert Totals(ms)[..n] == Totals(ms[..n]);
      SumAppend(AllCounts(counts[..n]), counts[n]);
    }
  }
}
