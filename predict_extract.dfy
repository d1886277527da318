/** Stage 1 of the predict pipeline ("get data"): every search bucket of a service
    is normalised by `enrich` into a flat record. */
module PredictExtract {
  import opened PyBase
  import opened PyDict
  import opened Calendar

  /** The bucket fields `enrich` renames instead of copying. */
  const Excluded: seq<string> := ["key", "key_as_string", "doc_count"]

  /** The fields `enrich` derives, in the order it writes them. */
  const DerivedKeys: seq<string> := ["ts", "ts_iso", "dow", "weekend", "occurences"]

  /** The record before the bucket's own fields are copied in. The weekend flag is
      `_ts.isoweekday in [6, 7]`, which tests the bound method itself, not the day it
      returns, against the list; so it is false for every day. */
  function Derived(key: Json, iso: Json, dow: Weekday, count: Json): Entries<Json>
  {
    [("ts", key), ("ts_iso", iso), ("dow", Int(dow)), ("weekend", Bool(false)), ("occurences", count)]
  }

  /** One pass of the copy loop: a field that is not renamed is written under its own name. */
  function CopyStep(acc: Entries<Json>, field: (string, Json)): Entries<Json>
  {
    if field.0 in Excluded then acc else Assign(acc, field.0, field.1)
  }

  /** The copy loop over the first `|fields|` fields of the bucket. */
  function CopyFields(acc: Entries<Json>, fields: Entries<Json>): Entries<Json>
  {
    if |fields| == 0 then acc else CopyStep(CopyFields(acc, fields[..|fields| - 1]), fields[|fields| - 1])
  }

  /** What `enrich(record)` returns or raises, given the weekday `fromisoformat` and
      `isoweekday` find in an ISO text (None where `fromisoformat` raises ValueError). */
  function Enriched(record: Entries<Json>, weekdayOf: string -> Option<Weekday>): (r: Result<Entries<Json>, Exception>)
    ensures !HasKey(record, "key_as_string") ==> r == Err(KeyError("key_as_string"))
    ensures r.Ok? ==> HasKey(record, "key_as_string") && HasKey(record, "key") && HasKey(record, "doc_count")
    ensures r.Err? ==> r.error in {KeyError("key_as_string"), KeyError("key"), KeyError("doc_count"), TypeError, ValueError}
  {
    match Lookup(record, "key_as_string")
    case None => Err(KeyError("key_as_string"))
    case Some(iso) =>
      if !iso.Str? then Err(TypeError)
      else match weekdayOf(iso.s)
        case None => Err(ValueError)
        case Some(dow) =>
          match Lookup(record, "key")
          case None => Err(KeyError("key"))
          case Some(key) =>
            match Lookup(record, "doc_count")
            case None => Err(KeyError("doc_count"))
            case Some(count) => Ok(CopyFields(Derived(key, iso, dow, count), record))
  }

  /** `enrich`: the derived fields first, then every other field of the bucket copied
      key by key. */
  method Enrich(record: Entries<Json>, weekdayOf: string -> Option<Weekday>)
    returns (r: Result<Entries<Json>, Exception>)
    ensures r == Enriched(record, weekdayOf)
  {
    var iso := Lookup(record, "key_as_string");
    if iso.None? {
      return Err(KeyError("key_as_string"));
    }
    if !iso.value.Str? {
      return Err(TypeError);
    }
    var dow := weekdayOf(iso.value.s);
    if dow.None? {
      return Err(ValueError);
    }
    var key := Lookup(record, "key");
    if key.None? {
      return Err(KeyError("key"));
    }
    var output: Entries<Json> := [];
    output := Assign(output, "ts", key.value);
    AssignFresh(output, "ts_iso", iso.value);
    output := Assign(output, "ts_iso", iso.value);
    AssignFresh(output, "dow", Int(dow.value));
    output := Assign(output, "dow", Int(dow.value));
    AssignFresh(output, "weekend", Bool(false));
    output := Assign(output, "weekend", Bool(false));
    var count := Lookup(record, "doc_count");
    if count.None? {
      return Err(KeyError("doc_count"));
    }
    AssignFresh(output, "occurences", count.value);
    output := Assign(output, "occurences", count.value);
    assert output == Derived(key.value, iso.value, dow.value, count.value);
    for i := 0 to |record|
      invariant output == CopyFields(Derived(key.value, iso.value, dow.value, count.value), record[..i])
    {
      assert record[..i + 1][..i] == record[..i];
      if record[i].0 !in Excluded {
        output := Assign(output, record[i].0, record[i].1);
      }
    }
    assert record[..|record|] == record;
    return Ok(output);
  }

  lemma {:induction false} LookupCopyFields(acc: Entries<Json>, fields: Entries<Json>, k: string)
    requires DistinctKeys(fields)
    ensures Lookup(CopyFields(acc, fields), k)
         == if k !in Excluded && HasKey(fields, k) then Lookup(fields, k) else Lookup(acc, k)
    decreases |fields|
  {
    if |fields| > 0 {
      var init := fields[..|fields| - 1];
      var last := fields[|fields| - 1];
      assert fields == init + [last];
      assert DistinctKeys(init);
      LookupCopyFields(acc, init, k);
      LookupAssign(CopyFields(acc, init), last.0, last.1, k);
      LookupSnoc(init, last, k);
      if last.0 == k {
        HasKeyIn(init, k);
        assert k !in KeysOf(init);
      }
    }
  }

  lemma {:induction false} LookupSnoc(e: Entries<Json>, x: (string, Json), k: string)
    ensures Lookup(e + [x], k) == if HasKey(e, k) then Lookup(e, k) else if x.0 == k then Some(x.1) else None
  {
    if |e| > 0 {
      assert (e + [x])[1..] == e[1..] + [x];
      LookupSnoc(e[1..], x, k);
    }
  }

  /** The fields an enriched record copies: a field of the bucket that is not renamed
      keeps its value, even over a derived field of the same name; `key`,
      `key_as_string` and `doc_count` are not kept under their own names; nothing else
      appears. */
  lemma EnrichCopies(record: Entries<Json>, weekdayOf: string -> Option<Weekday>, k: string)
    requires DistinctKeys(record) && Enriched(record, weekdayOf).Ok?
    ensures k !in Excluded && HasKey(record, k) ==> Lookup(Enriched(record, weekdayOf).value, k) == Lookup(record, k)
    ensures k in Excluded ==> Lookup(Enriched(record, weekdayOf).value, k).None?
    ensures k !in DerivedKeys && !HasKey(record, k) ==> Lookup(Enriched(record, weekdayOf).value, k).None?
  {
    var iso := Lookup(record, "key_as_string").value;
    var base := Derived(Lookup(record, "key").value, iso, weekdayOf(iso.s).value,
                        Lookup(record, "doc_count").value);
    assert Enriched(record, weekdayOf).value == CopyFields(base, record);
    LookupCopyFields(base, record, k);
    LookupDerived(Lookup(record, "key").value, iso, weekdayOf(iso.s).value,
                  Lookup(record, "doc_count").value, k);
  }

  /** The derived fields, where the bucket has no field of the same name: `ts` is `key`,
      `ts_iso` is `key_as_string`, `occurences` is `doc_count`, `dow` is the weekday of
      `key_as_string` and `weekend` is false. */
  lemma EnrichDerived(record: Entries<Json>, weekdayOf: string -> Option<Weekday>)
    requires DistinctKeys(record) && Enriched(record, weekdayOf).Ok?
    ensures var out := Enriched(record, weekdayOf).value;
      var iso := Lookup(record, "key_as_string").value;
      && (!HasKey(record, "ts") ==> Lookup(out, "ts") == Lookup(record, "key"))
      && (!HasKey(record, "ts_iso") ==> Lookup(out, "ts_iso") == Some(iso))
      && (!HasKey(record, "dow") ==> Lookup(out, "dow") == Some(Int(weekdayOf(iso.s).value)))
      && (!HasKey(record, "weekend") ==> Lookup(out, "weekend") == Some(Bool(false)))
      && (!HasKey(record, "occurences") ==> Lookup(out, "occurences") == Lookup(record, "doc_count"))
  {
    var iso := Lookup(record, "key_as_string").value;
    var base := Derived(Lookup(record, "key").value, iso, weekdayOf(iso.s).value,
                        Lookup(record, "doc_count").value);
    assert Enriched(record, weekdayOf).value == CopyFields(base, record);
    forall k | k in DerivedKeys
      ensures Lookup(CopyFields(base, record), k) == if HasKey(record, k) then Lookup(record, k) else Lookup(base, k)
    {
      LookupCopyFields(base, record, k);
    }
    LookupDerived(Lookup(record, "key").value, iso, weekdayOf(iso.s).value,
                  Lookup(record, "doc_count").value, "");
  }

  lemma LookupDerived(key: Json, iso: Json, dow: Weekday, count: Json, k: string)
    ensures var d := Derived(key, iso, dow, count);
      && Lookup(d, "ts") == Some(key) && Lookup(d, "ts_iso") == Some(iso)
      && Lookup(d, "dow") == Some(Int(dow)) && Lookup(d, "weekend") == Some(Bool(false))
      && Lookup(d, "occurences") == Some(count)
      && (k !in DerivedKeys ==> Lookup(d, k).None?)
  {
    var d := Derived(key, iso, dow, count);
    assert DistinctKeys(d);
    LookupAt(d, 1);
    LookupAt(d, 2);
    LookupAt(d, 3);
    LookupAt(d, 4);
    HasKeyIn(d, k);
    if k in KeysOf(d) {
      var i :| 0 <= i < 5 && KeysOf(d)[i] == k;
      assert k == d[i].0;
    }
  }

  /** When the bucket has no fields of those names, an enriched record's `dow` is an
      ISO weekday and its `weekend` is false, Saturday and Sunday included. */
  lemma WeekendNeverSet(record: Entries<Json>, weekdayOf: string -> Option<Weekday>)
    requires DistinctKeys(record) && Enriched(record, weekdayOf).Ok?
    requires !HasKey(record, "dow") && !HasKey(record, "weekend")
    ensures var out := Enriched(record, weekdayOf).value;
      && Lookup(out, "weekend") == Some(Bool(false))
      && Lookup(out, "dow").Some? && Lookup(out, "dow").value.Int?
      && 1 <= Lookup(out, "dow").value.i <= 7
  {
    EnrichDerived(record, weekdayOf);
  }

  /** A row of the `services` table. */
  datatype Service = Service(id: int, name: string, host: string)

  /** The stage-1 artifact written for a service. */
  datatype Stage1Artifact = Stage1Artifact(id: int, name: string, data: seq<Entries<Json>>)

  /** `[enrich(record) for record in buckets]`: the first failing bucket's exception. */
  function EnrichAll(buckets: seq<Entries<Json>>, weekdayOf: string -> Option<Weekday>)
    : (r: Result<seq<Entries<Json>>, Exception>)
    ensures r.Ok? <==> forall i :: 0 <= i < |buckets| ==> Enriched(buckets[i], weekdayOf).Ok?
    ensures r.Ok? ==> |r.value| == |buckets|
                      && forall i :: 0 <= i < |buckets| ==> Enriched(buckets[i], weekdayOf) == Ok(r.value[i])
    ensures r.Err? ==> exists i :: 0 <= i < |buckets| && Enriched(buckets[i], weekdayOf) == Err(r.error)
                                   && forall j :: 0 <= j < i ==> Enriched(buckets[j], weekdayOf).Ok?
  {
    if |buckets| == 0 then Ok([])
    else
      var init := buckets[..|buckets| - 1];
      assert forall i :: 0 <= i < |buckets| - 1 ==> init[i] == buckets[i];
      match EnrichAll(init, weekdayOf)
      case Err(e) => Err(e)
      case Ok(done) =>
        match Enriched(buckets[|buckets| - 1], weekdayOf)
        case Err(e) => Err(e)
        case Ok(last) => Ok(done + [last])
  }

  lemma {:induction false} EnrichAllStops(buckets: seq<Entries<Json>>, weekdayOf: string -> Option<Weekday>, i: nat)
    requires i <= |buckets| && EnrichAll(buckets[..i], weekdayOf).Err?
    ensures EnrichAll(buckets, weekdayOf) == EnrichAll(buckets[..i], weekdayOf)
    decreases |buckets|
  {
    if i < |buckets| {
      var init := buckets[..|buckets| - 1];
      assert init[..i] == buckets[..i];
      EnrichAllStops(init, weekdayOf, i);
    } else {
      assert buckets[..i] == buckets;
    }
  }

  /** The artifact of one service, or the first exception of its search, of creating
      its directory (`makeDir`), of its buckets, or of writing `stage-1.json`
      (`writeFile`), in the order services/predict/utils.py lines 123-148 run them. */
  function ExtractService(s: Service, search: int -> Result<seq<Entries<Json>>, Exception>,
                          makeDir: int -> Option<Exception>, writeFile: int -> Option<Exception>,
                          weekdayOf: string -> Option<Weekday>): (r: Result<Stage1Artifact, Exception>)
    ensures r.Ok? <==> && search(s.id).Ok? && makeDir(s.id).None?
                       && EnrichAll(search(s.id).value, weekdayOf).Ok? && writeFile(s.id).None?
    ensures r.Ok? ==> r.value.id == s.id && r.value.name == s.name
                      && Ok(r.value.data) == EnrichAll(search(s.id).value, weekdayOf)
    ensures search(s.id).Err? ==> r == Err(search(s.id).error)
    ensures search(s.id).Ok? && makeDir(s.id).Some? ==> r == Err(makeDir(s.id).value)
  {
    match search(s.id)
    case Err(e) => Err(e)
    case Ok(buckets) =>
      match makeDir(s.id)
      case Some(e) => Err(e)
      case None =>
        match EnrichAll(buckets, weekdayOf)
        case Err(e) => Err(e)
        case Ok(data) =>
          match writeFile(s.id)
          case Some(e) => Err(e)
          case None => Ok(Stage1Artifact(s.id, s.name, data))
  }

  /** Enrich every bucket of one service, stopping at the first exception. */
  method EnrichBuckets(buckets: seq<Entries<Json>>, weekdayOf: string -> Option<Weekday>)
    returns (r: Result<seq<Entries<Json>>, Exception>)
    ensures r == EnrichAll(buckets, weekdayOf)
  {
    var data: seq<Entries<Json>> := [];
    for i := 0 to |buckets|
      invariant EnrichAll(buckets[..i], weekdayOf) == Ok(data)
    {
      assert buckets[..i + 1][..i] == buckets[..i];
      var e := Enrich(buckets[i], weekdayOf);
      if e.Err? {
        EnrichAllStops(buckets, weekdayOf, i + 1);
        return Err(e.error);
      }
      data := data + [e.value];
    }
    assert buckets[..|buckets|] == buckets;
    return Ok(data);
  }

  /** The body of `stage_1`: the registry query and the service loop share one `try`, so
      the first exception ends the stage; the services before it have their artifacts
      written, none after it. */
  method ExtractAll(registry: Result<seq<Service>, Exception>,
                    search: int -> Result<seq<Entries<Json>>, Exception>,
                    makeDir: int -> Option<Exception>, writeFile: int -> Option<Exception>,
                    weekdayOf: string -> Option<Weekday>)
    returns (written: seq<Stage1Artifact>, caught: Option<Exception>)
    ensures registry.Err? ==> written == [] && caught == Some(registry.error)
    ensures registry.Ok? ==>
      var services := registry.value;
      && |written| <= |services|
      && (forall i :: 0 <= i < |written| ==> ExtractService(services[i], search, makeDir, writeFile, weekdayOf) == Ok(written[i]))
      && (caught.None? <==> |written| == |services|)
      && (caught.Some? ==> ExtractService(services[|written|], search, makeDir, writeFile, weekdayOf) == Err(caught.value))
  {
    if registry.Err? {
      return [], Some(registry.error);
    }
    var services := registry.value;
    written := [];
    for i := 0 to |services|
      invariant |written| == i
      invariant forall j :: 0 <= j < i ==> ExtractService(services[j], search, makeDir, writeFile, weekdayOf) == Ok(written[j])
    {
      var s := services[i];
      var data := search(s.id);
      if data.Err? {
        return written, Some(data.error);
      }
      var dirFailure := makeDir(s.id);
      if dirFailure.Some? {
        return written, dirFailure;
      }
      var records := EnrichBuckets(data.value, weekdayOf);
      if records.Err? {
        return written, Some(records.error);
      }
      var writeFailure := writeFile(s.id);
      if writeFailure.Some? {
        return written, writeFailure;
      }
      written := written + [Stage1Artifact(s.id, s.name, records.value)];
    }
    caught := None;
  }
}
