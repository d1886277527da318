/** Stage 2 of the predict pipeline ("predict timeseries"): the observed buckets of a
    service are laid on an hourly grid reaching past "now" by the prediction horizon;
    the grid points that were observed carry their latency, and the model outputs at
    exactly those points are what the models are scored on. */
module PredictForecast {
  import opened PyBase
  import opened PyDict
  import opened Calendar

  /** A stage-1 record as stage 2 reads it: its `ts` and its `latency_stats.avg`. */
  datatype Observation = Observation(ts: int, latency: real)

  /** The feature tuple `(ts, dow, weekend)` handed to the models. */
  datatype Sample = Sample(ts: int, dow: Weekday, weekend: bool)

  /** A row of the stage-2 table. */
  datatype Row = Row(tsIso: string, ts: int, dow: Weekday, weekend: bool, latency: Option<real>,
                     randomForest: real, linear: real)

  /** The `predict_range` block of the stage-2 document. */
  datatype PredictRange = PredictRange(start: int, current: int, end: int, perDay: int, perHour: int)

  /** The lists the scores are computed from: the observed latencies and each model's
      outputs at the same grid points. */
  datatype Scoring = Scoring(observed: seq<real>, randomForest: seq<real>, linear: seq<real>)

  /** The stage-2 document (its `metrics` are computed from the scoring lists). */
  datatype Forecast = Forecast(scoring: Scoring, range: PredictRange, tsUnit: string, rows: seq<Row>)

  /** `get_X` of a grid point: here the weekend flag is computed from the weekday. */
  function SampleAt(ts: int): (s: Sample)
    ensures s.ts == ts && s.dow == IsoWeekday(ts)
    ensures s.weekend <==> s.dow == 6 || s.dow == 7
  {
    Sample(ts, IsoWeekday(ts), IsWeekendDay(IsoWeekday(ts)))
  }

  /** `org_ts`: each observed ts mapped to its position, a later position overwriting an
      earlier one. */
  function ObservedIndex(data: seq<Observation>): (m: map<int, nat>)
    ensures forall ts :: ts in m ==> m[ts] < |data| && data[m[ts]].ts == ts
  {
    if |data| == 0 then map[]
    else ObservedIndex(data[..|data| - 1])[data[|data| - 1].ts := |data| - 1]
  }

  /** A ts is in `org_ts` exactly when some record has it, and it maps to the last such
      record. */
  lemma {:induction false} ObservedIndexLast(data: seq<Observation>, ts: int)
    ensures ts in ObservedIndex(data) <==> exists i :: 0 <= i < |data| && data[i].ts == ts
    ensures ts in ObservedIndex(data) ==>
      forall j :: ObservedIndex(data)[ts] < j < |data| ==> data[j].ts != ts
  {
    if |data| > 0 {
      var init := data[..|data| - 1];
      ObservedIndexLast(init, ts);
      if ts != data[|data| - 1].ts {
        if exists i :: 0 <= i < |data| && data[i].ts == ts {
          var i :| 0 <= i < |data| && data[i].ts == ts;
          assert init[i].ts == ts;
        }
        if ts in ObservedIndex(data) {
          forall j | ObservedIndex(data)[ts] < j < |data| ensures data[j].ts != ts {
            if j < |data| - 1 {
              assert init[j] == data[j];
            }
          }
        }
      }
    }
  }

  /** The observed latency at a grid point, None where nothing was observed. */
  function FeatureAt(data: seq<Observation>, ts: int): (f: Option<real>)
  {
    var m := ObservedIndex(data);
    if ts in m then Some(data[m[ts]].latency) else None
  }

  /** A grid point carries a latency exactly when it was observed, and then the latency of
      the last bucket with that ts. */
  lemma FeatureAtMeaning(data: seq<Observation>, ts: int)
    ensures FeatureAt(data, ts).Some? <==> exists i :: 0 <= i < |data| && data[i].ts == ts
    ensures FeatureAt(data, ts).Some? ==>
      exists i :: 0 <= i < |data| && data[i].ts == ts && FeatureAt(data, ts).value == data[i].latency
                  && forall j :: i < j < |data| ==> data[j].ts != ts
  {
    ObservedIndexLast(data, ts);
  }

  /** The non-None entries, in order (`test_features`). */
  function Present(fs: seq<Option<real>>): seq<real>
  {
    if |fs| == 0 then []
    else Present(fs[..|fs| - 1]) + if fs[|fs| - 1].Some? then [fs[|fs| - 1].value] else []
  }

  /** `[xs[idx] for idx in range(len(fs)) if fs[idx] is not None]`. */
  function Selected<T>(xs: seq<T>, fs: seq<Option<real>>): seq<T>
    requires |xs| == |fs|
  {
    if |fs| == 0 then []
    else Selected(xs[..|xs| - 1], fs[..|fs| - 1]) + if fs[|fs| - 1].Some? then [xs[|xs| - 1]] else []
  }

  /** The positions of the non-None entries, in increasing order. */
  function ObservedPositions(fs: seq<Option<real>>): seq<nat>
  {
    if |fs| == 0 then []
    else ObservedPositions(fs[..|fs| - 1]) + if fs[|fs| - 1].Some? then [|fs| - 1] else []
  }

  /** The selections keep one entry per observed position. */
  lemma {:induction false} SelectionLength<T>(xs: seq<T>, fs: seq<Option<real>>)
    requires |xs| == |fs|
    ensures |Present(fs)| == |ObservedPositions(fs)| && |Selected(xs, fs)| == |ObservedPositions(fs)|
  {
    if |fs| > 0 {
      SelectionLength(xs[..|fs| - 1], fs[..|fs| - 1]);
    }
  }

  /** The observed positions are positions of non-None entries, in strictly rising order. */
  lemma {:induction false} PositionsRise(fs: seq<Option<real>>)
    ensures forall j :: 0 <= j < |ObservedPositions(fs)| ==>
      ObservedPositions(fs)[j] < |fs| && fs[ObservedPositions(fs)[j]].Some?
    ensures forall j, k :: 0 <= j < k < |ObservedPositions(fs)| ==>
      ObservedPositions(fs)[j] < ObservedPositions(fs)[k]
  {
    if |fs| > 0 {
      var n := |fs| - 1;
      PositionsRise(fs[..n]);
      var pos0 := ObservedPositions(fs[..n]);
      var pos := ObservedPositions(fs);
      assert pos == pos0 + if fs[n].Some? then [n] else [];
      forall j | 0 <= j < |pos| ensures pos[j] < |fs| && fs[pos[j]].Some? {
        if j < |pos0| {
          assert pos[j] == pos0[j];
          assert fs[..n][pos0[j]] == fs[pos0[j]];
        }
      }
    }
  }

  /** Every non-None entry's position is an observed position. */
  lemma {:induction false} PositionsComplete(fs: seq<Option<real>>, i: nat)
    requires i < |fs| && fs[i].Some?
    ensures i in ObservedPositions(fs)
  {
    var n := |fs| - 1;
    if i < n {
      assert fs[..n][i] == fs[i];
      PositionsComplete(fs[..n], i);
    }
  }

  /** The kept values of `fs` and of any parallel list are theirs at the observed positions. */
  lemma {:induction false} SelectionAt<T>(xs: seq<T>, fs: seq<Option<real>>, j: nat)
    requires |xs| == |fs| && j < |ObservedPositions(fs)|
    ensures ObservedPositions(fs)[j] < |fs| && j < |Present(fs)| && j < |Selected(xs, fs)|
    ensures fs[ObservedPositions(fs)[j]].Some?
      && Present(fs)[j] == fs[ObservedPositions(fs)[j]].value
      && Selected(xs, fs)[j] == xs[ObservedPositions(fs)[j]]
  {
    SelectionLength(xs, fs);
    PositionsRise(fs);
    var n := |fs| - 1;
    var pos0 := ObservedPositions(fs[..n]);
    SelectionLength(xs[..n], fs[..n]);
    PositionsRise(fs[..n]);
    if j < |pos0| {
      SelectionAt(xs[..n], fs[..n], j);
      assert ObservedPositions(fs)[j] == pos0[j];
      assert Present(fs)[j] == Present(fs[..n])[j];
      assert Selected(xs, fs)[j] == Selected(xs[..n], fs[..n])[j];
    }
  }

  /** The features of the whole grid (`ext_features`). */
  function Features(data: seq<Observation>, grid: seq<int>): (fs: seq<Option<real>>)
    ensures |fs| == |grid|
  {
    seq(|grid|, i requires 0 <= i < |grid| => FeatureAt(data, grid[i]))
  }

  /** A model's outputs on the samples of the whole grid (`model.predict(ext_samples)`). */
  function Predictions(model: Sample -> real, grid: seq<int>): (ps: seq<real>)
    ensures |ps| == |grid|
  {
    seq(|grid|, i requires 0 <= i < |grid| => model(SampleAt(grid[i])))
  }

  lemma {:induction false} PresentSnoc(fs: seq<Option<real>>, f: Option<real>)
    ensures Present(fs + [f]) == Present(fs) + if f.Some? then [f.value] else []
  {
    assert (fs + [f])[..|fs|] == fs;
  }

  lemma {:induction false} SelectedSnoc<T>(xs: seq<T>, fs: seq<Option<real>>, x: T, f: Option<real>)
    requires |xs| == |fs|
    ensures Selected(xs + [x], fs + [f]) == Selected(xs, fs) + if f.Some? then [x] else []
  {
    assert (xs + [x])[..|xs|] == xs;
    assert (fs + [f])[..|fs|] == fs;
  }

  /** The loop of services/predict/utils.py lines 211-226: one sample and one optional
      feature per grid point, and the observed ones copied to the test lists as well. */
  method Align(data: seq<Observation>, grid: seq<int>)
    returns (testSamples: seq<Sample>, testFeatures: seq<real>,
             extSamples: seq<Sample>, extFeatures: seq<Option<real>>)
    ensures |extSamples| == |grid| && |extFeatures| == |grid|
    ensures forall i :: 0 <= i < |grid| ==> extSamples[i] == SampleAt(grid[i])
    ensures extFeatures == Features(data, grid)
    ensures testFeatures == Present(extFeatures)
    ensures testSamples == Selected(extSamples, extFeatures)
  {
    var orgTs := ObservedIndex(data);
    testSamples, testFeatures, extSamples, extFeatures := [], [], [], [];
    for i := 0 to |grid|
      invariant |extSamples| == i && |extFeatures| == i
      invariant forall j :: 0 <= j < i ==> extSamples[j] == SampleAt(grid[j])
      invariant extFeatures == Features(data, grid[..i])
      invariant testFeatures == Present(extFeatures)
      invariant testSamples == Selected(extSamples, extFeatures)
    {
      var sample := Sample(grid[i], IsoWeekday(grid[i]), IsoWeekday(grid[i]) in [6, 7]);
      var feature: Option<real> := None;
      if sample.ts in orgTs {
        var orgIdx := orgTs[sample.ts];
        feature := Some(data[orgIdx].latency);
        testSamples := testSamples + [sample];
        testFeatures := testFeatures + [feature.value];
      }
      PresentSnoc(extFeatures, feature);
      SelectedSnoc(extSamples, extFeatures, sample, feature);
      extSamples := extSamples + [sample];
      extFeatures := extFeatures + [feature];
      assert extFeatures == Features(data, grid[..i + 1]);
    }
    assert grid[..|grid|] == grid;
  }

  /** services/predict/utils.py lines 248-258: row i pairs sample i with feature i and both
      models' output i. */
  method BuildRows(isoformat: int -> string, samples: seq<Sample>, features: seq<Option<real>>,
                   rf: seq<real>, lr: seq<real>) returns (rows: seq<Row>)
    requires |features| == |samples| && |rf| == |samples| && |lr| == |samples|
    ensures |rows| == |samples|
    ensures forall i :: 0 <= i < |samples| ==>
      rows[i] == Row(isoformat(samples[i].ts), samples[i].ts, samples[i].dow, samples[i].weekend,
                     features[i], rf[i], lr[i])
  {
    rows := [];
    for i := 0 to |samples|
      invariant |rows| == i
      invariant forall j :: 0 <= j < i ==>
        rows[j] == Row(isoformat(samples[j].ts), samples[j].ts, samples[j].dow, samples[j].weekend,
                       features[j], rf[j], lr[j])
    {
      var s := samples[i];
      rows := rows + [Row(isoformat(s.ts), s.ts, s.dow, s.weekend, features[i], rf[i], lr[i])];
    }
  }

  /** The grid from the oldest bucket (`data[-1]`, the buckets being newest first) to the
      last whole millisecond at or before now plus the horizon. */
  function Grid(data: seq<Observation>, now: int, horizonUs: int): seq<int>
    requires |data| > 0
  {
    HourlyRange(data[|data| - 1].ts, AddUs(now, horizonUs))
  }

  /** The rows run over the grid: from the oldest bucket, one hour apart, never past
      now plus the horizon, and the next hour would pass it. */
  lemma Timeline(data: seq<Observation>, now: int, horizonUs: int)
    requires |data| > 0
    ensures var grid := Grid(data, now, horizonUs);
      && (|grid| > 0 <==> data[|data| - 1].ts <= AddUs(now, horizonUs))
      && (|grid| > 0 ==> grid[0] == data[|data| - 1].ts)
      && (forall i :: 0 < i < |grid| ==> grid[i] == grid[i - 1] + MsPerHour)
      && (forall i :: 0 <= i < |grid| ==> grid[i] * 1000 <= now * 1000 + horizonUs)
      && (|grid| > 0 ==> (grid[|grid| - 1] + MsPerHour) * 1000 > now * 1000 + horizonUs)
  {
    HourlyRangeShape(data[|data| - 1].ts, AddUs(now, horizonUs));
  }

  /** What a successful stage 2 writes for a service, in terms of its grid. */
  predicate Describes(doc: Forecast, data: seq<Observation>, grid: seq<int>, isoformat: int -> string,
                      rfr: Sample -> real, lr: Sample -> real)
    requires |data| > 0 && |grid| > 0
  {
    var fs := Features(data, grid);
    && doc.range == PredictRange(data[|data| - 1].ts, data[0].ts, grid[|grid| - 1], MsPerDay, MsPerHour)
    && doc.tsUnit == "ms"
    && doc.scoring == Scoring(Present(fs), Selected(Predictions(rfr, grid), fs), Selected(Predictions(lr, grid), fs))
    && |doc.rows| == |grid|
    && forall i :: 0 <= i < |grid| ==>
         doc.rows[i] == Row(isoformat(grid[i]), grid[i], IsoWeekday(grid[i]), IsWeekendDay(IsoWeekday(grid[i])),
                            fs[i], rfr(SampleAt(grid[i])), lr(SampleAt(grid[i])))
  }

  /** One service of `stage_2`, with `now` and the two fitted models as parameters.
      Fewer than two buckets leave `train_test_split` an empty training set (ValueError);
      an unknown horizon keyword is a TypeError; an empty grid gives the models nothing to
      predict (ValueError). */
  method ForecastService(data: seq<Observation>, now: int, predictRange: Entries<int>,
                         isoformat: int -> string, rfr: Sample -> real, lr: Sample -> real)
    returns (r: Result<Forecast, Exception>)
    ensures |data| < 2 ==> r == Err(ValueError)
    ensures |data| >= 2 && TimedeltaUs(predictRange).Err? ==> r == Err(TypeError)
    ensures |data| >= 2 && TimedeltaUs(predictRange).Ok? ==>
      var grid := Grid(data, now, TimedeltaUs(predictRange).value);
      && (grid == [] ==> r == Err(ValueError))
      && (grid != [] ==> r.Ok? && Describes(r.value, data, grid, isoformat, rfr, lr))
  {
    if |data| < 2 {
      return Err(ValueError);
    }
    var start := data[|data| - 1].ts;
    var delta := TimedeltaUs(predictRange);
    if delta.Err? {
      return Err(delta.error);
    }
    var grid := HourlyRange(start, AddUs(now, delta.value));
    if |grid| == 0 {
      return Err(ValueError);
    }
    var testSamples, testFeatures, extSamples, extFeatures := Align(data, grid);
    var rfFeatures := seq(|extSamples|, i requires 0 <= i < |extSamples| => rfr(extSamples[i]));
    var lrFeatures := seq(|extSamples|, i requires 0 <= i < |extSamples| => lr(extSamples[i]));
    assert rfFeatures == Predictions(rfr, grid);
    assert lrFeatures == Predictions(lr, grid);
    var rfPred := Selected(rfFeatures, extFeatures);
    var lrPred := Selected(lrFeatures, extFeatures);
    var rows := BuildRows(isoformat, extSamples, extFeatures, rfFeatures, lrFeatures);
    var range := PredictRange(start, data[0].ts, extSamples[|extSamples| - 1].ts, MsPerDay, MsPerHour);
    return Ok(Forecast(Scoring(testFeatures, rfPred, lrPred), range, "ms", rows));
  }

  /** A bucket is matched on the grid exactly when it is a whole number of hours after
      the oldest one and not past the end; every such bucket is observed at its point,
      the oldest one always. So the scoring lists are never empty. */
  lemma ObservedOnGrid(data: seq<Observation>, now: int, horizonUs: int, j: nat)
    requires j < |data|
    ensures var grid := Grid(data, now, horizonUs);
      var start := data[|data| - 1].ts;
      && (data[j].ts in grid <==> start <= data[j].ts <= AddUs(now, horizonUs)
                                   && (data[j].ts - start) % MsPerHour == 0)
      && (data[j].ts in grid ==> var k := (data[j].ts - start) / MsPerHour;
            k < |grid| && grid[k] == data[j].ts && Features(data, grid)[k].Some?)
  {
    var grid := Grid(data, now, horizonUs);
    var start := data[|data| - 1].ts;
    FeatureAtMeaning(data, data[j].ts);
    if data[j].ts in grid {
      var k :| 0 <= k < |grid| && grid[k] == data[j].ts;
      assert data[j].ts - start == k * MsPerHour;
      HourlyRangeShape(start, AddUs(now, horizonUs));
    }
    if start <= data[j].ts <= AddUs(now, horizonUs) && (data[j].ts - start) % MsPerHour == 0 {
      HourlyRangeMember(start, AddUs(now, horizonUs), data[j].ts);
    }
  }

  /** With a non-empty grid the oldest bucket is observed at its first point, so the
      scoring lists hold at least one entry each, and all three have the same length. */
  lemma ScoringNonEmpty(doc: Forecast, data: seq<Observation>, grid: seq<int>, isoformat: int -> string,
                        rfr: Sample -> real, lr: Sample -> real)
    requires |data| > 0 && |grid| > 0 && grid[0] == data[|data| - 1].ts
    requires Describes(doc, data, grid, isoformat, rfr, lr)
    ensures |doc.scoring.observed| >= 1
    ensures |doc.scoring.randomForest| == |doc.scoring.observed| == |doc.scoring.linear|
  {
    var fs := Features(data, grid);
    FeatureAtMeaning(data, grid[0]);
    SelectionLength(Predictions(rfr, grid), fs);
    SelectionLength(Predictions(lr, grid), fs);
    PositionsComplete(fs, 0);
  }

  /** Every scored prediction is the model's output at an observed grid point, and the
      observed latency it is scored against is that point's. */
  lemma ScoringPairs(doc: Forecast, data: seq<Observation>, grid: seq<int>, isoformat: int -> string,
                     rfr: Sample -> real, lr: Sample -> real, j: nat)
    requires |data| > 0 && |grid| > 0
    requires Describes(doc, data, grid, isoformat, rfr, lr)
    requires j < |doc.scoring.observed|
    ensures j < |ObservedPositions(Features(data, grid))|
      && j < |doc.scoring.randomForest| && j < |doc.scoring.linear|
      && var k := ObservedPositions(Features(data, grid))[j];
      && k < |grid| && doc.rows[k].latency == Some(doc.scoring.observed[j])
      && doc.scoring.randomForest[j] == rfr(SampleAt(grid[k])) == doc.rows[k].randomForest
      && doc.scoring.linear[j] == lr(SampleAt(grid[k])) == doc.rows[k].linear
  {
    var fs := Features(data, grid);
    SelectionLength(Predictions(rfr, grid), fs);
    SelectionLength(Predictions(lr, grid), fs);
    SelectionAt(Predictions(rfr, grid), fs, j);
    SelectionAt(Predictions(lr, grid), fs, j);
  }

  /** A JSON timestamp as a whole number of milliseconds: an integer, or a float of
      integral value. */
  function WholeMs(v: Json): (r: Option<int>)
    ensures r.Some? ==> v == Int(r.value) || v == Num(r.value as real)
  {
    if v.Int? then Some(v.i)
    else if v.Num? && v.r.Floor as real == v.r then Some(v.r.Floor)
    else None
  }

  /** `get_X` then `get_Y` of a stage-1 record: `ts`, `dow`, `weekend`, then
      `latency_stats` and its `avg` are read in that order, and KeyError names the first
      one missing. */
  function ObservationOf(record: Entries<Json>): (r: Result<Observation, Exception>)
    ensures !HasKey(record, "ts") ==> r == Err(KeyError("ts"))
    ensures HasKey(record, "ts") && !HasKey(record, "dow") ==> r == Err(KeyError("dow"))
    ensures (HasKey(record, "ts") && HasKey(record, "dow") && !HasKey(record, "weekend"))
            ==> r == Err(KeyError("weekend"))
    ensures (HasKey(record, "ts") && HasKey(record, "dow") && HasKey(record, "weekend")
             && !HasKey(record, "latency_stats")) ==> r == Err(KeyError("latency_stats"))
    ensures (&& HasKey(record, "ts") && HasKey(record, "dow") && HasKey(record, "weekend")
             && HasKey(record, "latency_stats") && !Lookup(record, "latency_stats").value.Obj?)
            ==> r == Err(TypeError)
    ensures (&& HasKey(record, "ts") && HasKey(record, "dow") && HasKey(record, "weekend")
             && HasKey(record, "latency_stats") && Lookup(record, "latency_stats").value.Obj?
             && !HasKey(Lookup(record, "latency_stats").value.fields, "avg"))
            ==> r == Err(KeyError("avg"))
    ensures r.Ok? <==>
      && HasKey(record, "ts") && HasKey(record, "dow") && HasKey(record, "weekend")
      && HasKey(record, "latency_stats") && Lookup(record, "latency_stats").value.Obj?
      && HasKey(Lookup(record, "latency_stats").value.fields, "avg")
      && WholeMs(Lookup(record, "ts").value).Some?
      && var avg := Lookup(Lookup(record, "latency_stats").value.fields, "avg").value;
         avg.Num? || avg.Int?
    ensures r.Ok? ==>
      && Lookup(record, "ts") in {Some(Int(r.value.ts)), Some(Num(r.value.ts as real))}
      && var avg := Lookup(Lookup(record, "latency_stats").value.fields, "avg").value;
         && (avg.Num? ==> r.value.latency == avg.r)
         && (avg.Int? ==> r.value.latency == avg.i as real)
  {
    match Lookup(record, "ts")
    case None => Err(KeyError("ts"))
    case Some(ts) =>
      if Lookup(record, "dow").None? then Err(KeyError("dow"))
      else if Lookup(record, "weekend").None? then Err(KeyError("weekend"))
      else match Lookup(record, "latency_stats")
      case None => Err(KeyError("latency_stats"))
      case Some(stats) =>
        if !stats.Obj? then Err(TypeError)
        else match Lookup(stats.fields, "avg")
          case None => Err(KeyError("avg"))
          case Some(avg) =>
            match WholeMs(ts)
            case None => Err(TypeError)
            case Some(ms) =>
              if avg.Num? then Ok(Observation(ms, avg.r))
              else if avg.Int? then Ok(Observation(ms, avg.i as real))
              else Err(TypeError)
  }

  /** The records of a stage-1 file read in order; the first failing record's exception. */
  function Observations(records: seq<Entries<Json>>): (r: Result<seq<Observation>, Exception>)
    ensures r.Ok? <==> forall i :: 0 <= i < |records| ==> ObservationOf(records[i]).Ok?
    ensures r.Ok? ==> |r.value| == |records|
    ensures r.Ok? ==> forall i :: 0 <= i < |records| ==> ObservationOf(records[i]) == Ok(r.value[i])
    ensures r.Err? ==> exists i :: 0 <= i < |records| && ObservationOf(records[i]) == Err(r.error)
                                   && forall j :: 0 <= j < i ==> ObservationOf(records[j]).Ok?
  {
    if |records| == 0 then Ok([])
    else
      var init := records[..|records| - 1];
      assert forall i :: 0 <= i < |init| ==> init[i] == records[i];
      match Observations(init)
      case Err(e) => Err(e)
      case Ok(init) =>
        match ObservationOf(records[|records| - 1])
        case Err(e) => Err(e)
        case Ok(last) => Ok(init + [last])
  }

  /** The stage-2 loop over the service directories: there is no `try`, so the first
      service that raises ends the stage with its exception. */
  method ForecastAll(services: seq<(string, seq<Entries<Json>>)>, now: int, predictRange: Entries<int>,
                     isoformat: int -> string, rfr: string -> Sample -> real, lr: string -> Sample -> real)
    returns (written: seq<(string, Forecast)>, raised: Option<Exception>)
    ensures |written| <= |services|
    ensures forall i :: 0 <= i < |written| ==> written[i].0 == services[i].0
    ensures forall i :: 0 <= i < |written| ==> var data := Observations(services[i].1);
      data.Ok? && TimedeltaUs(predictRange).Ok? && 2 <= |data.value|
      && var grid := Grid(data.value, now, TimedeltaUs(predictRange).value);
         grid != [] && Describes(written[i].1, data.value, grid, isoformat, rfr(services[i].0), lr(services[i].0))
    ensures raised.None? <==> |written| == |services|
    ensures raised.Some? ==> var data := Observations(services[|written|].1);
      if data.Err? then raised.value == data.error
      else if |data.value| < 2 then raised.value == ValueError
      else if TimedeltaUs(predictRange).Err? then raised.value == TypeError
      else raised.value == ValueError && Grid(data.value, now, TimedeltaUs(predictRange).value) == []
  {
    written := [];
    for i := 0 to |services|
      invariant |written| == i
      invariant forall j :: 0 <= j < i ==> written[j].0 == services[j].0
      invariant forall j :: 0 <= j < i ==> var data := Observations(services[j].1);
        data.Ok? && TimedeltaUs(predictRange).Ok? && 2 <= |data.value|
        && var grid := Grid(data.value, now, TimedeltaUs(predictRange).value);
           grid != [] && Describes(written[j].1, data.value, grid, isoformat, rfr(services[j].0), lr(services[j].0))
    {
      var (id, records) := services[i];
      var data := Observations(records);
      if data.Err? {
        return written, Some(data.error);
      }
      var doc := ForecastService(data.value, now, predictRange, isoformat, rfr(id), lr(id));
      if doc.Err? {
        return written, Some(doc.error);
      }
      written := written + [(id, doc.value)];
    }
    raised := None;
  }
}
