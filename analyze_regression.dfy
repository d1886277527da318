/** `run_linear_function`: the forecast horizon taken from the caller's dict, the hourly
    range it extends the buckets by, and the names of the outputs and their CSV files. */
module AnalyzeRegression {
  import opened PyBase
  import opened PyStr
  import opened PyDict
  import opened Calendar

  /** The latency columns, one regression each. */
  const Columns: seq<string> := ["latency_mean", "latency_50th", "latency_75th", "latency_85th", "latency_99th"]

  /** The output keys, one per column. */
  const GeneralNames: seq<string> := ["mean", "50th", "75th", "85th", "99th"]

  /** The keys of a regression's result, in the order it builds them. */
  const OutputKeys: seq<string> := ["train_data", "predict_points", "linear_function"]

  /** The keywords `timedelta(days=predict_day, **predict_range)` is called with: one day
      for an empty dict; otherwise `days` (0 when absent) and every other key. */
  function HorizonKwargs(predictRange: Entries<int>): (kw: Entries<int>)
    ensures |kw| >= 1 && kw[0].0 == "days"
    ensures forall i :: 1 <= i < |kw| ==> kw[i] in predictRange && kw[i].0 != "days"
    ensures forall x :: x in predictRange && x.0 != "days" ==> x in kw
  {
    if |predictRange| == 0 then [("days", 1)]
    else
      var rest := Remove(predictRange, "days");
      RemoveEntries(predictRange, "days");
      var kw := [("days", match Lookup(predictRange, "days") case Some(d) => d case None => 0)] + rest;
      assert forall i :: 1 <= i < |kw| ==> kw[i] == rest[i - 1];
      kw
  }

  /** The horizon in microseconds: a `timedelta` keyword that is not one is a TypeError,
      and no keywords is one day. */
  function HorizonUs(predictRange: Entries<int>): (r: Result<int, Exception>)
    ensures r.Err? ==> r.error == TypeError
    ensures predictRange == [] ==> r == Ok(86_400_000_000)
  {
    var kw := HorizonKwargs(predictRange);
    assert predictRange == [] ==> TimedeltaUs(kw[1..]) == Ok(0);
    TimedeltaUs(kw)
  }

  /** Every key is a `timedelta` keyword. */
  predicate AllUnits(e: Entries<int>)
  {
    forall i :: 0 <= i < |e| ==> UnitUs(e[i].0).Some?
  }

  /** Removing `days`, itself a keyword, keeps exactly the other keys. */
  lemma AllUnitsRemoveDays(e: Entries<int>)
    ensures AllUnits(Remove(e, "days")) <==> AllUnits(e)
  {
    var rest := Remove(e, "days");
    if AllUnits(e) {
      forall j | 0 <= j < |rest| ensures UnitUs(rest[j].0).Some? {
        InRemove(e, "days", rest[j]);
        var i :| 0 <= i < |e| && e[i] == rest[j];
      }
    }
    if AllUnits(rest) {
      forall i | 0 <= i < |e| ensures UnitUs(e[i].0).Some? {
        if e[i].0 != "days" {
          InRemove(e, "days", e[i]);
          var j :| 0 <= j < |rest| && rest[j] == e[i];
        }
      }
    }
  }

  /** The horizon: one day by default; a dict of `timedelta` keywords is their sum, and a
      key that is not one raises TypeError. */
  lemma HorizonMeaning(predictRange: Entries<int>)
    ensures predictRange == [] ==> HorizonUs(predictRange) == Ok(86_400_000_000)
    ensures predictRange != [] ==> (HorizonUs(predictRange).Ok? <==> AllUnits(predictRange))
    ensures HorizonUs(predictRange).Err? ==> HorizonUs(predictRange).error == TypeError
    ensures predictRange != [] && HorizonUs(predictRange).Ok? ==>
      var days := match Lookup(predictRange, "days") case Some(d) => d case None => 0;
      TimedeltaUs(Remove(predictRange, "days")).Ok?
      && HorizonUs(predictRange).value == days * 86_400_000_000 + TimedeltaUs(Remove(predictRange, "days")).value
  {
    var kw := HorizonKwargs(predictRange);
    if predictRange == [] {
      assert UnitUs(kw[0].0) == Some(86_400_000_000);
      assert TimedeltaUs(kw[1..]) == Ok(0);
    } else {
      var rest := Remove(predictRange, "days");
      assert kw[1..] == rest;
      assert UnitUs(kw[0].0) == Some(86_400_000_000);
      AllUnitsRemoveDays(predictRange);
    }
  }

  /** The horizon the only caller passes, `{"days": 12}`. */
  lemma TwelveDays()
    ensures HorizonUs([("days", 12)]) == Ok(12 * 86_400_000_000)
  {
    assert Remove([("days", 12)], "days") == [];
  }

  /** services/analyze/utils.py lines 257-260: an empty dict is left alone; otherwise `days`
      is popped from the caller's dict. */
  method PredictHorizon(predictRange: Dict<int>) returns (predictDay: int)
    requires predictRange.Valid()
    modifies predictRange
    ensures predictRange.Valid()
    ensures old(predictRange.entries) == [] ==> predictDay == 1 && predictRange.entries == []
    ensures old(predictRange.entries) != [] ==>
      && predictDay == (match Lookup(old(predictRange.entries), "days") case Some(d) => d case None => 0)
      && predictRange.entries == Remove(old(predictRange.entries), "days")
    ensures [("days", predictDay)] + predictRange.entries == HorizonKwargs(old(predictRange.entries))
  {
    if |predictRange.entries| == 0 {
      return 1;
    }
    predictDay := predictRange.PopOr("days", 0);
  }

  /** The extended range: hourly from the first bucket to the last bucket plus the
      horizon; no buckets is an IndexError. */
  function ExtendedRange(keys: seq<int>, horizonUs: int): (r: Result<seq<int>, Exception>)
    ensures r.Err? <==> |keys| == 0
    ensures r.Err? ==> r.error == IndexError
  {
    if |keys| == 0 then Err(IndexError)
    else Ok(HourlyRange(keys[0], AddUs(keys[|keys| - 1], horizonUs)))
  }

  /** For the caller's oldest-first, hour-aligned buckets and a horizon that is not
      negative, the range holds every bucket, and it reaches to within an hour of the
      last bucket plus the horizon. */
  lemma ExtendedCovers(keys: seq<int>, horizonUs: int, j: nat)
    requires j < |keys| && horizonUs >= 0
    requires forall a, b :: 0 <= a < b < |keys| ==> keys[a] <= keys[b]
    requires forall a :: 0 <= a < |keys| ==> (keys[a] - keys[0]) % MsPerHour == 0
    ensures ExtendedRange(keys, horizonUs).Ok?
    ensures keys[j] in ExtendedRange(keys, horizonUs).value
    ensures var r := ExtendedRange(keys, horizonUs).value;
      r[0] == keys[0] && (r[|r| - 1] + MsPerHour) * 1000 > keys[|keys| - 1] * 1000 + horizonUs
  {
    var end := AddUs(keys[|keys| - 1], horizonUs);
    assert keys[|keys| - 1] <= end;
    if j > 0 {
      assert keys[0] <= keys[j] <= keys[|keys| - 1];
    }
    HourlyRangeMember(keys[0], end, keys[j]);
    HourlyRangeShape(keys[0], end);
  }

  /** `column.split("_")[-1]`. */
  function GeneralColumn(column: string): string
  {
    var parts := Split(column, "_");
    parts[|parts| - 1]
  }

  /** The output keys are exactly the five statistic names. */
  lemma GeneralColumns()
    ensures forall i :: 0 <= i < |Columns| ==> GeneralColumn(Columns[i]) == GeneralNames[i]
  {
    forall i | 0 <= i < |Columns| ensures GeneralColumn(Columns[i]) == GeneralNames[i] {
      var g := GeneralNames[i];
      assert Lacks(g, '_');
      assert Lacks("latency", '_');
      LacksFirst("latency", "_");
      LacksFirst(g, "_");
      assert Columns[i] == Join("_", ["latency", g]);
      SplitJoin("_", ["latency", g]);
    }
  }

  /** One column's output key on its own, so a loop step does not see the whole table. */
  lemma GeneralColumnAt(i: nat)
    requires i < |Columns|
    ensures GeneralColumn(Columns[i]) == GeneralNames[i]
  {
    GeneralColumns();
  }

  /** `f'output/{filename.split(".json")[0]}/{general_column}/{key}.csv'`. */
  function CsvPath(filename: string, general: string, key: string): (p: string)
    ensures |p| >= 11 && p[..7] == "output/" && p[|p| - 4..] == ".csv"
    ensures |key| + 4 <= |p| && p[|p| - |key| - 4..] == key + ".csv"
  {
    "output/" + Split(filename, ".json")[0] + "/" + general + "/" + key + ".csv"
  }

  /** For a file named after a service, `<id>.json` with no `.` in the id, the folder is
      the id; a name without `.json` is used whole. */
  lemma CsvPathShape(id: string, general: string, key: string)
    ensures Lacks(id, '.') ==> CsvPath(id + ".json", general, key) == "output/" + id + "/" + general + "/" + key + ".csv"
    ensures !Contains(id, ".json") ==> CsvPath(id, general, key) == "output/" + id + "/" + general + "/" + key + ".csv"
  {
    if Lacks(id, '.') {
      LacksFirst(id, ".json");
      assert !OccursAt("", ".json", 0);
      assert Join(".json", [id, ""]) == id + ".json";
      SplitJoin(".json", [id, ""]);
    }
  }

  /** A CSV file the loop writes, and whether its index is written as a `datetime` column
      (every key that does not contain `linear`). */
  datatype CsvFile = CsvFile(path: string, datetimeColumn: bool)

  /** The files of one column. */
  function ColumnFiles(filename: string, general: string): (fs: seq<CsvFile>)
    ensures |fs| == |OutputKeys|
  {
    seq(|OutputKeys|, j requires 0 <= j < |OutputKeys| =>
      CsvFile(CsvPath(filename, general, OutputKeys[j]), !Contains(OutputKeys[j], "linear")))
  }

  /** File `j` of a column is the CSV of output key `j` in the column's folder; the
      `train_data` and `predict_points` frames get a `datetime` column, the
      `linear_function` one does not. */
  lemma ColumnFileAt(filename: string, general: string, j: nat)
    requires j < |OutputKeys|
    ensures ColumnFiles(filename, general)[j].path == CsvPath(filename, general, OutputKeys[j])
    ensures ColumnFiles(filename, general)[j].datetimeColumn <==> j < 2
  {
    DatetimeColumns();
  }

  /** The files of several columns, column by column. */
  function AllFiles(filename: string, generals: seq<string>): seq<CsvFile>
  {
    if |generals| == 0 then []
    else AllFiles(filename, generals[..|generals| - 1]) + ColumnFiles(filename, generals[|generals| - 1])
  }

  /** File `3 i + j` is the file of key `j` of column `i`. */
  lemma {:induction false} AllFilesAt(filename: string, generals: seq<string>, i: nat, j: nat)
    requires i < |generals| && j < |OutputKeys|
    ensures |AllFiles(filename, generals)| == 3 * |generals|
    ensures AllFiles(filename, generals)[3 * i + j] == ColumnFiles(filename, generals[i])[j]
    decreases |generals|
  {
    var n := |generals| - 1;
    if n > 0 {
      AllFilesAt(filename, generals[..n], if i < n then i else 0, j);
    }
    if i < n {
      assert generals[..n][i] == generals[i];
    }
  }

  /** Only the `linear_function` file keeps its plain index; the two frames get a
      `datetime` column. */
  lemma DatetimeColumns()
    ensures !Contains(OutputKeys[0], "linear") && !Contains(OutputKeys[1], "linear")
    ensures Contains(OutputKeys[2], "linear")
  {
    assert Lacks(OutputKeys[0], 'l');
    assert Lacks(OutputKeys[1], 'l');
    LacksFirst(OutputKeys[0], "linear");
    LacksFirst(OutputKeys[1], "linear");
    assert OccursAt(OutputKeys[2], "linear", 0);
  }

  lemma FilesStep(filename: string, i: nat)
    requires i < |GeneralNames|
    ensures AllFiles(filename, GeneralNames[..i + 1])
         == AllFiles(filename, GeneralNames[..i]) + ColumnFiles(filename, GeneralNames[i])
  {
    assert GeneralNames[..i + 1][..i] == GeneralNames[..i];
  }

  /** The five statistic names differ, so each assignment adds a key at the end. */
  lemma OutputStep<R>(output: Entries<R>, i: nat, v: R)
    requires i < |GeneralNames| && KeysOf(output) == GeneralNames[..i]
    ensures Assign(output, GeneralNames[i], v) == output + [(GeneralNames[i], v)]
    ensures KeysOf(output + [(GeneralNames[i], v)]) == GeneralNames[..i + 1]
  {
    assert GeneralNames[i] !in GeneralNames[..i];
    AssignFresh(output, GeneralNames[i], v);
  }

  /** services/analyze/utils.py lines 283-291 for one column: the folder, then one file per
      output key. */
  method WriteColumn(filename: string, general: string) returns (files: seq<CsvFile>)
    ensures files == ColumnFiles(filename, general)
  {
    var filepath := "output/" + Split(filename, ".json")[0];
    var folder := filepath + "/" + general;
    files := [];
    for j := 0 to |OutputKeys|
      invariant files == ColumnFiles(filename, general)[..j]
    {
      var key := OutputKeys[j];
      var path := folder + "/" + key + ".csv";
      assert path == CsvPath(filename, general, key);
      files := files + [CsvFile(path, !Contains(key, "linear"))];
    }
  }

  /** The loop of services/analyze/utils.py lines 278-292: one regression and three files
      per column. */
  method Outputs<R>(filename: string, ext: seq<int>, regress: (string, seq<int>) -> R)
    returns (output: Entries<R>, files: seq<CsvFile>)
    ensures |output| == |Columns|
    ensures forall i :: 0 <= i < |Columns| ==> output[i] == (GeneralNames[i], regress(Columns[i], ext))
    ensures files == AllFiles(filename, GeneralNames)
  {
    output := [];
    files := [];
    for i := 0 to |Columns|
      invariant |output| == i && KeysOf(output) == GeneralNames[..i]
      invariant forall m :: 0 <= m < i ==> output[m] == (GeneralNames[m], regress(Columns[m], ext))
      invariant files == AllFiles(filename, GeneralNames[..i])
    {
      var column := Columns[i];
      var general := GeneralColumn(column);
      var linearOutput := regress(column, ext);
      GeneralColumnAt(i);
      var written := WriteColumn(filename, general);
      FilesStep(filename, i);
      files := files + written;
      OutputStep(output, i, linearOutput);
      output := Assign(output, general, linearOutput);
    }
    assert GeneralNames[..|Columns|] == GeneralNames;
  }

  /** `run_linear_function` on the bucket keys (ms, oldest first as the caller passes
      them), with the regression as a parameter `regress(column, extended range)`. The
      horizon is taken from the dict first, which it changes even when the call then
      fails; no buckets is an IndexError, a bad horizon key a TypeError. On success the
      output maps each statistic name to its column's regression, and three CSV files
      are written per column. */
  method RunLinearFunction<R>(keys: seq<int>, filename: string, predictRange: Dict<int>,
                              regress: (string, seq<int>) -> R)
    returns (r: Result<(Entries<R>, seq<CsvFile>), Exception>)
    requires predictRange.Valid()
    modifies predictRange
    ensures predictRange.Valid()
    ensures old(predictRange.entries) == [] ==> predictRange.entries == []
    ensures old(predictRange.entries) != [] ==> predictRange.entries == Remove(old(predictRange.entries), "days")
    ensures |keys| == 0 ==> r == Err(IndexError)
    ensures |keys| > 0 && HorizonUs(old(predictRange.entries)).Err? ==> r == Err(TypeError)
    ensures |keys| > 0 && HorizonUs(old(predictRange.entries)).Ok? ==>
      var ext := ExtendedRange(keys, HorizonUs(old(predictRange.entries)).value).value;
      && r.Ok?
      && |r.value.0| == |Columns|
      && (forall i :: 0 <= i < |Columns| ==> r.value.0[i] == (GeneralNames[i], regress(Columns[i], ext)))
      && r.value.1 == AllFiles(filename, GeneralNames)
  {
    var predictDay := PredictHorizon(predictRange);
    if |keys| == 0 {
      return Err(IndexError);
    }
    var delta := TimedeltaUs([("days", predictDay)] + predictRange.entries);
    if delta.Err? {
      return Err(delta.error);
    }
    var ext := HourlyRange(keys[0], AddUs(keys[|keys| - 1], delta.value));
    var output, files := Outputs(filename, ext, regress);
    return Ok((output, files));
  }
}
