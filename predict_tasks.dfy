/** `run_pipeline`: which stages of the predict pipeline run, in what order, and how an
    exception ends the run. */
module PredictTasks {
  import opened PyBase

  /** The three stages, as the `pipeline_stage` decorator names them. */
  datatype Stage = GetData | PredictTimeseries | IngestToEs

  const PipeStages: seq<Stage> := [GetData, PredictTimeseries, IngestToEs]

  function StageName(s: Stage): string
  {
    match s
    case GetData => "get data"
    case PredictTimeseries => "predict timeseries"
    case IngestToEs => "ingest to ES"
  }

  /** `pipe_stages[entry - 1]` with Python's list indexing: entries 1 to 3 name their
      stage, 0, -1 and -2 count back from the last, and anything else is an IndexError. */
  function StageAt(entry: int): (r: Option<Stage>)
    ensures r.Some? <==> -2 <= entry <= 3
    ensures 1 <= entry <= 3 ==> r == Some(PipeStages[entry - 1])
    ensures entry == 0 ==> r == Some(IngestToEs)
    ensures entry == -1 ==> r == Some(PredictTimeseries)
    ensures entry == -2 ==> r == Some(GetData)
  {
    match ListIndex(|PipeStages|, entry - 1)
    case None => None
    case Some(i) => Some(PipeStages[i])
  }

  /** The stage calls an argument asks for, in order; None where the index is out of range. */
  function Plan(stages: seq<int>): seq<Option<Stage>>
  {
    if |stages| == 0 then [Some(GetData), Some(PredictTimeseries), Some(IngestToEs)]
    else seq(|stages|, i requires 0 <= i < |stages| => StageAt(stages[i]))
  }

  /** `run_pipeline(stages)`. `fails(before, s)` is what stage `s` raises when the stages
      `before` have run ahead of it in this call (None when it returns). The
      `pipeline_stage` wrapper calls its stage once, outside its empty `try`, so a stage's
      exception leaves the wrapper and the loop; an out-of-range entry raises IndexError
      once the entries before it have run. `run` lists the stages called, the failing one
      last. */
  method RunPipeline(stages: seq<int>, fails: (seq<Stage>, Stage) -> Option<Exception>)
    returns (run: seq<Stage>, raised: Option<Exception>)
    ensures var plan := Plan(stages);
      && |run| <= |plan|
      && (forall i :: 0 <= i < |run| ==> plan[i] == Some(run[i]))
      && (forall i :: 0 <= i < |run| - 1 ==> fails(run[..i], run[i]).None?)
      && (raised.None? <==> |run| == |plan| && (|run| == 0 || fails(run[..|run| - 1], run[|run| - 1]).None?))
      && (raised.Some? ==>
            || (|run| < |plan| && plan[|run|].None? && raised.value == IndexError
                && (|run| == 0 || fails(run[..|run| - 1], run[|run| - 1]).None?))
            || (|run| > 0 && fails(run[..|run| - 1], run[|run| - 1]) == raised))
    ensures |stages| == 0 && raised.None? ==> run == PipeStages
    ensures |stages| > 0 && raised.None? ==>
      |run| == |stages| && forall i :: 0 <= i < |stages| ==> Some(run[i]) == StageAt(stages[i])
    ensures ((forall i :: 0 <= i < |stages| ==> -2 <= stages[i] <= 3)
             && (forall before, s :: fails(before, s).None?)) ==> raised.None?
    ensures raised == Some(IndexError) && (forall before, s :: fails(before, s) != Some(IndexError)) ==>
      && |run| < |stages| && !(-2 <= stages[|run|] <= 3)
      && forall i :: 0 <= i < |run| ==> -2 <= stages[i] <= 3
  {
    var pipeStages := [GetData, PredictTimeseries, IngestToEs];
    var plan := Plan(stages);
    assert |stages| > 0 ==> |plan| == |stages| && forall i :: 0 <= i < |stages| ==> plan[i] == StageAt(stages[i]);
    run := [];
    if |stages| == 0 {
      for i := 0 to |pipeStages|
        invariant |run| == i && run == pipeStages[..i]
        invariant forall j :: 0 <= j < i ==> fails(run[..j], run[j]).None?
      {
        var e := fails(run, pipeStages[i]);
        ghost var before := run;
        run := run + [pipeStages[i]];
        assert run[..i] == before;
        forall j | 0 <= j < i ensures fails(run[..j], run[j]).None? {
          assert run[..j] == before[..j];
        }
        if e.Some? {
          return run, e;
        }
      }
    } else {
      for i := 0 to |stages|
        invariant |run| == i
        invariant forall j :: 0 <= j < i ==> plan[j] == Some(run[j])
        invariant forall j :: 0 <= j < i ==> fails(run[..j], run[j]).None?
      {
        var s := StageAt(stages[i]);
        if s.None? {
          return run, Some(IndexError);
        }
        var e := fails(run, s.value);
        ghost var before := run;
        run := run + [s.value];
        assert run[..i] == before;
        forall j | 0 <= j < i ensures fails(run[..j], run[j]).None? {
          assert run[..j] == before[..j];
        }
        if e.Some? {
          return run, e;
        }
      }
    }
    raised := None;
  }
}
