/** Stage 3 of the predict pipeline ("ingest to ES"): each service's stage-2 document is
    indexed into `predict` under its directory's name, the service id stage 1 named it by. */
module PredictPublish {
  import opened PyBase
  import opened PredictForecast

  const DataDir: string := "output"
  const PredictIndex: string := "predict"

  /** Where the predict pipeline keeps an artifact of a service. */
  function ArtifactPath(serviceId: string, file: string): string
  {
    DataDir + "/" + serviceId + "/new_metrics/" + file
  }

  function Stage2Path(serviceId: string): string
  {
    ArtifactPath(serviceId, "stage-2.json")
  }

  /** One `client.index(id=..., index=..., document=...)` call. */
  datatype IndexRequest = IndexRequest(index: string, id: string, document: Forecast)

  /** The documents of an index once the calls are applied in order: a call for an id that
      is already stored replaces its document. */
  function Apply(store: map<(string, string), Forecast>, reqs: seq<IndexRequest>): (r: map<(string, string), Forecast>)
    ensures store.Keys <= r.Keys
    ensures forall i :: 0 <= i < |reqs| ==> (reqs[i].index, reqs[i].id) in r
  {
    if |reqs| == 0 then store
    else Apply(store, reqs[..|reqs| - 1])[(reqs[|reqs| - 1].index, reqs[|reqs| - 1].id) := reqs[|reqs| - 1].document]
  }

  /** A stored document is the one of the last call for its id, or the earlier one if no
      call names it. */
  lemma {:induction false} ApplyLookup(store: map<(string, string), Forecast>, reqs: seq<IndexRequest>,
                                       key: (string, string))
    ensures key in Apply(store, reqs) <==> key in store || exists i :: 0 <= i < |reqs| && (reqs[i].index, reqs[i].id) == key
    ensures forall i :: 0 <= i < |reqs| && (reqs[i].index, reqs[i].id) == key
              && (forall j :: i < j < |reqs| ==> (reqs[j].index, reqs[j].id) != key)
              ==> Apply(store, reqs)[key] == reqs[i].document
    ensures ((forall i :: 0 <= i < |reqs| ==> (reqs[i].index, reqs[i].id) != key) && key in store)
              ==> Apply(store, reqs)[key] == store[key]
  {
    if |reqs| > 0 {
      var n := |reqs| - 1;
      ApplyLookup(store, reqs[..n], key);
      if (exists i :: 0 <= i < |reqs| && (reqs[i].index, reqs[i].id) == key) && (reqs[n].index, reqs[n].id) != key {
        var i :| 0 <= i < |reqs| && (reqs[i].index, reqs[i].id) == key;
        assert reqs[..n][i] == reqs[i];
      }
      forall i | 0 <= i < |reqs| && (reqs[i].index, reqs[i].id) == key
                 && (forall j :: i < j < |reqs| ==> (reqs[j].index, reqs[j].id) != key)
        ensures Apply(store, reqs)[key] == reqs[i].document
      {
        if i < n {
          assert reqs[..n][i] == reqs[i];
          forall j | i < j < n ensures (reqs[..n][j].index, reqs[..n][j].id) != key {
            assert reqs[..n][j] == reqs[j];
          }
        }
      }
      if forall i :: 0 <= i < |reqs| ==> (reqs[i].index, reqs[i].id) != key {
        forall i | 0 <= i < n ensures (reqs[..n][i].index, reqs[..n][i].id) != key {
          assert reqs[..n][i] == reqs[i];
        }
      }
    }
  }

  /** Running stage 3 again indexes the same documents and leaves the index as it was. */
  lemma {:induction false} PublishIdempotent(store: map<(string, string), Forecast>, reqs: seq<IndexRequest>)
    ensures Apply(Apply(store, reqs), reqs) == Apply(store, reqs)
  {
    var once := Apply(store, reqs);
    var twice := Apply(once, reqs);
    forall key | key in twice || key in once ensures key in twice && key in once && twice[key] == once[key] {
      ApplyLookup(store, reqs, key);
      ApplyLookup(once, reqs, key);
      if exists i :: 0 <= i < |reqs| && (reqs[i].index, reqs[i].id) == key {
        var last := LastFor(reqs, key);
      }
    }
  }

  /** The last request for a key that some request names. */
  lemma LastFor(reqs: seq<IndexRequest>, key: (string, string)) returns (i: nat)
    requires exists i :: 0 <= i < |reqs| && (reqs[i].index, reqs[i].id) == key
    ensures i < |reqs| && (reqs[i].index, reqs[i].id) == key
    ensures forall j :: i < j < |reqs| ==> (reqs[j].index, reqs[j].id) != key
  {
    i := |reqs| - 1;
    while (reqs[i].index, reqs[i].id) != key
      invariant 0 <= i < |reqs|
      invariant exists k :: 0 <= k <= i && (reqs[k].index, reqs[k].id) == key
      invariant forall j :: i < j < |reqs| ==> (reqs[j].index, reqs[j].id) != key
      decreases i
    {
      i := i - 1;
    }
  }

  /** The loop of `stage_3` over the service directories. `files` maps each existing path
      to its parsed document (None where `json.load` rejects it), `connect` is what the
      `Elasticsearch(...)` constructor raises (the same arguments every pass), and
      `indexFails(before, req)` what `client.index` raises after the calls `before`. There
      is no `try`: the first exception stops the stage. `requests` are the calls that
      returned. */
  method Publish(dirs: seq<string>, files: map<string, Option<Forecast>>, connect: Option<Exception>,
                 indexFails: (seq<IndexRequest>, IndexRequest) -> Option<Exception>)
    returns (requests: seq<IndexRequest>, raised: Option<Exception>)
    ensures |requests| <= |dirs|
    ensures forall i :: 0 <= i < |requests| ==>
      && Stage2Path(dirs[i]) in files && files[Stage2Path(dirs[i])].Some?
      && requests[i] == IndexRequest(PredictIndex, dirs[i], files[Stage2Path(dirs[i])].value)
    ensures forall i :: 0 <= i < |requests| ==> indexFails(requests[..i], requests[i]).None?
    ensures |requests| > 0 ==> connect.None?
    ensures raised.None? <==> |requests| == |dirs|
    ensures raised.Some? ==> var path := Stage2Path(dirs[|requests|]);
      if path !in files then raised.value == FileNotFoundError(path)
      else if files[path].None? then raised.value == ValueError
      else if connect.Some? then raised == connect
      else raised == indexFails(requests, IndexRequest(PredictIndex, dirs[|requests|], files[path].value))
  {
    requests := [];
    for i := 0 to |dirs|
      invariant |requests| == i
      invariant forall j :: 0 <= j < i ==>
        && Stage2Path(dirs[j]) in files && files[Stage2Path(dirs[j])].Some?
        && requests[j] == IndexRequest(PredictIndex, dirs[j], files[Stage2Path(dirs[j])].value)
      invariant forall j :: 0 <= j < i ==> indexFails(requests[..j], requests[j]).None?
      invariant i > 0 ==> connect.None?
    {
      var path := DataDir + "/" + dirs[i] + "/new_metrics/stage-2.json";
      assert path == Stage2Path(dirs[i]);
      if path !in files {
        return requests, Some(FileNotFoundError(path));
      }
      var data := files[path];
      if data.None? {
        return requests, Some(ValueError);
      }
      if connect.Some? {
        return requests, connect;
      }
      var request := IndexRequest(PredictIndex, dirs[i], data.value);
      var failure := indexFails(requests, request);
      if failure.Some? {
        return requests, failure;
      }
      ghost var before := requests;
      requests := requests + [request];
      assert requests[..i] == before;
      forall j | 0 <= j < i ensures indexFails(requests[..j], requests[j]).None? {
        assert requests[..j] == before[..j];
      }
    }
    raised := None;
  }

  /** After a complete stage 3 over distinct directories, the `predict` index holds each
      directory's stage-2 document under the directory's name. */
  lemma PublishedDocuments(store: map<(string, string), Forecast>, dirs: seq<string>,
                           files: map<string, Option<Forecast>>, requests: seq<IndexRequest>, k: nat)
    requires |requests| == |dirs| && k < |dirs|
    requires forall i, j :: 0 <= i < j < |dirs| ==> dirs[i] != dirs[j]
    requires forall i :: 0 <= i < |requests| ==>
      && Stage2Path(dirs[i]) in files && files[Stage2Path(dirs[i])].Some?
      && requests[i] == IndexRequest(PredictIndex, dirs[i], files[Stage2Path(dirs[i])].value)
    ensures (PredictIndex, dirs[k]) in Apply(store, requests)
    ensures Apply(store, requests)[(PredictIndex, dirs[k])] == files[Stage2Path(dirs[k])].value
  {
    ApplyLookup(store, requests, (PredictIndex, dirs[k]));
  }
}
