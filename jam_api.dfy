/**
 * The frontend's batched move dispatch (`moveCompaniesInBatches` and its
 * inner `chunkArray`). The HTTP client is replaced by a remote oracle that
 * answers each move call with success or failure.
 */
module JamApi {
  import opened Shared
  import opened Partition

  /** The batch size callers get when they pass none. */
  const DefaultBatchSize := 100

  /** One POST to `/collections/{source}/move` with its JSON body. */
  datatype MoveCall = MoveCall(source: CollectionId, destination: CollectionId, companyIds: seq<CompanyId>)

  /** The remote store: its reply to the `n`-th move call of one dispatch (counting from 0). */
  type Remote = (nat, MoveCall) -> Reply<string>

  /** What the promise of `moveCompaniesInBatches` settles to. */
  datatype Outcome = Resolved(data: Option<string>) | Rejected(error: string)

  /** `chunkArray`: push `array.slice(i, i + size)` for `i = 0, size, 2 * size, ...` while `i < array.length`. */
  method ChunkArray(ids: seq<CompanyId>, size: int) returns (result: seq<seq<CompanyId>>)
    requires size >= 1
    ensures result == Chunks(ids, size)
  {
    result := [];
    var i := 0;
    while i < |ids|
      invariant 0 <= i
      invariant result + Chunks(ids[Min(i, |ids|)..], size) == Chunks(ids, size)
    {
      ChunksFrom(ids, size, i);
      // `slice` clips its end index to the length of the array
      result := result + [ids[i..Min(i + size, |ids|)]];
      i := i + size;
    }
  }

  /** The id lists that are sent, in order: the whole list when it fits in one batch, its chunks otherwise. */
  function Plan(companyIds: seq<CompanyId>, batchSize: int): seq<seq<CompanyId>>
    requires batchSize >= 1
  {
    if |companyIds| <= batchSize then [companyIds] else Chunks(companyIds, batchSize)
  }

  /**
   * What one run of the dispatch did: `log` holds the calls issued, in order.
   * They are a non-empty prefix of the plan, every call before the last one
   * succeeded, the promise rejects exactly when the last call failed (with that
   * call's error), and it resolves only after the whole plan was sent, to the
   * reply body on the single-call path and to nothing on the batched path.
   */
  ghost predicate Dispatched(source: CollectionId, destination: CollectionId, companyIds: seq<CompanyId>,
                             batchSize: int, remote: Remote, log: seq<MoveCall>, outcome: Outcome)
    requires batchSize >= 1
  {
    var plan := Plan(companyIds, batchSize);
    && 1 <= |log| <= |plan|
    && (forall j :: 0 <= j < |log| ==> log[j] == MoveCall(source, destination, plan[j]))
    && (forall j :: 0 <= j < |log| - 1 ==> remote(j, log[j]).Ok?)
    && (outcome.Rejected? <==> remote(|log| - 1, log[|log| - 1]).Err?)
    && (outcome.Rejected? ==> outcome.error == remote(|log| - 1, log[|log| - 1]).error)
    && (outcome.Resolved? ==> |log| == |plan|)
    && (outcome.Resolved? ==>
          outcome.data == if |companyIds| <= batchSize then Some(remote(0, log[0]).data) else None)
  }

  /** `moveCompaniesInBatches`: one call for a short list, otherwise one call per chunk, in order, stopping at the first failure. */
  method MoveCompaniesInBatches(sourceId: CollectionId, destinationId: CollectionId, companyIds: seq<CompanyId>,
                                batchSize: int, remote: Remote)
    returns (outcome: Outcome, ghost log: seq<MoveCall>)
    requires batchSize >= 1
    ensures Dispatched(sourceId, destinationId, companyIds, batchSize, remote, log, outcome)
    ensures outcome.Rejected? <==>
              exists j :: 0 <= j < |Plan(companyIds, batchSize)|
                          && remote(j, MoveCall(sourceId, destinationId, Plan(companyIds, batchSize)[j])).Err?
    ensures outcome.Resolved? ==>
              outcome.data == if |companyIds| <= batchSize
                              then Some(remote(0, MoveCall(sourceId, destinationId, companyIds)).data)
                              else None
  {
    if |companyIds| <= batchSize {
      var call := MoveCall(sourceId, destinationId, companyIds);
      log := [call];
      var reply := remote(0, call);
      if reply.Err? {
        outcome := Rejected(reply.error);
      } else {
        outcome := Resolved(Some(reply.data));
      }
      return;
    }

    var batches := ChunkArray(companyIds, batchSize);
    log := [];
    var i := 0;
    while i < |batches|
      invariant 0 <= i <= |batches|
      invariant |log| == i
      invariant forall j :: 0 <= j < i ==> log[j] == MoveCall(sourceId, destinationId, batches[j])
      invariant forall j :: 0 <= j < i ==> remote(j, log[j]).Ok?
    {
      var call := MoveCall(sourceId, destinationId, batches[i]);
      log := log + [call];
      var reply := remote(i, call);
      if reply.Err? {
        outcome := Rejected(reply.error);
        return;
      }
      i := i + 1;
    }
    outcome := Resolved(None);
  }

  /** A list that fits in one batch is sent as exactly one call carrying the whole list. */
  lemma SmallListOneCall(sourceId: CollectionId, destinationId: CollectionId, companyIds: seq<CompanyId>,
                         batchSize: int, remote: Remote, log: seq<MoveCall>, outcome: Outcome)
    requires batchSize >= 1 && |companyIds| <= batchSize
    requires Dispatched(sourceId, destinationId, companyIds, batchSize, remote, log, outcome)
    ensures log == [MoveCall(sourceId, destinationId, companyIds)]
    ensures outcome == match remote(0, log[0])
                       case Ok(data) => Resolved(Some(data))
                       case Err(e) => Rejected(e)
  {
    assert |log| == 1;
  }

  /** The plan covers the list exactly, in order, with calls of at most `batchSize` ids; a long list gives ceil(n / batchSize) non-empty calls, all but the last full. */
  lemma PlanCovers(companyIds: seq<CompanyId>, batchSize: int)
    requires batchSize >= 1
    ensures Flatten(Plan(companyIds, batchSize)) == companyIds
    ensures forall j :: 0 <= j < |Plan(companyIds, batchSize)| ==> |Plan(companyIds, batchSize)[j]| <= batchSize
    ensures |companyIds| > batchSize ==>
              && |Plan(companyIds, batchSize)| == (|companyIds| + batchSize - 1) / batchSize
              && (forall j :: 0 <= j < |Plan(companyIds, batchSize)| ==> |Plan(companyIds, batchSize)[j]| >= 1)
              && (forall j :: 0 <= j < |Plan(companyIds, batchSize)| - 1 ==> |Plan(companyIds, batchSize)[j]| == batchSize)
  {
    if |companyIds| <= batchSize {
      assert Flatten([companyIds]) == companyIds + Flatten([]);
    } else {
      FlattenChunks(companyIds, batchSize);
      ChunkSizes(companyIds, batchSize);
      ChunkCount(companyIds, batchSize);
    }
  }

  /** If every call succeeds the whole plan is sent and the promise resolves. */
  lemma AllSucceed(sourceId: CollectionId, destinationId: CollectionId, companyIds: seq<CompanyId>,
                   batchSize: int, remote: Remote, log: seq<MoveCall>, outcome: Outcome)
    requires batchSize >= 1
    requires Dispatched(sourceId, destinationId, companyIds, batchSize, remote, log, outcome)
    requires forall j :: 0 <= j < |Plan(companyIds, batchSize)| ==>
               remote(j, MoveCall(sourceId, destinationId, Plan(companyIds, batchSize)[j])).Ok?
    ensures outcome.Resolved?
    ensures |log| == |Plan(companyIds, batchSize)|
    ensures |companyIds| > batchSize ==> |log| == (|companyIds| + batchSize - 1) / batchSize
  {
    var m := |log| - 1;
    assert log[m] == MoveCall(sourceId, destinationId, Plan(companyIds, batchSize)[m]);
    PlanCovers(companyIds, batchSize);
  }

  /**
   * If call `i` is the first to fail, calls `0..i` were issued and nothing after,
   * and the promise rejects with call `i`'s error; there is no rollback or retry.
   */
  lemma FirstFailureStops(sourceId: CollectionId, destinationId: CollectionId, companyIds: seq<CompanyId>,
                          batchSize: int, remote: Remote, log: seq<MoveCall>, outcome: Outcome, i: nat)
    requires batchSize >= 1
    requires Dispatched(sourceId, destinationId, companyIds, batchSize, remote, log, outcome)
    requires i < |Plan(companyIds, batchSize)|
    requires forall j :: 0 <= j < i ==>
               remote(j, MoveCall(sourceId, destinationId, Plan(companyIds, batchSize)[j])).Ok?
    requires remote(i, MoveCall(sourceId, destinationId, Plan(companyIds, batchSize)[i])).Err?
    ensures |log| == i + 1
    ensures outcome == Rejected(remote(i, MoveCall(sourceId, destinationId, Plan(companyIds, batchSize)[i])).error)
  {
    var plan := Plan(companyIds, batchSize);
    var m := |log| - 1;
    assert log[m] == MoveCall(sourceId, destinationId, plan[m]);
  }

  /** The id lists carried by a sequence of calls, in order. */
  function CallIds(calls: seq<MoveCall>): seq<seq<CompanyId>>
  {
    seq(|calls|, j requires 0 <= j < |calls| => calls[j].companyIds)
  }

  /**
   * After a rejected dispatch, the ids of the calls that succeeded followed by
   * the ids of the failed call and of every call never issued give back the
   * whole list: the succeeded ones are a prefix of it. Nothing is retried or
   * rolled back, since the log ends with the failed call.
   */
  lemma SentPrefix(sourceId: CollectionId, destinationId: CollectionId, companyIds: seq<CompanyId>,
                   batchSize: int, remote: Remote, log: seq<MoveCall>, outcome: Outcome)
    requires batchSize >= 1
    requires Dispatched(sourceId, destinationId, companyIds, batchSize, remote, log, outcome)
    requires outcome.Rejected?
    ensures forall j :: 0 <= j < |log| - 1 ==> remote(j, log[j]).Ok?
    ensures remote(|log| - 1, log[|log| - 1]).Err?
    ensures log[|log| - 1].companyIds == Plan(companyIds, batchSize)[|log| - 1]
    ensures Flatten(CallIds(log[..|log| - 1])) + Flatten(Plan(companyIds, batchSize)[|log| - 1..]) == companyIds
  {
    var plan := Plan(companyIds, batchSize);
    var k := |log| - 1;
    assert CallIds(log[..k]) == plan[..k];
    FlattenAppend(plan[..k], plan[k..]);
    assert plan[..k] + plan[k..] == plan;
    PlanCovers(companyIds, batchSize);
  }

  /** Five ids in batches of two are sent as [1, 2], [3, 4], [5]. */
  lemma FiveInPairs()
    ensures Plan([1, 2, 3, 4, 5], 2) == [[1, 2], [3, 4], [5]]
  {
    assert [5][..1] == [5] && [5][1..] == [];
    assert Chunks([5], 2) == [[5]];
    assert [3, 4, 5][..2] == [3, 4] && [3, 4, 5][2..] == [5];
    assert Chunks([3, 4, 5], 2) == [[3, 4]] + Chunks([5], 2);
    assert [1, 2, 3, 4, 5][..2] == [1, 2] && [1, 2, 3, 4, 5][2..] == [3, 4, 5];
    assert Chunks([1, 2, 3, 4, 5], 2) == [[1, 2]] + Chunks([3, 4, 5], 2);
  }

  /** When the second of three batches fails, exactly two calls were made and the dispatch rejects. */
  method SecondBatchFails(sourceId: CollectionId, destinationId: CollectionId)
  {
    var remote: Remote := (n: nat, call: MoveCall) => if n == 1 then Err("timeout") else Ok("moved");
    var outcome, log := MoveCompaniesInBatches(sourceId, destinationId, [1, 2, 3, 4, 5], 2, remote);
    FiveInPairs();
    FirstFailureStops(sourceId, destinationId, [1, 2, 3, 4, 5], 2, remote, log, outcome, 1);
    assert log == [MoveCall(sourceId, destinationId, [1, 2]), MoveCall(sourceId, destinationId, [3, 4])];
    assert outcome == Rejected("timeout");
  }
}
