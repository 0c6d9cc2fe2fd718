/** The gateway side: splitting a request into children and reassembling their results. */
module BatchingClient {
  import opened QueueModels
  import opened RedisKeys
  import opened RedisQueue

  /** A request that create_embeddings hands to the batching client. */
  datatype Request = Request(
    id: string,
    gateway: string,
    lane: Lane,
    inputs: seq<string>,
    tokenCounts: seq<nat>,
    createdMs: int)

  datatype GatewayError =
    | LengthsDiffer
    | ShuttingDown
    | TimedOut(lane: Lane)
    | WorkerFailed(status: int, detail: string)
    | NoEmbedding(lane: Lane)
    | MissingIndexes(lane: Lane, indexes: seq<nat>)
    | ClientStopped(requestId: string)
    | Interrupted(message: string)

  function ChildId(req: Request, i: nat): string {
    ChildRequestId(req.id, |req.inputs|, i)
  }

  /** The work item of the i-th child. */
  function ChildItem(req: Request, i: nat, timeoutMs: int): WorkItem
    requires i < |req.inputs| == |req.tokenCounts|
  {
    WorkItem(
      ChildId(req, i), req.id, i, |req.inputs|, req.gateway, req.inputs[i], req.tokenCounts[i],
      req.createdMs, req.createdMs + timeoutMs)
  }

  /** The work items of the first n children, in input order. */
  function Children(req: Request, timeoutMs: int, n: nat): (r: seq<WorkItem>)
    requires n <= |req.inputs| == |req.tokenCounts|
    ensures |r| == n
  {
    if n == 0 then [] else Children(req, timeoutMs, n - 1) + [ChildItem(req, n - 1, timeoutMs)]
  }

  /** Every work item says whose it is, what to compute, for whom, since when and until when. */
  lemma {:induction false} ChildrenCarryTheRequest(req: Request, timeoutMs: int, n: nat, k: nat)
    requires k < n <= |req.inputs| == |req.tokenCounts|
    ensures
      var item := Children(req, timeoutMs, n)[k];
      && item.requestId == (if |req.inputs| == 1 then req.id else req.id + ":" + Decimal(k))
      && item.parentRequestId == req.id && item.inputIndex == k && item.inputCount == |req.inputs|
      && item.replyTo == req.gateway && item.inputText == req.inputs[k] && item.tokenCount == req.tokenCounts[k]
      && item.createdAtMs == req.createdMs && item.deadlineMs == req.createdMs + timeoutMs
  {
    if k < n - 1 {
      ChildrenCarryTheRequest(req, timeoutMs, n - 1, k);
    }
  }

  /** Python's `value or default` for optional integers and strings: zero and the empty string are falsy. */
  function IntOr(value: Option<int>, default: int): int {
    if value.None? || value.value == 0 then default else value.value
  }

  function TextOr(value: Option<string>, default: string): string {
    if value.None? || value.value == "" then default else value.value
  }

  /** The error that one gathered result raises, if any. */
  function ErrorOf(lane: Lane, r: ResultItem): Option<GatewayError> {
    if !r.ok then
      Some(WorkerFailed(
        IntOr(r.statusCode, 502),
        TextOr(r.error, "Batched " + LaneName(lane) + " embedding worker failed")))
    else if r.embedding.None? then Some(NoEmbedding(lane))
    else None
  }

  /** A gathered result that makes the call raise. */
  predicate IsBad(r: ResultItem) {
    !r.ok || r.embedding == None
  }

  /** The result's own status counts unless it is missing or zero. */
  predicate IsStatusOf(r: ResultItem, status: int) {
    match r.statusCode
    case Some(own) => status == if own != 0 then own else 502
    case None => status == 502
  }

  /** The result's own text counts unless it is missing or empty. */
  predicate IsDetailOf(lane: Lane, r: ResultItem, detail: string) {
    var own := r.error.Some? && r.error.value != "";
    && (own ==> detail == r.error.value)
    && (!own && lane == Query ==> detail == "Batched " + "query" + " embedding worker failed")
    && (!own && lane == Document ==> detail == "Batched " + "document" + " embedding worker failed")
  }

  /** What the call raises for a bad result. */
  predicate IsErrorOf(lane: Lane, r: ResultItem, e: GatewayError) {
    match e
    case WorkerFailed(status, detail) => !r.ok && IsStatusOf(r, status) && IsDetailOf(lane, r, detail)
    case NoEmbedding(l) => r.ok && r.embedding == None && l == lane
    case _ => false
  }

  lemma ErrorOfExactly(lane: Lane, r: ResultItem)
    ensures ErrorOf(lane, r).Some? <==> IsBad(r)
    ensures ErrorOf(lane, r).Some? ==> IsErrorOf(lane, r, ErrorOf(lane, r).value)
  {
  }

  function FirstError(lane: Lane, results: seq<ResultItem>): Option<GatewayError> {
    if results == [] then None
    else if ErrorOf(lane, results[0]).Some? then ErrorOf(lane, results[0])
    else FirstError(lane, results[1..])
  }

  /** The dictionary from input index to result; a later result replaces an earlier one. */
  function ByIndex(results: seq<ResultItem>): map<nat, ResultItem> {
    if results == [] then map[]
    else ByIndex(results[..|results| - 1])[results[|results| - 1].inputIndex := results[|results| - 1]]
  }

  function Missing(byIndex: map<nat, ResultItem>, n: nat): seq<nat> {
    if n == 0 then []
    else Missing(byIndex, n - 1) + if n - 1 in byIndex then [] else [n - 1]
  }

  lemma {:induction false} NothingMissing(byIndex: map<nat, ResultItem>, n: nat)
    ensures Missing(byIndex, n) == [] <==> forall i: nat | i < n :: i in byIndex
  {
    if n != 0 {
      NothingMissing(byIndex, n - 1);
    }
  }

  /** The missing indexes, exactly, in ascending order. */
  lemma {:induction false} MissingExactly(byIndex: map<nat, ResultItem>, n: nat)
    ensures forall i: nat :: i in Missing(byIndex, n) <==> i < n && i !in byIndex
    ensures forall a, b | 0 <= a < b < |Missing(byIndex, n)| :: Missing(byIndex, n)[a] < Missing(byIndex, n)[b]
  {
    if n != 0 {
      MissingExactly(byIndex, n - 1);
      var before := Missing(byIndex, n - 1);
      forall a | 0 <= a < |before| ensures before[a] < n - 1 {
        assert before[a] in before;
      }
    }
  }

  function Ordered(byIndex: map<nat, ResultItem>, n: nat): (r: seq<ResultItem>)
    requires forall i: nat | i < n :: i in byIndex
    ensures |r| == n && forall i | 0 <= i < n :: r[i] == byIndex[i]
  {
    seq(n, i requires 0 <= i < n => byIndex[i])
  }

  /** What becomes of the gathered results, given in input order. */
  function Reassemble(lane: Lane, n: nat, results: seq<ResultItem>): Result<seq<ResultItem>, GatewayError> {
    match FirstError(lane, results)
    case Some(e) => Failure(e)
    case None =>
      var byIndex := ByIndex(results);
      if Missing(byIndex, n) != [] then Failure(MissingIndexes(lane, Missing(byIndex, n)))
      else
        NothingMissing(byIndex, n);
        Success(Ordered(byIndex, n))
  }

  lemma {:induction false} NoErrorMeansAnswered(lane: Lane, results: seq<ResultItem>)
    ensures FirstError(lane, results) == None <==> forall r | r in results :: r.ok && r.embedding.Some?
  {
    if results != [] {
      NoErrorMeansAnswered(lane, results[1..]);
      assert results == [results[0]] + results[1..];
    }
  }

  ghost predicate AnswersIndex(results: seq<ResultItem>, i: nat) {
    exists r :: r in results && r.inputIndex == i
  }

  lemma {:induction false} ByIndexRange(results: seq<ResultItem>, i: nat)
    ensures i in ByIndex(results) <==> AnswersIndex(results, i)
    ensures i in ByIndex(results) ==> ByIndex(results)[i] in results && ByIndex(results)[i].inputIndex == i
  {
    if results != [] {
      var front, last := results[..|results| - 1], results[|results| - 1];
      assert results == front + [last];
      ByIndexRange(front, i);
      if i == last.inputIndex {
        assert last in results;
      }
    }
  }

  /**
   * Reassembly, exactly: it succeeds just when every result carries an embedding and every input index was answered,
   * and position i of what it returns is then a gathered result for index i.
   */
  lemma ReassembleExact(lane: Lane, n: nat, results: seq<ResultItem>)
    ensures
      Reassemble(lane, n, results).Success? <==>
      && (forall r | r in results :: r.ok && r.embedding.Some?)
      && (forall i: nat | i < n :: AnswersIndex(results, i))
    ensures Reassemble(lane, n, results).Success? ==>
      var ordered := Reassemble(lane, n, results).value;
      && |ordered| == n
      && forall i | 0 <= i < n ::
        ordered[i] in results && ordered[i].inputIndex == i && ordered[i].ok && ordered[i].embedding.Some?
  {
    NoErrorMeansAnswered(lane, results);
    NothingMissing(ByIndex(results), n);
    forall i: nat | i < n
      ensures i in ByIndex(results) <==> AnswersIndex(results, i)
      ensures i in ByIndex(results) ==> ByIndex(results)[i] in results && ByIndex(results)[i].inputIndex == i
    {
      ByIndexRange(results, i);
    }
  }

  /** Results k is the last one for its index. */
  predicate IsLastAnswer(results: seq<ResultItem>, k: nat) {
    k < |results| && forall l | k < l < |results| :: results[l].inputIndex != results[k].inputIndex
  }

  lemma {:induction false} LastAnswerCounts(results: seq<ResultItem>, k: nat)
    requires IsLastAnswer(results, k)
    ensures results[k].inputIndex in ByIndex(results) && ByIndex(results)[results[k].inputIndex] == results[k]
  {
    var front := results[..|results| - 1];
    if k < |front| {
      assert front[k] == results[k] && results[|results| - 1].inputIndex != results[k].inputIndex;
      assert forall l | k < l < |front| :: front[l] == results[l];
      LastAnswerCounts(front, k);
    }
  }

  /** The first bad result decides the error. */
  lemma FirstBadResultIsRaised(lane: Lane, n: nat, results: seq<ResultItem>, k: nat)
    requires k < |results| && IsBad(results[k]) && forall j | 0 <= j < k :: !IsBad(results[j])
    ensures Reassemble(lane, n, results).Failure? && IsErrorOf(lane, results[k], Reassemble(lane, n, results).error)
  {
    ErrorOfExactly(lane, results[k]);
    forall j | 0 <= j < k ensures ErrorOf(lane, results[j]) == None {
      ErrorOfExactly(lane, results[j]);
    }
    LowestFailureWins(lane, results, k);
  }

  /** Without a bad result, the unanswered indexes decide; without those, the last answer for each index is returned. */
  lemma GoodResultsAreReturned(lane: Lane, n: nat, results: seq<ResultItem>)
    requires forall r | r in results :: !IsBad(r)
    ensures
      match Reassemble(lane, n, results)
      case Failure(e) =>
        && e.MissingIndexes? && e.lane == lane && e.indexes != []
        && (forall i: nat :: i in e.indexes <==> i < n && !AnswersIndex(results, i))
        && (forall a, b | 0 <= a < b < |e.indexes| :: e.indexes[a] < e.indexes[b])
      case Success(ordered) =>
        && |ordered| == n && (forall i: nat | i < n :: AnswersIndex(results, i))
        && forall k: nat | IsLastAnswer(results, k) && results[k].inputIndex < n ::
          ordered[results[k].inputIndex] == results[k]
  {
    NoErrorMeansAnswered(lane, results);
    ReassembleExact(lane, n, results);
    MissingExactly(ByIndex(results), n);
    forall i: nat ensures i in ByIndex(results) <==> AnswersIndex(results, i) {
      ByIndexRange(results, i);
    }
    forall k: nat | IsLastAnswer(results, k)
      ensures results[k].inputIndex in ByIndex(results) && ByIndex(results)[results[k].inputIndex] == results[k]
    {
      LastAnswerCounts(results, k);
    }
  }

  /** One result per input, gathered in input order. */
  ghost predicate InInputOrder(results: seq<ResultItem>, n: nat) {
    |results| == n && forall i | 0 <= i < n :: results[i].inputIndex == i
  }

  lemma {:induction false} LowestFailureWins(lane: Lane, results: seq<ResultItem>, i: nat)
    requires i < |results|
    requires ErrorOf(lane, results[i]).Some? && forall j | 0 <= j < i :: ErrorOf(lane, results[j]) == None
    ensures FirstError(lane, results) == ErrorOf(lane, results[i])
  {
    if i != 0 {
      LowestFailureWins(lane, results[1..], i - 1);
    }
  }

  /**
   * With one result per input, in input order, no index is ever missing: the call returns exactly the gathered
   * results, or raises the error of the failing child with the lowest input index.
   */
  lemma ReassembleInOrder(lane: Lane, n: nat, results: seq<ResultItem>)
    requires InInputOrder(results, n)
    ensures
      match Reassemble(lane, n, results)
      case Success(ordered) => ordered == results && forall i | 0 <= i < n :: !IsBad(results[i])
      case Failure(e) =>
        exists i :: 0 <= i < n && IsBad(results[i]) && IsErrorOf(lane, results[i], e)
          && forall j | 0 <= j < i :: !IsBad(results[j])
  {
    forall i | 0 <= i < n ensures ErrorOf(lane, results[i]).Some? <==> IsBad(results[i]) {
      ErrorOfExactly(lane, results[i]);
    }
    ReassembleExact(lane, n, results);
    if exists i :: 0 <= i < n && ErrorOf(lane, results[i]).Some? {
      var i := FirstFailing(lane, results);
      FirstBadResultIsRaised(lane, n, results, i);
    } else {
      forall r | r in results ensures r.ok && r.embedding.Some? {
        var i :| 0 <= i < n && results[i] == r;
        assert ErrorOf(lane, results[i]).None?;
      }
      forall i: nat | i < n ensures AnswersIndex(results, i) {
        assert results[i] in results;
      }
      var ordered := Reassemble(lane, n, results).value;
      forall i | 0 <= i < n ensures ordered[i] == results[i] {
        var j :| 0 <= j < n && results[j] == ordered[i];
      }
    }
  }

  lemma {:induction false} FirstFailing(lane: Lane, results: seq<ResultItem>) returns (i: nat)
    requires exists k :: 0 <= k < |results| && ErrorOf(lane, results[k]).Some?
    ensures i < |results| && ErrorOf(lane, results[i]).Some?
    ensures forall j | 0 <= j < i :: ErrorOf(lane, results[j]) == None
  {
    if ErrorOf(lane, results[0]).Some? {
      i := 0;
    } else {
      var k :| 0 <= k < |results| && ErrorOf(lane, results[k]).Some?;
      assert results[1..][k - 1] == results[k];
      var i' := FirstFailing(lane, results[1..]);
      i := i' + 1;
      forall j | 0 <= j < i ensures ErrorOf(lane, results[j]) == None {
        if j != 0 {
          assert results[1..][j - 1] == results[j];
        }
      }
    }
  }

  predicate Carries(results: seq<ResultItem>) {
    forall i | 0 <= i < |results| :: results[i].embedding.Some?
  }

  /** The public rows: embed_query and embed_documents number the reassembled results themselves. */
  function ToData(results: seq<ResultItem>): (r: seq<EmbeddingData>)
    requires Carries(results)
    ensures |r| == |results|
    ensures forall i | 0 <= i < |r| :: r[i] == EmbeddingData(results[i].embedding.value, i)
  {
    seq(|results|, i requires 0 <= i < |results| => EmbeddingData(results[i].embedding.value, i))
  }

  // The client.

  /** An asyncio future as the client uses it: waiting, resolved by a result, or failed by stop. */
  datatype FutureState = Waiting | Done(result: ResultItem) | Stopped

  predicate AllDone(futures: seq<FutureState>) {
    forall i | 0 <= i < |futures| :: futures[i].Done?
  }

  /** What asyncio.gather returns. */
  function Gathered(futures: seq<FutureState>): (r: seq<ResultItem>)
    requires AllDone(futures)
    ensures |r| == |futures|
    ensures forall i | 0 <= i < |r| :: r[i] == futures[i].result
  {
    seq(|futures|, i requires 0 <= i < |futures| => futures[i].result)
  }

  datatype Outcome = Answered(data: seq<EmbeddingData>) | Raised(error: GatewayError)

  function Concluded(req: Request, results: seq<ResultItem>): Outcome {
    match Reassemble(req.lane, |req.inputs|, results)
    case Failure(e) => Raised(e)
    case Success(ordered) =>
      ReassembleExact(req.lane, |req.inputs|, results);
      Answered(ToData(ordered))
  }

  /** Fills the dictionary, or stops at the first result that is an error. */
  method CollectByIndex(lane: Lane, results: seq<ResultItem>) returns (r: Result<map<nat, ResultItem>, GatewayError>)
    ensures
      match FirstError(lane, results)
      case Some(e) => r == Failure(e)
      case None => r == Success(ByIndex(results))
  {
    var resultsByIndex: map<nat, ResultItem> := map[];
    for i := 0 to |results|
      invariant resultsByIndex == ByIndex(results[..i])
      invariant FirstError(lane, results) == FirstError(lane, results[i..])
    {
      var result := results[i];
      var error := ErrorOf(lane, result);
      assert results[i..][1..] == results[i + 1..];
      if error.Some? {
        return Failure(error.value);
      }
      assert results[..i + 1][..i] == results[..i];
      resultsByIndex := resultsByIndex[result.inputIndex := result];
    }
    assert results[..|results|] == results;
    return Success(resultsByIndex);
  }

  method FindMissing(byIndex: map<nat, ResultItem>, n: nat) returns (missing: seq<nat>)
    ensures missing == Missing(byIndex, n)
    ensures missing == [] ==> forall i: nat | i < n :: i in byIndex
  {
    missing := [];
    for index := 0 to n
      invariant missing == Missing(byIndex, index)
    {
      if index !in byIndex {
        missing := missing + [index];
      }
    }
    NothingMissing(byIndex, n);
  }

  method TakeInOrder(byIndex: map<nat, ResultItem>, n: nat) returns (ordered: seq<ResultItem>)
    requires forall i: nat | i < n :: i in byIndex
    ensures ordered == Ordered(byIndex, n)
  {
    ordered := [];
    for index := 0 to n
      invariant |ordered| == index && forall k | 0 <= k < index :: ordered[k] == byIndex[k]
    {
      ordered := ordered + [byIndex[index]];
    }
  }

  method ReassembleResults(lane: Lane, n: nat, results: seq<ResultItem>)
    returns (r: Result<seq<ResultItem>, GatewayError>)
    ensures r == Reassemble(lane, n, results)
    ensures forall k | 0 <= k < |results| && IsBad(results[k]) && (forall j | 0 <= j < k :: !IsBad(results[j])) ::
      r.Failure? && IsErrorOf(lane, results[k], r.error)
    ensures (forall k | 0 <= k < |results| :: !IsBad(results[k])) && (forall i: nat | i < n :: AnswersIndex(results, i))
      ==> r.Success?
  {
    forall k | 0 <= k < |results| && IsBad(results[k]) && (forall j | 0 <= j < k :: !IsBad(results[j]))
      ensures Reassemble(lane, n, results).Failure?
      ensures IsErrorOf(lane, results[k], Reassemble(lane, n, results).error)
    {
      FirstBadResultIsRaised(lane, n, results, k);
    }
    ReassembleExact(lane, n, results);
    var collected := CollectByIndex(lane, results);
    if collected.Failure? {
      return Failure(collected.error);
    }
    var resultsByIndex := collected.value;
    var missing := FindMissing(resultsByIndex, n);
    if missing != [] {
      return Failure(MissingIndexes(lane, missing));
    }
    var ordered := TakeInOrder(resultsByIndex, n);
    return Success(ordered);
  }

  class Future {
    var state: FutureState

    constructor ()
      ensures state == Waiting
    {
      state := Waiting;
    }
  }

  ghost function States(futures: seq<Future>): (r: seq<FutureState>)
    reads futures
    ensures |r| == |futures| && forall i | 0 <= i < |r| :: r[i] == futures[i].state
  {
    seq(|futures|, i requires 0 <= i < |futures| reads futures => futures[i].state)
  }

  /** Gathering futures that have all been resolved. */
  method Gather(futures: seq<Future>) returns (results: seq<ResultItem>)
    requires AllDone(States(futures))
    ensures results == Gathered(States(futures))
  {
    assert forall i | 0 <= i < |futures| :: States(futures)[i].Done?;
    results := seq(|futures|, i requires 0 <= i < |futures| && futures[i].state.Done? reads futures =>
      futures[i].state.result);
  }

  /** What follows once all results are in. */
  method ConcludeCall(req: Request, results: seq<ResultItem>) returns (outcome: Outcome)
    ensures outcome == Concluded(req, results)
  {
    var ordered := ReassembleResults(req.lane, |req.inputs|, results);
    if ordered.Failure? {
      return Raised(ordered.error);
    }
    ReassembleExact(req.lane, |req.inputs|, results);
    return Answered(ToData(ordered.value));
  }

  /** Which future gather raises for, if any. */
  method FirstStopped(futures: seq<Future>) returns (i: nat)
    ensures i <= |futures| && forall j | 0 <= j < i :: !futures[j].state.Stopped?
    ensures i < |futures| ==> futures[i].state.Stopped?
  {
    i := 0;
    while i < |futures| && !futures[i].state.Stopped?
      invariant i <= |futures| && forall j | 0 <= j < i :: !futures[j].state.Stopped?
    {
      i := i + 1;
    }
  }

  /** The children of a request have ids of their own. */
  predicate DistinctChildren(req: Request) {
    forall i, j | 0 <= i < j < |req.inputs| :: ChildId(req, i) != ChildId(req, j)
  }

  lemma ChildrenAreDistinct(req: Request)
    requires ColonFree(req.id)
    ensures DistinctChildren(req)
  {
    forall i, j | 0 <= i < j < |req.inputs| ensures ChildId(req, i) != ChildId(req, j) {
      if ChildId(req, i) == ChildId(req, j) {
        ChildIdsInjective(req.id, |req.inputs|, i, req.id, |req.inputs|, j);
      }
    }
  }

  /** The ids of the first n children. */
  function ChildIds(req: Request, n: nat): set<string> {
    set i: nat | i < n :: ChildId(req, i)
  }

  class GatewayBatchingClient {
    const gatewayId: string
    const queue: RedisBatchQueue
    var pending: map<string, Future>
    var closed: bool

    constructor (gatewayId: string, queue: RedisBatchQueue)
      ensures this.gatewayId == gatewayId && this.queue == queue && pending == map[] && !closed
    {
      this.gatewayId, this.queue := gatewayId, queue;
      pending, closed := map[], false;
    }

    /** No two ids share a future. */
    ghost predicate Valid()
      reads this`pending
    {
      forall a, b | a in pending && b in pending && pending[a] == pending[b] :: a == b
    }

    /** One turn of the loop over the children: a fresh future goes into the dictionary, then the item to Redis. */
    method EnqueueChild(req: Request, index: nat, model: string, timeoutMs: int) returns (future: Future)
      requires Valid() && index < |req.inputs| == |req.tokenCounts| && ChildId(req, index) !in pending
      modifies this`pending, queue`work
      ensures Valid() && fresh(future) && future.state == Waiting
      ensures pending == old(pending)[ChildId(req, index) := future]
      ensures
        var key := WorkQueueKey(queue.keyPrefix, model, req.lane);
        queue.work == old(queue.work)[key := ListAt(old(queue.work), key) + [Work(ChildItem(req, index, timeoutMs))]]
    {
      future := new Future();
      pending := pending[ChildId(req, index) := future];
      queue.EnqueueEmbeddingWork(model, req.lane, ChildItem(req, index, timeoutMs));
    }

    /** Under the ids of the first n children stand their futures; everything else stands as it did before. */
    ghost predicate Registered(before: map<string, Future>, req: Request, futures: seq<Future>)
      reads this`pending
    {
      && pending.Keys == before.Keys + ChildIds(req, |futures|)
      && (forall id | id in before :: id in pending && pending[id] == before[id])
      && (forall i | 0 <= i < |futures| :: ChildId(req, i) in pending && pending[ChildId(req, i)] == futures[i])
    }

    lemma RegisteredNext(
      before: map<string, Future>, after: map<string, Future>, req: Request, futures: seq<Future>, future: Future)
      requires DistinctChildren(req) && |futures| < |req.inputs|
      requires ChildIds(req, |req.inputs|) !! before.Keys
      requires after.Keys == before.Keys + ChildIds(req, |futures|)
      requires forall id | id in before :: id in after && after[id] == before[id]
      requires forall i | 0 <= i < |futures| :: ChildId(req, i) in after && after[ChildId(req, i)] == futures[i]
      requires pending == after[ChildId(req, |futures|) := future]
      ensures Registered(before, req, futures + [future])
    {
      var n := |futures|;
      assert ChildIds(req, n + 1) == ChildIds(req, n) + {ChildId(req, n)};
      assert ChildId(req, n) in ChildIds(req, |req.inputs|);
    }

    /**
     * The length check of embed_documents and the first half of _enqueue_and_wait_for_children: one fresh future and
     * one pushed work item per child, in input order. A refused request leaves everything as it was.
     */
    method EnqueueChildren(req: Request, model: string, timeoutMs: int) returns (r: Result<seq<Future>, GatewayError>)
      requires Valid() && req.gateway == gatewayId && ColonFree(req.id)
      requires ChildIds(req, |req.inputs|) !! pending.Keys
      modifies this`pending, queue`work
      ensures Valid() && (r.Failure? <==> |req.inputs| != |req.tokenCounts| || closed)
      ensures r.Failure? ==>
        && r.error == (if |req.inputs| != |req.tokenCounts| then LengthsDiffer else ShuttingDown)
        && pending == old(pending)
        && queue.WorkQueue(model, req.lane) == old(queue.WorkQueue(model, req.lane))
      ensures r.Success? ==>
        && |r.value| == |req.inputs|
        && (forall f | f in r.value :: fresh(f) && f.state == Waiting)
        && Registered(old(pending), req, r.value)
        && queue.WorkQueue(model, req.lane)
           == old(queue.WorkQueue(model, req.lane)) + AsEntries(Children(req, timeoutMs, |req.inputs|))
      ensures forall m, l | m != model || l != req.lane :: queue.WorkQueue(m, l) == old(queue.WorkQueue(m, l))
    {
      if |req.inputs| != |req.tokenCounts| {
        return Failure(LengthsDiffer);
      }
      if closed {
        return Failure(ShuttingDown);
      }
      queue.OtherLanesHaveOtherKeys(model, req.lane);
      var futures := EnqueueAll(req, model, timeoutMs);
      return Success(futures);
    }

    /** The loop over the children. */
    method EnqueueAll(req: Request, model: string, timeoutMs: int) returns (futures: seq<Future>)
      requires Valid() && ColonFree(req.id) && |req.inputs| == |req.tokenCounts|
      requires ChildIds(req, |req.inputs|) !! pending.Keys
      modifies this`pending, queue`work
      ensures Valid() && |futures| == |req.inputs|
      ensures forall f | f in futures :: fresh(f) && f.state == Waiting
      ensures Registered(old(pending), req, futures)
      ensures Enqueued(old(queue.work), req, model, timeoutMs, |req.inputs|)
    {
      ChildrenAreDistinct(req);
      futures := [];
      NothingYet(req, model, timeoutMs);
      for index := 0 to |req.inputs|
        invariant Valid() && |futures| == index
        invariant Registered(old(pending), req, futures)
        invariant Enqueued(old(queue.work), req, model, timeoutMs, index)
        invariant forall f | f in futures :: fresh(f) && f.state == Waiting
      {
        var future := EnqueueNext(old(pending), old(queue.work), req, futures, model, timeoutMs);
        futures := futures + [future];
      }
    }

    lemma NothingYet(req: Request, model: string, timeoutMs: int)
      requires |req.inputs| == |req.tokenCounts|
      ensures Registered(pending, req, []) && Enqueued(queue.work, req, model, timeoutMs, 0)
    {
      assert ChildIds(req, 0) == {};
      assert AsEntries(Children(req, timeoutMs, 0)) == [];
    }

    /** The lane holds the first n children behind what it held before; no other list has changed. */
    ghost predicate Enqueued(before: map<string, seq<Entry>>, req: Request, model: string, timeoutMs: int, n: nat)
      requires n <= |req.inputs| == |req.tokenCounts|
      reads queue`work
    {
      queue.work
      == Appended(before, WorkQueueKey(queue.keyPrefix, model, req.lane), AsEntries(Children(req, timeoutMs, n)))
    }

    /** One turn of the loop, told in terms of what the loop has done so far. */
    method EnqueueNext(
      ghost pendingBefore: map<string, Future>, ghost workBefore: map<string, seq<Entry>>,
      req: Request, futures: seq<Future>, model: string, timeoutMs: int)
      returns (future: Future)
      requires Valid() && DistinctChildren(req) && |futures| < |req.inputs| == |req.tokenCounts|
      requires ChildIds(req, |req.inputs|) !! pendingBefore.Keys && Registered(pendingBefore, req, futures)
      requires Enqueued(workBefore, req, model, timeoutMs, |futures|)
      modifies this`pending, queue`work
      ensures Valid() && fresh(future) && future.state == Waiting
      ensures Registered(pendingBefore, req, futures + [future])
      ensures Enqueued(workBefore, req, model, timeoutMs, |futures| + 1)
    {
      ghost var mid, n := pending, |futures|;
      NextChildIsNew(pendingBefore, req, futures);
      future := EnqueueChild(req, |futures|, model, timeoutMs);
      RegisteredNext(pendingBefore, mid, req, futures, future);
      AppendedNext(workBefore, WorkQueueKey(queue.keyPrefix, model, req.lane),
                   Children(req, timeoutMs, n), ChildItem(req, n, timeoutMs));
    }

    lemma NextChildIsNew(before: map<string, Future>, req: Request, futures: seq<Future>)
      requires DistinctChildren(req) && |futures| < |req.inputs|
      requires ChildIds(req, |req.inputs|) !! before.Keys && Registered(before, req, futures)
      ensures ChildId(req, |futures|) !in pending
    {
      assert ChildId(req, |futures|) in ChildIds(req, |req.inputs|);
    }

    /**
     * One turn of the listener: it pops the head of this gateway's result queue and resolves the future pending under
     * the result's id, unless there is none or it is done already.
     */
    method ListenOnce() returns (delivered: Option<ResultItem>)
      requires Valid()
      modifies queue`results, pending.Values
      ensures
        var q := old(queue.ResultQueue(gatewayId));
        queue.ResultQueue(gatewayId) == (if q == [] then [] else q[1..])
      ensures forall g | g != gatewayId :: queue.ResultQueue(g) == old(queue.ResultQueue(g))
      ensures
        var q := old(queue.ResultQueue(gatewayId));
        if q != [] && q[0].requestId in pending && old(pending[q[0].requestId].state).Waiting? then
          && delivered == Some(q[0])
          && forall id | id in pending ::
            pending[id].state == if id == q[0].requestId then Done(q[0]) else old(pending[id].state)
        else
          delivered == None && forall id | id in pending :: pending[id].state == old(pending[id].state)
    {
      delivered := None;
      var result := queue.BlpopEmbeddingResult(gatewayId);
      if result == None {
        return;
      }
      if result.value.requestId !in pending {
        return;
      }
      var future := pending[result.value.requestId];
      if future.state.Waiting? {
        future.state := Done(result.value);
        delivered := result;
      }
    }

    /**
     * The second half: what the call comes to once its wait is over, and the `finally` block, which forgets the
     * children whatever happened. `gather` ends with the first future that failed, though others may still wait, or
     * with all results.
     */
    method FinishChildren(req: Request, futures: seq<Future>, timedOut: bool) returns (outcome: Outcome)
      requires |futures| == |req.inputs|
      requires timedOut || AllDone(States(futures)) || exists i :: 0 <= i < |futures| && futures[i].state.Stopped?
      modifies this`pending
      ensures pending == old(pending) - ChildIds(req, |req.inputs|)
      ensures timedOut ==> outcome == Raised(TimedOut(req.lane))
      ensures !timedOut ==>
        if AllDone(States(futures)) then outcome == Concluded(req, Gathered(States(futures)))
        else
          exists i ::
            && 0 <= i < |futures| && futures[i].state.Stopped?
            && outcome == Raised(ClientStopped(ChildId(req, i)))
            && forall j | 0 <= j < i :: !futures[j].state.Stopped?
    {
      var childRequestIds := set i: nat | i < |req.inputs| :: ChildId(req, i);
      pending := pending - childRequestIds;
      if timedOut {
        return Raised(TimedOut(req.lane));
      }
      var stopped := FirstStopped(futures);
      if stopped < |futures| {
        assert !States(futures)[stopped].Done?;
        return Raised(ClientStopped(ChildId(req, stopped)));
      }
      assert forall i | 0 <= i < |futures| :: States(futures)[i].Done?;
      var results := Gather(futures);
      outcome := ConcludeCall(req, results);
    }

    /** Stopping fails every future that still waits and forgets them all. */
    method Stop()
      requires Valid()
      modifies this`closed, this`pending, pending.Values
      ensures closed && pending == map[]
      ensures forall id | id in old(pending) ::
        old(pending)[id].state == if old(pending[id].state).Waiting? then Stopped else old(pending[id].state)
    {
      closed := true;
      var todo := pending.Keys;
      while todo != {}
        invariant closed && todo <= pending.Keys && pending == old(pending)
        invariant forall id | id in pending ::
          pending[id].state ==
            if id !in todo && old(pending[id].state).Waiting? then Stopped else old(pending[id].state)
        decreases todo
      {
        var requestId :| requestId in todo;
        var future := pending[requestId];
        if future.state.Waiting? {
          future.state := Stopped;
        }
        todo := todo - {requestId};
      }
      pending := map[];
    }
  }
}
