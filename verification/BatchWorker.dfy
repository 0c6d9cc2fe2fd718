/** The batch worker: the batching window, one model call per batch, and the fan-out of its results. */
module BatchWorker {
  import opened QueueModels
  import opened Claiming
  import opened ResponseNormalization
  import opened RedisKeys
  import opened RedisQueue

  /** How a model call ends: an HTTP error of the client, any other exception, or a decoded reply. */
  datatype ModelOutcome =
    | HttpFailure(status: int, detail: string)
    | OtherFailure(message: string)
    | Responded(reply: Reply)

  datatype BatchAnswer = Rows(rows: seq<EmbeddingData>) | Failed(error: string, status: int)

  /** The rows a batch of n items gets, or the one error that all its items get. */
  function AnswerOf(outcome: ModelOutcome, n: nat): BatchAnswer {
    match outcome
    case HttpFailure(status, detail) => Failed(detail, status)
    case OtherFailure(message) => Failed(message, 502)
    case Responded(reply) =>
      match Normalize(reply, n)
      case Success(rows) => Rows(rows)
      case Failure(e) => Failed(ErrorText(e), 502)
  }

  function SuccessFor(item: WorkItem, row: EmbeddingData): ResultItem {
    ResultItem(item.requestId, item.parentRequestId, item.inputIndex, true, Some(row.embedding), None, None)
  }

  function FailureFor(item: WorkItem, error: string, status: int): ResultItem {
    ResultItem(item.requestId, item.parentRequestId, item.inputIndex, false, None, Some(error), Some(status))
  }

  function Successes(items: seq<WorkItem>, rows: seq<EmbeddingData>): (r: seq<ResultItem>)
    requires |rows| == |items|
    ensures |r| == |items|
    ensures forall k | 0 <= k < |r| :: r[k] == SuccessFor(items[k], rows[k])
  {
    seq(|items|, k requires 0 <= k < |items| => SuccessFor(items[k], rows[k]))
  }

  function Failures(items: seq<WorkItem>, error: string, status: int): (r: seq<ResultItem>)
    ensures |r| == |items|
    ensures forall k | 0 <= k < |r| :: r[k] == FailureFor(items[k], error, status)
  {
    seq(|items|, k requires 0 <= k < |items| => FailureFor(items[k], error, status))
  }

  /** The results a worker publishes for a batch, in order. */
  function BatchResults(items: seq<WorkItem>, outcome: ModelOutcome): (r: seq<ResultItem>)
    ensures |r| == |items|
  {
    AnswerFitsBatch(outcome, |items|);
    match AnswerOf(outcome, |items|)
    case Rows(rows) => Successes(items, rows)
    case Failed(error, status) => Failures(items, error, status)
  }

  /** The strict zip of items with rows cannot fail. */
  lemma AnswerFitsBatch(outcome: ModelOutcome, n: nat)
    ensures AnswerOf(outcome, n).Rows? ==> |AnswerOf(outcome, n).rows| == n
  {
    if outcome.Responded? {
      NormalizedLength(outcome.reply, n);
    }
  }

  /** All the results of one batch are successes or all are failures, one for each item, in the order of the items. */
  lemma FanOut(items: seq<WorkItem>, outcome: ModelOutcome)
    ensures |BatchResults(items, outcome)| == |items|
    ensures forall k | 0 <= k < |items| ::
      var r := BatchResults(items, outcome)[k];
      && r.requestId == items[k].requestId && r.parentRequestId == items[k].parentRequestId
      && r.inputIndex == items[k].inputIndex
      && r.ok == AnswerOf(outcome, |items|).Rows? && (r.ok <==> r.embedding.Some?)
  {
    AnswerFitsBatch(outcome, |items|);
  }

  /** When the model call fails, every item of the batch is told how: the client's status and text, or 502. */
  lemma FailedCallIsReported(items: seq<WorkItem>, outcome: ModelOutcome, k: nat)
    requires k < |items|
    ensures
      var r := BatchResults(items, outcome)[k];
      match outcome
      case HttpFailure(status, detail) =>
        !r.ok && r.embedding == None && r.error == Some(detail) && r.statusCode == Some(status)
      case OtherFailure(message) =>
        !r.ok && r.embedding == None && r.error == Some(message) && r.statusCode == Some(502)
      case Responded(_) => true
  {
  }

  /** When the reply is refused, every item of the batch is told why, under status 502. */
  lemma RefusedReplyIsReported(items: seq<WorkItem>, reply: Reply, k: nat)
    requires k < |items| && !IsReadableReply(reply, |items|)
    ensures Normalize(reply, |items|).Failure?
    ensures
      var r := BatchResults(items, Responded(reply))[k];
      && !r.ok && r.embedding == None && r.statusCode == Some(502)
      && r.error == Some(ErrorText(Normalize(reply, |items|).error))
  {
    AcceptedExactly(reply, |items|);
  }

  /** In particular a reply of the wrong shape is refused for its shape. */
  lemma WrongShapeIsTold(items: seq<WorkItem>, reply: Reply, k: nat)
    requires k < |items| && (reply.Data? ==> |reply.items| != |items|)
    ensures
      BatchResults(items, Responded(reply))[k].error == Some(
        if reply == NoDataList then "Internal vLLM response missing data list"
        else "Internal vLLM response data length mismatch; expected=" + Decimal(|items|)
             + ", actual=" + Decimal(|reply.items|))
  {
    RefusedReplyIsReported(items, reply, k);
    WrongShapeIsReported(reply, |items|);
    RefusalTexts(|items|, if reply.Data? then |reply.items| else 0, "", "");
  }

  /** A reply of the right length is refused for its first item that cannot be read, in the words for that item. */
  lemma BadItemIsTold(items: seq<WorkItem>, reply: Reply, bad: nat, k: nat)
    requires reply.Data? && bad < |reply.items| == |items| && k < |items| && !IsReadable(reply.items[bad])
    requires forall j | 0 <= j < bad :: IsReadable(reply.items[j])
    ensures
      var item, error := reply.items[bad], BatchResults(items, Responded(reply))[k].error;
      && (item == NotAnObject ==> error == Some("Internal vLLM response data item must be an object"))
      && (item.Object? && item.embedding == NotAList ==>
        error == Some("Internal vLLM response data item missing embedding list"))
      && (item.Object? && item.embedding != NotAList ==>
        exists problems :: AreProblemsOf(item, problems) && error == Some(ErrorText(InvalidRow(problems))))
  {
    FirstBadItemIsReported(reply, |items|, bad);
    RefusalTexts(0, 0, "", "");
  }

  /** When the reply is accepted, every item gets the row at its place and nothing else. */
  lemma AcceptedReplyIsReported(items: seq<WorkItem>, reply: Reply, rows: seq<EmbeddingData>, k: nat)
    requires k < |items| && Normalize(reply, |items|) == Success(rows)
    ensures |rows| == |items|
    ensures
      var r := BatchResults(items, Responded(reply))[k];
      r.ok && r.embedding == Some(rows[k].embedding) && r.error == None && r.statusCode == None
  {
    NormalizedLength(reply, |items|);
  }

  /** Those of the first n results that go to gateway g, in publishing order. */
  function SentTo(g: string, items: seq<WorkItem>, results: seq<ResultItem>, n: nat): seq<ResultItem>
    requires n <= |items| == |results|
  {
    if n == 0 then []
    else SentTo(g, items, results, n - 1) + if items[n - 1].replyTo == g then [results[n - 1]] else []
  }

  predicate Sends(g: string, items: seq<WorkItem>, results: seq<ResultItem>, r: ResultItem, k: nat)
    requires |items| == |results|
  {
    k < |items| && items[k].replyTo == g && results[k] == r
  }

  /** The positions whose result is r and goes to gateway g. */
  ghost function Positions(g: string, items: seq<WorkItem>, results: seq<ResultItem>, n: nat, r: ResultItem): set<nat>
    requires n <= |items| == |results|
  {
    set k: nat | k < n && Sends(g, items, results, r, k)
  }

  lemma PositionsNext(g: string, items: seq<WorkItem>, results: seq<ResultItem>, n: nat, r: ResultItem)
    requires 0 < n <= |items| == |results|
    ensures
      |Positions(g, items, results, n, r)|
      == |Positions(g, items, results, n - 1, r)| + if Sends(g, items, results, r, n - 1) then 1 else 0
  {
    var before, after := Positions(g, items, results, n - 1, r), Positions(g, items, results, n, r);
    if Sends(g, items, results, r, n - 1) {
      assert after == before + {n - 1};
    } else {
      assert after == before;
    }
  }

  /** How many of the first n publications are r to gateway g. */
  function Copies(g: string, items: seq<WorkItem>, results: seq<ResultItem>, n: nat, r: ResultItem): nat
    requires n <= |items| == |results|
  {
    if n == 0 then 0
    else Copies(g, items, results, n - 1, r) + if Sends(g, items, results, r, n - 1) then 1 else 0
  }

  lemma {:induction false} PositionsAreCopies(
    g: string, items: seq<WorkItem>, results: seq<ResultItem>, n: nat, r: ResultItem)
    requires n <= |items| == |results|
    ensures |Positions(g, items, results, n, r)| == Copies(g, items, results, n, r)
    decreases n
  {
    if n == 0 {
      assert Positions(g, items, results, 0, r) == {};
    } else {
      PositionsAreCopies(g, items, results, n - 1, r);
      PositionsNext(g, items, results, n, r);
    }
  }

  lemma AppendedCopies(before: seq<ResultItem>, last: ResultItem, r: ResultItem)
    ensures multiset(before + [last])[r] == multiset(before)[r] + if last == r then 1 else 0
  {
  }

  lemma {:induction false} SentAreCopies(
    g: string, items: seq<WorkItem>, results: seq<ResultItem>, n: nat, r: ResultItem)
    requires n <= |items| == |results|
    ensures multiset(SentTo(g, items, results, n))[r] == Copies(g, items, results, n, r)
    decreases n
  {
    if n != 0 {
      SentAreCopies(g, items, results, n - 1, r);
      AppendedCopies(SentTo(g, items, results, n - 1), results[n - 1], r);
      assert SentTo(g, items, results, n - 1) + [] == SentTo(g, items, results, n - 1);
    }
  }

  /** Fan-out loses and invents nothing: each result reaches the gateway its item names, once, and no other. */
  lemma SentExactly(g: string, items: seq<WorkItem>, results: seq<ResultItem>, n: nat, r: ResultItem)
    requires n <= |items| == |results|
    ensures multiset(SentTo(g, items, results, n))[r] == |Positions(g, items, results, n, r)|
  {
    SentAreCopies(g, items, results, n, r);
    PositionsAreCopies(g, items, results, n, r);
  }

  lemma SentToNext(g: string, items: seq<WorkItem>, results: seq<ResultItem>, n: nat, before: seq<ResultItem>)
    requires n < |items| == |results|
    ensures
      (before + SentTo(g, items, results, n)) + (if g == items[n].replyTo then [results[n]] else [])
      == before + SentTo(g, items, results, n + 1)
  {
  }

  /** What is sent to a gateway is only added to: earlier publications stand before later ones. */
  lemma {:induction false} SentInOrder(g: string, items: seq<WorkItem>, results: seq<ResultItem>, m: nat, n: nat)
    requires m <= n <= |items| == |results|
    ensures SentTo(g, items, results, m) <= SentTo(g, items, results, n)
    ensures m < n && items[n - 1].replyTo == g ==>
      SentTo(g, items, results, n) != []
      && SentTo(g, items, results, n)[|SentTo(g, items, results, n)| - 1] == results[n - 1]
    decreases n
  {
    if m < n {
      SentInOrder(g, items, results, m, n - 1);
    }
  }

  function PublishedBy(crashAfter: nat, n: nat): nat {
    if crashAfter <= n then crashAfter else n
  }

  /**
   * The loop that publishes one result per item. A worker that dies after `crashAfter` publications leaves the first
   * `crashAfter` of them behind, the last one perhaps without its time to live renewed.
   */
  method PublishAll(
    queue: RedisBatchQueue, items: seq<WorkItem>, results: seq<ResultItem>, ttlSeconds: int, crashAfter: nat)
    requires |items| == |results|
    modifies queue`results, queue`ttls
    ensures forall g ::
      queue.ResultQueue(g)
      == old(queue.ResultQueue(g)) + SentTo(g, items, results, PublishedBy(crashAfter, |items|))
    ensures |items| <= crashAfter ==> forall g ::
      queue.ResultQueue(g) == old(queue.ResultQueue(g)) + SentTo(g, items, results, |items|)
  {
    var sent: nat := 0;
    while sent < |items| && sent < crashAfter
      invariant sent <= |items| && sent <= crashAfter
      invariant forall g :: queue.ResultQueue(g) == old(queue.ResultQueue(g)) + SentTo(g, items, results, sent)
    {
      var dies: bool := false;
      if sent + 1 == crashAfter {
        dies := *;
      }
      queue.PublishEmbeddingResult(items[sent].replyTo, results[sent], ttlSeconds, dies);
      forall g ensures queue.ResultQueue(g) == old(queue.ResultQueue(g)) + SentTo(g, items, results, sent + 1) {
        SentToNext(g, items, results, sent, old(queue.ResultQueue(g)));
      }
      sent := sent + 1;
    }
  }

  method PublishBatchError(
    queue: RedisBatchQueue, items: seq<WorkItem>, error: string, statusCode: int, ttlSeconds: int, crashAfter: nat)
    modifies queue`results, queue`ttls
    ensures forall g ::
      queue.ResultQueue(g)
      == old(queue.ResultQueue(g))
         + SentTo(g, items, Failures(items, error, statusCode), PublishedBy(crashAfter, |items|))
    ensures |items| <= crashAfter ==> forall g ::
      queue.ResultQueue(g) == old(queue.ResultQueue(g)) + SentTo(g, items, Failures(items, error, statusCode), |items|)
  {
    PublishAll(queue, items, Failures(items, error, statusCode), ttlSeconds, crashAfter);
  }

  /** One model call for the batch, then one result per item. */
  method ProcessBatch(
    queue: RedisBatchQueue, items: seq<WorkItem>, outcome: ModelOutcome, ttlSeconds: int, crashAfter: nat)
    modifies queue`results, queue`ttls
    ensures forall g ::
      queue.ResultQueue(g)
      == old(queue.ResultQueue(g))
         + SentTo(g, items, BatchResults(items, outcome), PublishedBy(crashAfter, |items|))
    ensures |items| <= crashAfter ==> forall g ::
      queue.ResultQueue(g) == old(queue.ResultQueue(g)) + SentTo(g, items, BatchResults(items, outcome), |items|)
  {
    match outcome
    case HttpFailure(status, detail) =>
      PublishBatchError(queue, items, detail, status, ttlSeconds, crashAfter);
    case OtherFailure(message) =>
      PublishBatchError(queue, items, message, 502, ttlSeconds, crashAfter);
    case Responded(reply) =>
      var data := NormalizeVllmEmbeddingData(reply, |items|);
      if data.Failure? {
        PublishBatchError(queue, items, ErrorText(data.error), 502, ttlSeconds, crashAfter);
      } else {
        NormalizedLength(reply, |items|);
        PublishAll(queue, items, Successes(items, data.value), ttlSeconds, crashAfter);
      }
  }

  lemma EmptyBatchSendsNothing(g: string, outcome: ModelOutcome, crashAfter: nat, before: seq<ResultItem>)
    ensures before + SentTo(g, [], BatchResults([], outcome), PublishedBy(crashAfter, 0)) == before
  {
  }

  /** One iteration of the worker's loop: claim, then process unless the batch is empty. */
  method ClaimAndProcess(
    queue: RedisBatchQueue, model: string, lane: Lane, lim: Limits, nowMs: int, outcome: ModelOutcome,
    ttlSeconds: int, crashAfter: nat)
    requires 1 <= lim.maxItems
    modifies queue`work, queue`results, queue`ttls
    ensures
      var q := old(queue.WorkQueue(model, lane));
      var batch := Batch(q, lim, nowMs);
      var n := PublishedBy(crashAfter, |batch|);
      && queue.WorkQueue(model, lane) == q[Removed(q, lim, nowMs)..]
      && forall g ::
        queue.ResultQueue(g) == old(queue.ResultQueue(g)) + SentTo(g, batch, BatchResults(batch, outcome), n)
    ensures
      var batch := Batch(old(queue.WorkQueue(model, lane)), lim, nowMs);
      |batch| <= crashAfter ==> forall g ::
        queue.ResultQueue(g)
        == old(queue.ResultQueue(g)) + SentTo(g, batch, BatchResults(batch, outcome), |batch|)
    ensures forall m, l | m != model || l != lane :: queue.WorkQueue(m, l) == old(queue.WorkQueue(m, l))
  {
    var items := queue.ClaimEmbeddingBatch(model, lane, lim, nowMs);
    if items != [] {
      ProcessBatch(queue, items, outcome, ttlSeconds, crashAfter);
    } else {
      forall g ensures queue.ResultQueue(g) == queue.ResultQueue(g)
          + SentTo(g, items, BatchResults(items, outcome), PublishedBy(crashAfter, |items|))
      {
        EmptyBatchSendsNothing(g, outcome, crashAfter, queue.ResultQueue(g));
      }
    }
  }

  // The batching window.

  /** How long the worker sleeps before it claims, given the head it peeked at. */
  function WindowFor(head: WorkItem, nowMs: int, maxWaitMs: int): int {
    var ageMs := if nowMs - head.createdAtMs < 0 then 0 else nowMs - head.createdAtMs;
    if head.deadlineMs < nowMs || maxWaitMs - ageMs <= 0 then 0 else maxWaitMs - ageMs
  }

  method WaitForBatchWindow(queue: RedisBatchQueue, model: string, lane: Lane, maxWaitMs: int, nowMs: int)
    returns (sleepMs: int)
    ensures
      var q := queue.WorkQueue(model, lane);
      if q == [] || q[0].Malformed? || q[0].item.deadlineMs < nowMs || maxWaitMs <= 0 then sleepMs == 0
      else if nowMs < q[0].item.createdAtMs then sleepMs == maxWaitMs
      else if q[0].item.createdAtMs + maxWaitMs <= nowMs then sleepMs == 0
      else nowMs + sleepMs == q[0].item.createdAtMs + maxWaitMs
    ensures
      var q := queue.WorkQueue(model, lane);
      sleepMs == if q != [] && q[0].Work? then WindowFor(q[0].item, nowMs, maxWaitMs) else 0
  {
    var oldest := queue.PeekOldestEmbeddingWork(model, lane);
    if oldest == None {
      return 0;
    }
    if oldest.value.deadlineMs < nowMs {
      return 0;
    }
    var ageMs := if nowMs - oldest.value.createdAtMs < 0 then 0 else nowMs - oldest.value.createdAtMs;
    var remainingWaitMs := maxWaitMs - ageMs;
    sleepMs := if 0 < remainingWaitMs then remainingWaitMs else 0;
  }

  /**
   * The window and the claim script disagree on deadlines that are not positive, which the script takes for "none":
   * a live head is given its window just when its deadline is positive or is not behind the clock.
   */
  lemma WindowSkipsUnboundedHead(head: WorkItem, nowMs: int, maxWaitMs: int)
    requires IsLive(Work(head), nowMs) && head.createdAtMs <= nowMs < head.createdAtMs + maxWaitMs
    ensures
      nowMs + WindowFor(head, nowMs, maxWaitMs) == head.createdAtMs + maxWaitMs <==>
      0 < head.deadlineMs || nowMs <= head.deadlineMs
  {
  }

  /** Such a head: it is live, was pushed this very moment, and still does not get to wait. */
  lemma UnboundedHeadIsNotAwaited(head: WorkItem)
    requires head.createdAtMs == 1000 && head.deadlineMs == 0
    ensures IsLive(Work(head), 1000) && WindowFor(head, 1000, 10) == 0
  {
  }
}
