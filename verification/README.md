# Verified model of the token-budget batching gateway

The gateway splits an embedding request into one work item per input, pushes the items to a Redis list (one list per
lane: `query` and `document`), and waits. Batch workers claim prefixes of a lane under an item limit and a token
budget, call the model server once per batch, and push one result per item to the result queue of the gateway that
asked. The gateway's listener resolves the pending future of each result, and the request reassembles its children in
input order.

This project proves what that protocol is for: however requests are cut up, mixed with strangers' requests, raced
over by crash-prone workers and answered out of order, a batched request that returns normally returns exactly what
one direct call to the model server would have returned.

## How it is organised

| file | what it holds |
|---|---|
| `QueueModels.dfy`, `RedisKeys.dfy` | work items, results, queue entries; Redis keys and child ids |
| `Claiming.dfy`, `Draining.dfy` | the value of one run of the claim script; what repeated claims achieve |
| `RedisBatchQueue.dfy` | the queue client as a class over the lists Redis holds, with the claim script as a loop |
| `ResponseNormalization.dfy` | the normalisation loop, the sort by index, and what they mean |
| `Workload.dfy` | settings, the workload classifier, the choice between the batched and the direct path |
| `BatchWorker.dfy` | batch window, model outcome, fan-out, as methods over the queue class |
| `BatchingClient.dfy` | splitting and reassembly; the gateway client as a class with its dictionary of futures |
| `QueueInspection.dfy`, `Autoscaling.dfy` | queue statistics; the replica recommender over exact reals |
| `Protocol.dfy` | the whole system as a state machine: states, steps, runs |
| `ProtocolData.dfy`, `ProtocolPlaces.dfy`, `ProtocolPending.dfy` | the inductive invariant, in three parts |
| `ProtocolTheorems.dfy`, `ProtocolHistory.dfy` | what follows for every run |
| `ProtocolResults.dfy` | what becomes of a worker's result, exactly, on its way to the caller |
| `ProtocolWindows.dfy` | the batch window in every run: peek, wait, claim |
| `ProtocolAnswers.dfy` | which requests can still be answered, from any reachable state |
| `Refinement.dfy` | the methods of the classes are steps of the state machine |

Two views of the same code sit side by side. The classes follow the source method by method: their loops are proved
against specification functions such as `Batch`, `Removed`, `Normalize`, `BatchResults`, `ChildItem` and `Concluded`,
and the state machine uses those very functions in its steps. Where the two keep their state differently,
`Refinement.dfy` relates them: it says when a client object, its futures and the Redis lists are what a state of the
machine says, and proves that a new client represents the first state of every run, that one turn of the listener, one
turn of the enqueueing loop, the end of a call, stopping the client, a peek, a claim, a publication and the expiry of
a result queue each take such objects from one state to the next, and that whatever others do in between keeps the
client in agreement with the state. Atomicity is where the source has it: one Redis command, one run of the claim
script, or one stretch of gateway code between two awaits is one step; any number of gateways and workers interleave.

Steps that the environment takes are part of the machine: undecodable entries appear in a queue, workers crash after
any number of publications, whole result queues or their heads disappear, clocks read anything, waits time out,
requests are cancelled, clients stop.

## Assumptions

- Request ids are fresh and contain no colon (they are UUIDs), and gateways have distinct ids. `ColonsWouldClash`
  shows that the colon matters.
- The item limits are at least one (`ValidConfig`). Token counts are natural numbers.
- A queue entry either is an item that `enqueue_embedding_work` pushed or does not decode at all.
- For the statements about embeddings, the model server is faithful: it may fail, or reply something that cannot be
  read, but a reply whose items can be read carries for each input one item with that input's embedding, under the
  index of the input or, without an index, at its position (`Faithful`, which speaks of the raw items). What the two
  paths do with a server that is not faithful is `SameReplyBothPaths`.
- `docs/README.md` describes an earlier phase in which documents went direct. The model follows the code.

## Findings

- The drain estimate and the recommendation disagree when one replica's capacity lies under the `1e-9` floor and the
  backlog lies in a certain range; `EstimateAgrees` gives the exact condition and `FloorHidesOverload` an input.
- A queue scan with a limit of zero still reads the head (`ScanKeepsItsLimit`).
- The direct path passes the server's indexes on while the batched path counts for itself, so with a server that does
  not number its rows 0 to n - 1 the two paths differ in their indexes, and only in those (`SameReplyBothPaths`);
  `MisnumberedReplyDiffers` gives such a reply.

One difference in the code has no effect on what the system produces. The batch window reads a deadline that is not
positive as long past, while the claim script reads it as no deadline (`WindowSkipsUnboundedHead`, and
`UnboundedHeadIsNotAwaited` for an input). Every item in a lane carries the time of its request plus the request
timeout as its deadline, which is positive with any real clock, and for such items the two agree
(`WindowAgreesWithScript`).

## Model

| member | source | states |
|---|---|---|
| ProtocolTheorems.BatchingIsTransparent | app/batching_client.py:113-229 | in every state of every run, a request that returned normally returned entry i with index i and the embedding of input i, the list that the direct path returns for any faithful reply |
| ProtocolTheorems.SameReplyBothPaths | app/embeddings.py:197-205 | for one and the same reply, batched and direct path return the same embeddings in the same order, and the same list if and only if the reply's indexes are 0 to n - 1, each once |
| ProtocolTheorems.MisnumberedReplyDiffers | app/embeddings.py:202-205 | for a reply with one row under index 5 the direct path returns index 5 and the batched path index 0 |
| ProtocolTheorems.DirectPathIsInOrder | app/embeddings.py:197-205 | the direct path returns the embeddings of the inputs in input order whatever order the server replied in |
| ProtocolTheorems.AnsweredMeansAllDelivered | app/batching_client.py:179-219 | a request that returned normally had every child delivered, successful, and with the embedding that the entry of its index shows |
| ProtocolTheorems.LostMeansNoAnswer | app/redis_batch_queue.py:32-34 | a request with a child that expired, crashed with its worker, was dropped or was orphaned never returns normally, before or after |
| ProtocolTheorems.AnswersDecideTheCall | app/batching_client.py:198-210 | once all children are answered, the call returns when none failed and otherwise raises the error of the failing child with the lowest input index: its status unless missing or zero, then 502, and its text unless missing or empty, then the default text of its lane |
| ProtocolTheorems.ClosedGatewayRefuses | app/batching_client.py:122-126 | a request is refused if and only if its gateway is closed, and then nothing is taken on |
| ProtocolTheorems.OutsideIsFree | app/batch_worker.py:62-90 | undecodable entries, crashes, losses, peeks, claims and failing model calls happen whenever there is something for them to happen to |
| ProtocolTheorems.GatewaysAreFree | app/batching_client.py:113-192 | new requests, interruptions, timeouts and stops come at any time, and a push may arrive after its call has ended |
| ProtocolTheorems.ReassemblyNeverStarves | app/batching_client.py:205-217 | the "missing indexes" and "no embedding" errors are unreachable in every run |
| ProtocolTheorems.ExactlyOnePlace | app/redis_batch_queue.py:74-145 | a child has a place if and only if it was pushed; one copy of it is in the queue, worker or result queue recorded for it and none in any other; it counts as delivered if and only if its future is resolved |
| ProtocolTheorems.OnlyForward | app/batch_worker.py:62-90 | between any two states of a run a child keeps its place or moves forward, so it is never claimed, answered or delivered twice and never comes back once lost |
| ProtocolTheorems.ResolvedOnce | app/batching_client.py:254-255 | a future that has a result keeps that result for the rest of the run |
| ProtocolTheorems.OutcomeIsFinal | app/batching_client.py:188-229 | a request that has returned or raised keeps that outcome |
| ProtocolTheorems.ResolvedByItsOwnResult | app/batching_client.py:241-255 | a resolved future holds the result with its own child's id, parent and input index, and on success that input's embedding |
| ProtocolTheorems.RepliesGoHome | app/batch_worker.py:189-201 | a result waits only in the result queue of the gateway whose request it answers, under the id of its own child |
| ProtocolTheorems.RequestsPersist | app/batching_client.py:130-134 | what a request asked for is the same in any two states of a run that know it |
| ProtocolTheorems.RunKeepsInv | app/batching_client.py:231-255 | every reachable state satisfies the invariant on data in flight and on places |
| ProtocolData.StepKeepsData | app/batch_worker.py:150-201 | every step keeps the data invariant: genuine items, genuine results, genuine futures, FIFO histories, admissible claims, justified outcomes |
| ProtocolPlaces.StepKeepsPlaces | app/redis_batch_queue.py:18-53 | every step keeps the place invariant: each container lists exactly the children recorded in it, each once |
| ProtocolData.AnswersAreGenuine | app/batch_worker.py:150-201 | whatever order a faithful server replies in, every result of the batch carries the embedding of its own item |
| ProtocolData.ListenerFindsOwner | app/batching_client.py:241-255 | the future that the listener finds under a result's id is the one created for the child the result answers |
| ProtocolPending.RunKeepsWaiting | app/batching_client.py:144 | in every reachable state each future that is still awaited is in its gateway's dictionary under its own id |
| ProtocolPending.PendingIsExact | app/batching_client.py:188-191 | while a gateway is open its dictionary holds a child if and only if the child's call is still active and has created its future; a call that ended leaves nothing behind |
| ProtocolPending.ResultsReachWhoWaits | app/batching_client.py:241-255 | a result popped by an open gateway resolves its future with itself if and only if its call is still active, and is thrown away if and only if the call has ended |
| ProtocolPending.ReturnsWhenAllDelivered | app/batching_client.py:179-182 | a call can return if and only if it is active and each of its children has been delivered |
| ProtocolHistory.FifoHistory | app/redis_batch_queue.py:18-53 | whatever was pushed to a lane is what the claims of all workers trimmed, in claim order, followed by the queue |
| ProtocolHistory.ClaimReturnsLivePrefix | app/redis_batch_queue.py:18-53 | a claim's batch is the prefix it trims with exactly the malformed and expired entries filtered out |
| ProtocolHistory.DroppedExactlyWhenLate | app/redis_batch_queue.py:29-43 | in every run, a child that a claim trims is handed to the worker if and only if the claim's clock is not past the request's time plus the timeout (a deadline that is not positive never passes) |
| ProtocolHistory.NoStarvation | app/redis_batch_queue.py:23-51 | the entry at position p is trimmed, in its turn, within p + 1 further claims on its lane, whatever is pushed meanwhile and whoever claims |
| ProtocolHistory.EveryClaimCounts | app/redis_batch_queue.py:49-51 | until position p is reached, n claims trim at least n entries |
| ProtocolHistory.TokenConservation | app/queue_inspection.py:31-60 | in every reachable state tokens pushed to a lane equal tokens claimed plus tokens expired plus the backlog that an unlimited inspection reports |
| ProtocolHistory.BatchBound | app/batch_worker.py:241-256 | every batch ever claimed respects its own lane's item limit setting, and its own lane's token target setting unless it is a single item |
| ProtocolHistory.ClaimTakesAllItMay | app/batch_worker.py:71-76 | a claim trims as many entries as its lane's item limit allows, or the whole queue, or up to a live entry that would take the batch past its lane's token target |
| ProtocolHistory.QueryLaneCap | app/workload.py:26-28 | with query limit at most query target, no batch ever claimed from the query lane exceeds the target, single items included |
| ProtocolHistory.UsageIsChildrensTokens | app/embeddings.py:98-99 | the reported usage is the sum of the token counts of the request's work items |
| ProtocolResults.CallRaisesTheModelsError | app/batch_worker.py:162-174 | a request whose lowest failing child was in a batch whose model call ended with an HTTP error raises that status and text, or 502 and the default text where these are zero or empty |
| ProtocolResults.FutureTakesItsWorkersResult | app/batching_client.py:241-255 | the future of a child takes exactly the result that its worker made of the model call for it, if it is resolved at all |
| ProtocolResults.KeptForever | app/batch_worker.py:189-201 | a result is never altered: in every later state it is with its worker, in a result queue or with its future, or its child has been lost |
| ProtocolAnswers.AnswerableExactly | app/batching_client.py:113-229 | from any reachable state and for any clock t: some continuation whose claims read t or later, each after its worker's wait, answers a request if and only if it has been answered already, or it still waits, no child of it has been lost or has failed, its gateway still listens or has all results, and its deadline is not past at t or all its children have left the queue |
| ProtocolAnswers.EveryRequestCanBeAnswered | app/batching_client.py:72-111 | in every reachable state, a new batched request with any number of inputs to an open gateway has a continuation that answers it with the embeddings of its inputs in input order; its workers read any given clocks, as long as these let the waits pass and are not past the deadline |
| ProtocolAnswers.ClocksSuitExactly | app/batch_worker.py:106-114 | such clocks, starting at the request, exist if and only if the lane's longest wait fits into the request timeout |
| ProtocolAnswers.PromiseCanBeKept | app/batching_client.py:138-229 | the continuation is built step by step from any reachable state in which the request still waits at an open gateway and nothing of it is lost or failed, for any clocks in time, and for any clocks at all once its children have left the queue |
| ProtocolAnswers.LateIsHeldBack | app/redis_batch_queue.py:29-43 | once every later claim reads a clock past the request's deadline, a child that is not yet pushed or still queued is never handed to a worker |
| ProtocolAnswers.SpoiltForever | app/batching_client.py:199-209 | a child that is lost or for which a failure exists anywhere stays so for the rest of the run |
| ProtocolAnswers.ClosedResolvesNothing | app/batching_client.py:54-68 | once a gateway has stopped, no future of its requests is resolved any more |
| ProtocolWindows.WindowServesItsHead | app/batch_worker.py:63-76 | in every run, when no other worker claimed from the lane since the peek and the clock is shared, the claim after the wait trims the very head that was peeked at, not before it has waited the maximum, and hands it out first unless it has expired |
| ProtocolWindows.HeadStaysUntilClaimed | app/batch_worker.py:99-114 | with any number of workers, the head that a waiting worker peeked at is still the head if and only if nobody has claimed from the lane since |
| ProtocolWindows.SoleWorkerKeepsItsHead | app/batch_worker.py:63-76 | if every claim on the lane since the peek is by the waiting worker itself, the head is still there |
| ProtocolWindows.QueueOnlyGrows | app/redis_batch_queue.py:74-82 | between two states of a run with no claim on a lane between them, the lane's queue only grows at the end |
| ProtocolWindows.WaitIsExact | app/batch_worker.py:106-114 | for every window, the wait is what is left of the lane's own maximum since the head was pushed, the whole maximum when the head's clock is ahead, and nothing when the head is late, undecodable or missing |
| ProtocolWindows.WaitEndsWithItsWorker | app/batch_worker.py:62-90 | a worker's wait ends with its claim or its crash, and no other worker is touched by either |
| ProtocolWindows.WindowAgreesWithScript | app/batch_worker.py:106-112 | in every run the head a worker waits for is an item some request pushed, and if that request's time plus timeout is positive the head gets its whole window or has expired as the claim script sees it |
| Claiming.ClaimIsLongestFit | app/redis_batch_queue.py:23-51 | a prefix of the queue may be carried by one model call if and only if it is no longer than what the claim trims |
| Claiming.ClaimSpec | app/redis_batch_queue.py:18-53 | the trimmed prefix is within the item limit and within budget or a single item, and an entry of the window that is left over is live and would exceed the budget |
| Claiming.LiveAndExpiredTokens | app/redis_batch_queue.py:24-43 | live and expired items together carry all the tokens of a queue |
| Draining.GreedyIsASchedule | app/redis_batch_queue.py:18-53 | repeated claims cut the queue into consecutive admissible batches |
| Draining.GreedyIsOptimal | app/redis_batch_queue.py:18-51 | no way of cutting the queue into consecutive admissible batches needs fewer of them than the claims do |
| Draining.SuffixNeedsNoMore | app/redis_batch_queue.py:18-51 | greedy stays ahead: a suffix of a queue never takes more claims than the queue |
| Draining.DrainBound | app/redis_batch_queue.py:23-51 | draining N entries with T live tokens takes at most 1 + N / max_items + 2T / (max_tokens + 1) claims |
| Draining.BudgetStopsBound | app/redis_batch_queue.py:39-45 | the claims that stop early, times the budget plus one, are covered by twice the live tokens |
| RedisQueue.RedisBatchQueue.EnqueueEmbeddingWork | app/redis_batch_queue.py:74-82 | appends the item to its own lane's queue and changes no other queue |
| RedisQueue.RedisBatchQueue.PublishEmbeddingResult | app/redis_batch_queue.py:84-93 | appends the result to its gateway's queue and to no other, and renews that queue's time to live unless the worker dies between the two commands |
| RedisQueue.RedisBatchQueue.BlpopEmbeddingResult | app/redis_batch_queue.py:95-106 | pops the head of the gateway's queue, or nothing when it is empty, and changes no other queue |
| RedisQueue.RedisBatchQueue.PeekOldestEmbeddingWork | app/redis_batch_queue.py:108-122 | the head when it decodes, and otherwise nothing |
| RedisQueue.RedisBatchQueue.EvalClaimScript | app/redis_batch_queue.py:12-54 | the script's loop returns the batch and trims the prefix that the specification names |
| RedisQueue.RedisBatchQueue.ClaimEmbeddingBatch | app/redis_batch_queue.py:124-145 | returns the batch as items, trims its lane by exactly what was consumed, and changes no other lane or model |
| RedisQueue.RedisBatchQueue.ListEmbeddingWorkRaw | app/redis_batch_queue.py:148-158 | the scanned prefix of the queue, which a limit cuts |
| RedisQueue.RedisBatchQueue.ExpireResultQueue | app/redis_batch_queue.py:93 | when a result queue's time to live runs out it is empty, and no other queue is touched |
| RedisKeys.WorkAndResultKeysDiffer | app/redis_keys.py:1-6 | no work key is a result key |
| RedisKeys.WorkKeysInjective | app/redis_keys.py:1-2 | two (model, lane) pairs share a work key only if they are equal |
| RedisKeys.ResultKeysInjective | app/redis_keys.py:5-6 | two gateways share a result key only if they are equal |
| RedisKeys.ChildIdsInjective | app/batching_client.py:131-134 | child ids are distinct across all parents and indexes when parent ids are colon-free |
| RedisKeys.FormsOfKeys | app/redis_keys.py:1-6 | the forms of work keys, result keys and child ids |
| RedisKeys.DecimalRoundTrip | app/batching_client.py:132 | the numeral in a child id stands for the child's index, in digits without a leading zero |
| RedisKeys.ColonsWouldClash | app/batching_client.py:131-134 | with a colon in a parent id two children of different requests can share an id |
| ResponseNormalization.NormalizeVllmEmbeddingData | app/response_normalization.py:6-48 | the loop and its five errors, in the order in which they are found, against the specification |
| ResponseNormalization.AcceptedExactly | app/response_normalization.py:6-48 | a reply is accepted if and only if it has the expected number of items and each is an object with a list of numbers and, if it has an index, an integer |
| ResponseNormalization.AcceptedRows | app/response_normalization.py:38-48 | the rows of an accepted reply are each item's own numbers under its own index, or its position if it has none, sorted by that index |
| ResponseNormalization.NamedReplyIsInOrder | app/response_normalization.py:38-48 | a reply whose items carry, under the index they go by, that input's embedding, each input once, is returned in input order |
| ResponseNormalization.ReorderedReplyIsInOrder | app/response_normalization.py:38-48 | items in any order, each with the index of its own input, are returned in input order |
| ResponseNormalization.WrongShapeIsReported | app/response_normalization.py:7-21 | which error a missing list and a wrong length raise, before any item is looked at |
| ResponseNormalization.FirstBadItemIsReported | app/response_normalization.py:25-46 | the first item that cannot be read decides the error, by what is wrong with it |
| ResponseNormalization.RefusalTexts | app/response_normalization.py:9-36 | the text of each error |
| ResponseNormalization.SortFacts | app/response_normalization.py:47 | the sorted rows are in index order, are the same multiset, and keep rows with equal indexes in order |
| ResponseNormalization.StableSortIsUnique | app/response_normalization.py:47 | any sorted list that keeps equal indexes in order is the result of the sort |
| ResponseNormalization.SortForgetsOrder | app/response_normalization.py:47 | two row lists sort to the same list if and only if they agree index by index |
| ResponseNormalization.PermutedRepliesAgree | app/response_normalization.py:23-48 | replies with the same rows in any order, with distinct indexes, normalise to the same list |
| ResponseNormalization.SortedIntoPlaceExactly | app/response_normalization.py:38-48 | row i of the sorted rows has index i for every i if and only if the indexes are distinct and within range |
| ResponseNormalization.UnindexedReplyKeepsOrder | app/response_normalization.py:38-46 | a reply without indexes keeps its order and is numbered by position |
| ResponseNormalization.NormalizedLength | app/response_normalization.py:14-21 | a reply that normalises has exactly the expected number of rows |
| ResponseNormalization.NamedRowsSortIntoPlace | app/response_normalization.py:38-48 | a reply that names each input once sorts to the embeddings of the inputs in input order |
| BatchWorker.AnswerFitsBatch | app/batch_worker.py:189 | the strict zip of items and rows cannot fail |
| BatchWorker.FailedCallIsReported | app/batch_worker.py:162-187 | when the model call fails, every item of the batch gets the client's own status and text, or the exception's text under 502, and no embedding |
| BatchWorker.RefusedReplyIsReported | app/batch_worker.py:162-174 | when the reply cannot be read, every item of the batch gets the refusal's text under 502 and no embedding |
| BatchWorker.WrongShapeIsTold | app/response_normalization.py:7-21 | the text for a reply without a data list, and for one of the wrong length, with both lengths |
| BatchWorker.BadItemIsTold | app/response_normalization.py:25-46 | the text for the first item that cannot be read, by what is wrong with it |
| BatchWorker.AcceptedReplyIsReported | app/batch_worker.py:189-201 | when the reply is accepted, every item gets the embedding of the row at its place, and neither error nor status |
| BatchWorker.SentInOrder | app/batch_worker.py:189-201 | a gateway's publications are only added to, in the order of the items |
| BatchWorker.SentExactly | app/batch_worker.py:189-201 | a result is published to a gateway exactly as often as an item of that gateway has it |
| BatchWorker.PublishBatchError | app/batch_worker.py:219-238 | every gateway's queue gains the failures of all its items in order, or a prefix of the publications when the worker dies |
| BatchWorker.ProcessBatch | app/batch_worker.py:150-201 | every gateway's queue gains the batch's results for its items in order, for each way the model call can end, or a prefix of the publications when the worker dies |
| BatchWorker.ClaimAndProcess | app/batch_worker.py:71-88 | one iteration: the lane loses what the claim trims, the result queues gain the results of the claimed batch, and nothing else changes |
| BatchWorker.WaitForBatchWindow | app/batch_worker.py:93-114 | the sleep ends exactly when the head has waited the maximum; it is nothing when that is past, when the head is late or does not decode, or for an empty queue, and the whole maximum when the head's clock is ahead |
| BatchWorker.WindowSkipsUnboundedHead | app/batch_worker.py:106-112 | a live head gets its whole window if and only if its deadline is positive or not behind the clock |
| BatchWorker.UnboundedHeadIsNotAwaited | app/batch_worker.py:106-112 | a live head, pushed this moment and without a deadline, that gets no window |
| BatchingClient.ReassembleExact | app/batching_client.py:198-219 | reassembly succeeds if and only if every result carries an embedding and every index was answered, and position i is then a gathered result for index i |
| BatchingClient.ReassembleInOrder | app/batching_client.py:198-219 | results in input order are returned as they are, or the lowest bad child's error is raised, with its own status and text |
| BatchingClient.FirstBadResultIsRaised | app/batching_client.py:199-209 | the first bad result decides the error: its own status unless missing or zero, its own text unless missing or empty, or the lack of an embedding |
| BatchingClient.GoodResultsAreReturned | app/batching_client.py:210-219 | without a bad result, exactly the unanswered indexes are reported missing, in ascending order, and if there are none the last answer for each index is returned |
| BatchingClient.ChildrenCarryTheRequest | app/batching_client.py:129-161 | every field of every work item: whose it is, what to compute, for whom, since when and until when |
| BatchingClient.ReassembleResults | app/batching_client.py:198-219 | the three loops compute the reassembly: the first bad result's own status and text are raised, and without one and with every index answered the results are returned |
| BatchingClient.GatewayBatchingClient.EnqueueChildren | app/batching_client.py:97-166 | refuses differing lengths and a closed client without effect; otherwise a fresh waiting future per child stands in the dictionary under its id, nothing else there changes, and the lane gains the children in input order |
| BatchingClient.GatewayBatchingClient.ListenOnce | app/batching_client.py:231-255 | pops one result and resolves with it the future pending under its id if that still waits, and no other future |
| BatchingClient.GatewayBatchingClient.FinishChildren | app/batching_client.py:179-219 | timeout, the first stopped future or the reassembly decides the outcome, and in every case the call's children leave the dictionary |
| BatchingClient.GatewayBatchingClient.Stop | app/batching_client.py:54-68 | closes the client, fails exactly the futures that still wait, and empties the dictionary |
| Refinement.StartIsRepresented | app/batching_client.py:41-47 | a new client on an empty server represents the state in which every run begins |
| Refinement.StrangersLeaveClient | app/batching_client.py:231-255 | every step of another gateway, a worker or the server leaves the client in agreement with the state, so that its own steps compose in an interleaved run |
| Refinement.ListenIsAStep | app/batching_client.py:231-255 | the client object that represents a state represents, after one turn of its listener, the state after the step Listen: dictionary, futures, flag and lists |
| Refinement.IdleListenIsNoStep | app/batching_client.py:238-239 | a turn of the listener that finds nothing changes nothing |
| Refinement.EnqueueIsTwoSteps | app/batching_client.py:138-166 | one turn of the enqueueing loop takes the client to the state after Register and Push |
| Refinement.FinishIsAStep | app/batching_client.py:179-219 | the end of a call takes the client to the state after one of the steps TimeOut, Return and RaiseStopped, with the outcome of that step |
| Refinement.StopIsTwoSteps | app/batching_client.py:54-68 | stopping the client takes it to the state after the steps Close and Stop |
| Refinement.ClaimIsAStep | app/redis_batch_queue.py:124-145 | a claim leaves the lists as the step Claim does and returns the batch that the step gives to the worker |
| Refinement.PublishIsAStep | app/redis_batch_queue.py:84-93 | a publication leaves the lists as the step Publish does |
| Refinement.PeekIsAStep | app/redis_batch_queue.py:108-122 | a peek returns the head that the step Peek records |
| Refinement.ExpiryIsAStep | app/redis_batch_queue.py:93 | the expiry of a result queue is the step DropResults |
| Workload.LanesAdmit | app/embeddings.py:113-178 | which requests are batched in the query lane and which in the document lane, each if and only if; with both lanes on, a request is batched if and only if it is for the workers' model and a client runs |
| QueueInspection.InspectEmbeddingQueue | app/queue_inspection.py:19-60 | of the scanned prefix: the number of entries, the tokens, the number of entries that do not decode, and the ages of the item pushed first and the item pushed last, never negative, zero without items |
| QueueInspection.LimitedScanNeverOverReports | app/redis_batch_queue.py:155-157 | a limited scan reports at most the backlog, and all of it once the limit covers the queue |
| QueueInspection.ScanIsExact | app/redis_batch_queue.py:155-157 | a scan covers the first entries, as many as the limit says, but the head in any case |
| QueueInspection.ScanKeepsItsLimit | app/redis_batch_queue.py:156 | for any integer limit, the scan keeps it if and only if it is at least one, or zero with an empty queue |
| QueueInspection.ScanIsMonotone | app/redis_batch_queue.py:155-157 | a larger limit never reports a smaller backlog |
| Autoscaling.LeastSufficientReplicas | app/autoscaling.py:32-49 | for all inputs: which are refused, and otherwise the minimum without backlog, the maximum without throughput, and else the least admissible number of replicas that drains the backlog in time, or the maximum if none does |
| Autoscaling.LeastReplicasInTime | app/autoscaling.py:44-49 | above the floor, the recommendation is the least admissible number of replicas whose drain time is within the target, or the maximum if none is fast enough |
| Autoscaling.ReportIsExact | app/autoscaling.py:35-65 | the reported backlog, rate and replicas are the inputs, or zero for negative ones, and the drain time is backlog over throughput, zero without backlog and 1e30 without throughput |
| Autoscaling.RefusalIsExact | app/autoscaling.py:8-33 | which of the two errors is raised, each if and only if |
| Autoscaling.RecommendationIsMonotone | app/autoscaling.py:35-49 | more backlog never lowers the recommendation and a higher rate never raises it |
| Autoscaling.EstimateAgrees | app/autoscaling.py:44-47 | estimate within target and current replicas reaching the unclamped recommendation coincide if and only if the floor is out of play or the backlog is outside the range it distorts |
| Autoscaling.FloorHidesOverload | app/autoscaling.py:44-47 | an input below the floor for which they do not coincide |

## Left out

- HTTP, authentication, request validation, the model server's HTTP client, the metrics exporter and deployment: plumbing around the protocol. The model server is a step that fails or replies.
- Tokenizer, prefixing, truncation and the 400 responses of `create_embeddings`: they rest on an external library. Token counts are given numbers.
- Metrics and logging.
- Redis connections, script loading and the retry after NOSCRIPT: the claim script is one atomic step.
- Item limits below one and queue entries that are valid JSON without being valid items: excluded, as no part of the system produces them.
- The model and route fields that items carry beside those used here, and the `index` field of results, which nothing reads.
- Lua's double-precision numbers beyond 2^53: token sums are exact.
- The algorithm behind Python's `list.sort`: it is modelled by its value, which `StableSortIsUnique` pins down.
- Floating-point rounding in the recommender: exact reals.
- The endless loops of worker and listener: one iteration is one method call or a few steps of the state machine.
- Interleaving inside a class method: the classes are sequential, and interleavings are the subject of the state machine.
- Gateway processes that crash and come back under the same id: a gateway only stops.
- Prompt termination of requests that register children while `stop` runs: such a child waits for its timeout.
- Fairness: `AnswerableExactly` says when an answer is still possible, not that a scheduler brings it about; in it, claims read any clock from t on, while a worker may have peeked at any time before.
- Time: clocks are adversarial in the state machine, so a timeout may come at any moment and an expired drop does not imply that the gateway has given up; only that the request never succeeds is claimed.
- The recommendation's echoed `model`, `workload`, target and limit fields: copied from the arguments.
