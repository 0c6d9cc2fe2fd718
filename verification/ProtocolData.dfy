/** What every reachable state keeps about the data in flight: who asked for it and what it says. */
module ProtocolData {
  import opened QueueModels
  import opened RedisKeys
  import opened Claiming
  import opened Workload
  import opened ResponseNormalization
  import opened BatchWorker
  import opened BatchingClient
  import opened Protocol

  type Calls = map<string, Call>

  ghost predicate CallOk(cfg: Config, p: string, c: Call) {
    && c.req.id == p && ColonFree(p)
    && |c.req.inputs| == |c.req.tokenCounts|
    && c.pushed <= |c.futures| <= c.pushed + 1 && |c.futures| <= |c.req.inputs|
    && (c.req.lane == Query ==> |c.req.inputs| == 1 && c.req.tokenCounts[0] <= cfg.settings.queryMaxTokens)
  }

  ghost predicate CallsOk(cfg: Config, calls: Calls) {
    forall p | p in calls :: CallOk(cfg, p, calls[p])
  }

  ghost predicate Known(calls: Calls, ref: Ref) {
    && ref.parent in calls
    && ref.index < |calls[ref.parent].req.inputs| == |calls[ref.parent].req.tokenCounts|
  }

  /** The item is the child it claims to be of a request that was made. */
  ghost predicate GenuineItem(cfg: Config, calls: Calls, item: WorkItem) {
    && Known(calls, RefOf(item))
    && item == ChildItem(calls[item.parentRequestId].req, item.inputIndex, cfg.settings.requestTimeoutMs)
  }

  /** The result answers the child it claims to answer, and a success carries that child's own embedding. */
  ghost predicate GenuineResult(cfg: Config, calls: Calls, r: ResultItem) {
    && Known(calls, ResultRef(r))
    && var req := calls[r.parentRequestId].req;
    && r.requestId == ChildId(req, r.inputIndex)
    && (r.ok ==> r.embedding == Some(cfg.embed(req.inputs[r.inputIndex])))
  }

  ghost predicate GenuineEntry(cfg: Config, calls: Calls, lane: Lane, e: Entry) {
    e.Work? ==> GenuineItem(cfg, calls, e.item) && calls[e.item.parentRequestId].req.lane == lane
  }

  /** Every decodable entry ever pushed to a lane is a child of a request of that lane. */
  ghost predicate PushesOk(cfg: Config, calls: Calls, pushes: map<Lane, seq<Entry>>) {
    forall lane, e | e in Get(pushes, lane) :: GenuineEntry(cfg, calls, lane, e)
  }

  function Trimmed(records: seq<ClaimRecord>): seq<Entry> {
    if records == [] then [] else Trimmed(records[..|records| - 1]) + records[|records| - 1].removed
  }

  /** Everything ever pushed to a lane is what claims trimmed, in claim order, followed by what is still queued. */
  ghost predicate LaneHistoryOk(s: State, lane: Lane) {
    Get(s.pushes, lane) == Trimmed(Get(s.claims, lane)) + Get(s.work, lane)
  }

  ghost predicate HistoryOk(s: State) {
    LaneHistoryOk(s, Query) && LaneHistoryOk(s, Document)
  }

  ghost predicate ClaimsOk(cfg: Config, claims: map<Lane, seq<ClaimRecord>>) {
    forall lane, c | c in Get(claims, lane) :: Fits(c.removed, LimitsOf(cfg.settings, lane), c.nowMs)
  }

  ghost predicate BatchOk(cfg: Config, calls: Calls, batch: seq<WorkItem>) {
    forall item | item in batch :: GenuineItem(cfg, calls, item)
  }

  ghost predicate WorkerOk(cfg: Config, calls: Calls, ws: WorkerState) {
    && BatchOk(cfg, calls, ws.batch)
    && (ws.Publishing? ==>
      && ws.sent <= |ws.batch| == |ws.results|
      && forall k | 0 <= k < |ws.batch| ::
        GenuineResult(cfg, calls, ws.results[k]) && ResultRef(ws.results[k]) == RefOf(ws.batch[k]))
  }

  ghost predicate WorkersOk(cfg: Config, calls: Calls, workers: map<nat, WorkerState>) {
    forall w | w in workers :: WorkerOk(cfg, calls, workers[w])
  }

  /** A result waits only in the result queue of the gateway that asked for it. */
  ghost predicate ReplyOk(cfg: Config, calls: Calls, g: string, r: ResultItem) {
    GenuineResult(cfg, calls, r) && calls[r.parentRequestId].req.gateway == g
  }

  ghost predicate RepliesOk(cfg: Config, calls: Calls, results: map<string, seq<ResultItem>>) {
    forall g, r | r in Get(results, g) :: ReplyOk(cfg, calls, g, r)
  }

  /** What is pending is a child of a call that is still active, under that child's own gateway and id. */
  ghost predicate PendingEntryOk(calls: Calls, key: PendingKey, ref: Ref) {
    && ref.parent in calls && calls[ref.parent].phase.Active?
    && ref.index < |calls[ref.parent].futures|
    && key == PendingKey(calls[ref.parent].req.gateway, ChildId(calls[ref.parent].req, ref.index))
  }

  ghost predicate PendingOk(calls: Calls, pending: map<PendingKey, Ref>) {
    forall key | key in pending :: PendingEntryOk(calls, key, pending[key])
  }

  /** A resolved future holds the result of the child it was created for. */
  ghost predicate FutureOk(cfg: Config, calls: Calls, ref: Ref, f: FutureState) {
    f.Done? ==> GenuineResult(cfg, calls, f.result) && ResultRef(f.result) == ref
  }

  ghost predicate FuturesOk(cfg: Config, calls: Calls) {
    forall p, i | p in calls && 0 <= i < |calls[p].futures| :: FutureOk(cfg, calls, Ref(p, i), calls[p].futures[i])
  }

  ghost predicate AnsweredOk(cfg: Config, c: Call, data: seq<EmbeddingData>) {
    && data == InOrder(c.req.inputs, cfg.embed)
    && AllRegistered(c) && AllDone(c.futures)
    && forall i | 0 <= i < |c.futures| :: c.futures[i].result.ok
  }

  ghost predicate FinishedOk(cfg: Config, c: Call) {
    c.phase.Finished? ==>
      match c.phase.outcome
      case Answered(data) => AnsweredOk(cfg, c, data)
      case Raised(e) => !e.MissingIndexes? && !e.NoEmbedding?
  }

  ghost predicate OutcomesOk(cfg: Config, calls: Calls) {
    forall p | p in calls :: FinishedOk(cfg, calls[p])
  }

  ghost predicate DataOk(cfg: Config, s: State) {
    && CallsOk(cfg, s.calls)
    && PushesOk(cfg, s.calls, s.pushes)
    && HistoryOk(s)
    && ClaimsOk(cfg, s.claims)
    && WorkersOk(cfg, s.calls, s.workers)
    && RepliesOk(cfg, s.calls, s.results)
    && PendingOk(s.calls, s.pending)
    && FuturesOk(cfg, s.calls)
    && OutcomesOk(cfg, s.calls)
  }

  // Requests never change and futures are only added, so what was genuine stays genuine.

  ghost predicate CallGrows(c: Call, c': Call) {
    c'.req == c.req && |c.futures| <= |c'.futures|
  }

  ghost predicate CallsGrow(calls: Calls, calls': Calls) {
    forall p | p in calls :: p in calls' && CallGrows(calls[p], calls'[p])
  }

  lemma PushesStay(cfg: Config, calls: Calls, calls': Calls, pushes: map<Lane, seq<Entry>>)
    requires CallsGrow(calls, calls') && PushesOk(cfg, calls, pushes)
    ensures PushesOk(cfg, calls', pushes)
  {
    forall lane, e | e in Get(pushes, lane) ensures GenuineEntry(cfg, calls', lane, e) {
      assert GenuineEntry(cfg, calls, lane, e);
    }
  }

  lemma WorkerStays(cfg: Config, calls: Calls, calls': Calls, ws: WorkerState)
    requires CallsGrow(calls, calls') && WorkerOk(cfg, calls, ws)
    ensures WorkerOk(cfg, calls', ws)
  {
    forall item | item in ws.batch ensures GenuineItem(cfg, calls', item) {
      assert GenuineItem(cfg, calls, item);
    }
    if ws.Publishing? {
      forall k | 0 <= k < |ws.batch| ensures GenuineResult(cfg, calls', ws.results[k]) {
        assert GenuineResult(cfg, calls, ws.results[k]);
      }
    }
  }

  lemma RepliesStay(cfg: Config, calls: Calls, calls': Calls, results: map<string, seq<ResultItem>>)
    requires CallsGrow(calls, calls') && RepliesOk(cfg, calls, results)
    ensures RepliesOk(cfg, calls', results)
  {
    forall g, r | r in Get(results, g) ensures ReplyOk(cfg, calls', g, r) {
      assert ReplyOk(cfg, calls, g, r);
    }
  }

  lemma PendingStays(calls: Calls, calls': Calls, pending: map<PendingKey, Ref>, pending': map<PendingKey, Ref>)
    requires CallsGrow(calls, calls') && PendingOk(calls, pending)
    requires forall key | key in pending' :: key in pending && pending'[key] == pending[key]
    requires forall key | key in pending' && pending'[key].parent in calls' && pending'[key].parent in calls ::
      calls[pending'[key].parent].phase.Active? ==> calls'[pending'[key].parent].phase.Active?
    ensures PendingOk(calls', pending')
  {
    forall key | key in pending' ensures PendingEntryOk(calls', key, pending'[key]) {
      assert PendingEntryOk(calls, key, pending[key]);
      assert CallGrows(calls[pending[key].parent], calls'[pending[key].parent]);
    }
  }

  /** The parts of a state that outlive any change to the calls. */
  lemma RequestsStay(cfg: Config, s: State, calls': Calls)
    requires CallsGrow(s.calls, calls')
    requires PushesOk(cfg, s.calls, s.pushes) && WorkersOk(cfg, s.calls, s.workers)
    requires RepliesOk(cfg, s.calls, s.results)
    ensures PushesOk(cfg, calls', s.pushes) && WorkersOk(cfg, calls', s.workers) && RepliesOk(cfg, calls', s.results)
  {
    PushesStay(cfg, s.calls, calls', s.pushes);
    forall w | w in s.workers ensures WorkerOk(cfg, calls', s.workers[w]) {
      WorkerStays(cfg, s.calls, calls', s.workers[w]);
    }
    RepliesStay(cfg, s.calls, calls', s.results);
  }

  // Changing one call.

  lemma OneCallGrows(calls: Calls, p: string, c': Call)
    requires p in calls ==> CallGrows(calls[p], c')
    ensures CallsGrow(calls, calls[p := c'])
  {
  }

  /** One call changes: its futures stay as they were, except that some may be new or be resolved correctly. */
  lemma OneCallKeepsFutures(cfg: Config, calls: Calls, p: string, c': Call)
    requires FuturesOk(cfg, calls)
    requires p in calls ==> CallGrows(calls[p], c')
    requires forall i | 0 <= i < |c'.futures| ::
      || (p in calls && i < |calls[p].futures| && c'.futures[i] == calls[p].futures[i])
      || FutureOk(cfg, calls, Ref(p, i), c'.futures[i])
    ensures FuturesOk(cfg, calls[p := c'])
  {
    var calls' := calls[p := c'];
    forall q, i | q in calls' && 0 <= i < |calls'[q].futures|
      ensures FutureOk(cfg, calls', Ref(q, i), calls'[q].futures[i])
    {
      if q in calls && i < |calls[q].futures| {
        assert FutureOk(cfg, calls, Ref(q, i), calls[q].futures[i]);
      }
    }
  }

  lemma OneCallKeepsOutcomes(cfg: Config, calls: Calls, p: string, c': Call)
    requires OutcomesOk(cfg, calls) && FinishedOk(cfg, c')
    ensures OutcomesOk(cfg, calls[p := c'])
  {
    var calls' := calls[p := c'];
    forall q | q in calls' ensures FinishedOk(cfg, calls'[q]) {
      assert q != p ==> FinishedOk(cfg, calls[q]);
    }
  }

  lemma OneCallKeepsCalls(cfg: Config, calls: Calls, p: string, c': Call)
    requires CallsOk(cfg, calls) && CallOk(cfg, p, c')
    ensures CallsOk(cfg, calls[p := c'])
  {
  }

  /** One call changes, and with it what is pending. */
  lemma OneCallKeepsData(cfg: Config, s: State, p: string, c': Call, pending': map<PendingKey, Ref>)
    requires DataOk(cfg, s)
    requires CallOk(cfg, p, c') && FinishedOk(cfg, c')
    requires p in s.calls ==> CallGrows(s.calls[p], c')
    requires forall i | 0 <= i < |c'.futures| ::
      || (p in s.calls && i < |s.calls[p].futures| && c'.futures[i] == s.calls[p].futures[i])
      || FutureOk(cfg, s.calls, Ref(p, i), c'.futures[i])
    requires PendingOk(s.calls[p := c'], pending')
    ensures DataOk(cfg, s.(calls := s.calls[p := c'], pending := pending'))
  {
    var calls' := s.calls[p := c'];
    OneCallGrows(s.calls, p, c');
    OneCallKeepsCalls(cfg, s.calls, p, c');
    OneCallKeepsFutures(cfg, s.calls, p, c');
    OneCallKeepsOutcomes(cfg, s.calls, p, c');
    RequestsStay(cfg, s, calls');
    var s' := s.(calls := calls', pending := pending');
    assert LaneHistoryOk(s, Query) && LaneHistoryOk(s, Document);
    assert LaneHistoryOk(s', Query) && LaneHistoryOk(s', Document);
  }

  /** A call that keeps its phase keeps what is pending. */
  lemma SamePhaseKeepsPending(calls: Calls, p: string, c': Call, pending: map<PendingKey, Ref>)
    requires PendingOk(calls, pending)
    requires p in calls ==> CallGrows(calls[p], c') && c'.phase == calls[p].phase
    ensures PendingOk(calls[p := c'], pending)
  {
    OneCallGrows(calls, p, c');
    forall key | key in pending ensures PendingEntryOk(calls[p := c'], key, pending[key]) {
      assert PendingEntryOk(calls, key, pending[key]);
    }
  }

  // The steps, one by one.

  lemma SubmitKeepsData(cfg: Config, s: State, req: Request, model: string, inputType: Option<InputType>)
    requires DataOk(cfg, s) && req.id !in s.calls && ColonFree(req.id) && |req.inputs| == |req.tokenCounts|
    requires BatchLane(cfg.settings, true, model, req.tokenCounts, inputType) == Some(req.lane)
    ensures DataOk(cfg, RunSubmit(s, req))
  {
    LanesAdmit(cfg.settings, true, model, req.tokenCounts, inputType);
    var c' := RunSubmit(s, req).calls[req.id];
    SamePhaseKeepsPending(s.calls, req.id, c', s.pending);
    OneCallKeepsData(cfg, s, req.id, c', s.pending);
  }

  lemma RegisterKeepsData(cfg: Config, s: State, p: string)
    requires DataOk(cfg, s) && p in s.calls && s.calls[p].phase.Active?
    requires |s.calls[p].futures| == s.calls[p].pushed < |s.calls[p].req.inputs|
    ensures DataOk(cfg, RunRegister(s, p))
  {
    var c := s.calls[p];
    var c' := c.(futures := c.futures + [Waiting]);
    assert CallOk(cfg, p, c);
    var s' := RunRegister(s, p);
    SamePhaseKeepsPending(s.calls, p, c', s.pending);
    forall key | key in s'.pending ensures PendingEntryOk(s'.calls, key, s'.pending[key]) {
      assert key in s.pending ==> PendingEntryOk(s'.calls, key, s.pending[key]);
    }
    OneCallKeepsData(cfg, s, p, c', s'.pending);
  }

  lemma AppendKeepsHistory(s: State, s': State, lane: Lane, e: Entry)
    requires LaneHistoryOk(s, lane) && Get(s'.claims, lane) == Get(s.claims, lane)
    requires Get(s'.pushes, lane) == Get(s.pushes, lane) + [e]
    requires Get(s'.work, lane) == Get(s.work, lane) + [e]
    ensures LaneHistoryOk(s', lane)
  {
    var trimmed := Trimmed(Get(s.claims, lane));
    assert (trimmed + Get(s.work, lane)) + [e] == trimmed + (Get(s.work, lane) + [e]);
  }

  /** Appending a genuine entry to a lane, as a push does. */
  lemma AppendKeepsData(cfg: Config, s: State, s': State, lane: Lane, e: Entry)
    requires DataOk(cfg, s) && GenuineEntry(cfg, s.calls, lane, e)
    requires s'.work == s.work[lane := Get(s.work, lane) + [e]]
    requires s'.pushes == s.pushes[lane := Get(s.pushes, lane) + [e]]
    requires s' == s.(work := s'.work, pushes := s'.pushes, place := s'.place)
    ensures DataOk(cfg, s')
  {
    forall l: Lane, x: Entry | x in Get(s'.pushes, l) ensures GenuineEntry(cfg, s'.calls, l, x) {
      assert x in Get(s.pushes, l) ==> GenuineEntry(cfg, s.calls, l, x);
    }
    assert LaneHistoryOk(s, Query) && LaneHistoryOk(s, Document);
    AppendKeepsHistory(s, s', lane, e);
    assert LaneHistoryOk(s', Query) && LaneHistoryOk(s', Document);
  }

  lemma PushedCallOk(cfg: Config, p: string, c: Call, c': Call)
    requires CallOk(cfg, p, c) && FinishedOk(cfg, c) && c.pushed < |c.futures|
    requires c' == c.(pushed := c.pushed + 1)
    ensures CallOk(cfg, p, c') && FinishedOk(cfg, c') && CallGrows(c, c')
  {
  }

  lemma PushedEntryOk(cfg: Config, calls: Calls, p: string, i: nat)
    requires p in calls && CallOk(cfg, p, calls[p]) && i < |calls[p].req.inputs|
    ensures
      GenuineEntry(cfg, calls, calls[p].req.lane, Work(ChildItem(calls[p].req, i, cfg.settings.requestTimeoutMs)))
  {
  }

  lemma PushKeepsData(cfg: Config, s: State, p: string)
    requires DataOk(cfg, s)
    requires p in s.calls && s.calls[p].pushed < |s.calls[p].futures|
    requires s.calls[p].pushed < |s.calls[p].req.inputs| == |s.calls[p].req.tokenCounts|
    ensures DataOk(cfg, RunPush(cfg, s, p))
  {
    var c := s.calls[p];
    var c' := c.(pushed := c.pushed + 1);
    PushedCallOk(cfg, p, c, c');
    SamePhaseKeepsPending(s.calls, p, c', s.pending);
    OneCallKeepsData(cfg, s, p, c', s.pending);
    var mid := s.(calls := s.calls[p := c']);
    var e := Work(ChildItem(c.req, c.pushed, cfg.settings.requestTimeoutMs));
    PushedEntryOk(cfg, mid.calls, p, c.pushed);
    AppendKeepsData(cfg, mid, RunPush(cfg, s, p), c.req.lane, e);
  }

  lemma MalformedKeepsData(cfg: Config, s: State, lane: Lane, raw: string)
    requires DataOk(cfg, s)
    ensures DataOk(cfg, RunPushMalformed(s, lane, raw))
  {
    AppendKeepsData(cfg, s, RunPushMalformed(s, lane, raw), lane, Malformed(raw));
  }

  lemma QueuedWasPushed(s: State, lane: Lane, e: Entry)
    requires LaneHistoryOk(s, lane) && e in Get(s.work, lane)
    ensures e in Get(s.pushes, lane)
  {
  }

  lemma {:induction false} LiveItemsCome(q: seq<Entry>, nowMs: int, item: WorkItem)
    requires item in LiveItems(q, nowMs)
    ensures Work(item) in q && IsLive(Work(item), nowMs)
  {
    if !(IsLive(q[0], nowMs) && item == q[0].item) {
      LiveItemsCome(q[1..], nowMs, item);
    }
  }

  lemma ClaimedBatchOk(cfg: Config, s: State, lane: Lane, nowMs: int)
    requires ValidConfig(cfg) && PushesOk(cfg, s.calls, s.pushes) && LaneHistoryOk(s, lane)
    ensures BatchOk(cfg, s.calls, Batch(Get(s.work, lane), LimitsOf(cfg.settings, lane), nowMs))
  {
    var q := Get(s.work, lane);
    var n := Removed(q, LimitsOf(cfg.settings, lane), nowMs);
    forall item | item in LiveItems(q[..n], nowMs) ensures GenuineItem(cfg, s.calls, item) {
      LiveItemsCome(q[..n], nowMs, item);
      assert Work(item) in q;
      QueuedWasPushed(s, lane, Work(item));
      assert GenuineEntry(cfg, s.calls, lane, Work(item));
    }
  }

  lemma ClaimKeepsHistory(cfg: Config, s: State, w: nat, lane: Lane, nowMs: int)
    requires ValidConfig(cfg) && LaneHistoryOk(s, lane)
    ensures LaneHistoryOk(RunClaim(cfg, s, w, lane, nowMs), lane)
  {
    var q := Get(s.work, lane);
    var n := Removed(q, LimitsOf(cfg.settings, lane), nowMs);
    var records := Get(s.claims, lane);
    var record := ClaimRecord(w, nowMs, q[..n]);
    assert (records + [record])[..|records|] == records;
    assert Trimmed(records) + q == (Trimmed(records) + q[..n]) + q[n..];
  }

  lemma ClaimKeepsClaims(cfg: Config, s: State, w: nat, lane: Lane, nowMs: int)
    requires ValidConfig(cfg) && ClaimsOk(cfg, s.claims)
    ensures ClaimsOk(cfg, RunClaim(cfg, s, w, lane, nowMs).claims)
  {
    var claims' := RunClaim(cfg, s, w, lane, nowMs).claims;
    ClaimSpec(Get(s.work, lane), LimitsOf(cfg.settings, lane), nowMs);
    forall l: Lane, c: ClaimRecord | c in Get(claims', l) ensures Fits(c.removed, LimitsOf(cfg.settings, l), c.nowMs) {
      assert c in Get(s.claims, l) ==> Fits(c.removed, LimitsOf(cfg.settings, l), c.nowMs);
    }
  }

  lemma ClaimKeepsWorkers(cfg: Config, s: State, w: nat, lane: Lane, nowMs: int)
    requires ValidConfig(cfg) && PushesOk(cfg, s.calls, s.pushes) && LaneHistoryOk(s, lane)
    requires WorkersOk(cfg, s.calls, s.workers)
    ensures WorkersOk(cfg, s.calls, RunClaim(cfg, s, w, lane, nowMs).workers)
  {
    var workers' := RunClaim(cfg, s, w, lane, nowMs).workers;
    ClaimedBatchOk(cfg, s, lane, nowMs);
    forall v | v in workers' ensures WorkerOk(cfg, s.calls, workers'[v]) {
      assert v in s.workers ==> WorkerOk(cfg, s.calls, s.workers[v]);
    }
  }

  lemma ClaimLeavesOtherLane(cfg: Config, s: State, w: nat, lane: Lane, nowMs: int, other: Lane)
    requires ValidConfig(cfg) && LaneHistoryOk(s, other) && other != lane
    ensures LaneHistoryOk(RunClaim(cfg, s, w, lane, nowMs), other)
  {
  }

  lemma ClaimKeepsData(cfg: Config, s: State, w: nat, lane: Lane, nowMs: int)
    requires ValidConfig(cfg) && DataOk(cfg, s)
    ensures DataOk(cfg, RunClaim(cfg, s, w, lane, nowMs))
  {
    assert LaneHistoryOk(s, Query) && LaneHistoryOk(s, Document);
    ClaimKeepsHistory(cfg, s, w, lane, nowMs);
    ClaimLeavesOtherLane(cfg, s, w, lane, nowMs, if lane == Query then Document else Query);
    ClaimKeepsClaims(cfg, s, w, lane, nowMs);
    ClaimKeepsWorkers(cfg, s, w, lane, nowMs);
  }

  /** A faithful model server makes every result of the batch genuine, whatever order it replies in. */
  lemma AnswersAreGenuine(cfg: Config, calls: Calls, batch: seq<WorkItem>, outcome: ModelOutcome)
    requires BatchOk(cfg, calls, batch)
    requires Faithful(InputTexts(batch), outcome, cfg.embed)
    ensures WorkerOk(cfg, calls, Publishing(batch, BatchResults(batch, outcome), 0))
  {
    var inputs := InputTexts(batch);
    var answer := AnswerOf(outcome, |batch|);
    AnswerFitsBatch(outcome, |batch|);
    if answer.Rows? {
      AcceptedExactly(outcome.reply, |batch|);
      NamedReplyIsInOrder(outcome.reply.items, inputs, cfg.embed);
    }
    forall k | 0 <= k < |batch|
      ensures GenuineResult(cfg, calls, BatchResults(batch, outcome)[k])
      ensures ResultRef(BatchResults(batch, outcome)[k]) == RefOf(batch[k])
    {
      assert batch[k] in batch;
      assert inputs[k] == batch[k].inputText;
    }
  }

  /** Replacing, in a state whose calls stay, the workers and the result queues. */
  lemma WorkersAndResults(cfg: Config, s: State, s': State)
    requires DataOk(cfg, s)
    requires s' == s.(workers := s'.workers, windows := s'.windows, results := s'.results, place := s'.place)
    requires WorkersOk(cfg, s.calls, s'.workers) && RepliesOk(cfg, s.calls, s'.results)
    ensures DataOk(cfg, s')
  {
    assert LaneHistoryOk(s, Query) && LaneHistoryOk(s, Document);
    assert LaneHistoryOk(s', Query) && LaneHistoryOk(s', Document);
  }

  lemma ModelAnswersKeepsData(cfg: Config, s: State, w: nat, outcome: ModelOutcome)
    requires DataOk(cfg, s) && w in s.workers && s.workers[w].Claimed?
    requires Faithful(InputTexts(s.workers[w].batch), outcome, cfg.embed)
    ensures DataOk(cfg, RunModelAnswers(s, w, outcome))
  {
    var s' := RunModelAnswers(s, w, outcome);
    assert WorkerOk(cfg, s.calls, s.workers[w]);
    AnswersAreGenuine(cfg, s.calls, s.workers[w].batch, outcome);
    WorkersAndResults(cfg, s, s');
  }

  lemma PublishKeepsData(cfg: Config, s: State, w: nat)
    requires DataOk(cfg, s) && w in s.workers && s.workers[w].Publishing?
    requires s.workers[w].sent < |s.workers[w].batch| == |s.workers[w].results|
    ensures DataOk(cfg, RunPublish(s, w))
  {
    var s' := RunPublish(s, w);
    var ws := s.workers[w];
    assert WorkerOk(cfg, s.calls, ws);
    assert ws.batch[ws.sent] in ws.batch;
    assert GenuineItem(cfg, s.calls, ws.batch[ws.sent]);
    assert GenuineResult(cfg, s.calls, ws.results[ws.sent]);
    forall g, r | r in Get(s'.results, g) ensures ReplyOk(cfg, s.calls, g, r) {
      assert r in Get(s.results, g) ==> ReplyOk(cfg, s.calls, g, r);
    }
    assert WorkerOk(cfg, s.calls, ws.(sent := ws.sent + 1));
    WorkersAndResults(cfg, s, s');
  }

  lemma CrashKeepsData(cfg: Config, s: State, w: nat)
    requires DataOk(cfg, s)
    ensures DataOk(cfg, RunCrash(s, w))
  {
    WorkersAndResults(cfg, s, RunCrash(s, w));
  }

  lemma FewerResults(cfg: Config, s: State, g: string, count: nat)
    requires RepliesOk(cfg, s.calls, s.results) && count <= |Get(s.results, g)|
    ensures RepliesOk(cfg, s.calls, s.results[g := Get(s.results, g)[count..]])
  {
    var results' := s.results[g := Get(s.results, g)[count..]];
    forall h, r | r in Get(results', h) ensures ReplyOk(cfg, s.calls, h, r) {
      assert r in Get(s.results, h);
    }
  }

  lemma DropKeepsData(cfg: Config, s: State, g: string, count: nat)
    requires DataOk(cfg, s) && count <= |Get(s.results, g)|
    ensures DataOk(cfg, RunDropResults(s, g, count))
  {
    FewerResults(cfg, s, g, count);
    WorkersAndResults(cfg, s, RunDropResults(s, g, count));
  }

  /** The future that the listener resolves is the one created for the child that the result answers. */
  lemma ListenerFindsOwner(cfg: Config, s: State, g: string, r: ResultItem)
    requires CallsOk(cfg, s.calls) && PendingOk(s.calls, s.pending) && ReplyOk(cfg, s.calls, g, r)
    requires PendingKey(g, r.requestId) in s.pending
    ensures s.pending[PendingKey(g, r.requestId)] == ResultRef(r)
    ensures ResultRef(r).index < |s.calls[ResultRef(r).parent].futures|
  {
    var ref := s.pending[PendingKey(g, r.requestId)];
    assert PendingEntryOk(s.calls, PendingKey(g, r.requestId), ref);
    assert CallOk(cfg, ref.parent, s.calls[ref.parent]) && CallOk(cfg, r.parentRequestId, s.calls[r.parentRequestId]);
    ChildIdsInjective(
      ref.parent, |s.calls[ref.parent].req.inputs|, ref.index,
      r.parentRequestId, |s.calls[r.parentRequestId].req.inputs|, r.inputIndex);
  }

  /** Resolving a waiting future with its own result. */
  lemma ResolveKeepsData(cfg: Config, s: State, ref: Ref, r: ResultItem)
    requires DataOk(cfg, s) && ref.parent in s.calls && ref.index < |s.calls[ref.parent].futures|
    requires s.calls[ref.parent].futures[ref.index].Waiting?
    requires GenuineResult(cfg, s.calls, r) && ResultRef(r) == ref
    ensures DataOk(cfg, s.(calls := Resolve(s.calls, ref, r)))
  {
    var c := s.calls[ref.parent];
    var c' := c.(futures := c.futures[ref.index := Done(r)]);
    assert CallOk(cfg, ref.parent, c) && FinishedOk(cfg, c);
    SamePhaseKeepsPending(s.calls, ref.parent, c', s.pending);
    OneCallKeepsData(cfg, s, ref.parent, c', s.pending);
    assert s.(calls := s.calls[ref.parent := c'], pending := s.pending) == s.(calls := s.calls[ref.parent := c']);
  }

  lemma PoppedKeepsData(cfg: Config, s: State, g: string, place': map<Ref, Place>)
    requires DataOk(cfg, s) && Get(s.results, g) != []
    ensures DataOk(cfg, Popped(s, g, place'))
  {
    FewerResults(cfg, s, g, 1);
    WorkersAndResults(cfg, s, Popped(s, g, place'));
  }

  function Popped(s: State, g: string, place': map<Ref, Place>): State
    requires Get(s.results, g) != []
  {
    s.(results := s.results[g := Get(s.results, g)[1..]], place := place')
  }

  lemma ListenIsPopAndResolve(s: State, g: string)
    requires Get(s.results, g) != []
    ensures
      var r := Get(s.results, g)[0];
      var key := PendingKey(g, r.requestId);
      var s' := RunListen(s, g);
      var mid := Popped(s, g, s'.place);
      s' == if key in s.pending && IsAwaited(s.calls, s.pending[key])
            then mid.(calls := Resolve(s.calls, s.pending[key], r)) else mid
  {
  }

  lemma ListenKeepsData(cfg: Config, s: State, g: string)
    requires DataOk(cfg, s) && Get(s.results, g) != []
    ensures DataOk(cfg, RunListen(s, g))
  {
    var r := Get(s.results, g)[0];
    var mid := Popped(s, g, RunListen(s, g).place);
    PoppedKeepsData(cfg, s, g, mid.place);
    ListenIsPopAndResolve(s, g);
    assert ReplyOk(cfg, s.calls, g, r);
    if PendingKey(g, r.requestId) in s.pending && IsAwaited(s.calls, s.pending[PendingKey(g, r.requestId)]) {
      ListenerFindsOwner(cfg, s, g, r);
      ResolveKeepsData(cfg, mid, ResultRef(r), r);
    }
  }

  lemma ConcludeKeepsData(cfg: Config, s: State, p: string, outcome: Outcome)
    requires DataOk(cfg, s) && p in s.calls
    requires FinishedOk(cfg, s.calls[p].(phase := Finished(outcome)))
    ensures DataOk(cfg, Conclude(s, p, outcome))
  {
    var c' := s.calls[p].(phase := Finished(outcome));
    assert CallOk(cfg, p, s.calls[p]);
    ConcludeKeepsPending(s, p, outcome);
    OneCallKeepsData(cfg, s, p, c', Conclude(s, p, outcome).pending);
  }

  /** The `finally` block forgets every child of the call that ends. */
  lemma ConcludeKeepsPending(s: State, p: string, outcome: Outcome)
    requires PendingOk(s.calls, s.pending) && p in s.calls && |s.calls[p].futures| <= |s.calls[p].req.inputs|
    ensures PendingOk(Conclude(s, p, outcome).calls, Conclude(s, p, outcome).pending)
  {
    var s' := Conclude(s, p, outcome);
    forall key | key in s'.pending ensures PendingEntryOk(s'.calls, key, s'.pending[key]) {
      assert PendingEntryOk(s.calls, key, s.pending[key]);
    }
  }

  /** Returning with every future resolved: the rows are the inputs' embeddings, or a child's own error is raised. */
  lemma ReturnIsOk(cfg: Config, s: State, p: string)
    requires CallsOk(cfg, s.calls) && FuturesOk(cfg, s.calls)
    requires p in s.calls && AllRegistered(s.calls[p]) && AllDone(s.calls[p].futures)
    ensures FinishedOk(cfg, s.calls[p].(phase := Finished(Concluded(s.calls[p].req, Gathered(s.calls[p].futures)))))
  {
    var c := s.calls[p];
    var results := Gathered(c.futures);
    forall i | 0 <= i < |c.futures|
      ensures results[i].inputIndex == i && GenuineResult(cfg, s.calls, results[i])
      ensures ResultRef(results[i]) == Ref(p, i)
    {
      assert FutureOk(cfg, s.calls, Ref(p, i), c.futures[i]);
    }
    ReassembleInOrder(c.req.lane, |c.req.inputs|, results);
    ReassembleExact(c.req.lane, |c.req.inputs|, results);
    var outcome := Concluded(c.req, results);
    if outcome.Answered? {
      forall i | 0 <= i < |results| ensures results[i].ok {
        assert !IsBad(results[i]);
      }
      assert outcome.data == InOrder(c.req.inputs, cfg.embed);
    }
  }

  lemma ReturnKeepsData(cfg: Config, s: State, p: string)
    requires DataOk(cfg, s) && p in s.calls && AllRegistered(s.calls[p]) && AllDone(s.calls[p].futures)
    ensures DataOk(cfg, Conclude(s, p, Concluded(s.calls[p].req, Gathered(s.calls[p].futures))))
  {
    ReturnIsOk(cfg, s, p);
    ConcludeKeepsData(cfg, s, p, Concluded(s.calls[p].req, Gathered(s.calls[p].futures)));
  }

  lemma StopFutureEffect(s: State, g: string, c: Call, i: nat)
    requires i < |c.futures|
    ensures
      var c' := StopFutures(s, g, c);
      && c' == c.(futures := c'.futures) && |c'.futures| == |c.futures|
      && (c'.futures[i] == c.futures[i] || (c.futures[i].Waiting? && c'.futures[i].Stopped?))
  {
  }

  lemma StopCallEffect(cfg: Config, s: State, g: string, p: string)
    requires p in s.calls && CallOk(cfg, p, s.calls[p]) && FinishedOk(cfg, s.calls[p])
    ensures
      var c' := RunStop(s, g).calls[p];
      CallGrows(s.calls[p], c') && CallOk(cfg, p, c') && FinishedOk(cfg, c')
  {
    var c := s.calls[p];
    var c' := StopFutures(s, g, c);
    assert RunStop(s, g).calls[p] == c';
    forall i | 0 <= i < |c.futures| && c.futures[i].Done? ensures c'.futures[i] == c.futures[i] {
      StopFutureEffect(s, g, c, i);
    }
  }

  lemma StopKeepsFutures(cfg: Config, s: State, g: string)
    requires FuturesOk(cfg, s.calls) && CallsGrow(s.calls, RunStop(s, g).calls)
    ensures FuturesOk(cfg, RunStop(s, g).calls)
  {
    var calls' := RunStop(s, g).calls;
    forall p, i | p in calls' && 0 <= i < |calls'[p].futures|
      ensures FutureOk(cfg, calls', Ref(p, i), calls'[p].futures[i])
    {
      StopFutureEffect(s, g, s.calls[p], i);
      assert FutureOk(cfg, s.calls, Ref(p, i), s.calls[p].futures[i]);
    }
  }

  lemma StopKeepsData(cfg: Config, s: State, g: string)
    requires DataOk(cfg, s)
    ensures DataOk(cfg, RunStop(s, g))
  {
    var s' := RunStop(s, g);
    forall p | p in s.calls
      ensures p in s'.calls && CallGrows(s.calls[p], s'.calls[p])
      ensures CallOk(cfg, p, s'.calls[p]) && FinishedOk(cfg, s'.calls[p])
    {
      assert CallOk(cfg, p, s.calls[p]) && FinishedOk(cfg, s.calls[p]);
      StopCallEffect(cfg, s, g, p);
    }
    StopKeepsFutures(cfg, s, g);
    RequestsStay(cfg, s, s'.calls);
    PendingStays(s.calls, s'.calls, s.pending, s'.pending);
    assert LaneHistoryOk(s, Query) && LaneHistoryOk(s, Document);
    assert LaneHistoryOk(s', Query) && LaneHistoryOk(s', Document);
  }

  lemma CloseKeepsData(cfg: Config, s: State, g: string)
    requires DataOk(cfg, s)
    ensures DataOk(cfg, RunClose(s, g))
  {
    assert LaneHistoryOk(s, Query) && LaneHistoryOk(s, Document);
    assert LaneHistoryOk(RunClose(s, g), Query) && LaneHistoryOk(RunClose(s, g), Document);
  }

  lemma EndKeepsData(cfg: Config, s: State, step: Step)
    requires ValidConfig(cfg) && Enabled(cfg, s, step) && DataOk(cfg, s) && IsEnd(step)
    ensures DataOk(cfg, Apply(cfg, s, step))
  {
    match step
    case Return(p) => ReturnKeepsData(cfg, s, p);
    case TimeOut(p) => ConcludeKeepsData(cfg, s, p, Raised(TimedOut(s.calls[p].req.lane)));
    case RaiseStopped(p, i) => ConcludeKeepsData(cfg, s, p, Raised(ClientStopped(ChildId(s.calls[p].req, i))));
    case Interrupt(p, message) => ConcludeKeepsData(cfg, s, p, Raised(Interrupted(message)));
  }

  lemma GatewayKeepsData(cfg: Config, s: State, step: Step)
    requires ValidConfig(cfg) && Enabled(cfg, s, step) && DataOk(cfg, s) && IsGatewayStep(step) && !IsEnd(step)
    ensures DataOk(cfg, Apply(cfg, s, step))
  {
    match step
    case Submit(req, model, inputType) => SubmitKeepsData(cfg, s, req, model, inputType);
    case Register(p) => RegisterKeepsData(cfg, s, p);
    case Push(p) => PushKeepsData(cfg, s, p);
    case Listen(g) => ListenKeepsData(cfg, s, g);
    case Close(g) => CloseKeepsData(cfg, s, g);
    case Stop(g) => StopKeepsData(cfg, s, g);
  }

  lemma OutsideKeepsData(cfg: Config, s: State, step: Step)
    requires ValidConfig(cfg) && Enabled(cfg, s, step) && DataOk(cfg, s) && !IsGatewayStep(step)
    ensures DataOk(cfg, Apply(cfg, s, step))
  {
    match step
    case PushMalformed(lane, raw) => MalformedKeepsData(cfg, s, lane, raw);
    case Peek(w, lane, nowMs) => WorkersAndResults(cfg, s, RunPeek(s, w, lane, nowMs));
    case Claim(w, lane, nowMs) => ClaimKeepsData(cfg, s, w, lane, nowMs);
    case ModelAnswers(w, outcome) => ModelAnswersKeepsData(cfg, s, w, outcome);
    case Publish(w) => PublishKeepsData(cfg, s, w);
    case Crash(w) => CrashKeepsData(cfg, s, w);
    case DropResults(g, count) => DropKeepsData(cfg, s, g, count);
  }

  lemma StepKeepsData(cfg: Config, s: State, step: Step)
    requires ValidConfig(cfg) && Enabled(cfg, s, step) && DataOk(cfg, s)
    ensures DataOk(cfg, Apply(cfg, s, step))
  {
    if IsEnd(step) {
      EndKeepsData(cfg, s, step);
    } else if IsGatewayStep(step) {
      GatewayKeepsData(cfg, s, step);
    } else {
      OutsideKeepsData(cfg, s, step);
    }
  }
}
