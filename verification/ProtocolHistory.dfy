/** What holds of the lanes in every run: order, freedom from starvation, batch sizes and token accounting. */
module ProtocolHistory {
  import opened QueueModels
  import opened Claiming
  import opened Workload
  import opened BatchingClient
  import opened Protocol
  import opened ProtocolData
  import opened ProtocolTheorems

  /** The tokens of the batches that the claims of a lane returned. */
  function ClaimedTokens(records: seq<ClaimRecord>): nat {
    if records == [] then 0
    else
      var last := records[|records| - 1];
      ClaimedTokens(records[..|records| - 1]) + ItemTokens(LiveItems(last.removed, last.nowMs))
  }

  /** The tokens of the items that the claims of a lane dropped as expired. */
  function ExpiredTokens(records: seq<ClaimRecord>): nat {
    if records == [] then 0
    else
      var last := records[|records| - 1];
      ExpiredTokens(records[..|records| - 1]) + ItemTokens(ExpiredItems(last.removed, last.nowMs))
  }

  lemma {:induction false} TrimmedTokens(records: seq<ClaimRecord>)
    ensures Tokens(Trimmed(records)) == ClaimedTokens(records) + ExpiredTokens(records)
  {
    if records != [] {
      var front, last := records[..|records| - 1], records[|records| - 1];
      TrimmedTokens(front);
      TokensConcat(Trimmed(front), last.removed);
      LiveAndExpiredTokens(last.removed, last.nowMs);
    }
  }

  /**
   * First in, first out under any number of workers: what was ever pushed to a lane is what the claims trimmed, in
   * claim order, followed by the queue.
   */
  lemma FifoHistory(cfg: Config, run: seq<State>, i: nat, lane: Lane)
    requires ValidConfig(cfg) && IsRun(cfg, run) && i < |run|
    ensures Get(run[i].pushes, lane) == Trimmed(Get(run[i].claims, lane)) + Get(run[i].work, lane)
  {
    RunKeepsInv(cfg, run, i);
    assert LaneHistoryOk(run[i], lane);
  }

  /** Token conservation: enqueued is claimed plus expired plus backlog, for each lane, in every state of every run. */
  lemma TokenConservation(cfg: Config, run: seq<State>, i: nat, lane: Lane)
    requires ValidConfig(cfg) && IsRun(cfg, run) && i < |run|
    ensures
      Tokens(Get(run[i].pushes, lane)) ==
      ClaimedTokens(Get(run[i].claims, lane)) + ExpiredTokens(Get(run[i].claims, lane)) + Tokens(Get(run[i].work, lane))
  {
    FifoHistory(cfg, run, i, lane);
    TokensConcat(Trimmed(Get(run[i].claims, lane)), Get(run[i].work, lane));
    TrimmedTokens(Get(run[i].claims, lane));
  }

  lemma {:induction false} TrimmedIncludes(records: seq<ClaimRecord>, c: ClaimRecord, e: Entry)
    requires c in records && e in c.removed
    ensures e in Trimmed(records)
  {
    if c != records[|records| - 1] {
      TrimmedIncludes(records[..|records| - 1], c, e);
    }
  }

  lemma {:induction false} SingletonTokens(items: seq<WorkItem>, bound: int)
    requires |items| <= 1 && 0 <= bound && forall item | item in items :: item.tokenCount <= bound
    ensures ItemTokens(items) <= bound
  {
    if items != [] {
      assert items[0] in items && items[1..] == [];
    }
  }

  /** Every batch of a lane is within that lane's own item limit, and within its token target or a single item. */
  lemma BatchBound(cfg: Config, run: seq<State>, i: nat, lane: Lane, c: ClaimRecord)
    requires ValidConfig(cfg) && IsRun(cfg, run) && i < |run| && c in Get(run[i].claims, lane)
    ensures
      var batch := LiveItems(c.removed, c.nowMs);
      match lane
      case Query =>
        && |c.removed| <= cfg.settings.queryBatchMaxItems
        && (|batch| <= 1 || ItemTokens(batch) <= cfg.settings.queryBatchTargetTokens)
      case Document =>
        && |c.removed| <= cfg.settings.documentBatchMaxItems
        && (|batch| <= 1 || ItemTokens(batch) <= cfg.settings.documentBatchTargetTokens)
  {
    RunKeepsInv(cfg, run, i);
    assert Fits(c.removed, LimitsOf(cfg.settings, lane), c.nowMs);
  }

  /**
   * No claim takes less than it may: it trims as many entries as its lane's item limit allows, or the whole queue, or
   * the next entry is live and would take the batch past its lane's token target.
   */
  lemma ClaimTakesAllItMay(cfg: Config, s: State, w: nat, lane: Lane, nowMs: int)
    requires ValidConfig(cfg) && IsIdle(s, w)
    ensures
      var s' := RunClaim(cfg, s, w, lane, nowMs);
      var rest := Get(s'.work, lane);
      var removed := |Get(s.work, lane)| - |rest|;
      var maxItems := if lane.Query? then cfg.settings.queryBatchMaxItems else cfg.settings.documentBatchMaxItems;
      var target := if lane.Query? then cfg.settings.queryBatchTargetTokens else cfg.settings.documentBatchTargetTokens;
      || removed == maxItems
      || rest == []
      || (&& rest[0].Work? && !Expired(rest[0].item, nowMs) && Unsent(s', w) != []
          && target < ItemTokens(Unsent(s', w)) + rest[0].item.tokenCount)
  {
    var q := Get(s.work, lane);
    ClaimSpec(q, LimitsOf(cfg.settings, lane), nowMs);
  }

  /**
   * The query lane's cap has no exception: when the query limit of the gateway does not exceed the workers' target,
   * no batch ever claimed from the query lane exceeds the target, not even a batch of one.
   */
  lemma QueryLaneCap(cfg: Config, run: seq<State>, i: nat, c: ClaimRecord)
    requires ValidConfig(cfg) && IsRun(cfg, run) && i < |run| && c in Get(run[i].claims, Query)
    requires cfg.settings.queryMaxTokens <= cfg.settings.queryBatchTargetTokens
    requires 0 <= cfg.settings.queryBatchTargetTokens
    ensures ItemTokens(LiveItems(c.removed, c.nowMs)) <= cfg.settings.queryBatchTargetTokens
  {
    RunKeepsInv(cfg, run, i);
    BatchBound(cfg, run, i, Query, c);
    var batch := LiveItems(c.removed, c.nowMs);
    if |batch| <= 1 {
      forall item | item in batch ensures item.tokenCount <= cfg.settings.queryBatchTargetTokens {
        LiveItemsCome(c.removed, c.nowMs, item);
        TrimmedIncludes(Get(run[i].claims, Query), c, Work(item));
        FifoHistory(cfg, run, i, Query);
        assert Work(item) in Get(run[i].pushes, Query);
        QueryItemsAreShort(cfg, run[i], item);
      }
      SingletonTokens(batch, cfg.settings.queryBatchTargetTokens);
    }
  }

  lemma QueryItemsAreShort(cfg: Config, s: State, item: WorkItem)
    requires DataOk(cfg, s) && Work(item) in Get(s.pushes, Query)
    ensures item.tokenCount <= cfg.settings.queryMaxTokens
  {
    assert GenuineEntry(cfg, s.calls, Query, Work(item));
    assert CallOk(cfg, item.parentRequestId, s.calls[item.parentRequestId]);
  }

  lemma TrimmedIsGenuine(cfg: Config, run: seq<State>, i: nat, lane: Lane, c: ClaimRecord, item: WorkItem)
    requires ValidConfig(cfg) && IsRun(cfg, run) && i < |run|
    requires c in Get(run[i].claims, lane) && Work(item) in c.removed
    ensures GenuineItem(cfg, run[i].calls, item) && run[i].calls[item.parentRequestId].req.lane == lane
  {
    RunKeepsInv(cfg, run, i);
    FifoHistory(cfg, run, i, lane);
    TrimmedIncludes(Get(run[i].claims, lane), c, Work(item));
    assert Work(item) in Get(run[i].pushes, lane);
    assert GenuineEntry(cfg, run[i].calls, lane, Work(item));
  }

  /**
   * A claim hands out a child it trims exactly when its clock is not past the child's deadline, the time of the request
   * plus the request timeout. Nothing is dropped early and nothing late is computed.
   */
  lemma DroppedExactlyWhenLate(cfg: Config, run: seq<State>, i: nat, lane: Lane, c: ClaimRecord, item: WorkItem)
    requires ValidConfig(cfg) && IsRun(cfg, run) && i < |run|
    requires c in Get(run[i].claims, lane) && Work(item) in c.removed
    ensures item.parentRequestId in run[i].calls
    ensures
      var deadline := run[i].calls[item.parentRequestId].req.createdMs + cfg.settings.requestTimeoutMs;
      item in LiveItems(c.removed, c.nowMs) <==> deadline <= 0 || c.nowMs <= deadline
  {
    TrimmedIsGenuine(cfg, run, i, lane, c, item);
    if IsLive(Work(item), c.nowMs) {
      LiveEntriesStay(c.removed, c.nowMs, Work(item));
    }
    if item in LiveItems(c.removed, c.nowMs) {
      LiveItemsCome(c.removed, c.nowMs, item);
    }
  }

  /** The usage a request reports is the sum of the token counts that its children carry. */
  lemma {:induction false} UsageIsChildrensTokens(req: Request, timeoutMs: int, n: nat)
    requires n <= |req.inputs| == |req.tokenCounts|
    ensures ItemTokens(Children(req, timeoutMs, n)) == Sum(req.tokenCounts[..n])
  {
    if n != 0 {
      UsageIsChildrensTokens(req, timeoutMs, n - 1);
      ItemTokensSnoc(Children(req, timeoutMs, n - 1), ChildItem(req, n - 1, timeoutMs));
      assert req.tokenCounts[..n] == req.tokenCounts[..n - 1] + [req.tokenCounts[n - 1]];
      SumSnoc(req.tokenCounts[..n - 1], req.tokenCounts[n - 1]);
    }
  }

  lemma {:induction false} SumSnoc(counts: seq<nat>, last: nat)
    ensures Sum(counts + [last]) == Sum(counts) + last
  {
    if counts == [] {
      assert counts + [last] == [last];
    } else {
      SumSnoc(counts[1..], last);
      assert (counts + [last])[1..] == counts[1..] + [last];
    }
  }

  // No starvation.

  /** Histories only grow. */
  ghost predicate Grows(s: State, s': State, lane: Lane) {
    && Get(s.pushes, lane) <= Get(s'.pushes, lane)
    && Get(s.claims, lane) <= Get(s'.claims, lane)
    && |Trimmed(Get(s.claims, lane))| <= |Trimmed(Get(s'.claims, lane))|
  }

  /** A step that claims from a non-empty lane trims at least one entry; no step claims twice. */
  ghost predicate Progresses(s: State, s': State, lane: Lane) {
    && |Get(s'.claims, lane)| <= |Get(s.claims, lane)| + 1
    && (Get(s.work, lane) != [] && |Get(s'.claims, lane)| == |Get(s.claims, lane)| + 1 ==>
      |Trimmed(Get(s.claims, lane))| < |Trimmed(Get(s'.claims, lane))|)
  }

  lemma TrimmedSnoc(records: seq<ClaimRecord>, record: ClaimRecord)
    ensures Trimmed(records + [record]) == Trimmed(records) + record.removed
  {
    assert (records + [record])[..|records|] == records;
  }

  lemma ClaimProgresses(cfg: Config, s: State, w: nat, lane: Lane, nowMs: int)
    requires ValidConfig(cfg)
    ensures
      var s' := RunClaim(cfg, s, w, lane, nowMs);
      Grows(s, s', lane) && Progresses(s, s', lane)
  {
    var s' := RunClaim(cfg, s, w, lane, nowMs);
    var q := Get(s.work, lane);
    var record := ClaimRecord(w, nowMs, q[..Removed(q, LimitsOf(cfg.settings, lane), nowMs)]);
    assert Get(s'.claims, lane) == Get(s.claims, lane) + [record] && s'.pushes == s.pushes;
    TrimmedSnoc(Get(s.claims, lane), record);
  }

  lemma PushProgresses(cfg: Config, s: State, p: string, lane: Lane)
    requires p in s.calls && s.calls[p].pushed < |s.calls[p].req.inputs| == |s.calls[p].req.tokenCounts|
    ensures
      var s' := RunPush(cfg, s, p);
      Grows(s, s', lane) && Progresses(s, s', lane)
  {
    var c := s.calls[p];
    var entry := Work(ChildItem(c.req, c.pushed, cfg.settings.requestTimeoutMs));
    AppendProgresses(s, RunPush(cfg, s, p), lane, c.req.lane, entry);
  }

  lemma AppendProgresses(s: State, s': State, lane: Lane, at: Lane, e: Entry)
    requires s'.claims == s.claims && s'.pushes == s.pushes[at := Get(s.pushes, at) + [e]]
    ensures Grows(s, s', lane) && Progresses(s, s', lane)
  {
  }

  lemma GatewayLeavesHistory(cfg: Config, s: State, step: Step)
    requires ValidConfig(cfg) && Enabled(cfg, s, step) && IsGatewayStep(step) && !step.Push?
    ensures Apply(cfg, s, step).claims == s.claims && Apply(cfg, s, step).pushes == s.pushes
  {
  }

  lemma OutsideLeavesHistory(cfg: Config, s: State, step: Step)
    requires ValidConfig(cfg) && Enabled(cfg, s, step) && !IsGatewayStep(step) && !step.PushMalformed? && !step.Claim?
    ensures Apply(cfg, s, step).claims == s.claims && Apply(cfg, s, step).pushes == s.pushes
  {
  }

  lemma OtherLeavesHistory(cfg: Config, s: State, step: Step)
    requires ValidConfig(cfg) && Enabled(cfg, s, step)
    requires !step.Push? && !step.PushMalformed? && !step.Claim?
    ensures Apply(cfg, s, step).claims == s.claims && Apply(cfg, s, step).pushes == s.pushes
  {
    if IsGatewayStep(step) {
      GatewayLeavesHistory(cfg, s, step);
    } else {
      OutsideLeavesHistory(cfg, s, step);
    }
  }

  lemma QuietProgresses(s: State, s': State, lane: Lane)
    requires Get(s'.claims, lane) == Get(s.claims, lane) && Get(s'.pushes, lane) == Get(s.pushes, lane)
    ensures Grows(s, s', lane) && Progresses(s, s', lane)
  {
  }

  lemma ClaimElsewhere(cfg: Config, s: State, w: nat, at: Lane, nowMs: int, lane: Lane)
    requires ValidConfig(cfg) && at != lane
    ensures
      var s' := RunClaim(cfg, s, w, at, nowMs);
      Grows(s, s', lane) && Progresses(s, s', lane)
  {
    QuietProgresses(s, RunClaim(cfg, s, w, at, nowMs), lane);
  }

  lemma OtherProgresses(cfg: Config, s: State, step: Step, lane: Lane)
    requires ValidConfig(cfg) && Enabled(cfg, s, step)
    requires !step.Push? && !step.PushMalformed? && !step.Claim?
    ensures Grows(s, Apply(cfg, s, step), lane) && Progresses(s, Apply(cfg, s, step), lane)
  {
    OtherLeavesHistory(cfg, s, step);
    QuietProgresses(s, Apply(cfg, s, step), lane);
  }

  lemma StepProgresses(cfg: Config, s: State, step: Step, lane: Lane)
    requires ValidConfig(cfg) && Enabled(cfg, s, step)
    ensures Grows(s, Apply(cfg, s, step), lane) && Progresses(s, Apply(cfg, s, step), lane)
  {
    match step
    case Claim(w, at, nowMs) =>
      if at == lane {
        ClaimProgresses(cfg, s, w, lane, nowMs);
      } else {
        ClaimElsewhere(cfg, s, w, at, nowMs, lane);
      }
    case Push(p) => PushProgresses(cfg, s, p, lane);
    case PushMalformed(at, raw) => AppendProgresses(s, RunPushMalformed(s, at, raw), lane, at, Malformed(raw));
    case _ => OtherProgresses(cfg, s, step, lane);
  }

  lemma {:induction false} HistoriesGrow(cfg: Config, run: seq<State>, i: nat, j: nat, lane: Lane)
    requires ValidConfig(cfg) && IsRun(cfg, run) && i <= j < |run|
    ensures Grows(run[i], run[j], lane)
    decreases j
  {
    if i < j {
      HistoriesGrow(cfg, run, i, j - 1, lane);
      RunProgresses(cfg, run, j, lane);
    }
  }

  /** As long as the queue is not worked through up to position p, every claim trims at least one entry. */
  lemma {:induction false} EveryClaimCounts(cfg: Config, run: seq<State>, i: nat, j: nat, lane: Lane, p: nat)
    requires ValidConfig(cfg) && IsRun(cfg, run) && i <= j < |run| && p < |Get(run[i].work, lane)|
    ensures
      var trimmed := |Trimmed(Get(run[j].claims, lane))| - |Trimmed(Get(run[i].claims, lane))|;
      var claims := |Get(run[j].claims, lane)| - |Get(run[i].claims, lane)|;
      claims <= trimmed || p < trimmed
    decreases j
  {
    if i < j {
      EveryClaimCounts(cfg, run, i, j - 1, lane, p);
      RunProgresses(cfg, run, j, lane);
      if |Trimmed(Get(run[j - 1].claims, lane))| <= |Trimmed(Get(run[i].claims, lane))| + p {
        StillQueued(cfg, run, i, j - 1, lane, p);
      }
    }
  }

  lemma RunProgresses(cfg: Config, run: seq<State>, j: nat, lane: Lane)
    requires ValidConfig(cfg) && IsRun(cfg, run) && 0 < j < |run|
    ensures Grows(run[j - 1], run[j], lane) && Progresses(run[j - 1], run[j], lane)
  {
    var step := StepTo(cfg, run, j);
    StepProgresses(cfg, run[j - 1], step, lane);
  }

  lemma StillQueued(cfg: Config, run: seq<State>, i: nat, j: nat, lane: Lane, p: nat)
    requires ValidConfig(cfg) && IsRun(cfg, run) && i <= j < |run| && p < |Get(run[i].work, lane)|
    requires |Trimmed(Get(run[j].claims, lane))| <= |Trimmed(Get(run[i].claims, lane))| + p
    ensures Get(run[j].work, lane) != []
  {
    HistoriesGrow(cfg, run, i, j, lane);
    FifoHistory(cfg, run, i, lane);
    FifoHistory(cfg, run, j, lane);
  }

  /**
   * No starvation: whatever is pushed meanwhile and whichever workers claim, the entry at position p of a lane has been
   * trimmed after p + 1 further claims on that lane, in its turn. An oversized or malformed head blocks nobody.
   */
  lemma NoStarvation(cfg: Config, run: seq<State>, i: nat, j: nat, lane: Lane, p: nat)
    requires ValidConfig(cfg) && IsRun(cfg, run) && i <= j < |run| && p < |Get(run[i].work, lane)|
    requires |Get(run[i].claims, lane)| + p + 1 <= |Get(run[j].claims, lane)|
    ensures
      var before := |Trimmed(Get(run[i].claims, lane))|;
      var trimmed := Trimmed(Get(run[j].claims, lane));
      before + p < |trimmed| && trimmed[before + p] == Get(run[i].work, lane)[p]
  {
    EveryClaimCounts(cfg, run, i, j, lane, p);
    HistoriesGrow(cfg, run, i, j, lane);
    FifoHistory(cfg, run, i, lane);
    FifoHistory(cfg, run, j, lane);
    TrimmedWasQueued(
      Trimmed(Get(run[i].claims, lane)), Get(run[i].work, lane), Trimmed(Get(run[j].claims, lane)),
      Get(run[j].work, lane), p);
  }

  lemma TrimmedWasQueued(trimmed: seq<Entry>, q: seq<Entry>, trimmed': seq<Entry>, q': seq<Entry>, p: nat)
    requires trimmed + q <= trimmed' + q' && p < |q| && |trimmed| + p < |trimmed'|
    ensures trimmed'[|trimmed| + p] == q[p]
  {
    assert (trimmed + q)[|trimmed| + p] == (trimmed' + q')[|trimmed| + p];
  }

  /** A claim hands its worker exactly the live part of the prefix it trims; all it drops is malformed or expired. */
  lemma ClaimReturnsLivePrefix(cfg: Config, s: State, w: nat, lane: Lane, nowMs: int)
    requires ValidConfig(cfg) && IsIdle(s, w)
    ensures
      var s' := RunClaim(cfg, s, w, lane, nowMs);
      var records := Get(s'.claims, lane);
      && records != []
      && var removed := records[|records| - 1].removed;
      && Get(s.work, lane) == removed + Get(s'.work, lane)
      && Unsent(s', w) == LiveItems(removed, nowMs)
      && forall e | e in removed :: e.Malformed? || Expired(e.item, nowMs) || e.item in Unsent(s', w)
  {
    var s' := RunClaim(cfg, s, w, lane, nowMs);
    var q := Get(s.work, lane);
    var n := Removed(q, LimitsOf(cfg.settings, lane), nowMs);
    assert q == q[..n] + q[n..];
    forall e | e in q[..n] && IsLive(e, nowMs) ensures e.item in LiveItems(q[..n], nowMs) {
      LiveEntriesStay(q[..n], nowMs, e);
    }
  }

  lemma {:induction false} LiveEntriesStay(q: seq<Entry>, nowMs: int, e: Entry)
    requires e in q && IsLive(e, nowMs)
    ensures e.item in LiveItems(q, nowMs)
  {
    if e != q[0] {
      LiveEntriesStay(q[1..], nowMs, e);
    }
  }
}
