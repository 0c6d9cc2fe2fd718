/** Which requests can still be answered: from any reachable state, exactly those that are neither spoilt nor late. */
module ProtocolAnswers {
  import opened QueueModels
  import opened Claiming
  import opened Workload
  import opened ResponseNormalization
  import opened BatchWorker
  import opened BatchingClient
  import opened Protocol
  import opened ProtocolData
  import opened ProtocolPlaces
  import opened ProtocolTheorems
  import opened ProtocolResults
  import opened ProtocolPending
  import opened ProtocolHistory
  import opened ProtocolWindows

  function Last(run: seq<State>): State
    requires run != []
  {
    run[|run| - 1]
  }

  // What spoils a request: a child that is lost, or a failure on its way to the child's future.

  predicate FailsFor(r: ResultItem, ref: Ref) {
    ResultRef(r) == ref && !r.ok
  }

  /** Worker w has yet to publish a failure of the child, at position k of its batch. */
  predicate HoldsFailure(workers: map<nat, WorkerState>, w: nat, k: nat, ref: Ref) {
    && w in workers && workers[w].Publishing?
    && workers[w].sent <= k < |workers[w].results|
    && FailsFor(workers[w].results[k], ref)
  }

  ghost predicate FailureHeld(workers: map<nat, WorkerState>, ref: Ref) {
    exists w, k: nat :: HoldsFailure(workers, w, k, ref)
  }

  ghost predicate FailureSent(results: map<string, seq<ResultItem>>, ref: Ref) {
    exists g, r :: r in Get(results, g) && FailsFor(r, ref)
  }

  predicate FailureTaken(calls: Calls, ref: Ref) {
    IsResolved(calls, ref) && !calls[ref.parent].futures[ref.index].result.ok
  }

  ghost predicate IsSpoilt(s: State, ref: Ref) {
    || IsLost(s.place, ref)
    || FailureHeld(s.workers, ref)
    || FailureSent(s.results, ref)
    || FailureTaken(s.calls, ref)
  }

  ghost predicate NothingSpoilt(s: State, p: string)
    requires p in s.calls
  {
    forall k: nat | k < |s.calls[p].req.inputs| :: !IsSpoilt(s, Ref(p, k))
  }

  // A spoilt child stays spoilt.

  /** A failure that is kept spoils its child, and a spoilt child is lost or has such a failure. */
  lemma SpoiltMeansKept(cfg: Config, s: State, ref: Ref) returns (r: ResultItem)
    requires FuturesOk(cfg, s.calls) && IsSpoilt(s, ref) && !IsLost(s.place, ref)
    ensures FailsFor(r, ref) && IsKept(s, r)
  {
    if FailureHeld(s.workers, ref) {
      var w, k: nat :| HoldsFailure(s.workers, w, k, ref);
      r := s.workers[w].results[k];
      assert Holds(s.workers, w, k, r);
    } else if FailureSent(s.results, ref) {
      var g, x :| x in Get(s.results, g) && FailsFor(x, ref);
      r := x;
    } else {
      r := s.calls[ref.parent].futures[ref.index].result;
      assert FutureOk(cfg, s.calls, ref, s.calls[ref.parent].futures[ref.index]);
    }
  }

  lemma KeptMeansSpoilt(s: State, ref: Ref, r: ResultItem)
    requires FailsFor(r, ref) && IsKept(s, r)
    ensures IsSpoilt(s, ref)
  {
    if IsHeld(s.workers, r) {
      var w, k: nat :| Holds(s.workers, w, k, r);
      assert HoldsFailure(s.workers, w, k, ref);
    }
  }

  /** A child that is lost or fails never recovers. */
  lemma SpoiltForever(cfg: Config, run: seq<State>, i: nat, j: nat, ref: Ref)
    requires ValidConfig(cfg) && IsRun(cfg, run) && i <= j < |run| && IsSpoilt(run[i], ref)
    ensures IsSpoilt(run[j], ref)
  {
    if IsLost(run[i].place, ref) {
      OnlyForward(cfg, run, i, j, ref);
    } else {
      RunKeepsInv(cfg, run, i);
      var r := SpoiltMeansKept(cfg, run[i], ref);
      KeptForever(cfg, run, i, j, r);
      KeptMeansSpoilt(run[j], ref, r);
    }
  }

  /** A child of an answered request is not spoilt. */
  lemma AnsweredIsUnspoilt(cfg: Config, run: seq<State>, i: nat, p: string, data: seq<EmbeddingData>, k: nat)
    requires ValidConfig(cfg) && IsRun(cfg, run) && i < |run|
    requires p in run[i].calls && run[i].calls[p].phase == Finished(Answered(data))
    requires k < |run[i].calls[p].req.inputs|
    ensures !IsSpoilt(run[i], Ref(p, k))
  {
    RunKeepsInv(cfg, run, i);
    AnsweredMeansAllDelivered(cfg, run, i, p, data, k);
    DeliveredIsNotHeld(cfg, run[i], Ref(p, k));
    DeliveredIsNotSent(run[i], Ref(p, k));
  }

  lemma DeliveredIsNotHeld(cfg: Config, s: State, ref: Ref)
    requires Inv(cfg, s) && IsAt(s.place, ref, Delivered)
    ensures !FailureHeld(s.workers, ref)
  {
    if FailureHeld(s.workers, ref) {
      var w, k: nat :| HoldsFailure(s.workers, w, k, ref);
      HeldIsInFlight(cfg, s, w, k, s.workers[w].results[k]);
    }
  }

  lemma DeliveredIsNotSent(s: State, ref: Ref)
    requires RepliesAt(s.results, s.place) && IsAt(s.place, ref, Delivered)
    ensures !FailureSent(s.results, ref)
  {
    forall g, r | r in Get(s.results, g) ensures !FailsFor(r, ref) {
      SentIsReplied(s, g, r);
    }
  }

  // A closed gateway delivers nothing.

  lemma ListenResolvesOwn(cfg: Config, s: State, g: string, ref: Ref)
    requires CallsOk(cfg, s.calls) && PendingOk(s.calls, s.pending) && RepliesOk(cfg, s.calls, s.results)
    requires Get(s.results, g) != [] && ref.parent in s.calls && s.calls[ref.parent].req.gateway != g
    ensures RunListen(s, g).closed == s.closed
    ensures IsResolved(RunListen(s, g).calls, ref) ==> IsResolved(s.calls, ref)
  {
    if FindsFuture(s, g) {
      var r := Get(s.results, g)[0];
      assert ReplyOk(cfg, s.calls, g, r);
      ListenerFindsOwner(cfg, s, g, r);
    }
  }

  lemma StopResolvesNothing(s: State, g: string, ref: Ref)
    requires ref.parent in s.calls
    ensures RunStop(s, g).closed == s.closed
    ensures IsResolved(RunStop(s, g).calls, ref) ==> IsResolved(s.calls, ref)
  {
    var c := s.calls[ref.parent];
    assert RunStop(s, g).calls[ref.parent] == StopFutures(s, g, c);
    if ref.index < |c.futures| {
      StopFutureEffect(s, g, c, ref.index);
    }
  }

  lemma StepResolvesForOpenGateways(cfg: Config, s: State, step: Step, ref: Ref)
    requires ValidConfig(cfg) && Enabled(cfg, s, step) && DataOk(cfg, s)
    requires ref.parent in s.calls && s.calls[ref.parent].req.gateway in s.closed
    ensures s.calls[ref.parent].req.gateway in Apply(cfg, s, step).closed
    ensures IsResolved(Apply(cfg, s, step).calls, ref) ==> IsResolved(s.calls, ref)
  {
    if step.Listen? {
      ListenResolvesOwn(cfg, s, step.g, ref);
    } else if step.Stop? {
      StopResolvesNothing(s, step.g, ref);
    } else {
      OtherResolvesNothing(cfg, s, step, ref);
    }
  }

  lemma OtherResolvesNothing(cfg: Config, s: State, step: Step, ref: Ref)
    requires ValidConfig(cfg) && Enabled(cfg, s, step) && !step.Listen? && !step.Stop? && ref.parent in s.calls
    ensures s.closed <= Apply(cfg, s, step).closed
    ensures IsResolved(Apply(cfg, s, step).calls, ref) ==> IsResolved(s.calls, ref)
  {
  }

  lemma {:induction false} ClosedResolvesNothing(cfg: Config, run: seq<State>, i: nat, j: nat, ref: Ref)
    requires ValidConfig(cfg) && IsRun(cfg, run) && i <= j < |run|
    requires ref.parent in run[i].calls && run[i].calls[ref.parent].req.gateway in run[i].closed
    ensures ref.parent in run[j].calls && run[j].calls[ref.parent].req.gateway in run[j].closed
    ensures IsResolved(run[j].calls, ref) ==> IsResolved(run[i].calls, ref)
    decreases j
  {
    if i < j {
      ClosedResolvesNothing(cfg, run, i, j - 1, ref);
      RunKeepsInv(cfg, run, j - 1);
      var step := StepTo(cfg, run, j);
      StepResolvesForOpenGateways(cfg, run[j - 1], step, ref);
      StepKeepsCalls(cfg, run[j - 1], step, ref);
    }
  }

  // Carrying an unspoilt child to its future.

  /** The request is still waited for, at a gateway that still listens, and nothing is spoilt. */
  ghost predicate IsPromising(s: State, p: string) {
    p in s.calls && s.calls[p].phase.Active? && s.calls[p].req.gateway !in s.closed && NothingSpoilt(s, p)
  }

  // The clocks of a continuation.

  /** A worker claims when the wait that its peek asked for is over. */
  predicate WaitIsOver(cfg: Config, s: State, w: nat, nowMs: int) {
    w in s.windows ==> s.windows[w].atMs + WaitMs(cfg, s.windows[w]) <= nowMs
  }

  /** What the workers of a continuation read when they peek and when they claim. */
  datatype Clocks = Clocks(peekMs: int, claimMs: int)

  predicate IsPunctual(cfg: Config, s: State, step: Step, clocks: Clocks) {
    && (step.Peek? ==> step.nowMs == clocks.peekMs)
    && (step.Claim? ==> step.nowMs == clocks.claimMs && WaitIsOver(cfg, s, step.w, step.nowMs))
  }

  ghost predicate NextOnTime(cfg: Config, s: State, s': State, clocks: Clocks)
    requires ValidConfig(cfg)
  {
    exists step :: Enabled(cfg, s, step) && IsPunctual(cfg, s, step, clocks) && s' == Apply(cfg, s, step)
  }

  /** The step to the i-th state reads these clocks. */
  ghost predicate IsOnTime(cfg: Config, run: seq<State>, i: nat, clocks: Clocks)
    requires ValidConfig(cfg) && 0 < i < |run|
  {
    NextOnTime(cfg, run[i - 1], run[i], clocks)
  }

  /** A longer run whose further steps read these clocks. */
  ghost predicate Continuation(cfg: Config, run: seq<State>, run': seq<State>, clocks: Clocks)
    requires ValidConfig(cfg) && run != []
  {
    && IsRun(cfg, run') && run <= run'
    && forall i | |run| <= i < |run'| :: IsOnTime(cfg, run', i, clocks)
  }

  lemma ContinuesFurther(cfg: Config, run: seq<State>, mid: seq<State>, run': seq<State>, clocks: Clocks)
    requires ValidConfig(cfg) && run != []
    requires Continuation(cfg, run, mid, clocks) && Continuation(cfg, mid, run', clocks)
    ensures Continuation(cfg, run, run', clocks)
  {
    forall i | |run| <= i < |run'| ensures IsOnTime(cfg, run', i, clocks) {
      if i < |mid| {
        assert IsOnTime(cfg, mid, i, clocks);
      }
    }
  }

  /** The request's deadline has not passed. */
  predicate InTime(cfg: Config, req: Request, nowMs: int) {
    var deadlineMs := req.createdMs + cfg.settings.requestTimeoutMs;
    deadlineMs <= 0 || nowMs <= deadlineMs
  }

  /** Clocks that let any wait pass and still claim before the request's deadline. */
  predicate Suit(cfg: Config, req: Request, clocks: Clocks) {
    clocks.peekMs + LongestWaitMs(cfg, req.lane) <= clocks.claimMs && InTime(cfg, req, clocks.claimMs)
  }

  /** Clocks that start at the request suit it exactly when the longest wait fits into the timeout. */
  lemma ClocksSuitExactly(cfg: Config, req: Request)
    requires 0 < req.createdMs + cfg.settings.requestTimeoutMs
    ensures
      (exists clocks: Clocks :: req.createdMs <= clocks.peekMs && Suit(cfg, req, clocks)) <==>
      LongestWaitMs(cfg, req.lane) <= cfg.settings.requestTimeoutMs
  {
    var clocks := Clocks(req.createdMs, req.createdMs + LongestWaitMs(cfg, req.lane));
    assert LongestWaitMs(cfg, req.lane) <= cfg.settings.requestTimeoutMs ==> Suit(cfg, req, clocks);
  }

  lemma Extend(cfg: Config, run: seq<State>, step: Step, clocks: Clocks) returns (run': seq<State>)
    requires ValidConfig(cfg) && IsRun(cfg, run)
    requires Enabled(cfg, Last(run), step) && IsPunctual(cfg, Last(run), step, clocks)
    ensures Continuation(cfg, run, run', clocks)
    ensures |run'| == |run| + 1 && Last(run') == Apply(cfg, Last(run), step)
  {
    run' := run + [Apply(cfg, Last(run), step)];
    forall i: nat | i + 1 < |run'| ensures StepsAt(cfg, run', i) {
      if i + 1 < |run| {
        assert StepsAt(cfg, run, i);
      } else {
        assert Next(cfg, run[i], run'[i + 1]);
      }
    }
  }

  // Steps that spoil nothing.

  lemma RegisterSpoilsNothing(s: State, p: string, ref: Ref)
    requires p in s.calls && !IsSpoilt(s, ref)
    ensures !IsSpoilt(RunRegister(s, p), ref)
  {
  }

  lemma PushSpoilsNothing(cfg: Config, s: State, p: string, ref: Ref)
    requires p in s.calls && s.calls[p].pushed < |s.calls[p].req.inputs| == |s.calls[p].req.tokenCounts|
    requires !IsSpoilt(s, ref)
    ensures !IsSpoilt(RunPush(cfg, s, p), ref)
  {
  }

  lemma PeekSpoilsNothing(s: State, w: nat, lane: Lane, nowMs: int, ref: Ref)
    requires !IsSpoilt(s, ref)
    ensures !IsSpoilt(RunPeek(s, w, lane, nowMs), ref)
  {
  }

  lemma {:induction false} ExpiredItemsCome(q: seq<Entry>, nowMs: int, item: WorkItem)
    requires item in ExpiredItems(q, nowMs)
    ensures Work(item) in q && Expired(item, nowMs)
  {
    if !(q[0] == Work(item) && Expired(item, nowMs)) {
      ExpiredItemsCome(q[1..], nowMs, item);
    }
  }

  lemma {:induction false} ListedItem(items: seq<WorkItem>, ref: Ref) returns (item: WorkItem)
    requires ref in ItemRefs(items)
    ensures item in items && RefOf(item) == ref
  {
    if RefOf(items[0]) == ref {
      item := items[0];
    } else {
      item := ListedItem(items[1..], ref);
    }
  }

  /** A queued item carries the deadline of its request. */
  lemma QueuedIsGenuine(cfg: Config, s: State, lane: Lane, item: WorkItem)
    requires DataOk(cfg, s) && Work(item) in Get(s.work, lane)
    ensures item.parentRequestId in s.calls
    ensures item.deadlineMs == s.calls[item.parentRequestId].req.createdMs + cfg.settings.requestTimeoutMs
    ensures s.calls[item.parentRequestId].req.lane == lane
  {
    assert LaneHistoryOk(s, lane);
    QueuedWasPushed(s, lane, Work(item));
    assert GenuineEntry(cfg, s.calls, lane, Work(item));
  }

  /** A child whose request is in time is not dropped. */
  lemma InTimeIsNotExpired(cfg: Config, s: State, lane: Lane, n: nat, nowMs: int, ref: Ref)
    requires DataOk(cfg, s) && n <= |Get(s.work, lane)|
    requires ref.parent in s.calls && InTime(cfg, s.calls[ref.parent].req, nowMs)
    ensures ref !in ItemRefs(ExpiredItems(Get(s.work, lane)[..n], nowMs))
  {
    var expired := ExpiredItems(Get(s.work, lane)[..n], nowMs);
    if ref in ItemRefs(expired) {
      var item := ListedItem(expired, ref);
      ExpiredItemsCome(Get(s.work, lane)[..n], nowMs, item);
      QueuedIsGenuine(cfg, s, lane, item);
      assert false;
    }
  }

  lemma ClaimSpoilsNothing(cfg: Config, s: State, w: nat, lane: Lane, nowMs: int, ref: Ref)
    requires ValidConfig(cfg) && DataOk(cfg, s) && !IsSpoilt(s, ref)
    requires ref.parent in s.calls && InTime(cfg, s.calls[ref.parent].req, nowMs)
    ensures !IsSpoilt(RunClaim(cfg, s, w, lane, nowMs), ref)
  {
    var s' := RunClaim(cfg, s, w, lane, nowMs);
    var q := Get(s.work, lane);
    InTimeIsNotExpired(cfg, s, lane, Removed(q, LimitsOf(cfg.settings, lane), nowMs), nowMs, ref);
    assert !IsLost(s'.place, ref);
    forall v, k: nat ensures !HoldsFailure(s'.workers, v, k, ref) {
      assert !HoldsFailure(s.workers, v, k, ref);
    }
  }

  lemma AnswerSpoilsNothing(s: State, w: nat, outcome: ModelOutcome, ref: Ref)
    requires w in s.workers && !IsSpoilt(s, ref)
    requires forall r | r in BatchResults(s.workers[w].batch, outcome) :: r.ok
    ensures !IsSpoilt(RunModelAnswers(s, w, outcome), ref)
  {
    var s' := RunModelAnswers(s, w, outcome);
    forall v, k: nat ensures !HoldsFailure(s'.workers, v, k, ref) {
      assert !HoldsFailure(s.workers, v, k, ref);
    }
  }

  lemma PublishSpoilsNothing(s: State, w: nat, ref: Ref)
    requires w in s.workers && s.workers[w].Publishing?
    requires s.workers[w].sent < |s.workers[w].batch| == |s.workers[w].results| && !IsSpoilt(s, ref)
    ensures !IsSpoilt(RunPublish(s, w), ref)
  {
    var s' := RunPublish(s, w);
    forall v, k: nat ensures !HoldsFailure(s'.workers, v, k, ref) {
      assert !HoldsFailure(s.workers, v, k, ref);
    }
    assert !HoldsFailure(s.workers, w, s.workers[w].sent, ref);
    forall g, r | r in Get(s'.results, g) ensures !FailsFor(r, ref) {
      assert r in Get(s.results, g) ==> !FailsFor(r, ref);
    }
  }

  lemma ListenLosesNothing(cfg: Config, run: seq<State>, g: string, ref: Ref)
    requires ValidConfig(cfg) && IsRun(cfg, run) && Enabled(cfg, Last(run), Listen(g))
    requires ref.parent in Last(run).calls && Last(run).calls[ref.parent].phase.Active? && !IsLost(Last(run).place, ref)
    ensures !IsLost(RunListen(Last(run), g).place, ref)
  {
    ResultsReachWhoWaits(cfg, run, |run| - 1, g);
  }

  lemma ListenSendsNothing(s: State, g: string, ref: Ref)
    requires Get(s.results, g) != [] && !FailureSent(s.results, ref)
    ensures !FailureSent(RunListen(s, g).results, ref)
  {
    var results' := RunListen(s, g).results;
    forall h, x | x in Get(results', h) ensures !FailsFor(x, ref) {
      assert x in Get(s.results, h);
    }
  }

  /** Listening spoils no child of a request that still waits. */
  lemma ListenSpoilsNothing(cfg: Config, run: seq<State>, g: string, ref: Ref)
    requires ValidConfig(cfg) && IsRun(cfg, run) && Enabled(cfg, Last(run), Listen(g))
    requires ref.parent in Last(run).calls && Last(run).calls[ref.parent].phase.Active? && !IsSpoilt(Last(run), ref)
    ensures !IsSpoilt(RunListen(Last(run), g), ref)
  {
    var s := Last(run);
    assert Get(s.results, g)[0] in Get(s.results, g);
    RunKeepsInv(cfg, run, |run| - 1);
    ListenLosesNothing(cfg, run, g, ref);
    ListenSendsNothing(s, g, ref);
    ListenTakesNoFailure(cfg, s, g, ref);
    assert RunListen(s, g).workers == s.workers;
  }

  lemma ListenTakesNoFailure(cfg: Config, s: State, g: string, ref: Ref)
    requires CallsOk(cfg, s.calls) && PendingOk(s.calls, s.pending) && RepliesOk(cfg, s.calls, s.results)
    requires Get(s.results, g) != []
    requires !FailureTaken(s.calls, ref) && !FailsFor(Get(s.results, g)[0], ref)
    ensures !FailureTaken(RunListen(s, g).calls, ref)
  {
    var r := Get(s.results, g)[0];
    assert ReplyOk(cfg, s.calls, g, r);
    if FindsFuture(s, g) {
      ListenerFindsOwner(cfg, s, g, r);
    }
  }

  // Registering and pushing.

  /** A continuation in which the request is as it was asked for and still promising. */
  ghost predicate Continues(cfg: Config, run: seq<State>, run': seq<State>, p: string, clocks: Clocks)
    requires ValidConfig(cfg) && run != [] && p in Last(run).calls
  {
    && Continuation(cfg, run, run', clocks) && IsPromising(Last(run'), p)
    && Last(run').calls[p].req == Last(run).calls[p].req
  }

  lemma RegisterNext(cfg: Config, run: seq<State>, p: string, clocks: Clocks) returns (run': seq<State>)
    requires ValidConfig(cfg) && IsRun(cfg, run) && IsPromising(Last(run), p) && Enabled(cfg, Last(run), Register(p))
    ensures Continues(cfg, run, run', p, clocks)
    ensures |Last(run').calls[p].futures| == |Last(run).calls[p].futures| + 1
    ensures Last(run').calls[p].pushed == Last(run).calls[p].pushed
  {
    run' := Extend(cfg, run, Register(p), clocks);
    forall k: nat | k < |Last(run).calls[p].req.inputs| ensures !IsSpoilt(Last(run'), Ref(p, k)) {
      RegisterSpoilsNothing(Last(run), p, Ref(p, k));
    }
  }

  lemma PushNext(cfg: Config, run: seq<State>, p: string, clocks: Clocks) returns (run': seq<State>)
    requires ValidConfig(cfg) && IsRun(cfg, run) && IsPromising(Last(run), p) && Enabled(cfg, Last(run), Push(p))
    ensures Continues(cfg, run, run', p, clocks)
    ensures |Last(run').calls[p].futures| == |Last(run).calls[p].futures|
    ensures Last(run').calls[p].pushed == Last(run).calls[p].pushed + 1
  {
    run' := Extend(cfg, run, Push(p), clocks);
    forall k: nat | k < |Last(run).calls[p].req.inputs| ensures !IsSpoilt(Last(run'), Ref(p, k)) {
      PushSpoilsNothing(cfg, Last(run), p, Ref(p, k));
    }
  }

  lemma {:induction false} PushAll(cfg: Config, run: seq<State>, p: string, clocks: Clocks) returns (run': seq<State>)
    requires ValidConfig(cfg) && IsRun(cfg, run) && IsPromising(Last(run), p)
    ensures Continues(cfg, run, run', p, clocks)
    ensures Last(run').calls[p].pushed == |Last(run').calls[p].req.inputs|
    decreases
      2 * |Last(run).calls[p].req.inputs| - |Last(run).calls[p].futures| - Last(run).calls[p].pushed
  {
    var c := Last(run).calls[p];
    RunKeepsInv(cfg, run, |run| - 1);
    assert CallOk(cfg, p, c);
    if c.pushed == |c.req.inputs| {
      run' := run;
    } else {
      var mid: seq<State>;
      if |c.futures| == c.pushed {
        mid := RegisterNext(cfg, run, p, clocks);
      } else {
        mid := PushNext(cfg, run, p, clocks);
      }
      assert CallOk(cfg, p, Last(mid).calls[p]) by { RunKeepsInv(cfg, mid, |mid| - 1); }
      run' := PushAll(cfg, mid, p, clocks);
      ContinuesFurther(cfg, run, mid, run', clocks);
    }
  }

  // Moving one child forward.

  /** What stands before the child, itself included, where it is now. */
  function Ahead(s: State, at: Place): nat {
    match at
    case Queued(lane) => |Get(s.work, lane)|
    case InFlight(w) => |Unsent(s, w)| + if w in s.workers && s.workers[w].Claimed? then 1 else 0
    case Replied(g) => |Get(s.results, g)|
    case _ => 0
  }

  lemma {:induction false} FreshWorker(used: set<nat>) returns (w: nat)
    ensures forall u | u in used :: u < w
  {
    w := 0;
    if used != {} {
      var u :| u in used;
      w := FreshWorker(used - {u});
      w := if w <= u then u + 1 else w;
      forall v | v in used ensures v < w {
        assert v == u || v in used - {u};
      }
    }
  }

  /** A worker comes by, waits and claims from a lane that is not empty. */
  lemma ClaimFrom(cfg: Config, run: seq<State>, p: string, clocks: Clocks) returns (run': seq<State>)
    requires ValidConfig(cfg) && IsRun(cfg, run) && IsPromising(Last(run), p)
    requires Suit(cfg, Last(run).calls[p].req, clocks) && Get(Last(run).work, Last(run).calls[p].req.lane) != []
    ensures Continues(cfg, run, run', p, clocks)
    ensures
      var lane := Last(run).calls[p].req.lane;
      |Get(Last(run').work, lane)| < |Get(Last(run).work, lane)|
  {
    var s := Last(run);
    var lane := s.calls[p].req.lane;
    var w := FreshWorker(s.workers.Keys + s.windows.Keys);
    assert w !in s.workers.Keys + s.windows.Keys;
    var mid := Extend(cfg, run, Peek(w, lane, clocks.peekMs), clocks);
    WaitIsBounded(cfg, Last(mid).windows[w]);
    run' := Extend(cfg, mid, Claim(w, lane, clocks.claimMs), clocks);
    ContinuesFurther(cfg, run, mid, run', clocks);
    RunKeepsInv(cfg, mid, |mid| - 1);
    ClaimKeepsPromise(cfg, s, w, p, clocks);
  }

  lemma ClaimKeepsPromise(cfg: Config, s: State, w: nat, p: string, clocks: Clocks)
    requires ValidConfig(cfg) && IsPromising(s, p) && InTime(cfg, s.calls[p].req, clocks.claimMs)
    requires DataOk(cfg, RunPeek(s, w, s.calls[p].req.lane, clocks.peekMs))
    ensures
      var lane := s.calls[p].req.lane;
      IsPromising(RunClaim(cfg, RunPeek(s, w, lane, clocks.peekMs), w, lane, clocks.claimMs), p)
  {
    var lane := s.calls[p].req.lane;
    var peeked := RunPeek(s, w, lane, clocks.peekMs);
    forall k: nat | k < |s.calls[p].req.inputs|
      ensures !IsSpoilt(RunClaim(cfg, peeked, w, lane, clocks.claimMs), Ref(p, k))
    {
      PeekSpoilsNothing(s, w, lane, clocks.peekMs, Ref(p, k));
      ClaimSpoilsNothing(cfg, peeked, w, lane, clocks.claimMs, Ref(p, k));
    }
  }

  /** The reply of a server that computes every embedding and names every input, in order. */
  function InOrderReply(inputs: seq<string>, embed: string -> Embedding): Reply {
    Data(seq(|inputs|, k requires 0 <= k < |inputs| => Object(Numbers(embed(inputs[k])), Present(k))))
  }

  lemma InOrderReplyIsFaithful(inputs: seq<string>, embed: string -> Embedding)
    ensures Normalize(InOrderReply(inputs, embed), |inputs|).Success?
    ensures Faithful(inputs, Responded(InOrderReply(inputs, embed)), embed)
  {
    var reply := InOrderReply(inputs, embed);
    forall k, j | 0 <= k < |reply.items| && GoesBy(reply.items[k], k, j) ensures j == k {
    }
    AcceptedExactly(reply, |inputs|);
  }

  /** The model server answers a worker's batch. */
  lemma AnswerBatch(cfg: Config, run: seq<State>, p: string, w: nat, clocks: Clocks) returns (run': seq<State>)
    requires ValidConfig(cfg) && IsRun(cfg, run) && IsPromising(Last(run), p)
    requires w in Last(run).workers && Last(run).workers[w].Claimed?
    ensures Continues(cfg, run, run', p, clocks)
    ensures Ahead(Last(run'), InFlight(w)) < Ahead(Last(run), InFlight(w))
  {
    var s := Last(run);
    var batch := s.workers[w].batch;
    var outcome := Responded(InOrderReply(InputTexts(batch), cfg.embed));
    InOrderReplyIsFaithful(InputTexts(batch), cfg.embed);
    FanOut(batch, outcome);
    run' := Extend(cfg, run, ModelAnswers(w, outcome), clocks);
    assert batch[0..] == batch;
    forall k: nat | k < |s.calls[p].req.inputs| ensures !IsSpoilt(Last(run'), Ref(p, k)) {
      AnswerSpoilsNothing(s, w, outcome, Ref(p, k));
    }
  }

  lemma PublishKeepsPromise(s: State, w: nat, p: string)
    requires w in s.workers && s.workers[w].Publishing?
    requires s.workers[w].sent < |s.workers[w].batch| == |s.workers[w].results| && IsPromising(s, p)
    ensures IsPromising(RunPublish(s, w), p)
  {
    forall k: nat | k < |s.calls[p].req.inputs| ensures !IsSpoilt(RunPublish(s, w), Ref(p, k)) {
      PublishSpoilsNothing(s, w, Ref(p, k));
    }
  }

  lemma PublishShortens(s: State, w: nat)
    requires w in s.workers && s.workers[w].Publishing?
    requires s.workers[w].sent < |s.workers[w].batch| == |s.workers[w].results|
    ensures Ahead(RunPublish(s, w), InFlight(w)) < Ahead(s, InFlight(w))
  {
  }

  lemma PublishNext(cfg: Config, run: seq<State>, p: string, w: nat, clocks: Clocks) returns (run': seq<State>)
    requires ValidConfig(cfg) && IsRun(cfg, run) && IsPromising(Last(run), p)
    requires w in Last(run).workers && Last(run).workers[w].Publishing? && Unsent(Last(run), w) != []
    ensures Continues(cfg, run, run', p, clocks)
    ensures Ahead(Last(run'), InFlight(w)) < Ahead(Last(run), InFlight(w))
  {
    var s := Last(run);
    RunKeepsInv(cfg, run, |run| - 1);
    assert WorkerOk(cfg, s.calls, s.workers[w]);
    PublishKeepsPromise(s, w, p);
    PublishShortens(s, w);
    run' := Extend(cfg, run, Publish(w), clocks);
  }

  lemma ListenNext(cfg: Config, run: seq<State>, p: string, clocks: Clocks) returns (run': seq<State>)
    requires ValidConfig(cfg) && IsRun(cfg, run) && IsPromising(Last(run), p)
    requires Get(Last(run).results, Last(run).calls[p].req.gateway) != []
    ensures Continues(cfg, run, run', p, clocks)
    ensures
      var g := Last(run).calls[p].req.gateway;
      |Get(Last(run').results, g)| < |Get(Last(run).results, g)|
  {
    var s := Last(run);
    var g := s.calls[p].req.gateway;
    run' := Extend(cfg, run, Listen(g), clocks);
    ListenKeepsCalls(s, g, Ref(p, 0));
    ListenKeepsPhase(s, g, p);
    forall k: nat | k < |s.calls[p].req.inputs| ensures !IsSpoilt(Last(run'), Ref(p, k)) {
      ListenSpoilsNothing(cfg, run, g, Ref(p, k));
    }
  }

  lemma ListenKeepsPhase(s: State, g: string, p: string)
    requires Get(s.results, g) != [] && p in s.calls
    ensures p in RunListen(s, g).calls && RunListen(s, g).calls[p].phase == s.calls[p].phase
    ensures RunListen(s, g).closed == s.closed
  {
  }

  /** From wherever the child is, the system can bring it closer to its future. */
  lemma Advance(cfg: Config, run: seq<State>, p: string, k: nat, clocks: Clocks) returns (run': seq<State>)
    requires ValidConfig(cfg) && IsRun(cfg, run) && IsPromising(Last(run), p)
    requires k < |Last(run).calls[p].req.inputs| && Ref(p, k) in Last(run).place
    requires !IsAt(Last(run).place, Ref(p, k), Delivered)
    requires HasLeft(Last(run).place, Ref(p, k)) || Suit(cfg, Last(run).calls[p].req, clocks)
    ensures Continues(cfg, run, run', p, clocks)
    ensures
      var at := Last(run).place[Ref(p, k)];
      Ahead(Last(run'), at) < Ahead(Last(run), at)
  {
    var s := Last(run);
    var ref := Ref(p, k);
    RunKeepsInv(cfg, run, |run| - 1);
    assert !IsSpoilt(s, ref);
    InItsContainer(s, ref);
    match s.place[ref]
    case Queued(lane) =>
      WaitsInItsLane(cfg, s, lane, ref);
      run' := ClaimFrom(cfg, run, p, clocks);
    case InFlight(w) =>
      if s.workers[w].Claimed? {
        run' := AnswerBatch(cfg, run, p, w, clocks);
      } else {
        run' := PublishNext(cfg, run, p, w, clocks);
      }
    case Replied(g) =>
      WaitsAtHome(cfg, s, g, ref);
      run' := ListenNext(cfg, run, p, clocks);
  }

  lemma InItsContainer(s: State, ref: Ref)
    requires PlacesOk(s) && ref in s.place
    ensures
      match s.place[ref]
      case Queued(lane) => Get(s.work, lane) != []
      case InFlight(w) => w in s.workers && Unsent(s, w) != []
      case Replied(g) => Get(s.results, g) != []
      case _ => true
  {
    if IsContainer(s.place[ref]) {
      ContainerIsExact(s, s.place[ref]);
      assert ref in ContainerRefs(s, s.place[ref]);
    }
  }

  lemma WaitsInItsLane(cfg: Config, s: State, lane: Lane, ref: Ref)
    requires Inv(cfg, s) && IsAt(s.place, ref, Queued(lane))
    ensures ref.parent in s.calls && s.calls[ref.parent].req.lane == lane
  {
    var q := Get(s.work, lane);
    assert Exactly(EntryRefs(q), s.place, Queued(lane));
    assert ref in EntryRefs(q);
    var item := ListedEntry(q, ref);
    QueuedIsGenuine(cfg, s, lane, item);
  }

  lemma {:induction false} ListedEntry(q: seq<Entry>, ref: Ref) returns (item: WorkItem)
    requires ref in EntryRefs(q)
    ensures Work(item) in q && RefOf(item) == ref
  {
    if q[0].Work? && RefOf(q[0].item) == ref {
      item := q[0].item;
    } else {
      item := ListedEntry(q[1..], ref);
    }
  }

  lemma WaitsAtHome(cfg: Config, s: State, g: string, ref: Ref)
    requires Inv(cfg, s) && IsAt(s.place, ref, Replied(g))
    ensures ref.parent in s.calls && s.calls[ref.parent].req.gateway == g
  {
    var q := Get(s.results, g);
    assert Exactly(ResultRefs(q), s.place, Replied(g));
    assert ref in ResultRefs(q);
    var r := ListedResult(q, ref);
    assert ReplyOk(cfg, s.calls, g, r);
  }

  lemma {:induction false} ListedResult(results: seq<ResultItem>, ref: Ref) returns (r: ResultItem)
    requires ref in ResultRefs(results)
    ensures r in results && ResultRef(r) == ref
  {
    if ResultRef(results[0]) == ref {
      r := results[0];
    } else {
      r := ListedResult(results[1..], ref);
    }
  }

  /** The system can deliver any child that has been pushed. */
  lemma {:induction false} DeliverChild(cfg: Config, run: seq<State>, p: string, k: nat, clocks: Clocks)
    returns (run': seq<State>)
    requires ValidConfig(cfg) && IsRun(cfg, run) && IsPromising(Last(run), p)
    requires k < |Last(run).calls[p].req.inputs| && Ref(p, k) in Last(run).place
    requires HasLeft(Last(run).place, Ref(p, k)) || Suit(cfg, Last(run).calls[p].req, clocks)
    ensures Continues(cfg, run, run', p, clocks) && IsAt(Last(run').place, Ref(p, k), Delivered)
    decreases 3 - Rank(Last(run).place[Ref(p, k)]), Ahead(Last(run), Last(run).place[Ref(p, k)])
  {
    if IsAt(Last(run).place, Ref(p, k), Delivered) {
      run' := run;
    } else {
      var mid := Advance(cfg, run, p, k, clocks);
      OnlyForward(cfg, mid, |run| - 1, |mid| - 1, Ref(p, k));
      run' := DeliverChild(cfg, mid, p, k, clocks);
      ContinuesFurther(cfg, run, mid, run', clocks);
    }
  }

  /** The first n children one after the other; a delivered child stays delivered. */
  lemma {:induction false} DeliverFirst(cfg: Config, run: seq<State>, p: string, n: nat, clocks: Clocks)
    returns (run': seq<State>)
    requires ValidConfig(cfg) && IsRun(cfg, run) && IsPromising(Last(run), p)
    requires n <= |Last(run).calls[p].req.inputs|
    requires forall k: nat | k < n :: Ref(p, k) in Last(run).place
    requires (forall k: nat | k < n :: HasLeft(Last(run).place, Ref(p, k))) || Suit(cfg, Last(run).calls[p].req, clocks)
    ensures Continues(cfg, run, run', p, clocks)
    ensures forall k: nat | k < n :: IsAt(Last(run').place, Ref(p, k), Delivered)
  {
    if n == 0 {
      run' := run;
    } else {
      var mid := DeliverFirst(cfg, run, p, n - 1, clocks);
      OnlyForward(cfg, mid, |run| - 1, |mid| - 1, Ref(p, n - 1));
      run' := DeliverChild(cfg, mid, p, n - 1, clocks);
      ContinuesFurther(cfg, run, mid, run', clocks);
      forall k: nat | k < n - 1 ensures IsAt(Last(run').place, Ref(p, k), Delivered) {
        OnlyForward(cfg, run', |mid| - 1, |run'| - 1, Ref(p, k));
      }
    }
  }

  // Which requests can be answered.

  predicate IsAnswered(s: State, p: string) {
    p in s.calls && s.calls[p].phase.Finished? && s.calls[p].phase.outcome.Answered?
  }

  ghost predicate AllDelivered(s: State, p: string)
    requires p in s.calls
  {
    forall k: nat | k < |s.calls[p].req.inputs| :: IsAt(s.place, Ref(p, k), Delivered)
  }

  /** Every child has been pushed and claimed. */
  ghost predicate AllHaveLeft(s: State, p: string)
    requires p in s.calls
  {
    forall k: nat | k < |s.calls[p].req.inputs| :: HasLeft(s.place, Ref(p, k))
  }

  lemma ReturnNow(cfg: Config, run: seq<State>, p: string, clocks: Clocks) returns (run': seq<State>)
    requires ValidConfig(cfg) && IsRun(cfg, run) && p in Last(run).calls && Last(run).calls[p].phase.Active?
    requires NothingSpoilt(Last(run), p) && AllDelivered(Last(run), p)
    ensures Continuation(cfg, run, run', clocks) && IsAnswered(Last(run'), p)
  {
    var s := Last(run);
    var i := |run| - 1;
    ReturnsWhenAllDelivered(cfg, run, i, p);
    AnswersDecideTheCall(cfg, run, i, p);
    forall k | 0 <= k < |s.calls[p].futures| ensures Gathered(s.calls[p].futures)[k].ok {
      assert !IsSpoilt(s, Ref(p, k));
      assert IsResolved(s.calls, Ref(p, k));
    }
    run' := Extend(cfg, run, Return(p), clocks);
  }

  lemma EveryChildIsPushed(cfg: Config, run: seq<State>, i: nat, p: string)
    requires ValidConfig(cfg) && IsRun(cfg, run) && i < |run| && p in run[i].calls
    requires run[i].calls[p].pushed == |run[i].calls[p].req.inputs|
    ensures forall k: nat | k < |run[i].calls[p].req.inputs| :: Ref(p, k) in run[i].place
  {
    RunKeepsInv(cfg, run, i);
    forall k: nat | k < |run[i].calls[p].req.inputs| ensures Ref(p, k) in run[i].place {
      assert Ref(p, k) in run[i].place <==> IsPushed(run[i].calls, Ref(p, k));
    }
  }

  lemma LeftStaysLeft(cfg: Config, run: seq<State>, run': seq<State>, p: string)
    requires ValidConfig(cfg) && IsRun(cfg, run') && run != [] && run <= run'
    requires p in Last(run).calls && AllHaveLeft(Last(run), p)
    ensures forall k: nat | k < |Last(run).calls[p].req.inputs| :: HasLeft(Last(run').place, Ref(p, k))
  {
    forall k: nat | k < |Last(run).calls[p].req.inputs| ensures HasLeft(Last(run').place, Ref(p, k)) {
      assert HasLeft(Last(run).place, Ref(p, k));
      OnlyForward(cfg, run', |run| - 1, |run'| - 1, Ref(p, k));
    }
  }

  /**
   * A request that nothing has spoilt is answered in some continuation, whatever else is going on, and for any clocks
   * that its workers read as long as they claim before its deadline, or need not claim any more.
   */
  lemma PromiseCanBeKept(cfg: Config, run: seq<State>, p: string, clocks: Clocks) returns (run': seq<State>)
    requires ValidConfig(cfg) && IsRun(cfg, run) && IsPromising(Last(run), p)
    requires AllHaveLeft(Last(run), p) || Suit(cfg, Last(run).calls[p].req, clocks)
    ensures Continuation(cfg, run, run', clocks) && IsAnswered(Last(run'), p)
  {
    var pushed := PushAll(cfg, run, p, clocks);
    EveryChildIsPushed(cfg, pushed, |pushed| - 1, p);
    if AllHaveLeft(Last(run), p) {
      LeftStaysLeft(cfg, run, pushed, p);
    }
    var delivered := DeliverFirst(cfg, pushed, p, |Last(run).calls[p].req.inputs|, clocks);
    ContinuesFurther(cfg, run, pushed, delivered, clocks);
    run' := ReturnNow(cfg, delivered, p, clocks);
    ContinuesFurther(cfg, run, delivered, run', clocks);
  }

  // Which requests cannot.

  /** A step whose claim, if it is one, reads t or later, when the worker's wait is over. */
  predicate IsNotBefore(cfg: Config, s: State, step: Step, t: int) {
    step.Claim? ==> t <= step.nowMs && WaitIsOver(cfg, s, step.w, step.nowMs)
  }

  ghost predicate NextFrom(cfg: Config, s: State, s': State, t: int)
    requires ValidConfig(cfg)
  {
    exists step :: Enabled(cfg, s, step) && IsNotBefore(cfg, s, step, t) && s' == Apply(cfg, s, step)
  }

  ghost predicate IsFrom(cfg: Config, run: seq<State>, i: nat, t: int)
    requires ValidConfig(cfg) && 0 < i < |run|
  {
    NextFrom(cfg, run[i - 1], run[i], t)
  }

  /** A longer run whose further claims read t or later. */
  ghost predicate ContinuationFrom(cfg: Config, run: seq<State>, run': seq<State>, t: int)
    requires ValidConfig(cfg) && run != []
  {
    && IsRun(cfg, run') && run <= run'
    && forall i | |run| <= i < |run'| :: IsFrom(cfg, run', i, t)
  }

  lemma PunctualIsNotBefore(cfg: Config, run: seq<State>, run': seq<State>, clocks: Clocks)
    requires ValidConfig(cfg) && run != [] && Continuation(cfg, run, run', clocks)
    ensures ContinuationFrom(cfg, run, run', clocks.claimMs)
  {
    forall i | |run| <= i < |run'| ensures IsFrom(cfg, run', i, clocks.claimMs) {
      assert IsOnTime(cfg, run', i, clocks);
      var step :| Enabled(cfg, run'[i - 1], step) && IsPunctual(cfg, run'[i - 1], step, clocks)
        && run'[i] == Apply(cfg, run'[i - 1], step);
      assert IsNotBefore(cfg, run'[i - 1], step, clocks.claimMs);
    }
  }

  /** The child has not been handed to a worker, and is not to be handed to one: it waits, or is lost. */
  predicate IsHeldBack(place: Places, ref: Ref) {
    ref in place ==> place[ref].Queued? || place[ref].Lost?
  }

  /** A claim after the deadline drops the child if it trims it. */
  lemma LateIsNotLive(cfg: Config, s: State, lane: Lane, n: nat, nowMs: int, ref: Ref)
    requires DataOk(cfg, s) && n <= |Get(s.work, lane)|
    requires ref.parent in s.calls && !InTime(cfg, s.calls[ref.parent].req, nowMs)
    ensures ref !in ItemRefs(LiveItems(Get(s.work, lane)[..n], nowMs))
  {
    var live := LiveItems(Get(s.work, lane)[..n], nowMs);
    if ref in ItemRefs(live) {
      var item := ListedItem(live, ref);
      LiveItemsCome(Get(s.work, lane)[..n], nowMs, item);
      QueuedIsGenuine(cfg, s, lane, item);
      assert false;
    }
  }

  lemma MovesHoldBack(place: Places, expired: seq<Ref>, live: seq<Ref>, w: nat, ref: Ref)
    requires IsHeldBack(place, ref) && ref !in live
    ensures IsHeldBack(Move(Move(place, expired, Lost(ExpiredInQueue)), live, InFlight(w)), ref)
  {
  }

  lemma LateClaimHoldsBack(cfg: Config, s: State, w: nat, lane: Lane, nowMs: int, ref: Ref)
    requires ValidConfig(cfg) && DataOk(cfg, s) && IsHeldBack(s.place, ref)
    requires ref.parent in s.calls && !InTime(cfg, s.calls[ref.parent].req, nowMs)
    ensures IsHeldBack(RunClaim(cfg, s, w, lane, nowMs).place, ref)
  {
    var q := Get(s.work, lane);
    var n := Removed(q, LimitsOf(cfg.settings, lane), nowMs);
    LateIsNotLive(cfg, s, lane, n, nowMs, ref);
    MovesHoldBack(
      s.place, ItemRefs(ExpiredItems(q[..n], nowMs)), ItemRefs(LiveItems(q[..n], nowMs)), w, ref);
  }

  /** A queued child stays queued until its lane is claimed from. */
  lemma QueuedStays(cfg: Config, s: State, step: Step, lane: Lane, ref: Ref)
    requires ValidConfig(cfg) && Enabled(cfg, s, step) && Inv(cfg, s) && IsAt(s.place, ref, Queued(lane))
    requires !(step.Claim? && step.lane == lane)
    ensures IsAt(Apply(cfg, s, step).place, ref, Queued(lane))
  {
    OtherKeepsLane(cfg, s, step, lane);
    StepKeepsInv(cfg, s, step);
    GrownQueueLists(s, Apply(cfg, s, step), lane, ref);
  }

  lemma GrownQueueLists(s: State, s': State, lane: Lane, ref: Ref)
    requires PlacesOk(s) && PlacesOk(s') && IsAt(s.place, ref, Queued(lane)) && Get(s.work, lane) <= Get(s'.work, lane)
    ensures IsAt(s'.place, ref, Queued(lane))
  {
    var q, q' := Get(s.work, lane), Get(s'.work, lane);
    assert q' == q + q'[|q|..];
    EntryRefsConcat(q, q'[|q|..]);
    assert Exactly(EntryRefs(q), s.place, Queued(lane)) && Exactly(EntryRefs(q'), s'.place, Queued(lane));
    assert ref in EntryRefs(q);
  }

  lemma QueuedIsHeldBack(cfg: Config, s: State, step: Step, lane: Lane, ref: Ref)
    requires ValidConfig(cfg) && Enabled(cfg, s, step) && Inv(cfg, s) && IsAt(s.place, ref, Queued(lane))
    requires ref.parent in s.calls
    requires step.Claim? ==> !InTime(cfg, s.calls[ref.parent].req, step.nowMs)
    ensures IsHeldBack(Apply(cfg, s, step).place, ref)
  {
    if step.Claim? && step.lane == lane {
      LateClaimHoldsBack(cfg, s, step.w, step.lane, step.nowMs, ref);
    } else {
      QueuedStays(cfg, s, step, lane, ref);
    }
  }

  lemma LateStepHoldsBack(cfg: Config, run: seq<State>, j: nat, step: Step, ref: Ref)
    requires ValidConfig(cfg) && IsRun(cfg, run) && 0 < j < |run| && IsHeldBack(run[j - 1].place, ref)
    requires Enabled(cfg, run[j - 1], step) && run[j] == Apply(cfg, run[j - 1], step)
    requires ref.parent in run[j - 1].calls
    requires step.Claim? ==> !InTime(cfg, run[j - 1].calls[ref.parent].req, step.nowMs)
    ensures IsHeldBack(run[j].place, ref)
  {
    RunIsForward(cfg, run, j, ref);
    if ref in run[j - 1].place && run[j - 1].place[ref].Queued? {
      RunKeepsInv(cfg, run, j - 1);
      QueuedIsHeldBack(cfg, run[j - 1], step, run[j - 1].place[ref].lane, ref);
    }
  }

  lemma LateNextHoldsBack(cfg: Config, run: seq<State>, j: nat, t: int, ref: Ref)
    requires ValidConfig(cfg) && IsRun(cfg, run) && 0 < j < |run| && IsFrom(cfg, run, j, t)
    requires ref.parent in run[j - 1].calls && !InTime(cfg, run[j - 1].calls[ref.parent].req, t)
    requires IsHeldBack(run[j - 1].place, ref)
    ensures IsHeldBack(run[j].place, ref)
  {
    var step :| Enabled(cfg, run[j - 1], step) && IsNotBefore(cfg, run[j - 1], step, t)
      && run[j] == Apply(cfg, run[j - 1], step);
    LateStepHoldsBack(cfg, run, j, step, ref);
  }

  lemma StillLate(cfg: Config, run: seq<State>, i: nat, j: nat, t: int, ref: Ref)
    requires ValidConfig(cfg) && IsRun(cfg, run) && i <= j < |run|
    requires ref.parent in run[i].calls && !InTime(cfg, run[i].calls[ref.parent].req, t)
    ensures ref.parent in run[j].calls && !InTime(cfg, run[j].calls[ref.parent].req, t)
  {
    RunKeepsCalls(cfg, run, i, j, ref);
  }

  ghost predicate AllFrom(cfg: Config, run: seq<State>, i: nat, t: int)
    requires ValidConfig(cfg)
  {
    forall m | i < m < |run| :: IsFrom(cfg, run, m, t)
  }

  lemma StaysHeldBack(cfg: Config, run: seq<State>, i: nat, j: nat, t: int, ref: Ref)
    requires ValidConfig(cfg) && IsRun(cfg, run) && i < j < |run| && AllFrom(cfg, run, i, t)
    requires ref.parent in run[i].calls && !InTime(cfg, run[i].calls[ref.parent].req, t)
    requires IsHeldBack(run[j - 1].place, ref)
    ensures IsHeldBack(run[j].place, ref)
  {
    StillLate(cfg, run, i, j - 1, t, ref);
    assert IsFrom(cfg, run, j, t);
    LateNextHoldsBack(cfg, run, j, t, ref);
  }

  /** Once the deadline is past for all claims to come, a child that no worker has got by then is never handed out. */
  lemma {:induction false} LateIsHeldBack(cfg: Config, run: seq<State>, i: nat, j: nat, t: int, ref: Ref)
    requires ValidConfig(cfg) && IsRun(cfg, run) && i <= j < |run| && AllFrom(cfg, run, i, t)
    requires ref.parent in run[i].calls && !InTime(cfg, run[i].calls[ref.parent].req, t)
    requires IsHeldBack(run[i].place, ref)
    ensures IsHeldBack(run[j].place, ref)
    decreases j
  {
    if i < j {
      LateIsHeldBack(cfg, run, i, j - 1, t, ref);
      StaysHeldBack(cfg, run, i, j, t, ref);
    }
  }

  lemma AnsweredWasInTime(cfg: Config, run: seq<State>, run': seq<State>, t: int, p: string)
    requires ValidConfig(cfg) && run != [] && ContinuationFrom(cfg, run, run', t)
    requires p in Last(run).calls && IsAnswered(Last(run'), p)
    ensures InTime(cfg, Last(run).calls[p].req, t) || AllHaveLeft(Last(run), p)
  {
    var i, j := |run| - 1, |run'| - 1;
    RequestsPersist(cfg, run', i, j, p);
    if !InTime(cfg, Last(run).calls[p].req, t) {
      forall k: nat | k < |Last(run).calls[p].req.inputs| ensures HasLeft(Last(run).place, Ref(p, k)) {
        AnsweredMeansAllDelivered(cfg, run', j, p, run'[j].calls[p].phase.outcome.data, k);
        if IsHeldBack(Last(run).place, Ref(p, k)) {
          LateIsHeldBack(cfg, run', i, j, t, Ref(p, k));
        }
      }
    }
  }

  lemma AnsweredWasUnspoilt(cfg: Config, run: seq<State>, i: nat, p: string)
    requires ValidConfig(cfg) && IsRun(cfg, run) && i < |run| && p in run[i].calls && IsAnswered(Last(run), p)
    ensures NothingSpoilt(run[i], p)
  {
    var j := |run| - 1;
    RequestsPersist(cfg, run, i, j, p);
    forall k: nat | k < |run[i].calls[p].req.inputs| ensures !IsSpoilt(run[i], Ref(p, k)) {
      AnsweredIsUnspoilt(cfg, run, j, p, run[j].calls[p].phase.outcome.data, k);
      if IsSpoilt(run[i], Ref(p, k)) {
        SpoiltForever(cfg, run, i, j, Ref(p, k));
      }
    }
  }

  lemma AnsweredWasOpenOrDelivered(cfg: Config, run: seq<State>, i: nat, p: string)
    requires ValidConfig(cfg) && IsRun(cfg, run) && i < |run| && p in run[i].calls && IsAnswered(Last(run), p)
    ensures run[i].calls[p].req.gateway !in run[i].closed || AllDelivered(run[i], p)
  {
    var j := |run| - 1;
    RequestsPersist(cfg, run, i, j, p);
    if run[i].calls[p].req.gateway in run[i].closed {
      forall k: nat | k < |run[i].calls[p].req.inputs| ensures IsAt(run[i].place, Ref(p, k), Delivered) {
        AnsweredMeansAllDelivered(cfg, run, j, p, run[j].calls[p].phase.outcome.data, k);
        ClosedResolvesNothing(cfg, run, i, j, Ref(p, k));
        ExactlyOnePlace(cfg, run, i, Ref(p, k));
      }
    }
  }

  /** Some continuation whose claims read t or later answers the request. */
  ghost predicate CanBeAnswered(cfg: Config, run: seq<State>, p: string, t: int)
    requires ValidConfig(cfg) && run != []
  {
    exists run' :: ContinuationFrom(cfg, run, run', t) && IsAnswered(Last(run'), p)
  }

  /** The request still waits, nothing of it is spoilt, what it needs to hear it can hear, and it is in time. */
  ghost predicate IsAnswerable(cfg: Config, s: State, p: string, t: int)
    requires p in s.calls
  {
    && s.calls[p].phase.Active? && NothingSpoilt(s, p)
    && (s.calls[p].req.gateway !in s.closed || AllDelivered(s, p))
    && (InTime(cfg, s.calls[p].req, t) || AllHaveLeft(s, p))
  }

  lemma AnswerableCanBeAnswered(cfg: Config, run: seq<State>, p: string, t: int)
    requires ValidConfig(cfg) && IsRun(cfg, run) && p in Last(run).calls && IsAnswerable(cfg, Last(run), p, t)
    ensures CanBeAnswered(cfg, run, p, t)
  {
    var s := Last(run);
    var clocks := Clocks(t - LongestWaitMs(cfg, s.calls[p].req.lane), t);
    var run': seq<State>;
    if s.calls[p].req.gateway !in s.closed {
      run' := PromiseCanBeKept(cfg, run, p, clocks);
    } else {
      run' := ReturnNow(cfg, run, p, clocks);
    }
    PunctualIsNotBefore(cfg, run, run', clocks);
  }

  lemma CanBeAnsweredIsAnswerable(cfg: Config, run: seq<State>, p: string, t: int)
    requires ValidConfig(cfg) && IsRun(cfg, run) && p in Last(run).calls && CanBeAnswered(cfg, run, p, t)
    ensures IsAnswered(Last(run), p) || IsAnswerable(cfg, Last(run), p, t)
  {
    var run' :| ContinuationFrom(cfg, run, run', t) && IsAnswered(Last(run'), p);
    var i := |run| - 1;
    if Last(run).calls[p].phase.Active? {
      AnsweredWasUnspoilt(cfg, run', i, p);
      AnsweredWasOpenOrDelivered(cfg, run', i, p);
      AnsweredWasInTime(cfg, run, run', t, p);
    } else {
      OutcomeIsFinal(cfg, run', i, |run'| - 1, p);
    }
  }

  /**
   * Which requests can be answered, exactly, when every later claim reads a clock of t or later. Whatever has happened
   * so far, some continuation returns normally just when the request has done so already, or still waits and none of
   * its children has been lost or has failed, its gateway still listens or has nothing left to hear, and its deadline
   * is not past at t or all its children have left the queue.
   */
  lemma AnswerableExactly(cfg: Config, run: seq<State>, p: string, t: int)
    requires ValidConfig(cfg) && IsRun(cfg, run) && p in Last(run).calls
    ensures CanBeAnswered(cfg, run, p, t) <==> IsAnswered(Last(run), p) || IsAnswerable(cfg, Last(run), p, t)
  {
    if CanBeAnswered(cfg, run, p, t) {
      CanBeAnsweredIsAnswerable(cfg, run, p, t);
    }
    if IsAnswered(Last(run), p) {
      assert ContinuationFrom(cfg, run, run, t);
    } else if IsAnswerable(cfg, Last(run), p, t) {
      AnswerableCanBeAnswered(cfg, run, p, t);
    }
  }

  /** Nobody has heard of a request that has not been made. */
  lemma NewRequestIsUnspoilt(cfg: Config, s: State, req: Request, ref: Ref)
    requires Inv(cfg, s) && req.id !in s.calls && ref.parent == req.id
    ensures !IsSpoilt(RunSubmit(s, req), ref)
  {
    assert ref in s.place <==> IsPushed(s.calls, ref);
    forall w, k: nat ensures !HoldsFailure(s.workers, w, k, ref) {
      assert w in s.workers ==> WorkerOk(cfg, s.calls, s.workers[w]);
    }
    forall g, r | r in Get(s.results, g) ensures !FailsFor(r, ref) {
      assert ReplyOk(cfg, s.calls, g, r);
    }
  }

  lemma NewRequestIsPromising(cfg: Config, s: State, req: Request)
    requires Inv(cfg, s) && req.id !in s.calls && req.gateway !in s.closed
    ensures IsPromising(RunSubmit(s, req), req.id) && RunSubmit(s, req).calls[req.id].req == req
  {
    forall k: nat | k < |req.inputs| ensures !IsSpoilt(RunSubmit(s, req), Ref(req.id, k)) {
      NewRequestIsUnspoilt(cfg, s, req, Ref(req.id, k));
    }
  }

  lemma TakeOn(
    cfg: Config, run: seq<State>, req: Request, model: string, inputType: Option<InputType>, clocks: Clocks)
    returns (run': seq<State>)
    requires ValidConfig(cfg) && IsRun(cfg, run) && Enabled(cfg, Last(run), Submit(req, model, inputType))
    requires req.gateway !in Last(run).closed
    ensures Continuation(cfg, run, run', clocks)
    ensures IsPromising(Last(run'), req.id) && Last(run').calls[req.id].req == req
  {
    RunKeepsInv(cfg, run, |run| - 1);
    NewRequestIsPromising(cfg, Last(run), req);
    run' := Extend(cfg, run, Submit(req, model, inputType), clocks);
  }

  lemma AnswerIsInOrder(cfg: Config, run: seq<State>, i: nat, req: Request)
    requires ValidConfig(cfg) && IsRun(cfg, run) && i < |run|
    requires req.id in run[i].calls && run[i].calls[req.id].req == req && IsAnswered(Last(run), req.id)
    ensures Last(run).calls[req.id].phase == Finished(Answered(InOrder(req.inputs, cfg.embed)))
  {
    RequestsPersist(cfg, run, i, |run| - 1, req.id);
    var data := Last(run).calls[req.id].phase.outcome.data;
    BatchingIsTransparent(cfg, run, |run| - 1, req.id, data);
    assert data == InOrder(req.inputs, cfg.embed);
  }

  /**
   * In every reachable state an open gateway can take on any new request that is batched, however many inputs it has,
   * and some continuation answers it with the embeddings of its inputs in input order. Its workers may read any clocks
   * that let their waits pass and are not past the deadline.
   */
  lemma EveryRequestCanBeAnswered(
    cfg: Config, run: seq<State>, req: Request, model: string, inputType: Option<InputType>, clocks: Clocks)
    returns (run': seq<State>)
    requires ValidConfig(cfg) && IsRun(cfg, run) && Enabled(cfg, Last(run), Submit(req, model, inputType))
    requires req.gateway !in Last(run).closed && Suit(cfg, req, clocks)
    ensures Continuation(cfg, run, run', clocks) && req.id in Last(run').calls
    ensures Last(run').calls[req.id].phase == Finished(Answered(InOrder(req.inputs, cfg.embed)))
  {
    var mid := TakeOn(cfg, run, req, model, inputType, clocks);
    run' := PromiseCanBeKept(cfg, mid, req.id, clocks);
    ContinuesFurther(cfg, run, mid, run', clocks);
    AnswerIsInOrder(cfg, run', |mid| - 1, req);
  }
}
