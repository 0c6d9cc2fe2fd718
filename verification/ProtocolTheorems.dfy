/** What holds in every run of the batching protocol. */
module ProtocolTheorems {
  import opened QueueModels
  import opened Claiming
  import opened Workload
  import opened ResponseNormalization
  import opened BatchWorker
  import opened BatchingClient
  import opened Protocol
  import opened ProtocolData
  import opened ProtocolPlaces

  ghost predicate Inv(cfg: Config, s: State) {
    DataOk(cfg, s) && PlacesOk(s)
  }

  lemma StepKeepsInv(cfg: Config, s: State, step: Step)
    requires ValidConfig(cfg) && Enabled(cfg, s, step) && Inv(cfg, s)
    ensures Inv(cfg, Apply(cfg, s, step))
  {
    StepKeepsData(cfg, s, step);
    StepKeepsPlaces(cfg, s, step);
  }

  lemma StepTo(cfg: Config, run: seq<State>, i: nat) returns (step: Step)
    requires ValidConfig(cfg) && IsRun(cfg, run) && 0 < i < |run|
    ensures Enabled(cfg, run[i - 1], step) && run[i] == Apply(cfg, run[i - 1], step)
  {
    assert StepsAt(cfg, run, i - 1);
    step :| Enabled(cfg, run[i - 1], step) && run[i] == Apply(cfg, run[i - 1], step);
  }

  lemma {:induction false} RunKeepsInv(cfg: Config, run: seq<State>, i: nat)
    requires ValidConfig(cfg) && IsRun(cfg, run) && i < |run|
    ensures Inv(cfg, run[i])
  {
    if i != 0 {
      RunKeepsInv(cfg, run, i - 1);
      var step := StepTo(cfg, run, i);
      StepKeepsInv(cfg, run[i - 1], step);
    }
  }

  // Transparency.

  /** The rows of the direct path: one call for all inputs, normalised. */
  function DirectPath(inputs: seq<string>, reply: Reply): Result<seq<EmbeddingData>, NormalizationError> {
    Normalize(reply, |inputs|)
  }

  /** Whatever faithful reply the direct path gets, it returns the embeddings of the inputs in input order. */
  lemma DirectPathIsInOrder(inputs: seq<string>, reply: Reply, embed: string -> Embedding)
    requires Faithful(inputs, Responded(reply), embed) && DirectPath(inputs, reply).Success?
    ensures DirectPath(inputs, reply) == Success(InOrder(inputs, embed))
  {
    AcceptedExactly(reply, |inputs|);
    NamedReplyIsInOrder(reply.items, inputs, embed);
  }

  /**
   * Batching is transparent. However the run went, a batched request that returns normally returns entry i with
   * index i and the embedding of input i: the very list that the direct path returns for the same inputs.
   */
  lemma BatchingIsTransparent(cfg: Config, run: seq<State>, i: nat, p: string, data: seq<EmbeddingData>)
    requires ValidConfig(cfg) && IsRun(cfg, run) && i < |run|
    requires p in run[i].calls && run[i].calls[p].phase == Finished(Answered(data))
    ensures |data| == |run[i].calls[p].req.inputs|
    ensures forall k | 0 <= k < |data| :: data[k] == EmbeddingData(cfg.embed(run[i].calls[p].req.inputs[k]), k)
    ensures forall reply ::
      Faithful(run[i].calls[p].req.inputs, Responded(reply), cfg.embed)
      && DirectPath(run[i].calls[p].req.inputs, reply).Success?
      ==> DirectPath(run[i].calls[p].req.inputs, reply) == Success(data)
  {
    RunKeepsInv(cfg, run, i);
    var c := run[i].calls[p];
    assert FinishedOk(cfg, c);
    forall reply |
      Faithful(c.req.inputs, Responded(reply), cfg.embed) && DirectPath(c.req.inputs, reply).Success?
      ensures DirectPath(c.req.inputs, reply) == Success(data)
    {
      DirectPathIsInOrder(c.req.inputs, reply, cfg.embed);
    }
  }

  lemma {:induction false} ChildrenAt(req: Request, timeoutMs: int, n: nat, k: nat)
    requires k < n <= |req.inputs| == |req.tokenCounts|
    ensures Children(req, timeoutMs, n)[k] == ChildItem(req, k, timeoutMs)
  {
    if k < n - 1 {
      ChildrenAt(req, timeoutMs, n - 1, k);
    }
  }

  function Renumbered(rows: seq<EmbeddingData>): (r: seq<EmbeddingData>)
    ensures |r| == |rows|
    ensures forall k | 0 <= k < |r| :: r[k] == rows[k].(index := k)
  {
    seq(|rows|, k requires 0 <= k < |rows| => rows[k].(index := k))
  }

  /** A call whose children were answered row by row returns the rows, numbered by its inputs. */
  lemma AnsweredRowByRow(req: Request, rows: seq<EmbeddingData>, results: seq<ResultItem>)
    requires |results| == |rows| == |req.inputs|
    requires forall k | 0 <= k < |results| ::
      results[k].inputIndex == k && results[k].ok && results[k].embedding == Some(rows[k].embedding)
    ensures Concluded(req, results) == Answered(Renumbered(rows))
  {
    ReassembleInOrder(req.lane, |req.inputs|, results);
    assert forall k | 0 <= k < |results| :: !IsBad(results[k]);
    assert Reassemble(req.lane, |req.inputs|, results) == Success(results);
    assert ToData(results) == Renumbered(rows);
  }

  /** The results of a batch that is made of one request's children. */
  lemma OwnBatchResults(req: Request, timeoutMs: int, reply: Reply, rows: seq<EmbeddingData>, k: nat)
    requires k < |req.inputs| == |req.tokenCounts| && Normalize(reply, |req.inputs|) == Success(rows)
    ensures |rows| == |req.inputs|
    ensures
      var r := BatchResults(Children(req, timeoutMs, |req.inputs|), Responded(reply))[k];
      r.inputIndex == k && r.ok && r.embedding == Some(rows[k].embedding)
  {
    NormalizedLength(reply, |req.inputs|);
    ChildrenAt(req, timeoutMs, |req.inputs|, k);
  }

  lemma RenumberingChangesNothing(rows: seq<EmbeddingData>)
    ensures Renumbered(rows) == rows <==> forall k | 0 <= k < |rows| :: rows[k].index == k
  {
    if Renumbered(rows) == rows {
      forall k | 0 <= k < |rows| ensures rows[k].index == k {
        assert Renumbered(rows)[k] == rows[k];
      }
    }
  }

  function OwnBatchOutcome(req: Request, timeoutMs: int, reply: Reply): Outcome
    requires |req.inputs| == |req.tokenCounts|
  {
    Concluded(req, BatchResults(Children(req, timeoutMs, |req.inputs|), Responded(reply)))
  }

  lemma OwnBatchIsRenumbered(req: Request, timeoutMs: int, reply: Reply, rows: seq<EmbeddingData>)
    requires |req.inputs| == |req.tokenCounts| && Normalize(reply, |req.inputs|) == Success(rows)
    ensures OwnBatchOutcome(req, timeoutMs, reply) == Answered(Renumbered(rows))
  {
    var results := BatchResults(Children(req, timeoutMs, |req.inputs|), Responded(reply));
    NormalizedLength(reply, |req.inputs|);
    forall k | 0 <= k < |results|
      ensures results[k].inputIndex == k && results[k].ok && results[k].embedding == Some(rows[k].embedding)
    {
      OwnBatchResults(req, timeoutMs, reply, rows, k);
    }
    AnsweredRowByRow(req, rows, results);
  }

  lemma InPlaceExactly(reply: Reply, n: nat, rows: seq<EmbeddingData>)
    requires Normalize(reply, n) == Success(rows)
    ensures Renumbered(rows) == rows <==> IndexesCover(ParseItems(reply.items, 0).value)
  {
    var parsed := ParseItems(reply.items, 0).value;
    assert rows == SortByIndex(parsed) && |rows| == |parsed|;
    RenumberingChangesNothing(rows);
    SortedIntoPlaceExactly(parsed);
    assert (forall k | 0 <= k < |rows| :: rows[k].index == k) <==> IndexesCover(parsed);
  }

  /**
   * What transparency asks of the model server, exactly. Give one and the same reply to the direct path and to a batch
   * made of the request's children: both return the same embeddings in the same order, but the direct path keeps the
   * server's indexes and the batched one counts, so they agree just when the indexes are 0 to n - 1, each once.
   */
  lemma SameReplyBothPaths(req: Request, timeoutMs: int, reply: Reply, rows: seq<EmbeddingData>)
    requires |req.inputs| == |req.tokenCounts| && DirectPath(req.inputs, reply) == Success(rows)
    ensures OwnBatchOutcome(req, timeoutMs, reply) == Answered(Renumbered(rows))
    ensures
      OwnBatchOutcome(req, timeoutMs, reply) == Answered(rows) <==> IndexesCover(ParseItems(reply.items, 0).value)
  {
    OwnBatchIsRenumbered(req, timeoutMs, reply, rows);
    InPlaceExactly(reply, |req.inputs|, rows);
  }

  /** One row under index 5: the direct path passes the 5 on, the batched path counts from 0. */
  lemma MisnumberedReplyDiffers(req: Request, timeoutMs: int, embedding: Embedding)
    requires |req.inputs| == |req.tokenCounts| == 1
    ensures
      var reply := Data([Object(Numbers(embedding), Present(5))]);
      && DirectPath(req.inputs, reply) == Success([EmbeddingData(embedding, 5)])
      && OwnBatchOutcome(req, timeoutMs, reply) == Answered([EmbeddingData(embedding, 0)])
  {
    var reply := Data([Object(Numbers(embedding), Present(5))]);
    var rows := [EmbeddingData(embedding, 5)];
    assert reply.items[1..] == [] && ParseItems(reply.items[1..], 1) == Success([]);
    assert ParseItems(reply.items, 0) == Success(rows + []) && rows + [] == rows;
    StableSortIsUnique(rows, rows);
    SameReplyBothPaths(req, timeoutMs, reply, rows);
    assert Renumbered(rows) == [EmbeddingData(embedding, 0)];
  }

  /** All or nothing: a request that returns normally had every child delivered, with an embedding, and none lost. */
  lemma AnsweredMeansAllDelivered(cfg: Config, run: seq<State>, i: nat, p: string, data: seq<EmbeddingData>, k: nat)
    requires ValidConfig(cfg) && IsRun(cfg, run) && i < |run|
    requires p in run[i].calls && run[i].calls[p].phase == Finished(Answered(data))
    requires k < |run[i].calls[p].req.inputs|
    ensures IsAt(run[i].place, Ref(p, k), Delivered)
    ensures
      var f := run[i].calls[p].futures;
      k < |f| == |data| && f[k].Done? && f[k].result.ok && f[k].result.embedding == Some(data[k].embedding)
  {
    RunKeepsInv(cfg, run, i);
    var c := run[i].calls[p];
    assert FinishedOk(cfg, c);
    assert FutureOk(cfg, run[i].calls, Ref(p, k), c.futures[k]);
    assert IsResolved(run[i].calls, Ref(p, k));
  }

  /** The "missing indexes" and "no embedding" errors are unreachable. */
  lemma ReassemblyNeverStarves(cfg: Config, run: seq<State>, i: nat, p: string, e: GatewayError)
    requires ValidConfig(cfg) && IsRun(cfg, run) && i < |run|
    requires p in run[i].calls && run[i].calls[p].phase == Finished(Raised(e))
    ensures !e.MissingIndexes? && !e.NoEmbedding?
  {
    RunKeepsInv(cfg, run, i);
    assert FinishedOk(cfg, run[i].calls[p]);
  }

  /**
   * When every child has been answered, the call returns or raises by the answers alone: it raises the error of the
   * failing child with the lowest input index, and returns the rows when no child failed.
   */
  lemma AnswersDecideTheCall(cfg: Config, run: seq<State>, i: nat, p: string)
    requires ValidConfig(cfg) && IsRun(cfg, run) && i < |run| && Enabled(cfg, run[i], Return(p))
    ensures
      var c := run[i].calls[p];
      var results := Gathered(c.futures);
      match Apply(cfg, run[i], Return(p)).calls[p].phase
      case Active => false
      case Finished(Answered(data)) => forall k | 0 <= k < |results| :: results[k].ok
      case Finished(Raised(e)) =>
        exists k :: 0 <= k < |results| && !results[k].ok && IsErrorOf(c.req.lane, results[k], e)
          && forall j | 0 <= j < k :: results[j].ok
  {
    RunKeepsInv(cfg, run, i);
    var c := run[i].calls[p];
    GatheredInOrder(cfg, run[i], p);
    ReassembleInOrder(c.req.lane, |c.req.inputs|, Gathered(c.futures));
    ReassembleExact(c.req.lane, |c.req.inputs|, Gathered(c.futures));
  }

  lemma GatheredInOrder(cfg: Config, s: State, p: string)
    requires FuturesOk(cfg, s.calls) && p in s.calls && AllRegistered(s.calls[p]) && AllDone(s.calls[p].futures)
    ensures
      var results := Gathered(s.calls[p].futures);
      InInputOrder(results, |s.calls[p].req.inputs|)
      && forall k | 0 <= k < |results| :: IsBad(results[k]) <==> !results[k].ok
  {
    var c := s.calls[p];
    forall k | 0 <= k < |c.futures|
      ensures Gathered(c.futures)[k].inputIndex == k
      ensures IsBad(Gathered(c.futures)[k]) <==> !Gathered(c.futures)[k].ok
    {
      assert FutureOk(cfg, s.calls, Ref(p, k), c.futures[k]);
    }
  }

  /** A gateway that is closed refuses every request and takes nothing on. */
  lemma ClosedGatewayRefuses(cfg: Config, s: State, req: Request, model: string, inputType: Option<InputType>)
    requires ValidConfig(cfg) && Enabled(cfg, s, Submit(req, model, inputType))
    ensures
      var s' := Apply(cfg, s, Submit(req, model, inputType));
      && req.id in s'.calls && s'.calls[req.id].req == req
      && (s'.calls[req.id].phase == Finished(Raised(ShuttingDown)) <==> req.gateway in s.closed)
      && (s'.calls[req.id].phase.Active? <==> req.gateway !in s.closed)
      && s'.work == s.work && s'.pending == s.pending
  {
  }

  /** What workers and the server may do depends on nothing but what there is to do it to. */
  lemma OutsideIsFree(
    cfg: Config, s: State, g: string, w: nat, count: nat, lane: Lane, text: string, nowMs: int, status: int)
    requires ValidConfig(cfg)
    ensures Enabled(cfg, s, PushMalformed(lane, text))
    ensures count <= |Get(s.results, g)| ==> Enabled(cfg, s, DropResults(g, count))
    ensures w in s.workers || w in s.windows ==> Enabled(cfg, s, Crash(w))
    ensures w !in s.workers && w !in s.windows ==> Enabled(cfg, s, Peek(w, lane, nowMs))
    ensures w !in s.windows && w in s.workers && s.workers[w].Publishing? && s.workers[w].sent == |s.workers[w].batch|
      ==> Enabled(cfg, s, Peek(w, lane, nowMs))
    ensures w !in s.workers && w in s.windows ==> Enabled(cfg, s, Claim(w, s.windows[w].lane, nowMs))
    ensures w in s.workers && s.workers[w].Claimed? ==>
      && Enabled(cfg, s, ModelAnswers(w, HttpFailure(status, text)))
      && Enabled(cfg, s, ModelAnswers(w, OtherFailure(text)))
      && Enabled(cfg, s, ModelAnswers(w, Responded(NoDataList)))
  {
  }

  /** A new request may come at any time, and a call may end early and still have its next push arrive. */
  lemma GatewaysAreFree(
    cfg: Config, s: State, req: Request, model: string, inputType: Option<InputType>, p: string, g: string,
    text: string)
    requires ValidConfig(cfg)
    ensures
      (&& req.id !in s.calls && ':' !in req.id && |req.inputs| == |req.tokenCounts|
       && BatchLane(cfg.settings, true, model, req.tokenCounts, inputType) == Some(req.lane)) ==>
      Enabled(cfg, s, Submit(req, model, inputType))
    ensures Enabled(cfg, s, Close(g)) && (g in s.closed ==> Enabled(cfg, s, Stop(g)))
    ensures p in s.calls && s.calls[p].phase.Active? ==> Enabled(cfg, s, Interrupt(p, text))
    ensures
      (&& p in s.calls && s.calls[p].phase.Active?
       && |s.calls[p].futures| == s.calls[p].pushed == |s.calls[p].req.inputs|) ==>
      Enabled(cfg, s, TimeOut(p))
    ensures
      (&& p in s.calls && s.calls[p].pushed < |s.calls[p].futures|
       && s.calls[p].pushed < |s.calls[p].req.inputs| == |s.calls[p].req.tokenCounts|) ==>
      Enabled(cfg, s, Push(p))
  {
  }

  // Futures and outcomes are final.

  /** The call of a child keeps its request and, once it has one, its outcome; the child keeps its result. */
  ghost predicate Keeps(calls: Calls, calls': Calls, ref: Ref) {
    ref.parent in calls ==>
      && ref.parent in calls' && calls'[ref.parent].req == calls[ref.parent].req
      && (calls[ref.parent].phase.Finished? ==> calls'[ref.parent].phase == calls[ref.parent].phase)
      && (IsResolved(calls, ref) ==>
        IsResolved(calls', ref) && calls'[ref.parent].futures[ref.index] == calls[ref.parent].futures[ref.index])
  }

  lemma ListenKeepsCalls(s: State, g: string, ref: Ref)
    requires Get(s.results, g) != []
    ensures Keeps(s.calls, RunListen(s, g).calls, ref)
  {
    var s' := RunListen(s, g);
    var key := PendingKey(g, s.results[g][0].requestId);
    if key in s.pending && IsAwaited(s.calls, s.pending[key]) {
      assert s'.calls == Resolve(s.calls, s.pending[key], s.results[g][0]);
    }
  }

  lemma StopKeepsCalls(s: State, g: string, ref: Ref)
    ensures Keeps(s.calls, RunStop(s, g).calls, ref)
  {
    if IsResolved(s.calls, ref) {
      StopFutureEffect(s, g, s.calls[ref.parent], ref.index);
    }
  }

  lemma ConcludeKeepsCalls(s: State, p: string, outcome: Outcome, ref: Ref)
    requires p in s.calls && s.calls[p].phase.Active?
    ensures Keeps(s.calls, Conclude(s, p, outcome).calls, ref)
  {
  }

  lemma GrowthKeepsCalls(cfg: Config, s: State, step: Step, ref: Ref)
    requires ValidConfig(cfg) && Enabled(cfg, s, step) && (step.Submit? || step.Register? || step.Push?)
    ensures Keeps(s.calls, Apply(cfg, s, step).calls, ref)
  {
  }

  lemma OtherLeavesCalls(cfg: Config, s: State, step: Step)
    requires ValidConfig(cfg) && Enabled(cfg, s, step)
    requires !IsGatewayStep(step) || step.Close?
    ensures Apply(cfg, s, step).calls == s.calls
  {
  }

  lemma StepKeepsCalls(cfg: Config, s: State, step: Step, ref: Ref)
    requires ValidConfig(cfg) && Enabled(cfg, s, step)
    ensures Keeps(s.calls, Apply(cfg, s, step).calls, ref)
  {
    match step
    case Submit(_, _, _) => GrowthKeepsCalls(cfg, s, step, ref);
    case Register(_) => GrowthKeepsCalls(cfg, s, step, ref);
    case Push(_) => GrowthKeepsCalls(cfg, s, step, ref);
    case Listen(g) => ListenKeepsCalls(s, g, ref);
    case Stop(g) => StopKeepsCalls(s, g, ref);
    case Return(p) => ConcludeKeepsCalls(s, p, Concluded(s.calls[p].req, Gathered(s.calls[p].futures)), ref);
    case TimeOut(p) => ConcludeKeepsCalls(s, p, Raised(TimedOut(s.calls[p].req.lane)), ref);
    case RaiseStopped(p, i) => ConcludeKeepsCalls(s, p, Raised(ClientStopped(ChildId(s.calls[p].req, i))), ref);
    case Interrupt(p, message) => ConcludeKeepsCalls(s, p, Raised(Interrupted(message)), ref);
    case _ => OtherLeavesCalls(cfg, s, step);
  }

  lemma {:induction false} RunKeepsCalls(cfg: Config, run: seq<State>, i: nat, j: nat, ref: Ref)
    requires ValidConfig(cfg) && IsRun(cfg, run) && i <= j < |run|
    ensures Keeps(run[i].calls, run[j].calls, ref)
    decreases j
  {
    if i < j {
      RunKeepsCalls(cfg, run, i, j - 1, ref);
      NextKeepsCalls(cfg, run, j, ref);
    }
  }

  lemma NextKeepsCalls(cfg: Config, run: seq<State>, j: nat, ref: Ref)
    requires ValidConfig(cfg) && IsRun(cfg, run) && 0 < j < |run|
    ensures Keeps(run[j - 1].calls, run[j].calls, ref)
  {
    var step := StepTo(cfg, run, j);
    StepKeepsCalls(cfg, run[j - 1], step, ref);
  }

  /** A future is resolved at most once: whatever happens later, it keeps the result it was given. */
  lemma ResolvedOnce(cfg: Config, run: seq<State>, i: nat, j: nat, ref: Ref)
    requires ValidConfig(cfg) && IsRun(cfg, run) && i <= j < |run| && IsResolved(run[i].calls, ref)
    ensures IsResolved(run[j].calls, ref)
    ensures run[j].calls[ref.parent].futures[ref.index] == run[i].calls[ref.parent].futures[ref.index]
  {
    RunKeepsCalls(cfg, run, i, j, ref);
  }

  /** An outcome is final. */
  lemma OutcomeIsFinal(cfg: Config, run: seq<State>, i: nat, j: nat, p: string)
    requires ValidConfig(cfg) && IsRun(cfg, run) && i <= j < |run|
    requires p in run[i].calls && run[i].calls[p].phase.Finished?
    ensures p in run[j].calls && run[j].calls[p].phase == run[i].calls[p].phase
  {
    RunKeepsCalls(cfg, run, i, j, Ref(p, 0));
  }

  /** A resolved future holds the result of its own child, so no result ever reaches a stranger's request. */
  lemma ResolvedByItsOwnResult(cfg: Config, run: seq<State>, i: nat, ref: Ref)
    requires ValidConfig(cfg) && IsRun(cfg, run) && i < |run| && IsResolved(run[i].calls, ref)
    ensures
      var c := run[i].calls[ref.parent];
      var r := c.futures[ref.index].result;
      && ref.index < |c.req.inputs|
      && r.requestId == ChildId(c.req, ref.index) && ResultRef(r) == ref
      && (r.ok ==> r.embedding == Some(cfg.embed(c.req.inputs[ref.index])))
  {
    RunKeepsInv(cfg, run, i);
    assert FutureOk(cfg, run[i].calls, ref, run[i].calls[ref.parent].futures[ref.index]);
  }

  /** A result waits at the gateway whose request asked for it, and at no other. */
  lemma RepliesGoHome(cfg: Config, run: seq<State>, i: nat, g: string, r: ResultItem)
    requires ValidConfig(cfg) && IsRun(cfg, run) && i < |run| && r in Get(run[i].results, g)
    ensures r.parentRequestId in run[i].calls && run[i].calls[r.parentRequestId].req.gateway == g
    ensures r.requestId == ChildId(run[i].calls[r.parentRequestId].req, r.inputIndex)
  {
    RunKeepsInv(cfg, run, i);
    assert ReplyOk(cfg, run[i].calls, g, r);
  }

  // One place each, and only forward.

  /** The children listed by a queue, a worker or a result queue. */
  function ContainerRefs(s: State, at: Place): seq<Ref> {
    match at
    case Queued(lane) => EntryRefs(Get(s.work, lane))
    case InFlight(w) => ItemRefs(Unsent(s, w))
    case Replied(g) => ResultRefs(Get(s.results, g))
    case _ => []
  }

  predicate IsContainer(at: Place) {
    at.Queued? || at.InFlight? || at.Replied?
  }

  lemma {:induction false} NoDupCounts(refs: seq<Ref>, ref: Ref)
    requires NoDup(refs)
    ensures multiset(refs)[ref] == if ref in refs then 1 else 0
  {
    if refs != [] {
      var front, last := refs[..|refs| - 1], refs[|refs| - 1];
      assert refs == front + [last];
      NoDupCounts(front, ref);
    }
  }

  /**
   * Every pushed child is in exactly one place: one copy of it is in the container recorded for it and none is in any
   * other, and it counts as delivered just when its future is resolved.
   */
  lemma ExactlyOnePlace(cfg: Config, run: seq<State>, i: nat, ref: Ref)
    requires ValidConfig(cfg) && IsRun(cfg, run) && i < |run|
    ensures IsPushed(run[i].calls, ref) <==> ref in run[i].place
    ensures forall at | IsContainer(at) ::
      multiset(ContainerRefs(run[i], at))[ref] == if IsAt(run[i].place, ref, at) then 1 else 0
    ensures IsAt(run[i].place, ref, Delivered) <==> IsResolved(run[i].calls, ref)
  {
    RunKeepsInv(cfg, run, i);
    var s := run[i];
    assert ref in s.place <==> IsPushed(s.calls, ref);
    assert IsAt(s.place, ref, Delivered) <==> IsResolved(s.calls, ref);
    forall at | IsContainer(at)
      ensures multiset(ContainerRefs(s, at))[ref] == if IsAt(s.place, ref, at) then 1 else 0
    {
      ContainerIsExact(s, at);
      NoDupCounts(ContainerRefs(s, at), ref);
    }
  }

  lemma ContainerIsExact(s: State, at: Place)
    requires PlacesOk(s) && IsContainer(at)
    ensures Exactly(ContainerRefs(s, at), s.place, at)
  {
    match at
    case Queued(lane) => assert Exactly(EntryRefs(Get(s.work, lane)), s.place, Queued(lane));
    case InFlight(w) => assert Exactly(ItemRefs(Unsent(s, w)), s.place, InFlight(w));
    case Replied(g) => assert Exactly(ResultRefs(Get(s.results, g)), s.place, Replied(g));
  }

  function Rank(at: Place): nat {
    match at
    case Queued(_) => 0
    case InFlight(_) => 1
    case Replied(_) => 2
    case Delivered => 3
    case Lost(_) => 3
  }

  ghost predicate Forward(place: Places, place': Places, ref: Ref) {
    ref in place ==> ref in place' && (place'[ref] == place[ref] || Rank(place[ref]) < Rank(place'[ref]))
  }

  /** What one step may do to a child: bring it into a queue, leave it where it is, or move it forward. */
  ghost predicate Moves(place: Places, place': Places, ref: Ref) {
    Forward(place, place', ref) && (ref !in place && ref in place' ==> place'[ref].Queued?)
  }

  lemma MoveIsForward(place: Places, moved: seq<Ref>, from: Place, to: Place, ref: Ref)
    requires AllAt(moved, place, from) && Rank(from) < Rank(to)
    ensures Moves(place, Move(place, moved, to), ref)
  {
  }

  lemma ClaimIsForward(cfg: Config, s: State, w: nat, lane: Lane, nowMs: int, ref: Ref)
    requires ValidConfig(cfg) && PlacesOk(s)
    ensures Moves(s.place, RunClaim(cfg, s, w, lane, nowMs).place, ref)
  {
    var q := Get(s.work, lane);
    var n := Removed(q, LimitsOf(cfg.settings, lane), nowMs);
    assert Exactly(EntryRefs(q), s.place, Queued(lane));
    ClaimedQueue(q, n, nowMs, s.place, lane, w);
    var expired := ItemRefs(ExpiredItems(q[..n], nowMs));
    MoveIsForward(s.place, expired, Queued(lane), Lost(ExpiredInQueue), ref);
    MoveIsForward(
      Move(s.place, expired, Lost(ExpiredInQueue)), ItemRefs(LiveItems(q[..n], nowMs)), Queued(lane), InFlight(w), ref);
  }

  lemma PublishIsForward(s: State, w: nat, ref: Ref)
    requires PlacesOk(s) && w in s.workers && s.workers[w].Publishing?
    requires s.workers[w].sent < |s.workers[w].batch| == |s.workers[w].results|
    ensures Moves(s.place, RunPublish(s, w).place, ref)
  {
    var item := s.workers[w].batch[s.workers[w].sent];
    PublishedLeavesWorker(s, w);
    MoveIsForward(s.place, [RefOf(item)], InFlight(w), Replied(item.replyTo), ref);
  }

  lemma ListenIsForward(s: State, g: string, ref: Ref)
    requires PlacesOk(s) && Get(s.results, g) != []
    ensures Moves(s.place, RunListen(s, g).place, ref)
  {
    var moved := [ResultRef(Get(s.results, g)[0])];
    FirstResultLeaves(s, g, Delivered);
    MoveIsForward(s.place, moved, Replied(g), Delivered, ref);
    MoveIsForward(s.place, moved, Replied(g), Lost(Orphaned), ref);
  }

  lemma PushIsForward(cfg: Config, s: State, p: string, ref: Ref)
    requires PlacesOk(s) && CallsOk(cfg, s.calls) && p in s.calls
    requires s.calls[p].pushed < |s.calls[p].req.inputs| == |s.calls[p].req.tokenCounts|
    ensures Moves(s.place, RunPush(cfg, s, p).place, ref)
  {
    assert CallOk(cfg, p, s.calls[p]);
    assert !IsPushed(s.calls, Ref(p, s.calls[p].pushed));
    assert Ref(p, s.calls[p].pushed) !in s.place;
  }

  lemma CrashIsForward(s: State, w: nat, ref: Ref)
    requires PlacesOk(s)
    ensures Moves(s.place, RunCrash(s, w).place, ref)
  {
    assert Exactly(ItemRefs(Unsent(s, w)), s.place, InFlight(w));
    MoveIsForward(s.place, ItemRefs(Unsent(s, w)), InFlight(w), Lost(WorkerCrashed), ref);
  }

  lemma DropIsForward(s: State, g: string, count: nat, ref: Ref)
    requires PlacesOk(s) && count <= |Get(s.results, g)|
    ensures Moves(s.place, RunDropResults(s, g, count).place, ref)
  {
    FirstResultsLeave(s, g, count, Lost(ResultDropped));
    MoveIsForward(s.place, ResultRefs(Get(s.results, g)[..count]), Replied(g), Lost(ResultDropped), ref);
  }

  lemma OtherIsForward(cfg: Config, s: State, step: Step, ref: Ref)
    requires ValidConfig(cfg) && Enabled(cfg, s, step)
    requires !step.Push? && !step.Claim? && !step.Publish? && !step.Crash? && !step.DropResults? && !step.Listen?
    ensures Moves(s.place, Apply(cfg, s, step).place, ref)
  {
  }

  lemma StepIsForward(cfg: Config, s: State, step: Step, ref: Ref)
    requires ValidConfig(cfg) && Enabled(cfg, s, step) && Inv(cfg, s)
    ensures Moves(s.place, Apply(cfg, s, step).place, ref)
  {
    match step
    case Push(p) => PushIsForward(cfg, s, p, ref);
    case Claim(w, lane, nowMs) => ClaimIsForward(cfg, s, w, lane, nowMs, ref);
    case Publish(w) => PublishIsForward(s, w, ref);
    case Crash(w) => CrashIsForward(s, w, ref);
    case DropResults(g, count) => DropIsForward(s, g, count, ref);
    case Listen(g) => ListenIsForward(s, g, ref);
    case _ => OtherIsForward(cfg, s, step, ref);
  }

  /**
   * Children only move forward, from queue to worker to result queue to their end. Hence no child is claimed twice,
   * answered twice or delivered twice, and one that was lost is never seen again.
   */
  lemma {:induction false} OnlyForward(cfg: Config, run: seq<State>, i: nat, j: nat, ref: Ref)
    requires ValidConfig(cfg) && IsRun(cfg, run) && i <= j < |run|
    ensures Forward(run[i].place, run[j].place, ref)
    decreases j
  {
    if i < j {
      OnlyForward(cfg, run, i, j - 1, ref);
      RunIsForward(cfg, run, j, ref);
      ForwardTransitive(run[i].place, run[j - 1].place, run[j].place, ref);
    }
  }

  lemma RunIsForward(cfg: Config, run: seq<State>, j: nat, ref: Ref)
    requires ValidConfig(cfg) && IsRun(cfg, run) && 0 < j < |run|
    ensures Moves(run[j - 1].place, run[j].place, ref)
  {
    RunKeepsInv(cfg, run, j - 1);
    var step := StepTo(cfg, run, j);
    StepIsForward(cfg, run[j - 1], step, ref);
  }

  lemma ForwardTransitive(a: Places, b: Places, c: Places, ref: Ref)
    requires Forward(a, b, ref) && Forward(b, c, ref)
    ensures Forward(a, c, ref)
  {
  }

  /** A child lost on the way (expired, crashed with its worker, dropped or orphaned) never contributes to an answer. */
  lemma LostMeansNoAnswer(
    cfg: Config, run: seq<State>, i: nat, j: nat, ref: Ref, data: seq<EmbeddingData>)
    requires ValidConfig(cfg) && IsRun(cfg, run) && i < |run| && j < |run|
    requires ref in run[i].place && run[i].place[ref].Lost?
    requires ref.parent in run[j].calls
    ensures run[j].calls[ref.parent].phase != Finished(Answered(data))
  {
    if run[j].calls[ref.parent].phase == Finished(Answered(data)) {
      LostIsAChild(cfg, run, i, j, ref);
      AnsweredMeansAllDelivered(cfg, run, j, ref.parent, data, ref.index);
      if i <= j {
        OnlyForward(cfg, run, i, j, ref);
      } else {
        OnlyForward(cfg, run, j, i, ref);
      }
      assert false;
    }
  }

  lemma LostIsAChild(cfg: Config, run: seq<State>, i: nat, j: nat, ref: Ref)
    requires ValidConfig(cfg) && IsRun(cfg, run) && i < |run| && j < |run|
    requires ref in run[i].place && ref.parent in run[j].calls
    ensures ref.index < |run[j].calls[ref.parent].req.inputs|
  {
    RunKeepsInv(cfg, run, i);
    assert ref in run[i].place <==> IsPushed(run[i].calls, ref);
    assert CallOk(cfg, ref.parent, run[i].calls[ref.parent]);
    RequestsPersist(cfg, run, i, j, ref.parent);
  }

  lemma RequestsPersist(cfg: Config, run: seq<State>, i: nat, j: nat, p: string)
    requires ValidConfig(cfg) && IsRun(cfg, run) && i < |run| && j < |run|
    requires p in run[i].calls && p in run[j].calls
    ensures run[i].calls[p].req == run[j].calls[p].req
  {
    if i <= j {
      RunKeepsCalls(cfg, run, i, j, Ref(p, 0));
    } else {
      RunKeepsCalls(cfg, run, j, i, Ref(p, 0));
    }
  }
}
