/**
 * The batching protocol as a state machine: any number of gateways and workers around one Redis server.
 * Clocks are adversarial: every request and every claim brings whatever time its process reads.
 */
module Protocol {
  import opened QueueModels
  import opened RedisKeys
  import opened Claiming
  import opened Workload
  import opened ResponseNormalization
  import opened BatchWorker
  import opened BatchingClient

  /** The settings every process shares, and the embedding that the model computes for a text. */
  datatype Config = Config(settings: Settings, embed: string -> Embedding)

  predicate ValidConfig(cfg: Config) {
    1 <= cfg.settings.queryBatchMaxItems && 1 <= cfg.settings.documentBatchMaxItems
  }

  /** A child of a request. */
  datatype Ref = Ref(parent: string, index: nat)

  datatype Phase = Active | Finished(outcome: Outcome)

  /** One call of _enqueue_and_wait_for_children: `futures` are those created so far, `pushed` counts the pushes. */
  datatype Call = Call(req: Request, futures: seq<FutureState>, pushed: nat, phase: Phase)

  datatype WorkerState =
    | Claimed(batch: seq<WorkItem>)
    | Publishing(batch: seq<WorkItem>, results: seq<ResultItem>, sent: nat)

  datatype Cause = ExpiredInQueue | WorkerCrashed | ResultDropped | Orphaned

  /** Where a pushed child is. */
  datatype Place =
    | Queued(lane: Lane)
    | InFlight(worker: nat)
    | Replied(gateway: string)
    | Delivered
    | Lost(cause: Cause)

  datatype PendingKey = PendingKey(gateway: string, childId: string)

  /** One run of the claim script: who ran it, the clock it was given and the prefix it trimmed. */
  datatype ClaimRecord = ClaimRecord(worker: nat, nowMs: int, removed: seq<Entry>)

  /**
   * A worker between its peek at a lane and its claim: the head it saw and the clock it read then. `claimsBefore`, the
   * number of claims the lane had seen by then, records history only.
   */
  datatype BatchWindow = BatchWindow(lane: Lane, head: Option<WorkItem>, atMs: int, claimsBefore: nat)

  /**
   * Redis holds `work` and `results`; the next five are process memory, `pending` mapping a gateway's child id to the
   * future it names. `pushes`, `claims` and `place` record history only.
   */
  datatype State = State(
    work: map<Lane, seq<Entry>>,
    results: map<string, seq<ResultItem>>,
    workers: map<nat, WorkerState>,
    windows: map<nat, BatchWindow>,
    calls: map<string, Call>,
    pending: map<PendingKey, Ref>,
    closed: set<string>,
    pushes: map<Lane, seq<Entry>>,
    claims: map<Lane, seq<ClaimRecord>>,
    place: map<Ref, Place>)

  datatype Step =
    | Submit(req: Request, model: string, inputType: Option<InputType>)
    | Register(p: string)
    | Push(p: string)
    | PushMalformed(lane: Lane, raw: string)
    | Peek(w: nat, lane: Lane, nowMs: int)
    | Claim(w: nat, lane: Lane, nowMs: int)
    | ModelAnswers(w: nat, modelOutcome: ModelOutcome)
    | Publish(w: nat)
    | Crash(w: nat)
    | DropResults(g: string, count: nat)
    | Listen(g: string)
    | Return(p: string)
    | TimeOut(p: string)
    | RaiseStopped(p: string, i: nat)
    | Interrupt(p: string, message: string)
    | Close(g: string)
    | Stop(g: string)

  function Get<K, V>(m: map<K, seq<V>>, k: K): seq<V> {
    if k in m then m[k] else []
  }

  function RefOf(item: WorkItem): Ref {
    Ref(item.parentRequestId, item.inputIndex)
  }

  function ResultRef(r: ResultItem): Ref {
    Ref(r.parentRequestId, r.inputIndex)
  }

  function ItemRefs(items: seq<WorkItem>): (r: seq<Ref>)
    ensures |r| == |items|
  {
    if items == [] then [] else [RefOf(items[0])] + ItemRefs(items[1..])
  }

  function EntryRefs(q: seq<Entry>): seq<Ref> {
    if q == [] then [] else (if q[0].Work? then [RefOf(q[0].item)] else []) + EntryRefs(q[1..])
  }

  function ResultRefs(results: seq<ResultItem>): (r: seq<Ref>)
    ensures |r| == |results|
  {
    if results == [] then [] else [ResultRef(results[0])] + ResultRefs(results[1..])
  }

  /** The claimed items whose results the worker has yet to publish. */
  function Unsent(s: State, w: nat): seq<WorkItem> {
    if w !in s.workers then []
    else
      match s.workers[w]
      case Claimed(batch) => batch
      case Publishing(batch, _, sent) => if sent <= |batch| then batch[sent..] else []
  }

  predicate IsIdle(s: State, w: nat) {
    w !in s.workers || (s.workers[w].Publishing? && s.workers[w].sent == |s.workers[w].batch|)
  }

  function Move(place: map<Ref, Place>, refs: seq<Ref>, to: Place): map<Ref, Place> {
    map r | r in place.Keys + (set x | x in refs) :: if r in refs then to else place[r]
  }

  function InputTexts(items: seq<WorkItem>): (r: seq<string>)
    ensures |r| == |items|
    ensures forall k | 0 <= k < |r| :: r[k] == items[k].inputText
  {
    seq(|items|, k requires 0 <= k < |items| => items[k].inputText)
  }

  /** The model server may fail, or reply what cannot be read, or name its inputs correctly in any order. */
  ghost predicate Faithful(inputs: seq<string>, outcome: ModelOutcome, embed: string -> Embedding) {
    outcome.Responded? && IsReadableReply(outcome.reply, |inputs|) ==>
      NamesItsInputs(outcome.reply.items, inputs, embed)
  }

  /** The steps that end a call. */
  predicate IsEnd(step: Step) {
    step.Return? || step.TimeOut? || step.RaiseStopped? || step.Interrupt?
  }

  /** The steps that run in a gateway. */
  predicate IsGatewayStep(step: Step) {
    IsEnd(step) || step.Submit? || step.Register? || step.Push? || step.Listen? || step.Close? || step.Stop?
  }

  predicate AllRegistered(c: Call) {
    |c.futures| == c.pushed == |c.req.inputs|
  }

  ghost predicate Enabled(cfg: Config, s: State, step: Step) {
    match step
    case Submit(req, model, inputType) =>
      && req.id !in s.calls && ColonFree(req.id)
      && |req.inputs| == |req.tokenCounts|
      && BatchLane(cfg.settings, true, model, req.tokenCounts, inputType) == Some(req.lane)
    case Register(p) =>
      && p in s.calls && s.calls[p].phase.Active?
      && |s.calls[p].futures| == s.calls[p].pushed < |s.calls[p].req.inputs|
    case Push(p) =>
      // The command may reach Redis after its request has given up.
      && p in s.calls
      && s.calls[p].pushed < |s.calls[p].futures|
      && s.calls[p].pushed < |s.calls[p].req.inputs| == |s.calls[p].req.tokenCounts|
    case PushMalformed(lane, raw) => true
    case Peek(w, lane, nowMs) => IsIdle(s, w) && w !in s.windows
    case Claim(w, lane, nowMs) => IsIdle(s, w) && w in s.windows && s.windows[w].lane == lane
    case ModelAnswers(w, outcome) =>
      w in s.workers && s.workers[w].Claimed? && Faithful(InputTexts(s.workers[w].batch), outcome, cfg.embed)
    case Publish(w) =>
      && w in s.workers && s.workers[w].Publishing?
      && s.workers[w].sent < |s.workers[w].batch| == |s.workers[w].results|
    case Crash(w) => w in s.workers || w in s.windows
    case DropResults(g, count) =>
      // The whole list when its time to live runs out, its head when a pop never reaches the listener.
      count <= |Get(s.results, g)|
    case Listen(g) => g !in s.closed && Get(s.results, g) != []
    case Return(p) =>
      p in s.calls && s.calls[p].phase.Active? && AllRegistered(s.calls[p]) && AllDone(s.calls[p].futures)
    case TimeOut(p) => p in s.calls && s.calls[p].phase.Active? && AllRegistered(s.calls[p])
    case RaiseStopped(p, i) =>
      && p in s.calls && s.calls[p].phase.Active? && AllRegistered(s.calls[p])
      && i < |s.calls[p].futures| && s.calls[p].futures[i].Stopped?
    case Interrupt(p, message) => p in s.calls && s.calls[p].phase.Active?
    case Close(g) => true
    case Stop(g) =>
      // The listener has been cancelled by then.
      g in s.closed
  }

  /** The `finally` block and the end of the call. */
  function Conclude(s: State, p: string, outcome: Outcome): State
    requires p in s.calls
  {
    var c := s.calls[p];
    var own := set i: nat | i < |c.req.inputs| :: PendingKey(c.req.gateway, ChildId(c.req, i));
    s.(calls := s.calls[p := c.(phase := Finished(outcome))], pending := s.pending - own)
  }

  function StopFutures(s: State, g: string, c: Call): Call {
    if c.req.gateway != g then c
    else
      c.(futures := seq(|c.futures|, i requires 0 <= i < |c.futures| =>
        var key := PendingKey(g, ChildId(c.req, i));
        if c.futures[i].Waiting? && key in s.pending && s.pending[key] == Ref(c.req.id, i) then Stopped
        else c.futures[i]))
  }

  /** The child's future exists and waits. */
  predicate IsAwaited(calls: map<string, Call>, ref: Ref) {
    && ref.parent in calls
    && ref.index < |calls[ref.parent].futures|
    && calls[ref.parent].futures[ref.index].Waiting?
  }

  function Resolve(calls: map<string, Call>, ref: Ref, r: ResultItem): map<string, Call>
    requires ref.parent in calls && ref.index < |calls[ref.parent].futures|
  {
    var c := calls[ref.parent];
    calls[ref.parent := c.(futures := c.futures[ref.index := Done(r)])]
  }

  /** A future waits for the first result of the gateway's queue. */
  predicate FindsFuture(s: State, g: string)
    requires Get(s.results, g) != []
  {
    var key := PendingKey(g, s.results[g][0].requestId);
    key in s.pending && IsAwaited(s.calls, s.pending[key])
  }

  function RunListen(s: State, g: string): State
    requires Get(s.results, g) != []
  {
    var r := s.results[g][0];
    s.(results := s.results[g := s.results[g][1..]],
       calls :=
         if FindsFuture(s, g) then Resolve(s.calls, s.pending[PendingKey(g, r.requestId)], r) else s.calls,
       place := Move(s.place, [ResultRef(r)], if FindsFuture(s, g) then Delivered else Lost(Orphaned)))
  }

  function RunPeek(s: State, w: nat, lane: Lane, nowMs: int): State {
    var window := BatchWindow(lane, OldestItem(Get(s.work, lane)), nowMs, |Get(s.claims, lane)|);
    s.(windows := s.windows[w := window])
  }

  function RunClaim(cfg: Config, s: State, w: nat, lane: Lane, nowMs: int): State
    requires ValidConfig(cfg)
  {
    var q := Get(s.work, lane);
    var lim := LimitsOf(cfg.settings, lane);
    var n := Removed(q, lim, nowMs);
    var batch := Batch(q, lim, nowMs);
    s.(work := s.work[lane := q[n..]],
       claims := s.claims[lane := Get(s.claims, lane) + [ClaimRecord(w, nowMs, q[..n])]],
       windows := s.windows - {w},
       workers := if batch == [] then s.workers else s.workers[w := Claimed(batch)],
       place := Move(Move(s.place, ItemRefs(ExpiredItems(q[..n], nowMs)), Lost(ExpiredInQueue)),
                     ItemRefs(batch), InFlight(w)))
  }

  function RunSubmit(s: State, req: Request): State {
    var phase := if req.gateway in s.closed then Finished(Raised(ShuttingDown)) else Active;
    s.(calls := s.calls[req.id := Call(req, [], 0, phase)])
  }

  function RunRegister(s: State, p: string): State
    requires p in s.calls
  {
    var c := s.calls[p];
    var i := |c.futures|;
    s.(calls := s.calls[p := c.(futures := c.futures + [Waiting])],
       pending := s.pending[PendingKey(c.req.gateway, ChildId(c.req, i)) := Ref(p, i)])
  }

  function RunPush(cfg: Config, s: State, p: string): State
    requires p in s.calls && s.calls[p].pushed < |s.calls[p].req.inputs| == |s.calls[p].req.tokenCounts|
  {
    var c := s.calls[p];
    var entry := Work(ChildItem(c.req, c.pushed, cfg.settings.requestTimeoutMs));
    s.(calls := s.calls[p := c.(pushed := c.pushed + 1)],
       work := s.work[c.req.lane := Get(s.work, c.req.lane) + [entry]],
       pushes := s.pushes[c.req.lane := Get(s.pushes, c.req.lane) + [entry]],
       place := Move(s.place, [Ref(c.req.id, c.pushed)], Queued(c.req.lane)))
  }

  function RunPushMalformed(s: State, lane: Lane, raw: string): State {
    s.(work := s.work[lane := Get(s.work, lane) + [Malformed(raw)]],
       pushes := s.pushes[lane := Get(s.pushes, lane) + [Malformed(raw)]])
  }

  function RunModelAnswers(s: State, w: nat, outcome: ModelOutcome): State
    requires w in s.workers
  {
    var batch := s.workers[w].batch;
    s.(workers := s.workers[w := Publishing(batch, BatchResults(batch, outcome), 0)])
  }

  function RunPublish(s: State, w: nat): State
    requires w in s.workers && s.workers[w].Publishing?
    requires s.workers[w].sent < |s.workers[w].batch| == |s.workers[w].results|
  {
    var ws := s.workers[w];
    var item := ws.batch[ws.sent];
    s.(workers := s.workers[w := ws.(sent := ws.sent + 1)],
       results := s.results[item.replyTo := Get(s.results, item.replyTo) + [ws.results[ws.sent]]],
       place := Move(s.place, [RefOf(item)], Replied(item.replyTo)))
  }

  function RunCrash(s: State, w: nat): State {
    s.(workers := s.workers - {w},
       windows := s.windows - {w},
       place := Move(s.place, ItemRefs(Unsent(s, w)), Lost(WorkerCrashed)))
  }

  function RunDropResults(s: State, g: string, count: nat): State
    requires count <= |Get(s.results, g)|
  {
    var q := Get(s.results, g);
    s.(results := s.results[g := q[count..]], place := Move(s.place, ResultRefs(q[..count]), Lost(ResultDropped)))
  }

  function RunClose(s: State, g: string): State {
    s.(closed := s.closed + {g})
  }

  function RunStop(s: State, g: string): State {
    s.(calls := map p | p in s.calls :: StopFutures(s, g, s.calls[p]),
       pending := map key | key in s.pending && key.gateway != g :: s.pending[key])
  }

  function Apply(cfg: Config, s: State, step: Step): State
    requires ValidConfig(cfg) && Enabled(cfg, s, step)
  {
    match step
    case Submit(req, _, _) => RunSubmit(s, req)
    case Register(p) => RunRegister(s, p)
    case Push(p) => RunPush(cfg, s, p)
    case PushMalformed(lane, raw) => RunPushMalformed(s, lane, raw)
    case Peek(w, lane, nowMs) => RunPeek(s, w, lane, nowMs)
    case Claim(w, lane, nowMs) => RunClaim(cfg, s, w, lane, nowMs)
    case ModelAnswers(w, outcome) => RunModelAnswers(s, w, outcome)
    case Publish(w) => RunPublish(s, w)
    case Crash(w) => RunCrash(s, w)
    case DropResults(g, count) => RunDropResults(s, g, count)
    case Listen(g) => RunListen(s, g)
    case Return(p) => Conclude(s, p, Concluded(s.calls[p].req, Gathered(s.calls[p].futures)))
    case TimeOut(p) => Conclude(s, p, Raised(TimedOut(s.calls[p].req.lane)))
    case RaiseStopped(p, i) => Conclude(s, p, Raised(ClientStopped(ChildId(s.calls[p].req, i))))
    case Interrupt(p, message) => Conclude(s, p, Raised(Interrupted(message)))
    case Close(g) => RunClose(s, g)
    case Stop(g) => RunStop(s, g)
  }

  ghost predicate Next(cfg: Config, s: State, s': State)
    requires ValidConfig(cfg)
  {
    exists step :: Enabled(cfg, s, step) && s' == Apply(cfg, s, step)
  }

  const START: State := State(map[], map[], map[], map[], map[], map[], {}, map[], map[], map[])

  ghost predicate StepsAt(cfg: Config, run: seq<State>, i: nat)
    requires ValidConfig(cfg) && i + 1 < |run|
  {
    Next(cfg, run[i], run[i + 1])
  }

  /** A run: a finite behaviour of the whole system from the empty state. */
  ghost predicate IsRun(cfg: Config, run: seq<State>)
    requires ValidConfig(cfg)
  {
    && run != [] && run[0] == START
    && forall i: nat | i + 1 < |run| :: StepsAt(cfg, run, i)
  }
}
