/** The objects behave as the state machine says: what their methods do are the machine's steps. */
module Refinement {
  import opened QueueModels
  import opened RedisQueue
  import opened BatchingClient
  import opened Claiming
  import opened Workload
  import opened Protocol
  import opened ProtocolData
  import opened ProtocolPending

  /** A future that a call of gateway g has created. */
  predicate IsOf(s: State, g: string, ref: Ref) {
    ref.parent in s.calls && s.calls[ref.parent].req.gateway == g && ref.index < |s.calls[ref.parent].futures|
  }

  /** The values that gateway g's futures have in the state machine. */
  ghost predicate StatesAgree(g: string, s: State, states: map<Ref, FutureState>) {
    && (forall ref :: ref in states <==> IsOf(s, g, ref))
    && (forall ref | ref in states :: states[ref] == s.calls[ref.parent].futures[ref.index])
  }

  ghost function ValuesOf(futures: map<Ref, Future>): map<Ref, FutureState>
    reads futures.Values
  {
    map ref | ref in futures :: futures[ref].state
  }

  /** No object stands for two futures. */
  ghost predicate Injective(futures: map<Ref, Future>) {
    forall a, b | a in futures && b in futures && futures[a] == futures[b] :: a == b
  }

  /** The client's dictionary names the objects that stand for the futures pending in the state machine. */
  ghost predicate PendingAgrees(g: string, pending: map<string, Future>, s: State, futures: map<Ref, Future>) {
    && (forall id :: id in pending <==> PendingKey(g, id) in s.pending)
    && (forall id | id in pending ::
      && s.pending[PendingKey(g, id)] in futures
      && pending[id] == futures[s.pending[PendingKey(g, id)]])
  }

  ghost predicate QueuesAgree(cfg: Config, queue: RedisBatchQueue, s: State)
    reads queue`work, queue`results
  {
    && (forall lane :: queue.WorkQueue(cfg.settings.batchWorkerModel, lane) == Get(s.work, lane))
    && (forall g :: queue.ResultQueue(g) == Get(s.results, g))
  }

  /** The client is what the state says of its gateway; `futures` says which object is which future. */
  ghost predicate ClientAgrees(client: GatewayBatchingClient, s: State, futures: map<Ref, Future>)
    reads client`pending, client`closed, futures.Values
  {
    && client.Valid() && Injective(futures)
    && (client.closed <==> client.gatewayId in s.closed)
    && StatesAgree(client.gatewayId, s, ValuesOf(futures))
    && PendingAgrees(client.gatewayId, client.pending, s, futures)
  }

  /** The client and the lists it talks to are what the state says. */
  ghost predicate Represents(cfg: Config, client: GatewayBatchingClient, s: State, futures: map<Ref, Future>)
    reads client`pending, client`closed, client.queue`work, client.queue`results, futures.Values
  {
    ClientAgrees(client, s, futures) && QueuesAgree(cfg, client.queue, s)
  }

  // The beginning, and what others do.

  /** A new client on an empty server represents the state in which every run begins. */
  method StartIsRepresented(gatewayId: string, keyPrefix: string, ghost cfg: Config)
    returns (client: GatewayBatchingClient)
    ensures fresh(client) && client.gatewayId == gatewayId && Represents(cfg, client, START, map[])
  {
    var queue := new RedisBatchQueue(keyPrefix);
    client := new GatewayBatchingClient(gatewayId, queue);
  }

  /** A step that leaves gateway g's client alone, whatever it does to the shared lists. */
  predicate IsForeign(s: State, step: Step, g: string) {
    match step
    case Register(p) => p in s.calls && s.calls[p].req.gateway != g
    case Return(p) => p in s.calls && s.calls[p].req.gateway != g
    case TimeOut(p) => p in s.calls && s.calls[p].req.gateway != g
    case RaiseStopped(p, _) => p in s.calls && s.calls[p].req.gateway != g
    case Interrupt(p, _) => p in s.calls && s.calls[p].req.gateway != g
    case Listen(h) => h != g
    case Close(h) => h != g
    case Stop(h) => h != g
    case _ => true
  }

  /** What the two states say of gateway g is the same. */
  ghost predicate SameFor(g: string, s: State, s': State) {
    && (g in s.closed <==> g in s'.closed)
    && (forall ref :: IsOf(s, g, ref) <==> IsOf(s', g, ref))
    && (forall ref | IsOf(s, g, ref) ::
      s'.calls[ref.parent].futures[ref.index] == s.calls[ref.parent].futures[ref.index])
    && (forall id :: PendingKey(g, id) in s.pending <==> PendingKey(g, id) in s'.pending)
    && (forall id | PendingKey(g, id) in s.pending :: s'.pending[PendingKey(g, id)] == s.pending[PendingKey(g, id)])
  }

  lemma ResolvedElsewhere(calls: Calls, ref: Ref, r: ResultItem, g: string)
    requires ref.parent in calls && ref.index < |calls[ref.parent].futures| && calls[ref.parent].req.gateway != g
    ensures
      var calls' := Resolve(calls, ref, r);
      && calls'.Keys == calls.Keys && (forall p | p in calls :: calls'[p].req == calls[p].req)
      && forall p | p in calls && calls[p].req.gateway == g :: calls'[p] == calls[p]
  {
  }

  lemma ListenIsForeign(cfg: Config, s: State, h: string, g: string)
    requires CallsOk(cfg, s.calls) && PendingOk(s.calls, s.pending) && RepliesOk(cfg, s.calls, s.results)
    requires Get(s.results, h) != [] && h != g
    ensures SameFor(g, s, RunListen(s, h))
  {
    var r := Get(s.results, h)[0];
    assert ReplyOk(cfg, s.calls, h, r);
    if FindsFuture(s, h) {
      ListenerFindsOwner(cfg, s, h, r);
      ResolvedElsewhere(s.calls, s.pending[PendingKey(h, r.requestId)], r, g);
    }
    SameCallsSameFor(s, RunListen(s, h), g);
  }

  lemma SameCallsSameFor(s: State, s': State, g: string)
    requires s'.closed == s.closed && s'.pending == s.pending && s'.calls.Keys == s.calls.Keys
    requires forall p | p in s.calls :: s'.calls[p].req == s.calls[p].req
    requires forall p | p in s.calls && s.calls[p].req.gateway == g :: s'.calls[p] == s.calls[p]
    ensures SameFor(g, s, s')
  {
  }

  lemma StopIsForeign(s: State, h: string, g: string)
    requires h != g
    ensures SameFor(g, s, RunStop(s, h))
  {
    forall p | p in s.calls && s.calls[p].req.gateway == g ensures RunStop(s, h).calls[p] == s.calls[p] {
      assert RunStop(s, h).calls[p] == StopFutures(s, h, s.calls[p]);
    }
  }

  lemma ConcludeIsForeign(s: State, p: string, outcome: Outcome, g: string)
    requires p in s.calls && s.calls[p].req.gateway != g
    ensures SameFor(g, s, Conclude(s, p, outcome))
  {
  }

  lemma RegisterIsForeign(s: State, p: string, g: string)
    requires p in s.calls && s.calls[p].req.gateway != g
    ensures SameFor(g, s, RunRegister(s, p))
  {
  }

  lemma SubmitIsForeign(s: State, req: Request, g: string)
    requires req.id !in s.calls
    ensures SameFor(g, s, RunSubmit(s, req))
  {
  }

  lemma PushIsForeign(cfg: Config, s: State, p: string, g: string)
    requires p in s.calls && s.calls[p].pushed < |s.calls[p].req.inputs| == |s.calls[p].req.tokenCounts|
    ensures SameFor(g, s, RunPush(cfg, s, p))
  {
  }

  lemma OutsideIsForeign(cfg: Config, s: State, step: Step, g: string)
    requires ValidConfig(cfg) && Enabled(cfg, s, step) && !IsGatewayStep(step)
    ensures SameFor(g, s, Apply(cfg, s, step))
  {
  }

  lemma CloseIsForeign(s: State, h: string, g: string)
    requires h != g
    ensures SameFor(g, s, RunClose(s, h))
  {
  }

  lemma EndIsForeign(cfg: Config, s: State, step: Step, g: string)
    requires ValidConfig(cfg) && Enabled(cfg, s, step) && IsEnd(step) && IsForeign(s, step, g)
    ensures SameFor(g, s, Apply(cfg, s, step))
  {
    match step
    case Return(p) => ConcludeIsForeign(s, p, Concluded(s.calls[p].req, Gathered(s.calls[p].futures)), g);
    case TimeOut(p) => ConcludeIsForeign(s, p, Raised(TimedOut(s.calls[p].req.lane)), g);
    case RaiseStopped(p, i) => ConcludeIsForeign(s, p, Raised(ClientStopped(ChildId(s.calls[p].req, i))), g);
    case Interrupt(p, message) => ConcludeIsForeign(s, p, Raised(Interrupted(message)), g);
  }

  lemma GatewayIsForeign(cfg: Config, s: State, step: Step, g: string)
    requires ValidConfig(cfg) && Enabled(cfg, s, step) && DataOk(cfg, s) && IsForeign(s, step, g)
    requires IsGatewayStep(step) && !IsEnd(step)
    ensures SameFor(g, s, Apply(cfg, s, step))
  {
    match step
    case Submit(req, _, _) => SubmitIsForeign(s, req, g);
    case Register(p) => RegisterIsForeign(s, p, g);
    case Push(p) => PushIsForeign(cfg, s, p, g);
    case Listen(h) => ListenIsForeign(cfg, s, h, g);
    case Close(h) => CloseIsForeign(s, h, g);
    case Stop(h) => StopIsForeign(s, h, g);
  }

  lemma ForeignIsSame(cfg: Config, s: State, step: Step, g: string)
    requires ValidConfig(cfg) && Enabled(cfg, s, step) && DataOk(cfg, s) && IsForeign(s, step, g)
    ensures SameFor(g, s, Apply(cfg, s, step))
  {
    if IsEnd(step) {
      EndIsForeign(cfg, s, step, g);
    } else if IsGatewayStep(step) {
      GatewayIsForeign(cfg, s, step, g);
    } else {
      OutsideIsForeign(cfg, s, step, g);
    }
  }

  /**
   * Steps of other gateways, of workers and of the server leave the client in agreement with the state, so that its own
   * methods, step by step, compose with whatever happens in between.
   */
  lemma StrangersLeaveClient(
    cfg: Config, client: GatewayBatchingClient, s: State, step: Step, futures: map<Ref, Future>)
    requires ValidConfig(cfg) && Enabled(cfg, s, step) && DataOk(cfg, s) && IsForeign(s, step, client.gatewayId)
    requires ClientAgrees(client, s, futures)
    ensures ClientAgrees(client, Apply(cfg, s, step), futures)
  {
    ForeignIsSame(cfg, s, step, client.gatewayId);
    SameForAgrees(client, s, Apply(cfg, s, step), futures);
  }

  lemma SameForAgrees(client: GatewayBatchingClient, s: State, s': State, futures: map<Ref, Future>)
    requires SameFor(client.gatewayId, s, s') && ClientAgrees(client, s, futures)
    ensures ClientAgrees(client, s', futures)
  {
    forall ref ensures ref in ValuesOf(futures) <==> IsOf(s', client.gatewayId, ref) {
      assert ref in ValuesOf(futures) <==> IsOf(s, client.gatewayId, ref);
    }
  }

  // Listening.

  /** What popping the head of `q` does to the futures' values. */
  function ListenedValues(s: State, g: string, q: seq<ResultItem>, before: map<Ref, FutureState>): map<Ref, FutureState>
  {
    map ref | ref in before ::
      if q != [] && PendingKey(g, q[0].requestId) in s.pending && s.pending[PendingKey(g, q[0].requestId)] == ref
         && before[ref].Waiting?
      then Done(q[0]) else before[ref]
  }

  lemma ListenedStates(s: State, g: string, before: map<Ref, FutureState>)
    requires Get(s.results, g) != [] && StatesAgree(g, s, before) && PendingOk(s.calls, s.pending)
    ensures StatesAgree(g, RunListen(s, g), ListenedValues(s, g, Get(s.results, g), before))
  {
    var s' := RunListen(s, g);
    var after := ListenedValues(s, g, Get(s.results, g), before);
    var key := PendingKey(g, Get(s.results, g)[0].requestId);
    if key in s.pending {
      assert PendingEntryOk(s.calls, key, s.pending[key]);
      assert s.pending[key] in before;
    }
    forall ref ensures ref in after <==> IsOf(s', g, ref) {
      assert ref in before <==> IsOf(s, g, ref);
    }
  }

  /** What one turn of the listener does to all the futures, pending or not. */
  method ListenOnFutures(client: GatewayBatchingClient, ghost s: State, ghost futures: map<Ref, Future>)
    requires client.Valid() && Injective(futures) && PendingAgrees(client.gatewayId, client.pending, s, futures)
    modifies client.queue`results, client.pending.Values
    ensures
      var q := old(client.queue.ResultQueue(client.gatewayId));
      && ValuesOf(futures) == ListenedValues(s, client.gatewayId, q, old(ValuesOf(futures)))
      && client.queue.ResultQueue(client.gatewayId) == if q == [] then [] else q[1..]
    ensures forall g | g != client.gatewayId :: client.queue.ResultQueue(g) == old(client.queue.ResultQueue(g))
  {
    ghost var g, q := client.gatewayId, client.queue.ResultQueue(client.gatewayId);
    ghost var before := ValuesOf(futures);
    var delivered := client.ListenOnce();
    forall ref | ref in futures ensures futures[ref].state == ListenedValues(s, g, q, before)[ref] {
      if futures[ref] in client.pending.Values {
        var id :| id in client.pending && client.pending[id] == futures[ref];
        assert s.pending[PendingKey(g, id)] == ref;
      }
    }
  }

  lemma ListenFrame(s: State, g: string, h: string)
    requires Get(s.results, g) != []
    ensures
      var s' := RunListen(s, g);
      && s'.work == s.work && s'.pending == s.pending && s'.closed == s.closed
      && Get(s'.results, h) == if h == g then Get(s.results, g)[1..] else Get(s.results, h)
  {
  }

  lemma ListenKeepsPendingAgreed(g: string, pending: map<string, Future>, s: State, futures: map<Ref, Future>)
    requires PendingAgrees(g, pending, s, futures) && Get(s.results, g) != []
    ensures PendingAgrees(g, pending, RunListen(s, g), futures)
  {
    assert RunListen(s, g).pending == s.pending;
  }

  /** One turn of the listener is the step Listen. */
  method ListenIsAStep(
    client: GatewayBatchingClient, ghost cfg: Config, ghost s: State, ghost futures: map<Ref, Future>)
    requires PendingOk(s.calls, s.pending) && Represents(cfg, client, s, futures)
    requires Get(s.results, client.gatewayId) != []
    modifies client.queue`results, client.pending.Values
    ensures Represents(cfg, client, RunListen(s, client.gatewayId), futures)
  {
    ghost var g := client.gatewayId;
    ListenedStates(s, g, ValuesOf(futures));
    ListenKeepsPendingAgreed(g, client.pending, s, futures);
    forall h ensures
      var s' := RunListen(s, g);
      && s'.work == s.work && s'.closed == s.closed
      && Get(s'.results, h) == if h == g then Get(s.results, g)[1..] else Get(s.results, h)
    {
      ListenFrame(s, g, h);
    }
    assert client.queue.ResultQueue(g) == Get(s.results, g);
    ListenOnFutures(client, s, futures);
  }

  /** With nothing to pop it is no step at all. */
  method IdleListenIsNoStep(
    client: GatewayBatchingClient, ghost cfg: Config, ghost s: State, ghost futures: map<Ref, Future>)
    requires Represents(cfg, client, s, futures) && Get(s.results, client.gatewayId) == []
    modifies client.queue`results, client.pending.Values
    ensures Represents(cfg, client, s, futures)
  {
    ghost var before := ValuesOf(futures);
    assert client.queue.ResultQueue(client.gatewayId) == Get(s.results, client.gatewayId);
    ListenOnFutures(client, s, futures);
    assert ValuesOf(futures) == before;
  }

  // Stopping.

  /** The child is in the dictionary of its gateway. */
  predicate IsPending(s: State, g: string, ref: Ref) {
    && ref.parent in s.calls
    && var key := PendingKey(g, ChildId(s.calls[ref.parent].req, ref.index));
    key in s.pending && s.pending[key] == ref
  }

  function StoppedValues(s: State, g: string, before: map<Ref, FutureState>): map<Ref, FutureState> {
    map ref | ref in before :: if before[ref].Waiting? && IsPending(s, g, ref) then Stopped else before[ref]
  }

  lemma StoppedStates(cfg: Config, s: State, g: string, before: map<Ref, FutureState>)
    requires StatesAgree(g, s, before) && CallsOk(cfg, s.calls)
    ensures StatesAgree(g, RunStop(s, g), StoppedValues(s, g, before))
  {
    var s' := RunStop(s, g);
    var after := StoppedValues(s, g, before);
    forall ref ensures ref in after <==> IsOf(s', g, ref) {
      assert ref in before <==> IsOf(s, g, ref);
    }
    forall ref | ref in after ensures after[ref] == s'.calls[ref.parent].futures[ref.index] {
      assert IsOf(s, g, ref);
      var c := s.calls[ref.parent];
      assert CallOk(cfg, ref.parent, c) && s'.calls[ref.parent] == StopFutures(s, g, c);
    }
  }

  /** The objects in the dictionary are those of the pending children. */
  lemma NamedIfPending(g: string, pending: map<string, Future>, s: State, futures: map<Ref, Future>, ref: Ref)
    requires PendingAgrees(g, pending, s, futures) && Injective(futures) && PendingOk(s.calls, s.pending)
    requires ref in futures
    ensures futures[ref] in pending.Values <==> IsPending(s, g, ref)
  {
    if futures[ref] in pending.Values {
      var id :| id in pending && pending[id] == futures[ref];
      assert PendingEntryOk(s.calls, PendingKey(g, id), s.pending[PendingKey(g, id)]);
    }
    if IsPending(s, g, ref) {
      assert pending[ChildId(s.calls[ref.parent].req, ref.index)] == futures[ref];
    }
  }

  method StopFuturesOf(client: GatewayBatchingClient, ghost s: State, ghost futures: map<Ref, Future>)
    requires client.Valid() && Injective(futures) && PendingAgrees(client.gatewayId, client.pending, s, futures)
    requires PendingOk(s.calls, s.pending)
    modifies client`closed, client`pending, client.pending.Values
    ensures client.closed && client.pending == map[]
    ensures ValuesOf(futures) == StoppedValues(s, client.gatewayId, old(ValuesOf(futures)))
  {
    ghost var g := client.gatewayId;
    ghost var pending, before := client.pending, ValuesOf(futures);
    client.Stop();
    forall ref | ref in futures ensures futures[ref].state == StoppedValues(s, g, before)[ref] {
      NamedIfPending(g, pending, s, futures, ref);
      if futures[ref] in pending.Values {
        var id :| id in pending && pending[id] == futures[ref];
      }
    }
  }

  lemma StopFrame(s: State, g: string)
    ensures
      var s' := RunStop(s, g);
      && s'.work == s.work && s'.results == s.results && s'.closed == s.closed
      && forall id :: PendingKey(g, id) !in s'.pending
  {
  }

  lemma ClosedStates(s: State, g: string, h: string, states: map<Ref, FutureState>)
    requires StatesAgree(g, s, states)
    ensures StatesAgree(g, RunClose(s, h), states)
  {
    forall ref ensures ref in states <==> IsOf(RunClose(s, h), g, ref) {
      assert ref in states <==> IsOf(s, g, ref);
    }
  }

  /** Stopping the client is the step Close and then the step Stop. */
  method StopIsTwoSteps(
    client: GatewayBatchingClient, ghost cfg: Config, ghost s: State, ghost futures: map<Ref, Future>)
    requires CallsOk(cfg, s.calls) && PendingOk(s.calls, s.pending) && Represents(cfg, client, s, futures)
    modifies client`closed, client`pending, client.pending.Values
    ensures Represents(cfg, client, RunStop(RunClose(s, client.gatewayId), client.gatewayId), futures)
  {
    ghost var closed := RunClose(s, client.gatewayId);
    ClosedStates(s, client.gatewayId, client.gatewayId, ValuesOf(futures));
    StoppedStates(cfg, closed, client.gatewayId, ValuesOf(futures));
    StopFrame(closed, client.gatewayId);
    StopFuturesOf(client, closed, futures);
  }

  // Enqueueing a child.

  /** The two steps of one turn of the enqueueing loop. */
  function RegisteredAndPushed(cfg: Config, s: State, p: string): State
    requires p in s.calls && s.calls[p].pushed < |s.calls[p].req.inputs| == |s.calls[p].req.tokenCounts|
  {
    RunPush(cfg, RunRegister(s, p), p)
  }

  lemma RegisterFrame(cfg: Config, s: State, p: string)
    requires p in s.calls && s.calls[p].pushed < |s.calls[p].req.inputs| == |s.calls[p].req.tokenCounts|
    ensures
      var c := s.calls[p];
      var i := |c.futures|;
      var s' := RegisteredAndPushed(cfg, s, p);
      && s'.closed == s.closed && s'.results == s.results
      && s'.calls == s.calls[p := c.(futures := c.futures + [Waiting], pushed := c.pushed + 1)]
      && s'.pending == s.pending[PendingKey(c.req.gateway, ChildId(c.req, i)) := Ref(p, i)]
      && s'.work == s.work[c.req.lane :=
           Get(s.work, c.req.lane) + [Work(ChildItem(c.req, c.pushed, cfg.settings.requestTimeoutMs))]]
  {
  }

  lemma RegisteredStates(s: State, s': State, p: string, before: map<Ref, FutureState>)
    requires p in s.calls && StatesAgree(s.calls[p].req.gateway, s, before)
    requires
      var c := s.calls[p];
      s'.calls == s.calls[p := c.(futures := c.futures + [Waiting], pushed := c.pushed + 1)]
    ensures StatesAgree(s.calls[p].req.gateway, s', before[Ref(p, |s.calls[p].futures|) := Waiting])
  {
    var g, added := s.calls[p].req.gateway, Ref(p, |s.calls[p].futures|);
    forall ref ensures ref in before[added := Waiting] <==> IsOf(s', g, ref) {
      assert ref in before <==> IsOf(s, g, ref);
    }
  }

  lemma RegisterKeepsPendingAgreed(
    g: string, pending: map<string, Future>, s: State, s': State, futures: map<Ref, Future>,
    id: string, ref: Ref, future: Future)
    requires PendingAgrees(g, pending, s, futures) && PendingOk(s.calls, s.pending) && ref !in futures
    requires s'.pending == s.pending[PendingKey(g, id) := ref]
    ensures PendingAgrees(g, pending[id := future], s', futures[ref := future])
  {
  }

  /** A child that has no future yet is not pending either. */
  lemma NextIsNew(cfg: Config, client: GatewayBatchingClient, s: State, futures: map<Ref, Future>, p: string)
    requires CallsOk(cfg, s.calls) && PendingOk(s.calls, s.pending) && Represents(cfg, client, s, futures)
    requires p in s.calls && s.calls[p].req.gateway == client.gatewayId
    requires |s.calls[p].futures| < |s.calls[p].req.inputs|
    ensures ChildId(s.calls[p].req, |s.calls[p].futures|) !in client.pending
    ensures Ref(p, |s.calls[p].futures|) !in futures
  {
    var n := |s.calls[p].futures|;
    var key := KeyOf(s.calls[p], n);
    if key in s.pending {
      var ref := s.pending[key];
      assert PendingEntryOk(s.calls, key, ref) && CallOk(cfg, ref.parent, s.calls[ref.parent]);
      KeysDiffer(cfg, s.calls, p, n, ref.parent, ref.index);
    }
    assert Ref(p, n) in ValuesOf(futures) <==> IsOf(s, client.gatewayId, Ref(p, n));
  }

  /** The state after the two steps, in the terms in which the client is compared with it. */
  lemma EnqueuedState(
    cfg: Config, s: State, p: string, states: map<Ref, FutureState>,
    pending: map<string, Future>, futures: map<Ref, Future>, future: Future)
    requires p in s.calls && PendingOk(s.calls, s.pending)
    requires s.calls[p].pushed < |s.calls[p].req.inputs| == |s.calls[p].req.tokenCounts|
    requires StatesAgree(s.calls[p].req.gateway, s, states)
    requires PendingAgrees(s.calls[p].req.gateway, pending, s, futures)
    requires Ref(p, |s.calls[p].futures|) !in futures
    ensures
      var c, s' := s.calls[p], RegisteredAndPushed(cfg, s, p);
      var g, i, ref := c.req.gateway, |c.futures|, Ref(p, |c.futures|);
      && s'.closed == s.closed
      && StatesAgree(g, s', states[ref := Waiting])
      && PendingAgrees(g, pending[ChildId(c.req, i) := future], s', futures[ref := future])
  {
    var c, s' := s.calls[p], RegisteredAndPushed(cfg, s, p);
    RegisterFrame(cfg, s, p);
    RegisteredStates(s, s', p, states);
    RegisterKeepsPendingAgreed(
      c.req.gateway, pending, s, s', futures, ChildId(c.req, |c.futures|), Ref(p, |c.futures|), future);
  }

  /** What one turn of the enqueueing loop does to the futures and to the lanes. */
  method EnqueueOnFutures(
    client: GatewayBatchingClient, req: Request, index: nat, model: string, timeoutMs: int,
    ghost ref: Ref, ghost futures: map<Ref, Future>)
    returns (future: Future)
    requires client.Valid() && Injective(futures) && ref !in futures
    requires index < |req.inputs| == |req.tokenCounts| && ChildId(req, index) !in client.pending
    modifies client`pending, client.queue`work
    ensures client.Valid() && Injective(futures[ref := future])
    ensures client.pending == old(client.pending)[ChildId(req, index) := future]
    ensures ValuesOf(futures[ref := future]) == old(ValuesOf(futures))[ref := Waiting]
    ensures forall lane ::
      client.queue.WorkQueue(model, lane)
      == old(client.queue.WorkQueue(model, lane))
         + if lane == req.lane then [Work(ChildItem(req, index, timeoutMs))] else []
  {
    ghost var before := ValuesOf(futures);
    client.queue.OtherLanesHaveOtherKeys(model, req.lane);
    future := client.EnqueueChild(req, index, model, timeoutMs);
    assert forall other | other in futures :: futures[other] != future && futures[other].state == before[other];
  }

  /** The same, with the lists compared to the state after the two steps. */
  method EnqueueOnLists(
    client: GatewayBatchingClient, req: Request, index: nat, model: string, timeoutMs: int,
    ghost ref: Ref, ghost futures: map<Ref, Future>, ghost cfg: Config, ghost s: State)
    returns (future: Future)
    requires client.Valid() && Injective(futures) && ref !in futures
    requires index < |req.inputs| == |req.tokenCounts| && ChildId(req, index) !in client.pending
    requires QueuesAgree(cfg, client.queue, s) && req.id in s.calls && s.calls[req.id].req == req
    requires s.calls[req.id].pushed == index
    requires model == cfg.settings.batchWorkerModel && timeoutMs == cfg.settings.requestTimeoutMs
    modifies client`pending, client.queue`work
    ensures client.Valid() && Injective(futures[ref := future])
    ensures client.pending == old(client.pending)[ChildId(req, index) := future]
    ensures ValuesOf(futures[ref := future]) == old(ValuesOf(futures))[ref := Waiting]
    ensures QueuesAgree(cfg, client.queue, RegisteredAndPushed(cfg, s, req.id))
  {
    RegisterFrame(cfg, s, req.id);
    future := EnqueueOnFutures(client, req, index, model, timeoutMs, ref, futures);
  }

  /** One turn of the enqueueing loop is the steps Register and Push. */
  method EnqueueIsTwoSteps(
    client: GatewayBatchingClient, req: Request, index: nat, model: string, timeoutMs: int,
    ghost cfg: Config, ghost s: State, ghost futures: map<Ref, Future>)
    returns (future: Future)
    requires CallsOk(cfg, s.calls) && PendingOk(s.calls, s.pending) && Represents(cfg, client, s, futures)
    requires model == cfg.settings.batchWorkerModel && timeoutMs == cfg.settings.requestTimeoutMs
    requires req.id in s.calls && s.calls[req.id].req == req && req.gateway == client.gatewayId
    requires index == |s.calls[req.id].futures| == s.calls[req.id].pushed < |req.inputs| == |req.tokenCounts|
    modifies client`pending, client.queue`work
    ensures Represents(cfg, client, RegisteredAndPushed(cfg, s, req.id), futures[Ref(req.id, index) := future])
  {
    NextIsNew(cfg, client, s, futures, req.id);
    ghost var states, pending := ValuesOf(futures), client.pending;
    future := EnqueueOnLists(client, req, index, model, timeoutMs, Ref(req.id, index), futures, cfg, s);
    EnqueuedState(cfg, s, req.id, states, pending, futures, future);
  }

  // Ending a call.

  lemma ConcludedStates(s: State, p: string, outcome: Outcome, g: string, states: map<Ref, FutureState>)
    requires p in s.calls && StatesAgree(g, s, states)
    ensures StatesAgree(g, Conclude(s, p, outcome), states)
  {
    forall ref ensures ref in states <==> IsOf(Conclude(s, p, outcome), g, ref) {
      assert ref in states <==> IsOf(s, g, ref);
    }
  }

  lemma ConcludeKeepsPendingAgreed(
    s: State, p: string, outcome: Outcome, pending: map<string, Future>, futures: map<Ref, Future>)
    requires p in s.calls && PendingAgrees(s.calls[p].req.gateway, pending, s, futures)
    ensures
      var req := s.calls[p].req;
      PendingAgrees(req.gateway, pending - ChildIds(req, |req.inputs|), Conclude(s, p, outcome), futures)
  {
    var req := s.calls[p].req;
    var s' := Conclude(s, p, outcome);
    forall id ensures id in pending - ChildIds(req, |req.inputs|) <==> PendingKey(req.gateway, id) in s'.pending {
      if id in pending && PendingKey(req.gateway, id) !in s'.pending {
        var i: nat :| i < |req.inputs| && PendingKey(req.gateway, ChildId(req, i)) == PendingKey(req.gateway, id);
        assert id in ChildIds(req, |req.inputs|);
      }
    }
  }

  /** What a call that waits for `states` may come to. */
  ghost predicate Ends(req: Request, states: seq<FutureState>, timedOut: bool, outcome: Outcome) {
    if timedOut then outcome == Raised(TimedOut(req.lane))
    else if AllDone(states) then outcome == Concluded(req, Gathered(states))
    else exists i: nat :: i < |states| && states[i].Stopped? && outcome == Raised(ClientStopped(ChildId(req, i)))
  }

  /** Such an end is one of the steps TimeOut, Return and RaiseStopped. */
  lemma EndsByAStep(cfg: Config, s: State, p: string, timedOut: bool, outcome: Outcome)
    requires ValidConfig(cfg) && p in s.calls && s.calls[p].phase.Active? && AllRegistered(s.calls[p])
    requires Ends(s.calls[p].req, s.calls[p].futures, timedOut, outcome)
    ensures Next(cfg, s, Conclude(s, p, outcome))
  {
    if timedOut {
      EnabledIsNext(cfg, s, TimeOut(p));
    } else if AllDone(s.calls[p].futures) {
      EnabledIsNext(cfg, s, Return(p));
    } else {
      var i: nat :| i < |s.calls[p].futures| && s.calls[p].futures[i].Stopped?
        && outcome == Raised(ClientStopped(ChildId(s.calls[p].req, i)));
      EnabledIsNext(cfg, s, RaiseStopped(p, i));
    }
  }

  lemma EnabledIsNext(cfg: Config, s: State, step: Step)
    requires ValidConfig(cfg) && Enabled(cfg, s, step)
    ensures Next(cfg, s, Apply(cfg, s, step))
  {
  }

  /** The end of a call is the step TimeOut, Return or RaiseStopped. */
  method FinishIsAStep(
    client: GatewayBatchingClient, req: Request, held: seq<Future>, timedOut: bool,
    ghost cfg: Config, ghost s: State, ghost futures: map<Ref, Future>)
    returns (outcome: Outcome)
    requires ValidConfig(cfg) && Represents(cfg, client, s, futures) && req.gateway == client.gatewayId
    requires req.id in s.calls && s.calls[req.id].req == req
    requires s.calls[req.id].phase.Active? && AllRegistered(s.calls[req.id]) && |held| == |req.inputs|
    requires forall i | 0 <= i < |held| :: Ref(req.id, i) in futures && futures[Ref(req.id, i)] == held[i]
    requires timedOut || AllDone(s.calls[req.id].futures)
      || exists i :: 0 <= i < |held| && s.calls[req.id].futures[i].Stopped?
    modifies client`pending
    ensures Next(cfg, s, Conclude(s, req.id, outcome))
    ensures Represents(cfg, client, Conclude(s, req.id, outcome), futures)
  {
    ghost var states, pending := ValuesOf(futures), client.pending;
    forall i | 0 <= i < |held| ensures held[i].state == s.calls[req.id].futures[i] {
      assert states[Ref(req.id, i)] == s.calls[req.id].futures[i];
    }
    assert States(held) == s.calls[req.id].futures;
    outcome := client.FinishChildren(req, held, timedOut);
    assert Ends(req, s.calls[req.id].futures, timedOut, outcome);
    EndsByAStep(cfg, s, req.id, timedOut, outcome);
    ConcludedStates(s, req.id, outcome, client.gatewayId, states);
    ConcludeKeepsPendingAgreed(s, req.id, outcome, pending, futures);
  }

  // The workers' commands and the server's own.

  /** A peek sees what the step Peek records. */
  method PeekIsAStep(
    queue: RedisBatchQueue, model: string, lane: Lane, ghost cfg: Config, ghost s: State, ghost w: nat, nowMs: int)
    returns (oldest: Option<WorkItem>)
    requires QueuesAgree(cfg, queue, s) && model == cfg.settings.batchWorkerModel
    ensures
      var s' := RunPeek(s, w, lane, nowMs);
      && s'.windows[w] == BatchWindow(lane, oldest, nowMs, |Get(s.claims, lane)|)
      && QueuesAgree(cfg, queue, s')
  {
    oldest := queue.PeekOldestEmbeddingWork(model, lane);
  }

  /** A claim leaves the lists as the step Claim does and returns the batch that the step gives to the worker. */
  method ClaimIsAStep(
    queue: RedisBatchQueue, model: string, lane: Lane, settings: Settings, nowMs: int,
    ghost cfg: Config, ghost s: State, ghost w: nat)
    returns (items: seq<WorkItem>)
    requires ValidConfig(cfg) && settings == cfg.settings && model == settings.batchWorkerModel
    requires QueuesAgree(cfg, queue, s) && IsIdle(s, w)
    modifies queue`work
    ensures
      var s' := RunClaim(cfg, s, w, lane, nowMs);
      items == Unsent(s', w) && QueuesAgree(cfg, queue, s')
  {
    assert queue.WorkQueue(model, lane) == Get(s.work, lane);
    var targetTokens, maxItems;
    match lane {
      case Document =>
        targetTokens, maxItems := settings.documentBatchTargetTokens, settings.documentBatchMaxItems;
      case Query =>
        targetTokens, maxItems := settings.queryBatchTargetTokens, settings.queryBatchMaxItems;
    }
    items := queue.ClaimEmbeddingBatch(model, lane, Limits(maxItems, targetTokens), nowMs);
  }

  /** Publishing the next result is the step Publish, whether or not the worker lives to renew the time to live. */
  method PublishIsAStep(
    queue: RedisBatchQueue, item: WorkItem, result: ResultItem, ttlSeconds: int, dies: bool,
    ghost cfg: Config, ghost s: State, ghost w: nat)
    requires QueuesAgree(cfg, queue, s) && w in s.workers && s.workers[w].Publishing?
    requires s.workers[w].sent < |s.workers[w].batch| == |s.workers[w].results|
    requires item == s.workers[w].batch[s.workers[w].sent] && result == s.workers[w].results[s.workers[w].sent]
    modifies queue`results, queue`ttls
    ensures QueuesAgree(cfg, queue, RunPublish(s, w))
  {
    queue.PublishEmbeddingResult(item.replyTo, result, ttlSeconds, dies);
  }

  /** A result queue whose time to live runs out is the step DropResults. */
  method ExpiryIsAStep(queue: RedisBatchQueue, g: string, ghost cfg: Config, ghost s: State)
    requires QueuesAgree(cfg, queue, s)
    modifies queue`results, queue`ttls
    ensures QueuesAgree(cfg, queue, RunDropResults(s, g, |Get(s.results, g)|))
  {
    queue.ExpireResultQueue(g);
  }
}
