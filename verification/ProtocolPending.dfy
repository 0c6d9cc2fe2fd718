/** What is pending: exactly the children that somebody still waits for. */
module ProtocolPending {
  import opened QueueModels
  import opened RedisKeys
  import opened BatchingClient
  import opened Protocol
  import opened ProtocolData
  import opened ProtocolPlaces
  import opened ProtocolTheorems

  function KeyOf(c: Call, i: nat): PendingKey {
    PendingKey(c.req.gateway, ChildId(c.req, i))
  }

  /** The future of the i-th child is one that the listener may still have to find. */
  predicate Awaited(c: Call, closed: set<string>, i: nat) {
    c.phase.Active? && i < |c.futures| && (c.futures[i].Waiting? || c.req.gateway !in closed)
  }

  predicate Finds(pending: map<PendingKey, Ref>, c: Call, p: string, i: nat) {
    KeyOf(c, i) in pending && pending[KeyOf(c, i)] == Ref(p, i)
  }

  ghost predicate AwaitedOk(calls: Calls, closed: set<string>, pending: map<PendingKey, Ref>) {
    forall p, i: nat | p in calls && Awaited(calls[p], closed, i) :: Finds(pending, calls[p], p, i)
  }

  /** Only stopping the client fails a future. */
  ghost predicate StoppedOk(calls: Calls, closed: set<string>) {
    forall p, i | p in calls && 0 <= i < |calls[p].futures| && calls[p].futures[i].Stopped? ::
      calls[p].req.gateway in closed
  }

  ghost predicate WaitingOk(s: State) {
    AwaitedOk(s.calls, s.closed, s.pending) && StoppedOk(s.calls, s.closed)
  }

  /** Keys tell children apart, across all calls. */
  lemma KeysDiffer(cfg: Config, calls: Calls, p: string, i: nat, q: string, j: nat)
    requires CallsOk(cfg, calls) && p in calls && q in calls
    requires i < |calls[p].req.inputs| && j < |calls[q].req.inputs| && KeyOf(calls[p], i) == KeyOf(calls[q], j)
    ensures p == q && i == j
  {
    assert CallOk(cfg, p, calls[p]) && CallOk(cfg, q, calls[q]);
    ChildIdsInjective(p, |calls[p].req.inputs|, i, q, |calls[q].req.inputs|, j);
  }

  lemma RegisterKeepsWaiting(cfg: Config, s: State, p: string)
    requires CallsOk(cfg, s.calls) && WaitingOk(s) && p in s.calls && |s.calls[p].futures| < |s.calls[p].req.inputs|
    ensures WaitingOk(RunRegister(s, p))
  {
    var s' := RunRegister(s, p);
    var n := |s.calls[p].futures|;
    forall q, j: nat | q in s'.calls && Awaited(s'.calls[q], s'.closed, j)
      ensures Finds(s'.pending, s'.calls[q], q, j)
    {
      if q != p || j != n {
        assert Awaited(s.calls[q], s.closed, j);
        assert Finds(s.pending, s.calls[q], q, j) && CallOk(cfg, q, s.calls[q]);
        if KeyOf(s.calls[q], j) == KeyOf(s.calls[p], n) {
          KeysDiffer(cfg, s.calls, q, j, p, n);
        }
      }
    }
  }

  lemma ConcludeKeepsWaiting(cfg: Config, s: State, p: string, outcome: Outcome)
    requires CallsOk(cfg, s.calls) && WaitingOk(s) && p in s.calls
    ensures WaitingOk(Conclude(s, p, outcome))
  {
    var s' := Conclude(s, p, outcome);
    forall q, j: nat | q in s'.calls && Awaited(s'.calls[q], s'.closed, j)
      ensures Finds(s'.pending, s'.calls[q], q, j)
    {
      assert q != p && Awaited(s.calls[q], s.closed, j);
      assert Finds(s.pending, s.calls[q], q, j) && CallOk(cfg, q, s.calls[q]);
      if KeyOf(s.calls[q], j) !in s'.pending {
        var req := s.calls[p].req;
        var i: nat :| i < |req.inputs| && PendingKey(req.gateway, ChildId(req, i)) == KeyOf(s.calls[q], j);
        KeysDiffer(cfg, s.calls, p, i, q, j);
      }
    }
  }

  lemma ResolveKeepsWaiting(
    calls: Calls, closed: set<string>, pending: map<PendingKey, Ref>, ref: Ref, r: ResultItem)
    requires AwaitedOk(calls, closed, pending) && StoppedOk(calls, closed) && IsAwaited(calls, ref)
    ensures AwaitedOk(Resolve(calls, ref, r), closed, pending) && StoppedOk(Resolve(calls, ref, r), closed)
  {
    var calls' := Resolve(calls, ref, r);
    forall q, j: nat | q in calls' && Awaited(calls'[q], closed, j) ensures Finds(pending, calls'[q], q, j) {
      assert Awaited(calls[q], closed, j);
      assert Finds(pending, calls[q], q, j);
    }
  }

  lemma ListenKeepsWaiting(s: State, g: string)
    requires WaitingOk(s) && Get(s.results, g) != []
    ensures WaitingOk(RunListen(s, g))
  {
    var key := PendingKey(g, Get(s.results, g)[0].requestId);
    ListenIsPopAndResolve(s, g);
    if key in s.pending && IsAwaited(s.calls, s.pending[key]) {
      ResolveKeepsWaiting(s.calls, s.closed, s.pending, s.pending[key], Get(s.results, g)[0]);
    }
  }

  lemma CloseKeepsWaiting(s: State, g: string)
    requires WaitingOk(s)
    ensures WaitingOk(RunClose(s, g))
  {
    var s' := RunClose(s, g);
    forall q, j: nat | q in s'.calls && Awaited(s'.calls[q], s'.closed, j)
      ensures Finds(s'.pending, s'.calls[q], q, j)
    {
      assert Awaited(s.calls[q], s.closed, j);
    }
  }

  lemma StopKeepsWaiting(cfg: Config, s: State, g: string)
    requires CallsOk(cfg, s.calls) && WaitingOk(s) && g in s.closed
    ensures WaitingOk(RunStop(s, g))
  {
    var s' := RunStop(s, g);
    forall q, j: nat | q in s'.calls && Awaited(s'.calls[q], s'.closed, j)
      ensures Finds(s'.pending, s'.calls[q], q, j)
    {
      StopFutureEffect(s, g, s.calls[q], j);
      assert CallOk(cfg, q, s.calls[q]) && Awaited(s.calls[q], s.closed, j);
      assert Finds(s.pending, s.calls[q], q, j);
    }
    forall q, j | q in s'.calls && 0 <= j < |s'.calls[q].futures| && s'.calls[q].futures[j].Stopped?
      ensures s'.calls[q].req.gateway in s'.closed
    {
      StopFutureEffect(s, g, s.calls[q], j);
    }
  }

  lemma SubmitKeepsWaiting(s: State, req: Request)
    requires WaitingOk(s) && req.id !in s.calls
    ensures WaitingOk(RunSubmit(s, req))
  {
    var s' := RunSubmit(s, req);
    forall q, j: nat | q in s'.calls && Awaited(s'.calls[q], s'.closed, j)
      ensures Finds(s'.pending, s'.calls[q], q, j)
    {
      assert Awaited(s.calls[q], s.closed, j);
    }
  }

  lemma PushKeepsWaiting(cfg: Config, s: State, p: string)
    requires WaitingOk(s) && p in s.calls && s.calls[p].pushed < |s.calls[p].req.inputs| == |s.calls[p].req.tokenCounts|
    ensures WaitingOk(RunPush(cfg, s, p))
  {
    var s' := RunPush(cfg, s, p);
    forall q, j: nat | q in s'.calls && Awaited(s'.calls[q], s'.closed, j)
      ensures Finds(s'.pending, s'.calls[q], q, j)
    {
      assert Awaited(s.calls[q], s.closed, j);
    }
  }

  lemma OtherKeepsWaiting(cfg: Config, s: State, step: Step)
    requires ValidConfig(cfg) && Enabled(cfg, s, step) && WaitingOk(s)
    requires !IsGatewayStep(step)
    ensures WaitingOk(Apply(cfg, s, step))
  {
  }

  lemma StepKeepsWaiting(cfg: Config, s: State, step: Step)
    requires ValidConfig(cfg) && Enabled(cfg, s, step) && CallsOk(cfg, s.calls) && WaitingOk(s)
    ensures WaitingOk(Apply(cfg, s, step))
  {
    match step
    case Submit(req, _, _) => SubmitKeepsWaiting(s, req);
    case Register(p) => RegisterKeepsWaiting(cfg, s, p);
    case Push(p) => PushKeepsWaiting(cfg, s, p);
    case Listen(g) => ListenKeepsWaiting(s, g);
    case Return(p) => ConcludeKeepsWaiting(cfg, s, p, Concluded(s.calls[p].req, Gathered(s.calls[p].futures)));
    case TimeOut(p) => ConcludeKeepsWaiting(cfg, s, p, Raised(TimedOut(s.calls[p].req.lane)));
    case RaiseStopped(p, i) => ConcludeKeepsWaiting(cfg, s, p, Raised(ClientStopped(ChildId(s.calls[p].req, i))));
    case Interrupt(p, message) => ConcludeKeepsWaiting(cfg, s, p, Raised(Interrupted(message)));
    case Close(g) => CloseKeepsWaiting(s, g);
    case Stop(g) => StopKeepsWaiting(cfg, s, g);
    case _ => OtherKeepsWaiting(cfg, s, step);
  }

  lemma {:induction false} RunKeepsWaiting(cfg: Config, run: seq<State>, i: nat)
    requires ValidConfig(cfg) && IsRun(cfg, run) && i < |run|
    ensures WaitingOk(run[i])
  {
    if i != 0 {
      RunKeepsWaiting(cfg, run, i - 1);
      RunKeepsInv(cfg, run, i - 1);
      var step := StepTo(cfg, run, i);
      StepKeepsWaiting(cfg, run[i - 1], step);
    }
  }

  /**
   * While a gateway is open its dictionary holds a child just when the child's call is still waiting and has created
   * its future; so a call that ended, however it ended, leaves nothing behind.
   */
  lemma PendingIsExact(cfg: Config, run: seq<State>, i: nat, p: string, k: nat)
    requires ValidConfig(cfg) && IsRun(cfg, run) && i < |run| && p in run[i].calls
    requires k < |run[i].calls[p].req.inputs|
    ensures
      var c := run[i].calls[p];
      && (KeyOf(c, k) in run[i].pending ==> c.phase.Active? && k < |c.futures| && Finds(run[i].pending, c, p, k))
      && (c.phase.Active? && k < |c.futures| && c.req.gateway !in run[i].closed ==> KeyOf(c, k) in run[i].pending)
      && (c.phase.Active? && k < |c.futures| && c.futures[k].Waiting? ==> KeyOf(c, k) in run[i].pending)
  {
    RunKeepsInv(cfg, run, i);
    RunKeepsWaiting(cfg, run, i);
    var s := run[i];
    var c := s.calls[p];
    if KeyOf(c, k) in s.pending {
      var ref := s.pending[KeyOf(c, k)];
      assert PendingEntryOk(s.calls, KeyOf(c, k), ref);
      KeysDiffer(cfg, s.calls, p, k, ref.parent, ref.index);
    }
    if Awaited(c, s.closed, k) {
      assert Finds(s.pending, c, p, k);
    }
  }

  /**
   * A result that an open gateway pops reaches its request just when the request is still waiting: its future then
   * takes this very result. Otherwise the result is thrown away.
   */
  lemma ResultsReachWhoWaits(cfg: Config, run: seq<State>, i: nat, g: string)
    requires ValidConfig(cfg) && IsRun(cfg, run) && i < |run| && Enabled(cfg, run[i], Listen(g))
    ensures
      var r := Get(run[i].results, g)[0];
      var s' := Apply(cfg, run[i], Listen(g));
      && r.parentRequestId in run[i].calls
      && (IsAt(s'.place, ResultRef(r), Delivered) <==> run[i].calls[r.parentRequestId].phase.Active?)
      && (IsAt(s'.place, ResultRef(r), Lost(Orphaned)) <==> run[i].calls[r.parentRequestId].phase.Finished?)
      && (run[i].calls[r.parentRequestId].phase.Active? ==>
        && r.inputIndex < |s'.calls[r.parentRequestId].futures|
        && s'.calls[r.parentRequestId].futures[r.inputIndex] == Done(r))
  {
    RunKeepsInv(cfg, run, i);
    RunKeepsWaiting(cfg, run, i);
    var s := run[i];
    var r := Get(s.results, g)[0];
    assert ReplyOk(cfg, s.calls, g, r);
    var ref := ResultRef(r);
    var c := s.calls[ref.parent];
    assert KeyOf(c, ref.index) == PendingKey(g, r.requestId);
    RepliedIsUnresolved(cfg, s, g);
    PendingIsExact(cfg, run, i, ref.parent, ref.index);
  }

  /** A popped result was pushed and claimed once, so its future exists and has no result yet. */
  lemma RepliedIsUnresolved(cfg: Config, s: State, g: string)
    requires Inv(cfg, s) && Get(s.results, g) != []
    ensures
      var ref := ResultRef(Get(s.results, g)[0]);
      && ref.parent in s.calls && ref.index < |s.calls[ref.parent].futures|
      && !s.calls[ref.parent].futures[ref.index].Done?
  {
    var q := Get(s.results, g);
    var ref := ResultRef(q[0]);
    assert Exactly(ResultRefs(q), s.place, Replied(g));
    assert ResultRefs(q)[0] == ref;
    assert ref in ResultRefs(q);
    assert IsAt(s.place, ref, Replied(g));
    assert ref in s.place <==> IsPushed(s.calls, ref);
    assert CallOk(cfg, ref.parent, s.calls[ref.parent]);
    assert IsAt(s.place, ref, Delivered) <==> IsResolved(s.calls, ref);
  }

  /** Delivered is resolved, and what has a place was pushed. */
  lemma DeliveredFutures(cfg: Config, s: State, p: string, k: nat)
    requires Inv(cfg, s) && p in s.calls
    ensures IsAt(s.place, Ref(p, k), Delivered) <==> k < |s.calls[p].futures| && s.calls[p].futures[k].Done?
    ensures IsAt(s.place, Ref(p, k), Delivered) ==> k < s.calls[p].pushed
  {
    assert IsAt(s.place, Ref(p, k), Delivered) <==> IsResolved(s.calls, Ref(p, k));
    assert Ref(p, k) in s.place <==> IsPushed(s.calls, Ref(p, k));
  }

  /** A request can return exactly when it is waiting and each of its children has been delivered. */
  lemma ReturnsWhenAllDelivered(cfg: Config, run: seq<State>, i: nat, p: string)
    requires ValidConfig(cfg) && IsRun(cfg, run) && i < |run| && p in run[i].calls
    ensures
      var c := run[i].calls[p];
      Enabled(cfg, run[i], Return(p)) <==>
      c.phase.Active? && forall k: nat | k < |c.req.inputs| :: IsAt(run[i].place, Ref(p, k), Delivered)
  {
    RunKeepsInv(cfg, run, i);
    AllDeliveredExactly(cfg, run[i], p);
  }

  lemma DeliveredMeansDone(cfg: Config, s: State, p: string)
    requires Inv(cfg, s) && p in s.calls
    requires forall k: nat | k < |s.calls[p].req.inputs| :: IsAt(s.place, Ref(p, k), Delivered)
    ensures AllRegistered(s.calls[p]) && AllDone(s.calls[p].futures)
  {
    var c := s.calls[p];
    assert CallOk(cfg, p, c);
    if |c.req.inputs| != 0 {
      DeliveredFutures(cfg, s, p, |c.req.inputs| - 1);
    }
    forall k | 0 <= k < |c.futures| ensures c.futures[k].Done? {
      DeliveredFutures(cfg, s, p, k);
    }
  }

  lemma AllDeliveredExactly(cfg: Config, s: State, p: string)
    requires Inv(cfg, s) && p in s.calls
    ensures
      (AllRegistered(s.calls[p]) && AllDone(s.calls[p].futures)) <==>
      forall k: nat | k < |s.calls[p].req.inputs| :: IsAt(s.place, Ref(p, k), Delivered)
  {
    if forall k: nat | k < |s.calls[p].req.inputs| :: IsAt(s.place, Ref(p, k), Delivered) {
      DeliveredMeansDone(cfg, s, p);
    }
    if AllRegistered(s.calls[p]) && AllDone(s.calls[p].futures) {
      forall k: nat | k < |s.calls[p].req.inputs| ensures IsAt(s.place, Ref(p, k), Delivered) {
        DeliveredFutures(cfg, s, p, k);
      }
    }
  }
}
