/** What becomes of a result, exactly, once a worker has it: it is kept as it is, or its child is lost. */
module ProtocolResults {
  import opened QueueModels
  import opened ResponseNormalization
  import opened BatchWorker
  import opened BatchingClient
  import opened Protocol
  import opened ProtocolData
  import opened ProtocolPlaces
  import opened ProtocolTheorems

  predicate IsLost(place: Places, ref: Ref) {
    ref in place && place[ref].Lost?
  }

  /** Worker w has yet to publish the result, at position k of its batch. */
  predicate Holds(workers: map<nat, WorkerState>, w: nat, k: nat, r: ResultItem) {
    && w in workers && workers[w].Publishing?
    && workers[w].sent <= k < |workers[w].results|
    && workers[w].results[k] == r
  }

  ghost predicate IsHeld(workers: map<nat, WorkerState>, r: ResultItem) {
    exists w, k: nat :: Holds(workers, w, k, r)
  }

  ghost predicate IsSent(results: map<string, seq<ResultItem>>, r: ResultItem) {
    exists g :: r in Get(results, g)
  }

  predicate IsTaken(calls: Calls, r: ResultItem) {
    IsResolved(calls, ResultRef(r)) && calls[r.parentRequestId].futures[r.inputIndex].result == r
  }

  /** The result is with a worker, in a result queue or with its future, unless its child has been lost. */
  ghost predicate IsKept(s: State, r: ResultItem) {
    || IsLost(s.place, ResultRef(r))
    || IsHeld(s.workers, r)
    || IsSent(s.results, r)
    || IsTaken(s.calls, r)
  }

  lemma HeldStaysKept(cfg: Config, s: State, step: Step, w: nat, k: nat, r: ResultItem)
    requires ValidConfig(cfg) && Enabled(cfg, s, step) && Inv(cfg, s) && Holds(s.workers, w, k, r)
    ensures IsKept(Apply(cfg, s, step), r)
  {
    assert WorkerOk(cfg, s.calls, s.workers[w]);
    if step == Publish(w) && s.workers[w].sent == k {
      PublishedIsSent(s, w);
    } else if step == Crash(w) {
      UnsentIsLost(s, w, k, r);
    } else {
      OtherKeepsHeld(cfg, s, step, w, k, r);
    }
  }

  lemma PublishedIsSent(s: State, w: nat)
    requires w in s.workers && s.workers[w].Publishing?
    requires s.workers[w].sent < |s.workers[w].batch| == |s.workers[w].results|
    ensures IsSent(RunPublish(s, w).results, s.workers[w].results[s.workers[w].sent])
  {
    var g := s.workers[w].batch[s.workers[w].sent].replyTo;
    assert s.workers[w].results[s.workers[w].sent] in Get(RunPublish(s, w).results, g);
  }

  lemma UnsentIsLost(s: State, w: nat, k: nat, r: ResultItem)
    requires Holds(s.workers, w, k, r) && |s.workers[w].batch| == |s.workers[w].results|
    requires ResultRef(r) == RefOf(s.workers[w].batch[k])
    ensures IsLost(RunCrash(s, w).place, ResultRef(r))
  {
    var unsent := Unsent(s, w);
    assert unsent[k - s.workers[w].sent] == s.workers[w].batch[k];
    ItemRefsAt(unsent, k - s.workers[w].sent);
    assert ResultRef(r) in ItemRefs(unsent);
  }

  lemma OtherKeepsHeld(cfg: Config, s: State, step: Step, w: nat, k: nat, r: ResultItem)
    requires ValidConfig(cfg) && Enabled(cfg, s, step) && Holds(s.workers, w, k, r)
    requires WorkerOk(cfg, s.calls, s.workers[w])
    requires !(step == Publish(w) && s.workers[w].sent == k) && step != Crash(w)
    ensures IsHeld(Apply(cfg, s, step).workers, r)
  {
    assert Holds(Apply(cfg, s, step).workers, w, k, r);
  }

  lemma SentStaysKept(cfg: Config, s: State, step: Step, g: string, r: ResultItem)
    requires ValidConfig(cfg) && Enabled(cfg, s, step) && Inv(cfg, s) && r in Get(s.results, g)
    ensures IsKept(Apply(cfg, s, step), r)
  {
    if step == Listen(g) {
      ListenedStaysKept(cfg, s, g, r);
    } else if step.DropResults? && step.g == g {
      DroppedIsLost(Get(s.results, g), s.place, step.count, r);
      assert Get(Apply(cfg, s, step).results, g) == Get(s.results, g)[step.count..];
    } else {
      OtherKeepsSent(cfg, s, step, g, r);
    }
  }

  lemma OtherKeepsSent(cfg: Config, s: State, step: Step, g: string, r: ResultItem)
    requires ValidConfig(cfg) && Enabled(cfg, s, step) && r in Get(s.results, g)
    requires step != Listen(g) && !(step.DropResults? && step.g == g)
    ensures r in Get(Apply(cfg, s, step).results, g)
  {
  }

  lemma DroppedIsLost(q: seq<ResultItem>, place: Places, count: nat, r: ResultItem)
    requires count <= |q| && r in q
    ensures r in q[count..] || IsLost(Move(place, ResultRefs(q[..count]), Lost(ResultDropped)), ResultRef(r))
  {
    assert q == q[..count] + q[count..];
    if r in q[..count] {
      ResultIsListed(q[..count], r);
    }
  }

  lemma {:induction false} ResultIsListed(results: seq<ResultItem>, r: ResultItem)
    requires r in results
    ensures ResultRef(r) in ResultRefs(results)
  {
    if results[0] != r {
      ResultIsListed(results[1..], r);
    }
  }

  lemma ListenedStaysKept(cfg: Config, s: State, g: string, r: ResultItem)
    requires CallsOk(cfg, s.calls) && PendingOk(s.calls, s.pending) && RepliesOk(cfg, s.calls, s.results)
    requires r in Get(s.results, g)
    ensures IsKept(RunListen(s, g), r)
  {
    var q := Get(s.results, g);
    var s' := RunListen(s, g);
    if q[0] == r {
      assert ReplyOk(cfg, s.calls, g, r);
      if FindsFuture(s, g) {
        ListenerFindsOwner(cfg, s, g, r);
        assert IsTaken(s'.calls, r);
      } else {
        assert ResultRef(r) in [ResultRef(r)];
        assert IsLost(s'.place, ResultRef(r));
      }
    } else {
      assert q == [q[0]] + q[1..];
      assert r in Get(s'.results, g);
    }
  }

  lemma NextKeepsKept(cfg: Config, run: seq<State>, j: nat, r: ResultItem)
    requires ValidConfig(cfg) && IsRun(cfg, run) && 0 < j < |run| && IsKept(run[j - 1], r)
    ensures IsKept(run[j], r)
  {
    RunKeepsInv(cfg, run, j - 1);
    if IsLost(run[j - 1].place, ResultRef(r)) {
      RunIsForward(cfg, run, j, ResultRef(r));
    } else if IsTaken(run[j - 1].calls, r) {
      NextKeepsCalls(cfg, run, j, ResultRef(r));
    } else if IsHeld(run[j - 1].workers, r) {
      var step := StepTo(cfg, run, j);
      var w, k: nat :| Holds(run[j - 1].workers, w, k, r);
      HeldStaysKept(cfg, run[j - 1], step, w, k, r);
    } else {
      var step := StepTo(cfg, run, j);
      var g :| r in Get(run[j - 1].results, g);
      SentStaysKept(cfg, run[j - 1], step, g, r);
    }
  }

  /** A worker's result is never altered on its way. */
  lemma {:induction false} KeptForever(cfg: Config, run: seq<State>, i: nat, j: nat, r: ResultItem)
    requires ValidConfig(cfg) && IsRun(cfg, run) && i <= j < |run| && IsKept(run[i], r)
    ensures IsKept(run[j], r)
    decreases j
  {
    if i < j {
      KeptForever(cfg, run, i, j - 1, r);
      NextKeepsKept(cfg, run, j, r);
    }
  }

  lemma HeldIsInFlight(cfg: Config, s: State, w: nat, k: nat, r: ResultItem)
    requires Inv(cfg, s) && Holds(s.workers, w, k, r)
    ensures IsAt(s.place, ResultRef(r), InFlight(w))
  {
    assert WorkerOk(cfg, s.calls, s.workers[w]);
    var unsent := Unsent(s, w);
    assert unsent[k - s.workers[w].sent] == s.workers[w].batch[k];
    ItemRefsAt(unsent, k - s.workers[w].sent);
    assert Exactly(ItemRefs(unsent), s.place, InFlight(w));
    assert ResultRef(r) in ItemRefs(unsent);
  }

  lemma SentIsReplied(s: State, g: string, r: ResultItem)
    requires RepliesAt(s.results, s.place) && r in Get(s.results, g)
    ensures IsAt(s.place, ResultRef(r), Replied(g))
  {
    ResultIsListed(Get(s.results, g), r);
    assert Exactly(ResultRefs(Get(s.results, g)), s.place, Replied(g));
  }

  /** A resolved future has the result that was kept for it, and no other. */
  lemma ResolvedByWhatWasKept(cfg: Config, s: State, r: ResultItem)
    requires Inv(cfg, s) && IsKept(s, r) && IsResolved(s.calls, ResultRef(r))
    ensures IsTaken(s.calls, r)
  {
    assert IsAt(s.place, ResultRef(r), Delivered) <==> IsResolved(s.calls, ResultRef(r));
    if IsHeld(s.workers, r) {
      var w, k: nat :| Holds(s.workers, w, k, r);
      HeldIsInFlight(cfg, s, w, k, r);
    } else if IsSent(s.results, r) {
      var g :| r in Get(s.results, g);
      SentIsReplied(s, g, r);
    }
  }

  /**
   * From the model call to the caller: whatever happens in between, the future of a child takes the very result that
   * its worker made of the model call for it, if it is resolved at all.
   */
  lemma FutureTakesItsWorkersResult(
    cfg: Config, run: seq<State>, i: nat, j: nat, w: nat, outcome: ModelOutcome, k: nat)
    requires ValidConfig(cfg) && IsRun(cfg, run) && i + 1 <= j < |run|
    requires Enabled(cfg, run[i], ModelAnswers(w, outcome)) && k < |run[i].workers[w].batch|
    requires run[i + 1] == Apply(cfg, run[i], ModelAnswers(w, outcome))
    requires IsResolved(run[j].calls, RefOf(run[i].workers[w].batch[k]))
    ensures
      var ref := RefOf(run[i].workers[w].batch[k]);
      run[j].calls[ref.parent].futures[ref.index].result == BatchResults(run[i].workers[w].batch, outcome)[k]
  {
    var r := BatchResults(run[i].workers[w].batch, outcome)[k];
    FanOut(run[i].workers[w].batch, outcome);
    assert Holds(run[i + 1].workers, w, k, r);
    KeptForever(cfg, run, i + 1, j, r);
    RunKeepsInv(cfg, run, j);
    ResolvedByWhatWasKept(cfg, run[j], r);
  }

  /**
   * A failed model call reaches the caller: a request whose lowest failing child was in a batch whose model call ended
   * with an HTTP error raises that status and that text, or 502 and a text of its own where these are zero or empty.
   */
  lemma CallRaisesTheModelsError(
    cfg: Config, run: seq<State>, i: nat, j: nat, w: nat, status: int, detail: string, k: nat)
    requires ValidConfig(cfg) && IsRun(cfg, run) && i + 1 <= j < |run|
    requires Enabled(cfg, run[i], ModelAnswers(w, HttpFailure(status, detail))) && k < |run[i].workers[w].batch|
    requires run[i + 1] == Apply(cfg, run[i], ModelAnswers(w, HttpFailure(status, detail)))
    requires
      var item := run[i].workers[w].batch[k];
      && Enabled(cfg, run[j], Return(item.parentRequestId))
      && item.inputIndex < |run[j].calls[item.parentRequestId].futures|
      && forall l | 0 <= l < item.inputIndex :: run[j].calls[item.parentRequestId].futures[l].result.ok
    ensures
      var p := run[i].workers[w].batch[k].parentRequestId;
      match Apply(cfg, run[j], Return(p)).calls[p].phase
      case Finished(Raised(WorkerFailed(st, d))) =>
        && st == (if status != 0 then status else 502)
        && (detail != "" ==> d == detail)
        && (detail == "" ==>
          d == "Batched " + (if run[j].calls[p].req.lane == Query then "query" else "document")
               + " embedding worker failed")
      case _ => false
  {
    var item := run[i].workers[w].batch[k];
    var p := item.parentRequestId;
    FutureTakesItsWorkersResult(cfg, run, i, j, w, HttpFailure(status, detail), k);
    FailedCallIsReported(run[i].workers[w].batch, HttpFailure(status, detail), k);
    LowestFailureIsRaised(cfg, run, j, p, item.inputIndex);
  }

  lemma LowestFailureIsRaised(cfg: Config, run: seq<State>, j: nat, p: string, k: nat)
    requires ValidConfig(cfg) && IsRun(cfg, run) && j < |run| && Enabled(cfg, run[j], Return(p))
    requires k < |run[j].calls[p].futures| && !run[j].calls[p].futures[k].result.ok
    requires forall l | 0 <= l < k :: run[j].calls[p].futures[l].result.ok
    ensures
      match Apply(cfg, run[j], Return(p)).calls[p].phase
      case Finished(Raised(e)) => IsErrorOf(run[j].calls[p].req.lane, run[j].calls[p].futures[k].result, e)
      case _ => false
  {
    AnswersDecideTheCall(cfg, run, j, p);
    var results := Gathered(run[j].calls[p].futures);
    assert !results[k].ok && forall l | 0 <= l < k :: results[l].ok;
  }
}
