/** The batch window in every run: what a worker peeked at, and what it finds when its wait is over. */
module ProtocolWindows {
  import opened QueueModels
  import opened Claiming
  import opened Workload
  import opened BatchWorker
  import opened BatchingClient
  import opened Protocol
  import opened ProtocolData
  import opened ProtocolPlaces
  import opened ProtocolTheorems
  import opened ProtocolHistory

  /** As long as nobody claims from a lane, its queue only grows at the end. */
  lemma QueueOnlyGrows(cfg: Config, run: seq<State>, i: nat, j: nat, lane: Lane)
    requires ValidConfig(cfg) && IsRun(cfg, run) && i <= j < |run|
    requires |Get(run[j].claims, lane)| == |Get(run[i].claims, lane)|
    ensures Get(run[i].work, lane) <= Get(run[j].work, lane)
  {
    HistoriesGrow(cfg, run, i, j, lane);
    RunKeepsInv(cfg, run, i);
    RunKeepsInv(cfg, run, j);
    assert Get(run[i].claims, lane) == Get(run[j].claims, lane);
    SameClaimsGrow(run[i], run[j], lane);
  }

  lemma PrefixCancels(a: seq<Entry>, b: seq<Entry>, c: seq<Entry>)
    requires a + b <= a + c
    ensures b <= c
  {
    forall k | 0 <= k < |b| ensures b[k] == c[k] {
      assert (a + b)[|a| + k] == (a + c)[|a| + k];
    }
  }

  // What is known of a worker that waits.

  predicate IsHead(q: seq<Entry>, item: WorkItem) {
    q != [] && q[0] == Work(item)
  }

  /** The child has been pushed and has left its queue. */
  predicate HasLeft(place: Places, ref: Ref) {
    ref in place && !place[ref].Queued?
  }

  /** Others may claim while the worker waits; it does not. The head it saw is there until somebody does. */
  ghost predicate WindowOk(s: State, w: nat, window: BatchWindow) {
    var records := Get(s.claims, window.lane);
    && window.claimsBefore <= |records|
    && (forall c | c in records[window.claimsBefore..] :: c.worker != w)
    && (window.head.Some? ==>
      && Work(window.head.value) in Get(s.pushes, window.lane)
      && if |records| == window.claimsBefore then IsHead(Get(s.work, window.lane), window.head.value)
         else HasLeft(s.place, RefOf(window.head.value)))
  }

  ghost predicate WindowsOk(s: State) {
    forall w | w in s.windows :: WindowOk(s, w, s.windows[w])
  }

  /** A lane nobody claims from. */
  lemma QuietKeepsWindow(s: State, s': State, w: nat, window: BatchWindow)
    requires WindowOk(s, w, window) && Get(s'.claims, window.lane) == Get(s.claims, window.lane)
    requires Get(s.work, window.lane) <= Get(s'.work, window.lane)
    requires Get(s.pushes, window.lane) <= Get(s'.pushes, window.lane)
    requires window.head.Some? ==> Forward(s.place, s'.place, RefOf(window.head.value))
    ensures WindowOk(s', w, window)
  {
  }

  /** Another worker's claim takes the head, so that from then on the head has left. */
  lemma ClaimKeepsWindow(cfg: Config, s: State, v: nat, nowMs: int, w: nat, window: BatchWindow)
    requires ValidConfig(cfg) && PlacesOk(s) && v != w && WindowOk(s, w, window)
    ensures WindowOk(RunClaim(cfg, s, v, window.lane, nowMs), w, window)
  {
    var s' := RunClaim(cfg, s, v, window.lane, nowMs);
    var q := Get(s.work, window.lane);
    var records := Get(s.claims, window.lane);
    var record := ClaimRecord(v, nowMs, q[..Removed(q, LimitsOf(cfg.settings, window.lane), nowMs)]);
    assert Get(s'.claims, window.lane) == records + [record];
    assert (records + [record])[window.claimsBefore..] == records[window.claimsBefore..] + [record];
    if window.head.Some? {
      ClaimIsForward(cfg, s, v, window.lane, nowMs, RefOf(window.head.value));
      if |records| == window.claimsBefore {
        ClaimTakesHead(cfg, s, v, window.lane, nowMs, window.head.value);
      }
    }
  }

  /** Where a claim takes the head of its lane: to the worker when it is live, and otherwise to nowhere. */
  lemma ClaimTakesHead(cfg: Config, s: State, w: nat, lane: Lane, nowMs: int, item: WorkItem)
    requires ValidConfig(cfg) && PlacesOk(s) && IsHead(Get(s.work, lane), item)
    ensures
      var s' := RunClaim(cfg, s, w, lane, nowMs);
      IsAt(s'.place, RefOf(item), if Expired(item, nowMs) then Lost(ExpiredInQueue) else InFlight(w))
  {
    var q := Get(s.work, lane);
    var n := Removed(q, LimitsOf(cfg.settings, lane), nowMs);
    var expired, live := ItemRefs(ExpiredItems(q[..n], nowMs)), ItemRefs(LiveItems(q[..n], nowMs));
    assert q[..n][0] == q[0];
    HeadLeaves(q, LimitsOf(cfg.settings, lane), nowMs);
    assert Exactly(EntryRefs(q), s.place, Queued(lane));
    ClaimedQueue(q, n, nowMs, s.place, lane, w);
    if Expired(item, nowMs) {
      assert ExpiredItems(q[..n], nowMs)[0] == item && expired[0] == RefOf(item);
      assert RefOf(item) in expired;
      ExpiredAreNotLive(q, n, nowMs, s.place, lane, w, RefOf(item));
    } else {
      assert LiveItems(q[..n], nowMs)[0] == item && live[0] == RefOf(item);
      assert RefOf(item) in live;
    }
  }

  lemma ExpiredAreNotLive(q: seq<Entry>, n: nat, nowMs: int, place: Places, lane: Lane, w: nat, ref: Ref)
    requires n <= |q| && Exactly(EntryRefs(q), place, Queued(lane))
    requires ref in ItemRefs(ExpiredItems(q[..n], nowMs))
    ensures ref !in ItemRefs(LiveItems(q[..n], nowMs))
  {
    ClaimedQueue(q, n, nowMs, place, lane, w);
    var mid := Move(place, ItemRefs(ExpiredItems(q[..n], nowMs)), Lost(ExpiredInQueue));
    assert IsAt(mid, ref, Lost(ExpiredInQueue));
  }

  lemma StepKeepsWindow(cfg: Config, s: State, step: Step, w: nat, window: BatchWindow)
    requires ValidConfig(cfg) && Enabled(cfg, s, step) && Inv(cfg, s) && WindowOk(s, w, window)
    requires !(step.Claim? && step.lane == window.lane)
    ensures WindowOk(Apply(cfg, s, step), w, window)
  {
    var s' := Apply(cfg, s, step);
    if window.head.Some? {
      StepIsForward(cfg, s, step, RefOf(window.head.value));
    }
    OtherKeepsLane(cfg, s, step, window.lane);
    StepProgresses(cfg, s, step, window.lane);
    QuietKeepsWindow(s, s', w, window);
  }

  lemma OtherLeavesClaims(cfg: Config, s: State, step: Step, lane: Lane)
    requires ValidConfig(cfg) && Enabled(cfg, s, step) && !(step.Claim? && step.lane == lane)
    ensures Get(Apply(cfg, s, step).claims, lane) == Get(s.claims, lane)
  {
    if !step.Push? && !step.PushMalformed? && !step.Claim? {
      OtherLeavesHistory(cfg, s, step);
    }
  }

  /** Only a claim on a lane shortens its queue. */
  lemma OtherKeepsLane(cfg: Config, s: State, step: Step, lane: Lane)
    requires ValidConfig(cfg) && Enabled(cfg, s, step) && !(step.Claim? && step.lane == lane) && Inv(cfg, s)
    ensures
      var s' := Apply(cfg, s, step);
      Get(s'.claims, lane) == Get(s.claims, lane) && Get(s.work, lane) <= Get(s'.work, lane)
  {
    var s' := Apply(cfg, s, step);
    OtherLeavesClaims(cfg, s, step, lane);
    StepProgresses(cfg, s, step, lane);
    StepKeepsInv(cfg, s, step);
    SameClaimsGrow(s, s', lane);
  }

  lemma SameClaimsGrow(s: State, s': State, lane: Lane)
    requires HistoryOk(s) && HistoryOk(s') && Get(s.pushes, lane) <= Get(s'.pushes, lane)
    requires Get(s'.claims, lane) == Get(s.claims, lane)
    ensures Get(s.work, lane) <= Get(s'.work, lane)
  {
    assert LaneHistoryOk(s, lane) && LaneHistoryOk(s', lane);
    PrefixCancels(Trimmed(Get(s.claims, lane)), Get(s.work, lane), Get(s'.work, lane));
  }

  lemma PeekOpensWindow(s: State, w: nat, lane: Lane, nowMs: int)
    requires HistoryOk(s)
    ensures WindowOk(RunPeek(s, w, lane, nowMs), w, RunPeek(s, w, lane, nowMs).windows[w])
  {
    var q := Get(s.work, lane);
    if OldestItem(q).Some? {
      assert LaneHistoryOk(s, lane);
      QueuedWasPushed(s, lane, q[0]);
    }
  }

  lemma WindowsFrame(cfg: Config, s: State, step: Step, w: nat)
    requires ValidConfig(cfg) && Enabled(cfg, s, step) && w in Apply(cfg, s, step).windows
    requires !(step.Peek? && step.w == w)
    ensures w in s.windows && Apply(cfg, s, step).windows[w] == s.windows[w]
    ensures !(step.Claim? && step.w == w)
  {
  }

  /** A worker that crashes forgets everything, and a claim ends the wait; nobody else's wait is touched. */
  lemma WaitEndsWithItsWorker(cfg: Config, s: State, w: nat, lane: Lane, nowMs: int)
    requires ValidConfig(cfg)
    ensures w !in RunCrash(s, w).workers && w !in RunCrash(s, w).windows
    ensures w !in RunClaim(cfg, s, w, lane, nowMs).windows
    ensures forall v | v != w && v in s.windows ::
      && v in RunCrash(s, w).windows && RunCrash(s, w).windows[v] == s.windows[v]
      && v in RunClaim(cfg, s, w, lane, nowMs).windows && RunClaim(cfg, s, w, lane, nowMs).windows[v] == s.windows[v]
    ensures forall v | v != w && v in s.workers ::
      && v in RunCrash(s, w).workers && RunCrash(s, w).workers[v] == s.workers[v]
      && v in RunClaim(cfg, s, w, lane, nowMs).workers && RunClaim(cfg, s, w, lane, nowMs).workers[v] == s.workers[v]
  {
  }

  lemma StepKeepsOldWindow(cfg: Config, s: State, step: Step, w: nat)
    requires ValidConfig(cfg) && Enabled(cfg, s, step) && Inv(cfg, s) && WindowsOk(s)
    requires w in Apply(cfg, s, step).windows && !(step.Peek? && step.w == w)
    ensures WindowOk(Apply(cfg, s, step), w, Apply(cfg, s, step).windows[w])
  {
    WindowsFrame(cfg, s, step, w);
    assert WindowOk(s, w, s.windows[w]);
    if step.Claim? && step.lane == s.windows[w].lane {
      ClaimKeepsWindow(cfg, s, step.w, step.nowMs, w, s.windows[w]);
    } else {
      StepKeepsWindow(cfg, s, step, w, s.windows[w]);
    }
  }

  lemma StepKeepsWindows(cfg: Config, s: State, step: Step)
    requires ValidConfig(cfg) && Enabled(cfg, s, step) && Inv(cfg, s) && WindowsOk(s)
    ensures WindowsOk(Apply(cfg, s, step))
  {
    var s' := Apply(cfg, s, step);
    forall w | w in s'.windows ensures WindowOk(s', w, s'.windows[w]) {
      if step.Peek? && step.w == w {
        PeekOpensWindow(s, w, step.lane, step.nowMs);
      } else {
        StepKeepsOldWindow(cfg, s, step, w);
      }
    }
  }

  lemma {:induction false} RunKeepsWindows(cfg: Config, run: seq<State>, i: nat)
    requires ValidConfig(cfg) && IsRun(cfg, run) && i < |run|
    ensures WindowsOk(run[i])
  {
    if i != 0 {
      RunKeepsWindows(cfg, run, i - 1);
      RunKeepsInv(cfg, run, i - 1);
      var step := StepTo(cfg, run, i);
      StepKeepsWindows(cfg, run[i - 1], step);
    }
  }

  /** The claims on its lane since a waiting worker peeked at it. */
  function ClaimsSince(s: State, window: BatchWindow): seq<ClaimRecord> {
    var records := Get(s.claims, window.lane);
    if window.claimsBefore <= |records| then records[window.claimsBefore..] else []
  }

  /**
   * With any number of workers: the head that a waiting worker saw is still the head of the lane exactly as long as
   * nobody has claimed from the lane since.
   */
  lemma HeadStaysUntilClaimed(cfg: Config, run: seq<State>, i: nat, w: nat)
    requires ValidConfig(cfg) && IsRun(cfg, run) && i < |run|
    requires w in run[i].windows && run[i].windows[w].head.Some?
    ensures
      var window := run[i].windows[w];
      IsHead(Get(run[i].work, window.lane), window.head.value) <==> ClaimsSince(run[i], window) == []
  {
    RunKeepsWindows(cfg, run, i);
    RunKeepsInv(cfg, run, i);
    var s, window := run[i], run[i].windows[w];
    assert WindowOk(s, w, window);
    var q := Get(s.work, window.lane);
    if IsHead(q, window.head.value) {
      assert EntryRefs(q)[0] == RefOf(window.head.value);
      assert Exactly(EntryRefs(q), s.place, Queued(window.lane));
      assert RefOf(window.head.value) in EntryRefs(q);
    }
  }

  predicate OnlyClaimer(records: seq<ClaimRecord>, w: nat) {
    forall k | 0 <= k < |records| :: records[k].worker == w
  }

  lemma WaitingWorkerClaimsNothing(cfg: Config, run: seq<State>, i: nat, w: nat, k: nat)
    requires ValidConfig(cfg) && IsRun(cfg, run) && i < |run| && w in run[i].windows
    requires k < |ClaimsSince(run[i], run[i].windows[w])|
    ensures ClaimsSince(run[i], run[i].windows[w])[k].worker != w
  {
    RunKeepsWindows(cfg, run, i);
    assert WindowOk(run[i], w, run[i].windows[w]);
    assert ClaimsSince(run[i], run[i].windows[w])[k] in ClaimsSince(run[i], run[i].windows[w]);
  }

  /** In a lane that no other worker claims from meanwhile, the head that a waiting worker saw is still the head. */
  lemma SoleWorkerKeepsItsHead(cfg: Config, run: seq<State>, i: nat, w: nat)
    requires ValidConfig(cfg) && IsRun(cfg, run) && i < |run|
    requires w in run[i].windows && run[i].windows[w].head.Some?
    requires OnlyClaimer(ClaimsSince(run[i], run[i].windows[w]), w)
    ensures IsHead(Get(run[i].work, run[i].windows[w].lane), run[i].windows[w].head.value)
  {
    if ClaimsSince(run[i], run[i].windows[w]) != [] {
      WaitingWorkerClaimsNothing(cfg, run, i, w, 0);
      assert false;
    }
    HeadStaysUntilClaimed(cfg, run, i, w);
  }

  /** How long a worker waits after its peek. */
  function WaitMs(cfg: Config, window: BatchWindow): int {
    match window.head
    case None => 0
    case Some(item) => WindowFor(item, window.atMs, MaxWaitMs(cfg.settings, window.lane))
  }

  /** The longest wait that a lane's settings ask for. */
  function LongestWaitMs(cfg: Config, lane: Lane): nat {
    if MaxWaitMs(cfg.settings, lane) < 0 then 0 else MaxWaitMs(cfg.settings, lane)
  }

  /** The lane's own maximum. */
  predicate IsMaxWait(cfg: Config, lane: Lane, maxWaitMs: int) {
    match lane
    case Query => maxWaitMs == cfg.settings.queryMaxWaitMs
    case Document => maxWaitMs == cfg.settings.documentMaxWaitMs
  }

  /**
   * The wait, exactly: what is left of the lane's maximum since the head was pushed, the whole maximum when the head's
   * clock is ahead, and nothing when there is no head to wait for or it is late.
   */
  lemma WaitIsExact(cfg: Config, window: BatchWindow, maxWaitMs: int)
    requires IsMaxWait(cfg, window.lane, maxWaitMs)
    ensures window.head.None? ==> WaitMs(cfg, window) == 0
    ensures window.head.Some? && window.head.value.deadlineMs < window.atMs ==> WaitMs(cfg, window) == 0
    ensures window.head.Some? && window.atMs <= window.head.value.deadlineMs ==>
      var over := window.head.value.createdAtMs + maxWaitMs;
      window.atMs + WaitMs(cfg, window) ==
      if window.atMs < window.head.value.createdAtMs then
        (if maxWaitMs < 0 then window.atMs else window.atMs + maxWaitMs)
      else if over < window.atMs then window.atMs else over
  {
  }

  lemma WaitIsBounded(cfg: Config, window: BatchWindow)
    ensures 0 <= WaitMs(cfg, window) <= LongestWaitMs(cfg, window.lane)
  {
  }

  /**
   * The batch window, in every run. A worker peeks at a lane, waits as long as the window of the head asks and claims;
   * meanwhile no other worker claims from the lane, and the two share a clock with the gateway. Then its claim trims
   * the very head it saw, not before the head has waited its maximum, and hands it out first unless it has expired.
   */
  lemma WindowServesItsHead(cfg: Config, run: seq<State>, i: nat, w: nat, nowMs: int)
    requires ValidConfig(cfg) && IsRun(cfg, run) && i < |run| && w in run[i].windows && run[i].windows[w].head.Some?
    requires Enabled(cfg, run[i], Claim(w, run[i].windows[w].lane, nowMs))
    requires OnlyClaimer(ClaimsSince(run[i], run[i].windows[w]), w)
    requires
      var head := run[i].windows[w].head.value;
      head.createdAtMs <= run[i].windows[w].atMs <= head.deadlineMs
    requires run[i].windows[w].atMs + WaitMs(cfg, run[i].windows[w]) <= nowMs
    ensures
      var window := run[i].windows[w];
      var head := window.head.value;
      var s' := Apply(cfg, run[i], Claim(w, window.lane, nowMs));
      var records := Get(s'.claims, window.lane);
      && records != []
      && var record := records[|records| - 1];
      && record.worker == w && record.removed != [] && record.removed[0] == Work(head)
      && (forall maxWaitMs | IsMaxWait(cfg, window.lane, maxWaitMs) :: head.createdAtMs + maxWaitMs <= nowMs)
      && if Expired(head, nowMs) then IsAt(s'.place, RefOf(head), Lost(ExpiredInQueue))
         else Unsent(s', w) != [] && Unsent(s', w)[0] == head
  {
    var s, window := run[i], run[i].windows[w];
    RunKeepsInv(cfg, run, i);
    SoleWorkerKeepsItsHead(cfg, run, i, w);
    WaitIsExact(cfg, window, MaxWaitMs(cfg.settings, window.lane));
    ClaimServesHead(cfg, s, w, window.lane, nowMs, window.head.value);
  }

  /**
   * The window's own test for a late head is the claim script's test as far as requests go whose deadline is positive,
   * as it is with any clock that counts from 1970: such a head either gets its whole window or has expired.
   */
  lemma WindowAgreesWithScript(cfg: Config, run: seq<State>, i: nat, w: nat)
    requires ValidConfig(cfg) && IsRun(cfg, run) && i < |run| && w in run[i].windows && run[i].windows[w].head.Some?
    ensures
      var window := run[i].windows[w];
      var head := window.head.value;
      && GenuineItem(cfg, run[i].calls, head)
      && (0 < run[i].calls[head.parentRequestId].req.createdMs + cfg.settings.requestTimeoutMs
          && head.createdAtMs <= window.atMs ==>
        if Expired(head, window.atMs) then WaitMs(cfg, window) == 0
        else forall maxWaitMs | IsMaxWait(cfg, window.lane, maxWaitMs) ::
          head.createdAtMs + maxWaitMs <= window.atMs + WaitMs(cfg, window))
  {
    RunKeepsWindows(cfg, run, i);
    RunKeepsInv(cfg, run, i);
    var window := run[i].windows[w];
    assert WindowOk(run[i], w, window);
    assert GenuineEntry(cfg, run[i].calls, window.lane, Work(window.head.value));
    WaitIsExact(cfg, window, MaxWaitMs(cfg.settings, window.lane));
  }

  lemma ClaimServesHead(cfg: Config, s: State, w: nat, lane: Lane, nowMs: int, head: WorkItem)
    requires ValidConfig(cfg) && PlacesOk(s) && IsIdle(s, w) && IsHead(Get(s.work, lane), head)
    ensures
      var s' := RunClaim(cfg, s, w, lane, nowMs);
      var records := Get(s'.claims, lane);
      && records != []
      && var record := records[|records| - 1];
      && record.worker == w && record.removed != [] && record.removed[0] == Work(head)
      && if Expired(head, nowMs) then IsAt(s'.place, RefOf(head), Lost(ExpiredInQueue))
         else Unsent(s', w) != [] && Unsent(s', w)[0] == head
  {
    HeadLeaves(Get(s.work, lane), LimitsOf(cfg.settings, lane), nowMs);
    ClaimTakesHead(cfg, s, w, lane, nowMs, head);
  }
}
