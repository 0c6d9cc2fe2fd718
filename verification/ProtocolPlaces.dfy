/** Where every pushed child is: in exactly one place, and only ever moving forward. */
module ProtocolPlaces {
  import opened QueueModels
  import opened Claiming
  import opened Workload
  import opened BatchWorker
  import opened BatchingClient
  import opened Protocol
  import opened ProtocolData

  type Places = map<Ref, Place>

  ghost predicate NoDup(refs: seq<Ref>) {
    forall i, j | 0 <= i < j < |refs| :: refs[i] != refs[j]
  }

  predicate IsAt(place: Places, ref: Ref, at: Place) {
    ref in place && place[ref] == at
  }

  /** The container lists exactly the children that are recorded to be in it, each once. */
  ghost predicate Exactly(refs: seq<Ref>, place: Places, at: Place) {
    NoDup(refs) && forall ref :: ref in refs <==> IsAt(place, ref, at)
  }

  predicate IsPushed(calls: Calls, ref: Ref) {
    ref.parent in calls && ref.index < calls[ref.parent].pushed
  }

  predicate IsResolved(calls: Calls, ref: Ref) {
    && ref.parent in calls
    && ref.index < |calls[ref.parent].futures|
    && calls[ref.parent].futures[ref.index].Done?
  }

  ghost predicate DomainOk(calls: Calls, place: Places) {
    forall ref :: ref in place <==> IsPushed(calls, ref)
  }

  ghost predicate DeliveredOk(calls: Calls, place: Places) {
    forall ref :: IsAt(place, ref, Delivered) <==> IsResolved(calls, ref)
  }

  ghost predicate QueuesOk(work: map<Lane, seq<Entry>>, place: Places) {
    forall lane :: Exactly(EntryRefs(Get(work, lane)), place, Queued(lane))
  }

  ghost predicate WorkersAt(s: State, place: Places) {
    forall w :: Exactly(ItemRefs(Unsent(s, w)), place, InFlight(w))
  }

  ghost predicate RepliesAt(results: map<string, seq<ResultItem>>, place: Places) {
    forall g :: Exactly(ResultRefs(Get(results, g)), place, Replied(g))
  }

  ghost predicate PlacesOk(s: State) {
    && DomainOk(s.calls, s.place)
    && DeliveredOk(s.calls, s.place)
    && QueuesOk(s.work, s.place)
    && WorkersAt(s, s.place)
    && RepliesAt(s.results, s.place)
  }

  // Lists of references.

  lemma {:induction false} EntryRefsConcat(a: seq<Entry>, b: seq<Entry>)
    ensures EntryRefs(a + b) == EntryRefs(a) + EntryRefs(b)
  {
    if a == [] {
      assert a + b == b;
    } else {
      EntryRefsConcat(a[1..], b);
      assert (a + b)[0] == a[0] && (a + b)[1..] == a[1..] + b;
      var head := if a[0].Work? then [RefOf(a[0].item)] else [];
      assert head + (EntryRefs(a[1..]) + EntryRefs(b)) == (head + EntryRefs(a[1..])) + EntryRefs(b);
    }
  }

  lemma {:induction false} ItemRefsAt(items: seq<WorkItem>, k: nat)
    requires k < |items|
    ensures ItemRefs(items)[k] == RefOf(items[k])
  {
    if k != 0 {
      ItemRefsAt(items[1..], k - 1);
    }
  }

  lemma {:induction false} ResultRefsConcat(a: seq<ResultItem>, b: seq<ResultItem>)
    ensures ResultRefs(a + b) == ResultRefs(a) + ResultRefs(b)
  {
    if a == [] {
      assert a + b == b;
    } else {
      ResultRefsConcat(a[1..], b);
      assert (a + b)[0] == a[0] && (a + b)[1..] == a[1..] + b;
      var head := [ResultRef(a[0])];
      assert head + (ResultRefs(a[1..]) + ResultRefs(b)) == (head + ResultRefs(a[1..])) + ResultRefs(b);
    }
  }

  lemma NoDupParts(a: seq<Ref>, b: seq<Ref>)
    requires NoDup(a + b)
    ensures NoDup(a) && NoDup(b)
    ensures forall ref | ref in a :: ref !in b
  {
    var c := a + b;
    forall i, j | 0 <= i < j < |b| ensures b[i] != b[j] {
      assert c[|a| + i] == b[i] && c[|a| + j] == b[j];
    }
    forall i, j | 0 <= i < j < |a| ensures a[i] != a[j] {
      assert c[i] == a[i] && c[j] == a[j];
    }
    forall i, j | 0 <= i < |a| && 0 <= j < |b| ensures a[i] != b[j] {
      assert c[i] == a[i] && c[|a| + j] == b[j];
    }
  }

  lemma NoDupAppend(a: seq<Ref>, b: seq<Ref>)
    requires NoDup(a) && NoDup(b)
    requires forall ref | ref in a :: ref !in b
    ensures NoDup(a + b)
  {
    var c := a + b;
    forall i, j | 0 <= i < j < |c| ensures c[i] != c[j] {
      if i < |a| <= j {
        assert c[i] in a && c[j] == b[j - |a|] && b[j - |a|] in b;
      }
    }
  }

  /** The claimed and the expired children of a trimmed prefix are all its children, and no child is both. */
  lemma {:induction false} PrefixSplits(q: seq<Entry>, nowMs: int)
    requires NoDup(EntryRefs(q))
    ensures NoDup(ItemRefs(LiveItems(q, nowMs)))
    ensures forall ref :: ref in EntryRefs(q) <==>
      ref in ItemRefs(LiveItems(q, nowMs)) || ref in ItemRefs(ExpiredItems(q, nowMs))
    ensures forall ref :: ref in ItemRefs(LiveItems(q, nowMs)) ==> ref !in ItemRefs(ExpiredItems(q, nowMs))
  {
    if q != [] {
      var head := if q[0].Work? then [RefOf(q[0].item)] else [];
      assert EntryRefs(q) == head + EntryRefs(q[1..]);
      NoDupParts(head, EntryRefs(q[1..]));
      PrefixSplits(q[1..], nowMs);
      var live, expired := LiveItems(q[1..], nowMs), ExpiredItems(q[1..], nowMs);
      if IsLive(q[0], nowMs) {
        assert LiveItems(q, nowMs)[1..] == live && ItemRefs(LiveItems(q, nowMs)) == head + ItemRefs(live);
        assert ExpiredItems(q, nowMs) == expired;
        NoDupAppend(head, ItemRefs(live));
      } else if q[0].Work? {
        assert LiveItems(q, nowMs) == live;
        assert ExpiredItems(q, nowMs)[1..] == expired;
        assert ItemRefs(ExpiredItems(q, nowMs)) == head + ItemRefs(expired);
      } else {
        assert LiveItems(q, nowMs) == live && ExpiredItems(q, nowMs) == expired;
      }
    }
  }

  // Moving children between containers.

  /** The moved children leave the container they were in. */
  lemma Leave(refs: seq<Ref>, rest: seq<Ref>, moved: seq<Ref>, place: Places, from: Place, to: Place)
    requires Exactly(refs, place, from) && from != to
    requires NoDup(rest) && forall ref :: ref in rest <==> ref in refs && ref !in moved
    ensures Exactly(rest, Move(place, moved, to), from)
  {
    var place' := Move(place, moved, to);
    forall ref ensures ref in rest <==> IsAt(place', ref, from) {
      assert ref in refs <==> IsAt(place, ref, from);
    }
  }

  /** The moved children join the end of the container they go to. */
  lemma Join(refs: seq<Ref>, moved: seq<Ref>, place: Places, to: Place)
    requires Exactly(refs, place, to) && NoDup(moved)
    requires forall ref | ref in moved :: !IsAt(place, ref, to)
    ensures Exactly(refs + moved, Move(place, moved, to), to)
  {
    var place' := Move(place, moved, to);
    forall ref | ref in refs ensures ref !in moved {
      assert IsAt(place, ref, to);
    }
    NoDupAppend(refs, moved);
    forall ref ensures ref in refs + moved <==> IsAt(place', ref, to) {
      assert ref in refs <==> IsAt(place, ref, to);
    }
  }

  /** Every other container stays as it is. */
  lemma Bystander(refs: seq<Ref>, moved: seq<Ref>, place: Places, at: Place, to: Place)
    requires Exactly(refs, place, at) && at != to
    requires forall ref | ref in moved :: !IsAt(place, ref, at)
    ensures Exactly(refs, Move(place, moved, to), at)
  {
    Leave(refs, refs, moved, place, at, to);
  }

  /** All of the moved children come from one place. */
  ghost predicate AllAt(moved: seq<Ref>, place: Places, from: Place) {
    forall ref | ref in moved :: IsAt(place, ref, from)
  }

  lemma OtherQueues(work: map<Lane, seq<Entry>>, place: Places, moved: seq<Ref>, from: Place, to: Place)
    requires QueuesOk(work, place) && AllAt(moved, place, from) && !from.Queued? && !to.Queued?
    ensures QueuesOk(work, Move(place, moved, to))
  {
    forall lane ensures Exactly(EntryRefs(Get(work, lane)), Move(place, moved, to), Queued(lane)) {
      Bystander(EntryRefs(Get(work, lane)), moved, place, Queued(lane), to);
    }
  }

  lemma OtherWorkers(s: State, place: Places, moved: seq<Ref>, from: Place, to: Place)
    requires WorkersAt(s, place) && AllAt(moved, place, from) && !from.InFlight? && !to.InFlight?
    ensures WorkersAt(s, Move(place, moved, to))
  {
    forall w ensures Exactly(ItemRefs(Unsent(s, w)), Move(place, moved, to), InFlight(w)) {
      Bystander(ItemRefs(Unsent(s, w)), moved, place, InFlight(w), to);
    }
  }

  lemma OtherReplies(results: map<string, seq<ResultItem>>, place: Places, moved: seq<Ref>, from: Place, to: Place)
    requires RepliesAt(results, place) && AllAt(moved, place, from) && !from.Replied? && !to.Replied?
    ensures RepliesAt(results, Move(place, moved, to))
  {
    forall g ensures Exactly(ResultRefs(Get(results, g)), Move(place, moved, to), Replied(g)) {
      Bystander(ResultRefs(Get(results, g)), moved, place, Replied(g), to);
    }
  }

  /** Moving pushed children about changes neither who was pushed nor, off the last stop, who was delivered. */
  lemma SameDomain(calls: Calls, place: Places, moved: seq<Ref>, from: Place, to: Place)
    requires DomainOk(calls, place) && DeliveredOk(calls, place)
    requires AllAt(moved, place, from) && !from.Delivered? && !to.Delivered?
    ensures DomainOk(calls, Move(place, moved, to)) && DeliveredOk(calls, Move(place, moved, to))
  {
    var place' := Move(place, moved, to);
    forall ref
      ensures ref in place' <==> IsPushed(calls, ref)
      ensures IsAt(place', ref, Delivered) <==> IsResolved(calls, ref)
    {
      assert ref in place <==> IsPushed(calls, ref);
      assert IsAt(place, ref, Delivered) <==> IsResolved(calls, ref);
      assert ref in moved ==> IsAt(place, ref, from);
    }
  }

  /** Where the claimed items are depends on nothing but the workers. */
  lemma WorkersAtDepends(s: State, s': State, place: Places)
    requires WorkersAt(s, place) && s'.workers == s.workers
    ensures WorkersAt(s', place)
  {
    forall w ensures Exactly(ItemRefs(Unsent(s', w)), place, InFlight(w)) {
      assert Exactly(ItemRefs(Unsent(s, w)), place, InFlight(w));
      assert Unsent(s', w) == Unsent(s, w);
    }
  }

  // The steps.

  lemma PushKeepsPlaces(cfg: Config, s: State, p: string)
    requires PlacesOk(s) && CallsOk(cfg, s.calls)
    requires p in s.calls && s.calls[p].pushed < |s.calls[p].futures|
    requires s.calls[p].pushed < |s.calls[p].req.inputs| == |s.calls[p].req.tokenCounts|
    ensures PlacesOk(RunPush(cfg, s, p))
  {
    var s' := RunPush(cfg, s, p);
    var c := s.calls[p];
    assert CallOk(cfg, p, c);
    var ref := Ref(p, c.pushed);
    assert !IsPushed(s.calls, ref);
    assert ref !in s.place;
    PushedDomain(s.calls, s.place, p, c.req.lane);
    PushedQueues(s.work, s.place, c.req.lane, ChildItem(c.req, c.pushed, cfg.settings.requestTimeoutMs));
    NewcomerIsElsewhere(s, ref, c.req.lane);
    WorkersAtDepends(s, s', s'.place);
  }

  lemma NewcomerIsElsewhere(s: State, ref: Ref, lane: Lane)
    requires WorkersAt(s, s.place) && RepliesAt(s.results, s.place) && ref !in s.place
    ensures
      var place' := Move(s.place, [ref], Queued(lane));
      WorkersAt(s, place') && RepliesAt(s.results, place')
  {
    var place' := Move(s.place, [ref], Queued(lane));
    forall w ensures Exactly(ItemRefs(Unsent(s, w)), place', InFlight(w)) {
      assert Exactly(ItemRefs(Unsent(s, w)), s.place, InFlight(w));
      Bystander(ItemRefs(Unsent(s, w)), [ref], s.place, InFlight(w), Queued(lane));
    }
    forall g ensures Exactly(ResultRefs(Get(s.results, g)), place', Replied(g)) {
      assert Exactly(ResultRefs(Get(s.results, g)), s.place, Replied(g));
      Bystander(ResultRefs(Get(s.results, g)), [ref], s.place, Replied(g), Queued(lane));
    }
  }

  lemma AppendedRefs(q: seq<Entry>, item: WorkItem)
    ensures EntryRefs(q + [Work(item)]) == EntryRefs(q) + [RefOf(item)]
  {
    EntryRefsConcat(q, [Work(item)]);
    assert [Work(item)][1..] == [];
  }

  lemma PushedQueues(work: map<Lane, seq<Entry>>, place: Places, lane: Lane, item: WorkItem)
    requires QueuesOk(work, place) && RefOf(item) !in place
    ensures QueuesOk(work[lane := Get(work, lane) + [Work(item)]], Move(place, [RefOf(item)], Queued(lane)))
  {
    var work' := work[lane := Get(work, lane) + [Work(item)]];
    var moved := [RefOf(item)];
    AppendedRefs(Get(work, lane), item);
    var refs := EntryRefs(Get(work, lane));
    assert Exactly(refs, place, Queued(lane));
    Join(refs, moved, place, Queued(lane));
    forall l ensures Exactly(EntryRefs(Get(work', l)), Move(place, moved, Queued(lane)), Queued(l)) {
      if l != lane {
        assert Exactly(EntryRefs(Get(work, l)), place, Queued(l));
        Bystander(EntryRefs(Get(work, l)), moved, place, Queued(l), Queued(lane));
      }
    }
  }

  lemma PushedDomain(calls: Calls, place: Places, p: string, lane: Lane)
    requires DomainOk(calls, place) && DeliveredOk(calls, place)
    requires p in calls && Ref(p, calls[p].pushed) !in place
    ensures
      var calls' := calls[p := calls[p].(pushed := calls[p].pushed + 1)];
      var place' := Move(place, [Ref(p, calls[p].pushed)], Queued(lane));
      DomainOk(calls', place') && DeliveredOk(calls', place')
  {
    var calls' := calls[p := calls[p].(pushed := calls[p].pushed + 1)];
    var place' := Move(place, [Ref(p, calls[p].pushed)], Queued(lane));
    forall ref
      ensures ref in place' <==> IsPushed(calls', ref)
      ensures IsAt(place', ref, Delivered) <==> IsResolved(calls', ref)
    {
      assert ref in place <==> IsPushed(calls, ref);
      assert IsAt(place, ref, Delivered) <==> IsResolved(calls, ref);
      assert IsResolved(calls', ref) <==> IsResolved(calls, ref);
    }
  }

  lemma MalformedIsNobody(q: seq<Entry>, raw: string)
    ensures EntryRefs(q + [Malformed(raw)]) == EntryRefs(q)
  {
    EntryRefsConcat(q, [Malformed(raw)]);
    assert [Malformed(raw)][1..] == [];
  }

  lemma MalformedKeepsPlaces(s: State, lane: Lane, raw: string)
    requires PlacesOk(s)
    ensures PlacesOk(RunPushMalformed(s, lane, raw))
  {
    var s' := RunPushMalformed(s, lane, raw);
    MalformedIsNobody(Get(s.work, lane), raw);
    forall l ensures Exactly(EntryRefs(Get(s'.work, l)), s'.place, Queued(l)) {
      assert Exactly(EntryRefs(Get(s.work, l)), s.place, Queued(l));
    }
    WorkersAtDepends(s, s', s'.place);
  }

  /** The queue after a claim, and the two moves that the claim makes. */
  lemma ClaimedQueue(q: seq<Entry>, n: nat, nowMs: int, place: Places, lane: Lane, w: nat)
    requires n <= |q| && Exactly(EntryRefs(q), place, Queued(lane))
    ensures
      var expired := ItemRefs(ExpiredItems(q[..n], nowMs));
      var live := ItemRefs(LiveItems(q[..n], nowMs));
      var mid := Move(place, expired, Lost(ExpiredInQueue));
      && NoDup(live)
      && AllAt(expired, place, Queued(lane)) && AllAt(live, mid, Queued(lane))
      && Exactly(EntryRefs(q[n..]), Move(mid, live, InFlight(w)), Queued(lane))
  {
    var expired := ItemRefs(ExpiredItems(q[..n], nowMs));
    var live := ItemRefs(LiveItems(q[..n], nowMs));
    var mid := Move(place, expired, Lost(ExpiredInQueue));
    var head, rest := EntryRefs(q[..n]), EntryRefs(q[n..]);
    assert q[..n] + q[n..] == q;
    EntryRefsConcat(q[..n], q[n..]);
    NoDupParts(head, rest);
    PrefixSplits(q[..n], nowMs);
    forall ref | ref in head ensures IsAt(place, ref, Queued(lane)) {
      assert ref in EntryRefs(q);
    }
    var place' := Move(mid, live, InFlight(w));
    forall ref ensures ref in rest <==> IsAt(place', ref, Queued(lane)) {
      assert ref in EntryRefs(q) <==> IsAt(place, ref, Queued(lane));
    }
  }

  lemma ClaimKeepsPlaces(cfg: Config, s: State, w: nat, lane: Lane, nowMs: int)
    requires ValidConfig(cfg) && PlacesOk(s) && IsIdle(s, w)
    ensures PlacesOk(RunClaim(cfg, s, w, lane, nowMs))
  {
    var s' := RunClaim(cfg, s, w, lane, nowMs);
    var q := Get(s.work, lane);
    var n := Removed(q, LimitsOf(cfg.settings, lane), nowMs);
    var expired := ItemRefs(ExpiredItems(q[..n], nowMs));
    var live := ItemRefs(LiveItems(q[..n], nowMs));
    var mid := Move(s.place, expired, Lost(ExpiredInQueue));
    assert Exactly(EntryRefs(q), s.place, Queued(lane));
    ClaimedQueue(q, n, nowMs, s.place, lane, w);
    ClaimLeavesRest(s, lane, expired, live, w);
    OtherWorkers(s, s.place, expired, Queued(lane), Lost(ExpiredInQueue));
    ClaimKeepsQueues(s, s', lane, expired, live, w);
    ClaimedIsUnsent(cfg, s, w, lane, nowMs);
    ClaimGivesBatch(s, s', mid, w, live, lane);
  }

  lemma ClaimLeavesRest(s: State, lane: Lane, expired: seq<Ref>, live: seq<Ref>, w: nat)
    requires DomainOk(s.calls, s.place) && DeliveredOk(s.calls, s.place) && RepliesAt(s.results, s.place)
    requires AllAt(expired, s.place, Queued(lane))
    requires AllAt(live, Move(s.place, expired, Lost(ExpiredInQueue)), Queued(lane))
    ensures
      var place' := Move(Move(s.place, expired, Lost(ExpiredInQueue)), live, InFlight(w));
      DomainOk(s.calls, place') && DeliveredOk(s.calls, place') && RepliesAt(s.results, place')
  {
    var mid := Move(s.place, expired, Lost(ExpiredInQueue));
    SameDomain(s.calls, s.place, expired, Queued(lane), Lost(ExpiredInQueue));
    SameDomain(s.calls, mid, live, Queued(lane), InFlight(w));
    OtherReplies(s.results, s.place, expired, Queued(lane), Lost(ExpiredInQueue));
    OtherReplies(s.results, mid, live, Queued(lane), InFlight(w));
  }

  lemma ClaimedIsUnsent(cfg: Config, s: State, w: nat, lane: Lane, nowMs: int)
    requires ValidConfig(cfg) && IsIdle(s, w)
    ensures
      var s' := RunClaim(cfg, s, w, lane, nowMs);
      && Unsent(s', w) == Batch(Get(s.work, lane), LimitsOf(cfg.settings, lane), nowMs)
      && forall v | v != w :: Unsent(s', v) == Unsent(s, v)
  {
  }

  lemma ClaimGivesBatch(s: State, s': State, mid: Places, w: nat, live: seq<Ref>, lane: Lane)
    requires WorkersAt(s, mid) && IsIdle(s, w)
    requires NoDup(live) && AllAt(live, mid, Queued(lane)) && s'.place == Move(mid, live, InFlight(w))
    requires ItemRefs(Unsent(s', w)) == live
    requires forall v | v != w :: Unsent(s', v) == Unsent(s, v)
    ensures WorkersAt(s', s'.place)
  {
    forall v ensures Exactly(ItemRefs(Unsent(s', v)), s'.place, InFlight(v)) {
      var refs := ItemRefs(Unsent(s, v));
      assert Exactly(refs, mid, InFlight(v));
      if v == w {
        Join([], live, mid, InFlight(w));
        assert [] + live == live;
      } else {
        Bystander(refs, live, mid, InFlight(v), InFlight(w));
      }
    }
  }

  lemma ClaimKeepsQueues(s: State, s': State, lane: Lane, expired: seq<Ref>, live: seq<Ref>, w: nat)
    requires QueuesOk(s.work, s.place)
    requires AllAt(expired, s.place, Queued(lane))
    requires AllAt(live, Move(s.place, expired, Lost(ExpiredInQueue)), Queued(lane))
    requires s'.place == Move(Move(s.place, expired, Lost(ExpiredInQueue)), live, InFlight(w))
    requires s'.work == s.work[lane := Get(s'.work, lane)]
    requires Exactly(EntryRefs(Get(s'.work, lane)), s'.place, Queued(lane))
    ensures QueuesOk(s'.work, s'.place)
  {
    var mid := Move(s.place, expired, Lost(ExpiredInQueue));
    forall l ensures Exactly(EntryRefs(Get(s'.work, l)), s'.place, Queued(l)) {
      if l != lane {
        var refs := EntryRefs(Get(s.work, l));
        Bystander(refs, expired, s.place, Queued(l), Lost(ExpiredInQueue));
        Bystander(refs, live, mid, Queued(l), InFlight(w));
      }
    }
  }

  lemma ModelAnswersKeepsPlaces(s: State, w: nat, outcome: ModelOutcome)
    requires PlacesOk(s) && w in s.workers && s.workers[w].Claimed?
    ensures PlacesOk(RunModelAnswers(s, w, outcome))
  {
    var s' := RunModelAnswers(s, w, outcome);
    forall v ensures Exactly(ItemRefs(Unsent(s', v)), s'.place, InFlight(v)) {
      assert Exactly(ItemRefs(Unsent(s, v)), s.place, InFlight(v));
      assert Unsent(s', v) == Unsent(s, v);
    }
  }

  lemma PublishKeepsPlaces(cfg: Config, s: State, w: nat)
    requires PlacesOk(s) && w in s.workers && s.workers[w].Publishing? && WorkersOk(cfg, s.calls, s.workers)
    requires s.workers[w].sent < |s.workers[w].batch| == |s.workers[w].results|
    ensures PlacesOk(RunPublish(s, w))
  {
    assert WorkerOk(cfg, s.calls, s.workers[w]);
    var s' := RunPublish(s, w);
    var ws := s.workers[w];
    var item := ws.batch[ws.sent];
    var moved := [RefOf(item)];
    PublishedLeavesWorker(s, w);
    SameDomain(s.calls, s.place, moved, InFlight(w), Replied(item.replyTo));
    OtherQueues(s.work, s.place, moved, InFlight(w), Replied(item.replyTo));
    PublishedJoinsReplies(s.results, s.place, item.replyTo, ws.results[ws.sent], w);
  }

  lemma PublishedLeavesWorker(s: State, w: nat)
    requires WorkersAt(s, s.place) && w in s.workers && s.workers[w].Publishing?
    requires s.workers[w].sent < |s.workers[w].batch| == |s.workers[w].results|
    ensures WorkersAt(RunPublish(s, w), RunPublish(s, w).place)
    ensures IsAt(s.place, RefOf(s.workers[w].batch[s.workers[w].sent]), InFlight(w))
  {
    var s' := RunPublish(s, w);
    var unsent := Unsent(s, w);
    var moved := [RefOf(unsent[0])];
    var to := Replied(unsent[0].replyTo);
    assert unsent[1..] == Unsent(s', w);
    assert ItemRefs(unsent) == moved + ItemRefs(unsent[1..]);
    assert Exactly(ItemRefs(unsent), s.place, InFlight(w));
    assert moved[0] in ItemRefs(unsent);
    NoDupParts(moved, ItemRefs(unsent[1..]));
    forall v ensures Exactly(ItemRefs(Unsent(s', v)), s'.place, InFlight(v)) {
      assert Exactly(ItemRefs(Unsent(s, v)), s.place, InFlight(v));
      if v == w {
        Leave(ItemRefs(unsent), ItemRefs(unsent[1..]), moved, s.place, InFlight(w), to);
      } else {
        assert Unsent(s', v) == Unsent(s, v);
        Bystander(ItemRefs(Unsent(s, v)), moved, s.place, InFlight(v), to);
      }
    }
  }

  lemma PublishedJoinsReplies(results: map<string, seq<ResultItem>>, place: Places, g: string, r: ResultItem, w: nat)
    requires RepliesAt(results, place) && IsAt(place, ResultRef(r), InFlight(w))
    ensures RepliesAt(results[g := Get(results, g) + [r]], Move(place, [ResultRef(r)], Replied(g)))
  {
    var results' := results[g := Get(results, g) + [r]];
    var moved := [ResultRef(r)];
    ResultRefsConcat(Get(results, g), [r]);
    assert ResultRefs([r]) == moved + ResultRefs([r][1..]);
    forall h ensures Exactly(ResultRefs(Get(results', h)), Move(place, moved, Replied(g)), Replied(h)) {
      assert Exactly(ResultRefs(Get(results, h)), place, Replied(h));
      if h == g {
        Join(ResultRefs(Get(results, g)), moved, place, Replied(g));
      } else {
        Bystander(ResultRefs(Get(results, h)), moved, place, Replied(h), Replied(g));
      }
    }
  }

  lemma CrashKeepsPlaces(s: State, w: nat)
    requires PlacesOk(s)
    ensures PlacesOk(RunCrash(s, w))
  {
    var s' := RunCrash(s, w);
    var moved := ItemRefs(Unsent(s, w));
    var to := Lost(WorkerCrashed);
    assert Exactly(moved, s.place, InFlight(w));
    SameDomain(s.calls, s.place, moved, InFlight(w), to);
    OtherQueues(s.work, s.place, moved, InFlight(w), to);
    OtherReplies(s.results, s.place, moved, InFlight(w), to);
    forall v ensures Exactly(ItemRefs(Unsent(s', v)), s'.place, InFlight(v)) {
      assert Exactly(ItemRefs(Unsent(s, v)), s.place, InFlight(v));
      if v == w {
        Leave(moved, [], moved, s.place, InFlight(w), to);
      } else {
        assert Unsent(s', v) == Unsent(s, v);
        Bystander(ItemRefs(Unsent(s, v)), moved, s.place, InFlight(v), to);
      }
    }
  }

  /** The first results of one gateway leave its queue for somewhere that is no container. */
  lemma FirstResultsLeave(s: State, g: string, count: nat, to: Place)
    requires PlacesOk(s) && count <= |Get(s.results, g)| && (to.Lost? || to.Delivered?)
    ensures
      var moved := ResultRefs(Get(s.results, g)[..count]);
      var place' := Move(s.place, moved, to);
      && AllAt(moved, s.place, Replied(g))
      && QueuesOk(s.work, place') && WorkersAt(s, place')
      && RepliesAt(s.results[g := Get(s.results, g)[count..]], place')
  {
    var q := Get(s.results, g);
    var moved, rest := ResultRefs(q[..count]), ResultRefs(q[count..]);
    assert Exactly(ResultRefs(q), s.place, Replied(g));
    assert q[..count] + q[count..] == q;
    ResultRefsConcat(q[..count], q[count..]);
    NoDupParts(moved, rest);
    forall ref | ref in moved ensures IsAt(s.place, ref, Replied(g)) {
      assert ref in ResultRefs(q);
    }
    OtherQueues(s.work, s.place, moved, Replied(g), to);
    OtherWorkers(s, s.place, moved, Replied(g), to);
    Leave(ResultRefs(q), rest, moved, s.place, Replied(g), to);
    LeavingKeepsReplies(s.results, s.place, g, count, moved, to);
  }

  lemma LeavingKeepsReplies(
    results: map<string, seq<ResultItem>>, place: Places, g: string, count: nat, moved: seq<Ref>, to: Place)
    requires RepliesAt(results, place) && count <= |Get(results, g)| && (to.Lost? || to.Delivered?)
    requires AllAt(moved, place, Replied(g))
    requires Exactly(ResultRefs(Get(results, g)[count..]), Move(place, moved, to), Replied(g))
    ensures RepliesAt(results[g := Get(results, g)[count..]], Move(place, moved, to))
  {
    var results' := results[g := Get(results, g)[count..]];
    forall h ensures Exactly(ResultRefs(Get(results', h)), Move(place, moved, to), Replied(h)) {
      if h != g {
        assert Exactly(ResultRefs(Get(results, h)), place, Replied(h));
        Bystander(ResultRefs(Get(results, h)), moved, place, Replied(h), to);
      }
    }
  }

  lemma DropKeepsPlaces(s: State, g: string, count: nat)
    requires PlacesOk(s) && count <= |Get(s.results, g)|
    ensures PlacesOk(RunDropResults(s, g, count))
  {
    var s' := RunDropResults(s, g, count);
    FirstResultsLeave(s, g, count, Lost(ResultDropped));
    SameDomain(s.calls, s.place, ResultRefs(Get(s.results, g)[..count]), Replied(g), Lost(ResultDropped));
    WorkersAtDepends(s, s', s'.place);
  }

  lemma DeliveredDomain(calls: Calls, place: Places, ref: Ref, g: string, r: ResultItem)
    requires DomainOk(calls, place) && DeliveredOk(calls, place) && IsAt(place, ref, Replied(g))
    requires ref.parent in calls && ref.index < |calls[ref.parent].futures|
    ensures
      var calls' := Resolve(calls, ref, r);
      var place' := Move(place, [ref], Delivered);
      DomainOk(calls', place') && DeliveredOk(calls', place')
  {
    var calls' := Resolve(calls, ref, r);
    var place' := Move(place, [ref], Delivered);
    forall x
      ensures x in place' <==> IsPushed(calls', x)
      ensures IsAt(place', x, Delivered) <==> IsResolved(calls', x)
    {
      assert x in place <==> IsPushed(calls, x);
      assert IsAt(place, x, Delivered) <==> IsResolved(calls, x);
      assert IsPushed(calls', x) <==> IsPushed(calls, x);
      assert IsResolved(calls', x) <==> IsResolved(calls, x) || x == ref;
    }
  }

  /** The popped result is either delivered to the future of its own child or orphaned. */
  lemma ListenResolvesOwnOrNone(cfg: Config, s: State, g: string)
    requires CallsOk(cfg, s.calls) && PendingOk(s.calls, s.pending) && RepliesOk(cfg, s.calls, s.results)
    requires Get(s.results, g) != []
    ensures
      var r := Get(s.results, g)[0];
      var ref := ResultRef(r);
      var s' := RunListen(s, g);
      || (s'.calls == s.calls && s'.place == Move(s.place, [ref], Lost(Orphaned)))
      || (ref.parent in s.calls && ref.index < |s.calls[ref.parent].futures|
          && s'.calls == Resolve(s.calls, ref, r)
          && s'.place == Move(s.place, [ref], Delivered))
  {
    var r := Get(s.results, g)[0];
    assert r in Get(s.results, g);
    assert ReplyOk(cfg, s.calls, g, r);
    if PendingKey(g, r.requestId) in s.pending {
      ListenerFindsOwner(cfg, s, g, r);
    }
  }

  lemma FirstResultLeaves(s: State, g: string, to: Place)
    requires PlacesOk(s) && Get(s.results, g) != [] && (to.Lost? || to.Delivered?)
    ensures
      var ref := ResultRef(Get(s.results, g)[0]);
      var place' := Move(s.place, [ref], to);
      && AllAt([ref], s.place, Replied(g))
      && QueuesOk(s.work, place') && WorkersAt(s, place')
      && RepliesAt(s.results[g := Get(s.results, g)[1..]], place')
  {
    var q := Get(s.results, g);
    assert q[..1][0] == q[0] && q[..1][1..] == [];
    assert ResultRefs(q[..1]) == [ResultRef(q[0])];
    FirstResultsLeave(s, g, 1, to);
  }

  lemma DeliveryKeepsPlaces(s: State, s': State, g: string)
    requires PlacesOk(s) && Get(s.results, g) != []
    requires
      var r := Get(s.results, g)[0];
      var ref := ResultRef(r);
      && ref.parent in s.calls && ref.index < |s.calls[ref.parent].futures|
      && s'.calls == Resolve(s.calls, ref, r)
      && s'.place == Move(s.place, [ref], Delivered)
    requires s'.work == s.work && s'.workers == s.workers && s'.results == s.results[g := Get(s.results, g)[1..]]
    ensures PlacesOk(s')
  {
    var r := Get(s.results, g)[0];
    FirstResultLeaves(s, g, Delivered);
    assert ResultRef(r) in [ResultRef(r)];
    DeliveredDomain(s.calls, s.place, ResultRef(r), g, r);
    WorkersAtDepends(s, s', s'.place);
  }

  lemma OrphaningKeepsPlaces(s: State, s': State, g: string)
    requires PlacesOk(s) && Get(s.results, g) != []
    requires s'.calls == s.calls && s'.place == Move(s.place, [ResultRef(Get(s.results, g)[0])], Lost(Orphaned))
    requires s'.work == s.work && s'.workers == s.workers && s'.results == s.results[g := Get(s.results, g)[1..]]
    ensures PlacesOk(s')
  {
    FirstResultLeaves(s, g, Lost(Orphaned));
    SameDomain(s.calls, s.place, [ResultRef(Get(s.results, g)[0])], Replied(g), Lost(Orphaned));
    WorkersAtDepends(s, s', s'.place);
  }

  lemma ListenKeepsPlaces(cfg: Config, s: State, g: string)
    requires CallsOk(cfg, s.calls) && PendingOk(s.calls, s.pending) && RepliesOk(cfg, s.calls, s.results)
    requires PlacesOk(s) && Get(s.results, g) != []
    ensures PlacesOk(RunListen(s, g))
  {
    var s' := RunListen(s, g);
    ListenResolvesOwnOrNone(cfg, s, g);
    if s'.calls == s.calls && s'.place == Move(s.place, [ResultRef(Get(s.results, g)[0])], Lost(Orphaned)) {
      OrphaningKeepsPlaces(s, s', g);
    } else {
      DeliveryKeepsPlaces(s, s', g);
    }
  }

  lemma CallsOnly(s: State, s': State)
    requires PlacesOk(s)
    requires s'.place == s.place && s'.work == s.work && s'.results == s.results && s'.workers == s.workers
    requires forall ref :: IsPushed(s'.calls, ref) <==> IsPushed(s.calls, ref)
    requires forall ref :: IsResolved(s'.calls, ref) <==> IsResolved(s.calls, ref)
    ensures PlacesOk(s')
  {
    WorkersAtDepends(s, s', s.place);
    forall ref
      ensures ref in s'.place <==> IsPushed(s'.calls, ref)
      ensures IsAt(s'.place, ref, Delivered) <==> IsResolved(s'.calls, ref)
    {
      assert ref in s.place <==> IsPushed(s.calls, ref);
      assert IsAt(s.place, ref, Delivered) <==> IsResolved(s.calls, ref);
    }
  }

  lemma StopKeepsPlaces(s: State, g: string)
    requires PlacesOk(s)
    ensures PlacesOk(RunStop(s, g))
  {
    var s' := RunStop(s, g);
    forall ref
      ensures IsPushed(s'.calls, ref) <==> IsPushed(s.calls, ref)
      ensures IsResolved(s'.calls, ref) <==> IsResolved(s.calls, ref)
    {
      if ref.parent in s.calls && ref.index < |s.calls[ref.parent].futures| {
        StopFutureEffect(s, g, s.calls[ref.parent], ref.index);
      }
    }
    CallsOnly(s, s');
  }

  lemma SubmitKeepsPlaces(s: State, req: Request)
    requires PlacesOk(s) && req.id !in s.calls
    ensures PlacesOk(RunSubmit(s, req))
  {
    CallsOnly(s, RunSubmit(s, req));
  }

  lemma RegisterKeepsPlaces(s: State, p: string)
    requires PlacesOk(s) && p in s.calls
    ensures PlacesOk(RunRegister(s, p))
  {
    CallsOnly(s, RunRegister(s, p));
  }

  lemma ConcludeKeepsPlaces(s: State, p: string, outcome: Outcome)
    requires PlacesOk(s) && p in s.calls
    ensures PlacesOk(Conclude(s, p, outcome))
  {
    CallsOnly(s, Conclude(s, p, outcome));
  }

  lemma CloseKeepsPlaces(s: State, g: string)
    requires PlacesOk(s)
    ensures PlacesOk(RunClose(s, g))
  {
    CallsOnly(s, RunClose(s, g));
  }

  lemma PeekKeepsPlaces(s: State, w: nat, lane: Lane, nowMs: int)
    requires PlacesOk(s)
    ensures PlacesOk(RunPeek(s, w, lane, nowMs))
  {
    CallsOnly(s, RunPeek(s, w, lane, nowMs));
  }

  lemma EndKeepsPlaces(cfg: Config, s: State, step: Step)
    requires ValidConfig(cfg) && Enabled(cfg, s, step) && PlacesOk(s) && IsEnd(step)
    ensures PlacesOk(Apply(cfg, s, step))
  {
    match step
    case Return(p) => ConcludeKeepsPlaces(s, p, Concluded(s.calls[p].req, Gathered(s.calls[p].futures)));
    case TimeOut(p) => ConcludeKeepsPlaces(s, p, Raised(TimedOut(s.calls[p].req.lane)));
    case RaiseStopped(p, i) => ConcludeKeepsPlaces(s, p, Raised(ClientStopped(ChildId(s.calls[p].req, i))));
    case Interrupt(p, message) => ConcludeKeepsPlaces(s, p, Raised(Interrupted(message)));
  }

  lemma GatewayKeepsPlaces(cfg: Config, s: State, step: Step)
    requires ValidConfig(cfg) && Enabled(cfg, s, step) && PlacesOk(s) && IsGatewayStep(step) && !IsEnd(step)
    requires CallsOk(cfg, s.calls) && PendingOk(s.calls, s.pending) && RepliesOk(cfg, s.calls, s.results)
    ensures PlacesOk(Apply(cfg, s, step))
  {
    match step
    case Submit(req, _, _) => SubmitKeepsPlaces(s, req);
    case Register(p) => RegisterKeepsPlaces(s, p);
    case Push(p) => PushKeepsPlaces(cfg, s, p);
    case Listen(g) => ListenKeepsPlaces(cfg, s, g);
    case Close(g) => CloseKeepsPlaces(s, g);
    case Stop(g) => StopKeepsPlaces(s, g);
  }

  lemma OutsideKeepsPlaces(cfg: Config, s: State, step: Step)
    requires ValidConfig(cfg) && Enabled(cfg, s, step) && DataOk(cfg, s) && PlacesOk(s) && !IsGatewayStep(step)
    ensures PlacesOk(Apply(cfg, s, step))
  {
    match step
    case PushMalformed(lane, raw) => MalformedKeepsPlaces(s, lane, raw);
    case Peek(w, lane, nowMs) => PeekKeepsPlaces(s, w, lane, nowMs);
    case Claim(w, lane, nowMs) => ClaimKeepsPlaces(cfg, s, w, lane, nowMs);
    case ModelAnswers(w, outcome) => ModelAnswersKeepsPlaces(s, w, outcome);
    case Publish(w) => PublishKeepsPlaces(cfg, s, w);
    case Crash(w) => CrashKeepsPlaces(s, w);
    case DropResults(g, count) => DropKeepsPlaces(s, g, count);
  }

  lemma StepKeepsPlaces(cfg: Config, s: State, step: Step)
    requires ValidConfig(cfg) && Enabled(cfg, s, step) && DataOk(cfg, s) && PlacesOk(s)
    ensures PlacesOk(Apply(cfg, s, step))
  {
    if IsEnd(step) {
      EndKeepsPlaces(cfg, s, step);
    } else if IsGatewayStep(step) {
      GatewayKeepsPlaces(cfg, s, step);
    } else {
      OutsideKeepsPlaces(cfg, s, step);
    }
  }
}
