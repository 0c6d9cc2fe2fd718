/** The shared queues: the commands that RedisBatchQueue sends and what they do to the lists Redis holds. */
module RedisQueue {
  import opened QueueModels
  import opened RedisKeys
  import opened Claiming

  function ListAt<T>(lists: map<string, seq<T>>, key: string): seq<T> {
    if key in lists then lists[key] else []
  }

  function AsEntries(items: seq<WorkItem>): (r: seq<Entry>)
    ensures |r| == |items|
    ensures forall k | 0 <= k < |r| :: r[k] == Work(items[k])
  {
    seq(|items|, k requires 0 <= k < |items| => Work(items[k]))
  }

  /** The lists once `entries` have been pushed under `key`. */
  function Appended(lists: map<string, seq<Entry>>, key: string, entries: seq<Entry>): map<string, seq<Entry>> {
    if entries == [] then lists else lists[key := ListAt(lists, key) + entries]
  }

  lemma AppendedNext(lists: map<string, seq<Entry>>, key: string, items: seq<WorkItem>, item: WorkItem)
    ensures
      var before := Appended(lists, key, AsEntries(items));
      before[key := ListAt(before, key) + [Work(item)]] == Appended(lists, key, AsEntries(items + [item]))
  {
    AsEntriesSnoc(items, item);
    var q := ListAt(lists, key);
    if items == [] {
      assert AsEntries(items) + [Work(item)] == [Work(item)];
    } else {
      assert (q + AsEntries(items)) + [Work(item)] == q + (AsEntries(items) + [Work(item)]);
    }
  }

  /** LRANGE: both ends are included, and negative ones count from the back. */
  function Lrange<T>(q: seq<T>, start: int, stop: int): seq<T> {
    var first := if 0 <= start then start else if |q| + start < 0 then 0 else |q| + start;
    var last := if stop < 0 then |q| + stop else if |q| <= stop then |q| - 1 else stop;
    if last < first then [] else q[first..last + 1]
  }

  /** What a scan with a limit covers: at most as many entries as the limit says, but never fewer than one. */
  function Scanned(q: seq<Entry>, maxItems: Option<int>): seq<Entry> {
    match maxItems
    case None => q
    case Some(m) =>
      var most := if m < 1 then 1 else m;
      if |q| <= most then q else q[..most]
  }

  lemma AsEntriesSnoc(items: seq<WorkItem>, item: WorkItem)
    ensures AsEntries(items + [item]) == AsEntries(items) + [Work(item)]
  {
  }

  lemma SameItems(a: seq<WorkItem>, b: seq<WorkItem>)
    requires AsEntries(a) == AsEntries(b)
    ensures a == b
  {
    forall k | 0 <= k < |a| ensures a[k] == b[k] {
      assert AsEntries(a)[k] == AsEntries(b)[k];
    }
  }

  /** Validates what the script returned; the script returns nothing that does not decode. */
  method ParseWorkItems(rawItems: seq<Entry>) returns (parsed: seq<WorkItem>)
    requires forall raw | raw in rawItems :: raw.Work?
    ensures AsEntries(parsed) == rawItems
  {
    parsed := [];
    for i := 0 to |rawItems|
      invariant AsEntries(parsed) == rawItems[..i]
    {
      assert rawItems[i] in rawItems;
      parsed := parsed + [rawItems[i].item];
    }
  }

  /**
   * One Redis server as a queue client sees it. Work and result keys never coincide (WorkAndResultKeysDiffer), so the
   * lists under work keys and those under result keys are kept apart.
   */
  class RedisBatchQueue {
    const keyPrefix: string
    var work: map<string, seq<Entry>>
    var results: map<string, seq<ResultItem>>
    var ttls: map<string, int>

    constructor (keyPrefix: string)
      ensures this.keyPrefix == keyPrefix
      ensures work == map[] && results == map[] && ttls == map[]
    {
      this.keyPrefix := keyPrefix;
      work, results, ttls := map[], map[], map[];
    }

    function WorkQueue(model: string, lane: Lane): seq<Entry>
      reads this`work
    {
      ListAt(work, WorkQueueKey(keyPrefix, model, lane))
    }

    function ResultQueue(gatewayId: string): seq<ResultItem>
      reads this`results
    {
      ListAt(results, ResultQueueKey(keyPrefix, gatewayId))
    }

    /** A command on the key of one lane leaves the queues of all other lanes and models alone. */
    lemma OtherLanesHaveOtherKeys(model: string, lane: Lane)
      ensures forall m, l | m != model || l != lane ::
        WorkQueueKey(keyPrefix, m, l) != WorkQueueKey(keyPrefix, model, lane)
    {
      forall m, l | WorkQueueKey(keyPrefix, m, l) == WorkQueueKey(keyPrefix, model, lane)
        ensures m == model && l == lane
      {
        WorkKeysInjective(keyPrefix, m, l, model, lane);
      }
    }

    /** A command on the key of one gateway leaves the result queues of all other gateways alone. */
    lemma OtherGatewaysHaveOtherKeys(gatewayId: string)
      ensures forall g | g != gatewayId :: ResultQueueKey(keyPrefix, g) != ResultQueueKey(keyPrefix, gatewayId)
    {
      forall g | ResultQueueKey(keyPrefix, g) == ResultQueueKey(keyPrefix, gatewayId) ensures g == gatewayId {
        ResultKeysInjective(keyPrefix, g, gatewayId);
      }
    }

    method EnqueueEmbeddingWork(model: string, lane: Lane, item: WorkItem)
      modifies this`work
      ensures WorkQueue(model, lane) == old(WorkQueue(model, lane)) + [Work(item)]
      ensures work == old(work)[WorkQueueKey(keyPrefix, model, lane) := WorkQueue(model, lane)]
      ensures forall m, l | m != model || l != lane :: WorkQueue(m, l) == old(WorkQueue(m, l))
    {
      var key := WorkQueueKey(keyPrefix, model, lane);
      OtherLanesHaveOtherKeys(model, lane);
      work := work[key := ListAt(work, key) + [Work(item)]];
    }

    /** Pushes the result, then renews the queue's time to live unless the worker dies between the two commands. */
    method PublishEmbeddingResult(replyTo: string, result: ResultItem, ttlSeconds: int, dies: bool)
      modifies this`results, this`ttls
      ensures forall g :: ResultQueue(g) == old(ResultQueue(g)) + if g == replyTo then [result] else []
      ensures ttls == if dies then old(ttls) else old(ttls)[ResultQueueKey(keyPrefix, replyTo) := ttlSeconds]
    {
      var key := ResultQueueKey(keyPrefix, replyTo);
      OtherGatewaysHaveOtherKeys(replyTo);
      results := results[key := ListAt(results, key) + [result]];
      if !dies {
        ttls := ttls[key := ttlSeconds];
      }
    }

    /** Returns None where the blocking pop would run into its timeout. */
    method BlpopEmbeddingResult(gatewayId: string) returns (result: Option<ResultItem>)
      modifies this`results
      ensures result == None <==> old(ResultQueue(gatewayId)) == []
      ensures
        if result == None then ResultQueue(gatewayId) == []
        else [result.value] + ResultQueue(gatewayId) == old(ResultQueue(gatewayId))
      ensures forall g | g != gatewayId :: ResultQueue(g) == old(ResultQueue(g))
    {
      var key := ResultQueueKey(keyPrefix, gatewayId);
      var q := ListAt(results, key);
      if q == [] {
        return None;
      }
      OtherGatewaysHaveOtherKeys(gatewayId);
      results := results[key := q[1..]];
      return Some(q[0]);
    }

    method PeekOldestEmbeddingWork(model: string, lane: Lane) returns (oldest: Option<WorkItem>)
      ensures oldest == OldestItem(WorkQueue(model, lane))
      ensures
        var q := WorkQueue(model, lane);
        oldest.Some? <==> q != [] && q[0].Work?
      ensures oldest.Some? ==> Work(oldest.value) == WorkQueue(model, lane)[0]
    {
      var q := ListAt(work, WorkQueueKey(keyPrefix, model, lane));
      if q == [] {
        return None;
      }
      match q[0]
      case Work(item) => return Some(item);
      case Malformed(_) => return None;
    }

    /** The claim script. Redis runs it as one atomic step. */
    method EvalClaimScript(key: string, lim: Limits, nowMs: int) returns (selected: seq<Entry>)
      requires 1 <= lim.maxItems
      modifies this`work
      ensures
        var q := old(ListAt(work, key));
        selected == AsEntries(Batch(q, lim, nowMs)) && ListAt(work, key) == q[Removed(q, lim, nowMs)..]
      ensures forall k | k != key :: ListAt(work, k) == old(ListAt(work, k))
    {
      var q := ListAt(work, key);
      var items := Lrange(q, 0, lim.maxItems - 1);
      assert items == Window(q, lim);
      selected := [];
      var totalTokens: nat := 0;
      var removeCount: nat := 0;
      while removeCount < |items|
        invariant work == old(work) && removeCount <= |items|
        invariant ScanEnd(items, removeCount, lim, nowMs, |selected|, totalTokens) == Removed(q, lim, nowMs)
        invariant selected == AsEntries(LiveItems(items[..removeCount], nowMs))
        invariant totalTokens == ItemTokens(LiveItems(items[..removeCount], nowMs))
      {
        var raw := items[removeCount];
        ghost var live := LiveItems(items[..removeCount], nowMs);
        LiveItemsSnoc(items[..removeCount], raw, nowMs);
        assert items[..removeCount + 1] == items[..removeCount] + [raw] && live + [] == live;
        if raw.Malformed? {
          removeCount := removeCount + 1;
        } else if 0 < raw.item.deadlineMs && raw.item.deadlineMs < nowMs {
          removeCount := removeCount + 1;
        } else if |selected| == 0 || totalTokens + raw.item.tokenCount <= lim.maxTokens {
          ItemTokensSnoc(live, raw.item);
          selected := selected + [raw];
          totalTokens := totalTokens + raw.item.tokenCount;
          removeCount := removeCount + 1;
        } else {
          break;
        }
      }
      assert items[..removeCount] == q[..removeCount];
      if removeCount > 0 {
        work := work[key := q[removeCount..]];
      }
    }

    method ClaimEmbeddingBatch(model: string, lane: Lane, lim: Limits, nowMs: int) returns (parsed: seq<WorkItem>)
      requires 1 <= lim.maxItems
      modifies this`work
      ensures parsed == Batch(old(WorkQueue(model, lane)), lim, nowMs)
      ensures
        WorkQueue(model, lane) == old(WorkQueue(model, lane))[Removed(old(WorkQueue(model, lane)), lim, nowMs)..]
      ensures forall m, l | m != model || l != lane :: WorkQueue(m, l) == old(WorkQueue(m, l))
    {
      var key := WorkQueueKey(keyPrefix, model, lane);
      ghost var q := ListAt(work, key);
      OtherLanesHaveOtherKeys(model, lane);
      var rawItems := EvalClaimScript(key, lim, nowMs);
      parsed := ParseWorkItems(rawItems);
      SameItems(parsed, Batch(q, lim, nowMs));
    }

    method ListEmbeddingWorkRaw(model: string, lane: Lane, maxItems: Option<int>) returns (rawItems: seq<Entry>)
      ensures rawItems == Scanned(WorkQueue(model, lane), maxItems)
      ensures rawItems <= WorkQueue(model, lane)
    {
      var key := WorkQueueKey(keyPrefix, model, lane);
      var stop := -1;
      if maxItems.Some? {
        stop := if maxItems.value - 1 < 0 then 0 else maxItems.value - 1;
      }
      rawItems := Lrange(ListAt(work, key), 0, stop);
    }

    /** The server's side of EXPIRE: a gateway that stays away for too long finds its result queue gone. */
    method ExpireResultQueue(gatewayId: string)
      modifies this`results, this`ttls
      ensures ResultQueue(gatewayId) == []
      ensures forall g | g != gatewayId :: ResultQueue(g) == old(ResultQueue(g))
    {
      var key := ResultQueueKey(keyPrefix, gatewayId);
      OtherGatewaysHaveOtherKeys(gatewayId);
      results, ttls := results[key := []], ttls - {key};
    }
  }
}
