/** Queue statistics: the token backlog, ages and malformed entries of a work queue. */
module QueueInspection {
  import opened QueueModels
  import opened RedisQueue

  datatype QueueStats = QueueStats(
    items: nat, tokenBacklog: nat, oldestItemAgeMs: nat, newestItemAgeMs: nat, malformedItems: nat)

  function CreatedTimes(q: seq<Entry>): seq<int> {
    if q == [] then []
    else
      var last := q[|q| - 1];
      CreatedTimes(q[..|q| - 1]) + if last.Work? then [last.item.createdAtMs] else []
  }

  ghost predicate IsLeast(m: int, times: seq<int>) {
    m in times && forall t | t in times :: m <= t
  }

  ghost predicate IsGreatest(m: int, times: seq<int>) {
    m in times && forall t | t in times :: t <= m
  }

  function AgeMs(nowMs: int, createdMs: int): nat {
    if nowMs - createdMs < 0 then 0 else nowMs - createdMs
  }

  /** The positions of a queue that hold text which does not decode. */
  function MalformedAt(q: seq<Entry>): set<nat> {
    set k: nat | k < |q| && q[k].Malformed?
  }

  /** The item at position k was pushed no later than any other item of the queue. */
  ghost predicate IsOldest(q: seq<Entry>, k: nat) {
    k < |q| && q[k].Work?
    && forall l | 0 <= l < |q| && q[l].Work? :: q[k].item.createdAtMs <= q[l].item.createdAtMs
  }

  ghost predicate IsNewest(q: seq<Entry>, k: nat) {
    k < |q| && q[k].Work?
    && forall l | 0 <= l < |q| && q[l].Work? :: q[l].item.createdAtMs <= q[k].item.createdAtMs
  }

  lemma {:induction false} CreatedTimesOf(q: seq<Entry>, t: int)
    ensures t in CreatedTimes(q) <==> exists k :: 0 <= k < |q| && q[k].Work? && q[k].item.createdAtMs == t
  {
    if q != [] {
      var front, last := q[..|q| - 1], |q| - 1;
      CreatedTimesOf(front, t);
      assert forall k | 0 <= k < last :: front[k] == q[k];
    }
  }

  lemma {:induction false} CreatedTimesCount(q: seq<Entry>)
    ensures |CreatedTimes(q)| + |MalformedAt(q)| == |q|
  {
    if q == [] {
      assert MalformedAt(q) == {};
    } else {
      var front, last := q[..|q| - 1], |q| - 1;
      CreatedTimesCount(front);
      assert MalformedAt(q) == MalformedAt(front) + if q[last].Malformed? then {last} else {};
      assert last !in MalformedAt(front);
    }
  }

  lemma NoTimesNoItems(q: seq<Entry>)
    requires CreatedTimes(q) == []
    ensures forall k | 0 <= k < |q| :: q[k].Malformed?
  {
    forall k | 0 <= k < |q| ensures q[k].Malformed? {
      if q[k].Work? {
        CreatedTimesOf(q, q[k].item.createdAtMs);
      }
    }
  }

  lemma OldestOf(q: seq<Entry>, m: int) returns (k: nat)
    requires IsLeast(m, CreatedTimes(q))
    ensures IsOldest(q, k) && q[k].item.createdAtMs == m
  {
    CreatedTimesOf(q, m);
    k :| k < |q| && q[k].Work? && q[k].item.createdAtMs == m;
    forall l | 0 <= l < |q| && q[l].Work? ensures m <= q[l].item.createdAtMs {
      CreatedTimesOf(q, q[l].item.createdAtMs);
    }
  }

  lemma NewestOf(q: seq<Entry>, m: int) returns (k: nat)
    requires IsGreatest(m, CreatedTimes(q))
    ensures IsNewest(q, k) && q[k].item.createdAtMs == m
  {
    CreatedTimesOf(q, m);
    k :| k < |q| && q[k].Work? && q[k].item.createdAtMs == m;
    forall l | 0 <= l < |q| && q[l].Work? ensures q[l].item.createdAtMs <= m {
      CreatedTimesOf(q, q[l].item.createdAtMs);
    }
  }

  lemma TokensOfPrefix(q: seq<Entry>, i: nat)
    requires i < |q|
    ensures Tokens(q[..i + 1]) == Tokens(q[..i]) + if q[i].Work? then q[i].item.tokenCount else 0
  {
    assert q[..i + 1] == q[..i] + [q[i]];
    TokensConcat(q[..i], [q[i]]);
    assert [q[i]][1..] == [];
  }

  /** An age is what has passed since, or zero when the clock is behind. */
  predicate IsAge(ageMs: nat, nowMs: int, createdMs: int) {
    if createdMs <= nowMs then createdMs + ageMs == nowMs else ageMs == 0
  }

  /** The statistics of what the scan covers; the ages are those of the item pushed first and the item pushed last. */
  method InspectEmbeddingQueue(
    queue: RedisBatchQueue, model: string, lane: Lane, maxScanItems: Option<int>, nowMs: int)
    returns (stats: QueueStats)
    ensures
      var scanned := Scanned(queue.WorkQueue(model, lane), maxScanItems);
      && stats.items == |scanned|
      && stats.tokenBacklog == Tokens(scanned)
      && stats.malformedItems == |MalformedAt(scanned)|
      && ((forall k | 0 <= k < |scanned| :: scanned[k].Malformed?) ==>
        stats.oldestItemAgeMs == stats.newestItemAgeMs == 0)
      && (forall k: nat | IsOldest(scanned, k) :: IsAge(stats.oldestItemAgeMs, nowMs, scanned[k].item.createdAtMs))
      && (forall k: nat | IsNewest(scanned, k) :: IsAge(stats.newestItemAgeMs, nowMs, scanned[k].item.createdAtMs))
  {
    var rawItems := queue.ListEmbeddingWorkRaw(model, lane, maxScanItems);
    var tokenBacklog, createdTimes, malformedItems := ScanEntries(rawItems);
    if createdTimes == [] {
      NoTimesNoItems(rawItems);
      return QueueStats(|rawItems|, tokenBacklog, 0, 0, malformedItems);
    }
    var least, greatest := LeastAndGreatest(createdTimes);
    AgesAreExact(rawItems, least, greatest, nowMs);
    return QueueStats(
      |rawItems|, tokenBacklog, AgeMs(nowMs, least), AgeMs(nowMs, greatest), malformedItems);
  }

  lemma AgesAreExact(q: seq<Entry>, least: int, greatest: int, nowMs: int)
    requires IsLeast(least, CreatedTimes(q)) && IsGreatest(greatest, CreatedTimes(q))
    ensures exists k :: 0 <= k < |q| && q[k].Work?
    ensures forall k: nat | IsOldest(q, k) :: IsAge(AgeMs(nowMs, least), nowMs, q[k].item.createdAtMs)
    ensures forall k: nat | IsNewest(q, k) :: IsAge(AgeMs(nowMs, greatest), nowMs, q[k].item.createdAtMs)
  {
    var oldest := OldestOf(q, least);
    var newest := NewestOf(q, greatest);
  }

  /** The loop over the entries. */
  method ScanEntries(rawItems: seq<Entry>) returns (tokenBacklog: nat, createdTimes: seq<int>, malformedItems: nat)
    ensures tokenBacklog == Tokens(rawItems) && createdTimes == CreatedTimes(rawItems)
    ensures malformedItems == |MalformedAt(rawItems)|
  {
    tokenBacklog, createdTimes, malformedItems := 0, [], 0;
    for i := 0 to |rawItems|
      invariant tokenBacklog == Tokens(rawItems[..i])
      invariant createdTimes == CreatedTimes(rawItems[..i])
      invariant malformedItems + |createdTimes| == i
    {
      TokensOfPrefix(rawItems, i);
      assert rawItems[..i + 1][..i] == rawItems[..i];
      match rawItems[i]
      case Malformed(_) =>
        malformedItems := malformedItems + 1;
      case Work(item) =>
        tokenBacklog := tokenBacklog + item.tokenCount;
        createdTimes := createdTimes + [item.createdAtMs];
    }
    assert rawItems[..|rawItems|] == rawItems;
    CreatedTimesCount(rawItems);
  }

  method LeastAndGreatest(times: seq<int>) returns (least: int, greatest: int)
    requires times != []
    ensures IsLeast(least, times) && IsGreatest(greatest, times)
  {
    least, greatest := times[0], times[0];
    for i := 1 to |times|
      invariant least in times && greatest in times
      invariant forall k | 0 <= k < i :: least <= times[k] <= greatest
    {
      if times[i] < least {
        least := times[i];
      }
      if greatest < times[i] {
        greatest := times[i];
      }
    }
  }

  /** A limited scan never reports more than there is, and reports all of it once the limit covers the queue. */
  lemma LimitedScanNeverOverReports(q: seq<Entry>, maxItems: Option<int>)
    ensures Tokens(Scanned(q, maxItems)) <= Tokens(q)
    ensures maxItems == None || |q| <= maxItems.value ==> Scanned(q, maxItems) == q
  {
    var s := Scanned(q, maxItems);
    assert s + q[|s|..] == q;
    TokensConcat(s, q[|s|..]);
  }

  /** What a scan covers, exactly: the first entries, as many as the limit says, but the head in any case. */
  lemma ScanIsExact(q: seq<Entry>, m: int)
    ensures Scanned(q, None) == q
    ensures |q| <= m ==> Scanned(q, Some(m)) == q
    ensures 1 <= m <= |q| ==> |Scanned(q, Some(m))| == m
    ensures m <= 1 && q != [] ==> Scanned(q, Some(m)) == [q[0]]
    ensures Scanned(q, Some(m)) <= q
  {
  }

  /** A larger limit never reports less. */
  lemma ScanIsMonotone(q: seq<Entry>, m: int, n: int)
    requires m <= n
    ensures Tokens(Scanned(q, Some(m))) <= Tokens(Scanned(q, Some(n)))
  {
    var s, t := Scanned(q, Some(m)), Scanned(q, Some(n));
    assert s + t[|s|..] == t;
    TokensConcat(s, t[|s|..]);
  }

  /** The limit is kept exactly when it is at least one, or zero with nothing to scan: zero still scans the head. */
  lemma ScanKeepsItsLimit(q: seq<Entry>, m: int)
    ensures |Scanned(q, Some(m))| <= m <==> 1 <= m || (m == 0 && q == [])
  {
  }
}
