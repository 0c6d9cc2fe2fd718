/** The value of one run of the claim script, and what that value means. */
module Claiming {
  import opened QueueModels

  /** The per-worker settings that a claim is given. */
  datatype Limits = Limits(maxItems: int, maxTokens: int)

  predicate Expired(item: WorkItem, nowMs: int) {
    0 < item.deadlineMs < nowMs
  }

  predicate IsLive(e: Entry, nowMs: int) {
    e.Work? && !Expired(e.item, nowMs)
  }

  function LiveItems(q: seq<Entry>, nowMs: int): seq<WorkItem> {
    if q == [] then []
    else (if IsLive(q[0], nowMs) then [q[0].item] else []) + LiveItems(q[1..], nowMs)
  }

  function ExpiredItems(q: seq<Entry>, nowMs: int): seq<WorkItem> {
    if q == [] then []
    else (if q[0].Work? && Expired(q[0].item, nowMs) then [q[0].item] else []) + ExpiredItems(q[1..], nowMs)
  }

  function Window(q: seq<Entry>, lim: Limits): seq<Entry>
    requires 1 <= lim.maxItems
  {
    if |q| <= lim.maxItems then q else q[..lim.maxItems]
  }

  /** Where the scan of a window stops when it is at position i with `count` items and `total` tokens selected. */
  function ScanEnd(w: seq<Entry>, i: nat, lim: Limits, nowMs: int, count: nat, total: nat): (n: nat)
    requires i <= |w|
    ensures i <= n <= |w|
    decreases |w| - i
  {
    if i == |w| then i
    else if !IsLive(w[i], nowMs) then ScanEnd(w, i + 1, lim, nowMs, count, total)
    else if count == 0 || total + w[i].item.tokenCount <= lim.maxTokens then
      ScanEnd(w, i + 1, lim, nowMs, count + 1, total + w[i].item.tokenCount)
    else i
  }

  /** The number of entries one claim trims from the queue. */
  function Removed(q: seq<Entry>, lim: Limits, nowMs: int): (n: nat)
    requires 1 <= lim.maxItems
    ensures n <= |q| && (q != [] ==> 1 <= n)
  {
    ScanEnd(Window(q, lim), 0, lim, nowMs, 0, 0)
  }

  /** The batch one claim returns. */
  function Batch(q: seq<Entry>, lim: Limits, nowMs: int): seq<WorkItem>
    requires 1 <= lim.maxItems
  {
    LiveItems(q[..Removed(q, lim, nowMs)], nowMs)
  }

  /** The packing rule: the batch is within budget, or it is a single item. */
  predicate WithinBudget(block: seq<Entry>, lim: Limits, nowMs: int) {
    |LiveItems(block, nowMs)| <= 1 || ItemTokens(LiveItems(block, nowMs)) <= lim.maxTokens
  }

  /** A live entry that may not join a batch that has begun. */
  predicate WouldOverflow(block: seq<Entry>, e: Entry, lim: Limits, nowMs: int) {
    && IsLive(e, nowMs)
    && LiveItems(block, nowMs) != []
    && ItemTokens(LiveItems(block, nowMs)) + e.item.tokenCount > lim.maxTokens
  }

  /** A block of entries that one model call may carry. */
  predicate Fits(block: seq<Entry>, lim: Limits, nowMs: int) {
    |block| <= lim.maxItems && WithinBudget(block, lim, nowMs)
  }

  lemma {:induction false} LiveItemsConcat(a: seq<Entry>, b: seq<Entry>, nowMs: int)
    ensures LiveItems(a + b, nowMs) == LiveItems(a, nowMs) + LiveItems(b, nowMs)
  {
    if a == [] {
      assert a + b == b;
    } else {
      LiveItemsConcat(a[1..], b, nowMs);
      assert (a + b)[1..] == a[1..] + b;
    }
  }

  lemma LiveItemsSnoc(q: seq<Entry>, e: Entry, nowMs: int)
    ensures LiveItems(q + [e], nowMs) == LiveItems(q, nowMs) + (if IsLive(e, nowMs) then [e.item] else [])
  {
    LiveItemsConcat(q, [e], nowMs);
    assert [e][1..] == [];
  }

  lemma ItemTokensSnoc(items: seq<WorkItem>, item: WorkItem)
    ensures ItemTokens(items + [item]) == ItemTokens(items) + item.tokenCount
  {
    ItemTokensConcat(items, [item]);
    assert [item][1..] == [];
  }

  /** A window entry is selected, or it is malformed, or it has expired: no token is unaccounted for. */
  lemma {:induction false} LiveAndExpiredTokens(q: seq<Entry>, nowMs: int)
    ensures ItemTokens(LiveItems(q, nowMs)) + ItemTokens(ExpiredItems(q, nowMs)) == Tokens(q)
  {
    if q != [] {
      LiveAndExpiredTokens(q[1..], nowMs);
      ItemTokensConcat(if IsLive(q[0], nowMs) then [q[0].item] else [], LiveItems(q[1..], nowMs));
      ItemTokensConcat(
        if q[0].Work? && Expired(q[0].item, nowMs) then [q[0].item] else [], ExpiredItems(q[1..], nowMs));
      assert ItemTokens([]) == 0;
      if q[0].Work? {
        assert ItemTokens([q[0].item]) == q[0].item.tokenCount + ItemTokens([]);
      }
    }
  }

  /** Dropping entries at either end of a block that fits leaves a block that fits. */
  lemma FitsInfix(a: seq<Entry>, b: seq<Entry>, c: seq<Entry>, lim: Limits, nowMs: int)
    requires Fits(a + b + c, lim, nowMs)
    ensures Fits(b, lim, nowMs)
  {
    LiveItemsConcat(a + b, c, nowMs);
    LiveItemsConcat(a, b, nowMs);
    ItemTokensConcat(LiveItems(a, nowMs) + LiveItems(b, nowMs), LiveItems(c, nowMs));
    ItemTokensConcat(LiveItems(a, nowMs), LiveItems(b, nowMs));
  }

  lemma Extend(done: seq<Entry>, e: Entry, lim: Limits, nowMs: int)
    requires WithinBudget(done, lim, nowMs) && !WouldOverflow(done, e, lim, nowMs)
    ensures WithinBudget(done + [e], lim, nowMs)
    ensures
      if IsLive(e, nowMs) then
        && |LiveItems(done + [e], nowMs)| == |LiveItems(done, nowMs)| + 1
        && ItemTokens(LiveItems(done + [e], nowMs)) == ItemTokens(LiveItems(done, nowMs)) + e.item.tokenCount
      else LiveItems(done + [e], nowMs) == LiveItems(done, nowMs)
  {
    LiveItemsSnoc(done, e, nowMs);
    if IsLive(e, nowMs) {
      ItemTokensSnoc(LiveItems(done, nowMs), e.item);
    }
  }

  /** Where the scan stops once it has passed the first i entries of the window. */
  function ScanFrom(w: seq<Entry>, i: nat, lim: Limits, nowMs: int): (n: nat)
    requires i <= |w|
    ensures i <= n <= |w|
  {
    var live := LiveItems(w[..i], nowMs);
    ScanEnd(w, i, lim, nowMs, |live|, ItemTokens(live))
  }

  lemma ScanStep(w: seq<Entry>, i: nat, lim: Limits, nowMs: int)
    requires i < |w| && WithinBudget(w[..i], lim, nowMs)
    ensures
      if WouldOverflow(w[..i], w[i], lim, nowMs) then ScanFrom(w, i, lim, nowMs) == i
      else ScanFrom(w, i, lim, nowMs) == ScanFrom(w, i + 1, lim, nowMs) && WithinBudget(w[..i + 1], lim, nowMs)
  {
    if !WouldOverflow(w[..i], w[i], lim, nowMs) {
      Extend(w[..i], w[i], lim, nowMs);
      assert w[..i] + [w[i]] == w[..i + 1];
    }
  }

  /** What the scan passes over satisfies the packing rule, and the entry it stops at would break it. */
  lemma {:induction false} ScanIsMaximal(w: seq<Entry>, i: nat, lim: Limits, nowMs: int)
    requires i <= |w| && WithinBudget(w[..i], lim, nowMs)
    ensures WithinBudget(w[..ScanFrom(w, i, lim, nowMs)], lim, nowMs)
    ensures
      var n := ScanFrom(w, i, lim, nowMs);
      n < |w| ==> WouldOverflow(w[..n], w[n], lim, nowMs)
    decreases |w| - i
  {
    if i < |w| {
      ScanStep(w, i, lim, nowMs);
      if !WouldOverflow(w[..i], w[i], lim, nowMs) {
        ScanIsMaximal(w, i + 1, lim, nowMs);
      }
    }
  }

  /**
   * The exact specification of a claim, without its loop: the batch is within budget or a single item, and when
   * an entry of the window is left over then it is live and would take the batch past the budget.
   */
  lemma ClaimSpec(q: seq<Entry>, lim: Limits, nowMs: int)
    requires 1 <= lim.maxItems
    ensures Fits(q[..Removed(q, lim, nowMs)], lim, nowMs)
    ensures
      var n := Removed(q, lim, nowMs);
      n < |q| && n < lim.maxItems ==> WouldOverflow(q[..n], q[n], lim, nowMs)
  {
    var w := Window(q, lim);
    ScanIsMaximal(w, 0, lim, nowMs);
    var n := Removed(q, lim, nowMs);
    assert w[..n] == q[..n];
  }

  /** A claim trims the longest prefix that one model call may carry, and every shorter prefix fits too. */
  lemma ClaimIsLongestFit(q: seq<Entry>, lim: Limits, nowMs: int, k: nat)
    requires 1 <= lim.maxItems && k <= |q|
    ensures Fits(q[..k], lim, nowMs) <==> k <= Removed(q, lim, nowMs)
  {
    var n := Removed(q, lim, nowMs);
    ClaimSpec(q, lim, nowMs);
    if k <= n {
      assert [] + q[..k] + q[k..n] == q[..n];
      FitsInfix([], q[..k], q[k..n], lim, nowMs);
    } else if Fits(q[..k], lim, nowMs) {
      assert [] + q[..n + 1] + q[n + 1..k] == q[..k];
      FitsInfix([], q[..n + 1], q[n + 1..k], lim, nowMs);
      assert q[..n + 1] == q[..n] + [q[n]];
      LiveItemsSnoc(q[..n], q[n], nowMs);
      ItemTokensSnoc(Batch(q, lim, nowMs), q[n].item);
      assert false;
    }
  }

  /** The head of a non-empty queue never blocks it: the claim trims it, and returns it first when it is live. */
  lemma HeadLeaves(q: seq<Entry>, lim: Limits, nowMs: int)
    requires 1 <= lim.maxItems && q != []
    ensures 1 <= Removed(q, lim, nowMs)
    ensures IsLive(q[0], nowMs) ==> Batch(q, lim, nowMs) != [] && Batch(q, lim, nowMs)[0] == q[0].item
  {
  }
}
