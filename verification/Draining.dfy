/** What repeated claims at one clock reading achieve: greedy optimality and a bound on their number. */
module Draining {
  import opened QueueModels
  import opened Claiming

  /** The number of claims that empties a queue when nothing is pushed meanwhile. */
  function ClaimsToDrain(q: seq<Entry>, lim: Limits, nowMs: int): nat
    requires 1 <= lim.maxItems
    decreases |q|
  {
    if q == [] then 0 else 1 + ClaimsToDrain(q[Removed(q, lim, nowMs)..], lim, nowMs)
  }

  /** The prefixes those claims trim, in order. */
  function GreedyBlocks(q: seq<Entry>, lim: Limits, nowMs: int): seq<seq<Entry>>
    requires 1 <= lim.maxItems
    decreases |q|
  {
    if q == [] then []
    else
      var n := Removed(q, lim, nowMs);
      [q[..n]] + GreedyBlocks(q[n..], lim, nowMs)
  }

  /** A way to cut a queue into consecutive blocks that one model call each may carry. */
  predicate IsSchedule(blocks: seq<seq<Entry>>, q: seq<Entry>, lim: Limits, nowMs: int) {
    Flatten(blocks) == q && forall b | b in blocks :: Fits(b, lim, nowMs)
  }

  lemma {:induction false} GreedyIsASchedule(q: seq<Entry>, lim: Limits, nowMs: int)
    requires 1 <= lim.maxItems
    ensures IsSchedule(GreedyBlocks(q, lim, nowMs), q, lim, nowMs)
    ensures |GreedyBlocks(q, lim, nowMs)| == ClaimsToDrain(q, lim, nowMs)
    decreases |q|
  {
    if q != [] {
      var n := Removed(q, lim, nowMs);
      ClaimSpec(q, lim, nowMs);
      GreedyIsASchedule(q[n..], lim, nowMs);
      assert q[..n] + q[n..] == q;
    }
  }

  /** A claim that starts further down the queue reaches at least as far. */
  lemma LaterClaimReachesAsFar(q: seq<Entry>, k: nat, lim: Limits, nowMs: int)
    requires 1 <= lim.maxItems && k <= Removed(q, lim, nowMs)
    ensures Removed(q, lim, nowMs) <= k + Removed(q[k..], lim, nowMs)
  {
    var n := Removed(q, lim, nowMs);
    ClaimSpec(q, lim, nowMs);
    assert q[..k] + q[k..n] + [] == q[..n];
    FitsInfix(q[..k], q[k..n], [], lim, nowMs);
    assert q[k..][..n - k] == q[k..n];
    ClaimIsLongestFit(q[k..], lim, nowMs, n - k);
  }

  /** Greedy stays ahead: starting further down the queue never costs more claims. */
  lemma {:induction false} SuffixNeedsNoMore(q: seq<Entry>, k: nat, lim: Limits, nowMs: int)
    requires 1 <= lim.maxItems && k <= |q|
    ensures ClaimsToDrain(q[k..], lim, nowMs) <= ClaimsToDrain(q, lim, nowMs)
    decreases |q|
  {
    if k == 0 {
      assert q[k..] == q;
    } else if k < |q| {
      var n := Removed(q, lim, nowMs);
      var rest := q[n..];
      if n <= k {
        SuffixNeedsNoMore(rest, k - n, lim, nowMs);
        assert rest[k - n..] == q[k..];
      } else {
        var s := q[k..];
        var m := Removed(s, lim, nowMs);
        LaterClaimReachesAsFar(q, k, lim, nowMs);
        assert rest[k + m - n..] == s[m..];
        SuffixNeedsNoMore(rest, k + m - n, lim, nowMs);
      }
    }
  }

  /** No way of cutting the queue into consecutive admissible batches needs fewer model calls than the claims do. */
  lemma {:induction false} GreedyIsOptimal(q: seq<Entry>, blocks: seq<seq<Entry>>, lim: Limits, nowMs: int)
    requires 1 <= lim.maxItems
    requires IsSchedule(blocks, q, lim, nowMs)
    ensures ClaimsToDrain(q, lim, nowMs) <= |blocks|
    decreases |blocks|
  {
    if q != [] {
      assert blocks != [] && blocks[0] in blocks;
      var k := |blocks[0]|;
      var rest := q[k..];
      assert q[..k] == blocks[0] && rest == Flatten(blocks[1..]);
      GreedyIsOptimal(rest, blocks[1..], lim, nowMs);
      ClaimIsLongestFit(q, lim, nowMs, k);
      ShorterBlockGainsNothing(q, k, lim, nowMs);
    }
  }

  lemma LaterStartNeedsNoMore(q: seq<Entry>, k: nat, n: nat, lim: Limits, nowMs: int)
    requires 1 <= lim.maxItems && k <= n <= |q|
    ensures ClaimsToDrain(q[n..], lim, nowMs) <= ClaimsToDrain(q[k..], lim, nowMs)
  {
    SuffixNeedsNoMore(q[k..], n - k, lim, nowMs);
    assert q[k..][n - k..] == q[n..];
  }

  lemma ShorterBlockGainsNothing(q: seq<Entry>, k: nat, lim: Limits, nowMs: int)
    requires 1 <= lim.maxItems && q != [] && k <= Removed(q, lim, nowMs)
    ensures ClaimsToDrain(q, lim, nowMs) <= 1 + ClaimsToDrain(q[k..], lim, nowMs)
  {
    LaterStartNeedsNoMore(q, k, Removed(q, lim, nowMs), lim, nowMs);
  }

  function LiveTokens(q: seq<Entry>, nowMs: int): nat {
    ItemTokens(LiveItems(q, nowMs))
  }

  /** The claims, other than the last, that trim a full window. */
  function FullWindows(q: seq<Entry>, lim: Limits, nowMs: int): nat
    requires 1 <= lim.maxItems
    decreases |q|
  {
    if q == [] then 0
    else
      var n := Removed(q, lim, nowMs);
      (if n < |q| && n == lim.maxItems then 1 else 0) + FullWindows(q[n..], lim, nowMs)
  }

  /** The claims, other than the last, that stop early at an item that does not fit. */
  function BudgetStops(q: seq<Entry>, lim: Limits, nowMs: int): nat
    requires 1 <= lim.maxItems
    decreases |q|
  {
    if q == [] then 0
    else
      var n := Removed(q, lim, nowMs);
      (if n < |q| && n != lim.maxItems then 1 else 0) + BudgetStops(q[n..], lim, nowMs)
  }

  lemma {:induction false} EveryClaimHasAReason(q: seq<Entry>, lim: Limits, nowMs: int)
    requires 1 <= lim.maxItems
    ensures ClaimsToDrain(q, lim, nowMs) <= 1 + FullWindows(q, lim, nowMs) + BudgetStops(q, lim, nowMs)
    decreases |q|
  {
    if q != [] {
      EveryClaimHasAReason(q[Removed(q, lim, nowMs)..], lim, nowMs);
    }
  }

  lemma {:induction false} FullWindowsBound(q: seq<Entry>, lim: Limits, nowMs: int)
    requires 1 <= lim.maxItems
    ensures FullWindows(q, lim, nowMs) * lim.maxItems <= |q|
    decreases |q|
  {
    if q != [] {
      var rest := q[Removed(q, lim, nowMs)..];
      FullWindowsBound(rest, lim, nowMs);
      Distribute(FullWindows(rest, lim, nowMs), lim.maxItems);
    }
  }

  lemma {:induction false} BudgetStopsBound(q: seq<Entry>, lim: Limits, nowMs: int)
    requires 1 <= lim.maxItems && 0 <= lim.maxTokens
    ensures
      BudgetStops(q, lim, nowMs) * (lim.maxTokens + 1) + ItemTokens(Batch(q, lim, nowMs)) <= 2 * LiveTokens(q, nowMs)
    decreases |q|
  {
    if q != [] {
      var n := Removed(q, lim, nowMs);
      var rest := q[n..];
      BudgetStopsBound(rest, lim, nowMs);
      TokensSplit(q, n, nowMs);
      if n < |q| && n != lim.maxItems {
        NextBatchOverflows(q, lim, nowMs);
        Distribute(BudgetStops(rest, lim, nowMs), lim.maxTokens + 1);
      }
    }
  }

  lemma TokensSplit(q: seq<Entry>, n: nat, nowMs: int)
    requires n <= |q|
    ensures LiveTokens(q, nowMs) == LiveTokens(q[..n], nowMs) + LiveTokens(q[n..], nowMs)
  {
    assert q[..n] + q[n..] == q;
    LiveItemsConcat(q[..n], q[n..], nowMs);
    ItemTokensConcat(LiveItems(q[..n], nowMs), LiveItems(q[n..], nowMs));
  }

  /** A batch that stopped early is followed by one whose first item did not fit into it. */
  lemma NextBatchOverflows(q: seq<Entry>, lim: Limits, nowMs: int)
    requires 1 <= lim.maxItems && Removed(q, lim, nowMs) < |q| && Removed(q, lim, nowMs) != lim.maxItems
    ensures
      var rest := q[Removed(q, lim, nowMs)..];
      lim.maxTokens + 1 <= ItemTokens(Batch(q, lim, nowMs)) + ItemTokens(Batch(rest, lim, nowMs))
  {
    var rest := q[Removed(q, lim, nowMs)..];
    ClaimSpec(q, lim, nowMs);
    HeadLeaves(rest, lim, nowMs);
  }

  lemma Distribute(a: nat, d: nat)
    ensures (1 + a) * d == d + a * d
  {
  }

  lemma {:induction false} ProductMonotone(a: nat, b: nat, d: nat)
    requires a <= b
    ensures a * d <= b * d
  {
    if a < b {
      ProductMonotone(a, b - 1, d);
      Distribute(b - 1, d);
    }
  }

  lemma QuotientBound(k: nat, d: nat, n: nat)
    requires 1 <= d && k * d <= n
    ensures k <= n / d
  {
    var quotient := n / d;
    assert n < quotient * d + d;
    if quotient < k {
      ProductMonotone(quotient + 1, k, d);
      Distribute(quotient, d);
      assert false;
    }
  }

  /** Draining N raw entries that carry T live tokens takes at most 1 + N/maxItems + 2T/(maxTokens+1) claims. */
  lemma DrainBound(q: seq<Entry>, lim: Limits, nowMs: int)
    requires 1 <= lim.maxItems && 0 <= lim.maxTokens
    ensures
      ClaimsToDrain(q, lim, nowMs) <= 1 + |q| / lim.maxItems + 2 * LiveTokens(q, nowMs) / (lim.maxTokens + 1)
  {
    EveryClaimHasAReason(q, lim, nowMs);
    FullWindowsBound(q, lim, nowMs);
    BudgetStopsBound(q, lim, nowMs);
    QuotientBound(FullWindows(q, lim, nowMs), lim.maxItems, |q|);
    QuotientBound(BudgetStops(q, lim, nowMs), lim.maxTokens + 1, 2 * LiveTokens(q, nowMs));
  }
}
