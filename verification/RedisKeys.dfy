/** The strings that route work and results: Redis keys and child request ids. */
module RedisKeys {
  import opened QueueModels

  function LaneName(lane: Lane): string {
    match lane
    case Query => "query"
    case Document => "document"
  }

  function WorkQueueKey(prefix: string, model: string, lane: Lane): string {
    prefix + ":work:embed:" + model + ":" + LaneName(lane)
  }

  function ResultQueueKey(prefix: string, gatewayId: string): string {
    prefix + ":results:" + gatewayId
  }

  lemma PrefixCancels(p: string, a: string, b: string)
    requires p + a == p + b
    ensures a == b
  {
    assert (p + a)[|p|..] == a && (p + b)[|p|..] == b;
  }

  lemma SuffixCancels(a: string, b: string, s: string)
    requires a + s == b + s
    ensures a == b
  {
    assert |a + s| == |b + s|;
    assert (a + s)[..|a|] == a && (b + s)[..|b|] == b;
  }

  /** A work queue is never a result queue, whatever the model and the gateway are called. */
  lemma WorkAndResultKeysDiffer(prefix: string, model: string, lane: Lane, gatewayId: string)
    ensures WorkQueueKey(prefix, model, lane) != ResultQueueKey(prefix, gatewayId)
  {
    assert WorkQueueKey(prefix, model, lane)[|prefix| + 1] == 'w';
    assert ResultQueueKey(prefix, gatewayId)[|prefix| + 1] == 'r';
  }

  /** Two gateways share a result queue only if they share their id. */
  lemma ResultKeysInjective(prefix: string, g: string, h: string)
    requires ResultQueueKey(prefix, g) == ResultQueueKey(prefix, h)
    ensures g == h
  {
    PrefixCancels(prefix + ":results:", g, h);
  }

  /** Two (model, lane) pairs share a work queue only if they are the same pair. */
  lemma WorkKeysInjective(prefix: string, m: string, lane: Lane, n: string, other: Lane)
    requires WorkQueueKey(prefix, m, lane) == WorkQueueKey(prefix, n, other)
    ensures m == n && lane == other
  {
    var a, b := WorkQueueKey(prefix, m, lane), WorkQueueKey(prefix, n, other);
    assert a[|a| - 1] == LaneName(lane)[|LaneName(lane)| - 1];
    assert b[|b| - 1] == LaneName(other)[|LaneName(other)| - 1];
    assert a == prefix + ":work:embed:" + (m + (":" + LaneName(lane)));
    assert b == prefix + ":work:embed:" + (n + (":" + LaneName(other)));
    PrefixCancels(prefix + ":work:embed:", m + (":" + LaneName(lane)), n + (":" + LaneName(other)));
    SuffixCancels(m, n, ":" + LaneName(lane));
  }

  function Digit(d: nat): char
    requires d < 10
  {
    "0123456789"[d]
  }

  /** Decimal notation, as Python's string formatting writes a non-negative integer. */
  function Decimal(n: nat): (s: string)
    ensures s != []
  {
    if n < 10 then [Digit(n)] else Decimal(n / 10) + [Digit(n % 10)]
  }

  lemma {:induction false} DecimalInjective(a: nat, b: nat)
    requires Decimal(a) == Decimal(b)
    ensures a == b
    decreases a
  {
    var s, t := Decimal(a), Decimal(b);
    assert s[|s| - 1] == Digit(a % 10) && t[|t| - 1] == Digit(b % 10);
    if 10 <= a && 10 <= b {
      SuffixCancels(Decimal(a / 10), Decimal(b / 10), [Digit(a % 10)]);
      DecimalInjective(a / 10, b / 10);
    }
  }

  /** The number that a decimal numeral stands for. */
  function NumberOf(s: string): int {
    if s == [] then 0 else 10 * NumberOf(s[..|s| - 1]) + (s[|s| - 1] as int - '0' as int)
  }

  /** Decimal notation stands for the number it was made from, in digits and without a leading zero. */
  lemma {:induction false} DecimalRoundTrip(n: nat)
    ensures NumberOf(Decimal(n)) == n
    ensures forall k | 0 <= k < |Decimal(n)| :: '0' <= Decimal(n)[k] <= '9'
    ensures n != 0 ==> Decimal(n)[0] != '0'
    decreases n
  {
    if 10 <= n {
      DecimalRoundTrip(n / 10);
      var s := Decimal(n);
      assert s[..|s| - 1] == Decimal(n / 10);
    } else {
      assert [Digit(n)][..0] == [];
    }
  }

  /** The id of the `index`-th of `count` children; an only child goes by its parent's id. */
  function ChildRequestId(parent: string, count: nat, index: nat): string {
    if count == 1 then parent else parent + ":" + Decimal(index)
  }

  /** The forms of keys and ids: what the processes of one deployment have to agree on. */
  lemma FormsOfKeys(prefix: string, model: string, gatewayId: string, parent: string, count: nat, index: nat)
    ensures WorkQueueKey(prefix, model, Query) == prefix + ":work:embed:" + model + ":" + "query"
    ensures WorkQueueKey(prefix, model, Document) == prefix + ":work:embed:" + model + ":" + "document"
    ensures ResultQueueKey(prefix, gatewayId) == prefix + ":results:" + gatewayId
    ensures count == 1 ==> ChildRequestId(parent, count, index) == parent
    ensures count != 1 ==> ChildRequestId(parent, count, index) == parent + ":" + Decimal(index)
  {
  }

  predicate ColonFree(s: string) {
    ':' !in s
  }

  lemma ColonFreeHeadsAgree(p: string, s: string, q: string, t: string)
    requires ColonFree(p) && ColonFree(q)
    requires p + ":" + s == q + ":" + t
    ensures p == q && s == t
  {
    var a, b := p + ":" + s, q + ":" + t;
    assert a[|p|] == ':' && b[|q|] == ':';
    if |p| < |q| {
      assert false;
    }
    if |q| < |p| {
      assert false;
    }
    assert a[..|p|] == p && b[..|q|] == q;
    PrefixCancels(p + ":", s, t);
  }

  /**
   * Child ids never clash. Each parent has one child count, given by `count`: a child of one request is never
   * mistaken for another child of that request or for a child of another request.
   */
  lemma ChildIdsInjective(p: string, m: nat, i: nat, q: string, n: nat, j: nat)
    requires ColonFree(p) && ColonFree(q)
    requires i < m && j < n && (p == q ==> m == n)
    requires ChildRequestId(p, m, i) == ChildRequestId(q, n, j)
    ensures p == q && i == j
  {
    assert ':' in p + ":" + Decimal(i) && ':' in q + ":" + Decimal(j);
    if m != 1 && n != 1 {
      ColonFreeHeadsAgree(p, Decimal(i), q, Decimal(j));
      DecimalInjective(i, j);
    }
  }

  /** The colon matters: an only child named like another parent's first child would take its id. */
  lemma ColonsWouldClash(p: string)
    ensures ChildRequestId(p, 2, 0) == ChildRequestId(p + ":0", 1, 0)
  {
    assert Decimal(0) == "0";
  }
}
