/** The replica recommender, over exact reals. */
module Autoscaling {
  import opened QueueModels

  datatype Recommendation = Recommendation(
    tokenBacklog: nat,
    tokensPerSecondPerReplica: real,
    currentReplicas: nat,
    estimatedDrainTimeSeconds: real,
    recommendedReplicas: int)

  datatype RecommendationError = MaxBelowMin | FieldOutOfRange

  /** What stands for an infinite drain time. */
  const NEVER := 1000000000000000000000000000000.0

  const LEAST_CAPACITY := 0.000000001

  function Ceil(x: real): int {
    -((-x).Floor)
  }

  function SafeRate(rate: real): real {
    if rate < 0.0 then 0.0 else rate
  }

  function Floored(capacity: real): real {
    if capacity < LEAST_CAPACITY then LEAST_CAPACITY else capacity
  }

  /** The tokens that one replica is taken to drain within the target time. */
  function Capacity(rate: real, target: real): real {
    Floored(target * SafeRate(rate))
  }

  function Clamp(n: int, low: int, high: int): int {
    var atLeast := if low < n then n else low;
    if high < atLeast then high else atLeast
  }

  function RawReplicas(backlog: int, rate: real, current: int, target: real, minReplicas: int, maxReplicas: int): int {
    if backlog <= 0 then minReplicas
    else if rate <= 0.0 || current <= 0 then maxReplicas
    else Ceil(backlog as real / Capacity(rate, target))
  }

  function DrainTime(backlog: int, rate: real, current: int): real {
    if backlog <= 0 then 0.0
    else if rate <= 0.0 || current <= 0 then NEVER
    else backlog as real / (rate * current as real)
  }

  function RecommendReplicas(
    backlog: int, rate: real, current: int, target: real, minReplicas: int, maxReplicas: int)
    : Result<Recommendation, RecommendationError>
  {
    if maxReplicas < minReplicas then Failure(MaxBelowMin)
    else if target <= 0.0 || minReplicas < 0 then Failure(FieldOutOfRange)
    else
      Success(Recommendation(
        if backlog < 0 then 0 else backlog,
        SafeRate(rate),
        if current < 0 then 0 else current,
        DrainTime(backlog, rate, current),
        Clamp(RawReplicas(backlog, rate, current, target, minReplicas, maxReplicas), minReplicas, maxReplicas)))
  }

  /** n replicas drain the backlog within the target time. */
  predicate Suffices(n: int, backlog: int, rate: real, target: real) {
    backlog as real <= n as real * Capacity(rate, target)
  }

  lemma DivisionBound(b: real, c: real, n: real)
    requires 0.0 < c
    ensures b / c <= n <==> b <= n * c
  {
    var x := b / c;
    assert x * c == b;
    ProductOrder(x, n, c);
    ProductOrder(n, x, c);
  }

  lemma ProductOrder(x: real, y: real, c: real)
    requires 0.0 < c
    ensures x <= y ==> x * c <= y * c
    ensures x < y ==> x * c < y * c
  {
    if x < y {
      assert 0.0 < (y - x) * c;
    }
  }

  lemma CeilIsLeast(x: real, n: int)
    ensures Ceil(x) <= n <==> x <= n as real
  {
  }

  lemma RawIsLeast(b: int, c: real, n: int)
    requires 0.0 < c
    ensures Ceil(b as real / c) <= n <==> b as real <= n as real * c
  {
    CeilIsLeast(b as real / c, n);
    DivisionBound(b as real, c, n as real);
  }

  /**
   * The recommendation, exactly, for all inputs. Bounds or a target that make no sense are refused. Otherwise it is the
   * minimum when there is no backlog, the maximum when there is no throughput, and in all other cases the least
   * admissible number of replicas that suffices, or the maximum when none does.
   */
  lemma LeastSufficientReplicas(
    backlog: int, rate: real, current: int, target: real, minReplicas: int, maxReplicas: int)
    ensures
      var r := RecommendReplicas(backlog, rate, current, target, minReplicas, maxReplicas);
      && (r.Failure? <==> maxReplicas < minReplicas || target <= 0.0 || minReplicas < 0)
      && (r.Success? ==>
        var n := r.value.recommendedReplicas;
        && minReplicas <= n <= maxReplicas
        && if backlog <= 0 then n == minReplicas
           else if rate <= 0.0 || current <= 0 then n == maxReplicas
           else
             && (Suffices(n, backlog, rate, target) || n == maxReplicas)
             && forall k | minReplicas <= k < n :: !Suffices(k, backlog, rate, target))
  {
    var r := RecommendReplicas(backlog, rate, current, target, minReplicas, maxReplicas);
    var c := Capacity(rate, target);
    if r.Success? {
      RawIsLeast(backlog, c, r.value.recommendedReplicas);
      forall k | minReplicas <= k < r.value.recommendedReplicas && 0 < backlog && 0.0 < rate && 0 < current
        ensures !Suffices(k, backlog, rate, target)
      {
        RawIsLeast(backlog, c, k);
      }
    }
  }

  lemma RawMonotone(b: int, b': int, c: real, c': real)
    requires b <= b' && 0 <= b && 0.0 < c' <= c
    ensures Ceil(b as real / c) <= Ceil(b' as real / c')
  {
    var n := Ceil(b' as real / c');
    RawIsLeast(b', c', n);
    RawIsLeast(b, c, n);
    assert 0.0 <= n as real by {
      if n < 0 {
        ProductOrder(n as real, 0.0, c');
      }
    }
    assert n as real * c' <= n as real * c by {
      assert 0.0 <= n as real * (c - c');
    }
  }

  lemma CapacityMonotone(rate: real, rate': real, target: real)
    requires rate <= rate' && 0.0 < target
    ensures 0.0 < Capacity(rate, target) <= Capacity(rate', target)
  {
    ScaledOrder(target, SafeRate(rate), SafeRate(rate'));
    FloorOrder(target * SafeRate(rate), target * SafeRate(rate'));
  }

  lemma FloorOrder(x: real, y: real)
    requires x <= y
    ensures 0.0 < Floored(x) <= Floored(y)
  {
  }

  lemma ScaledOrder(c: real, x: real, y: real)
    requires 0.0 < c && x <= y
    ensures c * x <= c * y
  {
    ProductOrder(x, y, c);
  }

  lemma Reassociate(x: real, y: real, z: real)
    ensures x * (y * z) == z * (x * y)
  {
  }

  lemma PositiveProduct(x: real, y: real)
    requires 0.0 < x && 0.0 < y
    ensures 0.0 < x * y
  {
  }

  /** More backlog never lowers the recommendation, and a faster replica never raises it, whatever the other inputs. */
  lemma RecommendationIsMonotone(
    backlog: int, backlog': int, rate: real, rate': real, current: int, target: real,
    minReplicas: int, maxReplicas: int)
    requires backlog <= backlog' && rate' <= rate
    requires 0.0 < target && 0 <= minReplicas <= maxReplicas
    ensures
      RecommendReplicas(backlog, rate, current, target, minReplicas, maxReplicas).value.recommendedReplicas
      <= RecommendReplicas(backlog', rate', current, target, minReplicas, maxReplicas).value.recommendedReplicas
  {
    CapacityMonotone(rate', rate, target);
    if 0 < backlog {
      RawMonotone(backlog, backlog', Capacity(rate, target), Capacity(rate', target));
    }
  }

  /** What else a recommendation reports: the inputs as far as they make sense, and the drain time. */
  lemma ReportIsExact(backlog: int, rate: real, current: int, target: real, minReplicas: int, maxReplicas: int)
    requires minReplicas <= maxReplicas && 0 <= minReplicas && 0.0 < target
    ensures
      var r := RecommendReplicas(backlog, rate, current, target, minReplicas, maxReplicas);
      && r.Success?
      && (if 0 <= backlog then r.value.tokenBacklog == backlog else r.value.tokenBacklog == 0)
      && (if 0 <= current then r.value.currentReplicas == current else r.value.currentReplicas == 0)
      && (if 0.0 <= rate then r.value.tokensPerSecondPerReplica == rate else r.value.tokensPerSecondPerReplica == 0.0)
      && (backlog <= 0 ==> r.value.estimatedDrainTimeSeconds == 0.0)
      && (0 < backlog && (rate <= 0.0 || current <= 0) ==>
        r.value.estimatedDrainTimeSeconds == 1000000000000000000000000000000.0)
      && (0 < backlog && 0.0 < rate && 0 < current ==>
        r.value.estimatedDrainTimeSeconds * (rate * current as real) == backlog as real)
  {
    if 0 < backlog && 0.0 < rate && 0 < current {
      PositiveProduct(rate, current as real);
      QuotientTimesDivisor(backlog as real, rate * current as real);
    }
  }

  lemma QuotientTimesDivisor(b: real, c: real)
    requires 0.0 < c
    ensures b / c * c == b
  {
  }

  /** Which of the two errors a refused call raises. */
  lemma RefusalIsExact(backlog: int, rate: real, current: int, target: real, minReplicas: int, maxReplicas: int)
    ensures
      var r := RecommendReplicas(backlog, rate, current, target, minReplicas, maxReplicas);
      && (r == Failure(MaxBelowMin) <==> maxReplicas < minReplicas)
      && (r == Failure(FieldOutOfRange) <==> minReplicas <= maxReplicas && (target <= 0.0 || minReplicas < 0))
  {
  }

  lemma EstimateMeans(backlog: int, rate: real, current: int, target: real)
    requires 0 < backlog && 0.0 < rate && 0 < current && 0.0 < target
    ensures DrainTime(backlog, rate, current) <= target <==> backlog as real <= current as real * (target * rate)
  {
    var n := current as real;
    PositiveProduct(rate, n);
    DivisionBound(backlog as real, rate * n, target);
    Reassociate(target, rate, n);
  }

  /** Sufficing is what it should be as long as the floor that guards the division is out of play. */
  lemma SufficesMeansInTime(n: int, backlog: int, rate: real, target: real)
    requires 0 < backlog && 0.0 < rate && 0 < n && 0.0 < target && 0.000000001 <= target * rate
    ensures Suffices(n, backlog, rate, target) <==> DrainTime(backlog, rate, n) <= target
  {
    CapacityIsProduct(rate, target);
    EstimateMeans(backlog, rate, n, target);
  }

  /**
   * The recommendation in terms of time: as long as the floor is out of play it is the least admissible number of
   * replicas whose drain time is within the target, or the maximum when none is fast enough.
   */
  lemma LeastReplicasInTime(
    backlog: int, rate: real, current: int, target: real, minReplicas: int, maxReplicas: int)
    requires 0 < backlog && 0.0 < rate && 0 < current && 0.0 < target && 0.000000001 <= target * rate
    requires 0 <= minReplicas <= maxReplicas
    ensures
      var n := RecommendReplicas(backlog, rate, current, target, minReplicas, maxReplicas).value.recommendedReplicas;
      && (n == maxReplicas || (0 < n && DrainTime(backlog, rate, n) <= target))
      && forall k | minReplicas <= k < n && 0 < k :: target < DrainTime(backlog, rate, k)
  {
    LeastSufficientReplicas(backlog, rate, current, target, minReplicas, maxReplicas);
    var n := RecommendReplicas(backlog, rate, current, target, minReplicas, maxReplicas).value.recommendedReplicas;
    if n == 0 {
      assert !Suffices(0, backlog, rate, target);
    } else {
      SufficesMeansInTime(n, backlog, rate, target);
    }
    forall k | minReplicas <= k < n && 0 < k ensures target < DrainTime(backlog, rate, k) {
      SufficesMeansInTime(k, backlog, rate, target);
    }
  }

  /**
   * The drain estimate is within the target when the current replicas reach the unclamped recommendation, and not
   * otherwise. This holds exactly when the floor is out of play or the backlog is outside the range that it distorts.
   */
  lemma EstimateAgrees(backlog: int, rate: real, current: int, target: real, minReplicas: int, maxReplicas: int)
    requires 0 < backlog && 0.0 < rate && 0 < current && 0.0 < target
    ensures
      (DrainTime(backlog, rate, current) <= target <==>
       RawReplicas(backlog, rate, current, target, minReplicas, maxReplicas) <= current)
      <==>
      || 0.000000001 <= target * rate
      || backlog as real <= current as real * (target * rate)
      || current as real * 0.000000001 < backlog as real
  {
    EstimateMeans(backlog, rate, current, target);
    RawIsLeast(backlog, Capacity(rate, target), current);
    if LEAST_CAPACITY <= target * rate {
      CapacityIsProduct(rate, target);
    } else {
      assert Capacity(rate, target) == LEAST_CAPACITY;
      ProductOrder(target * rate, LEAST_CAPACITY, current as real);
      Commute(target * rate, current as real);
      Commute(LEAST_CAPACITY, current as real);
    }
  }

  lemma Commute(x: real, y: real)
    ensures x * y == y * x
  {
  }

  lemma CapacityIsProduct(rate: real, target: real)
    requires 0.0 < rate && 0.0 < target && LEAST_CAPACITY <= target * rate
    ensures Capacity(rate, target) == target * rate
  {
    ScaledOrder(target, SafeRate(rate), rate);
    ScaledOrder(target, rate, SafeRate(rate));
  }

  /** Below that floor the estimate can miss the target although the recommendation is content. */
  lemma FloorHidesOverload()
    ensures
      var rate, target := 0.0000000001, 1.0;
      && RawReplicas(1, rate, 1000000000, target, 0, 1000000000) <= 1000000000
      && target < DrainTime(1, rate, 1000000000)
  {
    var rate, target := 0.0000000001, 1.0;
    assert Capacity(rate, target) == LEAST_CAPACITY;
    RawIsLeast(1, LEAST_CAPACITY, 1000000000);
    DivisionBound(1.0, rate * 1000000000.0, target);
  }
}
