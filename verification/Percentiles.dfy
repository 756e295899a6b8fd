/**
 Percentiles read off histograms: request latencies in power-of-two buckets, and
 the runtime's histograms with edges of their own, the outer ones possibly
 infinite. Counts do not overflow and reals are exact.
 */
module Percentiles {

  const BUCKETS: nat := 24
  const MAX_LATENCY: nat := 0x80_0000

  // ---- Which bucket ----

  function Pow2(k: nat): (r: nat)
    ensures r > 0
  {
    if k == 0 then 1 else 2 * Pow2(k - 1)
  }

  function BitLength(n: nat): nat {
    if n == 0 then 0 else 1 + BitLength(n / 2)
  }

  function Bucket(ms: nat): nat {
    if ms <= 1 then 0
    else if ms >= MAX_LATENCY then BUCKETS - 1
    else BitLength(ms)
  }

  lemma {:induction false} BitLengthBrackets(n: nat)
    requires n > 0
    ensures BitLength(n) > 0 && Pow2(BitLength(n) - 1) <= n < Pow2(BitLength(n))
  {
    if n == 1 {
      assert BitLength(1) == 1 + BitLength(0);
      assert Pow2(1) == 2 * Pow2(0);
    } else {
      BitLengthBrackets(n / 2);
      var b := BitLength(n / 2);
      assert Pow2(b) == 2 * Pow2(b - 1) && Pow2(b + 1) == 2 * Pow2(b);
    }
  }

  lemma {:induction false} Pow2Monotone(a: nat, b: nat)
    requires a <= b
    ensures Pow2(a) <= Pow2(b)
    decreases b - a
  {
    if a < b {
      Pow2Monotone(a + 1, b);
    }
  }

  lemma MaxIsPow2()
    ensures Pow2(23) == MAX_LATENCY && Pow2(22) == MAX_LATENCY / 2
  {
    assert Pow2(8) == 256;
    assert Pow2(16) == 65536;
  }

  /** Bucket 0 holds 0 and 1; bucket 1 stays empty; the last one takes everything from 2^22 on. */
  lemma BucketCovers(ms: nat)
    ensures Bucket(ms) < BUCKETS && Bucket(ms) != 1
    ensures ms >= 2 ==> Bucket(ms) >= 2 && Pow2(Bucket(ms) - 1) <= ms
    ensures 2 <= ms < MAX_LATENCY ==> ms < Pow2(Bucket(ms))
  {
    MaxIsPow2();
    if 2 <= ms {
      BitLengthBrackets(ms);
      var b := BitLength(ms);
      assert Pow2(0) == 1 && Pow2(1) == 2;
      assert b > 1;
      if ms < MAX_LATENCY && b >= BUCKETS {
        Pow2Monotone(23, b - 1);
      }
    }
  }

  lemma BucketMonotone(a: nat, b: nat)
    requires a <= b
    ensures Bucket(a) <= Bucket(b)
  {
    BucketCovers(a);
    BucketCovers(b);
    if a >= 2 && b < MAX_LATENCY && Bucket(b) < Bucket(a) {
      Pow2Monotone(Bucket(b), Bucket(a) - 1);
    }
  }

  method LatencyBucket(ms: nat) returns (b: int)
    ensures b == Bucket(ms) && b < BUCKETS
  {
    BucketCovers(ms);
    if ms <= 1 {
      return 0;
    }
    if ms >= MAX_LATENCY {
      return BUCKETS - 1;
    }
    b := 0;
    var x := ms;
    while x > 0
      invariant b + BitLength(x) == BitLength(ms)
    {
      x := x / 2;
      b := b + 1;
    }
    if b >= BUCKETS {
      b := BUCKETS - 1;
    }
  }

  // ---- The scan ----

  /** The sum of the first n counts. */
  function Sum(counts: seq<nat>, n: nat): nat
    requires n <= |counts|
  {
    if n == 0 then 0 else Sum(counts, n - 1) + counts[n - 1]
  }

  lemma {:induction false} SumMonotone(counts: seq<nat>, a: nat, b: nat)
    requires a <= b <= |counts|
    ensures Sum(counts, a) <= Sum(counts, b)
    decreases b - a
  {
    if a < b {
      SumMonotone(counts, a, b - 1);
    }
  }

  /** The bucket in which the running sum reaches the target. */
  ghost predicate Reaches(counts: seq<nat>, target: nat, i: nat) {
    i < |counts| && Sum(counts, i) < target <= Sum(counts, i + 1)
  }

  lemma ReachesOnce(counts: seq<nat>, t: nat, u: nat, i: nat, j: nat)
    requires t <= u && Reaches(counts, t, i) && Reaches(counts, u, j)
    ensures i <= j
  {
    if j < i {
      SumMonotone(counts, j + 1, i);
    }
  }

  /** The rank a quantile asks for: the next whole number, at least 1. */
  function Target(total: nat, p: real): (t: nat)
    requires p >= 0.0
    ensures t >= 1
  {
    var up := Ceil((total as real) * p);
    if up <= 0 then 1 else up
  }

  function Ceil(x: real): int {
    0 - (0.0 - x).Floor
  }

  /** It is the least rank from 1 on that is not below the quantile's share of the total. */
  lemma TargetIsLeast(total: nat, p: real, t: nat)
    requires p >= 0.0 && t >= 1
    ensures (Target(total, p) <= t) == (t as real >= (total as real) * p)
  {
    var x := (total as real) * p;
    assert (Ceil(x) <= t) == (t as real >= x);
  }

  lemma CeilMonotone(x: real, y: real)
    requires x <= y
    ensures Ceil(x) <= Ceil(y)
  {
  }

  lemma ScaleUp(n: real, p: real, q: real)
    requires n >= 0.0 && p <= q
    ensures n * p <= n * q
  {
    var d := q - p;
    assert n * d >= 0.0;
    assert n * q == n * p + n * d;
  }

  lemma TargetInRange(total: nat, p: real)
    requires total > 0 && 0.0 <= p <= 1.0
    ensures Target(total, p) <= total
  {
    ScaleUp(total as real, p, 1.0);
    CeilMonotone((total as real) * p, total as real);
    assert Ceil(total as real) == total;
  }

  lemma TargetMonotone(total: nat, p: real, q: real)
    requires 0.0 <= p <= q
    ensures Target(total, p) <= Target(total, q)
  {
    ScaleUp(total as real, p, q);
    CeilMonotone((total as real) * p, (total as real) * q);
  }

  // ---- Latencies ----

  /** How many observations satisfy a bound. */
  function Below(obs: seq<nat>, x: nat): nat {
    if obs == [] then 0 else Below(obs[1..], x) + if obs[0] < x then 1 else 0
  }

  /** x is the t-th smallest observation. */
  ghost predicate HasRank(obs: seq<nat>, x: nat, t: nat) {
    x in obs && Below(obs, x) < t <= Below(obs, x + 1)
  }

  function InBucket(obs: seq<nat>, i: nat): nat {
    if obs == [] then 0 else InBucket(obs[1..], i) + if Bucket(obs[0]) == i then 1 else 0
  }

  /** The histogram holds these observations. */
  ghost predicate Holds(lat: seq<nat>, obs: seq<nat>) {
    |lat| == BUCKETS && forall i :: 0 <= i < BUCKETS ==> lat[i] == InBucket(obs, i)
  }

  function BucketBelow(obs: seq<nat>, i: nat): nat {
    if obs == [] then 0 else BucketBelow(obs[1..], i) + if Bucket(obs[0]) < i then 1 else 0
  }

  lemma {:induction false} BucketStep(obs: seq<nat>, i: nat)
    ensures BucketBelow(obs, i + 1) == BucketBelow(obs, i) + InBucket(obs, i)
    ensures BucketBelow(obs, 0) == 0
  {
    if obs != [] {
      BucketStep(obs[1..], i);
    }
  }

  lemma {:induction false} SumCounts(lat: seq<nat>, obs: seq<nat>, n: nat)
    requires Holds(lat, obs) && n <= BUCKETS
    ensures Sum(lat, n) == BucketBelow(obs, n)
  {
    if n > 0 {
      SumCounts(lat, obs, n - 1);
      BucketStep(obs, n - 1);
    } else {
      BucketStep(obs, 0);
    }
  }

  /** Buckets are ordered as the values are. */
  lemma {:induction false} BucketsOrder(obs: seq<nat>, x: nat)
    ensures BucketBelow(obs, Bucket(x)) <= Below(obs, x)
    ensures Below(obs, x + 1) <= BucketBelow(obs, Bucket(x) + 1)
  {
    if obs != [] {
      BucketsOrder(obs[1..], x);
      if x <= obs[0] {
        BucketMonotone(x, obs[0]);
      }
      if obs[0] <= x {
        BucketMonotone(obs[0], x);
      }
    }
  }

  lemma {:induction false} AllCounted(obs: seq<nat>)
    ensures BucketBelow(obs, BUCKETS) == |obs|
  {
    if obs != [] {
      BucketCovers(obs[0]);
      AllCounted(obs[1..]);
    }
  }

  /** The scan stops in the bucket of the observation with the wanted rank. */
  lemma ScanFindsRank(lat: seq<nat>, obs: seq<nat>, x: nat, t: nat)
    requires Holds(lat, obs) && HasRank(obs, x, t)
    ensures Reaches(lat, t, Bucket(x))
  {
    BucketCovers(x);
    SumCounts(lat, obs, Bucket(x));
    SumCounts(lat, obs, Bucket(x) + 1);
    BucketsOrder(obs, x);
  }

  /** Every rank belongs to some observation. */
  lemma {:induction false} RankExists(obs: seq<nat>, t: nat, x: nat) returns (y: nat)
    requires 1 <= t <= Below(obs, x)
    ensures HasRank(obs, y, t) && y < x
    decreases x
  {
    if x == 0 {
      NothingBelowZero(obs);
      assert false;
    } else if t <= Below(obs, x - 1) {
      y := RankExists(obs, t, x - 1);
    } else {
      y := x - 1;
      BelowStep(obs, y);
    }
  }

  lemma {:induction false} NothingBelowZero(obs: seq<nat>)
    ensures Below(obs, 0) == 0
  {
    if obs != [] {
      NothingBelowZero(obs[1..]);
    }
  }

  lemma {:induction false} BelowStep(obs: seq<nat>, x: nat)
    ensures Below(obs, x) <= Below(obs, x + 1)
    ensures Below(obs, x) < Below(obs, x + 1) ==> x in obs
  {
    if obs != [] {
      BelowStep(obs[1..], x);
      assert obs == [obs[0]] + obs[1..];
    }
  }

  /** What is reported for a bucket: its midpoint, and 1 for the first. */
  function Reported(i: nat): real {
    if i == 0 then 1.0 else ((Pow2(i - 1) + Pow2(i)) as real) / 2.0
  }

  /** More than three quarters and at most three halves. */
  predicate Close(e: real, x: nat) {
    3.0 * (x as real) / 4.0 < e <= 3.0 * (x as real) / 2.0
  }

  /** The reported value is within three quarters and three halves of the exact one just for values from 1 up to 2^23. */
  lemma ReportedIsCloseIff(x: nat)
    ensures Close(Reported(Bucket(x)), x) == (1 <= x < MAX_LATENCY)
  {
    BucketCovers(x);
    MaxIsPow2();
    if x >= 2 {
      var h := Pow2(Bucket(x) - 1);
      assert Pow2(Bucket(x)) == 2 * h;
      assert Reported(Bucket(x)) == 3.0 * (h as real) / 2.0;
    }
  }

  // ---- A rotation with requests coming in ----

  function Flat(parts: seq<seq<nat>>): seq<nat> {
    if parts == [] then [] else Flat(parts[..|parts| - 1]) + parts[|parts| - 1]
  }

  lemma FlatStep(parts: seq<seq<nat>>, i: nat)
    requires i < |parts|
    ensures Flat(parts[..i + 1]) == Flat(parts[..i]) + parts[i]
  {
    assert parts[..i + 1][..i] == parts[..i];
  }

  /** The live counts when this many buckets are swapped: of `obs` only what is not, of the latecomers everything. */
  ghost predicate Swapping(lat: seq<nat>, obs: seq<nat>, late: seq<nat>, swapped: nat) {
    |lat| == BUCKETS && forall k :: 0 <= k < BUCKETS ==>
      lat[k] == (if k < swapped then 0 else InBucket(obs, k)) + InBucket(late, k)
  }

  /** The reported counts of the swapped buckets; nothing early is in the others. */
  ghost predicate Swapped(lat: seq<nat>, obs: seq<nat>, early: seq<nat>, swapped: nat) {
    |lat| == BUCKETS && forall k :: 0 <= k < BUCKETS ==>
      if k < swapped then lat[k] == InBucket(obs, k) + InBucket(early, k) else InBucket(early, k) == 0
  }

  lemma {:induction false} InBucketAdds(a: seq<nat>, b: seq<nat>, i: nat)
    ensures InBucket(a + b, i) == InBucket(a, i) + InBucket(b, i)
  {
    if a == [] {
      assert a + b == b;
    } else {
      InBucketAdds(a[1..], b, i);
      assert (a + b)[1..] == a[1..] + b;
    }
  }

  ghost function Within(obs: seq<nat>, i: nat): seq<nat> {
    if obs == [] then [] else (if Bucket(obs[0]) == i then [obs[0]] else []) + Within(obs[1..], i)
  }

  ghost function Outside(obs: seq<nat>, i: nat): seq<nat> {
    if obs == [] then [] else (if Bucket(obs[0]) == i then [] else [obs[0]]) + Outside(obs[1..], i)
  }

  lemma {:induction false} Parting(obs: seq<nat>, i: nat)
    ensures multiset(Within(obs, i)) + multiset(Outside(obs, i)) == multiset(obs)
  {
    if obs != [] {
      Parting(obs[1..], i);
      assert obs == [obs[0]] + obs[1..];
    }
  }

  lemma {:induction false} PartingCounts(obs: seq<nat>, i: nat, k: nat)
    ensures InBucket(Within(obs, i), k) == if k == i then InBucket(obs, i) else 0
    ensures InBucket(Outside(obs, i), k) == if k == i then 0 else InBucket(obs, k)
  {
    if obs != [] {
      PartingCounts(obs[1..], i, k);
      InBucketAdds(if Bucket(obs[0]) == i then [obs[0]] else [], Within(obs[1..], i), k);
      InBucketAdds(if Bucket(obs[0]) == i then [] else [obs[0]], Outside(obs[1..], i), k);
    }
  }

  lemma NoneSwapped(live: seq<nat>, prev: seq<nat>, obs: seq<nat>)
    requires Holds(live, obs) && |prev| == BUCKETS
    ensures Swapping(live, obs, [], 0) && Swapped(prev, obs, [], 0)
  {
  }

  lemma SwapOne(live: seq<nat>, prev: seq<nat>, obs: seq<nat>, early: seq<nat>, late: seq<nat>, i: nat)
    requires i < BUCKETS && Swapping(live, obs, late, i) && Swapped(prev, obs, early, i)
    ensures Swapping(live[i := 0], obs, Outside(late, i), i + 1)
    ensures Swapped(prev[i := live[i]], obs, early + Within(late, i), i + 1)
  {
    forall k | 0 <= k < BUCKETS
      ensures InBucket(early + Within(late, i), k) == InBucket(early, k) + if k == i then InBucket(late, i) else 0
      ensures InBucket(Outside(late, i), k) == if k == i then 0 else InBucket(late, k)
    {
      InBucketAdds(early, Within(late, i), k);
      PartingCounts(late, i, k);
    }
    hide InBucket, Within, Outside;
  }

  lemma AllSwapped(live: seq<nat>, prev: seq<nat>, obs: seq<nat>, early: seq<nat>, late: seq<nat>)
    requires Swapping(live, obs, late, BUCKETS) && Swapped(prev, obs, early, BUCKETS)
    ensures Holds(prev, obs + early) && Holds(live, late)
  {
    forall k | 0 <= k < BUCKETS
      ensures InBucket(obs + early, k) == InBucket(obs, k) + InBucket(early, k)
    {
      InBucketAdds(obs, early, k);
    }
  }

  class Collector {
    var liveLat: array<nat>
    var prevLat: array<nat>

    ghost predicate Valid()
      reads this
    {
      liveLat.Length == BUCKETS && prevLat.Length == BUCKETS && liveLat != prevLat
    }

    constructor ()
      ensures Valid() && fresh(liveLat) && fresh(prevLat)
      ensures Holds(liveLat[..], []) && Holds(prevLat[..], [])
    {
      liveLat := new nat[BUCKETS](_ => 0);
      prevLat := new nat[BUCKETS](_ => 0);
    }

    method Count(ms: nat)
      requires Valid()
      modifies liveLat
      ensures Valid() && Bucket(ms) < BUCKETS
      ensures liveLat[..] == old(liveLat[..])[Bucket(ms) := old(liveLat[..])[Bucket(ms)] + 1]
    {
      var b := LatencyBucket(ms);
      liveLat[b] := liveLat[b] + 1;
    }

    /** Counts one request; the clock running backwards counts as no time. */
    method Observe(elapsed: int, ghost obs: seq<nat>)
      requires Valid() && Holds(liveLat[..], obs)
      modifies liveLat
      ensures Valid() && Holds(liveLat[..], [if elapsed < 0 then 0 else elapsed] + obs)
    {
      var ms: nat := if elapsed < 0 then 0 else elapsed;
      assert ([ms] + obs)[1..] == obs;
      Count(ms);
    }

    /** The requests that finish before the next bucket is swapped. */
    method Arrivals(arriving: seq<nat>, ghost obs: seq<nat>, ghost late: seq<nat>, ghost swapped: nat)
      requires Valid() && Swapping(liveLat[..], obs, late, swapped)
      modifies liveLat
      ensures Valid() && Swapping(liveLat[..], obs, late + arriving, swapped)
    {
      assert late + arriving[..0] == late;
      for k := 0 to |arriving|
        invariant Swapping(liveLat[..], obs, late + arriving[..k], swapped)
      {
        Count(arriving[k]);
        forall i | 0 <= i < BUCKETS
          ensures InBucket(late + arriving[..k + 1], i)
            == InBucket(late + arriving[..k], i) + if i == Bucket(arriving[k]) then 1 else 0
        {
          assert late + arriving[..k + 1] == (late + arriving[..k]) + [arriving[k]];
          InBucketAdds(late + arriving[..k], [arriving[k]], i);
        }
      }
      assert arriving[..|arriving|] == arriving;
    }

    /**
     Once a second: what was live becomes the window that is reported, one bucket
     after the other, while requests go on finishing. Every one of these counts in
     this window or in the next, and in one of them only.
     */
    method Rotate(arriving: seq<seq<nat>>, ghost obs: seq<nat>) returns (ghost early: seq<nat>, ghost late: seq<nat>)
      requires Valid() && Holds(liveLat[..], obs) && |arriving| == BUCKETS
      modifies liveLat, prevLat
      ensures Valid() && Holds(prevLat[..], obs + early) && Holds(liveLat[..], late)
      ensures multiset(early) + multiset(late) == multiset(Flat(arriving))
    {
      early, late := [], [];
      assert Flat(arriving[..0]) == [];
      hide Swapping, Swapped, Holds, Within, Outside, Flat;
      NoneSwapped(liveLat[..], prevLat[..], obs);
      for i := 0 to BUCKETS
        invariant Swapping(liveLat[..], obs, late, i) && Swapped(prevLat[..], obs, early, i)
        invariant multiset(early) + multiset(late) == multiset(Flat(arriving[..i]))
      {
        Arrivals(arriving[i], obs, late, i);
        FlatStep(arriving, i);
        assert multiset(early) + multiset(late + arriving[i]) == multiset(Flat(arriving[..i + 1]));
        late := late + arriving[i];
        SwapOne(liveLat[..], prevLat[..], obs, early, late, i);
        Parting(late, i);
        Swap(i);
        early, late := early + Within(late, i), Outside(late, i);
      }
      assert arriving[..BUCKETS] == arriving;
      AllSwapped(liveLat[..], prevLat[..], obs, early, late);
    }

    method Swap(i: nat)
      requires Valid() && i < BUCKETS
      modifies liveLat, prevLat
      ensures Valid()
      ensures liveLat[..] == old(liveLat[..])[i := 0] && prevLat[..] == old(prevLat[..])[i := old(liveLat[i])]
    {
      prevLat[i], liveLat[i] := liveLat[i], 0;
    }

    /** An empty window reports 0; any other one the bucket of the exact nearest-rank percentile. */
    method Percentile(p: real, ghost obs: seq<nat>) returns (e: real)
      requires Valid() && Holds(prevLat[..], obs) && 0.0 <= p <= 1.0
      ensures obs == [] ==> e == 0.0
      ensures obs != [] ==> exists x: nat :: HasRank(obs, x, Target(|obs|, p))
      ensures forall x: nat :: HasRank(obs, x, Target(|obs|, p)) ==> e == Reported(Bucket(x)) && (Close(e, x) == (1 <= x < MAX_LATENCY))
    {
      ghost var lat := prevLat[..];
      SumCounts(lat, obs, BUCKETS);
      AllCounted(obs);
      var total := 0;
      for i := 0 to BUCKETS
        invariant total == Sum(lat, i)
      {
        total := total + prevLat[i];
      }
      if total == 0 {
        return 0.0;
      }
      var target := Target(total, p);
      TargetInRange(total, p);
      ghost var x := Ranked(obs, target);
      ScanFindsRank(lat, obs, x, target);
      var acc := 0;
      for i := 0 to BUCKETS
        invariant acc == Sum(lat, i) < target
      {
        acc := acc + prevLat[i];
        if acc >= target {
          forall y: nat | HasRank(obs, y, target)
            ensures i == Bucket(y) && Close(Reported(i), y) == (1 <= y < MAX_LATENCY)
          {
            ScanFindsRank(lat, obs, y, target);
            ReachesOnce(lat, target, target, i, Bucket(y));
            ReachesOnce(lat, target, target, Bucket(y), i);
            ReportedIsCloseIff(y);
          }
          if i == 0 {
            return 1.0;
          }
          return ((Pow2(i - 1) + Pow2(i)) as real) / 2.0;
        }
      }
      assert false;
    }
  }

  lemma Ranked(obs: seq<nat>, t: nat) returns (x: nat)
    requires 1 <= t <= |obs|
    ensures HasRank(obs, x, t)
  {
    var top := Above(obs);
    x := RankExists(obs, t, top);
  }

  lemma {:induction false} Above(obs: seq<nat>) returns (top: nat)
    ensures forall y :: y >= top ==> Below(obs, y) == |obs|
  {
    if obs == [] {
      top := 0;
    } else {
      var t := Above(obs[1..]);
      top := if obs[0] < t then t else obs[0] + 1;
    }
  }

  // ---- Histograms with edges ----

  datatype Edge = NegInf | Fin(r: real) | PosInf

  predicate Less(a: Edge, b: Edge) {
    match (a, b)
    case (Fin(x), Fin(y)) => x < y
    case (NegInf, NegInf) => false
    case (PosInf, _) => false
    case (_, NegInf) => false
    case _ => true
  }

  /** Increasing edges, one more than there are buckets, and no bucket that is the whole line. */
  ghost predicate WellFormed(counts: seq<nat>, edges: seq<Edge>) {
    && |edges| == |counts| + 1
    && (forall i, j :: 0 <= i < j < |edges| ==> Less(edges[i], edges[j]))
    && (forall i :: 0 <= i < |counts| ==> edges[i].Fin? || edges[i + 1].Fin?)
  }

  /** The middle of a bucket, or its finite edge when the other is infinite. */
  function Middle(lo: Edge, hi: Edge): real
    requires lo.Fin? || hi.Fin?
  {
    if !lo.Fin? then hi.r else if !hi.Fin? then lo.r else (lo.r + hi.r) / 2.0
  }

  /** The upper edge, or the lower one when that is infinite. */
  function Top(lo: Edge, hi: Edge): real
    requires lo.Fin? || hi.Fin?
  {
    if hi.Fin? then hi.r else lo.r
  }

  /** Halfway between finite edges, with the upper one on top; next to an infinite edge both are the finite one. */
  lemma MiddleIsHalfway(lo: Edge, hi: Edge)
    requires Less(lo, hi) && (lo.Fin? || hi.Fin?)
    ensures var m, t := Middle(lo, hi), Top(lo, hi);
      if lo.Fin? && hi.Fin? then m - lo.r == hi.r - m > 0.0 && t == hi.r
      else m == t && (Fin(t) == lo || Fin(t) == hi)
  {
  }

  lemma MiddlesRise(counts: seq<nat>, edges: seq<Edge>, i: nat, j: nat)
    requires WellFormed(counts, edges) && i <= j < |counts|
    ensures Middle(edges[i], edges[i + 1]) <= Middle(edges[j], edges[j + 1]) <= Top(edges[j], edges[j + 1])
  {
    assert Less(edges[j], edges[j + 1]) && Less(edges[i], edges[i + 1]);
    if i < j {
      assert i + 1 < j ==> Less(edges[i + 1], edges[j]);
      assert Less(edges[i], edges[j]) && Less(edges[i + 1], edges[j + 1]);
    }
  }

  method Percentile(counts: seq<nat>, edges: seq<Edge>, p: real) returns (e: real)
    requires WellFormed(counts, edges) && p >= 0.0
    ensures Sum(counts, |counts|) == 0 ==> e == 0.0
    ensures Sum(counts, |counts|) > 0 && p <= 1.0 ==>
      exists i: nat :: Reaches(counts, Target(Sum(counts, |counts|), p), i) && e == Middle(edges[i], edges[i + 1])
    ensures Sum(counts, |counts|) > 0 && Target(Sum(counts, |counts|), p) > Sum(counts, |counts|) ==>
      e == Top(edges[|counts| - 1], edges[|counts|])
  {
    if |counts| == 0 || |edges| < 2 {
      return 0.0;
    }
    var total := 0;
    for i := 0 to |counts|
      invariant total == Sum(counts, i)
    {
      total := total + counts[i];
    }
    if total == 0 {
      return 0.0;
    }
    var target := Target(total, p);
    if p <= 1.0 {
      TargetInRange(total, p);
    }
    var acc := 0;
    for i := 0 to |counts|
      invariant acc == Sum(counts, i) < target
    {
      acc := acc + counts[i];
      if acc >= target {
        assert Reaches(counts, target, i);
        SumMonotone(counts, i + 1, |counts|);
        var lo, hi := edges[i], edges[i + 1];
        if lo.NegInf? {
          lo := hi;
        }
        if hi.PosInf? {
          hi := lo;
        }
        assert Less(edges[i], edges[i + 1]);
        return (lo.r + hi.r) / 2.0;
      }
    }
    // only a quantile above 1 gets here
    assert p > 1.0;
    var last := edges[|edges| - 1];
    assert Less(edges[|edges| - 2], last);
    e := if last.Fin? then last.r else edges[|edges| - 2].r;
  }

  method HistMax(counts: seq<nat>, edges: seq<Edge>) returns (e: real)
    requires WellFormed(counts, edges)
    ensures Sum(counts, |counts|) == 0 ==> e == 0.0
    ensures Sum(counts, |counts|) > 0 ==> exists j: nat :: Last(counts, j) && e == Top(edges[j], edges[j + 1])
  {
    if |counts| == 0 || |edges| < 2 {
      return 0.0;
    }
    var i: nat := |counts|;
    while i > 0
      invariant i <= |counts| && Sum(counts, i) == Sum(counts, |counts|)
      invariant forall k :: i <= k < |counts| ==> counts[k] == 0
    {
      i := i - 1;
      if counts[i] > 0 {
        assert Last(counts, i);
        assert Less(edges[i], edges[i + 1]);
        var hi := edges[i + 1];
        if hi.PosInf? {
          hi := edges[i];
        }
        return hi.r;
      }
    }
    e := 0.0;
  }

  /** The highest bucket that is not empty. */
  ghost predicate Last(counts: seq<nat>, j: nat) {
    j < |counts| && counts[j] > 0 && forall k :: j < k < |counts| ==> counts[k] == 0
  }

  lemma {:induction false} NothingAbove(counts: seq<nat>, j: nat, n: nat)
    requires Last(counts, j) && j < n <= |counts|
    ensures Sum(counts, n) == Sum(counts, j + 1)
  {
    if n > j + 1 {
      NothingAbove(counts, j, n - 1);
    }
  }

  /** In one histogram the median, the 90th, the 99th percentile and the maximum never come out of order. */
  method Summary(counts: seq<nat>, edges: seq<Edge>) returns (p50: real, p90: real, p99: real, top: real)
    requires WellFormed(counts, edges)
    ensures p50 <= p90 <= p99 <= top
  {
    p50 := Percentile(counts, edges, 0.5);
    p90 := Percentile(counts, edges, 0.9);
    p99 := Percentile(counts, edges, 0.99);
    top := HistMax(counts, edges);
    ghost var total := Sum(counts, |counts|);
    if total > 0 {
      InOrder(counts, edges, total, 0.5, 0.9, p50, p90);
      InOrder(counts, edges, total, 0.9, 0.99, p90, p99);
      BelowTop(counts, edges, total, 0.99, p99, top);
    }
  }

  /** e is what the scan reports for a quantile. */
  ghost predicate IsQuantile(counts: seq<nat>, edges: seq<Edge>, total: nat, p: real, e: real)
    requires WellFormed(counts, edges) && p >= 0.0
  {
    exists i: nat :: Reaches(counts, Target(total, p), i) && e == Middle(edges[i], edges[i + 1])
  }

  lemma InOrder(counts: seq<nat>, edges: seq<Edge>, total: nat, p: real, q: real, e: real, f: real)
    requires WellFormed(counts, edges) && 0.0 <= p <= q
    requires IsQuantile(counts, edges, total, p, e) && IsQuantile(counts, edges, total, q, f)
    ensures e <= f
  {
    var i: nat :| Reaches(counts, Target(total, p), i) && e == Middle(edges[i], edges[i + 1]);
    var j: nat :| Reaches(counts, Target(total, q), j) && f == Middle(edges[j], edges[j + 1]);
    TargetMonotone(total, p, q);
    ReachesOnce(counts, Target(total, p), Target(total, q), i, j);
    MiddlesRise(counts, edges, i, j);
  }

  lemma MiddleBelowTop(counts: seq<nat>, edges: seq<Edge>, t: nat, i: nat, j: nat)
    requires WellFormed(counts, edges) && Reaches(counts, t, i) && Last(counts, j)
    ensures Middle(edges[i], edges[i + 1]) <= Top(edges[j], edges[j + 1])
  {
    if j < i {
      NothingAbove(counts, j, i);
      assert false;
    }
    MiddlesRise(counts, edges, i, j);
  }

  lemma BelowTop(counts: seq<nat>, edges: seq<Edge>, total: nat, p: real, e: real, top: real)
    requires WellFormed(counts, edges) && total == Sum(counts, |counts|) > 0 && 0.0 <= p <= 1.0
    requires IsQuantile(counts, edges, total, p, e)
    requires exists j: nat :: Last(counts, j) && top == Top(edges[j], edges[j + 1])
    ensures e <= top
  {
    hide Target, Middle, Top, Less, Sum;
    var t := Target(total, p);
    var i: nat :| Reaches(counts, t, i) && e == Middle(edges[i], edges[i + 1]);
    var j: nat :| Last(counts, j) && top == Top(edges[j], edges[j + 1]);
    MiddleBelowTop(counts, edges, t, i, j);
  }
}
