/**
 Choosing which version answers one request (domain/routing.js).

 A request draws a point on the line of cumulative weights and goes to the version whose
 stretch it falls in. The point is random, or, when the caller supplies a route key, a
 hash of the key scaled onto the line, so that a key keeps its version for as long as
 nothing changes.
 */
module Choice {
  import opened Prelude

  const STICKY_BUCKETS: int := 10_000

  datatype Target = Target(version: nat, weight: int, ready: bool)

  datatype Reason = SoleTarget | OnlyReady | Sticky | Weighted | Failover

  datatype Choice = Choice(target: Target, reason: Reason)

  // ------------------------------------------------------------ hashing a key

  const TWO32: int := 0x1_0000_0000
  const FNV_OFFSET: int := 0x811c9dc5
  const FNV_PRIME: int := 16777619

  /** A 32-bit exclusive-or, on the unsigned values of its operands. */
  function Xor32(h: int, c: bv16): (r: int)
    requires 0 <= h < TWO32
    ensures 0 <= r < TWO32
  {
    (h as bv32 ^ c as bv32) as int
  }

  /** FNV-1a over UTF-16 code units, section 2 of draft-eastlake-fnv. */
  function Fnv1a(text: seq<bv16>): (h: int)
    ensures 0 <= h < TWO32
  {
    if text == [] then FNV_OFFSET
    else Xor32(Fnv1a(text[..|text| - 1]), text[|text| - 1]) * FNV_PRIME % TWO32
  }

  /** The hashes published of the empty text, of "a" and of "foobar". */
  lemma KnownHashes()
    ensures Fnv1a([]) == 0x811c9dc5
    ensures Fnv1a([0x61]) == 0xe40c292c
    ensures Fnv1a([0x66, 0x6f, 0x6f, 0x62, 0x61, 0x72]) == 0xbf9cf968
  {
    hide Fnv1a, Xor32;
    assert Fnv1a([]) == 0x811c9dc5 by { EmptyHash(); }
    KnownXors();
    HashTo([], 0x61, [0x61], 0x811c9da4, 0xe40c292c);
    HashTo([], 0x66, [0x66], 0x811c9da3, 0xe30c2799);
    HashTo([0x66], 0x6f, [0x66, 0x6f], 0xe30c27f6, 0x6222e842);
    HashTo([0x66, 0x6f], 0x6f, [0x66, 0x6f, 0x6f], 0x6222e82d, 0xa9f37ed7);
    HashTo([0x66, 0x6f, 0x6f], 0x62, [0x66, 0x6f, 0x6f, 0x62], 0xa9f37eb5, 0x3f5076ef);
    HashTo([0x66, 0x6f, 0x6f, 0x62], 0x61, [0x66, 0x6f, 0x6f, 0x62, 0x61], 0x3f50768e, 0x39aaa18a);
    HashTo([0x66, 0x6f, 0x6f, 0x62, 0x61], 0x72, [0x66, 0x6f, 0x6f, 0x62, 0x61, 0x72], 0x39aaa1f8, 0xbf9cf968);
  }

  lemma HashTo(text: seq<bv16>, c: bv16, longer: seq<bv16>, x: int, h: int)
    requires longer == text + [c] && Xor32(Fnv1a(text), c) == x && x * 16777619 % 0x1_0000_0000 == h
    ensures Fnv1a(longer) == h
  {
    HashStep(text, c);
  }

  lemma EmptyHash()
    ensures Fnv1a([]) == 0x811c9dc5
  {
  }

  lemma KnownXors()
    ensures Xor32(0x811c9dc5, 0x61) == 0x811c9da4
    ensures Xor32(0x811c9dc5, 0x66) == 0x811c9da3
    ensures Xor32(0xe30c2799, 0x6f) == 0xe30c27f6
    ensures Xor32(0x6222e842, 0x6f) == 0x6222e82d
    ensures Xor32(0xa9f37ed7, 0x62) == 0xa9f37eb5
    ensures Xor32(0x3f5076ef, 0x61) == 0x3f50768e
    ensures Xor32(0x39aaa18a, 0x72) == 0x39aaa1f8
  {
  }

  lemma HashStep(text: seq<bv16>, c: bv16)
    ensures Fnv1a(text + [c]) == Xor32(Fnv1a(text), c) * 16777619 % 0x1_0000_0000
  {
    assert (text + [c])[..|text|] == text;
  }

  /** A JavaScript number taken to a signed 32-bit integer, as its bit operators do. */
  function Signed(x: int): (r: int)
    ensures -0x8000_0000 <= r < 0x8000_0000
  {
    var u := x % TWO32;
    if u >= 0x8000_0000 then u - TWO32 else u
  }

  /** `hash << k` for the left shifts the hash uses. */
  function ShiftLeft(x: int, factor: int): (r: int)
    ensures -0x8000_0000 <= r < 0x8000_0000
  {
    Signed(x * factor)
  }

  /** The sum of shifts, on signed 32-bit intermediates, before `>>> 0`. */
  function ShiftAndAdd(x: int): int {
    Signed(x) + (ShiftLeft(Signed(x), 2) + ShiftLeft(Signed(x), 16) + ShiftLeft(Signed(x), 128)
                 + ShiftLeft(Signed(x), 256) + ShiftLeft(Signed(x), 16777216))
  }

  lemma SignedWraps(x: int) returns (k: int)
    ensures Signed(x) == x - TWO32 * k
  {
    k := if x % TWO32 >= 0x8000_0000 then x / TWO32 + 1 else x / TWO32;
  }

  /** Shifting and adding is multiplying by the FNV prime, modulo 2^32. */
  lemma ShiftAndAddMultiplies(x: int)
    ensures ShiftAndAdd(x) % TWO32 == x * FNV_PRIME % TWO32
  {
    var k := SignedWraps(x);
    var s := Signed(x);
    var k1 := SignedWraps(s * 2);
    var k4 := SignedWraps(s * 16);
    var k7 := SignedWraps(s * 128);
    var k8 := SignedWraps(s * 256);
    var k24 := SignedWraps(s * 16777216);
    var m := k * FNV_PRIME + k1 + k4 + k7 + k8 + k24;
    assert ShiftAndAdd(x) == x * FNV_PRIME - TWO32 * m by {
      hide *;
      assert s * (1 + 2 + 16 + 128 + 256 + 16777216) == s * 16777619;
    }
    WrapsAway(x * FNV_PRIME, m);
  }

  lemma WrapsAway(a: int, m: int)
    ensures (a - TWO32 * m) % TWO32 == a % TWO32
  {
  }

  /** The hash as it is computed: by shifts, because the product overflows a double. */
  method HashKey(text: seq<bv16>) returns (hash: int)
    ensures hash == Fnv1a(text)
  {
    hash := FNV_OFFSET;
    for i := 0 to |text|
      invariant 0 <= hash < TWO32
      invariant hash == Fnv1a(text[..i])
    {
      assert text[..i + 1][..i] == text[..i];
      var x := Xor32(hash, text[i]);
      ShiftAndAddMultiplies(x);
      hash := ShiftAndAdd(x) % TWO32;
    }
    assert text[..|text|] == text;
  }

  // ---------------------------------------------------------- walking the line

  function WeightsOf(ts: seq<Target>): (ws: seq<int>)
    ensures |ws| == |ts|
    ensures forall i :: 0 <= i < |ws| ==> ws[i] == ts[i].weight
  {
    seq(|ts|, i requires 0 <= i < |ts| => ts[i].weight)
  }

  function Total(ts: seq<Target>): int {
    Sum(WeightsOf(ts))
  }

  /** Where the stretch of target `i` begins. */
  function Start(ts: seq<Target>, i: nat): int
    requires i <= |ts|
  {
    Sum(WeightsOf(ts)[..i])
  }

  lemma StartStep(ts: seq<Target>, i: nat)
    requires i < |ts|
    ensures Start(ts, i + 1) == Start(ts, i) + ts[i].weight
  {
    assert WeightsOf(ts)[..i + 1][..i] == WeightsOf(ts)[..i];
  }

  /** The first target, from `k` on, whose stretch ends beyond the point; else the last. */
  function PickFrom(ts: seq<Target>, k: nat, point: real): (i: nat)
    requires k < |ts|
    ensures k <= i < |ts|
    decreases |ts| - k
  {
    if k == |ts| - 1 || point < Start(ts, k + 1) as real then k else PickFrom(ts, k + 1, point)
  }

  method Pick(ts: seq<Target>, point: real) returns (target: Target)
    requires ts != []
    ensures target == ts[PickFrom(ts, 0, point)]
  {
    var cumulative := 0;
    for i := 0 to |ts|
      invariant cumulative == Start(ts, i)
      invariant i < |ts| ==> PickFrom(ts, 0, point) == PickFrom(ts, i, point)
      invariant i == |ts| ==> PickFrom(ts, 0, point) == |ts| - 1
    {
      StartStep(ts, i);
      cumulative := cumulative + ts[i].weight;
      if point < cumulative as real {
        return ts[i];
      }
    }
    return ts[|ts| - 1];
  }

  ghost predicate AllTaking(ts: seq<Target>) {
    forall i :: 0 <= i < |ts| ==> ts[i].weight > 0
  }

  lemma {:induction false} StartIncreases(ts: seq<Target>, i: nat, j: nat)
    requires AllTaking(ts) && i <= j <= |ts|
    ensures Start(ts, i) <= Start(ts, j)
    decreases j - i
  {
    if i < j {
      StartIncreases(ts, i, j - 1);
      StartStep(ts, j - 1);
    }
  }

  lemma StartBounds(ts: seq<Target>)
    ensures Start(ts, 0) == 0 && Start(ts, |ts|) == Total(ts)
  {
    assert WeightsOf(ts)[..0] == [];
    assert WeightsOf(ts)[..|ts|] == WeightsOf(ts);
  }

  /** A point of the line falls in exactly one stretch, and that is the one picked. */
  lemma {:induction false} PickIsStretch(ts: seq<Target>, k: nat, point: real, i: nat)
    requires AllTaking(ts) && k < |ts| && i < |ts|
    requires Start(ts, k) as real <= point < Total(ts) as real
    ensures PickFrom(ts, k, point) == i
      <==> k <= i && Start(ts, i) as real <= point < Start(ts, i + 1) as real
    decreases |ts| - k
  {
    StartBounds(ts);
    if k == |ts| - 1 {
      if i < k { StartIncreases(ts, i + 1, k); }
    } else if point < Start(ts, k + 1) as real {
      if i < k { StartIncreases(ts, i + 1, k); }
      if i > k { StartIncreases(ts, k + 1, i); }
    } else {
      PickIsStretch(ts, k + 1, point, i);
    }
  }

  // ---------------------------------------------------------- choosing a target

  /** Taking traffic, and not known to be unreachable. */
  predicate CanAnswer(t: Target) {
    t.weight > 0 && t.ready
  }

  function Eligible(ts: seq<Target>): (r: seq<Target>)
    ensures AllTaking(r)
    ensures forall t :: t in r <==> t in ts && CanAnswer(t)
  {
    if ts == [] then []
    else (if CanAnswer(ts[0]) then [ts[0]] else []) + Eligible(ts[1..])
  }

  /** Where a bucket lies on a line of the given length. */
  function StickyPoint(bucket: int, total: int): real {
    bucket as real / STICKY_BUCKETS as real * total as real
  }

  /** Where a draw from between 0 and 1 lies on it. */
  function DrawnPoint(draw: real, total: int): real {
    draw * total as real
  }

  function Bucket(key: seq<bv16>): (b: int)
    ensures 0 <= b < STICKY_BUCKETS
  {
    Fnv1a(key) % STICKY_BUCKETS
  }

  /** The target that answers, or nothing when no target both takes traffic and is reachable. */
  function ChooseTarget(ts: seq<Target>, key: Option<seq<bv16>>, draw: real): (c: Option<Choice>)
    ensures c.None? <==> forall t :: t in ts ==> !CanAnswer(t)
    ensures c.Some? ==> c.value.target in ts && CanAnswer(c.value.target)
  {
    var eligible := Eligible(ts);
    if eligible == [] then None
    else if |eligible| == 1 then
      assert eligible[0] in eligible;
      Some(Choice(eligible[0], if exists a, b | 0 <= a < b < |ts| :: ts[a].weight > 0 && ts[b].weight > 0
                               then OnlyReady else SoleTarget))
    else
      assert eligible[0] in eligible;
      var point := if key.Some? && key.value != [] then StickyPoint(Bucket(key.value), Total(eligible))
                   else DrawnPoint(draw, Total(eligible));
      var picked := eligible[PickFrom(eligible, 0, point)];
      assert picked in eligible;
      Some(Choice(picked, if key.Some? && key.value != [] then Sticky else Weighted))
  }

  // --------------------------------------------------------- requests with no key

  /** No key was given, or an empty one. */
  predicate Unkeyed(key: Option<seq<bv16>>) {
    key.None? || key.value == []
  }

  lemma OnTheLine(draw: real, total: int)
    requires total > 0 && 0.0 <= draw < 1.0
    ensures 0.0 <= DrawnPoint(draw, total) < total as real
  {
  }

  /**
   A request with no key goes to an eligible target exactly when its draw falls in that target's
   part of the line of weights; so the draws that reach one of weight w, among a total of t, are
   an interval of length w/t.
   */
  lemma DrawsReachByWeight(ts: seq<Target>, key: Option<seq<bv16>>, draw: real, i: nat)
    requires Unkeyed(key) && 0.0 <= draw < 1.0 && DistinctVersions(ts) && i < |Eligible(ts)|
    ensures var es := Eligible(ts);
      var before, total := Sum(WeightsOf(es)[..i]), Sum(WeightsOf(es));
      && ChooseTarget(ts, key, draw).Some? && total > 0
      && (ChooseTarget(ts, key, draw).value.target == es[i] <==>
           before as real <= draw * total as real < (before + es[i].weight) as real)
  {
    hide PickFrom, Eligible, ChooseTarget, Sum;
    var es := Eligible(ts);
    UnkeyedChoice(ts, key, draw);
    EligibleDistinct(ts);
    TotalPositive(es, i);
    DrawInStretch(es, draw, i);
    var p := Drawn(es, draw);
    assert es[p] == es[i] <==> p == i;
  }

  /** Which eligible target a draw falls on. */
  function Drawn(es: seq<Target>, draw: real): (i: nat)
    requires es != []
    ensures i < |es|
  {
    PickFrom(es, 0, DrawnPoint(draw, Total(es)))
  }

  lemma UnkeyedChoice(ts: seq<Target>, key: Option<seq<bv16>>, draw: real)
    requires Unkeyed(key) && Eligible(ts) != []
    ensures ChooseTarget(ts, key, draw).Some?
    ensures ChooseTarget(ts, key, draw).value.target == Eligible(ts)[Drawn(Eligible(ts), draw)]
  {
    hide Total, StickyPoint, Eligible, DrawnPoint;
  }

  lemma DrawInStretch(es: seq<Target>, draw: real, i: nat)
    requires AllTaking(es) && i < |es| && 0.0 <= draw < 1.0 && Total(es) > 0
    ensures Drawn(es, draw) == i
      <==> Start(es, i) as real <= DrawnPoint(draw, Total(es)) < (Start(es, i) + es[i].weight) as real
  {
    hide PickFrom, Total, Start, DrawnPoint;
    OnTheLine(draw, Total(es));
    StartBounds(es);
    StartStep(es, i);
    PickIsStretch(es, 0, DrawnPoint(draw, Total(es)), i);
  }

  /** Why a target was chosen: it was the only one in rotation, the only one ready, or among several by key or by chance. */
  lemma ReasonsMean(ts: seq<Target>, key: Option<seq<bv16>>, draw: real)
    requires ChooseTarget(ts, key, draw).Some?
    ensures var reason := ChooseTarget(ts, key, draw).value.reason;
      var inRotation := exists a, b :: 0 <= a < b < |ts| && ts[a].weight > 0 && ts[b].weight > 0;
      && (reason == SoleTarget <==> |Eligible(ts)| == 1 && !inRotation)
      && (reason == OnlyReady <==> |Eligible(ts)| == 1 && inRotation)
      && (reason == Sticky <==> |Eligible(ts)| > 1 && !Unkeyed(key))
      && (reason == Weighted <==> |Eligible(ts)| > 1 && Unkeyed(key))
  {
    hide PickFrom, StickyPoint, Eligible, Bucket, Total;
  }

  // ------------------------------------------------------- sticky keys, counted

  lemma ScaledComparison(b: int, t: int, c: int)
    ensures StickyPoint(b, t) < c as real <==> b * t < STICKY_BUCKETS * c
  {
    assert (b * t) as real == b as real * t as real;
    assert StickyPoint(b, t) * 10000.0 == (b * t) as real;
    assert (10000 * c) as real == 10000.0 * c as real;
  }

  lemma TotalPositive(ts: seq<Target>, i: nat)
    requires AllTaking(ts) && i < |ts|
    ensures 0 <= Start(ts, i) < Start(ts, i + 1) <= Total(ts)
  {
    StartBounds(ts);
    StartIncreases(ts, 0, i);
    StartStep(ts, i);
    StartIncreases(ts, i + 1, |ts|);
  }

  /** Which target a bucket reaches, without division. */
  lemma StickyStretch(ts: seq<Target>, b: int, i: nat)
    requires AllTaking(ts) && i < |ts| && 0 <= b < STICKY_BUCKETS
    ensures PickFrom(ts, 0, StickyPoint(b, Total(ts))) == i
      <==> STICKY_BUCKETS * Start(ts, i) <= b * Total(ts) < STICKY_BUCKETS * Start(ts, i + 1)
  {
    hide PickFrom, StickyPoint, Start, Total;
    var total := Total(ts);
    StartBounds(ts);
    TotalPositive(ts, i);
    ScaledComparison(b, total, 0);
    ScaledComparison(b, total, total);
    ScaledComparison(b, total, Start(ts, i));
    ScaledComparison(b, total, Start(ts, i + 1));
    TimesMonotone(total, 0, b);
    TimesMonotone(total, b, STICKY_BUCKETS - 1);
    PickIsStretch(ts, 0, StickyPoint(b, total), i);
  }

  function CeilingQuotient(a: int, t: int): int
    requires t > 0
  {
    (a + t - 1) / t
  }

  lemma CeilingQuotientIsLeast(a: int, t: int, b: int)
    requires t > 0
    ensures a <= t * b <==> CeilingQuotient(a, t) <= b
    ensures a <= t * CeilingQuotient(a, t) < a + t
  {
    var q, r := (a + t - 1) / t, (a + t - 1) % t;
    DivisionParts(a + t - 1, t);
    CeilingParts(a, t, b, q, r);
  }

  lemma CeilingParts(a: int, t: int, b: int, q: int, r: int)
    requires a + t - 1 == t * q + r && 0 <= r < t
    ensures a <= t * b <==> q <= b
    ensures a <= t * q < a + t
  {
    if q <= b {
      TimesMonotone(t, q, b);
    } else {
      TimesMonotone(t, b, q - 1);
      assert t * (q - 1) == t * q - t;
    }
  }

  /** The buckets that reach target `i` when exactly these targets are eligible. */
  function BucketsOf(ts: seq<Target>, i: nat): set<int>
    requires AllTaking(ts) && i < |ts|
  {
    set b | b in Interval(0, STICKY_BUCKETS) && PickFrom(ts, 0, StickyPoint(b, Total(ts))) == i
  }

  /** The first bucket at or beyond the start of stretch `i`. */
  function FirstBucket(ts: seq<Target>, i: nat): int
    requires i <= |ts| && Total(ts) > 0
  {
    CeilingQuotient(STICKY_BUCKETS * Start(ts, i), Total(ts))
  }

  lemma BucketInStretch(ts: seq<Target>, i: nat, b: int)
    requires AllTaking(ts) && i < |ts| && Total(ts) > 0
    ensures b in BucketsOf(ts, i) <==> b in Interval(FirstBucket(ts, i), FirstBucket(ts, i + 1))
  {
    hide PickFrom, StickyPoint, Start, Total, CeilingQuotient;
    var from, to := STICKY_BUCKETS * Start(ts, i), STICKY_BUCKETS * Start(ts, i + 1);
    TotalPositive(ts, i);
    CeilingQuotientIsLeast(from, Total(ts), b);
    CeilingQuotientIsLeast(to, Total(ts), b);
    if 0 <= b < STICKY_BUCKETS {
      StickyStretch(ts, b, i);
    } else {
      CeilingQuotientIsLeast(from, Total(ts), -1);
      CeilingQuotientIsLeast(to, Total(ts), STICKY_BUCKETS);
    }
  }

  /** Among targets that can all answer, each is reached by the floor or ceiling of its share of the buckets. */
  lemma EligibleShare(ts: seq<Target>, i: nat)
    requires AllTaking(ts) && i < |ts|
    ensures Total(ts) > 0
    ensures (|BucketsOf(ts, i)| - 1) * Total(ts) < STICKY_BUCKETS * ts[i].weight
         < (|BucketsOf(ts, i)| + 1) * Total(ts)
  {
    hide PickFrom, StickyPoint, Start, Total, CeilingQuotient, BucketsOf, Interval;
    TotalPositive(ts, i);
    StartStep(ts, i);
    var from, to := STICKY_BUCKETS * Start(ts, i), STICKY_BUCKETS * Start(ts, i + 1);
    var lo, hi := FirstBucket(ts, i), FirstBucket(ts, i + 1);
    forall b ensures b in BucketsOf(ts, i) <==> b in Interval(lo, hi) {
      BucketInStretch(ts, i, b);
    }
    assert BucketsOf(ts, i) == Interval(lo, hi);
    CeilingQuotientIsLeast(from, Total(ts), 0);
    CeilingQuotientIsLeast(to, Total(ts), 0);
    IntervalScaled(lo, hi, Total(ts), from, to);
  }

  lemma IntervalScaled(lo: int, hi: int, t: int, from: int, to: int)
    requires t > 0 && from < to
    requires from <= t * lo < from + t && to <= t * hi < to + t
    ensures lo <= hi
    ensures (hi - lo - 1) * t < to - from < (hi - lo + 1) * t
  {
    assert t * (lo - 1) == t * lo - t;
    assert (hi - lo - 1) * t == t * hi - t * lo - t;
    assert (hi - lo + 1) * t == t * hi - t * lo + t;
    if hi < lo { TimesMonotone(t, hi, lo - 1); }
  }

  ghost predicate DistinctVersions(ts: seq<Target>) {
    forall i, j :: 0 <= i < j < |ts| ==> ts[i].version != ts[j].version
  }

  /** The target that keys of a bucket reach, whatever is down. */
  function StickyTarget(ts: seq<Target>, bucket: int): (t: Option<Target>)
    ensures t.Some? ==> t.value in ts && CanAnswer(t.value)
  {
    var eligible := Eligible(ts);
    if eligible == [] then None
    else
      var i := PickFrom(eligible, 0, StickyPoint(bucket, Total(eligible)));
      assert eligible[i] in eligible;
      Some(eligible[i])
  }

  /** A key goes where its bucket goes. */
  lemma KeysFollowTheirBucket(ts: seq<Target>, key: seq<bv16>, draw: real)
    requires key != []
    ensures var c := ChooseTarget(ts, Some(key), draw);
      StickyTarget(ts, Bucket(key)) == if c.Some? then Some(c.value.target) else None
  {
    hide Bucket, Eligible, StickyPoint, Total;
  }

  /** The buckets whose keys reach target `i`. */
  function BucketsReaching(ts: seq<Target>, i: nat): set<int>
    requires i < |ts|
  {
    set b | b in Interval(0, STICKY_BUCKETS) && StickyTarget(ts, b) == Some(ts[i])
  }

  lemma {:induction false} EligibleDistinct(ts: seq<Target>)
    requires DistinctVersions(ts)
    ensures DistinctVersions(Eligible(ts))
  {
    if ts != [] {
      EligibleDistinct(ts[1..]);
      var rest := Eligible(ts[1..]);
      forall j | 0 <= j < |rest| ensures rest[j].version != ts[0].version {
        assert rest[j] in rest;
        var k :| 0 <= k < |ts[1..]| && ts[1..][k] == rest[j];
        assert ts[0].version != ts[k + 1].version;
      }
    }
  }

  /** Which of the eligible targets a target is, and that the same buckets reach it. */
  lemma PlaceAmongEligible(ts: seq<Target>, i: nat) returns (k: nat)
    requires DistinctVersions(ts) && i < |ts| && CanAnswer(ts[i])
    ensures k < |Eligible(ts)| && Eligible(ts)[k] == ts[i]
    ensures BucketsReaching(ts, i) == BucketsOf(Eligible(ts), k)
  {
    hide PickFrom, StickyPoint, Total, Interval, Eligible, CanAnswer;
    var eligible := Eligible(ts);
    assert ts[i] in eligible;
    k :| 0 <= k < |eligible| && eligible[k] == ts[i];
    EligibleDistinct(ts);
    forall b ensures b in BucketsReaching(ts, i) <==> b in BucketsOf(eligible, k) {
      var p := PickFrom(eligible, 0, StickyPoint(b, Total(eligible)));
      assert p < |eligible| && (eligible[p] == eligible[k] <==> p == k);
    }
  }

  /**
   Stickiness is exact, whichever targets are down: one that takes traffic and is reachable
   gets the floor or the ceiling of its proportional share of the buckets, and any other none.
   */
  lemma StickyShare(ts: seq<Target>, i: nat)
    requires DistinctVersions(ts) && i < |ts|
    ensures var n, total := |BucketsReaching(ts, i)|, Total(Eligible(ts));
      if CanAnswer(ts[i]) then total > 0 && (n - 1) * total < STICKY_BUCKETS * ts[i].weight < (n + 1) * total else n == 0
  {
    hide PickFrom, StickyPoint, Total, Interval, Eligible, BucketsOf;
    if CanAnswer(ts[i]) {
      hide BucketsReaching;
      var k := PlaceAmongEligible(ts, i);
      EligibleShare(Eligible(ts), k);
    } else {
      assert BucketsReaching(ts, i) == {};
    }
  }

  lemma {:induction false} EligibleTotal(ts: seq<Target>)
    requires forall t :: t in ts ==> t.weight >= 0 && (t.weight > 0 ==> t.ready)
    ensures Total(Eligible(ts)) == Total(ts)
  {
    hide Total;
    if ts != [] {
      EligibleTotal(ts[1..]);
      assert ts[0] in ts;
      assert CanAnswer(ts[0]) || Eligible(ts) == Eligible(ts[1..]);
      assert ts == [ts[0]] + ts[1..];
      TotalCons(ts[0], ts[1..]);
      TotalCons(ts[0], Eligible(ts[1..]));
    }
  }

  lemma TotalCons(t: Target, ts: seq<Target>)
    ensures Total([t] + ts) == t.weight + Total(ts)
  {
    assert WeightsOf([t] + ts) == [t.weight] + WeightsOf(ts);
    SumAppend([t.weight], WeightsOf(ts));
    assert [t.weight][..0] == [];
  }

  /** With every version that takes traffic reachable, one of weight w is reached by exactly 100 w buckets. */
  lemma StickyShareOfWhole(ts: seq<Target>, i: nat)
    requires DistinctVersions(ts) && i < |ts| && Total(ts) == 100
    requires forall t :: t in ts ==> t.weight >= 0 && (t.weight > 0 ==> t.ready)
    ensures |BucketsReaching(ts, i)| == 100 * ts[i].weight
  {
    hide Total, BucketsReaching;
    EligibleTotal(ts);
    StickyShare(ts, i);
    assert ts[i] in ts;
  }

  // ------------------------------------------------------------ raising a share

  /** A key of a two-version split, and the version it reaches. */
  lemma TwoVersionStretch(first: Target, second: Target, key: seq<bv16>)
    requires CanAnswer(first) && CanAnswer(second) && key != []
    requires first.weight + second.weight == 100
    ensures forall draw :: ChooseTarget([first, second], Some(key), draw)
                           == Some(Choice(if Bucket(key) < 100 * first.weight then first else second, Sticky))
  {
    var ts := [first, second];
    assert ts[1..] == [second];
    assert Eligible([second]) == [second];
    assert Eligible(ts) == ts;
    StartBounds(ts);
    StartStep(ts, 0);
    StartStep(ts, 1);
    StickyStretch(ts, Bucket(key), 0);
  }

  /** The same for any split between two versions, one of which may have everything. */
  lemma TwoVersionChoice(v1: nat, v2: nat, weight: int, key: seq<bv16>, draw: real)
    requires v1 != v2 && 0 <= weight <= 100 && key != []
    ensures var c := ChooseTarget([Target(v1, weight, true), Target(v2, 100 - weight, true)], Some(key), draw);
      c.Some? && c.value.target.version == if Bucket(key) < 100 * weight then v1 else v2
  {
    hide Bucket, PickFrom, StickyPoint, Total;
    var first, second := Target(v1, weight, true), Target(v2, 100 - weight, true);
    if 0 < weight < 100 {
      TwoVersionStretch(first, second, key);
    } else {
      assert [first, second][1..] == [second] && [second][1..] == [];
      assert Eligible([second]) == if weight == 100 then [] else [second];
      assert Eligible([first, second]) == if weight == 0 then [second] else [first];
    }
  }

  /**
   With two versions, raising the share of one never moves a key off it: keys only ever
   move towards the version whose share grew, up to all of it and from nothing.
   */
  lemma RaisingAShareKeepsItsKeys(v1: nat, v2: nat, before: int, after: int, key: seq<bv16>, draw: real)
    requires v1 != v2 && 0 <= before <= 100 && 0 <= after <= 100 && key != []
    ensures var old_ := ChooseTarget([Target(v1, before, true), Target(v2, 100 - before, true)], Some(key), draw);
      var new_ := ChooseTarget([Target(v1, after, true), Target(v2, 100 - after, true)], Some(key), draw);
      && old_.Some? && new_.Some?
      && (after >= before && old_.value.target.version == v1 ==> new_.value.target.version == v1)
      && (after <= before && old_.value.target.version == v2 ==> new_.value.target.version == v2)
  {
    hide ChooseTarget;
    TwoVersionChoice(v1, v2, before, key, draw);
    TwoVersionChoice(v1, v2, after, key, draw);
  }
}
