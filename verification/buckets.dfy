/**
  The five fixed maturity buckets and the rule that places a maturity in
  one of them: the half-open intervals (-1,1] (1,3] (3,6] (6,12] (12,120],
  closed on the right, as a right-inclusive cut over the bin edges
  [-1, 1, 3, 6, 12, 120]. A maturity outside (-1,120] gets no bucket.
 */
module Buckets {

  datatype Option<T> = None | Some(value: T)

  /** The labels 0-1M, 1-3M, 3-6M, 6-12M and 12M+. */
  datatype Bucket = Month0To1 | Month1To3 | Month3To6 | Month6To12 | Month12Plus

  /** The buckets in label order, the order of the gap report's rows. */
  const LABELS: seq<Bucket> := [Month0To1, Month1To3, Month3To6, Month6To12, Month12Plus]

  /** The bin edges handed to the cut; bucket k is (BINS[k], BINS[k+1]]. */
  const BINS: seq<int> := [-1, 1, 3, 6, 12, 120]

  /** Exclusive lower edge of each bucket, written out per label. */
  function Lower(b: Bucket): int {
    match b
    case Month0To1 => -1
    case Month1To3 => 1
    case Month3To6 => 3
    case Month6To12 => 6
    case Month12Plus => 12
  }

  /** Inclusive upper edge of each bucket, written out per label. */
  function Upper(b: Bucket): int {
    match b
    case Month0To1 => 1
    case Month1To3 => 3
    case Month3To6 => 6
    case Month6To12 => 12
    case Month12Plus => 120
  }

  /** Maturity m belongs to bucket b: left-exclusive, right-inclusive. */
  predicate InBucket(m: int, b: Bucket) {
    Lower(b) < m <= Upper(b)
  }

  /** The NII weight of each bucket: average months of exposure to the shock. */
  function Weight(b: Bucket): real {
    match b
    case Month0To1 => 0.5
    case Month1To3 => 2.0
    case Month3To6 => 4.5
    case Month6To12 => 9.0
    case Month12Plus => 18.0
  }

  ghost predicate StrictlyIncreasing(bins: seq<int>) {
    forall i, j :: 0 <= i < j < |bins| ==> bins[i] < bins[j]
  }

  /**
    Search of the bins from index i on, for a value already known to lie
    above bins[i]: the first bin whose right edge is not below m.
   */
  function CutFrom(bins: seq<int>, m: int, i: nat): (r: Option<nat>)
    requires StrictlyIncreasing(bins)
    requires i < |bins| && bins[i] < m
    ensures r.Some? ==> i <= r.value && r.value + 1 < |bins| && bins[r.value] < m <= bins[r.value + 1]
    ensures r.None? <==> bins[|bins| - 1] < m
    decreases |bins| - i
  {
    if i + 1 == |bins| then None
    else if m <= bins[i + 1] then Some(i)
    else CutFrom(bins, m, i + 1)
  }

  /**
    The right-inclusive cut: the index k with bins[k] < m <= bins[k+1], or
    None (a missing value) when m lies outside (bins[0], bins[last]].
   */
  function Cut(bins: seq<int>, m: int): (r: Option<nat>)
    requires StrictlyIncreasing(bins)
    ensures r.Some? ==> r.value + 1 < |bins| && bins[r.value] < m <= bins[r.value + 1]
    ensures r.None? <==> |bins| < 2 || m <= bins[0] || bins[|bins| - 1] < m
  {
    if |bins| == 0 || m <= bins[0] then None else CutFrom(bins, m, 0)
  }

  /** Bins that increase strictly never overlap: a value lies in at most one of them. */
  lemma CutUnique(bins: seq<int>, m: int, j: nat)
    requires StrictlyIncreasing(bins)
    requires j + 1 < |bins| && bins[j] < m <= bins[j + 1]
    ensures Cut(bins, m) == Some(j)
  {
  }

  lemma BinsIncreasing()
    ensures StrictlyIncreasing(BINS)
  {
  }

  /** The edges in BINS are the per-label edges of Lower and Upper. */
  lemma BinsMatchLabels(k: nat)
    requires k < |LABELS|
    ensures BINS[k] == Lower(LABELS[k]) && BINS[k + 1] == Upper(LABELS[k])
  {
  }

  /** The bucket of an adjusted maturity, None when the cut yields a missing value. */
  function BucketOf(m: int): (r: Option<Bucket>)
    ensures r.Some? ==> InBucket(m, r.value)
    ensures r.None? <==> m <= -1 || 120 < m
  {
    BinsIncreasing();
    match Cut(BINS, m)
    case None => None
    case Some(k) => BinsMatchLabels(k); Some(LABELS[k])
  }

  /** The buckets' intervals are pairwise disjoint. */
  lemma BucketsDisjoint(m: int, b1: Bucket, b2: Bucket)
    requires InBucket(m, b1) && InBucket(m, b2)
    ensures b1 == b2
  {
  }

  /** Every maturity in (-1,120] lands in exactly one bucket, the one whose interval holds it. */
  lemma BucketOfExact(m: int, b: Bucket)
    ensures BucketOf(m) == Some(b) <==> InBucket(m, b)
  {
    if InBucket(m, b) {
      BucketsDisjoint(m, b, BucketOf(m).value);
    }
  }

  /** The boundary cases: 0 and 1 are 0-1M, 12 is 6-12M, 13 and 120 are 12M+, -1 and 121 have none. */
  lemma BucketBoundaries()
    ensures BucketOf(0) == Some(Month0To1) && BucketOf(1) == Some(Month0To1)
    ensures BucketOf(2) == Some(Month1To3) && BucketOf(6) == Some(Month3To6)
    ensures BucketOf(12) == Some(Month6To12) && BucketOf(13) == Some(Month12Plus)
    ensures BucketOf(36) == Some(Month12Plus) && BucketOf(120) == Some(Month12Plus)
    ensures BucketOf(-1) == None && BucketOf(121) == None
  {
    BucketOfExact(0, Month0To1);
    BucketOfExact(1, Month0To1);
    BucketOfExact(2, Month1To3);
    BucketOfExact(6, Month3To6);
    BucketOfExact(12, Month6To12);
    BucketOfExact(13, Month12Plus);
    BucketOfExact(36, Month12Plus);
    BucketOfExact(120, Month12Plus);
  }
}
