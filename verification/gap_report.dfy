/**
  The repricing-gap report and the NII sensitivity: amounts summed per
  bucket and side (zero where a bucket has no instrument of a side), the gap
  and its running total over the buckets in label order, and the NII impact
  of a parallel shock per bucket and in total.
 */
module GapReport {
  import opened Instruments
  import opened Buckets
  import opened Frame

  /** Sum of a column, accumulated from the first element to the last. */
  function Sum(xs: seq<real>): real {
    if xs == [] then 0.0 else Sum(xs[..|xs| - 1]) + xs[|xs| - 1]
  }

  /** A column of five values sums to its five entries. */
  lemma SumOfFive(xs: seq<real>)
    requires |xs| == 5
    ensures Sum(xs) == xs[0] + xs[1] + xs[2] + xs[3] + xs[4]
  {
    assert Sum(xs[..1]) == xs[0] by { assert xs[..1][..0] == []; }
    assert Sum(xs[..2]) == Sum(xs[..1]) + xs[1] by { assert xs[..2][..1] == xs[..1]; }
    assert Sum(xs[..3]) == Sum(xs[..2]) + xs[2] by { assert xs[..3][..2] == xs[..2]; }
    assert Sum(xs[..4]) == Sum(xs[..3]) + xs[3] by { assert xs[..4][..3] == xs[..3]; }
  }

  /** Sums scale: multiplying every entry by a multiplies the sum by a. */
  lemma {:induction false} SumScale(xs: seq<real>, ys: seq<real>, a: real)
    requires |xs| == |ys|
    requires forall k :: 0 <= k < |xs| ==> ys[k] == a * xs[k]
    ensures Sum(ys) == a * Sum(xs)
  {
    if xs != [] {
      var n := |xs| - 1;
      SumScale(xs[..n], ys[..n], a);
    }
  }

  /** Running total of a column: entry i is the total of entries 0 to i. */
  function CumSum(xs: seq<real>): (c: seq<real>)
    ensures |c| == |xs|
  {
    if xs == [] then []
    else
      var prefix := CumSum(xs[..|xs| - 1]);
      var carried := if prefix == [] then 0.0 else prefix[|prefix| - 1];
      prefix + [carried + xs[|xs| - 1]]
  }

  lemma {:induction false} CumSumIsPrefixSum(xs: seq<real>, i: nat)
    requires i < |xs|
    ensures CumSum(xs)[i] == Sum(xs[..i + 1])
  {
    var n := |xs| - 1;
    var init := xs[..n];
    if i < n {
      CumSumIsPrefixSum(init, i);
      assert init[..i + 1] == xs[..i + 1];
    } else if n > 0 {
      CumSumIsPrefixSum(init, n - 1);
      assert init[..n] == init;
      assert xs[..n + 1] == xs;
    } else {
      assert xs[..1] == xs;
    }
  }

  /** What one row adds to the amount of a bucket and side; rows without a bucket add nothing. */
  function Contribution(r: Row, b: Bucket, side: Side): real {
    if r.bucket == Some(b) && r.inst.side == side then r.inst.amount else 0.0
  }

  /** Sum of Amount over the rows of one bucket and one side, 0 when there are none. */
  function SideAmount(rows: seq<Row>, b: Bucket, side: Side): (total: real)
    ensures (forall k :: 0 <= k < |rows| ==> rows[k].inst.amount >= 0.0) ==> total >= 0.0
  {
    if rows == [] then 0.0
    else SideAmount(rows[..|rows| - 1], b, side) + Contribution(rows[|rows| - 1], b, side)
  }

  /** Aggregating two parts of the frame separately and adding gives the aggregate of the whole. */
  lemma {:induction false} SideAmountAppend(rows1: seq<Row>, rows2: seq<Row>, b: Bucket, side: Side)
    ensures SideAmount(rows1 + rows2, b, side) == SideAmount(rows1, b, side) + SideAmount(rows2, b, side)
  {
    if rows2 != [] {
      var n := |rows2| - 1;
      SideAmountAppend(rows1, rows2[..n], b, side);
      assert (rows1 + rows2)[..|rows1| + n] == rows1 + rows2[..n];
    } else {
      assert rows1 + rows2 == rows1;
    }
  }

  /** A bucket with no instrument of a side gets 0 for that side, never a missing value. */
  lemma {:induction false} SideAmountAbsent(rows: seq<Row>, b: Bucket, side: Side)
    requires forall k :: 0 <= k < |rows| ==> !(rows[k].bucket == Some(b) && rows[k].inst.side == side)
    ensures SideAmount(rows, b, side) == 0.0
  {
    if rows != [] {
      SideAmountAbsent(rows[..|rows| - 1], b, side);
    }
  }

  /** The aggregate only reads the Bucket, Side and Amount columns: rows agreeing on those give the same sums. */
  lemma {:induction false} SideAmountColumns(rows1: seq<Row>, rows2: seq<Row>, b: Bucket, side: Side)
    requires |rows1| == |rows2|
    requires forall k :: 0 <= k < |rows1| ==>
               rows1[k].bucket == rows2[k].bucket && rows1[k].inst.side == rows2[k].inst.side
               && rows1[k].inst.amount == rows2[k].inst.amount
    ensures SideAmount(rows1, b, side) == SideAmount(rows2, b, side)
  {
    if rows1 != [] {
      var n := |rows1| - 1;
      SideAmountColumns(rows1[..n], rows2[..n], b, side);
    }
  }

  /** Sum of Amount over the rows that received a bucket. */
  function BucketedAmount(rows: seq<Row>): real {
    if rows == [] then 0.0
    else
      var last := rows[|rows| - 1];
      BucketedAmount(rows[..|rows| - 1]) + (if last.bucket.Some? then last.inst.amount else 0.0)
  }

  /** Sum of Amount over all rows. */
  function TotalAmount(rows: seq<Row>): real {
    if rows == [] then 0.0 else TotalAmount(rows[..|rows| - 1]) + rows[|rows| - 1].inst.amount
  }

  /** A bucketed row contributes its amount to exactly one bucket and side, an unbucketed one to none. */
  lemma RowCountedOnce(r: Row)
    ensures Contribution(r, Month0To1, Asset) + Contribution(r, Month0To1, Liability)
          + Contribution(r, Month1To3, Asset) + Contribution(r, Month1To3, Liability)
          + Contribution(r, Month3To6, Asset) + Contribution(r, Month3To6, Liability)
          + Contribution(r, Month6To12, Asset) + Contribution(r, Month6To12, Liability)
          + Contribution(r, Month12Plus, Asset) + Contribution(r, Month12Plus, Liability)
          == if r.bucket.Some? then r.inst.amount else 0.0
  {
    match r.bucket
    case None =>
    case Some(b) =>
      match b
      case Month0To1 =>
      case Month1To3 =>
      case Month3To6 =>
      case Month6To12 =>
      case Month12Plus =>
  }

  /** Every bucketed row is counted in exactly one bucket and side of the aggregate. */
  lemma {:induction false} PartitionByBucketAndSide(rows: seq<Row>)
    ensures SideAmount(rows, Month0To1, Asset) + SideAmount(rows, Month0To1, Liability)
          + SideAmount(rows, Month1To3, Asset) + SideAmount(rows, Month1To3, Liability)
          + SideAmount(rows, Month3To6, Asset) + SideAmount(rows, Month3To6, Liability)
          + SideAmount(rows, Month6To12, Asset) + SideAmount(rows, Month6To12, Liability)
          + SideAmount(rows, Month12Plus, Asset) + SideAmount(rows, Month12Plus, Liability)
          == BucketedAmount(rows)
  {
    if rows != [] {
      var init, last := rows[..|rows| - 1], rows[|rows| - 1];
      PartitionByBucketAndSide(init);
      forall b, side
        ensures SideAmount(rows, b, side) == SideAmount(init, b, side) + Contribution(last, b, side)
      {
      }
      RowCountedOnce(last);
    }
  }

  /** When every row has a bucket, nothing is dropped from the aggregate. */
  lemma {:induction false} FullyBucketed(rows: seq<Row>)
    requires forall k :: 0 <= k < |rows| ==> rows[k].bucket.Some?
    ensures BucketedAmount(rows) == TotalAmount(rows)
  {
    if rows != [] {
      FullyBucketed(rows[..|rows| - 1]);
    }
  }

  /** One row of the gap report. */
  datatype GapRow = GapRow(
    bucket: Bucket,
    asset: real,
    liability: real,
    gap: real,
    cumGap: real,
    niiImpact: real)

  /** The Asset or the Liability column of the report: per bucket in label order, filled with 0. */
  function SideSums(rows: seq<Row>, side: Side): (c: seq<real>)
    ensures |c| == |LABELS|
  {
    seq(|LABELS|, k requires 0 <= k < |LABELS| => SideAmount(rows, LABELS[k], side))
  }

  /** NII impact of a bucket's gap under a parallel shock. */
  function NiiImpact(gap: real, shock: real, b: Bucket): real {
    gap * shock * (Weight(b) / 12.0)
  }

  /** A bucket's NII impact is the shock times its impact under a unit shock. */
  lemma NiiImpactLinear(gap: real, shock: real, b: Bucket)
    ensures NiiImpact(gap, shock, b) == shock * NiiImpact(gap, 1.0, b)
  {
  }

  /** The Gap column: Asset minus Liability per bucket. */
  function Gaps(assets: seq<real>, liabilities: seq<real>): (g: seq<real>)
    requires |assets| == |liabilities| == |LABELS|
    ensures |g| == |LABELS|
  {
    seq(|LABELS|, k requires 0 <= k < |LABELS| => assets[k] - liabilities[k])
  }

  /** The report built column by column from its Asset and Liability columns. */
  function Tabulate(assets: seq<real>, liabilities: seq<real>, shock: real): (t: seq<GapRow>)
    requires |assets| == |liabilities| == |LABELS|
    ensures |t| == |LABELS|
  {
    var gaps := Gaps(assets, liabilities);
    var cumGaps := CumSum(gaps);
    seq(|LABELS|, k requires 0 <= k < |LABELS| =>
      GapRow(LABELS[k], assets[k], liabilities[k], gaps[k], cumGaps[k], NiiImpact(gaps[k], shock, LABELS[k])))
  }

  /** The gap report of a frame whose Bucket column has been filled. */
  function GapTable(rows: seq<Row>, shock: real): (t: seq<GapRow>)
    ensures |t| == |LABELS|
  {
    Tabulate(SideSums(rows, Asset), SideSums(rows, Liability), shock)
  }

  function AssetColumn(t: seq<GapRow>): seq<real> {
    seq(|t|, k requires 0 <= k < |t| => t[k].asset)
  }

  function LiabilityColumn(t: seq<GapRow>): seq<real> {
    seq(|t|, k requires 0 <= k < |t| => t[k].liability)
  }

  function GapColumn(t: seq<GapRow>): seq<real> {
    seq(|t|, k requires 0 <= k < |t| => t[k].gap)
  }

  function NiiColumn(t: seq<GapRow>): seq<real> {
    seq(|t|, k requires 0 <= k < |t| => t[k].niiImpact)
  }

  /** Total NII impact: the sum of the NII_Impact column. */
  function TotalNii(t: seq<GapRow>): real {
    Sum(NiiColumn(t))
  }

  /** The columns of a report built from Asset and Liability columns, at row k. */
  lemma TabulateAt(assets: seq<real>, liabilities: seq<real>, shock: real, k: nat)
    requires |assets| == |liabilities| == |LABELS|
    requires k < |LABELS|
    ensures
      var t := Tabulate(assets, liabilities, shock);
      && t[k] == GapRow(LABELS[k], assets[k], liabilities[k], assets[k] - liabilities[k], t[k].cumGap,
                        NiiImpact(assets[k] - liabilities[k], shock, LABELS[k]))
      && t[k].cumGap == Sum(GapColumn(t)[..k + 1])
  {
    var gaps := Gaps(assets, liabilities);
    var t := Tabulate(assets, liabilities, shock);
    CumSumIsPrefixSum(gaps, k);
    assert GapColumn(t) == gaps;
  }

  lemma TabulateNii(assets: seq<real>, liabilities: seq<real>, shock: real, k: nat)
    requires |assets| == |liabilities| == |LABELS|
    requires k < |LABELS|
    ensures NiiColumn(Tabulate(assets, liabilities, shock))[k] == NiiImpact(assets[k] - liabilities[k], shock, LABELS[k])
  {
  }

  /**
    Row k of the report is the bucket k in label order, holds that bucket's
    asset and liability sums, its gap is asset minus liability, its
    cumulative gap is the total gap of rows 0 to k, and its NII impact is the
    gap times the shock times the bucket's weight in years.
   */
  lemma GapRowAt(rows: seq<Row>, shock: real, k: nat)
    requires k < |LABELS|
    ensures
      var t := GapTable(rows, shock);
      && t[k].bucket == LABELS[k]
      && t[k].asset == SideAmount(rows, LABELS[k], Asset)
      && t[k].liability == SideAmount(rows, LABELS[k], Liability)
      && t[k].gap == t[k].asset - t[k].liability
      && t[k].cumGap == Sum(GapColumn(t)[..k + 1])
      && t[k].niiImpact == NiiImpact(t[k].gap, shock, LABELS[k])
  {
    var assets, liabilities := SideSums(rows, Asset), SideSums(rows, Liability);
    var t := GapTable(rows, shock);
    assert t == Tabulate(assets, liabilities, shock);
    assert assets[k] == SideAmount(rows, LABELS[k], Asset);
    assert liabilities[k] == SideAmount(rows, LABELS[k], Liability);
    TabulateAt(assets, liabilities, shock, k);
  }

  /**
    Row k of the report as a running fold computes it: its cumulative gap
    is the previous row's cumulative gap (0 before the first row) plus its
    own gap.
   */
  lemma GapTableRow(rows: seq<Row>, shock: real, k: nat)
    requires k < |LABELS|
    ensures
      var t := GapTable(rows, shock);
      var asset, liability := SideAmount(rows, LABELS[k], Asset), SideAmount(rows, LABELS[k], Liability);
      var previous := if k == 0 then 0.0 else t[k - 1].cumGap;
      t[k] == GapRow(LABELS[k], asset, liability, asset - liability, previous + (asset - liability),
                     NiiImpact(asset - liability, shock, LABELS[k]))
  {
    var t := GapTable(rows, shock);
    var column := GapColumn(t);
    GapRowAt(rows, shock, k);
    if k == 0 {
      assert column[..1][..0] == [];
    } else {
      GapRowAt(rows, shock, k - 1);
      assert column[..k + 1][..k] == column[..k];
    }
  }

  /** The last cumulative gap is the total gap over all buckets. */
  lemma LastCumGapIsTotalGap(rows: seq<Row>, shock: real)
    ensures GapTable(rows, shock)[|LABELS| - 1].cumGap == Sum(GapColumn(GapTable(rows, shock)))
  {
    var t := GapTable(rows, shock);
    GapRowAt(rows, shock, |LABELS| - 1);
    assert GapColumn(t)[..|LABELS|] == GapColumn(t);
  }

  /**
    Conservation: the Asset and Liability columns together hold exactly the
    amount of the rows that received a bucket.
   */
  lemma Conservation(rows: seq<Row>, shock: real)
    ensures Sum(AssetColumn(GapTable(rows, shock))) + Sum(LiabilityColumn(GapTable(rows, shock)))
            == BucketedAmount(rows)
  {
    var t := GapTable(rows, shock);
    SumOfFive(AssetColumn(t));
    SumOfFive(LiabilityColumn(t));
    PartitionByBucketAndSide(rows);
  }

  /** A row without a bucket, wherever it sits in the frame, leaves the whole gap report unchanged. */
  lemma UnbucketedRowIgnored(rows1: seq<Row>, r: Row, rows2: seq<Row>, shock: real)
    requires r.bucket.None?
    ensures GapTable(rows1 + [r] + rows2, shock) == GapTable(rows1 + rows2, shock)
  {
    forall k | 0 <= k < |LABELS|
      ensures SideSums(rows1 + [r] + rows2, Asset)[k] == SideSums(rows1 + rows2, Asset)[k]
      ensures SideSums(rows1 + [r] + rows2, Liability)[k] == SideSums(rows1 + rows2, Liability)[k]
    {
      UnbucketedCellUnchanged(rows1, r, rows2, LABELS[k], Asset);
      UnbucketedCellUnchanged(rows1, r, rows2, LABELS[k], Liability);
    }
    assert SideSums(rows1 + [r] + rows2, Asset) == SideSums(rows1 + rows2, Asset);
    assert SideSums(rows1 + [r] + rows2, Liability) == SideSums(rows1 + rows2, Liability);
  }

  /** One cell of the aggregate does not see a row without a bucket. */
  lemma UnbucketedCellUnchanged(rows1: seq<Row>, r: Row, rows2: seq<Row>, b: Bucket, side: Side)
    requires r.bucket.None?
    ensures SideAmount(rows1 + [r] + rows2, b, side) == SideAmount(rows1 + rows2, b, side)
  {
    SideAmountAppend(rows1 + [r], rows2, b, side);
    SideAmountAppend(rows1, [r], b, side);
    SideAmountAppend(rows1, rows2, b, side);
    assert [r][..0] == [];
  }

  /** The report only reads the Bucket, Side and Amount columns of the frame. */
  lemma GapTableColumns(rows1: seq<Row>, rows2: seq<Row>, shock: real)
    requires |rows1| == |rows2|
    requires forall k :: 0 <= k < |rows1| ==>
               rows1[k].bucket == rows2[k].bucket && rows1[k].inst.side == rows2[k].inst.side
               && rows1[k].inst.amount == rows2[k].inst.amount
    ensures GapTable(rows1, shock) == GapTable(rows2, shock)
  {
    forall k | 0 <= k < |LABELS|
      ensures SideSums(rows1, Asset)[k] == SideSums(rows2, Asset)[k]
      ensures SideSums(rows1, Liability)[k] == SideSums(rows2, Liability)[k]
    {
      SideAmountColumns(rows1, rows2, LABELS[k], Asset);
      SideAmountColumns(rows1, rows2, LABELS[k], Liability);
    }
    assert SideSums(rows1, Asset) == SideSums(rows2, Asset);
    assert SideSums(rows1, Liability) == SideSums(rows2, Liability);
  }

  /** Every entry of the NII_Impact column is the shock times its entry under a unit shock. */
  lemma NiiColumnScales(assets: seq<real>, liabilities: seq<real>, shock: real)
    requires |assets| == |liabilities| == |LABELS|
    ensures forall k :: 0 <= k < |LABELS| ==>
              NiiColumn(Tabulate(assets, liabilities, shock))[k]
              == shock * NiiColumn(Tabulate(assets, liabilities, 1.0))[k]
  {
    forall k | 0 <= k < |LABELS|
      ensures NiiColumn(Tabulate(assets, liabilities, shock))[k]
              == shock * NiiColumn(Tabulate(assets, liabilities, 1.0))[k]
    {
      TabulateNii(assets, liabilities, 1.0, k);
      TabulateNii(assets, liabilities, shock, k);
      NiiImpactLinear(assets[k] - liabilities[k], shock, LABELS[k]);
    }
  }

  /** The shock-independent part of the NII: gaps weighted by their bucket's exposure in years. */
  function WeightedGap(rows: seq<Row>): real {
    TotalNii(GapTable(rows, 1.0))
  }

  /** Total NII impact is linear in the shock: it is the shock times the weighted gap. */
  lemma NiiLinearInShock(rows: seq<Row>, shock: real)
    ensures TotalNii(GapTable(rows, shock)) == shock * WeightedGap(rows)
  {
    var assets, liabilities := SideSums(rows, Asset), SideSums(rows, Liability);
    NiiColumnScales(assets, liabilities, shock);
    SumScale(NiiColumn(Tabulate(assets, liabilities, 1.0)), NiiColumn(Tabulate(assets, liabilities, shock)), shock);
  }

  /** Scaling the shock scales the total NII impact by the same factor; doubling doubles it. */
  lemma NiiScalesWithShock(rows: seq<Row>, shock: real, factor: real)
    ensures TotalNii(GapTable(rows, factor * shock)) == factor * TotalNii(GapTable(rows, shock))
  {
    NiiLinearInShock(rows, shock);
    NiiLinearInShock(rows, factor * shock);
  }

  /**
    The worked example: an asset of 1,000,000 and a liability of 400,000,
    both at six months, under a 200 bp shock, give a 3-6M gap of 600,000
    and a 3-6M NII impact of 4,500, which is also the total.
   */
  lemma WorkedExample()
    ensures
      var a := Adjust(Position(0, Asset, 1000000.0, 6, 0.20, CommercialLoan), DEFAULT_CONFIG);
      var l := Adjust(Position(1, Liability, 400000.0, 6, 0.30, TimeDeposit), DEFAULT_CONFIG);
      var rows := AnnotateAll([Row(a, None, 0.0), Row(l, None, 0.0)]);
      var t := GapTable(rows, DEFAULT_CONFIG.shock);
      && t[2].bucket == Month3To6
      && t[2].gap == 600000.0
      && t[2].niiImpact == 4500.0
      && t[4].cumGap == 600000.0
      && TotalNii(t) == 4500.0
  {
    var a := Adjust(Position(0, Asset, 1000000.0, 6, 0.20, CommercialLoan), DEFAULT_CONFIG);
    var l := Adjust(Position(1, Liability, 400000.0, 6, 0.30, TimeDeposit), DEFAULT_CONFIG);
    var rows := AnnotateAll([Row(a, None, 0.0), Row(l, None, 0.0)]);
    var t := GapTable(rows, DEFAULT_CONFIG.shock);
    BucketOfExact(6, Month3To6);
    assert rows[0].bucket == Some(Month3To6) && rows[1].bucket == Some(Month3To6);
    forall b, side
      ensures SideAmount(rows, b, side) == Contribution(rows[0], b, side) + Contribution(rows[1], b, side)
    {
      assert |rows| == 2 && rows[..1][..0] == [];
      assert SideAmount(rows[..1], b, side) == Contribution(rows[0], b, side);
    }
    forall k | 0 <= k < |LABELS|
      ensures t[k].gap == if k == 2 then 600000.0 else 0.0
    {
      GapRowAt(rows, DEFAULT_CONFIG.shock, k);
    }
    forall k | 0 <= k < |LABELS|
      ensures NiiColumn(t)[k] == if k == 2 then 4500.0 else 0.0
    {
      GapRowAt(rows, DEFAULT_CONFIG.shock, k);
    }
    SumOfFive(NiiColumn(t));
    LastCumGapIsTotalGap(rows, DEFAULT_CONFIG.shock);
    SumOfFive(GapColumn(t));
  }
}
