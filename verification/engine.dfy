/**
  The risk engine run over the balance-sheet frame: it fills the Bucket
  column in place, aggregates the gap report, totals its NII impact, fills
  the Dollar_Duration column in place and sums it per side into the change
  in EVE and its ratio to capital. Each reduction is a loop proved against
  the recursive definition it computes.
 */
module Engine {
  import opened Instruments
  import opened Buckets
  import opened Frame
  import opened GapReport
  import opened Eve

  /** What one engine run returns: the gap report and the three scalars. */
  datatype RiskReport = RiskReport(gap: seq<GapRow>, totalNii: real, deltaEve: real, eveRatio: real)

  /** The report for a frame whose engine columns have been filled. */
  function Assess(rows: seq<Row>, cfg: Config): RiskReport
    requires cfg.bankCapital > 0.0
  {
    var table := GapTable(rows, cfg.shock);
    var deltaEve := PortfolioDeltaEve(rows, cfg.shock);
    RiskReport(table, TotalNii(table), deltaEve, EveRatio(deltaEve, cfg.bankCapital))
  }

  /** Fills the Bucket column from each row's adjusted maturity; nothing else changes. */
  method AssignBuckets(df: array<Row>)
    modifies df
    ensures forall k :: 0 <= k < df.Length ==>
              df[k] == old(df[k]).(bucket := BucketOf(old(df[k]).inst.maturityAdj))
  {
    var i := 0;
    while i < df.Length
      invariant 0 <= i <= df.Length
      invariant forall k :: 0 <= k < i ==> df[k] == old(df[k]).(bucket := BucketOf(old(df[k]).inst.maturityAdj))
      invariant forall k :: i <= k < df.Length ==> df[k] == old(df[k])
    {
      df[i] := df[i].(bucket := BucketOf(df[i].inst.maturityAdj));
      i := i + 1;
    }
  }

  /** Fills the Dollar_Duration column from each row's instrument; nothing else changes. */
  method AssignDollarDurations(df: array<Row>)
    modifies df
    ensures forall k :: 0 <= k < df.Length ==>
              df[k] == old(df[k]).(dollarDuration := DollarDuration(old(df[k]).inst))
  {
    var i := 0;
    while i < df.Length
      invariant 0 <= i <= df.Length
      invariant forall k :: 0 <= k < i ==> df[k] == old(df[k]).(dollarDuration := DollarDuration(old(df[k]).inst))
      invariant forall k :: i <= k < df.Length ==> df[k] == old(df[k])
    {
      df[i] := df[i].(dollarDuration := DollarDuration(df[i].inst));
      i := i + 1;
    }
  }

  /** Sum of Amount over the rows of one bucket and side. */
  method SumAmount(df: array<Row>, b: Bucket, side: Side) returns (total: real)
    ensures total == SideAmount(df[..], b, side)
  {
    total := 0.0;
    var i := 0;
    while i < df.Length
      invariant 0 <= i <= df.Length
      invariant total == SideAmount(df[..i], b, side)
    {
      assert df[..i + 1][..i] == df[..i];
      total := total + Contribution(df[i], b, side);
      i := i + 1;
    }
    assert df[..df.Length] == df[..];
  }

  /** The gap report, one bucket at a time in label order, with the running gap carried along. */
  method BuildGapTable(df: array<Row>, shock: real) returns (table: seq<GapRow>)
    ensures table == GapTable(df[..], shock)
  {
    ghost var t := GapTable(df[..], shock);
    table := [];
    var cum := 0.0;
    var k := 0;
    while k < |LABELS|
      invariant 0 <= k <= |LABELS|
      invariant table == t[..k]
      invariant cum == if k == 0 then 0.0 else t[k - 1].cumGap
    {
      var b := LABELS[k];
      var asset := SumAmount(df, b, Asset);
      var liability := SumAmount(df, b, Liability);
      var gap := asset - liability;
      GapTableRow(df[..], shock, k);
      cum := cum + gap;
      table := table + [GapRow(b, asset, liability, gap, cum, NiiImpact(gap, shock, b))];
      k := k + 1;
    }
  }

  /** Sum of the NII_Impact column. */
  method SumNii(table: seq<GapRow>) returns (total: real)
    ensures total == TotalNii(table)
  {
    ghost var column := NiiColumn(table);
    total := 0.0;
    var i := 0;
    while i < |table|
      invariant 0 <= i <= |table|
      invariant total == Sum(column[..i])
    {
      assert column[..i + 1][..i] == column[..i];
      total := total + table[i].niiImpact;
      i := i + 1;
    }
    assert column[..|table|] == column;
  }

  /** Sum of Dollar_Duration over the rows of one side. */
  method SumDollarDuration(df: array<Row>, side: Side) returns (total: real)
    ensures total == SideDollarDuration(df[..], side)
  {
    total := 0.0;
    var i := 0;
    while i < df.Length
      invariant 0 <= i <= df.Length
      invariant total == SideDollarDuration(df[..i], side)
    {
      assert df[..i + 1][..i] == df[..i];
      if df[i].inst.side == side {
        total := total + df[i].dollarDuration;
      }
      i := i + 1;
    }
    assert df[..df.Length] == df[..];
  }

  /**
    One engine run. The frame gains its Bucket and Dollar_Duration columns
    and keeps every other field; the report is the gap report, its total
    NII, the change in EVE and its ratio to capital, all of the filled frame.
   */
  method RunEngine(df: array<Row>, cfg: Config) returns (report: RiskReport)
    requires cfg.bankCapital > 0.0
    modifies df
    ensures forall k :: 0 <= k < df.Length ==> df[k] == Annotate(old(df[k]))
    ensures report == Assess(df[..], cfg)
  {
    AssignBuckets(df);
    var gap := BuildGapTable(df, cfg.shock);
    var totalNii := SumNii(gap);
    ghost var bucketed := df[..];
    AssignDollarDurations(df);
    var assetDd := SumDollarDuration(df, Asset);
    var liabilityDd := SumDollarDuration(df, Liability);
    var deltaEve := DeltaEve(assetDd, liabilityDd, cfg.shock);
    var eveRatio := EveRatio(deltaEve, cfg.bankCapital);
    report := RiskReport(gap, totalNii, deltaEve, eveRatio);
    assert forall k :: 0 <= k < df.Length ==>
             bucketed[k].inst == df[..][k].inst && bucketed[k].bucket == df[..][k].bucket;
    GapTableColumns(bucketed, df[..], cfg.shock);
  }

  /**
    For a balance sheet of generated positions, with a behavioural maturity
    inside the bucket range, the report's Asset and Liability columns
    together hold the whole balance sheet: no amount is lost or counted twice.
   */
  lemma GeneratedBalanceSheetConserved(ps: seq<Position>, cfg: Config)
    requires cfg.bankCapital > 0.0
    requires forall j :: 0 <= j < |ps| ==> Generated(ps[j])
    requires 0 <= cfg.behavioralMaturityDemand <= 120
    ensures
      var rows := AnnotateAll(BalanceSheet(ps, cfg));
      var report := Assess(rows, cfg);
      Sum(AssetColumn(report.gap)) + Sum(LiabilityColumn(report.gap)) == TotalAmount(rows)
  {
    var rows := AnnotateAll(BalanceSheet(ps, cfg));
    forall k | 0 <= k < |rows|
      ensures rows[k].bucket.Some?
    {
      GeneratedRowsBucketed(ps, cfg, k);
    }
    FullyBucketed(rows);
    Conservation(rows, cfg.shock);
  }
}
