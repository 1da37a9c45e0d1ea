/**
  One row of the balance-sheet frame: an adjusted instrument plus the two
  columns the risk engine adds to it, its Bucket and its Dollar_Duration.
 */
module Frame {
  import opened Instruments
  import opened Buckets

  /**
    `bucket` is None where the cut gives a missing value. Before the engine
    has run, the two engine columns hold whatever the caller put there; the
    engine overwrites both.
   */
  datatype Row = Row(inst: Instrument, bucket: Option<Bucket>, dollarDuration: real)

  /** A freshly built balance sheet: adjusted instruments, engine columns not yet filled. */
  function BalanceSheet(ps: seq<Position>, cfg: Config): (rows: seq<Row>)
    ensures |rows| == |ps|
    ensures forall k :: 0 <= k < |ps| ==>
              Raw(rows[k].inst) == ps[k] && BehaviourallyAdjusted(rows[k].inst, cfg)
  {
    var insts := AdjustAll(ps, cfg);
    seq(|insts|, k requires 0 <= k < |insts| => Row(insts[k], None, 0.0))
  }

  /** Price sensitivity of one instrument: amount times duration times repricing beta. */
  function DollarDuration(i: Instrument): (dd: real)
    ensures i.amount > 0.0 && i.duration > 0.0 && i.effectiveBeta > 0.0 ==> dd > 0.0
    ensures i.amount >= 0.0 && i.duration >= 0.0 && i.effectiveBeta >= 0.0 ==> dd >= 0.0
    ensures i.duration == 0.0 || i.effectiveBeta == 0.0 ==> dd == 0.0
  {
    var weighted := i.amount * i.duration;
    assert i.amount > 0.0 && i.duration > 0.0 ==> weighted > 0.0;
    assert i.amount >= 0.0 && i.duration >= 0.0 ==> weighted >= 0.0;
    weighted * i.effectiveBeta
  }

  /** A row once the engine has filled its Bucket and Dollar_Duration columns. */
  function Annotate(r: Row): Row {
    r.(bucket := BucketOf(r.inst.maturityAdj), dollarDuration := DollarDuration(r.inst))
  }

  /** Whether a row's engine columns agree with its instrument. */
  predicate Annotated(r: Row) {
    r.bucket == BucketOf(r.inst.maturityAdj) && r.dollarDuration == DollarDuration(r.inst)
  }

  function AnnotateAll(rows: seq<Row>): (r: seq<Row>)
    ensures |r| == |rows|
    ensures forall k :: 0 <= k < |rows| ==> r[k].inst == rows[k].inst && Annotated(r[k])
  {
    seq(|rows|, k requires 0 <= k < |rows| => Annotate(rows[k]))
  }

  /**
    Under a behavioural maturity within the bucket range, every generated
    position ends up with a bucket once annotated.
   */
  lemma GeneratedRowsBucketed(ps: seq<Position>, cfg: Config, k: nat)
    requires forall j :: 0 <= j < |ps| ==> Generated(ps[j])
    requires 0 <= cfg.behavioralMaturityDemand <= 120
    requires k < |ps|
    ensures AnnotateAll(BalanceSheet(ps, cfg))[k].bucket.Some?
  {
    var row := BalanceSheet(ps, cfg)[k];
    assert Raw(row.inst) == ps[k];
    assert Generated(ps[k]);
  }
}
