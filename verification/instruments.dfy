/**
  Banking-book instruments and the behavioural adjustment applied to them
  when the balance sheet is built: every instrument receives an adjusted
  maturity, a duration and a repricing beta. Demand deposits, which have no
  contractual term, are given a behavioural maturity and a deposit beta;
  every other instrument keeps its contractual maturity and a beta of 1.
 */
module Instruments {

  datatype Side = Asset | Liability

  datatype Category =
    | CommercialLoan | ConsumerLoan | GovBond | ProjectFinance
    | DemandDeposit | TimeDeposit | InterbankLoan | EurobondIssued

  /** The side each category is drawn for: the first four are assets, the rest liabilities. */
  function SideOf(c: Category): Side {
    match c
    case CommercialLoan | ConsumerLoan | GovBond | ProjectFinance => Asset
    case DemandDeposit | TimeDeposit | InterbankLoan | EurobondIssued => Liability
  }

  /**
    The tunable assumptions of the engine, passed explicitly instead of
    being read from module-level constants.
   */
  datatype Config = Config(
    bankCapital: real,
    shock: real,
    depositBeta: real,
    behavioralMaturityDemand: int)

  /** The constants the source uses: capital 5e9, a 200 bp shock, beta 0.40, 36 months. */
  const DEFAULT_CONFIG := Config(5000000000.0, 0.02, 0.40, 36)

  /** Fraction of the maturity in years taken as duration. */
  const DURATION_FACTOR: real := 0.85

  /** A position as the portfolio source delivers it, before any adjustment. */
  datatype Position = Position(
    id: int,
    side: Side,
    amount: real,
    contractualMaturity: int,
    rate: real,
    category: Category)

  /** A position together with the three columns the behavioural adjustment adds. */
  datatype Instrument = Instrument(
    id: int,
    side: Side,
    amount: real,
    contractualMaturity: int,
    rate: real,
    category: Category,
    maturityAdj: int,
    duration: real,
    effectiveBeta: real)

  /** The raw fields of an instrument, as they were before adjustment. */
  function Raw(i: Instrument): Position {
    Position(i.id, i.side, i.amount, i.contractualMaturity, i.rate, i.category)
  }

  /** Duration in years derived from a maturity in months. */
  function DurationOf(maturity: int): (d: real)
    ensures d > 0.0 <==> maturity > 0
    ensures d == 0.0 <==> maturity == 0
  {
    (maturity as real / 12.0) * DURATION_FACTOR
  }

  /** A longer maturity never gives a shorter duration. */
  lemma DurationMonotone(m1: int, m2: int)
    requires m1 <= m2
    ensures DurationOf(m1) <= DurationOf(m2)
  {
  }

  /**
    The invariant every adjusted instrument satisfies: the behavioural
    override for demand deposits, the contractual values otherwise, and a
    duration always derived from the adjusted maturity.
   */
  predicate BehaviourallyAdjusted(i: Instrument, cfg: Config) {
    && (i.category == DemandDeposit ==>
          i.maturityAdj == cfg.behavioralMaturityDemand && i.effectiveBeta == cfg.depositBeta)
    && (i.category != DemandDeposit ==>
          i.maturityAdj == i.contractualMaturity && i.effectiveBeta == 1.0)
    && i.duration == DurationOf(i.maturityAdj)
  }

  /** The behavioural adjustment of one position. */
  function Adjust(p: Position, cfg: Config): (i: Instrument)
    ensures Raw(i) == p
    ensures BehaviourallyAdjusted(i, cfg)
  {
    var isDemand := p.category == DemandDeposit;
    var maturityAdj := if isDemand then cfg.behavioralMaturityDemand else p.contractualMaturity;
    var beta := if isDemand then cfg.depositBeta else 1.0;
    Instrument(p.id, p.side, p.amount, p.contractualMaturity, p.rate, p.category,
               maturityAdj, DurationOf(maturityAdj), beta)
  }

  /**
    The invariant pins the adjusted columns down completely: an instrument
    that satisfies it is exactly the adjustment of its raw fields.
   */
  lemma AdjustedIsDetermined(i: Instrument, cfg: Config)
    requires BehaviourallyAdjusted(i, cfg)
    ensures Adjust(Raw(i), cfg) == i
  {
  }

  /**
    A demand deposit's adjusted maturity, duration and beta do not depend on
    its contractual maturity at all.
   */
  lemma DemandDepositOverride(p: Position, contractual: int, cfg: Config)
    requires p.category == DemandDeposit
    ensures Adjust(p, cfg).maturityAdj == cfg.behavioralMaturityDemand
    ensures Adjust(p, cfg).effectiveBeta == cfg.depositBeta
    ensures Adjust(p.(contractualMaturity := contractual), cfg).maturityAdj == Adjust(p, cfg).maturityAdj
    ensures Adjust(p.(contractualMaturity := contractual), cfg).duration == Adjust(p, cfg).duration
  {
  }

  /** With the source's constants a demand deposit is a 36-month, 2.55-year, beta-0.40 instrument. */
  lemma DefaultDemandDeposit(p: Position)
    requires p.category == DemandDeposit
    ensures Adjust(p, DEFAULT_CONFIG).maturityAdj == 36
    ensures Adjust(p, DEFAULT_CONFIG).duration == 2.55
    ensures Adjust(p, DEFAULT_CONFIG).effectiveBeta == 0.40
  {
  }

  /** The adjustment applied to every position of the balance sheet, in order. */
  function AdjustAll(ps: seq<Position>, cfg: Config): (r: seq<Instrument>)
    ensures |r| == |ps|
    ensures forall k :: 0 <= k < |ps| ==> Raw(r[k]) == ps[k] && BehaviourallyAdjusted(r[k], cfg)
  {
    if ps == [] then [] else AdjustAll(ps[..|ps| - 1], cfg) + [Adjust(ps[|ps| - 1], cfg)]
  }

  /** The contractual maturities the portfolio source draws from. */
  const CONTRACTUAL_MATURITIES: set<int> := {0, 1, 3, 6, 12, 24, 60}

  /**
    The domain of the positions the source generates: a side-consistent
    category, an amount in [50,000, 1,000,000] and a maturity from the
    fixed set.
   */
  predicate Generated(p: Position) {
    && p.side == SideOf(p.category)
    && 50000.0 <= p.amount <= 1000000.0
    && p.contractualMaturity in CONTRACTUAL_MATURITIES
  }

  /** Generated positions have positive amounts and adjusted maturities in [0, 60] or the behavioural one. */
  lemma GeneratedAdjustment(p: Position, cfg: Config)
    requires Generated(p)
    ensures Adjust(p, cfg).amount > 0.0
    ensures p.category != DemandDeposit ==> 0 <= Adjust(p, cfg).maturityAdj <= 60
    ensures p.category == DemandDeposit ==> Adjust(p, cfg).side == Liability
  {
  }
}
