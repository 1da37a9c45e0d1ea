/**
  EVE sensitivity: the dollar durations of the frame summed per side, the
  change in economic value of equity under a parallel shock, with its
  deliberate sign convention, and that change as a fraction of capital.
 */
module Eve {
  import opened Instruments
  import opened Buckets
  import opened Frame
  import GapReport

  /** Sum of the Dollar_Duration column over the rows of one side, bucketed or not. */
  function SideDollarDuration(rows: seq<Row>, side: Side): (total: real)
    ensures (forall k :: 0 <= k < |rows| ==> rows[k].dollarDuration >= 0.0) ==> total >= 0.0
  {
    if rows == [] then 0.0
    else
      var last := rows[|rows| - 1];
      SideDollarDuration(rows[..|rows| - 1], side) + (if last.inst.side == side then last.dollarDuration else 0.0)
  }

  /** Summing two parts of the frame separately and adding gives the sum over the whole. */
  lemma {:induction false} SideDollarDurationAppend(rows1: seq<Row>, rows2: seq<Row>, side: Side)
    ensures SideDollarDuration(rows1 + rows2, side)
            == SideDollarDuration(rows1, side) + SideDollarDuration(rows2, side)
  {
    if rows2 != [] {
      var n := |rows2| - 1;
      SideDollarDurationAppend(rows1, rows2[..n], side);
      assert (rows1 + rows2)[..|rows1| + n] == rows1 + rows2[..n];
    } else {
      assert rows1 + rows2 == rows1;
    }
  }

  /** A side without rows sums to 0. */
  lemma {:induction false} SideDollarDurationAbsent(rows: seq<Row>, side: Side)
    requires forall k :: 0 <= k < |rows| ==> rows[k].inst.side != side
    ensures SideDollarDuration(rows, side) == 0.0
  {
    if rows != [] {
      SideDollarDurationAbsent(rows[..|rows| - 1], side);
    }
  }

  /** A non-empty side whose rows all have positive dollar duration sums to a positive value. */
  lemma {:induction false} SideDollarDurationPositive(rows: seq<Row>, side: Side)
    requires rows != []
    requires forall k :: 0 <= k < |rows| ==> rows[k].inst.side == side && rows[k].dollarDuration > 0.0
    ensures SideDollarDuration(rows, side) > 0.0
  {
    if |rows| > 1 {
      SideDollarDurationPositive(rows[..|rows| - 1], side);
    } else {
      assert rows[..0] == [];
    }
  }

  /** The change in EVE: minus the asset-over-liability duration mismatch, times the shock. */
  function DeltaEve(assetDd: real, liabilityDd: real, shock: real): real {
    -(assetDd - liabilityDd) * shock
  }

  /** The change in EVE of a frame whose Dollar_Duration column has been filled. */
  function PortfolioDeltaEve(rows: seq<Row>, shock: real): real {
    DeltaEve(SideDollarDuration(rows, Asset), SideDollarDuration(rows, Liability), shock)
  }

  /** The change in EVE as a fraction of capital; it has the sign of the change. */
  function EveRatio(deltaEve: real, capital: real): (ratio: real)
    requires capital > 0.0
    ensures ratio * capital == deltaEve
    ensures ratio < 0.0 <==> deltaEve < 0.0
    ensures ratio > 0.0 <==> deltaEve > 0.0
  {
    deltaEve / capital
  }

  /** A rising-rate shock lowers EVE exactly when asset dollar duration exceeds liability dollar duration. */
  lemma DeltaEveSign(assetDd: real, liabilityDd: real, shock: real)
    requires shock > 0.0
    ensures DeltaEve(assetDd, liabilityDd, shock) < 0.0 <==> assetDd > liabilityDd
    ensures DeltaEve(assetDd, liabilityDd, shock) > 0.0 <==> assetDd < liabilityDd
  {
    var mismatch := assetDd - liabilityDd;
    assert DeltaEve(assetDd, liabilityDd, shock) == -(mismatch * shock);
    if mismatch > 0.0 {
      assert mismatch * shock > 0.0;
    } else if mismatch < 0.0 {
      assert mismatch * shock < 0.0;
    }
  }

  /**
    A portfolio of one asset: the change in EVE is minus its amount times
    duration times beta times the shock, negative for a rising shock when
    all three factors are positive.
   */
  lemma SingleAssetEve(i: Instrument, shock: real)
    requires i.side == Asset
    ensures PortfolioDeltaEve([Annotate(Row(i, None, 0.0))], shock)
            == -(i.amount * i.duration * i.effectiveBeta) * shock
    ensures i.amount > 0.0 && i.duration > 0.0 && i.effectiveBeta > 0.0 && shock > 0.0 ==>
              PortfolioDeltaEve([Annotate(Row(i, None, 0.0))], shock) < 0.0
  {
    var rows := [Annotate(Row(i, None, 0.0))];
    assert rows[..0] == [];
    assert SideDollarDuration(rows, Asset) == DollarDuration(i);
    assert SideDollarDuration(rows, Liability) == 0.0;
    if i.amount > 0.0 && i.duration > 0.0 && i.effectiveBeta > 0.0 && shock > 0.0 {
      DeltaEveSign(DollarDuration(i), 0.0, shock);
    }
  }

  /** With only assets of positive dollar duration, a rising shock lowers EVE. */
  lemma AssetOnlyEveNegative(rows: seq<Row>, shock: real)
    requires rows != []
    requires forall k :: 0 <= k < |rows| ==> rows[k].inst.side == Asset && rows[k].dollarDuration > 0.0
    requires shock > 0.0
    ensures PortfolioDeltaEve(rows, shock) < 0.0
  {
    SideDollarDurationPositive(rows, Asset);
    SideDollarDurationAbsent(rows, Liability);
    DeltaEveSign(SideDollarDuration(rows, Asset), 0.0, shock);
  }

  /** The change in EVE is linear in the shock. */
  lemma DeltaEveScalesWithShock(rows: seq<Row>, shock: real, factor: real)
    ensures PortfolioDeltaEve(rows, factor * shock) == factor * PortfolioDeltaEve(rows, shock)
  {
    var mismatch := SideDollarDuration(rows, Asset) - SideDollarDuration(rows, Liability);
    assert -mismatch * (factor * shock) == factor * (-mismatch * shock);
  }

  /** The change in EVE of two parts is the sum of the parts' changes. */
  lemma DeltaEveAdditive(a1: real, l1: real, a2: real, l2: real, shock: real)
    ensures DeltaEve(a1 + a2, l1 + l2, shock) == DeltaEve(a1, l1, shock) + DeltaEve(a2, l2, shock)
  {
  }

  /** Partial results over two parts of the frame merge by addition, in either order. */
  lemma DeltaEveMerge(rows1: seq<Row>, rows2: seq<Row>, shock: real)
    ensures PortfolioDeltaEve(rows1 + rows2, shock)
            == PortfolioDeltaEve(rows1, shock) + PortfolioDeltaEve(rows2, shock)
    ensures PortfolioDeltaEve(rows1 + rows2, shock) == PortfolioDeltaEve(rows2 + rows1, shock)
  {
    SideDollarDurationAppend(rows1, rows2, Asset);
    SideDollarDurationAppend(rows1, rows2, Liability);
    SideDollarDurationAppend(rows2, rows1, Asset);
    SideDollarDurationAppend(rows2, rows1, Liability);
    DeltaEveAdditive(SideDollarDuration(rows1, Asset), SideDollarDuration(rows1, Liability),
                     SideDollarDuration(rows2, Asset), SideDollarDuration(rows2, Liability), shock);
  }

  /**
    A row whose maturity falls outside the buckets is dropped from the gap
    report but still moves EVE: an asset with positive dollar duration
    lowers EVE under a rising shock while the gap report stays the same.
   */
  lemma UnbucketedRowStillMovesEve(rows: seq<Row>, r: Row, shock: real)
    requires r.bucket.None? && r.inst.side == Asset && r.dollarDuration > 0.0 && shock > 0.0
    ensures GapReport.GapTable(rows + [r], shock) == GapReport.GapTable(rows, shock)
    ensures PortfolioDeltaEve(rows + [r], shock) < PortfolioDeltaEve(rows, shock)
  {
    GapReport.UnbucketedRowIgnored(rows, r, [], shock);
    assert rows + [r] + [] == rows + [r] && rows + [] == rows;
    DeltaEveMerge(rows, [r], shock);
    AssetOnlyEveNegative([r], shock);
  }
}
