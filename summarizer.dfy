/** The summariser (`summarize`): reduce the analysed records to average,
    highest and lowest utilisation, average base fee in gwei and a count, or
    to the "no data" sentinel when there are no records. */
module Summarizer {
  import opened Numeric
  import opened Fetcher

  /** The summary: the sentinel `{"ok": False, "msg": "No data"}`, or the statistics. */
  datatype Summary =
    | NoData(msg: string)
    | Stats(
        avgUtilizationPercent: real,
        maxUtilizationPercent: real,
        minUtilizationPercent: real,
        avgBaseFeeGwei: real,
        totalBlocks: nat)

  /** `[b["utilization_percent"] for b in blocks]`. */
  function Utilizations(blocks: seq<BlockMetrics>): (u: seq<real>)
    ensures |u| == |blocks|
    ensures forall k :: 0 <= k < |u| ==> u[k] == blocks[k].utilizationPercent
  {
    seq(|blocks|, k requires 0 <= k < |blocks| => blocks[k].utilizationPercent)
  }

  /** `b["base_fee_wei"] for b in blocks`, as reals. */
  function BaseFees(blocks: seq<BlockMetrics>): (f: seq<real>)
    ensures |f| == |blocks|
    ensures forall k :: 0 <= k < |f| ==> f[k] == blocks[k].baseFeeWei as real
  {
    seq(|blocks|, k requires 0 <= k < |blocks| => blocks[k].baseFeeWei as real)
  }

  /** `summarize(blocks)`. It never fails: the sentinel comes back exactly for
      the empty list, and otherwise the rounded average utilisation lies
      between the rounded lowest and highest, and the count is the number of
      records. */
  function Summarize(blocks: seq<BlockMetrics>): (s: Summary)
    ensures s.NoData? <==> blocks == []
    ensures s.NoData? ==> s.msg == "No data"
    ensures s.Stats? ==> s.totalBlocks == |blocks|
    ensures s.Stats? ==>
      s.minUtilizationPercent <= s.avgUtilizationPercent <= s.maxUtilizationPercent
    ensures s.Stats? ==>
      s.avgUtilizationPercent == Round(Sum(Utilizations(blocks)) / |blocks| as real, 2)
    ensures s.Stats? ==>
      s.avgBaseFeeGwei == Round(Sum(BaseFees(blocks)) / |blocks| as real / 1000000000.0, 3)
  {
    if blocks == [] then NoData("No data")
    else
      var utils := Utilizations(blocks);
      var avgUtil := Mean(utils);
      var high := Max(utils);
      var low := Min(utils);
      var avgBaseFee := Mean(BaseFees(blocks));
      MeanBounds(utils);
      RoundMonotone(low, avgUtil, 2);
      RoundMonotone(avgUtil, high, 2);
      Stats(Round(avgUtil, 2), Round(high, 2), Round(low, 2), Gwei(avgBaseFee), |blocks|)
  }

  /** Every record's rounded utilisation lies between the summary's lowest and
      highest, and both of these are the rounded utilisation of some record. */
  lemma SummaryBoundsEveryBlock(blocks: seq<BlockMetrics>)
    requires blocks != []
    ensures var s := Summarize(blocks);
      forall k :: 0 <= k < |blocks| ==>
        s.minUtilizationPercent <= Round(blocks[k].utilizationPercent, 2) <= s.maxUtilizationPercent
    ensures var s := Summarize(blocks);
      exists k :: 0 <= k < |blocks| && s.maxUtilizationPercent == Round(blocks[k].utilizationPercent, 2)
    ensures var s := Summarize(blocks);
      exists k :: 0 <= k < |blocks| && s.minUtilizationPercent == Round(blocks[k].utilizationPercent, 2)
  {
    var utils := Utilizations(blocks);
    forall k | 0 <= k < |blocks|
      ensures Round(Min(utils), 2) <= Round(blocks[k].utilizationPercent, 2) <= Round(Max(utils), 2)
    {
      RoundMonotone(Min(utils), utils[k], 2);
      RoundMonotone(utils[k], Max(utils), 2);
    }
    var hi :| 0 <= hi < |utils| && utils[hi] == Max(utils);
    var lo :| 0 <= lo < |utils| && utils[lo] == Min(utils);
    assert Summarize(blocks).maxUtilizationPercent == Round(blocks[hi].utilizationPercent, 2);
    assert Summarize(blocks).minUtilizationPercent == Round(blocks[lo].utilizationPercent, 2);
  }

  /** Records whose utilisation is a percentage give a summary within [0, 100]. */
  lemma SummaryWithinPercentRange(blocks: seq<BlockMetrics>)
    requires blocks != []
    requires forall k :: 0 <= k < |blocks| ==> 0.0 <= blocks[k].utilizationPercent <= 100.0
    ensures var s := Summarize(blocks);
      0.0 <= s.minUtilizationPercent && s.maxUtilizationPercent <= 100.0
  {
    var utils := Utilizations(blocks);
    RoundMonotone(0.0, Min(utils), 2);
    RoundMonotone(Max(utils), 100.0, 2);
    RoundWhole(0, 2);
    RoundWhole(100, 2);
  }

  /** `round(fee / 1e9, 3)`: a fee in wei as gwei, to three decimals. */
  function Gwei(wei: real): real
  {
    Round(wei / 1000000000.0, 3)
  }

  /** Converting to gwei keeps the order of two fees and keeps a fee non-negative. */
  lemma GweiMonotone(x: real, y: real)
    requires x <= y
    ensures Gwei(x) <= Gwei(y)
    ensures 0.0 <= x ==> 0.0 <= Gwei(x)
  {
    DivideMonotone(x, y, 1000000000.0);
    RoundMonotone(x / 1000000000.0, y / 1000000000.0, 3);
    if 0.0 <= x {
      DivideMonotone(0.0, x, 1000000000.0);
      RoundNonNegative(x / 1000000000.0, 3);
    }
  }

  /** The average base fee is never negative and lies between the lowest and
      highest base fee, each converted to gwei and rounded to three decimals. */
  lemma SummaryBaseFeeBounds(blocks: seq<BlockMetrics>)
    requires blocks != []
    ensures var s := Summarize(blocks); var fees := BaseFees(blocks);
      0.0 <= s.avgBaseFeeGwei && Gwei(Min(fees)) <= s.avgBaseFeeGwei <= Gwei(Max(fees))
  {
    var fees := BaseFees(blocks);
    MeanBounds(fees);
    GweiMonotone(Min(fees), Mean(fees));
    GweiMonotone(Mean(fees), Max(fees));
    assert Summarize(blocks).avgBaseFeeGwei == Gwei(Mean(fees));
  }

  /** Three records with utilisation 10, 20, 30 and base fees 1, 2 and 3 gwei
      summarise to average 20, highest 30, lowest 10, average fee 2 gwei, 3 blocks. */
  lemma SummaryOfThreeBlocks()
    ensures Summarize([
      BlockMetrics(998, 1000000000, 30000000, 3000000, 10.0, "t0"),
      BlockMetrics(999, 2000000000, 30000000, 6000000, 20.0, "t1"),
      BlockMetrics(1000, 3000000000, 30000000, 9000000, 30.0, "t2")])
      == Stats(20.0, 30.0, 10.0, 2.0, 3)
  {
    var blocks := [
      BlockMetrics(998, 1000000000, 30000000, 3000000, 10.0, "t0"),
      BlockMetrics(999, 2000000000, 30000000, 6000000, 20.0, "t1"),
      BlockMetrics(1000, 3000000000, 30000000, 9000000, 30.0, "t2")];
    var utils := Utilizations(blocks);
    assert utils == [10.0, 20.0, 30.0];
    assert Mean(utils) == 20.0 by {
      SumOfThree(10.0, 20.0, 30.0);
    }
    assert Max(utils) == 30.0 by {
      assert Max(utils) in utils;
    }
    assert Min(utils) == 10.0 by {
      assert Min(utils) in utils;
    }
    var fees := BaseFees(blocks);
    assert fees == [1000000000.0, 2000000000.0, 3000000000.0];
    assert Mean(fees) == 2000000000.0 by {
      SumOfThree(1000000000.0, 2000000000.0, 3000000000.0);
    }
    assert Gwei(2000000000.0) == 2.0 by {
      assert 2000000000.0 / 1000000000.0 == 2 as real;
      RoundWhole(2, 3);
    }
    RoundWhole(20, 2);
    RoundWhole(30, 2);
    RoundWhole(10, 2);
  }
}
