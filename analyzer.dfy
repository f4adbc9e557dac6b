/** The range analyser (`analyze_blocks`): fetch the `count` most recent
    blocks, oldest first, one remote call at a time, reporting progress before
    each call. The chain head `latest` is a parameter (the node's "current
    block number"); the block lookup is the fetcher's `BlockSource`. */
module Analyzer {
  import opened Fetcher

  /** Python's `range(lo, hi)`: lo, lo + 1, ..., hi - 1, empty when lo >= hi. */
  function Range(lo: int, hi: int): seq<int>
    decreases hi - lo
  {
    if lo >= hi then [] else [lo] + Range(lo + 1, hi)
  }

  /** `range(lo, hi)` has max(hi - lo, 0) elements and its k-th one is lo + k. */
  lemma {:induction false} RangeShape(lo: int, hi: int)
    ensures |Range(lo, hi)| == if lo < hi then hi - lo else 0
    ensures forall k :: 0 <= k < |Range(lo, hi)| ==> Range(lo, hi)[k] == lo + k
    decreases hi - lo
  {
    if lo < hi {
      RangeShape(lo + 1, hi);
      var r := Range(lo + 1, hi);
      assert Range(lo, hi) == [lo] + r;
      assert forall k :: 1 <= k < |Range(lo, hi)| ==> Range(lo, hi)[k] == r[k - 1];
    }
  }

  /** The block numbers the analyser walks: `range(latest - count + 1, latest + 1)`.
      It holds `count` consecutive numbers ending at `latest`, and none when
      `count` is not positive. */
  function Window(latest: int, count: int): (w: seq<int>)
    ensures |w| == if count > 0 then count else 0
    ensures forall k :: 0 <= k < |w| ==> w[k] == latest - count + 1 + k
  {
    RangeShape(latest - count + 1, latest + 1);
    Range(latest - count + 1, latest + 1)
  }

  /** The window is strictly ascending, by one, and ends at the head. */
  lemma WindowAscending(latest: int, count: int)
    requires count > 0
    ensures Window(latest, count)[0] == latest - count + 1
    ensures Window(latest, count)[count - 1] == latest
    ensures forall k :: 0 < k < count ==> Window(latest, count)[k] == Window(latest, count)[k - 1] + 1
  {
  }

  /** Head 1000 and count 3 give blocks 998, 999 and 1000, in that order. */
  lemma WindowAtThousand()
    ensures Window(1000, 3) == [998, 999, 1000]
  {
    var w := Window(1000, 3);
    assert w[0] == 998 && w[1] == 999 && w[2] == 1000;
  }

  /** Percentage complete after `processed` of `count` blocks. */
  function Percent(processed: nat, count: int): real
    requires count > 0
  {
    processed as real / count as real * 100.0
  }

  /** During the walk the percentage lies in (0, 100], rises with every block
      and reaches 100 exactly on the last one. */
  lemma PercentProgress(processed: nat, count: int)
    requires 1 <= processed <= count
    ensures 0.0 < Percent(processed, count) <= 100.0
    ensures Percent(processed, count) == 100.0 <==> processed == count
    ensures processed < count ==> Percent(processed, count) < Percent(processed + 1, count)
  {
    var c := count as real;
    assert processed as real / c <= 1.0;
    assert processed < count ==> processed as real / c < 1.0;
    assert processed as real / c < (processed + 1) as real / c;
  }

  /** One progress notification: the block about to be fetched, its 1-based
      position `processed`, the requested `total` and the percentage complete. */
  datatype Progress = Progress(block: int, processed: nat, total: int, percent: real)

  /** A node that answers a request for block `i` only with block `i`. */
  ghost predicate HonestNode(getBlock: BlockSource)
  {
    forall i :: getBlock(i).Some? ==> getBlock(i).value.number == i
  }

  /** Against an honest node, records fetched for the window carry the window's
      block numbers: consecutive, ascending, ending at the head. */
  lemma HonestRecordsAscending(latest: nat, count: int, getBlock: BlockSource,
                               isoFormat: int -> string, records: seq<BlockMetrics>)
    requires HonestNode(getBlock)
    requires |records| == |Window(latest, count)|
    requires forall k :: 0 <= k < |records| ==>
      FetchGasData(getBlock, Window(latest, count)[k], isoFormat) == Ok(records[k])
    ensures forall k :: 0 <= k < |records| ==> records[k].blockNumber == latest - count + 1 + k
    ensures count > 0 ==> records[count - 1].blockNumber == latest
  {
    forall k | 0 <= k < |records| ensures records[k].blockNumber == latest - count + 1 + k {
      var b := Window(latest, count)[k];
      assert FetchGasData(getBlock, b, isoFormat) == Ok(records[k]);
      assert getBlock(b).Some? && getBlock(b).value.number == b;
    }
  }

  /** An honest node has no block with a negative number, so a window reaching
      below block 0 fails at its first fetch. */
  lemma HonestNodeRejectsNegativeStart(latest: nat, count: int, getBlock: BlockSource, isoFormat: int -> string)
    requires HonestNode(getBlock)
    requires count > latest + 1
    ensures FetchGasData(getBlock, Window(latest, count)[0], isoFormat).Err?
  {
    var b := Window(latest, count)[0];
    assert b < 0;
    if getBlock(b).Some? {
      assert false;
    }
  }

  /** `analyze_blocks(w3, count)`. It first asks the node for its current
      block number `head`; when that query fails the analysis fails before any
      block is requested. Otherwise, on success the k-th record is the one
      fetched for the k-th number of the window ending at the head; on failure
      the error names the first block of the window whose fetch failed, every
      earlier fetch succeeded, and the records collected so far are dropped.
      `progress` is what the loop reports, one notification per block reached,
      including the one whose fetch failed. */
  method AnalyzeBlocks(head: Option<nat>, count: int, getBlock: BlockSource, isoFormat: int -> string)
    returns (result: Result<seq<BlockMetrics>>, progress: seq<Progress>)
    ensures head.None? ==> result == Err(HeadQueryError) && progress == []
    ensures head.Some? ==> var w := Window(head.value, count);
      result.Ok? ==>
        && |result.value| == |w|
        && (forall k :: 0 <= k < |w| ==> FetchGasData(getBlock, w[k], isoFormat) == Ok(result.value[k]))
        && |progress| == |w|
    ensures head.Some? ==> var w := Window(head.value, count);
      result.Err? ==>
        && result.error.RemoteFetchError?
        && (var failed := result.error.block - (head.value - count + 1);
            && 0 <= failed < |w| && w[failed] == result.error.block
            && FetchGasData(getBlock, w[failed], isoFormat) == Err(result.error)
            && (forall k :: 0 <= k < failed ==> FetchGasData(getBlock, w[k], isoFormat).Ok?)
            && |progress| == failed + 1)
    ensures head.Some? ==> var w := Window(head.value, count);
      |progress| <= |w| &&
      forall k :: 0 <= k < |progress| ==> progress[k] == Progress(w[k], k + 1, count, Percent(k + 1, count))
  {
    if head.None? {
      return Err(HeadQueryError), [];
    }
    var latest := head.value;
    var start := latest - count + 1;
    ghost var w := Window(latest, count);
    var blocks: seq<BlockMetrics> := [];
    progress := [];
    var i := start;
    while i < latest + 1
      invariant i == start || (count > 0 && start < i <= latest + 1)
      invariant |blocks| == |progress| == i - start
      invariant forall k :: 0 <= k < |blocks| ==> FetchGasData(getBlock, start + k, isoFormat) == Ok(blocks[k])
      invariant forall k :: 0 <= k < |progress| ==>
        progress[k] == Progress(start + k, k + 1, count, Percent(k + 1, count))
      decreases latest + 1 - i
    {
      var processed := i - start + 1;
      var percent := (processed as real / count as real) * 100.0;
      progress := progress + [Progress(i, processed, count, percent)];
      assert progress[|progress| - 1] == Progress(start + (i - start), i - start + 1, count, Percent(i - start + 1, count));
      var block := FetchGasData(getBlock, i, isoFormat);
      if block.Err? {
        result := Err(block.error);
        forall k | 0 <= k < i - start ensures FetchGasData(getBlock, w[k], isoFormat).Ok? {
          assert w[k] == start + k && FetchGasData(getBlock, start + k, isoFormat) == Ok(blocks[k]);
        }
        return;
      }
      blocks := blocks + [block.value];
      assert start + (|blocks| - 1) == i;
      i := i + 1;
    }
    result := Ok(blocks);
    forall k | 0 <= k < |w| ensures FetchGasData(getBlock, w[k], isoFormat) == Ok(blocks[k]) {
      assert w[k] == start + k;
    }
  }
}
