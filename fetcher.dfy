/** The block fetcher: one block header, as the node returned it, becomes one
    per-block metrics record (`fetch_gas_data`). The remote call itself is a
    parameter: `getBlock` answers `None` when the node call raises. */
module Fetcher {
  import opened Numeric

  datatype Option<T> = None | Some(value: T)

  /** The header fields the fetcher reads. The three gas fields may be absent
      from the node's answer; `number` and `timestamp` are always present. */
  datatype Header = Header(
    number: nat,
    timestamp: int,
    baseFeePerGas: Option<nat>,
    gasLimit: Option<nat>,
    gasUsed: Option<nat>)

  /** One record of the analysed range (BlockMetrics). */
  datatype BlockMetrics = BlockMetrics(
    blockNumber: nat,
    baseFeeWei: nat,
    gasLimit: nat,
    gasUsed: nat,
    utilizationPercent: real,
    timestamp: string)

  /** A failed remote call: a block lookup, naming the block that was asked
      for, or the query for the node's current block number. */
  datatype FetchError = RemoteFetchError(block: int) | HeadQueryError

  datatype Result<T> = Ok(value: T) | Err(error: FetchError)

  /** The node's answer to "get block by number": `None` when the call raises
      (unknown block, malformed answer, timeout, lost connection). */
  type BlockSource = int -> Option<Header>

  /** `dict.get(key, 0)`: the field's value, or 0 when it is absent. */
  function OrZero(field: Option<nat>): (v: nat)
    ensures field.None? ==> v == 0
    ensures field.Some? ==> v == field.value
  {
    match field
    case None => 0
    case Some(x) => x
  }

  /** Gas utilisation in percent, rounded to two decimals; 0 for a zero gas limit. */
  function Utilization(gasUsed: nat, gasLimit: nat): real
  {
    if gasLimit != 0 then Round(gasUsed as real / gasLimit as real * 100.0, 2) else 0.0
  }

  /** A block that uses no more gas than its limit has utilisation in [0, 100],
      with 0 for an empty block and 100 for a full one. */
  lemma UtilizationRange(gasUsed: nat, gasLimit: nat)
    requires gasUsed <= gasLimit
    ensures 0.0 <= Utilization(gasUsed, gasLimit) <= 100.0
    ensures gasUsed == 0 ==> Utilization(gasUsed, gasLimit) == 0.0
    ensures 0 < gasUsed == gasLimit ==> Utilization(gasUsed, gasLimit) == 100.0
  {
    if gasLimit > 0 {
      var used, limit := gasUsed as real, gasLimit as real;
      var ratio := used / limit;
      DivideBounds(used, limit, 0.0, 1.0);
      if gasUsed == gasLimit {
        DivideBounds(limit, limit, 1.0, 1.0);
      }
      var x := ratio * 100.0;
      RoundMonotone(0.0, x, 2);
      RoundMonotone(x, 100.0, 2);
      RoundWhole(0, 2);
      RoundWhole(100, 2);
    }
  }

  /** More gas used under the same limit never lowers the utilisation. */
  lemma UtilizationMonotone(used1: nat, used2: nat, gasLimit: nat)
    requires used1 <= used2
    ensures Utilization(used1, gasLimit) <= Utilization(used2, gasLimit)
  {
    if gasLimit > 0 {
      var l := gasLimit as real;
      assert used1 as real / l <= used2 as real / l;
      RoundMonotone(used1 as real / l * 100.0, used2 as real / l * 100.0, 2);
    }
  }

  /** 15 000 000 gas used of a 30 000 000 limit is 50 percent. */
  lemma UtilizationHalfFull()
    ensures Utilization(15000000, 30000000) == 50.0
  {
    assert 15000000 as real / 30000000 as real * 100.0 == 50.0;
    RoundWhole(50, 2);
  }

  /** The record built from one header: absent gas fields count as 0, the
      other fields are copied, and the utilisation is derived from the two
      gas fields. `isoFormat` is the calendar formatting of a Unix time. */
  function Metrics(h: Header, isoFormat: int -> string): (m: BlockMetrics)
    ensures m.blockNumber == h.number
    ensures h.baseFeePerGas == Some(m.baseFeeWei) || (h.baseFeePerGas.None? && m.baseFeeWei == 0)
    ensures h.gasLimit == Some(m.gasLimit) || (h.gasLimit.None? && m.gasLimit == 0)
    ensures h.gasUsed == Some(m.gasUsed) || (h.gasUsed.None? && m.gasUsed == 0)
    ensures m.utilizationPercent == Utilization(m.gasUsed, m.gasLimit)
    ensures m.timestamp == isoFormat(h.timestamp) + "Z"
  {
    var gasLimit := OrZero(h.gasLimit);
    var gasUsed := OrZero(h.gasUsed);
    BlockMetrics(
      h.number,
      OrZero(h.baseFeePerGas),
      gasLimit,
      gasUsed,
      Utilization(gasUsed, gasLimit),
      isoFormat(h.timestamp) + "Z")
  }

  /** A header whose gas used is within its limit yields a utilisation in [0, 100]. */
  lemma MetricsUtilizationBounded(h: Header, isoFormat: int -> string)
    requires OrZero(h.gasUsed) <= OrZero(h.gasLimit)
    ensures 0.0 <= Metrics(h, isoFormat).utilizationPercent <= 100.0
  {
    UtilizationRange(OrZero(h.gasUsed), OrZero(h.gasLimit));
  }

  /** `fetch_gas_data(w3, block_id)`: one remote call, then the record. A
      failing call is reported as the error, naming the block. */
  function FetchGasData(getBlock: BlockSource, blockId: int, isoFormat: int -> string): (r: Result<BlockMetrics>)
    ensures r.Err? <==> getBlock(blockId).None?
    ensures r.Err? ==> r.error == RemoteFetchError(blockId)
    ensures r.Ok? ==> r.value == Metrics(getBlock(blockId).value, isoFormat)
  {
    match getBlock(blockId)
    case None => Err(RemoteFetchError(blockId))
    case Some(h) => Ok(Metrics(h, isoFormat))
  }
}
