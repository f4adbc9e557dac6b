# zk-gas-soundness, modelled in Dafny

zk-gas-soundness is a command-line diagnostic. It asks a blockchain node for
the `count` most recent block headers, works out each block's gas utilisation,
and prints a summary: average, highest and lowest utilisation, average base
fee in gwei, and the number of blocks. This project models its logic and
proves properties of it:

- `Fetcher` (`fetcher.dfy`) models the block fetcher. It turns one block
  header into one metrics record. Absent fee and gas fields count as 0. The
  utilisation is `gas_used / gas_limit * 100` rounded to two decimals, and 0
  when the limit is 0.
- `Analyzer` (`analyzer.dfy`) models the range analyser. It walks
  `range(latest - count + 1, latest + 1)` in ascending order, with a loop.
  Before each fetch it emits a progress notification. The first failed fetch
  aborts the whole walk.
- `Summarizer` (`summarizer.dfy`) models the summariser. It returns the
  "no data" sentinel for an empty list, and otherwise mean, max and min
  utilisation, mean base fee in gwei, and a count.
- `Cli` (`cli.dfy`) models `main`. It checks the RPC URL scheme before any
  network activity, checks the node's connection, then analyses and
  summarises and picks the exit status.
- `Numeric` (`numeric.dfy`) holds Python's `round`, `sum`, `max` and `min`,
  and the mean, over `real`.

The node is modelled as values. Its answer to the query for its current
block number is an `Option<nat>`, where `None` means the query raised. Its
block lookup is a function `BlockSource = int -> Option<Header>`,
where `None` means the remote call raised. Python floats are Dafny `real`s.
`round(x, d)` is defined exactly as round-half-up to `d` decimals.

Three behaviours of the code worth noting:
- A header without `gasLimit` or `gasUsed` reads both with a default of 0
  (app.py:16-17), so such a block has utilisation 0.
- Any `count` below 1 gives an empty window and an empty list of records
  (app.py:32); see "## Findings" for what `main` then does.
- A window that reaches below block 0 asks the node for negative block
  numbers (app.py:32), so the model leaves the outcome to the block lookup. `Analyzer.HonestNodeRejectsNegativeStart`
  shows that a node which only returns the block it was asked for fails there.

## Model

| member | source | states |
|---|---|---|
| `Numeric.RoundMonotone` | app.py:51-54 | rounding to any number of decimals preserves `<=` |
| `Numeric.RoundWhole` | app.py:18 | rounding leaves a whole number unchanged (so 0, 50 and 100 percent are exact) |
| `Numeric.Max` | app.py:47 | `max(utils)` is an element of the list and no element exceeds it |
| `Numeric.Min` | app.py:48 | `min(utils)` is an element of the list and no element is below it |
| `Numeric.MeanBounds` | app.py:46 | `sum(xs) / len(xs)` lies between `min(xs)` and `max(xs)` for a non-empty list |
| `Fetcher.UtilizationRange` | app.py:18 | for `used <= limit` utilisation lies in [0, 100]; it is 0 for an empty block and 100 for a full one |
| `Fetcher.UtilizationMonotone` | app.py:18 | under one gas limit, more gas used never gives a lower utilisation |
| `Fetcher.UtilizationHalfFull` | app.py:18 | 15 000 000 used of a 30 000 000 limit gives exactly 50 |
| `Fetcher.Metrics` | app.py:15-25 | the record copies the block number, takes absent base fee, limit and used as 0 and otherwise copies them, derives utilisation from the stored limit and used, and appends "Z" to the formatted timestamp |
| `Fetcher.MetricsUtilizationBounded` | app.py:15-24 | a header whose gas used is within its limit yields a record with utilisation in [0, 100] |
| `Fetcher.FetchGasData` | app.py:12-26 | one remote call: it fails exactly when the node's lookup fails, and the error names the requested block; otherwise the result is the header's record |
| `Analyzer.RangeShape` | app.py:32 | `range(lo, hi)` has `max(hi - lo, 0)` elements and its k-th element is `lo + k` |
| `Analyzer.Window` | app.py:32 | the window has `count` elements (none when `count <= 0`) and its k-th element is `latest - count + 1 + k` |
| `Analyzer.WindowAscending` | app.py:32 | a non-empty window starts at `latest - count + 1`, rises by exactly 1 per step, and ends at `latest` |
| `Analyzer.WindowAtThousand` | app.py:30-32 | head 1000 with count 3 gives blocks 998, 999, 1000 in that order |
| `Analyzer.PercentProgress` | app.py:34-35 | for positions 1..count the percentage lies in (0, 100], strictly increases, and is 100 exactly at the last block |
| `Analyzer.AnalyzeBlocks` | app.py:28-39 | a failed head query fails the analysis before any block is requested or reported; on success there is exactly one record per window number, in window order, each equal to `fetch_gas_data` of that number; on failure the error names the first window block whose fetch failed and every earlier fetch succeeded; progress notification k carries block `window[k]`, counter `k + 1`, total `count` and percentage `(k + 1) / count * 100`, with one per block reached, including the failing one |
| `Analyzer.HonestRecordsAscending` | app.py:32-38 | against a node that answers each request with the block asked for, the records' block numbers are consecutive, ascending, and end at `latest` |
| `Analyzer.HonestNodeRejectsNegativeStart` | app.py:32 | with `count > latest + 1` the first requested block is negative, and an honest node fails that fetch |
| `Summarizer.Summarize` | app.py:41-56 | the sentinel "No data" is returned exactly for the empty list; otherwise the average utilisation is `round(sum(utils) / len(utils), 2)`, the average base fee is `round(sum(fees) / len(blocks) / 1e9, 3)`, `min <= avg <= max` after rounding, and `total_blocks == len(blocks)` |
| `Summarizer.SummaryBoundsEveryBlock` | app.py:45-53 | every record's rounded utilisation lies between the summary's min and max, and both are attained by some record |
| `Summarizer.SummaryWithinPercentRange` | app.py:45-53 | if every utilisation is a percentage in [0, 100], so are the summary's min and max |
| `Summarizer.GweiMonotone` | app.py:54 | `round(wei / 1e9, 3)` preserves `<=` and keeps non-negative fees non-negative |
| `Summarizer.SummaryBaseFeeBounds` | app.py:49-54 | the average base fee in gwei is non-negative and lies between the lowest and highest fee converted the same way |
| `Summarizer.SummaryOfThreeBlocks` | app.py:41-56 | utilisations 10, 20, 30 and fees 1e9, 2e9, 3e9 wei give avg 20, max 30, min 10, 2.0 gwei, 3 blocks |
| `Cli.SchemeUrlsAccepted` | app.py:70 | every `http://...` and `https://...` URL is accepted |
| `Cli.AcceptedUrlHasScheme` | app.py:70 | every accepted URL is `http://` or `https://` followed by the rest |
| `Cli.RejectedUrls` | app.py:70-72 | `ftp://x`, `HTTPS://x`, `http:/x` and the empty string are rejected |
| `Cli.DefaultEndpointAccepted` | app.py:10 | the built-in default endpoint passes the scheme check |
| `Cli.ConcludeAsWritten` | app.py:84-98 | as written: exit 2 with no report on a failed analysis, success for a non-empty list, and an uncaught KeyError exactly for the empty analysis |
| `Cli.Conclude` | app.py:84-98 | with the sentinel checked: exit 2 with no report on a failed analysis; status is 0 or 2; 0 exactly for a non-empty analysis, whose report holds the records and their statistics |
| `Cli.EmptyRangeCrashesAsWritten` | app.py:86-94 | a count of 0 or less gives an empty window; as written the run then crashes, while the checked version exits 2 |
| `Cli.ConcludeDiffersOnlyOnEmpty` | app.py:85-98 | the written and checked endings agree on every analysis except the empty one |
| `Cli.Run` | app.py:68-111 | a URL without the http/https scheme exits 1 without contacting the node or reporting progress; an unconnected node exits 1; otherwise the status is 0 or 2, and 0 exactly when the head query answers, the count is positive and every window block is fetched; then the report holds exactly the `count` fetched records, in window order, and their summary, and the progress notifications are the analyser's; on exit 2 there is no report, and the notifications stop at the first block whose fetch failed, every earlier one having been fetched |

## Findings

| source | as written | input that shows it | evidently intended | confidence | as-written member | corrected member |
|---|---|---|---|---|---|---|
| app.py:94 | after `summarize` returns the `{"ok": False, "msg": "No data"}` sentinel, `main` reads `summary['avg_utilization_percent']` outside the `try`, so the run dies with an uncaught KeyError | `--count 0`, or any count below 1: the window is empty and the list is empty | the sentinel is checked and the run ends with an exit status (modelled as 2, as for a failed analysis) | not executed; high that the KeyError occurs, medium on the exit status intended | `Cli.ConcludeAsWritten` (shown by `Cli.EmptyRangeCrashesAsWritten`) | `Cli.Conclude` (used by `Cli.Run`) |

## Left out

- Remote calls (`w3.eth.get_block`, `w3.eth.block_number`, `w3.is_connected`, `Web3.HTTPProvider`) are a foreign network library. They appear only as the values in `Cli.Node` and the `BlockSource` function.
- The node is a fixed function for the whole run. Chain changes between calls (new blocks, reorgs) are not modelled. Fetching the same block twice therefore gives the same record by construction.
- Any exception from a fetch is folded into "the lookup returned `None`". This includes an unknown block, a malformed answer, a timeout and a lost connection. The model does not tell these apart.
- `fetch_gas_data`'s default `block_id="latest"` is not modelled. `main` never uses it: the analyser always passes a number.
- Timestamp formatting (`datetime.utcfromtimestamp(...).isoformat()`) is the parameter `isoFormat`. The run's own timestamps and elapsed time (`datetime.utcnow`, `time.time`) are not modelled.
- Console output, emoji, the `.1f` formatting of the percentage, and `json.dumps` output are not modelled. The analyser's progress lines are returned as a list of `Progress` values.
- Argument parsing (`argparse`) and the `RPC_URL` environment default are not modelled: `--rpc` and `--count` are `Cli.Run`'s `rpc` and `count`. `--timeout` appears only as a block lookup that returns `None` when a call times out. `--json` only adds output, which is not modelled.
- Numeric.Round: Python rounds the binary double half-to-even. The model rounds the exact real half-up, so results can differ on ties and in the last digit. Python floats are modelled as exact reals, with no IEEE-754 behaviour.
- Cli.Run: whether the node was contacted is a flag set by each branch, not a log of the calls made; only the analyser's progress notifications are returned as a record of its work. It uses the corrected ending `Cli.Conclude`. The as-written crash on an empty range is modelled only by `Cli.ConcludeAsWritten`. Python would end that crash with status 1 and a traceback; the model keeps it apart as `UncaughtKeyError`.
