/** The command-line run (`main`): check the RPC URL's scheme before any
    network activity, check that the node answers, analyse the range,
    summarise, and end with an exit status. Argument parsing, printing, JSON
    output and timing are not modelled; the node is a value. */
module Cli {
  import opened Fetcher
  import opened Analyzer
  import opened Summarizer

  /** `s.startswith(prefix)`. */
  predicate StartsWith(s: string, prefix: string)
  {
    |prefix| <= |s| && s[..|prefix|] == prefix
  }

  /** `url.startswith(("http://", "https://"))`: the only check made on the URL. */
  predicate ValidRpcUrl(url: string)
  {
    StartsWith(url, "http://") || StartsWith(url, "https://")
  }

  /** Every URL of the form http://... or https://... is accepted. */
  lemma SchemeUrlsAccepted(rest: string)
    ensures ValidRpcUrl("http://" + rest)
    ensures ValidRpcUrl("https://" + rest)
  {
    assert ("http://" + rest)[..7] == "http://";
    assert ("https://" + rest)[..8] == "https://";
  }

  /** Conversely, an accepted URL is one of those two forms. */
  lemma AcceptedUrlHasScheme(url: string)
    requires ValidRpcUrl(url)
    ensures url == "http://" + url[7..] || url == "https://" + url[8..]
  {
    if StartsWith(url, "http://") {
      assert url == url[..7] + url[7..];
    } else {
      assert url == url[..8] + url[8..];
    }
  }

  /** A string that differs from a prefix at some position does not start with it. */
  lemma DiffersAt(s: string, prefix: string, i: nat)
    requires i < |s| && i < |prefix| && s[i] != prefix[i]
    ensures !StartsWith(s, prefix)
  {
    if |prefix| <= |s| {
      assert s[..|prefix|][i] == s[i];
    }
  }

  /** The scheme test is exact: another scheme, upper case, or a scheme
      without its two slashes is rejected, and so is the empty string. */
  lemma RejectedUrls()
    ensures !ValidRpcUrl("ftp://x")
    ensures !ValidRpcUrl("HTTPS://x")
    ensures !ValidRpcUrl("http:/x")
    ensures !ValidRpcUrl("")
  {
    DiffersAt("ftp://x", "http://", 0);
    DiffersAt("ftp://x", "https://", 0);
    DiffersAt("HTTPS://x", "http://", 0);
    DiffersAt("HTTPS://x", "https://", 0);
    DiffersAt("http:/x", "http://", 6);
    DiffersAt("http:/x", "https://", 4);
  }

  /** The default endpoint is accepted. */
  lemma DefaultEndpointAccepted()
    ensures ValidRpcUrl("https://mainnet.infura.io/v3/YOUR_INFURA_KEY")
  {
    var url := "https://mainnet.infura.io/v3/YOUR_INFURA_KEY";
    assert url[0] == 'h' && url[1] == 't' && url[2] == 't' && url[3] == 'p';
    assert url[4] == 's' && url[5] == ':' && url[6] == '/' && url[7] == '/';
    assert url[..8] == "https://";
  }

  /** The node as the run sees it: whether it reports itself connected, its
      answer to the query for its current block number (`None` when that query
      raises), and its block lookup. */
  datatype Node = Node(connected: bool, head: Option<nat>, getBlock: BlockSource)

  /** How the process ends: an exit status, or an exception nobody catches. */
  datatype Status = Exited(code: nat) | UncaughtKeyError

  /** What a successful run reports: the records and their summary. */
  datatype Report = Report(blocks: seq<BlockMetrics>, summary: Summary)

  /** The end of a run, and whether the node was contacted at all. */
  datatype Outcome = Outcome(status: Status, contactedNode: bool, report: Option<Report>)

  /** The end of `main` as written, after the analysis (exit 2 on a fetch
      error, otherwise the statistics are read from the summary). The
      statistics are read outside the `try`, so the "no data" sentinel of an
      empty range escapes as an uncaught KeyError. */
  function ConcludeAsWritten(analysis: Result<seq<BlockMetrics>>): (r: Outcome)
    ensures r.contactedNode
    ensures analysis.Err? ==> r == Outcome(Exited(2), true, None)
    ensures r.status == UncaughtKeyError <==> analysis == Ok([])
    ensures r.status == Exited(0) <==> analysis.Ok? && analysis.value != []
  {
    match analysis
    case Err(_) => Outcome(Exited(2), true, None)
    case Ok(blocks) =>
      var summary := Summarize(blocks);
      if summary.NoData? then Outcome(UncaughtKeyError, true, None)
      else Outcome(Exited(0), true, Some(Report(blocks, summary)))
  }

  /** The end of `main` with the sentinel checked: an empty range ends with
      status 2 like a failed analysis, and the run never ends in an uncaught
      exception. A run that succeeds reports statistics, never the sentinel. */
  function Conclude(analysis: Result<seq<BlockMetrics>>): (r: Outcome)
    ensures r.contactedNode
    ensures analysis.Err? ==> r == Outcome(Exited(2), true, None)
    ensures r.status == Exited(0) || r.status == Exited(2)
    ensures r.status == Exited(0) <==> analysis.Ok? && analysis.value != []
    ensures r.status == Exited(0) ==>
      r.report == Some(Report(analysis.value, Summarize(analysis.value))) && r.report.value.summary.Stats?
    ensures r.status == Exited(2) ==> r.report.None?
  {
    match analysis
    case Err(_) => Outcome(Exited(2), true, None)
    case Ok(blocks) =>
      var summary := Summarize(blocks);
      if summary.NoData? then Outcome(Exited(2), true, None)
      else Outcome(Exited(0), true, Some(Report(blocks, summary)))
  }

  /** `--count 0` (or any count below 1) analyses no block; as written the run
      then dies with an uncaught KeyError, while the checked version exits 2. */
  lemma EmptyRangeCrashesAsWritten(latest: nat, count: int)
    requires count <= 0
    ensures Window(latest, count) == []
    ensures ConcludeAsWritten(Ok([])).status == UncaughtKeyError
    ensures Conclude(Ok([])).status == Exited(2)
  {
    assert Summarize([]).NoData?;
  }

  /** The two versions differ only on the empty analysis. */
  lemma ConcludeDiffersOnlyOnEmpty(analysis: Result<seq<BlockMetrics>>)
    requires analysis != Ok([])
    ensures ConcludeAsWritten(analysis) == Conclude(analysis)
  {
  }

  /** `main`: a URL without an http or https scheme ends the run with status 1
      before the node is contacted; a node that does not report itself
      connected ends it with status 1; otherwise the range ending at the node's
      head is analysed and summarised, and the run ends with status 0 or 2.
      It succeeds exactly when the head query answers, the count is positive
      and every block of the window is fetched, and then it reports exactly
      the fetched records and their summary. `progress` is the analyser's
      progress notifications: none unless the analysis runs, and after a
      failed fetch they stop at the failing block, with no report. */
  method Run(rpc: string, count: int, node: Node, isoFormat: int -> string)
    returns (outcome: Outcome, progress: seq<Progress>)
    ensures !ValidRpcUrl(rpc) ==> outcome == Outcome(Exited(1), false, None) && progress == []
    ensures ValidRpcUrl(rpc) ==> outcome.contactedNode
    ensures ValidRpcUrl(rpc) && !node.connected ==> outcome == Outcome(Exited(1), true, None) && progress == []
    ensures ValidRpcUrl(rpc) && node.connected ==> outcome.status == Exited(0) || outcome.status == Exited(2)
    ensures outcome.status == Exited(0) <==>
      && ValidRpcUrl(rpc) && node.connected && node.head.Some? && count > 0
      && forall k :: 0 <= k < |Window(node.head.value, count)| ==>
           FetchGasData(node.getBlock, Window(node.head.value, count)[k], isoFormat).Ok?
    ensures outcome.status == Exited(0) ==>
      && outcome.report.Some?
      && |outcome.report.value.blocks| == count
      && (forall k :: 0 <= k < count ==>
            FetchGasData(node.getBlock, Window(node.head.value, count)[k], isoFormat)
              == Ok(outcome.report.value.blocks[k]))
      && outcome.report.value.summary == Summarize(outcome.report.value.blocks)
      && outcome.report.value.summary.totalBlocks == count
    ensures outcome.status == Exited(0) ==> |progress| == count
    ensures outcome.status == Exited(2) ==> outcome.report.None?
    ensures ValidRpcUrl(rpc) && node.connected && node.head.Some? ==>
      var w := Window(node.head.value, count);
      && |progress| <= |w|
      && (forall k :: 0 <= k < |progress| - 1 ==> FetchGasData(node.getBlock, w[k], isoFormat).Ok?)
      && (|progress| == |w| || (0 < |progress| && FetchGasData(node.getBlock, w[|progress| - 1], isoFormat).Err?))
    ensures node.head.None? ==> progress == []
    ensures node.head.Some? ==>
      forall k :: 0 <= k < |progress| ==>
        && k < |Window(node.head.value, count)|
        && progress[k] == Progress(Window(node.head.value, count)[k], k + 1, count, Percent(k + 1, count))
  {
    if !ValidRpcUrl(rpc) {
      return Outcome(Exited(1), false, None), [];
    }
    if !node.connected {
      return Outcome(Exited(1), true, None), [];
    }
    var analysis;
    analysis, progress := AnalyzeBlocks(node.head, count, node.getBlock, isoFormat);
    outcome := Conclude(analysis);
  }
}
