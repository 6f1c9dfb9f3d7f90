/** The stock-analysis page: a fundamental analysis first, then, only if it
    arrived, a technical chart. Each handler is one atomic transition; the
    replies of the requests it awaits are parameters. */
module StockAnalysis {
  import opened Common
  import opened Text
  import Backend

  /** How the analysis request ends: the analysis, a non-ok reply with an
      optional `detail`, or a thrown error with its message. */
  datatype AnalysisReply = AnalysisOk(analysis: string) | AnalysisNotOk(detail: Option<string>) | AnalysisThrew(message: string)

  /** How the chart request ends: an object URL for the image, or a failure. */
  datatype ChartReply = ChartOk(url: string) | ChartFailed

  datatype Request = FundamentalRequest(ticker: string) | ChartRequest(ticker: string)

  const EnterSymbol := "Please enter a stock symbol"
  const ChartUnavailable := "Chart generation failed, but analysis is available"

  /** The ticker both requests send: `symbol.trim().toUpperCase()`. */
  function NormalizeTicker(symbol: string): (t: string)
    ensures |t| <= |symbol|
    ensures Bare(JavaScript, t)
    ensures t == "" <==> Blank(JavaScript, symbol)
  {
    UpperBare(JavaScript, Strip(JavaScript, symbol));
    Upper(Strip(JavaScript, symbol))
  }

  /** The message `fetchFundamentalAnalysis` rethrows, and `handleSubmit` shows. */
  function AnalysisError(reply: AnalysisReply): (m: string)
    requires !reply.AnalysisOk?
    ensures |m| >= |"Analysis failed: "| && m[..|"Analysis failed: "|] == "Analysis failed: "
    ensures reply.AnalysisNotOk? ==> m == "Analysis failed: " + OrElse(reply.detail, "Failed to fetch fundamental analysis")
    ensures reply.AnalysisThrew? ==> m == "Analysis failed: " + reply.message
  {
    var inner := match reply
      case AnalysisNotOk(detail) => OrElse(detail, "Failed to fetch fundamental analysis")
      case AnalysisThrew(message) => message;
    "Analysis failed: " + inner
  }

  /** The name `handleDownload` gives the analysis file: the symbol
      upper-cased (not trimmed) and '_analysis.txt'. */
  function DownloadFilename(symbol: string): (r: string)
    ensures |r| == |symbol| + 13
    ensures r[..|symbol|] == Upper(symbol) && r[|symbol|..] == "_analysis.txt"
  {
    Upper(symbol) + "_analysis.txt"
  }

  /** A symbol without Python-only whitespace that the page sends is accepted
      unchanged by the chart endpoint's ticker validator. */
  lemma TickerAcceptedByBackend(symbol: string)
    requires !Blank(JavaScript, symbol)
    requires forall i :: 0 <= i < |symbol| ==> (IsPySpace(symbol[i]) ==> IsJsSpace(symbol[i]))
    ensures Backend.ValidateTicker(NormalizeTicker(symbol)) == Ok(NormalizeTicker(symbol))
  {
    var s := Strip(JavaScript, symbol);
    var t := NormalizeTicker(symbol);
    assert s == TrimEnd(JavaScript, TrimStart(JavaScript, symbol));
    assert forall c :: c in s ==> c in symbol;
    UpperCharKeepsSpace(Python, s[0]);
    UpperCharKeepsSpace(Python, s[|s| - 1]);
    assert Bare(Python, t);
    StripBare(Python, t);
    UpperIdempotent(s);
  }

  class Page {
    var stockSymbol: string
    var analysisResponse: string
    var chartUrl: string
    var isLoading: bool
    var error: string

    constructor ()
      ensures stockSymbol == "" && analysisResponse == "" && chartUrl == "" && !isLoading && error == ""
    {
      stockSymbol := "";
      analysisResponse := "";
      chartUrl := "";
      isLoading := false;
      error := "";
    }

    /** Editing the symbol clears the error. */
    method EditSymbol(text: string)
      modifies this`stockSymbol, this`error
      ensures stockSymbol == text && error == ""
    {
      stockSymbol := text;
      error := "";
    }

    /** The submit button is disabled while loading or when the symbol is blank. */
    predicate SubmitEnabled()
      reads this
    {
      !isLoading && !Blank(JavaScript, stockSymbol)
    }

    /** `handleSubmit`: clears the outputs; a blank symbol only sets the
        error; otherwise the analysis is requested, and the chart only after
        the analysis arrived. Loading is off at the end of every path. */
    method HandleSubmit(analysis: AnalysisReply, chart: ChartReply) returns (requests: seq<Request>)
      modifies this`isLoading, this`analysisResponse, this`chartUrl, this`error
      ensures !isLoading
      ensures Blank(JavaScript, stockSymbol) ==>
                requests == [] && error == EnterSymbol && analysisResponse == "" && chartUrl == ""
      ensures !Blank(JavaScript, stockSymbol) && analysis.AnalysisOk? ==>
                requests == [FundamentalRequest(NormalizeTicker(stockSymbol)), ChartRequest(NormalizeTicker(stockSymbol))]
                && analysisResponse == analysis.analysis
                && (chart.ChartOk? ==> chartUrl == chart.url && error == "")
                && (chart.ChartFailed? ==> chartUrl == "" && error == ChartUnavailable)
      ensures !Blank(JavaScript, stockSymbol) && !analysis.AnalysisOk? ==>
                requests == [FundamentalRequest(NormalizeTicker(stockSymbol))]
                && analysisResponse == "" && chartUrl == "" && error == AnalysisError(analysis)
    {
      isLoading := true;
      analysisResponse := "";
      chartUrl := "";
      error := "";
      if Strip(JavaScript, stockSymbol) == "" {
        error := EnterSymbol;
        isLoading := false;
        return [];
      }
      var ticker := Upper(Strip(JavaScript, stockSymbol));
      requests := [FundamentalRequest(ticker)];
      if analysis.AnalysisOk? {
        analysisResponse := analysis.analysis;
        requests := requests + [ChartRequest(ticker)];
        match chart {
          case ChartOk(url) => chartUrl := url;
          case ChartFailed => error := ChartUnavailable;
        }
      } else {
        var message := AnalysisError(analysis);
        error := OrElse(Some(message), "Failed to fetch analysis. Please try again.");
        analysisResponse := "";
      }
      isLoading := false;
    }

    /** `handleDownload`: the file name for the current symbol. */
    method HandleDownload() returns (filename: string)
      ensures filename == DownloadFilename(stockSymbol)
    {
      filename := DownloadFilename(stockSymbol);
    }
  }
}
