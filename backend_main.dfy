/** The FastAPI backend: request validation, the model option kept in the
    application state, the chart period whitelist, and the two research
    endpoints that list downloaded papers and collect documents to index.
    Network, file-system and language-model work is abstracted as inputs. */
module Backend {
  import opened Common
  import opened Text
  import opened AuxScientific

  // ---------------------------------------------------------------------------
  // ChartRequest.validate_ticker

  const EmptyTickerMessage := "Ticker symbol cannot be empty"

  /** The pydantic validator of `ChartRequest.ticker`: strip, upper-case, and
      raise `ValueError` when nothing is left. */
  function ValidateTicker(v: string): (r: Result<string>)
    ensures r.Err? <==> Blank(Python, v)
    ensures r.Err? ==> r.message == EmptyTickerMessage
    ensures r.Ok? ==> r.value == Upper(Strip(Python, v)) && r.value != "" && Bare(Python, r.value)
  {
    var t := Upper(Strip(Python, v));
    UpperBare(Python, Strip(Python, v));
    if t == "" then Err(EmptyTickerMessage) else Ok(t)
  }

  /** A validated ticker passes validation again unchanged. */
  lemma ValidateTickerIdempotent(v: string)
    requires ValidateTicker(v).Ok?
    ensures ValidateTicker(ValidateTicker(v).value) == ValidateTicker(v)
  {
    var t := ValidateTicker(v).value;
    StripBare(Python, t);
    UpperIdempotent(Strip(Python, v));
  }

  // ---------------------------------------------------------------------------
  // generate_ta_chart: the period whitelist

  const ValidPeriods: seq<string> := ["1d", "5d", "1mo", "3mo", "6mo", "1y", "2y", "5y", "10y", "ytd", "max"]

  /** What the market-data download and the plotting would do, were they reached. */
  datatype ChartData = NoData | Plotted | PlotFailed

  /** Whether `generate_ta_chart` fetched any data, and what it returned. */
  datatype ChartRun = ChartRun(fetched: bool, success: bool)

  /** `generate_ta_chart(ticker, period)`: a period outside the whitelist is
      refused before any data is fetched. */
  function GenerateTaChart(period: string, data: ChartData): (run: ChartRun)
    ensures period !in ValidPeriods ==> run == ChartRun(false, false)
    ensures period in ValidPeriods ==> run.fetched
    ensures run.success <==> period in ValidPeriods && data == Plotted
  {
    if period !in ValidPeriods then ChartRun(false, false)
    else ChartRun(true, data == Plotted)
  }

  /** The chart endpoint always asks for '1y', which the whitelist accepts,
      so its outcome depends only on the data. */
  lemma ChartEndpointPeriodAccepted(data: ChartData)
    ensures GenerateTaChart("1y", data) == ChartRun(true, data == Plotted)
  {
    assert ValidPeriods[5] == "1y";
  }

  // ---------------------------------------------------------------------------
  // /model_def and startup_event

  datatype ModResponse = ModResponse(status: string, message: string)

  const LlamaModel := "Llama Meta"
  const OpenAIModel := "OpenAI"

  /** The option a model name selects: 2 for Llama, 1 for OpenAI, none otherwise. */
  function ModelOption(name: string): (r: Option<int>)
    ensures r.Some? <==> name == LlamaModel || name == OpenAIModel
    ensures r.Some? ==> r.value == (if name == LlamaModel then 2 else 1)
  {
    if name == LlamaModel then Some(2)
    else if name == OpenAIModel then Some(1)
    else None
  }

  /** The reply of `/model_def` to a model name. */
  function ModelDefReply(name: string): (r: ModResponse)
    ensures r.status == "success" <==> ModelOption(name).Some?
    ensures r.status == "success" || r.status == "error"
    ensures r.status == "success" ==> r.message == "Successfully loaded model: " + name
    ensures r.status == "error" ==> r.message == "Invalid model name: " + name + ". Must be 'Llama Meta' or 'OpenAI'"
  {
    if ModelOption(name).Some? then ModResponse("success", "Successfully loaded model: " + name)
    else ModResponse("error", "Invalid model name: " + name + ". Must be 'Llama Meta' or 'OpenAI'")
  }

  /** `app.state`: the option the content endpoints read and the last model name stored. */
  class AppState {
    var option: int
    var modelName: Option<string>

    /** The option is always one of the two, and agrees with the stored name. */
    ghost predicate Valid()
      reads this
    {
      (option == 1 || option == 2)
      && (modelName.Some? ==> ModelOption(modelName.value) == Some(option))
    }

    /** `startup_event`: OpenAI (option 1) by default, no model name stored yet. */
    constructor Startup()
      ensures Valid()
      ensures option == 1 && modelName == None
    {
      option := 1;
      modelName := None;
    }

    /** `/model_def`: a known name updates the state, any other leaves it untouched. */
    method ModelDef(name: string) returns (reply: ModResponse)
      requires Valid()
      modifies this
      ensures Valid()
      ensures reply == ModelDefReply(name)
      ensures reply.status == "success" ==> option == ModelOption(name).value && modelName == Some(name)
      ensures reply.status == "error" ==> option == old(option) && modelName == old(modelName)
    {
      if name != LlamaModel && name != OpenAIModel {
        reply := ModResponse("error", "Invalid model name: " + name + ". Must be 'Llama Meta' or 'OpenAI'");
        return;
      }
      modelName := Some(name);
      option := if name == LlamaModel then 2 else 1;
      reply := ModResponse("success", "Successfully loaded model: " + name);
    }
  }

  // ---------------------------------------------------------------------------
  // /arxiv/search

  /** One result of the arXiv client. `stored` is false when downloading its
      PDF raised (the loop then skips it). */
  datatype ArxivResult = ArxivResult(shortId: string, title: string, stored: bool)

  datatype PaperInfo = PaperInfo(title: string, filename: string)

  /** The entry the endpoint lists for a stored result. */
  function Entry(p: ArxivResult): PaperInfo {
    PaperInfo(p.title, Sanitized(p.shortId + ".pdf"))
  }

  /** The papers the search endpoint returns, in the client's order. */
  function Listed(results: seq<ArxivResult>): seq<PaperInfo> {
    if results == [] then []
    else
      var p := results[|results| - 1];
      Listed(results[..|results| - 1]) + (if p.stored then [Entry(p)] else [])
  }

  /** `search_arxiv`: the loop appending one entry per stored result. */
  method SearchArxiv(results: seq<ArxivResult>) returns (papers: seq<PaperInfo>)
    ensures papers == Listed(results)
  {
    papers := [];
    for i := 0 to |results|
      invariant papers == Listed(results[..i])
    {
      var p := results[i];
      assert results[..i + 1][..i] == results[..i];
      if p.stored {
        var safe := SanitizeFilename(p.shortId + ".pdf");
        papers := papers + [PaperInfo(p.title, safe)];
      }
    }
    assert results[..|results|] == results;
  }

  /** Every listed entry comes from a stored result, and every stored result is listed. */
  lemma {:induction false} ListedExactly(results: seq<ArxivResult>)
    ensures forall e :: e in Listed(results) ==> exists p :: p in results && p.stored && e == Entry(p)
    ensures forall p :: p in results && p.stored ==> Entry(p) in Listed(results)
  {
    if results != [] {
      var init := results[..|results| - 1];
      ListedExactly(init);
      assert results == init + [results[|results| - 1]];
    }
  }

  /** No listed filename contains a path separator. */
  lemma ListedFilenamesAreSafe(results: seq<ArxivResult>)
    ensures forall e :: e in Listed(results) ==> '/' !in e.filename && '\\' !in e.filename
  {
    ListedExactly(results);
    forall e | e in Listed(results) ensures '/' !in e.filename && '\\' !in e.filename {
      var p :| p in results && p.stored && e == Entry(p);
      SanitizedIsClean(p.shortId + ".pdf");
    }
  }

  // ---------------------------------------------------------------------------
  // /arxiv/process_papers

  /** How building and persisting the vector index ends. */
  datatype BuildOutcome = Built | BuildFailed(reason: string)

  datatype ProcessReply = Created(status: string, message: string) | HttpError(code: int, detail: string)

  const NoDocumentsDetail := "No documents were successfully processed!"

  /** The texts kept as documents: those that are not blank once stripped.
      `extract` is what text extraction gives for a file (empty on failure). */
  function Documents(filenames: seq<string>, extract: string -> string): seq<string> {
    if filenames == [] then []
    else
      var t := extract(filenames[|filenames| - 1]);
      Documents(filenames[..|filenames| - 1], extract) + (if Strip(Python, t) != "" then [t] else [])
  }

  /** `process_papers`: collect the documents, refuse with 400 when none is
      left, otherwise report how building the index went. */
  method ProcessPapers(filenames: seq<string>, extract: string -> string, build: BuildOutcome)
    returns (documents: seq<string>, reply: ProcessReply)
    ensures documents == Documents(filenames, extract)
    ensures documents == [] ==> reply == HttpError(400, NoDocumentsDetail)
    ensures documents != [] && build == Built ==> reply == Created("success", "Index created successfully")
    ensures documents != [] && build.BuildFailed? ==> reply == HttpError(500, "Error creating index: " + build.reason)
  {
    documents := [];
    for i := 0 to |filenames|
      invariant documents == Documents(filenames[..i], extract)
    {
      assert filenames[..i + 1][..i] == filenames[..i];
      var text := extract(filenames[i]);
      if Strip(Python, text) != "" {
        documents := documents + [text];
      }
    }
    assert filenames[..|filenames|] == filenames;
    if documents == [] {
      reply := HttpError(400, NoDocumentsDetail);
      return;
    }
    match build
    case Built => reply := Created("success", "Index created successfully");
    case BuildFailed(e) => reply := HttpError(500, "Error creating index: " + e);
  }

  /** Every document is non-blank, and there is none exactly when every
      extracted text is blank. */
  lemma {:induction false} DocumentsExactly(filenames: seq<string>, extract: string -> string)
    ensures forall d :: d in Documents(filenames, extract) ==> !Blank(Python, d)
    ensures Documents(filenames, extract) == [] <==>
              forall i :: 0 <= i < |filenames| ==> Blank(Python, extract(filenames[i]))
  {
    if filenames != [] {
      var init := filenames[..|filenames| - 1];
      var t := extract(filenames[|filenames| - 1]);
      DocumentsExactly(init, extract);
      forall i | 0 <= i < |init| ensures init[i] == filenames[i] { }
      if Strip(Python, t) == "" {
        assert Documents(filenames, extract) == Documents(init, extract);
      } else {
        assert Documents(filenames, extract) == Documents(init, extract) + [t];
        assert !Blank(Python, t);
      }
    }
  }
}
