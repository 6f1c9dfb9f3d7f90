# LLM Toolbox: research session controller and its validation rules

This project models the stateful core of the LLM Toolbox web application and
proves properties of that model in Dafny.

- **Research session controller** (the Scientific page). The user searches
  arXiv, ticks papers, builds a vector index from them, and then chats about
  the indexed papers. The page's state cells become the fields of the class
  `Scientific.Session`: `papers`, `selectedPapers`, `stage`, `indexExists`,
  `error`, `loading`, the append-only chat log `messages`, `chatInput` and
  `isChatOpen`. Each event handler is one atomic method. The reply of the one
  request a handler awaits is a parameter of that method, for example
  `SearchOk(papers) | SearchErr(detail)`. Two invariants are kept by every
  handler: the selection has no duplicates, and the chat log is a list of
  exchanges (a user message, then exactly one bot message).
- **Backend rules** (`Backend`, `AuxScientific`). These cover the filename
  sanitiser, the ticker validator, the model option kept in `app.state`
  (set at startup and by `/model_def`), and the chart period whitelist. They
  also cover the two research endpoints: the list of papers returned by the
  search, and the collection of non-blank documents before indexing.
- **Other pages** (`Post`, `StockAnalysis`, `Home`). These are the
  social-post page (download name, image-reply handling), the stock-analysis
  page (analysis first, chart only after it), and the model selector (the
  choice is reset when the switch fails).

String primitives are in `Text`: Python's and JavaScript's whitespace sets,
trimming, ASCII upper-casing and single-character replacement. `Common`
holds `Option`, `Result` and JavaScript's `a || b` on strings.

Behaviour of the code worth knowing:
- after a successful search the page's stage is `'process'`;
- neither a new search nor a successful process clears `selectedPapers`, so
  a selection may name papers that are no longer listed;
- `chatInput` is cleared once the chat reply has settled, so during the
  request the input still shows the question;
- the selection is a list. Toggling a selected filename twice selects the
  same filenames again, but moves that filename to the end
  (`Scientific.ToggleTwice`).

## Model

| member | source | states |
|---|---|---|
| `Scientific.Session.constructor` | frontend/src/pages/Scientific/Scientific.js:7-19 | The page starts at the search stage with no index, no papers, no selection, no error, no messages and the chat closed; the invariant holds. |
| `Scientific.Session.CheckExistingIndex` | frontend/src/pages/Scientific/Scientific.js:24-34 | The mount-time check sets `indexExists` from the reply. A failed check only logs, so `indexExists` keeps its value (false on mount). Nothing else changes. |
| `Scientific.Session.SetQuery` | frontend/src/pages/Scientific/Scientific.js:127-132 | Typing in the search box changes only the query. |
| `Scientific.Session.SetMaxResults` | frontend/src/pages/Scientific/Scientific.js:137-143 | The range input sets the result count, which lies between 1 and 50. |
| `Scientific.Session.HandleSearch` | frontend/src/pages/Scientific/Scientific.js:70-89 | The request carries the query and the result count. Success: `papers` is the reply's list, the stage is `'process'`, there is no error. Failure: `papers` is empty, the stage is unchanged, and the error is the server detail or 'An error occurred'. Loading is off at the end. The selection and the chat are untouched. |
| `Scientific.Session.HandlePaperSelection` | frontend/src/pages/Scientific/Scientific.js:91-97 | The selection becomes the toggled list and still has no duplicates. |
| `Scientific.Without` | frontend/src/pages/Scientific/Scientific.js:94 | The filter removes exactly the given filename: every other filename keeps its membership, an absent filename leaves the list equal, and a list without duplicates stays so. |
| `Scientific.Toggle` | frontend/src/pages/Scientific/Scientific.js:92-96 | The selection updater: remove the filename when it is selected, append it otherwise. Its properties are stated by the three lemmas below. |
| `Scientific.ToggleMembership` | frontend/src/pages/Scientific/Scientific.js:92-96 | A toggle adds the filename exactly when it was absent (appending it), removes it exactly when present, and leaves every other filename's membership alone. |
| `Scientific.ToggleNoDuplicates` | frontend/src/pages/Scientific/Scientific.js:92-96 | A toggle never introduces a duplicate. |
| `Scientific.ToggleTwice` | frontend/src/pages/Scientific/Scientific.js:92-96 | Toggling twice restores the list when the filename was absent. It always restores membership. When the filename was present, it ends up at the end. |
| `Scientific.WithoutAppended` | frontend/src/pages/Scientific/Scientific.js:94-95 | Filtering out a filename that was just appended to a list without it gives that list back. |
| `Scientific.Session.ProcessPapers` | frontend/src/pages/Scientific/Scientific.js:99-120 | Empty selection: no request is made, the error is 'Please select at least one paper', and stage, index flag and loading are unchanged. Otherwise the selection is sent. Success: the stage is `'search'`, the index exists and there is no error. Failure: stage and index flag are unchanged, and the error is the detail or 'Error processing papers'. Loading is off at the end. The selection is never cleared. |
| `Scientific.BotText` | frontend/src/pages/Scientific/Scientific.js:57-64 | The bot message is the reply text. On failure it is the server detail, else 'Error in chat', so the failure text is never empty. |
| `Scientific.ChatRefused` | frontend/src/pages/Scientific/Scientific.js:47 | A chat submit is refused exactly when the trimmed input is empty or no index exists. |
| `Scientific.Session.HandleChatSubmit` | frontend/src/pages/Scientific/Scientific.js:45-68 | Refused when the trimmed input is empty or no index exists: no request is made and nothing changes. Otherwise the input is sent and the log becomes the old log plus the user message and then exactly one bot message. The input is cleared after the reply. The exchange invariant is kept. |
| `Scientific.ExchangeAppended` | frontend/src/pages/Scientific/Scientific.js:50-64 | Appending a user message and its bot reply to a list of exchanges gives a list of exchanges. |
| `Scientific.ExchangesAlternate` | frontend/src/pages/Scientific/Scientific.js:45-68 | In the chat log the user messages sit exactly at the even positions, so each is followed by its bot reply, and the log has even length. |
| `Scientific.Walkthrough` | frontend/src/pages/Scientific/Scientific.js:70-120 | The page's handlers alone are enough to reach the indexed state from mount: search, select a paper, unselect it, reselect it and process. Processing the empty selection in between is refused by the handler's own guard. On the page the button is disabled while the selection is empty (Scientific.js line 171), so only a direct call reaches that guard. The result is a valid session at the search stage with that one paper selected and the chat closed and empty. |
| `Scientific.WalkthroughChat` | frontend/src/pages/Scientific/Scientific.js:45-68 | On that session, opening the chat and asking a non-blank question sends it. A failed reply still answers it with the server detail, leaving one exchange in the log, and the input is cleared. |
| `Scientific.Session.ChatVisible` | frontend/src/pages/Scientific/Scientific.js:196-207 | The chat panel is on screen only while the index exists and the panel is open. |
| `Scientific.Session.OpenChat` | frontend/src/pages/Scientific/Scientific.js:198-205 | The chat button exists only while the index exists and the panel is closed. Opening changes nothing but `isChatOpen`, so the messages stay. |
| `Scientific.Session.CloseChat` | frontend/src/pages/Scientific/Scientific.js:214-219 | Minimising closes the panel and changes nothing else. |
| `Scientific.Session.SetChatInput` | frontend/src/pages/Scientific/Scientific.js:238-244 | The chat input can be edited only while the panel is visible, and editing changes only `chatInput`. |
| `AuxScientific.SanitizeFilename` | backend/aux_scientific.py:39-47 | The two separator replacements followed by the loop over `invalid_chars` compute `Sanitized`. |
| `AuxScientific.MaskStep` | backend/aux_scientific.py:44-46 | One more `replace(c, '_')` on a partly sanitised name also replaces `c`. This is the loop invariant's step. |
| `AuxScientific.SanitizedLength` | backend/aux_scientific.py:42-46 | Sanitising keeps the length: each offending character becomes exactly one '_'. |
| `AuxScientific.SanitizedAt` | backend/aux_scientific.py:42-46 | At every position, a character from `/ \ < > : " \| ? *` becomes '_' and any other character is kept. |
| `AuxScientific.SanitizedIsClean` | backend/aux_scientific.py:42-46 | The result contains none of the nine offending characters, in particular no path separator. |
| `AuxScientific.SanitizedFixedPoint` | backend/aux_scientific.py:42-46 | A name is returned unchanged if and only if it contains no offending character. |
| `AuxScientific.SanitizedIdempotent` | backend/aux_scientific.py:42-46 | Sanitising twice gives the same as sanitising once. |
| `Text.Strip` | backend/main.py:122-123 | `strip()` (and, with the JavaScript whitespace set, `trim()`) leaves no whitespace at either end. It is empty exactly when the input is all whitespace. |
| `Text.Upper` | backend/main.py:122 | `upper()` (and `toUpperCase()`) keeps the length and upper-cases each ASCII letter in place. The lemmas `UpperIdempotent` and `UpperBare` say that a second pass changes nothing, and that a string with no whitespace at its ends keeps none there after upper-casing. |
| `Text.ReplaceChar` | backend/aux_scientific.py:42 | `str.replace` of one character keeps the length, replaces every occurrence and keeps every other character in place. |
| `Backend.ValidateTicker` | backend/main.py:120-125 | The validator raises 'Ticker symbol cannot be empty' exactly when the input is empty or only whitespace. Otherwise it returns the stripped, upper-cased input, which is non-empty and has no whitespace at either end. |
| `Backend.ValidateTickerIdempotent` | backend/main.py:122-125 | A validated ticker validates again to itself. |
| `Backend.GenerateTaChart` | backend/main.py:146-211 | A period outside the eleven listed values returns False before any data is fetched. A listed period fetches, and succeeds exactly when the chart is drawn and saved. |
| `Backend.ChartEndpointPeriodAccepted` | backend/main.py:586-590 | The chart endpoint always passes '1y', which the whitelist accepts. |
| `Backend.ModelOption` | backend/main.py:222-231 | 'Llama Meta' selects option 2, 'OpenAI' selects option 1, and every other name selects none. |
| `Backend.ModelDefReply` | backend/main.py:222-245 | The status is "success" exactly for the two known names, with the loaded-model message. Otherwise it is "error" with a message that names the model. |
| `Backend.AppState.Startup` | backend/main.py:624-634 | On startup the option is 1 (OpenAI) and no model name is stored. |
| `Backend.AppState.ModelDef` | backend/main.py:216-251 | The reply is `ModelDefReply(name)`. A known name stores the name and its option. Any other name leaves `app.state` untouched. The option is always 1 or 2 and agrees with the stored name. |
| `Backend.Entry` | backend/main.py:391-399 | A stored result is listed with its title and `sanitize_filename(short_id + ".pdf")`. |
| `Backend.Listed` | backend/main.py:387-401 | The entries of the stored results, in order. `ListedExactly` and `ListedFilenamesAreSafe` state its properties. |
| `Backend.SearchArxiv` | backend/main.py:377-406 | The loop returns, in order, one entry per result whose PDF was stored. Each entry has the title and `sanitize_filename(short_id + ".pdf")`. |
| `Backend.ListedExactly` | backend/main.py:387-404 | Every returned entry comes from a stored result, and every stored result is returned. |
| `Backend.ListedFilenamesAreSafe` | backend/main.py:391-392 | No returned filename contains '/' or '\\'. |
| `Backend.Documents` | backend/main.py:418-427 | The extracted texts that are non-blank after `strip()`, in order. `DocumentsExactly` states its properties. |
| `Backend.ProcessPapers` | backend/main.py:408-445 | The documents are the extracted texts that are non-blank after `strip()`, in order. With none left the reply is 400 'No documents were successfully processed!'. Otherwise it is the success message, or 500 'Error creating index: …' when the build fails. |
| `Backend.DocumentsExactly` | backend/main.py:418-429 | Every kept document is non-blank, and there is none exactly when every extracted text is blank. |
| `Post.Page.constructor` | frontend/src/pages/Post/Post.js:6-11 | The page starts with empty input, no post, no images, no error and nothing loading. |
| `Post.Page.SetUserInput` | frontend/src/pages/Post/Post.js:106 | Typing changes only the input. |
| `Post.Page.SubmitEnabled` | frontend/src/pages/Post/Post.js:111 | The generate button is enabled only when idle and the trimmed input is non-empty. |
| `Post.Page.HandleSubmit` | frontend/src/pages/Post/Post.js:13-37 | The input is sent, and the images are cleared. Success: the reply becomes the post and there is no error. A non-ok or failed request sets 'Error processing your request' and keeps the previous post. Loading is off at the end. |
| `Post.MaskNonAlnum` | frontend/src/pages/Post/Post.js:47 | Every character outside `[A-Za-z0-9]` becomes '_', all others are kept in place. |
| `Post.Stem` | frontend/src/pages/Post/Post.js:47 | The stem is the first (at most) 20 characters, each an ASCII letter, digit or '_'. |
| `Post.DownloadFilename` | frontend/src/pages/Post/Post.js:46-48 | The name is 'social_post.md' for an empty input. Otherwise it is the stem followed by '.md', at most 23 characters. |
| `Post.Page.HandleDownload` | frontend/src/pages/Post/Post.js:39-50 | Without a post nothing is downloaded. Otherwise the file gets `DownloadFilename(userInput)`. |
| `Post.QuotesSwapped` | frontend/src/pages/Post/Post.js:81 | Before parsing, every `'` becomes `"` and every other character is kept, so no single quote remains. |
| `Post.Page.HandleImageGeneration` | frontend/src/pages/Post/Post.js:59-91 | Without a post: the error is 'Please generate a post first.' and no request is made. Otherwise the post is sent. A list reply becomes the images. A string reply that parses after quote swapping becomes the images. Any other outcome sets the fetch error and keeps the images. Image loading is off at the end. |
| `StockAnalysis.NormalizeTicker` | frontend/src/pages/Financial/StockAnalysis.js:20 | The sent ticker has no whitespace at either end, is no longer than the symbol, and is empty exactly when the symbol is blank. |
| `StockAnalysis.TickerAcceptedByBackend` | frontend/src/pages/Financial/StockAnalysis.js:45 | For a non-blank symbol without Python-only whitespace, the backend's `validate_ticker` accepts the sent ticker unchanged. |
| `StockAnalysis.AnalysisError` | frontend/src/pages/Financial/StockAnalysis.js:24-34 | An analysis failure is rethrown as 'Analysis failed: ' followed by one of three texts. A non-ok reply gives its `detail`, or 'Failed to fetch fundamental analysis' when the detail is absent or empty. A thrown error gives its message. |
| `StockAnalysis.Page.constructor` | frontend/src/pages/Financial/StockAnalysis.js:6-10 | The page starts with empty symbol, analysis, chart and error, and nothing loading. |
| `StockAnalysis.Page.EditSymbol` | frontend/src/pages/Financial/StockAnalysis.js:126-129 | Editing the symbol clears the error. |
| `StockAnalysis.Page.SubmitEnabled` | frontend/src/pages/Financial/StockAnalysis.js:141 | Submit is enabled only when idle and the symbol is not blank. |
| `StockAnalysis.Page.HandleSubmit` | frontend/src/pages/Financial/StockAnalysis.js:63-95 | Blank symbol: no request, the error is 'Please enter a stock symbol', and the outputs are empty. Otherwise the analysis is requested with the normalised ticker. The chart is requested only after the analysis succeeded. A chart failure keeps the analysis and sets 'Chart generation failed, but analysis is available'. An analysis failure leaves analysis and chart empty and shows the wrapped message. Loading is off on every path. |
| `StockAnalysis.DownloadFilename` | frontend/src/pages/Financial/StockAnalysis.js:101 | The name is the upper-cased (untrimmed) symbol followed by '_analysis.txt'. |
| `StockAnalysis.Page.HandleDownload` | frontend/src/pages/Financial/StockAnalysis.js:97-106 | The download uses `DownloadFilename(stockSymbol)`. |
| `Home.FromBackend` | frontend/src/pages/Home/Home.js:38-53 | The reply the page decodes when `/model_def` answers: the backend's status and message. `OfferedModelsSucceed` uses it to connect the page with the backend. |
| `Home.Page.constructor` | frontend/src/pages/Home/Home.js:12-14 | The selector starts with no model, no error and nothing loading. |
| `Home.ModelError` | frontend/src/pages/Home/Home.js:24-35 | A transport failure gives 'Failed to communicate with the server. Please try again.'. A reply gives an error exactly when its status is 'error'. That error is the reply's message, or 'Failed to switch model. Please try again.' when the message is absent or empty. Every error shown is non-empty. |
| `Home.Page.HandleModelChange` | frontend/src/pages/Home/Home.js:16-36 | The empty option sends nothing and changes nothing. Any other choice is sent and loading is off afterwards. The error is `ModelError(reply)`. The choice is kept exactly when there is no error, and reset to '' otherwise. |
| `Home.Page.ShowsSuccess` | frontend/src/pages/Home/Home.js:69-75 | The success banner shows exactly when a model is chosen, there is no error and nothing is loading. |
| `Home.OfferedModelsSucceed` | frontend/src/pages/Home/Home.js:6-32 | When the backend answers, the switch succeeds exactly for the two offered names. Any other name shows the backend's invalid-model message. |
| `Home.OfferedModelShowsSuccess` | frontend/src/pages/Home/Home.js:16-36 | Choosing either offered model, with the modelled backend answering, leaves the success banner on with that model. |
| `Common.OrElse` | frontend/src/pages/Scientific/Scientific.js:61 | `detail \|\| fallback` is the detail when it is present and non-empty, and the fallback otherwise. |

## Left out

- Network calls are not modelled. This covers axios and fetch, the arXiv client, the OpenAI and llama_index index build and chat engine, and the CrewAI crews. Each appears only as the reply passed to a handler, or as an abstract outcome (`ArxivResult.stored`, `BuildOutcome`, `ChartData`).
- Overlapping handlers are not modelled, for example two searches or two chat submits in flight. Each handler is one atomic transition, so a race where the last reply wins is not represented.
- File-system and PDF work is not modelled: `init_directories`, `extract_text_from_pdf` (a function parameter `extract` of `Backend.ProcessPapers`), the check for an existing PDF, the temp-chart cleanup, choosing the newest file, and the `docstore.json` check behind `/arxiv/existing_index`.
- The `generate_chart` endpoint is modelled only for the period it passes. Its replies (file or failure body) are not modelled. Plotting, pandas and floating point in `generate_ta_chart` and `aux_crewai.py` are out of scope.
- `JSON.parse` is a parameter of `Post.Page.HandleImageGeneration` that returns a list or fails. A parse that yields a non-list JSON value is not distinguished.
- Rendering is not modelled: scroll-into-view, blobs, object URLs and download links. The `required` attribute on the search box, which stops the browser submitting an empty query, is also left out, so `HandleSearch` accepts any query.
- The model assumes each reply field has its declared type. A `detail` that is not a string, such as FastAPI's validation-error list, is not modelled, and neither is a missing `papers` or `response` field.
- Backend.AppState.ModelDef: the `except` branch ('Error loading model: …') is not modelled. It is reachable only if one of the `print` calls fails after `app.state` was written; on that path the source replies "error" with the state already changed, which the model does not represent.
- Text.Upper: only ASCII letters are upper-cased. Python's `upper()` and JavaScript's `toUpperCase()` also map other letters, and some of those change the length (for example 'ß' becomes 'SS').
- Post.Stem: JavaScript's `slice(0, 20)` and the regular expression work on UTF-16 code units, but the model works on Unicode scalar values. The two differ for characters outside the Basic Multilingual Plane.
- The content endpoints are not modelled. `/blog_request` and `/posts_request` pick one of two crews by `app.state.option`; `/images_request`, `/latest_news` and `/fundamental_analysis` always run one fixed crew. Each relays the crew's output.
- The glue pages Blog.js, LatestNews.js, Financial.js, App.js and AboutUs.js are not modelled. They hold only request/response relays, alerts, routing and static content.
