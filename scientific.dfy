/** The research-session controller of the Scientific page: search arXiv,
    select papers, build an index from them, and chat about the indexed
    papers. Each handler is one atomic transition; the reply of the request
    it awaits is a parameter. */
module Scientific {
  import opened Common
  import opened Text

  datatype Paper = Paper(title: string, filename: string)

  /** The page shows either the search form or the paper selection. */
  datatype Stage = Search | Process

  datatype Sender = User | Bot

  datatype ChatMessage = ChatMessage(text: string, kind: Sender)

  /** What each awaited request settles to; an error may carry the server's `detail`. */
  datatype IndexReply = IndexFound(exists_: bool) | IndexCheckFailed
  datatype SearchReply = SearchOk(papers: seq<Paper>) | SearchErr(detail: Option<string>)
  datatype ProcessReply = ProcessOk | ProcessErr(detail: Option<string>)
  datatype ChatReply = ChatOk(response: string) | ChatErr(detail: Option<string>)

  const SelectOnePaper := "Please select at least one paper"

  // ---------------------------------------------------------------------------
  // The selection list

  /** No filename occurs twice. */
  predicate NoDuplicates(s: seq<string>) {
    forall i, j :: 0 <= i < j < |s| ==> s[i] != s[j]
  }

  /** `prev.filter(f => f !== x)` */
  function Without(s: seq<string>, x: string): (r: seq<string>)
    ensures |r| <= |s|
    ensures x !in r
    ensures forall y :: y != x ==> (y in r <==> y in s)
    ensures x !in s ==> r == s
    ensures NoDuplicates(s) ==> NoDuplicates(r)
  {
    if s == [] then []
    else if s[0] == x then Without(s[1..], x)
    else
      var rest := Without(s[1..], x);
      assert NoDuplicates(s) ==> NoDuplicates(s[1..]) && s[0] !in s[1..];
      [s[0]] + rest
  }

  /** The updater of `handlePaperSelection`: remove the filename if present,
      append it otherwise. */
  function Toggle(s: seq<string>, x: string): seq<string> {
    if x in s then Without(s, x) else s + [x]
  }

  /** Toggling adds exactly the absent filename or removes exactly the present one. */
  lemma ToggleMembership(s: seq<string>, x: string)
    ensures x in Toggle(s, x) <==> x !in s
    ensures forall y :: y != x ==> (y in Toggle(s, x) <==> y in s)
    ensures x !in s ==> Toggle(s, x) == s + [x]
  {
  }

  /** Toggling never introduces a duplicate. */
  lemma ToggleNoDuplicates(s: seq<string>, x: string)
    requires NoDuplicates(s)
    ensures NoDuplicates(Toggle(s, x))
  {
    if x !in s {
      forall i, j | 0 <= i < j < |s| + 1 ensures (s + [x])[i] != (s + [x])[j] {
        if j == |s| {
          assert (s + [x])[i] == s[i];
        }
      }
    }
  }

  /** Toggling twice restores the list when the filename was absent; when it
      was present, the same filenames are selected again but it moves to the end. */
  lemma ToggleTwice(s: seq<string>, x: string)
    ensures x !in s ==> Toggle(Toggle(s, x), x) == s
    ensures forall y :: y in Toggle(Toggle(s, x), x) <==> y in s
    ensures x in s ==> Toggle(Toggle(s, x), x) == Without(s, x) + [x]
  {
    if x !in s {
      WithoutAppended(s, x);
    }
  }

  lemma {:induction false} WithoutAppended(s: seq<string>, x: string)
    requires x !in s
    ensures Without(s + [x], x) == s
  {
    if s != [] {
      assert (s + [x])[1..] == s[1..] + [x];
      WithoutAppended(s[1..], x);
    }
  }

  // ---------------------------------------------------------------------------
  // The chat log

  /** The log is a sequence of exchanges, each a user message followed by its bot reply. */
  predicate Exchanges(m: seq<ChatMessage>) {
    m == []
    || (|m| >= 2 && m[|m| - 2].kind == User && m[|m| - 1].kind == Bot && Exchanges(m[..|m| - 2]))
  }

  /** In a list of exchanges the user messages sit exactly at the even
      positions, each followed by a bot message. */
  lemma {:induction false} ExchangesAlternate(m: seq<ChatMessage>)
    requires Exchanges(m)
    ensures |m| % 2 == 0
    ensures forall i :: 0 <= i < |m| ==> (m[i].kind == User <==> i % 2 == 0)
  {
    if m != [] {
      var init := m[..|m| - 2];
      ExchangesAlternate(init);
      forall i | 0 <= i < |m| ensures m[i].kind == User <==> i % 2 == 0 {
        if i < |m| - 2 {
          assert m[i] == init[i];
        }
      }
    }
  }

  /** The text of the bot message a chat reply produces. */
  function BotText(reply: ChatReply): (t: string)
    ensures reply.ChatOk? ==> t == reply.response
    ensures reply.ChatErr? ==> t == OrElse(reply.detail, "Error in chat") && t != ""
  {
    match reply
    case ChatOk(text) => text
    case ChatErr(detail) => OrElse(detail, "Error in chat")
  }

  /** The submit guard `!chatInput.trim() || !indexExists`. */
  predicate ChatRefused(input: string, indexExists: bool) {
    Strip(JavaScript, input) == "" || !indexExists
  }

  class Session {
    var query: string
    var maxResults: int
    var papers: seq<Paper>
    var selectedPapers: seq<string>
    var loading: bool
    var error: Option<string>
    var stage: Stage
    var indexExists: bool
    var isChatOpen: bool
    var chatInput: string
    var messages: seq<ChatMessage>

    /** The selection has no duplicates and the chat log is a list of exchanges. */
    ghost predicate Valid()
      reads this
    {
      NoDuplicates(selectedPapers) && Exchanges(messages)
    }

    /** The chat panel (and with it the chat form) is on screen. */
    predicate ChatVisible()
      reads this
    {
      indexExists && isChatOpen
    }

    /** The initial state of the page. */
    constructor ()
      ensures Valid()
      ensures query == "" && maxResults == 10
      ensures papers == [] && selectedPapers == [] && !loading && error == None
      ensures stage == Search && !indexExists
      ensures !isChatOpen && chatInput == "" && messages == []
    {
      query := "";
      maxResults := 10;
      papers := [];
      selectedPapers := [];
      loading := false;
      error := None;
      stage := Search;
      indexExists := false;
      isChatOpen := false;
      chatInput := "";
      messages := [];
    }

    /** The mount-time index check: the reply sets `indexExists`; a failed
        check only logs, leaving it as it was. */
    method CheckExistingIndex(reply: IndexReply)
      requires Valid()
      modifies this`indexExists
      ensures Valid()
      ensures indexExists == if reply.IndexFound? then reply.exists_ else old(indexExists)
    {
      match reply
      case IndexFound(e) => indexExists := e;
      case IndexCheckFailed =>
    }

    method SetQuery(text: string)
      modifies this`query
      ensures query == text
    {
      query := text;
    }

    /** The range input only offers 1 to 50. */
    method SetMaxResults(n: int)
      requires 1 <= n <= 50
      modifies this`maxResults
      ensures maxResults == n
    {
      maxResults := n;
    }

    /** `handleSearch`: clears the error and the papers, then on success shows
        the reply's papers at the 'process' stage; the selection is not touched. */
    method HandleSearch(reply: SearchReply) returns (request: (string, int))
      requires Valid()
      modifies this`loading, this`error, this`papers, this`stage
      ensures Valid()
      ensures request == (query, maxResults)
      ensures !loading
      ensures reply.SearchOk? ==> papers == reply.papers && stage == Process && error == None
      ensures reply.SearchErr? ==>
                papers == [] && stage == old(stage) && error == Some(OrElse(reply.detail, "An error occurred"))
    {
      loading := true;
      error := None;
      papers := [];
      request := (query, maxResults);
      match reply {
        case SearchOk(found) =>
          papers := found;
          stage := Process;
        case SearchErr(detail) =>
          error := Some(OrElse(detail, "An error occurred"));
      }
      loading := false;
    }

    /** `handlePaperSelection`: toggles one filename in the selection. */
    method HandlePaperSelection(filename: string)
      requires Valid()
      modifies this`selectedPapers
      ensures Valid()
      ensures selectedPapers == Toggle(old(selectedPapers), filename)
    {
      ToggleNoDuplicates(selectedPapers, filename);
      selectedPapers := Toggle(selectedPapers, filename);
    }

    /** `processPapers`: with an empty selection only the error is set and no
        request is made; otherwise the selection is sent and a success turns
        the index on and returns to the search stage. */
    method ProcessPapers(reply: ProcessReply) returns (request: Option<seq<string>>)
      requires Valid()
      modifies this`loading, this`error, this`stage, this`indexExists
      ensures Valid()
      ensures request.None? <==> old(selectedPapers) == []
      ensures old(selectedPapers) == [] ==>
                error == Some(SelectOnePaper) && loading == old(loading)
                && stage == old(stage) && indexExists == old(indexExists)
      ensures old(selectedPapers) != [] ==> request == Some(selectedPapers) && !loading
      ensures old(selectedPapers) != [] && reply.ProcessOk? ==>
                stage == Search && indexExists && error == None
      ensures old(selectedPapers) != [] && reply.ProcessErr? ==>
                stage == old(stage) && indexExists == old(indexExists)
                && error == Some(OrElse(reply.detail, "Error processing papers"))
    {
      if |selectedPapers| == 0 {
        error := Some(SelectOnePaper);
        return None;
      }
      loading := true;
      error := None;
      request := Some(selectedPapers);
      match reply {
        case ProcessOk =>
          stage := Search;
          indexExists := true;
        case ProcessErr(detail) =>
          error := Some(OrElse(detail, "Error processing papers"));
      }
      loading := false;
    }

    /** The chat toggle button is rendered only while the index exists and the panel is closed. */
    method OpenChat()
      requires indexExists && !isChatOpen
      modifies this`isChatOpen
      ensures ChatVisible()
    {
      isChatOpen := true;
    }

    /** The minimise button is rendered only while the panel is open. */
    method CloseChat()
      requires ChatVisible()
      modifies this`isChatOpen
      ensures !isChatOpen
    {
      isChatOpen := false;
    }

    /** Typing in the chat input, which is on screen only with the panel. */
    method SetChatInput(text: string)
      requires ChatVisible()
      modifies this`chatInput
      ensures chatInput == text
    {
      chatInput := text;
    }

    /** `handleChatSubmit`: refused (nothing changes, no request) on blank
        input or without an index; otherwise the input is sent, the user
        message and then exactly one bot message are appended, and the input
        is cleared once the reply has settled. */
    method HandleChatSubmit(reply: ChatReply) returns (request: Option<string>)
      requires Valid()
      modifies this`messages, this`chatInput
      ensures Valid()
      ensures request.None? <==> ChatRefused(old(chatInput), indexExists)
      ensures request.None? ==> messages == old(messages) && chatInput == old(chatInput)
      ensures request.Some? ==>
                request.value == old(chatInput) && chatInput == ""
                && messages == old(messages) + [ChatMessage(old(chatInput), User), ChatMessage(BotText(reply), Bot)]
    {
      if Strip(JavaScript, chatInput) == "" || !indexExists {
        return None;
      }
      request := Some(chatInput);
      var answer := BotText(reply);
      ExchangeAppended(messages, chatInput, answer);
      messages := messages + [ChatMessage(chatInput, User), ChatMessage(answer, Bot)];
      chatInput := "";
    }
  }

  /** Appending one exchange keeps the log a list of exchanges. */
  lemma ExchangeAppended(m: seq<ChatMessage>, question: string, answer: string)
    requires Exchanges(m)
    ensures Exchanges(m + [ChatMessage(question, User), ChatMessage(answer, Bot)])
  {
    var m' := m + [ChatMessage(question, User), ChatMessage(answer, Bot)];
    assert m'[..|m'| - 2] == m;
  }

  /** A session walked through from mount to an indexed selection,
      reasoning only from the handlers' contracts. */
  method Walkthrough(papers: seq<Paper>, f: string) returns (s: Session)
    ensures fresh(s) && s.Valid() && s.indexExists && !s.isChatOpen && s.messages == []
    ensures s.stage == Search && s.selectedPapers == [f]
  {
    s := new Session();
    var searched := s.HandleSearch(SearchOk(papers));
    assert s.stage == Process && s.papers == papers && s.selectedPapers == [];

    s.HandlePaperSelection(f);
    assert s.selectedPapers == [f];
    s.HandlePaperSelection(f);
    assert s.selectedPapers == [];

    var sent := s.ProcessPapers(ProcessOk);
    assert sent == None && s.error == Some(SelectOnePaper) && !s.indexExists;

    s.HandlePaperSelection(f);
    sent := s.ProcessPapers(ProcessOk);
    assert sent == Some([f]);
  }

  /** Chat on the session of `Walkthrough`: a failed reply still answers the
      question with the server's detail, and the log is one exchange. */
  method WalkthroughChat(papers: seq<Paper>, f: string, question: string, detail: string)
    requires !Blank(JavaScript, question) && detail != ""
  {
    var s := Walkthrough(papers, f);
    s.OpenChat();
    s.SetChatInput(question);
    var asked := s.HandleChatSubmit(ChatErr(Some(detail)));
    assert asked == Some(question);
    assert s.messages == [ChatMessage(question, User), ChatMessage(detail, Bot)];
    assert s.chatInput == "";
  }
}
