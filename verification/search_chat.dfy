/**
 * The search page's chat: sending a non-blank prompt records a draft of the
 * conversation with the user's message, clears the input and raises the
 * progress flag; when the search call settles with a usable result, the
 * draft plus the response message becomes the conversation.
 */
module SearchChat {
  import opened Wrappers

  datatype Sender = User | Response

  datatype ChatMessage = ChatMessage(sender: Sender, text: string)

  /** The characters `String.prototype.trim` removes: white space (including
      every space separator) and line terminators. */
  predicate IsJsWhitespace(c: char)
  {
    || c == '\t' || c == '\n' || c == '\U{000B}' || c == '\U{000C}' || c == '\r'
    || c == ' ' || c == '\U{00A0}' || c == '\U{1680}'
    || ('\U{2000}' <= c <= '\U{200A}')
    || c == '\U{2028}' || c == '\U{2029}' || c == '\U{202F}' || c == '\U{205F}'
    || c == '\U{3000}' || c == '\U{FEFF}'
  }

  predicate AllWhitespace(s: string)
  {
    forall i :: 0 <= i < |s| ==> IsJsWhitespace(s[i])
  }

  /** `s` without its leading white space. */
  function TrimStart(s: string): (r: string)
    ensures exists k :: 0 <= k <= |s| && r == s[k..] && AllWhitespace(s[..k])
    ensures r == [] <==> AllWhitespace(s)
    ensures r != [] ==> !IsJsWhitespace(r[0])
  {
    if s == [] || !IsJsWhitespace(s[0]) then
      assert s == s[0..] && AllWhitespace(s[..0]);
      s
    else
      var r := TrimStart(s[1..]);
      var k :| 0 <= k <= |s| - 1 && r == s[1..][k..] && AllWhitespace(s[1..][..k]);
      assert r == s[k + 1..];
      LeadingWhitespaceGrows(s, k);
      r
  }

  /** `s` without its trailing white space. */
  function TrimEnd(s: string): (r: string)
    ensures exists k :: 0 <= k <= |s| && r == s[..k] && AllWhitespace(s[k..])
    ensures r == [] <==> AllWhitespace(s)
    ensures r != [] ==> !IsJsWhitespace(r[|r| - 1])
  {
    if s == [] || !IsJsWhitespace(s[|s| - 1]) then
      assert s == s[..|s|] && AllWhitespace(s[|s|..]);
      s
    else
      var init := s[..|s| - 1];
      var r := TrimEnd(init);
      var k :| 0 <= k <= |init| && r == init[..k] && AllWhitespace(init[k..]);
      assert r == s[..k];
      TrailingWhitespaceGrows(s, k);
      r
  }

  lemma LeadingWhitespaceGrows(s: string, k: nat)
    requires s != [] && IsJsWhitespace(s[0])
    requires k <= |s| - 1 && AllWhitespace(s[1..][..k])
    ensures AllWhitespace(s[..k + 1])
  {
    forall i | 0 <= i < k + 1 ensures IsJsWhitespace(s[i]) {
      if i > 0 {
        assert s[i] == s[1..][..k][i - 1];
      }
    }
  }

  lemma TrailingWhitespaceGrows(s: string, k: nat)
    requires s != [] && IsJsWhitespace(s[|s| - 1])
    requires k <= |s| - 1 && AllWhitespace(s[..|s| - 1][k..])
    ensures AllWhitespace(s[k..])
  {
    forall i | k <= i < |s| ensures IsJsWhitespace(s[i]) {
      if i < |s| - 1 {
        assert s[i] == s[..|s| - 1][k..][i - k];
      }
    }
  }

  /** `s.trim()`. */
  function Trim(s: string): string
  {
    TrimEnd(TrimStart(s))
  }

  /** A prompt trims to the empty string exactly when it is all white space. */
  lemma TrimEmptyIffBlank(s: string)
    ensures Trim(s) == "" <==> AllWhitespace(s)
  {
  }

  /** The `props.data` object of a search response, whose `result` may be
      missing. */
  datatype SearchData = SearchData(result: Option<string>)

  /** The `props` object of a search response, whose `data` may be missing. */
  datatype SearchProps = SearchProps(data: Option<SearchData>)

  /** A search response, whose `props` may be missing. */
  datatype SearchResults = SearchResults(props: Option<SearchProps>)

  /** How the search call settles: rejected, or resolved with a falsy value
      (`None`) or a response object. */
  datatype SearchOutcome = Rejected | Resolved(results: Option<SearchResults>)

  /** The response text when the result passes the shape check of the
      completion step: every link of `searchResults.props.data.result` is
      present and the result is truthy. */
  function ResponseText(outcome: SearchOutcome): Option<string>
  {
    match outcome
    case Rejected => None
    case Resolved(None) => None
    case Resolved(Some(results)) =>
      if results.props.None? then None
      else if results.props.value.data.None? then None
      else if results.props.value.data.value.result.None? then None
      else if results.props.value.data.value.result.value == "" then None
      else Some(results.props.value.data.value.result.value)
  }

  /** A result is usable with a given text exactly when the call resolved
      with `props`, `props.data` and `props.data.result` all present and the
      result is that text and is not empty. */
  lemma ResponseUsableIff(outcome: SearchOutcome, text: string)
    ensures ResponseText(outcome) == Some(text) <==>
      && outcome == Resolved(Some(SearchResults(Some(SearchProps(Some(SearchData(Some(text))))))))
      && text != ""
  {
    if ResponseText(outcome) == Some(text) {
      var results := outcome.results.value;
      var props := results.props.value;
      var data := props.data.value;
      assert data == SearchData(Some(text));
      assert props == SearchProps(Some(data));
      assert results == SearchResults(Some(props));
    }
  }

  /** A sent prompt awaiting its search result: the query and the draft
      conversation (`newMessages`) that the completion will commit. */
  datatype PendingSearch = PendingSearch(query: string, draft: seq<ChatMessage>)

  class SearchPage {
    var userPrompt: string
    var messages: seq<ChatMessage>
    var showProgress: bool

    constructor ()
      ensures userPrompt == "" && messages == [] && showProgress
    {
      userPrompt := "";
      messages := [];
      showProgress := true;
    }

    /** Typing into the input. */
    method EditPrompt(text: string)
      modifies this`userPrompt
      ensures userPrompt == text
    {
      userPrompt := text;
    }

    /** The send step. A blank prompt changes nothing and sends nothing.
        Otherwise the draft is the conversation plus the user's message, the
        progress flag is raised, the search is issued for the prompt as typed
        and the input is cleared; the conversation itself is not touched yet. */
    method SendMessage() returns (pending: Option<PendingSearch>)
      modifies this`userPrompt, this`showProgress
      ensures AllWhitespace(old(userPrompt)) ==>
        pending == None && userPrompt == old(userPrompt) && showProgress == old(showProgress)
      ensures !AllWhitespace(old(userPrompt)) ==>
        && pending == Some(PendingSearch(old(userPrompt), messages + [ChatMessage(User, old(userPrompt))]))
        && userPrompt == "" && showProgress
    {
      TrimEmptyIffBlank(userPrompt);
      if Trim(userPrompt) == "" {
        return None;
      }
      var newMessages := messages + [ChatMessage(User, userPrompt)];
      showProgress := true;
      pending := Some(PendingSearch(userPrompt, newMessages));
      userPrompt := "";
    }

    /** The completion step. A usable result appends the response to the
        draft, lowers the progress flag and commits the draft as the
        conversation; a malformed or rejected result changes nothing. */
    method CompleteSearch(pending: PendingSearch, outcome: SearchOutcome)
      modifies this`messages, this`showProgress
      ensures ResponseText(outcome).Some? ==>
        messages == pending.draft + [ChatMessage(Response, ResponseText(outcome).value)] && !showProgress
      ensures ResponseText(outcome).None? ==>
        messages == old(messages) && showProgress == old(showProgress)
    {
      var reply := ResponseText(outcome);
      if reply.None? {
        return;
      }
      var newMessages := pending.draft + [ChatMessage(Response, reply.value)];
      showProgress := false;
      messages := newMessages;
    }
  }

  /** One round on a page holding the conversation `history`, the progress
      flag `startProgress` and the typed `prompt`, with no other send in between: a blank prompt leaves
      everything as it was; otherwise the input is cleared, and a usable
      result extends the conversation by exactly the user's message and the
      response and lowers the progress flag, while a malformed or rejected
      one keeps the conversation and leaves the progress flag raised. */
  method SendRound(history: seq<ChatMessage>, startProgress: bool, prompt: string, outcome: SearchOutcome)
    returns (conversation: seq<ChatMessage>, progress: bool, input: string)
    ensures AllWhitespace(prompt) ==> conversation == history && input == prompt && progress == startProgress
    ensures !AllWhitespace(prompt) && ResponseText(outcome).Some? ==>
      && |conversation| == |history| + 2 && conversation[..|history|] == history
      && conversation[|history|] == ChatMessage(User, prompt)
      && conversation[|history| + 1] == ChatMessage(Response, ResponseText(outcome).value)
      && !progress && input == ""
    ensures !AllWhitespace(prompt) && ResponseText(outcome).None? ==>
      conversation == history && progress && input == ""
  {
    var page := new SearchPage();
    page.messages := history;
    page.showProgress := startProgress;
    page.EditPrompt(prompt);
    var pending := page.SendMessage();
    if pending.Some? {
      page.CompleteSearch(pending.value, outcome);
    }
    conversation, progress, input := page.messages, page.showProgress, page.userPrompt;
  }
}
