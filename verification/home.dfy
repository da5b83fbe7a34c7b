/** The chat page: what a message bubble shows of its citations, the order of
    the transcript, the conversation title in the header, and the `input`
    state as submit and the query's success change it. */
module Home {
  import opened Wrappers
  import opened JsStrings
  import opened PageEffects

  datatype Role = User | Assistant

  datatype Citation = Citation(number: int, title: Option<string>, url: Option<string>, sourceType: Option<string>)

  datatype Message = Message(id: int, role: Role, content: string, citations: seq<Citation>)

  /** One line of the Sources list: the `[number]`, the label, the link target
      when there is one, and the source-type suffix when there is one. */
  datatype CitationView = CitationView(number: int, text: string, href: Option<string>, sourceType: Option<string>)

  /** A rendered message: its side, its text, and its Sources list when shown. */
  datatype BubbleView = BubbleView(alignedRight: bool, content: string, sources: Option<seq<CitationView>>)

  /** What the message area shows, top to bottom. */
  datatype ChatItem = LoadingNotice | StartNotice | Bubble(view: BubbleView) | Thinking

  const UnknownSource := "Unknown source"
  const ChatFallback := "Chat"
  const TitleLimit := 60

  /** One citation of `MessageBubble`. The label is the title when it is
      non-empty, else the URL when that is non-empty, else `Unknown source`;
      so it is never empty. A link is shown exactly when the URL is non-empty. */
  function ViewCitation(c: Citation): (v: CitationView)
    ensures v.number == c.number
    ensures v.text != ""
    ensures Truthy(c.title) ==> v.text == c.title.value
    ensures !Truthy(c.title) && Truthy(c.url) ==> v.text == c.url.value
    ensures !Truthy(c.title) && !Truthy(c.url) ==> v.text == UnknownSource
    ensures v.href.Some? <==> Truthy(c.url)
    ensures v.href.Some? ==> v.href == c.url
    ensures v.sourceType.Some? <==> Truthy(c.sourceType)
    ensures v.sourceType.Some? ==> v.sourceType == c.sourceType
  {
    var sourceType := if Truthy(c.sourceType) then c.sourceType else None;
    if Truthy(c.url) then
      CitationView(c.number, if Truthy(c.title) then c.title.value else c.url.value, c.url, sourceType)
    else
      CitationView(c.number, if Truthy(c.title) then c.title.value else UnknownSource, None, sourceType)
  }

  /** `MessageBubble`: user messages sit on the right; the Sources list
      appears only under a non-user message with at least one citation, and
      then lists every citation in order. */
  function ViewMessage(m: Message): (v: BubbleView)
    ensures v.alignedRight <==> m.role == User
    ensures v.content == m.content
    ensures v.sources.Some? <==> m.role != User && |m.citations| > 0
    ensures v.sources.Some? ==>
      |v.sources.value| == |m.citations| &&
      forall i :: 0 <= i < |m.citations| ==> v.sources.value[i] == ViewCitation(m.citations[i])
  {
    var isUser := m.role == User;
    var hasCitations := |m.citations| > 0;
    BubbleView(isUser, m.content,
      if !isUser && hasCitations then
        Some(seq(|m.citations|, i requires 0 <= i < |m.citations| => ViewCitation(m.citations[i])))
      else None)
  }

  /** The message area: a loading notice, or a start notice for an empty
      conversation, or one bubble per server message in order; then the
      `Thinking...` indicator, last, exactly while the query is pending. */
  function Transcript(isLoadingConversation: bool, messages: seq<Message>, queryPending: bool): (items: seq<ChatItem>)
    ensures queryPending <==> |items| > 0 && items[|items| - 1] == Thinking
    ensures forall i :: 0 <= i < |items| - 1 ==> items[i] != Thinking
    ensures isLoadingConversation || messages == [] ==>
      |items| == 1 + (if queryPending then 1 else 0) &&
      items[0] == (if isLoadingConversation then LoadingNotice else StartNotice)
    ensures !isLoadingConversation && messages != [] ==>
      |items| == |messages| + (if queryPending then 1 else 0) &&
      forall i :: 0 <= i < |messages| ==> items[i] == Bubble(ViewMessage(messages[i]))
  {
    var body :=
      if isLoadingConversation then [LoadingNotice]
      else if messages == [] then [StartNotice]
      else seq(|messages|, i requires 0 <= i < |messages| => Bubble(ViewMessage(messages[i])));
    body + (if queryPending then [Thinking] else [])
  }

  /** `conversationTitle`: the first message's first 60 characters, with
      `...` appended exactly when it is longer. Without a first message the
      expression is `undefined + ''`, which JavaScript turns into the string
      `"undefined"`. */
  function ConversationTitle(messages: seq<Message>): (title: string)
    ensures messages == [] ==> title == "undefined"
    ensures messages != [] && |messages[0].content| <= TitleLimit ==> title == messages[0].content
    ensures messages != [] && |messages[0].content| > TitleLimit ==>
      title == messages[0].content[..TitleLimit] + Ellipsis
    ensures |title| <= TitleLimit + |Ellipsis|
  {
    if messages == [] then
      "undefined"
    else
      var content := messages[0].content;
      content[..if |content| < TitleLimit then |content| else TitleLimit] +
      (if |content| > TitleLimit then Ellipsis else "")
  }

  /** The header: shown only for a truthy conversation id, reading
      `conversationTitle || 'Chat'`. It is never empty, it reads `undefined`
      for a conversation without messages, and it reads `Chat` only when the
      first message is empty or is itself `Chat`. */
  function Header(conversationId: ConversationParam, messages: seq<Message>): (h: Option<string>)
    ensures h.Some? <==> IsTruthy(conversationId)
    ensures h.Some? ==> h.value != ""
    ensures h.Some? && ConversationTitle(messages) != "" ==> h.value == ConversationTitle(messages)
    ensures h.Some? && messages == [] ==> h.value == "undefined"
    ensures h == Some(ChatFallback) <==>
      IsTruthy(conversationId) && messages != [] &&
      (messages[0].content == "" || messages[0].content == ChatFallback)
  {
    if IsTruthy(conversationId) then
      var title := ConversationTitle(messages);
      Some(if title != "" then title else ChatFallback)
    else None
  }

  class HomePage {
    var input: string
    /** The id read from the route when the page rendered. */
    var conversationId: ConversationParam

    constructor (conversationId: ConversationParam)
      ensures input == "" && this.conversationId == conversationId
    {
      input := "";
      this.conversationId := conversationId;
    }

    /** A navigation re-renders the same page with the id read from the new
        route; the input is kept. */
    method OnRouteChange(id: ConversationParam)
      modifies this`conversationId
      ensures conversationId == id
    {
      conversationId := id;
    }

    /** `handleNewChat`: a push navigation to the conversationless root route. */
    method HandleNewChat() returns (effects: seq<Effect>)
      ensures effects == [Navigate("/", false)]
    {
      effects := [Navigate("/", false)];
    }

    /** `handleInput`: the textarea's new value becomes the input. */
    method HandleInput(value: string)
      modifies this`input
      ensures input == value
    {
      input := value;
    }

    /** `handleSubmit`: blank input is ignored; otherwise one query is issued
        with the untrimmed input as the question and the current id, and the
        input is cleared. There is no pending check here. */
    method HandleSubmit() returns (effects: seq<Effect>)
      modifies this`input
      ensures IsBlank(old(input)) ==> input == old(input) && effects == []
      ensures !IsBlank(old(input)) ==>
        input == "" && effects == [AskQuery(old(input), conversationId)]
    {
      if IsBlank(input) {
        return [];
      }
      effects := [AskQuery(input, conversationId)];
      input := "";
    }

    /** `handleKeyDown`: Enter without Shift submits; every other key or
        chord leaves everything as it was. */
    method HandleKeyDown(key: string, shift: bool) returns (effects: seq<Effect>)
      modifies this`input
      ensures !IsSubmitChord(key, shift) ==> input == old(input) && effects == []
      ensures IsSubmitChord(key, shift) && IsBlank(old(input)) ==> input == old(input) && effects == []
      ensures IsSubmitChord(key, shift) && !IsBlank(old(input)) ==>
        input == "" && effects == [AskQuery(old(input), conversationId)]
    {
      effects := [];
      if IsSubmitChord(key, shift) {
        effects := HandleSubmit();
      }
    }

    /** The query's `onSuccess`, given the `conversation_id` of the response.
        With a current conversation only that conversation is invalidated and
        nothing navigates; without one, a response id replaces the route with
        that conversation's and invalidates the conversation list. */
    method OnQuerySuccess(responseConversationId: Option<int>) returns (effects: seq<Effect>)
      ensures IsTruthy(conversationId) ==>
        effects == [Invalidate(ConversationKey(conversationId.value))]
      ensures !IsTruthy(conversationId) && responseConversationId.Some? && responseConversationId.value != 0 ==>
        effects == [Navigate(ConversationPath(responseConversationId.value), true), Invalidate(ConversationsKey)]
      ensures !IsTruthy(conversationId) && !(responseConversationId.Some? && responseConversationId.value != 0) ==>
        effects == []
      ensures forall e :: e in effects && e.Navigate? ==> !IsTruthy(conversationId) && e.replace
    {
      effects := [];
      if IsTruthy(conversationId) {
        effects := effects + [Invalidate(ConversationKey(conversationId.value))];
      }
      if responseConversationId.Some? && responseConversationId.value != 0 && !IsTruthy(conversationId) {
        effects := effects + [
          Navigate(ConversationPath(responseConversationId.value), true),
          Invalidate(ConversationsKey)
        ];
      }
    }
  }

  /** Enter reaches `handleSubmit` while the Ask button is disabled by a
      pending query (`PendingDisablesSubmit`): nothing in the key path looks
      at the pending flag, so a second query is issued before the first
      settles. */
  method EnterWhileQueryPending(id: ConversationParam, first: string, second: string)
    requires !IsBlank(first) && !IsBlank(second)
  {
    var page := new HomePage(id);
    page.HandleInput(first);
    var asked := page.HandleKeyDown("Enter", false);
    page.HandleInput(second);
    var askedAgain := page.HandleKeyDown("Enter", false);
    assert asked == [AskQuery(first, id)] && askedAgain == [AskQuery(second, id)];
  }

  /** After a query without a conversation, `OnQuerySuccess` replaces the
      route with the created conversation's; once the page has read that
      route, the next question is asked in that conversation. */
  method FollowUpJoinsNewConversation(created: int, next: string)
    requires created != 0 && !IsBlank(next)
  {
    var page := new HomePage(Undefined);
    page.OnRouteChange(Id(created));
    page.HandleInput(next);
    var asked := page.HandleSubmit();
    assert asked == [AskQuery(next, Id(created))];
  }
}
