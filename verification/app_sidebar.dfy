/** The sidebar: the list of recent conversations and the preview text of
    each link. */
module AppSidebar {
  import opened Wrappers
  import opened JsStrings
  import opened PageEffects
  import JsNumbers

  datatype Conversation = Conversation(id: int, title: Option<string>)

  /** The body of the conversation-list response; `data` may be missing. */
  datatype ConversationsResponse = ConversationsResponse(data: Option<seq<Conversation>>)

  /** A link of the Recent Chats group: its route and its text. */
  datatype ChatLink = ChatLink(to: string, text: string)

  const NewChatTitle := "New Chat"
  const PreviewLimit := 30

  /** `formatChatPreview`: a null or empty title reads `New Chat`; a title of
      at most 30 characters is kept; a longer one is cut to 30 characters
      followed by `...`. The preview is never empty and never longer than 33. */
  function FormatChatPreview(title: Option<string>): (preview: string)
    ensures !Truthy(title) ==> preview == NewChatTitle
    ensures Truthy(title) && |title.value| <= PreviewLimit ==> preview == title.value
    ensures Truthy(title) && |title.value| > PreviewLimit ==>
      preview == title.value[..PreviewLimit] + Ellipsis && |preview| == PreviewLimit + |Ellipsis|
    ensures 0 < |preview| <= PreviewLimit + |Ellipsis|
  {
    var t := if Truthy(title) then title.value else NewChatTitle;
    if |t| > PreviewLimit then t[..PreviewLimit] + Ellipsis else t
  }

  /** `conversationsData?.data || []`: the list, or no conversations when the
      response or its `data` is missing. */
  function Conversations(response: Option<ConversationsResponse>): (list: seq<Conversation>)
    ensures response.None? || response.value.data.None? ==> list == []
    ensures response.Some? && response.value.data.Some? ==> list == response.value.data.value
  {
    match response
    case None => []
    case Some(r) => r.data.GetOr([])
  }

  /** The Recent Chats group: absent for an empty list; otherwise one link
      per conversation, in order, whose route reads back as that
      conversation's id and whose text is its preview. */
  function RecentChats(conversations: seq<Conversation>): (group: Option<seq<ChatLink>>)
    ensures group.Some? <==> |conversations| > 0
    ensures group.Some? ==> |group.value| == |conversations|
    ensures group.Some? ==> forall i :: 0 <= i < |conversations| ==>
      group.value[i].to == ConversationPath(conversations[i].id) &&
      ConversationRoutePrefix <= group.value[i].to &&
      JsNumbers.DecimalValue(group.value[i].to[|ConversationRoutePrefix|..]) == Some(conversations[i].id) &&
      group.value[i].text == FormatChatPreview(conversations[i].title)
  {
    if |conversations| > 0 then
      Some(seq(|conversations|, i requires 0 <= i < |conversations| =>
        ChatLink(ConversationPath(conversations[i].id), FormatChatPreview(conversations[i].title))))
    else None
  }

  /** Conversations with distinct ids get links to distinct routes. */
  lemma RecentChatsDistinctRoutes(conversations: seq<Conversation>, i: nat, j: nat)
    requires i < j < |conversations| && conversations[i].id != conversations[j].id
    ensures RecentChats(conversations).Some?
    ensures RecentChats(conversations).value[i].to != RecentChats(conversations).value[j].to
  {
    ConversationPathInjective(conversations[i].id, conversations[j].id);
  }
}
