/** What the pages share: the query-cache keys they invalidate, the
    conversation id Home reads from its route, the calls and navigations a
    handler triggers, and the keyboard and button conditions for submitting. */
module PageEffects {
  import opened Wrappers
  import opened JsStrings
  import JsNumbers

  /** One element of a TanStack Query key. */
  datatype KeyPart = Text(text: string) | Number(n: int)

  type QueryKey = seq<KeyPart>

  const UrlsKey: QueryKey := [Text("urls"), Text("URL")]
  const NotesKey: QueryKey := [Text("notes"), Text("NOTE")]
  const ConversationsKey: QueryKey := [Text("conversations")]

  function ConversationKey(id: int): QueryKey {
    [Text("conversation"), Number(id)]
  }

  /** The conversation id Home computes from its `conversation` search
      parameter: undefined when the parameter is absent or empty, otherwise
      what `parseInt` made of it, possibly NaN. */
  datatype ConversationParam = Undefined | NaN | Id(value: int)

  /** JavaScript truthiness of that id: undefined, NaN and 0 are all falsy. */
  predicate IsTruthy(id: ConversationParam) {
    id.Id? && id.value != 0
  }

  /** What a handler asks of the outside world: an API call, a cache
      invalidation or a navigation. */
  datatype Effect =
    | AskQuery(question: string, conversationId: ConversationParam)
    | IngestNote(content: string)
    | IngestUrl(url: string)
    | Invalidate(key: QueryKey)
    | Navigate(path: string, replace: bool)

  /** Appended to text cut short for display. */
  const Ellipsis := "..."

  const ConversationRoutePrefix := "/?conversation="

  /** The route of one conversation, `/?conversation=<id>`; its parameter
      reads back as exactly that id. */
  function ConversationPath(id: int): (path: string)
    ensures ConversationRoutePrefix <= path
    ensures path[|ConversationRoutePrefix|..] == JsNumbers.IntToString(id)
    ensures JsNumbers.DecimalValue(path[|ConversationRoutePrefix|..]) == Some(id)
  {
    JsNumbers.IntToStringRoundTrip(id);
    var path := ConversationRoutePrefix + JsNumbers.IntToString(id);
    assert path[|ConversationRoutePrefix|..] == JsNumbers.IntToString(id);
    path
  }

  /** Distinct conversations have distinct routes. */
  lemma ConversationPathInjective(a: int, b: int)
    ensures ConversationPath(a) == ConversationPath(b) ==> a == b
  {
  }

  /** The key chord that submits on the chat and notes pages: Enter without Shift. */
  predicate IsSubmitChord(key: string, shift: bool) {
    key == "Enter" && !shift
  }

  /** The submit button's condition, `disabled={!input.trim() || isPending}`,
      the same on all three pages: enabled exactly when no request is pending
      and the input holds a character that is not whitespace. */
  function SubmitButtonEnabled(input: string, pending: bool): (enabled: bool)
    ensures enabled <==> !pending && !AllWhitespace(input)
  {
    BlankIffAllWhitespace(input);
    !(IsBlank(input) || pending)
  }

  /** While a request is pending the submit button is disabled, whatever the input. */
  lemma PendingDisablesSubmit(input: string)
    ensures !SubmitButtonEnabled(input, true)
  {
  }
}
