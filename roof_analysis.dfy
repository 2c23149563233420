/** frontend/src/pages/RoofAnalysis.tsx: the page that uploads a roof image
    for analysis and chats about it with the backend's /api/roof-ai-chat.
    Each asynchronous handler is modelled as one step from its start to its
    `finally`, with the outcome of `FileReader`/`fetch`/`res.json()` as a
    parameter. */
module RoofAnalysis {
  import opened Js
  import opened RoofChat

  /** A chat bubble of the page: `{ role, content }`. */
  datatype ChatMessage = ChatMessage(role: Role, content: Value)

  datatype PickedFile = PickedFile(name: string)

  const Welcome := "Upload a rooftop satellite or drone image to begin. I'll estimate collection suitability and you can ask follow‑up questions."
  const ResetWelcome := "Upload a rooftop image to begin a new analysis."
  const AnalysisFailed := "Analysis failed. " + "Please try another image or retry later."
  const ChatFailed := "Failed to get AI response."
  const ChatSorry := "Sorry, I had an issue generating a response."
  const CompletionPrefix := "Analysis complete. Score: "

  function AssistantSays(text: string): ChatMessage
  {
    ChatMessage(Assistant, Some(JStr(text)))
  }

  /** What happens between `setLoading(true)` and `finally`: the image could
      not be read, `fetch` rejected, the status was not OK, the body was not
      JSON, or the body parsed to `data`. */
  datatype AnalysisOutcome = ReadFailed | AnalysisRequestFailed | AnalysisNotOk | AnalysisNotJson | Analysed(data: Json)

  datatype ChatOutcome = ChatRequestFailed | ChatNotOk | ChatNotJson | ChatAnswered(data: Json)

  /** The assistant message the reply updater appends: the answer's `reply`,
      or the apology the `catch` appends. `None` for a `null` body: reading
      `data.reply` then throws inside the `setMessages` updater, which React
      runs outside the handler's `try`, so the `catch` never sees it and the
      page's next render throws instead. */
  function ChatReply(outcome: ChatOutcome): (m: Option<ChatMessage>)
    ensures m.None? <==> outcome == ChatAnswered(JNull)
    ensures m.Some? ==> m.value.role == Assistant
    ensures outcome.ChatAnswered? && m.Some? ==> m.value.content == Prop(outcome.data, "reply")
    ensures !outcome.ChatAnswered? ==> m == Some(AssistantSays(ChatSorry))
  {
    match outcome
    case ChatAnswered(data) =>
      if data == JNull then None else Some(ChatMessage(Assistant, Prop(data, "reply")))
    case _ => Some(AssistantSays(ChatSorry))
  }

  /** `Analysis complete. Score: ${data.score}/100 (Quality: ${data.quality}). ${data.summary || ''}`. */
  function CompletionText(data: Json): (r: string)
    ensures StartsWith(r, CompletionPrefix)
    ensures r != AnalysisFailed
  {
    var summary := Prop(data, "summary");
    var rest := ToText(Prop(data, "score")) + "/100 (Quality: " + ToText(Prop(data, "quality")) + "). "
      + (if Truthy(summary) then ToText(summary) else "");
    assert (CompletionPrefix + rest)[..|CompletionPrefix|] == CompletionPrefix;
    assert (CompletionPrefix + rest)[9] == CompletionPrefix[9] == 'c';
    CompletionPrefix + rest
  }

  /** The body of the POST to /api/roof-ai-analyze. */
  function AnalyzeBody(image: string, filename: string): (b: Json)
    ensures Prop(b, "image") == Some(JStr(image))
    ensures Prop(b, "filename") == Some(JStr(filename))
  {
    JObj(map["image" := JStr(image), "filename" := JStr(filename)])
  }

  function RoleName(r: Role): string
  {
    match r
    case System => "system"
    case User => "user"
    case Assistant => "assistant"
  }

  /** `{ role: 'user', content: chatInput.trim() }`. */
  function UserMessage(input: string): ChatMessage
  {
    ChatMessage(User, Some(JStr(Trim(input))))
  }

  /** `JSON.stringify` of one message: an `undefined` content is dropped. */
  function MessageJson(m: ChatMessage): (j: Json)
    ensures j.JObj? && j != JNull
  {
    JObj(map["role" := JStr(RoleName(m.role))] + (if m.content.Some? then map["content" := m.content.value] else map[]))
  }

  /** The backend reads back what the page wrote: the content, and the
      role for every message that is not a system one. */
  lemma MessageJsonReadBack(m: ChatMessage)
    ensures Prop(MessageJson(m), "content") == m.content
    ensures IsAssistantMessage(MessageJson(m)) <==> m.role == Assistant
    ensures m.role != System ==> ClientRole(MessageJson(m)) == m.role
  {
    var j := MessageJson(m);
    assert "role" in j.fields && j.fields["role"] == JStr(RoleName(m.role));
    if m.content.Some? {
      assert "content" in j.fields && j.fields["content"] == m.content.value;
    } else {
      assert "content" !in j.fields;
    }
  }

  function MessagesJson(ms: seq<ChatMessage>): (r: seq<Json>)
    ensures |r| == |ms|
    ensures JNull !in r
    ensures forall i :: 0 <= i < |ms| ==> r[i] == MessageJson(ms[i])
  {
    seq(|ms|, i requires 0 <= i < |ms| => MessageJson(ms[i]))
  }

  predicate NoSystem(ms: seq<ChatMessage>)
  {
    forall i :: 0 <= i < |ms| ==> ms[i].role != System
  }

  lemma NoSystemAppend(ms: seq<ChatMessage>, m: ChatMessage)
    requires NoSystem(ms) && m.role != System
    ensures NoSystem(ms + [m])
  {
    assert forall i :: 0 <= i < |ms| ==> (ms + [m])[i] == ms[i];
  }

  /** `.filter(m => m.role !== 'system')`. */
  function WithoutSystem(ms: seq<ChatMessage>): (r: seq<ChatMessage>)
    ensures |r| <= |ms|
    ensures forall i :: 0 <= i < |r| ==> r[i] in ms
    ensures NoSystem(r)
    ensures NoSystem(ms) ==> r == ms
  {
    if ms == [] then []
    else
      var rest := WithoutSystem(ms[1..]);
      assert forall m :: m in ms[1..] ==> m in ms;
      (if ms[0].role == System then [] else [ms[0]]) + rest
  }

  lemma {:induction false} WithoutSystemAppend(a: seq<ChatMessage>, b: seq<ChatMessage>)
    ensures WithoutSystem(a + b) == WithoutSystem(a) + WithoutSystem(b)
  {
    if a != [] {
      assert (a + b)[1..] == a[1..] + b;
      WithoutSystemAppend(a[1..], b);
    } else {
      assert a + b == b;
    }
  }

  /** The body of the POST to /api/roof-ai-chat. */
  function ChatBody(history: seq<ChatMessage>, analysis: Option<Json>): (b: Json)
    ensures analysis.Some? ==> Prop(b, "analysis") == analysis
    ensures analysis.None? ==> Prop(b, "analysis") == Some(JNull)
  {
    JObj(map[
      "messages" := JArr(MessagesJson(WithoutSystem(history))),
      "analysis" := if analysis.Some? then analysis.value else JNull])
  }

  /** The chat endpoint reads back the filtered, serialised messages from
      the posted body. */
  lemma ChatBodyMessages(history: seq<ChatMessage>, analysis: Option<Json>)
    ensures RequestMessages(Some(ChatBody(history, analysis))) == Some(MessagesJson(WithoutSystem(history)))
  {
    var body := ChatBody(history, analysis);
    assert body.fields["messages"] == JArr(MessagesJson(WithoutSystem(history)));
  }

  /** On a page without system messages every message is sent. */
  lemma NothingFilteredOut(history: seq<ChatMessage>, analysis: Option<Json>)
    requires NoSystem(history)
    ensures RequestMessages(Some(ChatBody(history, analysis))) == Some(MessagesJson(history))
  {
    ChatBodyMessages(history, analysis);
  }

  /** The message the user typed is the prompt the backend hands to the
      model: whatever came before it, it is the last non-assistant message
      the page sends. */
  lemma TypedTextIsPrompt(context: string, history: seq<ChatMessage>, input: string)
    requires Trim(input) != ""
    ensures var sent := MessagesJson(WithoutSystem(history + [UserMessage(input)]));
      JNull !in sent &&
      Prompt(History(ChatMessages(context, sent).value)) == Some(JStr(Trim(input)))
  {
    var u := UserMessage(input);
    WithoutSystemAppend(history, [u]);
    assert WithoutSystem([u]) == [u];
    var kept := WithoutSystem(history) + [u];
    var sent := MessagesJson(kept);
    var k := |sent| - 1;
    assert sent[k] == MessageJson(u);
    MessageJsonReadBack(u);
    PromptIsLastUserMessage(context, sent, k);
  }

  class RoofAnalysisPage {
    var selectedFile: Option<PickedFile>
    var previewUrl: Option<string>
    var analysis: Option<Json>
    var loading: bool
    var chatInput: string
    var messages: seq<ChatMessage>
    var chatLoading: bool
    var chatError: Option<string>

    /** The page never shows a system message, so the filter before sending
        removes nothing. */
    predicate Valid()
      reads this
    {
      NoSystem(messages)
    }

    constructor ()
      ensures selectedFile.None? && previewUrl.None? && analysis.None?
      ensures !loading && !chatLoading && chatInput == "" && chatError.None?
      ensures messages == [AssistantSays(Welcome)]
      ensures Valid()
    {
      selectedFile := None;
      previewUrl := None;
      analysis := None;
      loading := false;
      chatInput := "";
      messages := [AssistantSays(Welcome)];
      chatLoading := false;
      chatError := None;
    }

    /** `handleFileChange` with the first picked file, if any; `objectUrl` is
        what `URL.createObjectURL` returns. */
    method HandleFileChange(file: Option<PickedFile>, objectUrl: string)
      modifies this
      ensures file.None? ==> selectedFile == old(selectedFile) && previewUrl == old(previewUrl) && analysis == old(analysis)
      ensures file.Some? ==> selectedFile == file && previewUrl == Some(objectUrl) && analysis.None?
      ensures messages == old(messages) && chatInput == old(chatInput) && loading == old(loading)
      ensures chatLoading == old(chatLoading) && chatError == old(chatError)
    {
      if file.Some? {
        selectedFile := file;
        analysis := None;
        previewUrl := Some(objectUrl);
      }
    }

    method SetChatInput(text: string)
      modifies this
      ensures chatInput == text
      ensures selectedFile == old(selectedFile) && previewUrl == old(previewUrl) && analysis == old(analysis)
      ensures messages == old(messages) && loading == old(loading)
      ensures chatLoading == old(chatLoading) && chatError == old(chatError)
    {
      chatInput := text;
    }

    /** `runAnalysis`, from its start to its `finally`. `image` is the data URL
        the reader produces; the request it sends is returned. A `null` body
        is stored as the analysis, but reading `data.score` in the
        `setMessages` updater then throws outside the handler's `try`: no
        message is appended and `renderError` reports that the page's next
        render throws. */
    method RunAnalysis(image: string, outcome: AnalysisOutcome) returns (request: Option<Json>, renderError: bool)
      requires Valid()
      modifies this
      ensures Valid()
      ensures old(selectedFile).None? ==>
        request.None? && analysis == old(analysis) && messages == old(messages) && loading == old(loading)
      ensures old(selectedFile).Some? ==> !loading
      ensures request.Some? <==> old(selectedFile).Some? && !outcome.ReadFailed?
      ensures request.Some? ==> request.value == AnalyzeBody(image, old(selectedFile).value.name)
      ensures renderError <==> old(selectedFile).Some? && outcome == Analysed(JNull)
      ensures old(selectedFile).Some? && outcome.Analysed? && outcome.data != JNull ==>
        analysis == Some(outcome.data) && messages == old(messages) + [AssistantSays(CompletionText(outcome.data))]
      ensures renderError ==> analysis.None? && messages == old(messages)
      ensures old(selectedFile).Some? && !outcome.Analysed? ==>
        analysis == old(analysis) && messages == old(messages) + [AssistantSays(AnalysisFailed)]
      ensures selectedFile == old(selectedFile) && previewUrl == old(previewUrl) && chatInput == old(chatInput)
      ensures chatLoading == old(chatLoading) && chatError == old(chatError)
    {
      request := None;
      renderError := false;
      if selectedFile.None? {
        return;
      }
      loading := true;
      if outcome.ReadFailed? {
        messages := messages + [AssistantSays(AnalysisFailed)];
      } else {
        request := Some(AnalyzeBody(image, selectedFile.value.name));
        if outcome.Analysed? {
          var data := outcome.data;
          analysis := if data == JNull then None else Some(data);
          if data == JNull {
            renderError := true;
          } else {
            messages := messages + [AssistantSays(CompletionText(data))];
          }
        } else {
          messages := messages + [AssistantSays(AnalysisFailed)];
        }
      }
      loading := false;
    }

    method Reset()
      modifies this
      ensures selectedFile.None? && previewUrl.None? && analysis.None?
      ensures messages == [AssistantSays(ResetWelcome)]
      ensures Valid()
      ensures loading == old(loading) && chatInput == old(chatInput)
      ensures chatLoading == old(chatLoading) && chatError == old(chatError)
    {
      selectedFile := None;
      previewUrl := None;
      analysis := None;
      messages := [AssistantSays(ResetWelcome)];
    }

    /** `sendChat`, from its start to its `finally`; returns the body it
        posts. Nothing happens for blank input or while a reply is pending.
        For a `null` answer the user's message stays, no reply is appended
        and `renderError` reports that the page's next render throws. */
    method SendChat(outcome: ChatOutcome) returns (sent: Option<Json>, renderError: bool)
      requires Valid()
      modifies this
      ensures Valid()
      ensures sent.None? <==> Trim(old(chatInput)) == "" || old(chatLoading)
      ensures sent.None? ==> (messages == old(messages) && chatInput == old(chatInput) &&
        chatError == old(chatError) && chatLoading == old(chatLoading))
      ensures sent.Some? ==> sent.value == ChatBody(old(messages) + [UserMessage(old(chatInput))], old(analysis))
      ensures renderError <==> sent.Some? && outcome == ChatAnswered(JNull)
      ensures sent.Some? && !renderError ==>
        messages == old(messages) + [UserMessage(old(chatInput)), ChatReply(outcome).value]
      ensures renderError ==> messages == old(messages) + [UserMessage(old(chatInput))]
      ensures sent.Some? ==> chatInput == "" && !chatLoading
      ensures sent.Some? ==> chatError == (if outcome.ChatAnswered? then None else Some(ChatFailed))
      ensures selectedFile == old(selectedFile) && previewUrl == old(previewUrl) && analysis == old(analysis)
      ensures loading == old(loading)
    {
      sent := None;
      renderError := false;
      if Trim(chatInput) == "" || chatLoading {
        return;
      }
      var userMsg := UserMessage(chatInput);
      var history := messages + [userMsg];
      sent := Some(ChatBody(history, analysis));
      chatInput := "";
      chatLoading := true;
      chatError := if outcome.ChatAnswered? then None else Some(ChatFailed);
      NoSystemAppend(messages, userMsg);
      messages := history;
      var reply := ChatReply(outcome);
      if reply.Some? {
        NoSystemAppend(history, reply.value);
        messages := history + [reply.value];
      } else {
        renderError := true;
      }
      chatLoading := false;
    }
  }
}
