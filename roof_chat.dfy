/** The `/api/roof-ai-chat` endpoint. backend/src/app.js and backend/index.js
    carry the same handler text, so one model serves both: request checks,
    the analysis-context block, the ordered turn list, the Gemini history
    with roles normalised to {user, model}, the choice of the live prompt,
    and the mapping of the upstream outcome to an HTTP response. The Gemini
    SDK is not modelled: what the handler would hand it is returned as a
    `GeminiCall`, and what it answers is the parameter `upstream`. */
module RoofChat {
  import opened Js

  const SystemPrompt: string := "You are a helpful assistant specializing in rainwater harvesting rooftop suitability. Use the provided analysis context when answering. If the user asks for actionable improvements, be concise and list them as bullet points. If they ask before an analysis is run, instruct them to upload and analyse an image first. Avoid hallucinating measurements."
  const NoAnalysisContext: string := "No analysis context yet."
  const FallbackPrompt: string := "Provide guidance based on context."
  const DefaultModel: string := "gemini-1.5-flash"
  const NoReply: string := "(No response)"
  const EmptyReply: string := "(Empty response)"
  const UnknownUpstreamError: string := "Unknown Gemini error"

  /** Process configuration; an unset variable is "". */
  datatype Config = Config(apiKey: string, model: string)

  /** `GOOGLE_API_KEY || GEMINI_API_KEY`. */
  function ResolveApiKey(googleKey: string, geminiKey: string): (key: string)
    ensures key == "" <==> googleKey == "" && geminiKey == ""
    ensures googleKey != "" ==> key == googleKey
    ensures googleKey == "" ==> key == geminiKey
  {
    if googleKey != "" then googleKey else geminiKey
  }

  /** `GEMINI_MODEL || 'gemini-1.5-flash'`. */
  function ResolveModel(modelEnv: string): (model: string)
    ensures model != ""
    ensures modelEnv != "" ==> model == modelEnv
  {
    if modelEnv != "" then modelEnv else DefaultModel
  }

  /** Roles of the locally built turn list `chatMessages`. */
  datatype Role = System | User | Assistant

  datatype Turn = Turn(role: Role, content: Value)

  /** Roles of the Gemini chat history. */
  datatype HistoryRole = UserRole | ModelRole

  /** One history entry `{ role, parts: [{ text }] }`. */
  datatype HistoryEntry = HistoryEntry(role: HistoryRole, text: Value)

  /** What the handler hands to the SDK: the model name, the system
      instruction, the seeded history, and the live message. */
  datatype GeminiCall = GeminiCall(model: string, systemInstruction: string, history: seq<HistoryEntry>, prompt: Value)

  /** What the SDK does with the call: answers with a text, or throws an
      error whose `message` may be empty or absent (""). */
  datatype GeminiOutcome = Replied(text: string) | Threw(message: string)

  /** `(list || []).join('; ')`; `None` when a truthy non-array has no `join`
      (a TypeError). */
  function ListText(v: Value): (r: Option<string>)
    ensures !Truthy(v) ==> r == Some("")
    ensures r.None? <==> Truthy(v) && !v.value.JArr?
    ensures Truthy(v) && v.value.JArr? ==> r == Some(JoinValues(v.value.items, "; "))
  {
    if !Truthy(v) then Some("")
    else match v.value
      case JArr(items) => Some(JoinValues(items, "; "))
      case _ => None
  }

  /** `${analysis.areaEstimate || 'N/A'}`. */
  function AreaText(area: Value): (r: string)
    ensures !Truthy(area) ==> r == "N/A"
    ensures Truthy(area) ==> r == ToText(area)
  {
    if Truthy(area) then ToText(area) else "N/A"
  }

  /** The analysis-context block; `None` when rendering throws (notes or
      recommendations truthy but not an array). */
  function ContextBlock(analysis: Value): (r: Option<string>)
    ensures !Truthy(analysis) ==> r == Some(NoAnalysisContext)
    ensures Truthy(analysis) ==>
      (r.Some? <==> ListText(Prop(analysis.value, "notes")).Some?
                    && ListText(Prop(analysis.value, "recommendations")).Some?)
    ensures Truthy(analysis) && r.Some? ==>
      StartsWith(r.value, ContextHeader) && r.value != NoAnalysisContext
  {
    if !Truthy(analysis) then Some(NoAnalysisContext)
    else
      var a := analysis.value;
      var notes := ListText(Prop(a, "notes"));
      var recommendations := ListText(Prop(a, "recommendations"));
      if notes.None? || recommendations.None? then None
      else
        var text := ContextHeader + ContextFields(ToText(Prop(a, "score")), ToText(Prop(a, "quality")),
          ToText(Prop(a, "runoffPotential")), ToText(Prop(a, "captureQuality")),
          AreaText(Prop(a, "areaEstimate")), notes.value, recommendations.value);
        assert text[..|ContextHeader|] == ContextHeader;
        assert text[0] != NoAnalysisContext[0];
        Some(text)
  }

  const ContextHeader: string := "Roof Analysis Context:" + "\n"

  /** The lines of the context block after its header, from the rendered
      values. */
  function ContextFields(score: string, quality: string, runoff: string, capture: string,
    area: string, notes: string, recommendations: string): string
  {
    ("Score: " + score) + "\n" +
    (("Quality: " + quality) + "\n" +
    (("Runoff Potential: " + runoff) + "\n" +
    (("Capture Quality: " + capture) + "\n" +
    (("Area Estimate: " + area + " m^2") + "\n" +
    (("Observations: " + notes) + "\n" +
    ("Recommendations: " + recommendations))))))
  }

  /** The header and the fields are eight lines joined by newlines. */
  lemma ContextAsLines(score: string, quality: string, runoff: string, capture: string,
    area: string, notes: string, recommendations: string)
    ensures ContextHeader + ContextFields(score, quality, runoff, capture, area, notes, recommendations)
      == Join([
        "Roof Analysis Context:",
        "Score: " + score,
        "Quality: " + quality,
        "Runoff Potential: " + runoff,
        "Capture Quality: " + capture,
        "Area Estimate: " + area + " m^2",
        "Observations: " + notes,
        "Recommendations: " + recommendations], "\n")
  {
    var nl := "\n";
    JoinEight("Roof Analysis Context:", "Score: " + score, "Quality: " + quality,
      "Runoff Potential: " + runoff, "Capture Quality: " + capture,
      "Area Estimate: " + area + " m^2", "Observations: " + notes,
      "Recommendations: " + recommendations, nl);
  }

  /** With an analysis whose lists can be joined, the block is the header
      line followed by one labelled line per field, joined by newlines: a
      falsy area reads "N/A" and the lists are joined with "; ". */
  lemma ContextBlockLines(analysis: Value)
    requires Truthy(analysis)
    requires ListText(Prop(analysis.value, "notes")).Some?
    requires ListText(Prop(analysis.value, "recommendations")).Some?
    ensures var a := analysis.value;
      ContextBlock(analysis) == Some(Join([
        "Roof Analysis Context:",
        "Score: " + ToText(Prop(a, "score")),
        "Quality: " + ToText(Prop(a, "quality")),
        "Runoff Potential: " + ToText(Prop(a, "runoffPotential")),
        "Capture Quality: " + ToText(Prop(a, "captureQuality")),
        "Area Estimate: " + AreaText(Prop(a, "areaEstimate")) + " m^2",
        "Observations: " + ListText(Prop(a, "notes")).value,
        "Recommendations: " + ListText(Prop(a, "recommendations")).value], "\n"))
  {
    var a := analysis.value;
    ContextAsLines(ToText(Prop(a, "score")), ToText(Prop(a, "quality")),
      ToText(Prop(a, "runoffPotential")), ToText(Prop(a, "captureQuality")),
      AreaText(Prop(a, "areaEstimate")), ListText(Prop(a, "notes")).value,
      ListText(Prop(a, "recommendations")).value);
  }

  /** A client message is an assistant message. */
  predicate IsAssistantMessage(m: Json)
  {
    Prop(m, "role") == Some(JStr("assistant"))
  }

  /** The role a client message keeps: "assistant" stays, anything else is "user". */
  function ClientRole(m: Json): Role
  {
    if IsAssistantMessage(m) then Assistant else User
  }

  /** `messages.map(m => ({ role: ..., content: m.content }))`; `None` when an
      element is `null` (reading `m.role` throws). */
  function ClientTurns(messages: seq<Json>): (r: Option<seq<Turn>>)
    ensures r.Some? <==> JNull !in messages
    ensures r.Some? ==> |r.value| == |messages|
    ensures r.Some? ==> forall i :: 0 <= i < |messages| ==>
      && r.value[i].content == Prop(messages[i], "content")
      && r.value[i].role != System
      && (r.value[i].role == Assistant <==> IsAssistantMessage(messages[i]))
  {
    if messages == [] then Some([])
    else if messages[0] == JNull then None
    else match ClientTurns(messages[1..])
      case None => None
      case Some(rest) => Some([Turn(ClientRole(messages[0]), Prop(messages[0], "content"))] + rest)
  }

  /** `chatMessages`: the system prompt, the context block, then the client turns. */
  function ChatMessages(context: string, messages: seq<Json>): (r: Option<seq<Turn>>)
    ensures r.Some? <==> JNull !in messages
    ensures r.Some? ==> |r.value| == |messages| + 2
    ensures r.Some? ==> r.value[0] == Turn(System, Some(JStr(SystemPrompt)))
    ensures r.Some? ==> r.value[1] == Turn(System, Some(JStr(context)))
    ensures r.Some? ==> r.value[2..] == ClientTurns(messages).value
  {
    match ClientTurns(messages)
    case None => None
    case Some(turns) => Some([Turn(System, Some(JStr(SystemPrompt))), Turn(System, Some(JStr(context)))] + turns)
  }

  function ToHistoryEntry(t: Turn): HistoryEntry
  {
    HistoryEntry(if t.role == Assistant then ModelRole else UserRole, t.content)
  }

  /** `chatMessages.slice(1).map(...)`. */
  function History(chat: seq<Turn>): (h: seq<HistoryEntry>)
    ensures |h| == if chat == [] then 0 else |chat| - 1
    ensures forall i :: 0 <= i < |h| ==> h[i] == ToHistoryEntry(chat[i + 1])
  {
    if chat == [] then []
    else seq(|chat| - 1, i requires 0 <= i < |chat| - 1 => ToHistoryEntry(chat[i + 1]))
  }

  /** `history.filter(h => h.role === 'user')`. */
  function UserEntries(h: seq<HistoryEntry>): seq<HistoryEntry>
  {
    if h == [] then []
    else UserEntries(h[..|h| - 1]) + (if h[|h| - 1].role == UserRole then [h[|h| - 1]] else [])
  }

  /** `history.filter(...).slice(-1)[0]`: the last user entry, if any. */
  function LastUser(h: seq<HistoryEntry>): Option<HistoryEntry>
  {
    var users := UserEntries(h);
    if users == [] then None else Some(users[|users| - 1])
  }

  /** The live message: the last user entry's text, or the fallback instruction. */
  function Prompt(h: seq<HistoryEntry>): (r: Value)
    ensures (forall i :: 0 <= i < |h| ==> h[i].role != UserRole) ==> r == Some(JStr(FallbackPrompt))
    ensures (exists i :: 0 <= i < |h| && h[i].role == UserRole) ==> exists i :: IsLastUserAt(h, i) && r == h[i].text
  {
    LastUserIsLastUserEntry(h);
    match LastUser(h)
    case Some(e) => e.text
    case None => Some(JStr(FallbackPrompt))
  }

  /** `response.text() || '(Empty response)'`. */
  function ReplyText(text: string): (r: string)
    ensures r != ""
    ensures text != "" ==> r == text
  {
    if text != "" then text else EmptyReply
  }

  /** `gemErr.message || 'Unknown Gemini error'`. */
  function UpstreamDetail(message: string): (r: string)
    ensures r != ""
    ensures message != "" ==> r == message
  {
    if message != "" then message else UnknownUpstreamError
  }

  /** `req.body || {}`. */
  function BodyOrEmpty(body: Value): Json
  {
    if Truthy(body) then body.value else JObj(map[])
  }

  /** The client's `messages`, when it is an array. */
  function RequestMessages(body: Value): Option<seq<Json>>
  {
    match Prop(BodyOrEmpty(body), "messages")
    case Some(JArr(items)) => Some(items)
    case _ => None
  }

  function ErrorResponse(status: int, text: string): Response
  {
    Response(status, Message("error", text))
  }

  /** The handler, one request, one sequential step. `call` is what it hands
      to the SDK (`None` when it answers before reaching it). */
  method HandleRoofAiChat(config: Config, body: Value, upstream: GeminiOutcome)
    returns (response: Response, call: Option<GeminiCall>)
    ensures config.apiKey == "" ==>
      response == ErrorResponse(500, "Server missing Google Gemini API key") && call.None?
    ensures config.apiKey != "" && RequestMessages(body).None? ==>
      response == ErrorResponse(400, "messages array required") && call.None?
    ensures call.Some? <==>
      && config.apiKey != "" && RequestMessages(body).Some?
      && ContextBlock(Prop(BodyOrEmpty(body), "analysis")).Some?
      && JNull !in RequestMessages(body).value
    ensures config.apiKey != "" && RequestMessages(body).Some? && call.None? ==>
      response == ErrorResponse(500, "Internal server error")
    ensures call.Some? ==>
      var context := ContextBlock(Prop(BodyOrEmpty(body), "analysis")).value;
      var history := History(ChatMessages(context, RequestMessages(body).value).value);
      call.value == GeminiCall(config.model, SystemPrompt, history, Prompt(history))
    ensures call.Some? && upstream.Threw? ==>
      response == Response(502, JObj(map["error" := JStr("Upstream AI error"), "detail" := JStr(UpstreamDetail(upstream.message))]))
    ensures call.Some? && upstream.Replied? ==>
      response == Response(200, JObj(map["reply" := JStr(ReplyText(upstream.text)), "model" := JStr(config.model)]))
  {
    if config.apiKey == "" {
      return ErrorResponse(500, "Server missing Google Gemini API key"), None;
    }
    var requestBody := BodyOrEmpty(body);
    var messages := Prop(requestBody, "messages");
    if !Truthy(messages) || !messages.value.JArr? {
      return ErrorResponse(400, "messages array required"), None;
    }
    var context := ContextBlock(Prop(requestBody, "analysis"));
    if context.None? {
      return ErrorResponse(500, "Internal server error"), None;
    }
    var chat := ChatMessages(context.value, messages.value.items);
    if chat.None? {
      return ErrorResponse(500, "Internal server error"), None;
    }
    var systemInstruction := chat.value[0].content.value.s;
    var history := History(chat.value);
    var answer := NoReply;
    var lastUser := LastUser(history);
    var prompt := if lastUser.Some? then lastUser.value.text else Some(JStr(FallbackPrompt));
    call := Some(GeminiCall(config.model, systemInstruction, history, prompt));
    match upstream {
      case Threw(message) =>
        response := Response(502, JObj(map["error" := JStr("Upstream AI error"), "detail" := JStr(UpstreamDetail(message))]));
        return;
      case Replied(text) =>
        answer := if text != "" then text else EmptyReply;
    }
    response := Response(200, JObj(map["reply" := JStr(answer), "model" := JStr(config.model)]));
  }

  /** The seeded history: the context block as the first user turn, then one
      entry per client message, in order, with "assistant" mapped to "model"
      and every other role to "user". */
  lemma HistoryShape(context: string, messages: seq<Json>)
    requires JNull !in messages
    ensures var h := History(ChatMessages(context, messages).value);
      && |h| == |messages| + 1
      && h[0] == HistoryEntry(UserRole, Some(JStr(context)))
      && forall i :: 0 <= i < |messages| ==>
           && h[i + 1].text == Prop(messages[i], "content")
           && (h[i + 1].role == ModelRole <==> IsAssistantMessage(messages[i]))
  {
    var chat := ChatMessages(context, messages).value;
    var h := History(chat);
    assert h[0] == ToHistoryEntry(chat[1]);
    forall i | 0 <= i < |messages|
      ensures h[i + 1].text == Prop(messages[i], "content")
      ensures h[i + 1].role == ModelRole <==> IsAssistantMessage(messages[i])
    {
      assert h[i + 1] == ToHistoryEntry(chat[i + 2]);
    }
  }

  /** One client message's history entry, as `HistoryShape` states it for all. */
  lemma HistoryAt(context: string, messages: seq<Json>, i: int)
    requires JNull !in messages
    requires 0 <= i < |messages|
    ensures var h := History(ChatMessages(context, messages).value);
      && |h| == |messages| + 1
      && h[i + 1].text == Prop(messages[i], "content")
      && (h[i + 1].role == ModelRole <==> IsAssistantMessage(messages[i]))
  {
    var chat := ChatMessages(context, messages).value;
    assert History(chat)[i + 1] == ToHistoryEntry(chat[i + 2]);
  }

  /** The first history entry is the context block as a user turn. */
  lemma HistoryHead(context: string, messages: seq<Json>)
    requires JNull !in messages
    ensures var h := History(ChatMessages(context, messages).value);
      |h| == |messages| + 1 && h[0] == HistoryEntry(UserRole, Some(JStr(context)))
  {
    var chat := ChatMessages(context, messages).value;
    assert History(chat)[0] == ToHistoryEntry(chat[1]);
  }

  /** `UserEntries` keeps exactly the user entries. */
  lemma {:induction false} UserEntriesEmptyIff(h: seq<HistoryEntry>)
    ensures UserEntries(h) == [] <==> forall i :: 0 <= i < |h| ==> h[i].role == ModelRole
  {
    if h != [] {
      var init := h[..|h| - 1];
      UserEntriesEmptyIff(init);
      assert forall i :: 0 <= i < |init| ==> init[i] == h[i];
    }
  }

  /** Entry `i` is a user entry and every later entry is a model entry. */
  predicate IsLastUserAt(h: seq<HistoryEntry>, i: int)
  {
    0 <= i < |h| && h[i].role == UserRole && forall j :: i < j < |h| ==> h[j].role == ModelRole
  }

  /** The filter-then-last in the handler picks the last user entry of the
      history: it exists iff some entry is a user entry, and every entry
      after it is a model entry. */
  lemma {:induction false} LastUserIsLastUserEntry(h: seq<HistoryEntry>)
    ensures LastUser(h).Some? <==> exists i :: 0 <= i < |h| && h[i].role == UserRole
    ensures LastUser(h).Some? ==> exists i :: IsLastUserAt(h, i) && h[i] == LastUser(h).value
  {
    UserEntriesEmptyIff(h);
    if h != [] {
      var n := |h| - 1;
      var init := h[..n];
      assert forall i :: 0 <= i < n ==> init[i] == h[i];
      if h[n].role == UserRole {
        assert UserEntries(h) == UserEntries(init) + [h[n]];
        assert LastUser(h) == Some(h[n]);
        assert IsLastUserAt(h, n);
      } else {
        assert UserEntries(h) == UserEntries(init);
        LastUserIsLastUserEntry(init);
        if LastUser(h).Some? {
          var i :| IsLastUserAt(init, i) && init[i] == LastUser(init).value;
          assert IsLastUserAt(h, i) && h[i] == LastUser(h).value;
        }
      }
    }
  }

  /** Since the context block is always a user turn, a user entry always
      exists: the fallback instruction is never chosen, and the live prompt
      is the text of a user entry that also stays in the seeded history. */
  lemma PromptFromHistory(context: string, messages: seq<Json>)
    requires JNull !in messages
    ensures var h := History(ChatMessages(context, messages).value);
      && LastUser(h).Some?
      && (exists i :: 0 <= i < |h| && h[i].role == UserRole && h[i].text == Prompt(h))
  {
    var h := History(ChatMessages(context, messages).value);
    HistoryHead(context, messages);
    LastUserIsLastUserEntry(h);
    var i :| IsLastUserAt(h, i) && h[i] == LastUser(h).value;
  }

  /** When every client message is an assistant message, the live prompt is
      the context block itself. */
  lemma PromptIsContextWithoutUserMessage(context: string, messages: seq<Json>)
    requires JNull !in messages
    requires forall i :: 0 <= i < |messages| ==> IsAssistantMessage(messages[i])
    ensures Prompt(History(ChatMessages(context, messages).value)) == Some(JStr(context))
  {
    var h := History(ChatMessages(context, messages).value);
    HistoryHead(context, messages);
    LastUserIsLastUserEntry(h);
    var i :| IsLastUserAt(h, i) && h[i] == LastUser(h).value;
    if i > 0 {
      HistoryAt(context, messages, i - 1);
    }
  }

  /** Otherwise the live prompt is the content of the last client message
      that is not an assistant message. */
  lemma PromptIsLastUserMessage(context: string, messages: seq<Json>, k: int)
    requires JNull !in messages
    requires 0 <= k < |messages| && !IsAssistantMessage(messages[k])
    requires forall j :: k < j < |messages| ==> IsAssistantMessage(messages[j])
    ensures Prompt(History(ChatMessages(context, messages).value)) == Prop(messages[k], "content")
  {
    var h := History(ChatMessages(context, messages).value);
    HistoryHead(context, messages);
    HistoryAt(context, messages, k);
    LastUserIsLastUserEntry(h);
    var i :| IsLastUserAt(h, i) && h[i] == LastUser(h).value;
    if i > k + 1 {
      HistoryAt(context, messages, i - 1);
    }
  }
}
