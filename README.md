# Rainwater Harvest PRO — a verified model of its core rules

Rainwater Harvest PRO is a web application. Households use it to assess their
rooftop rainwater-harvesting potential, to chat with an AI assistant about a
roof analysis, and to compare their water savings with the community. This
project models the application's decision logic in Dafny and proves what
that logic guarantees:

- **Roof-AI chat endpoint.** `/api/roof-ai-chat` in `backend/src/app.js` and its
  twin in `backend/index.js` (module `RoofChat`). It checks the request,
  renders the analysis context block, builds the chat turns and the Gemini
  history, picks the live prompt, and maps outcomes to responses.
- **Assessment controller.** Saving an assessment, and reading the latest one
  back enriched with the prediction service's numbers (`AssessmentController`).
  The twelve-field record is shared with the wizard (`AssessmentRecord`).
- **API helper.** The front end's `apiFetch`: the base URL, request URL,
  headers, and the error message it throws (`ApiClient`).
- **Community page.** Progress percentages with `Math.round` on integers,
  the stable leaderboard sort, the community totals fold, perk unlocking,
  and the bar and column clamps (`Community`).
- **Assessment wizard.** Its step validation, its step counter, field edits,
  and the form it submits (`InputForm`).
- **Roof-analysis page.** Its message list, the analysis and chat handlers,
  and the body it posts to the chat endpoint (`RoofAnalysis`).
- **Smaller pages and widgets.** The knowledge hub's category filter, the
  onboarding slides, the map explorer's layer switches, and the dropdown
  widget (`KnowledgeHub`, `Onboarding`, `MapExplorer`, `Dropdown`).

`Js` holds the slice of JavaScript semantics the code relies on:

- JSON values, with `undefined` as `None`;
- truthiness;
- property access;
- template-literal rendering;
- `Array.prototype.join`;
- `String.prototype.trim`, with the ECMAScript whitespace set.

External services are modelled as parameters: Gemini, MongoDB, `fetch`,
`FileReader`, `localStorage`, and navigation. Each handler returns the call
it would make, such as the Gemini call, the prediction request, or the POST
body, so the prompt, the URL and the payload can be stated. It returns
`None` when no call is made. Each asynchronous handler is one sequential step,
from its start to its `finally`.

The handler in `backend/src/app.js` and the one in `backend/index.js` are the
same code, so they are modelled once. Rows below cite whichever file's lines
the member models.

## Model

| member | source | states |
|---|---|---|
| RoofChat.ResolveApiKey | backend/src/app.js:20 | the key is `GOOGLE_API_KEY`, or `GEMINI_API_KEY` when the first is empty; it is empty only when both are |
| RoofChat.ResolveModel | backend/index.js:18 | the model is never empty and is `GEMINI_MODEL` when that is set, `gemini-1.5-flash` otherwise |
| RoofChat.ListText | backend/src/app.js:38 | a falsy notes/recommendations list renders as ""; an array renders as its elements joined with "; "; only a truthy non-array makes `join` throw |
| RoofChat.AreaText | backend/index.js:33 | a falsy area estimate is shown as "N/A", any other value as its template-literal text |
| RoofChat.ContextBlock | backend/src/app.js:38 | without a truthy analysis the block is exactly "No analysis context yet."; otherwise it exists iff both lists can be joined, starts with "Roof Analysis Context:\n" and is never the sentinel |
| RoofChat.ContextBlockLines | backend/src/app.js:38 | with an analysis, the block is eight lines joined by newlines: the header, then Score, Quality, Runoff Potential and Capture Quality with their rendered values, the area estimate ("N/A" when falsy) followed by " m^2", and the notes and recommendations joined with "; " |
| RoofChat.ContextAsLines | backend/index.js:33 | the template literal is the header and the seven labelled lines, joined by newlines |
| Js.JoinAppend | backend/src/app.js:38 | joining two non-empty lists is joining each, with one separator between the results |
| RoofChat.ClientTurns | backend/index.js:40 | one turn per client message, in order, with the same content; the role is assistant iff the message's role is "assistant", user otherwise, never system; a `null` message makes the map throw |
| RoofChat.ChatMessages | backend/src/app.js:42-46 | the list is the system prompt, then the context block, then the client turns: length `|messages| + 2` |
| RoofChat.History | backend/src/app.js:49-52 | drops exactly the first turn and maps each remaining one to a history entry, in order |
| RoofChat.HistoryShape | backend/index.js:44-50 | the history has `|messages| + 1` entries; entry 0 is the context block as a user entry; entry i+1 carries message i's content and is a model entry iff message i is an assistant message |
| RoofChat.HistoryAt | backend/src/app.js:49-52 | the same for one message index, used by the prompt lemmas |
| RoofChat.HistoryHead | backend/src/app.js:44 | the first history entry is the context block as a user entry |
| RoofChat.UserEntriesEmptyIff | backend/src/app.js:57 | the user-role filter is empty exactly when every entry is a model entry |
| RoofChat.LastUserIsLastUserEntry | backend/src/app.js:57 | `filter(...).slice(-1)[0]` exists iff some entry is a user entry, and it is the user entry after which only model entries follow |
| RoofChat.Prompt | backend/src/app.js:57-58 | the prompt is the fallback "Provide guidance based on context." exactly when no entry is a user entry; otherwise it is the text of the user entry after which only model entries follow |
| RoofChat.PromptFromHistory | backend/index.js:55-57 | a user entry always exists, so the "Provide guidance based on context." fallback is never chosen; the prompt is the text of a user entry that also stays in the seeded history |
| RoofChat.PromptIsContextWithoutUserMessage | backend/src/app.js:57-58 | when every client message is an assistant message, the prompt is the context block itself |
| RoofChat.PromptIsLastUserMessage | backend/src/app.js:57-58 | otherwise the prompt is the content of the last client message that is not an assistant message |
| RoofChat.ReplyText | backend/src/app.js:61 | an empty model text becomes "(Empty response)"; any other text is kept |
| RoofChat.UpstreamDetail | backend/index.js:63 | the 502 detail is the error message, or "Unknown Gemini error" when it is empty |
| RoofChat.HandleRoofAiChat | backend/src/app.js:27-71 | 500 for a missing key before the body is read; 400 "messages array required" for missing or non-array messages; the Gemini call is made iff key, array, context and every message are usable, and it uses the configured model, the system prompt, the seeded history and the chosen prompt; 502 with the detail on an upstream failure; 200 with reply and model; 500 "Internal server error" for anything else that throws |
| AssessmentRecord.With | frontend/src/pages/Assessment/InputForm.tsx:180-182 | a field edit replaces exactly that field and keeps the other eleven |
| AssessmentRecord.ToBody | frontend/src/pages/Assessment/InputForm.tsx:106 | the submitted body has exactly the twelve schema keys, each the field's string |
| AssessmentController.SaveProjection | backend/src/controllers/assessmentController.js:7-36 | the stored document is `user` plus the twelve schema fields the body defines, unchanged; nothing else |
| AssessmentController.SaveAssessment | backend/src/controllers/assessmentController.js:5-44 | 201 with the saved document (the projection plus the generated properties) when the save resolves; 500 "Failed to save assessment." when it rejects or the body is `null` |
| AssessmentController.SchemaObjectStored | backend/src/controllers/assessmentController.js:22-36 | a body whose keys are all schema fields is stored whole, next to the user id |
| AssessmentController.WizardSubmissionStored | backend/src/models/assessmentModel.js:5-21 | a wizard submission is stored as the user id plus exactly its twelve fields |
| AssessmentController.StoredWizardField | backend/src/controllers/assessmentController.js:22-36 | each field of a saved wizard submission is the string the user typed |
| AssessmentController.PredictUrl | backend/src/controllers/assessmentController.js:66 | the URL is the base followed by "/predict", with no slash handling |
| AssessmentController.TrailingSlashDoubles | backend/src/controllers/assessmentController.js:66 | a base ending in "/" yields a URL ending in "//predict" |
| AssessmentController.Payload | backend/src/controllers/assessmentController.js:69-74 | the payload renames roofArea, roofType, soilType and rainfall to roof_area, roof_type, soil_type and annual_rainfall; a key is present iff its source field is, with the same value |
| AssessmentController.PayloadOfCompleteRecord | backend/src/controllers/assessmentController.js:69-74 | a record with all four inputs gives exactly the four renamed entries |
| AssessmentController.WizardRecordPayload | backend/src/controllers/assessmentController.js:69-74 | the prediction request for a saved wizard submission carries the roof area, roof type, soil type and rainfall the user entered |
| AssessmentController.OrZero | backend/src/controllers/assessmentController.js:91 | `x || 0`: a truthy value is kept, a missing or falsy one becomes 0 |
| AssessmentController.Merge | backend/src/controllers/assessmentController.js:89-95 | every record field is kept except the four prediction keys, which are always present, override same-named fields, and come from their snake-case keys with the `|| 0` default |
| AssessmentController.PartialPredictionDefaultsToZero | backend/src/controllers/assessmentController.js:91-94 | an answer with only `potential_harvest` yields that value and 0 for the other three |
| AssessmentController.GetLatestAssessment | backend/src/controllers/assessmentController.js:47-104 | 404 without a record, then 500 without a service URL, both without a call; the call is made iff both exist, with the "/predict" URL and the renamed payload; 502 with the service's text on a non-OK status; 200 with the merged record; 500 when the service is unreachable or its body is not a JSON object |
| ApiClient.ApiBaseUrl | frontend/src/lib/api.ts:1 | an unset base is ""; otherwise the result is a prefix of the setting, shorter by one exactly when the setting ends in "/" |
| ApiClient.OneSlashRemoved | frontend/src/lib/api.ts:1 | only one trailing slash is removed: "x//" becomes "x/" |
| ApiClient.RequestPath | frontend/src/lib/api.ts:19 | the path always starts with "/": kept when it does, prefixed with "/" otherwise |
| ApiClient.RequestUrl | frontend/src/lib/api.ts:19 | the URL starts with the base followed by "/", ends with the path, and is one longer than base plus path exactly when the path lacks its slash |
| ApiClient.NoDoubleSlash | frontend/src/lib/api.ts:1-19 | a base configured with one trailing slash and an absolute path join without a double slash |
| ApiClient.TokenFor | frontend/src/lib/api.ts:18 | the stored token is read only when `auth` is set |
| ApiClient.Headers | frontend/src/lib/api.ts:21-25 | Content-Type defaults to application/json; Authorization is present iff a non-empty token exists or the caller supplies one, and is "Bearer <token>" unless overridden; caller headers override; nothing else is added |
| ApiClient.NoTokenWithoutAuth | frontend/src/lib/api.ts:17-18 | with `auth: false` no Authorization header is sent unless the caller supplies one |
| ApiClient.ApiFetch | frontend/src/lib/api.ts:17-45 | the request has the joined URL, the untouched init and the merged headers (auth defaults to true); the promise resolves iff the status is 2xx, with the parsed body or `undefined`; a non-OK status throws the body's string `message` when it is a message object, "Request failed with <status>" otherwise; a network failure is rethrown |
| Community.RoundDiv | frontend/src/pages/Community.tsx:255 | `Math.round(n / d)` for d > 0: the nearest integer, halves rounded up |
| Community.RoundedPercent | frontend/src/pages/Community.tsx:255 | `Math.round(value / goal * 100)` for a goal of either sign |
| Community.RoundedReaches100 | frontend/src/pages/Community.tsx:255 | a rounded percentage reaches 100 exactly when the exact ratio is at least 99.5%, and is non-negative for a non-negative value |
| Community.GetProgress | frontend/src/pages/Community.tsx:253-256 | 0 for a zero goal; never above 100; below 100 it is the rounded percentage (for a goal of either sign); it is 100 exactly when the value reaches 99.5% of a positive goal, and for a negative goal exactly when the ratio value/goal is at least 99.5% |
| Community.Insert | frontend/src/pages/Community.tsx:326-328 | inserting into the sorted copy adds exactly one household |
| Community.InsertSorted | frontend/src/pages/Community.tsx:326-328 | insertion keeps the list non-increasing in the timeframe's savings |
| Community.Leaderboard | frontend/src/pages/Community.tsx:325-329 | the leaderboard is a permutation of the households, sorted non-increasing by the timeframe's savings |
| Community.InsertStable | frontend/src/pages/Community.tsx:326-328 | insertion keeps the relative order of households with equal savings |
| Community.LeaderboardStable | frontend/src/pages/Community.tsx:325-329 | the sort is stable: households with equal savings keep their original order |
| Community.CommunityTotals | frontend/src/pages/Community.tsx:331-346 | the fold computes the timeframe's sum under its own key, the yearly sum added again to `yearly`, the goal sum, and 0 for the other key |
| Community.TotalsAsWritten | frontend/src/pages/Community.tsx:331-346 | the value of the fold as written: the shown key holds the timeframe's sum, twice the yearly sum when the timeframe is yearly; `yearly` is the yearly sum for the other timeframes; `goal` is the goal sum |
| Community.ShownTotalAsWritten | frontend/src/pages/Community.tsx:370 | the headline total is right for weekly and monthly, and twice the yearly savings for yearly |
| Community.YearlyTotalDoubled | frontend/src/pages/Community.tsx:334-335 | on the page's households the yearly view shows 188280 L instead of 94140 L, and 176% average progress instead of 88% |
| Community.CorrectedTotals | frontend/src/pages/Community.tsx:331-346 | the corrected fold counts each key once: yearly is the yearly sum, goal the goal sum, and the shown key the timeframe's sum |
| Community.CorrectedTotalsIgnoreTimeframe | frontend/src/pages/Community.tsx:380-384 | with the corrected fold, the yearly total and the average progress do not depend on the timeframe |
| Community.AverageProgress | frontend/src/pages/Community.tsx:380-384 | 0 without a goal; otherwise the yearly total as a rounded percentage of the goal, for a goal of either sign |
| Community.PerkProgress | frontend/src/pages/Community.tsx:553-558 | perk progress is at most 100, is 100 once the perk is unlocked, reads 100 exactly when the savings reach 99.5% of the threshold, and below that is the rounded percentage of the threshold |
| Community.FullBarWhileLocked | frontend/src/pages/Community.tsx:552-589 | rounding fills a bar before its perk unlocks: 996 L against 1000 L reads 100% with 4 L to go |
| Community.PerksOfSelectedFamily | frontend/src/pages/Community.tsx:552-557 | with the page's households a household is always selected, so the `?? 0` fallback is never taken and the perks measure that household's yearly savings, whatever the timeframe |
| Community.CommunityPage.PerkCard | frontend/src/pages/Community.tsx:551-589 | a perk card is unlocked exactly when the selected household's yearly savings reach the threshold, exactly when nothing is left to go; its progress is at most 100, and 100 once unlocked; a locked card's liters to go fill the gap to the threshold |
| Community.Remaining | frontend/src/pages/Community.tsx:589 | the liters to go are never negative, are 0 exactly when the perk is unlocked, and otherwise fill the gap to the threshold |
| Community.Unlocked | frontend/src/pages/Community.tsx:552 | a perk is unlocked when the yearly savings reach its threshold, so a household without savings has unlocked none |
| Community.PerkThresholdsPositive | frontend/src/pages/Community.tsx:219-238 | every perk threshold is positive, so perk progress is defined |
| Community.BarWidth | frontend/src/pages/Community.tsx:268-270 | the width is clamped to [0, 100] and equals the percent inside that range |
| Community.ColumnHeight | frontend/src/pages/Community.tsx:298-304 | the height is never above 100; it is at least the minimum (8 by default) when that is at most 100, equals the percent between the minimum and 100, the minimum below it, and 100 above 100 or when the minimum itself exceeds 100 |
| Community.MaxOf | frontend/src/pages/Community.tsx:349-351 | `Math.max` of the monthly liters is one of them and no smaller than any |
| Community.SparkPercent | frontend/src/pages/Community.tsx:649-651 | a spark column is 0 when the maximum is 0, lies in [0, 100] for a month between 0 and the maximum, and is 100 for the maximum month |
| Community.SparkPercents | frontend/src/pages/Community.tsx:647-651 | one column per month; all 0 when the maximum is 0; otherwise within [0, 100] for non-negative months, with the maximum month at 100 |
| Community.FindFamily | frontend/src/pages/Community.tsx:348 | `find` returns the first household with the selected id, and returns none exactly when no household has it |
| Community.SelectedFamily | frontend/src/pages/Community.tsx:348 | the first household with the selected id when there is one, otherwise the first household; none only when there are no households |
| Community.CommunityPage.constructor | frontend/src/pages/Community.tsx:322-323 | the page starts on the weekly view with the first household selected |
| Community.CommunityPage.SetTimeframe | frontend/src/pages/Community.tsx:426 | switching the timeframe changes nothing else |
| Community.CommunityPage.SelectFamily | frontend/src/pages/Community.tsx:448 | selecting a household changes nothing else |
| Community.CommunityPage.ShownLeaderboard | frontend/src/pages/Community.tsx:504 | the rendered leaderboard lists every household once, ranked non-increasing by the current timeframe's savings |
| InputForm.StepOf | frontend/src/pages/Assessment/InputForm.tsx:58-84 | every field belongs to one of the three steps |
| InputForm.IsStepValid | frontend/src/pages/Assessment/InputForm.tsx:58-84 | only steps 1, 2 and 3 can be valid (StepValidIff gives the field-by-field meaning in both directions) |
| InputForm.FieldsOfStep | frontend/src/pages/Assessment/InputForm.tsx:58-84 | step 1 holds name, dwellers, phone and email; step 2 roof area, open space, roof type and soil type; step 3 address, latitude, longitude and rainfall |
| InputForm.FilledIff | frontend/src/pages/Assessment/InputForm.tsx:61 | `x.trim()` is truthy exactly when x is not all whitespace |
| InputForm.StepValidIff | frontend/src/pages/Assessment/InputForm.tsx:58-84 | a step is valid iff it is 1, 2 or 3 and none of its four fields is empty or whitespace only |
| InputForm.AllStepsValidComplete | frontend/src/pages/Assessment/InputForm.tsx:58-84 | a form whose three steps are valid has every field filled |
| InputForm.EditKeepsOtherSteps | frontend/src/pages/Assessment/InputForm.tsx:180-182 | editing a field leaves the validity of the other steps unchanged |
| InputForm.TokenText | frontend/src/pages/Assessment/InputForm.tsx:98-104 | a missing token is rendered as "null" in the Authorization header |
| InputForm.SubmitRequest | frontend/src/pages/Assessment/InputForm.tsx:100-107 | the submission is a POST to http://localhost:5000/api/assessments with a JSON content type, "Bearer <token>", and the whole form as body |
| InputForm.AssessmentWizard.constructor | frontend/src/pages/Assessment/InputForm.tsx:21-37 | the wizard starts on step 1 with every field empty |
| InputForm.AssessmentWizard.SetField | frontend/src/pages/Assessment/InputForm.tsx:180-182 | an edit replaces exactly one field and keeps the step; editing the current step's field keeps the invariant that every earlier step is valid |
| InputForm.AssessmentWizard.HandlePrevStep | frontend/src/pages/Assessment/InputForm.tsx:87-91 | the step drops by one only above step 1, so it changes exactly when the previous button is shown; the form is untouched |
| InputForm.AssessmentWizard.PrevShown | frontend/src/pages/Assessment/InputForm.tsx:337-340 | the previous button appears only after step 1, and the step it returns to is a completed one |
| InputForm.AssessmentWizard.HandleNextStep | frontend/src/pages/Assessment/InputForm.tsx:93-114 | below step 3 the step rises by one with no request; on step 3 it stays put, posts the form, and navigates to "/results" iff `fetch` resolves (any HTTP status; a rejection stays on step 3) |
| InputForm.AssessmentWizard.NextEnabled | frontend/src/pages/Assessment/InputForm.tsx:347 | the next button is enabled by the current step's validity, so on step 3 the submit button is enabled only for a complete form |
| InputForm.AssessmentWizard.ClickNext | frontend/src/pages/Assessment/InputForm.tsx:344-348 | a disabled button does nothing; an enabled one advances the step below step 3, and on step 3 posts the form and navigates exactly when `fetch` resolves (any HTTP status; a rejection stays on step 3); the step stays in 1..3 with every earlier step valid; whatever is posted is a complete form |
| InputForm.AssessmentWizard.NextLabelKey | frontend/src/pages/Assessment/InputForm.tsx:349-351 | the button reads "submit" on step 3 and "next" otherwise |
| InputForm.AssessmentWizard.ProgressPercent | frontend/src/pages/Assessment/InputForm.tsx:158-161 | the progress line is positive, at most 100%, and full exactly on step 3 |
| InputForm.AssessmentWizard.BadgeOf | frontend/src/pages/Assessment/InputForm.tsx:132-139 | a step's badge is current on the current step and done exactly for earlier steps |
| RoofAnalysis.CompletionText | frontend/src/pages/RoofAnalysis.tsx:76 | the completion message starts with "Analysis complete. Score: " and is never the failure message |
| RoofAnalysis.MessageJson | frontend/src/pages/RoofAnalysis.tsx:102-105 | a serialised message is a JSON object, never `null` |
| RoofAnalysis.MessageJsonReadBack | frontend/src/pages/RoofAnalysis.tsx:102-105 | the chat endpoint reads back each message's content, and its role for every non-system message |
| RoofAnalysis.MessagesJson | frontend/src/pages/RoofAnalysis.tsx:103 | one serialised message per message, none of them `null` |
| RoofAnalysis.NoSystemAppend | frontend/src/pages/RoofAnalysis.tsx:94 | appending a non-system message keeps the list free of system messages |
| RoofAnalysis.WithoutSystem | frontend/src/pages/RoofAnalysis.tsx:103 | the filter keeps only messages of the list, none of them system, and is the identity on a list without system messages |
| RoofAnalysis.WithoutSystemAppend | frontend/src/pages/RoofAnalysis.tsx:103 | the filter distributes over concatenation, so order is preserved |
| RoofAnalysis.ChatBodyMessages | frontend/src/pages/RoofAnalysis.tsx:102-105 | the chat endpoint finds the filtered, serialised messages in the posted body |
| RoofAnalysis.ChatBody | frontend/src/pages/RoofAnalysis.tsx:102-105 | the endpoint reads back the page's analysis, or `null` when there is none (the messages are stated by ChatBodyMessages) |
| RoofAnalysis.ChatReply | frontend/src/pages/RoofAnalysis.tsx:108-112 | the message appended after a chat request is an assistant message: the answer's `reply` for a JSON body, the apology when the request failed, had a non-OK status or a non-JSON body; none for a `null` body, whose `data.reply` throws inside the state updater, outside the `try` |
| RoofAnalysis.NothingFilteredOut | frontend/src/pages/RoofAnalysis.tsx:103 | on a page without system messages every message is sent |
| RoofAnalysis.TypedTextIsPrompt | frontend/src/pages/RoofAnalysis.tsx:93-103 | whatever came before, the trimmed text the user sends is the prompt the chat endpoint passes to the model |
| RoofAnalysis.RoofAnalysisPage.constructor | frontend/src/pages/RoofAnalysis.tsx:30-40 | the page starts with no file, no analysis, and the single welcome message |
| RoofAnalysis.RoofAnalysisPage.HandleFileChange | frontend/src/pages/RoofAnalysis.tsx:43-51 | picking a file selects it, sets the preview and clears the analysis; picking none changes nothing |
| RoofAnalysis.RoofAnalysisPage.SetChatInput | frontend/src/pages/RoofAnalysis.tsx:34 | typing changes only the chat input |
| RoofAnalysis.RoofAnalysisPage.RunAnalysis | frontend/src/pages/RoofAnalysis.tsx:57-82 | nothing happens without a file; otherwise the request carries the image and file name, and loading ends false; parsed non-null data becomes the analysis and adds the completion text; a failed read, request or parse adds the failure text and keeps the analysis; a `null` body clears the analysis, adds no message and reports a render error, because `data.score` throws inside the state updater, outside the `try` |
| RoofAnalysis.AnalyzeBody | frontend/src/pages/RoofAnalysis.tsx:71 | the endpoint reads back the base64 image and the file name |
| RoofAnalysis.RoofAnalysisPage.Reset | frontend/src/pages/RoofAnalysis.tsx:84-89 | file, preview and analysis are cleared and exactly one assistant message remains |
| RoofAnalysis.RoofAnalysisPage.SendChat | frontend/src/pages/RoofAnalysis.tsx:91-116 | nothing happens for blank input or while a reply is pending; otherwise the trimmed user message and then the assistant's reply or apology are appended, with `chatError` set exactly when the apology is used; a `null` answer appends only the user message and reports a render error, the input is cleared, the posted body holds the earlier messages plus the user message without system roles, and `chatLoading` ends false |
| KnowledgeHub.InCategory | frontend/src/pages/KnowledgeHub.tsx:83 | the filter keeps exactly the items of the category and no more items than it had |
| KnowledgeHub.InCategoryAppend | frontend/src/pages/KnowledgeHub.tsx:83 | the filter distributes over concatenation, so it keeps the catalogue's order |
| KnowledgeHub.FilteredContent | frontend/src/pages/KnowledgeHub.tsx:83 | "all" shows the whole catalogue; any other id shows that category's items |
| KnowledgeHub.UnusedCategoryEmpty | frontend/src/pages/KnowledgeHub.tsx:83 | a category no item belongs to shows nothing |
| KnowledgeHub.ListedUnderOwnCategory | frontend/src/pages/KnowledgeHub.tsx:83 | every item appears under its own category |
| KnowledgeHub.CategoryName | frontend/src/pages/KnowledgeHub.tsx:180 | the label is the name of the first category with the id, and is missing exactly when no category has it |
| KnowledgeHub.ContentCategoriesNamed | frontend/src/pages/KnowledgeHub.tsx:18-82 | every card of the catalogue shows a category name |
| KnowledgeHub.RendersAsLink | frontend/src/pages/KnowledgeHub.tsx:146 | a card is a link exactly when it has a non-empty link |
| KnowledgeHub.KnowledgeHubPage.constructor | frontend/src/pages/KnowledgeHub.tsx:17 | the hub starts on "all" |
| KnowledgeHub.KnowledgeHubPage.SetActiveCategory | frontend/src/pages/KnowledgeHub.tsx:139 | a category button selects its id |
| KnowledgeHub.KnowledgeHubPage.Shown | frontend/src/pages/KnowledgeHub.tsx:83 | the cards shown are the whole catalogue for "all", otherwise exactly the catalogue's items of the active category |
| Onboarding.OnboardingFlow.constructor | src/pages/Onboarding.tsx:13 | the slides start at the first |
| Onboarding.OnboardingFlow.NextSlide | src/pages/Onboarding.tsx:27-33 | before the last slide it advances by one; on the last it navigates to "/login" and stays; the slide stays within the three |
| Onboarding.OnboardingFlow.SkipToLogin | src/pages/Onboarding.tsx:34-36 | skipping navigates to "/login" from any slide |
| Onboarding.OnboardingFlow.Current | src/pages/Onboarding.tsx:45-51 | the slide shown is one of the three |
| Onboarding.OnboardingFlow.ButtonLabel | src/pages/Onboarding.tsx:58 | the button reads "Get Started" exactly on the last slide, "Next" otherwise |
| Onboarding.OnboardingFlow.DotIsWide | src/pages/Onboarding.tsx:53 | the wide progress dot is the one of the slide shown |
| MapExplorer.Toggle | src/pages/MapExplorer.tsx:13-18 | toggling negates exactly the chosen layer and leaves the others unchanged |
| MapExplorer.LayersExtensional | src/pages/MapExplorer.tsx:8-12 | two layer records agree when every layer agrees |
| MapExplorer.ToggleTwice | src/pages/MapExplorer.tsx:13-18 | toggling a layer twice restores the record |
| MapExplorer.ToggleCommutes | src/pages/MapExplorer.tsx:13-18 | toggling two layers gives the same record in either order |
| MapExplorer.MapExplorerPage.constructor | src/pages/MapExplorer.tsx:7-12 | rainfall and recharge structures start on, aquifers off, and the info panel closed |
| MapExplorer.MapExplorerPage.ToggleLayer | src/pages/MapExplorer.tsx:13-18 | a checkbox toggles its layer and leaves the panel alone |
| MapExplorer.MapExplorerPage.TogglePin | src/pages/MapExplorer.tsx:127 | the pin flips the info panel |
| MapExplorer.MapExplorerPage.CloseInfo | src/pages/MapExplorer.tsx:74 | the close button hides the info panel |
| Dropdown.SelectedOption | src/components/ui/Dropdown.tsx:24 | the selection is the first option with the value, and none exactly when the value is undefined or no option has it |
| Dropdown.DisplayText | src/components/ui/Dropdown.tsx:20-32 | the button shows the selected option's label, or else the placeholder, which defaults to "Select an option" |
| Dropdown.PlaceholderOr | src/components/ui/Dropdown.tsx:20 | the default "Select an option" replaces only an undefined placeholder; a given placeholder, even an empty one, is kept as it is |
| Dropdown.HighlightedIffSelected | src/components/ui/Dropdown.tsx:39 | some option is highlighted exactly when there is a selection, and the selected option is highlighted |
| Dropdown.Highlighted | src/components/ui/Dropdown.tsx:39 | an option is drawn highlighted exactly when the value is defined and equal to its own, so an undefined value highlights nothing |
| Dropdown.DropdownState.constructor | src/components/ui/Dropdown.tsx:23 | the list starts closed |
| Dropdown.DropdownState.ToggleOpen | src/components/ui/Dropdown.tsx:30 | the button flips the list open or closed |
| Dropdown.DropdownState.Choose | src/components/ui/Dropdown.tsx:39-42 | choosing an option reports its value to `onChange` when there is one, and closes the list |
| Js.TrimEmptyIffBlank | frontend/src/pages/RoofAnalysis.tsx:92 | `s.trim()` is "" exactly when s consists of whitespace only |

## Left out

- Gemini SDK, MongoDB/Mongoose, `fetch`/`node-fetch`, `FileReader`, `URL.createObjectURL`, `localStorage` and `navigate`: their results are parameters, and the calls made are results.
- `latencyMs` in the chat reply: it depends on `Date.now()`, so the 200 body holds only `reply` and `model`.
- Environment and startup: `process.env` values are parameters (`RoofChat.Config`, the service URL, the API base); `dotenv`, `mongoose.connect` and `app.listen` are not modelled.
- Numbers are unbounded integers in the JSON model; floats, `NaN` and `Infinity` are not represented, nor are the loss of precision above 2^53 and the exponent notation ("1e+21") JavaScript uses when it renders a number of 10^21 or more: `Js.IntToString` writes every digit. `Number.isFinite` in the clamps is therefore left out. Bar and spark percentages are exact rationals (`real`), not IEEE doubles.
- Locale formatting (`formatLiters`, `Intl.NumberFormat`) and translation keys, beyond the key names of the wizard's button label.
- Presentation: icons, CSS classes, thumbnails, descriptions of perks, month names of the spark columns.
- The body sent by `runAnalysis` holds the data URL as given; the base64 encoding done by `FileReader` is not modelled.
- RoofAnalysis.RoofAnalysisPage.RunAnalysis, RoofAnalysis.RoofAnalysisPage.SendChat: a `null` response body makes a state updater throw when React applies it; the model reports this as `renderError` and does not model React unmounting the page afterwards.
- Async interleaving: each handler is one step from its start to its `finally`, so overlapping clicks while a request is pending are not modelled; `loading` and `chatLoading` are therefore false again at the end of each step.
- Mongoose schema casting and the generated `_id`, timestamps and version: the generated properties are a parameter of `SaveAssessment`.
- `ApiClient.Headers`: header names are compared case-sensitively, as the object spread does; the case-insensitive merge `fetch` applies afterwards is not modelled. Caller headers are a plain map, not a `Headers` instance or array.
- Mongoose lookup ordering (`sort({ createdAt: -1 })`) is folded into the lookup outcome: `Lookup.Found` carries the latest document.
- `ml-service/app.py` and the clustering code behind the prediction service are not part of this model.

## Findings

| source | as written | input that shows it | evidently intended | confidence | as-written member | corrected member |
|---|---|---|---|---|---|---|
| frontend/src/pages/Community.tsx:334-335 | the fold adds each household's savings for the chosen timeframe to `acc[timeframe]` and then adds its yearly savings to `acc.yearly`; with the yearly view both lines add to `yearly` | the page's own six households in the yearly view: "Total Saved this year" reads 188280 L (the households saved 94140 L), and "Average Household Progress" reads 176% instead of 88% | each total counted once whatever the timeframe, as the labels say | not executed | Community.TotalsAsWritten (with Community.CommunityTotals and Community.YearlyTotalDoubled) | Community.CorrectedTotals (with Community.CorrectedTotalsIgnoreTimeframe) |
