# Patient intake flow, modelled in Dafny

This project models the decision rules and state of a patient-intake web
application: a FastAPI backend and a Next.js frontend. A patient fills an
intake form, gets an analysis, chats through follow-up questions and
completes a final questionnaire. The questionnaire is analysed by an LLM and
shown as a treatment plan. The LLM, the voice services, the file system and
the browser are outside the model. Their outcomes enter as parameters.

One module per source file:

| module | file | models |
|---|---|---|
| `Chatbot` | `chatbot.dfy` | the question cursor of the chatbot sessions (backend/app/api/chatbot.py) |
| `Sessions` | `session_store.dfy` | the in-memory session store (backend/app/api/session_store.py) |
| `Atoms` | `atoms.dfy` | the intake-analysis result cell (backend/app/core/atoms.py) |
| `IntakeForm` | `intake_form.dfy` | question visibility, normalisation and the submit gate of the intake form (frontend/app/intake-form/page.js) |
| `FinalAnalysisModels` | `final_analysis_models.dfy` | the final-analysis schema: enumerations, probability bounds, the sum validator, request validation (backend/app/models/final_analysis.py) |
| `FinalAnalysisApi` | `final_analysis_api.dfy` | the prompt input, the flexion/extension derivation, storage and the error mapping (backend/app/api/final_analysis.py) |
| `FinalAnalysisPage` | `final_analysis_page.dfy` | the questionnaire page: form updates, the empty-field check, error precedence (frontend/app/final-analysis/page.js) |
| `TreatmentPlanPage` | `treatment_plan_page.dfy` | the result page: null guard, missing-field filter, badge (frontend/app/final-analysis-treatment-plan/page.js) |
| `DatabaseUrl` | `database_url.dfy` | the `DATABASE_URL` scheme rewrite and check (backend/app/core/database.py) |
| `Conversation` | `conversation.dfy` | transcript formatting, the endpoint as written (the missing output parser) and as intended, error mapping (backend/app/api/conversation.py) |
| `DrRayChat` | `dr_ray_chat.dfy` | the "chat with Dr. Ray" message log (frontend/app/chat-with-dr-ray/components/Chat.js) |
| `StoryChat` | `story_chat.dfy` | the follow-up chat over the patient story (frontend/components/chat/Chat.js) |
| `FeedbackRoute` | `feedback_route.dfy` | the append-only feedback file (frontend/app/api/feedback/route.js) |
| `CompileData` | `compile_data.dfy` | the JSONL loader and merge script (scripts/compile_data.py) |

Shared helpers: `Wrappers` (`Option`, `Result`), `Json` (JSON values,
JavaScript and Python truthiness, property reads), `Http` (`HTTPException`)
and `Text` (joining, prefixes, the JavaScript and Python white-space sets,
ASCII lower-casing, decimal digits).

Code that updates state in place is modelled as a class whose methods state
the new state in terms of the old one. These are the chatbot's session
dictionary, the session store, the result cell, and the page components with
their `useState` hooks and atoms. The feedback store and the script's loops
are modelled the same way. Pure rules are functions, with lemmas that state
what the source promises about them.

## Model

| member | source | states |
|---|---|---|
| Chatbot.NextQuestionStepFacts | backend/app/api/chatbot.py:21-32 | the answer is recorded before the exhaustion check; an exhausted cursor returns nothing and stays put; otherwise the question at the cursor is returned and the cursor moves by exactly one; the question list never changes and the cursor stays in range |
| Chatbot.RunHandsOutQuestionsInOrder | backend/app/api/chatbot.py:21-32 | over any sequence of calls the questions come out in list order, each once, then nothing; the cursor ends at min(start + calls, length); the responses are the earlier ones plus every non-None answer in order |
| Chatbot.ResponseFor | backend/app/api/chatbot.py:59-70 | the response is complete exactly when the next question is absent or falsy (an empty dict); a complete response carries no question and "Assessment complete"; otherwise it carries the question and "Thank you for your response" |
| Chatbot.EmptyQuestionReadsAsCompletion | backend/app/api/chatbot.py:59 | a question whose dict is empty is consumed yet reported as completion, because `not next_q` is Python truthiness |
| Chatbot.ChatbotService.constructor | backend/app/api/chatbot.py:16 | the session dictionary starts empty |
| Chatbot.ChatbotService.GetNextQuestion | backend/app/api/chatbot.py:21-32 | an unknown session id raises a KeyError before any change; otherwise the session becomes the next step of its record and no other session changes |
| Chatbot.ChatbotService.StartSession | backend/app/api/chatbot.py:35-48 | a new session holds the questions, no responses, and cursor 1 when there is a question (0 otherwise); the response carries the first question and is not complete |
| Chatbot.ChatbotService.HandleResponse | backend/app/api/chatbot.py:51-73 | an unknown session gives 404 "Session not found" with no change; otherwise the answer is recorded and the response follows `ResponseFor` on the question returned |
| Sessions.SessionStore.constructor | backend/app/api/session_store.py:10-11 | a fresh store is empty |
| Sessions.SessionStore.GetSession | backend/app/api/session_store.py:13-15 | returns the stored data, `{}` for an id never set, and changes nothing |
| Sessions.SessionStore.SetSession | backend/app/api/session_store.py:17-19 | the id maps to the new data and every other id keeps its data |
| Sessions.SessionStore.DeleteSession | backend/app/api/session_store.py:22-26 | the id is removed, an absent id is a no-op, and a later read gives `{}` |
| Sessions.GetAfterSet | backend/app/api/session_store.py:13-19 | a read after a set returns the data set, and a second set overwrites the first |
| Atoms.IntakeAnalysisResultCell.constructor | backend/app/core/atoms.py:5 | the cell starts as None |
| Atoms.IntakeAnalysisResultCell.Get | backend/app/core/atoms.py:7-8 | returns the held value and changes nothing |
| Atoms.IntakeAnalysisResultCell.Set | backend/app/core/atoms.py:10-12 | the cell holds the new result, replacing any earlier one |
| IntakeForm.ShownQuestions | frontend/app/intake-form/page.js:420-534 | the set of shown questions is exactly the questions 15..21 whose visibility condition holds |
| IntakeForm.VisibilityRules | frontend/app/intake-form/page.js:420-534 | "other" hides 15-21; without it 15-17 always show; 18-20 show exactly when "lower_back" or "neck" is selected; 21 shows exactly with "lower_back", so 21 implies 18-20 |
| IntakeForm.VisibilityExamples | frontend/app/intake-form/page.js:420-534 | the shown sets for other, lower back, neck, knee, no selection, and lower back with other |
| IntakeForm.ParseIntOfDecimalString | frontend/app/intake-form/page.js:71 | base-10 `parseInt` reads back any printed natural number |
| IntakeForm.NormaliseFacts | frontend/app/intake-form/page.js:69-83 | each enumerated field keeps a non-empty value or gets its fixed default; `pain_severity` is the parsed value |
| IntakeForm.NormaliseKeepsOtherFields | frontend/app/intake-form/page.js:69-70 | every other field passes through unchanged, and no other key is added |
| IntakeForm.NormalisedEnumsAreFilled | frontend/app/intake-form/page.js:72-82 | after normalisation no enumerated field is empty |
| IntakeForm.SeverityFromSelectIsInRange | frontend/app/intake-form/page.js:71 | a severity from the 0..10 select, or an empty or missing one, reaches the server as an integer in 0..10, equal to the choice |
| IntakeForm.IntakeFormPage.constructor | frontend/app/intake-form/page.js:28-30 | the page starts not loading, with the atoms' values, on its own route, with no alert |
| IntakeForm.IntakeFormPage.OnSubmit | frontend/app/intake-form/page.js:65-128 | the normalised data is posted; only an OK, parsed response with a truthy `session_id` stores the data and result and navigates; every failure shows one alert and changes nothing else; loading ends false |
| IntakeForm.IntakeFormPage.Submit | frontend/app/intake-form/page.js:133-350 | an empty `primary_complaint` or `pain_movement` blocks the submission before any request and changes nothing; otherwise it behaves as `OnSubmit`: on acceptance the data, result and route are set with no alert, on failure only the failure alert is added |
| FinalAnalysisModels.EnumerationsAcceptExactlyTheirValues | backend/app/models/final_analysis.py:5-18 | each enumeration accepts exactly its listed strings, and parsing inverts the value of each member |
| FinalAnalysisModels.ValidateProbabilitiesSum | backend/app/models/final_analysis.py:46-51 | the list is accepted, unchanged, exactly when its probabilities sum to a value in [0.99, 1.01]; otherwise the error is "Probabilities must sum to 1" |
| FinalAnalysisModels.EmptyDifferentiationRejected | backend/app/models/final_analysis.py:47-50 | an empty differentiation list is rejected |
| FinalAnalysisModels.SumConcat | backend/app/models/final_analysis.py:48 | the sum of a concatenation is the sum of the parts |
| FinalAnalysisModels.SumIgnoresOrder | backend/app/models/final_analysis.py:46-51 | lists that are permutations of each other have the same sum and the same verdict |
| FinalAnalysisModels.SumOfBoundedProbabilities | backend/app/models/final_analysis.py:20-22 | with every probability in [0, 1] the sum lies in [0, n], so an accepted list is non-empty |
| FinalAnalysisModels.WellFormedHasDifferentiation | backend/app/models/final_analysis.py:36-51 | a result meeting every schema constraint has at least one differentiation probability |
| FinalAnalysisModels.ValidateFormData | backend/app/models/final_analysis.py:53-63 | a body validates exactly when every camelCase field is present with an allowed value; the error lists every failing field in declaration order; a validated form carries the body's values |
| FinalAnalysisModels.FormDataRoundTrip | backend/app/models/final_analysis.py:53-63 | encoding a form with camelCase keys and validating it gives the same form back |
| FinalAnalysisApi.DerivePositionPainFacts | backend/app/api/final_analysis.py:89-98 | flexion gives yes/no, extension gives no/yes, anything else gives no/no, and the two are never both yes |
| FinalAnalysisApi.FormatInputFacts | backend/app/api/final_analysis.py:79-98 | the prompt input holds exactly the seven form keys, each "" when absent, plus the two derived keys |
| FinalAnalysisApi.DerivedFromValidatedForm | backend/app/api/final_analysis.py:71-98 | for a validated form the prompt input carries the form's values and the derivation from its position-change answer |
| FinalAnalysisApi.StoreAnalysisResult | backend/app/api/final_analysis.py:29-46 | a successful write appends one record with the form, result, session id and source "user_generated"; a failed write leaves the log unchanged and raises nothing |
| FinalAnalysisApi.ErrorResponse | backend/app/api/final_analysis.py:125-143 | a validation error maps to 400 with an error/message/errors detail; every other exception maps to 500 with "Error analyzing final form: " and its text |
| FinalAnalysisApi.AnalyzeFinalFormFacts | backend/app/api/final_analysis.py:67-143 | an LLM success returns the result whether or not storing works, and stores at most one record; an LLM failure is re-caught and becomes a 500 wrapping the LLM message; no path reaches 400 |
| FinalAnalysisApi.LlmFailureDetail | backend/app/api/final_analysis.py:110-116 | the 500 detail for an LLM failure nests "500: Error in LLM service: " and the message |
| FinalAnalysisPage.ChangeFieldFacts | frontend/app/final-analysis/page.js:135-140 | on a form without repeated keys, `handleChange` sets exactly one field, keeps every other field and the key order, adds a new key at the end, and repeats no key |
| FinalAnalysisPage.ChangeFieldLookup | frontend/app/final-analysis/page.js:135-140 | after the update the field reads as the new value and every other field reads as before |
| FinalAnalysisPage.ChangeFieldKeys | frontend/app/final-analysis/page.js:135-140 | an existing key keeps its place in the key order; a new key is added last |
| FinalAnalysisPage.EmptyFieldsFacts | frontend/app/final-analysis/page.js:55 | the check lists exactly the keys with an empty value, and nothing when all are filled |
| FinalAnalysisPage.DefaultFormComplete | frontend/app/final-analysis/page.js:39-60 | the default form has no empty field, so the empty-field check lets it through |
| FinalAnalysisPage.DefaultFormDistinctKeys | frontend/app/final-analysis/page.js:39-47 | the default form repeats no key |
| FinalAnalysisPage.DefaultFormFromRadioOptions | frontend/app/final-analysis/page.js:39-47 | every default value is one the radio buttons offer |
| FinalAnalysisPage.ClientPayloadAlwaysRejected | frontend/app/final-analysis/page.js:81-89 | the snake_case body as written fails the backend's validation for every form, naming the five renamed fields |
| FinalAnalysisPage.CamelCasePayloadFields | backend/app/models/final_analysis.py:57-63 | the camelCase body carries each form answer under the schema's name |
| FinalAnalysisPage.ValidatesToAnswers | backend/app/models/final_analysis.py:53-63 | a body holding radio-button answers under the schema's names validates to exactly those answers |
| FinalAnalysisPage.CamelCasePayloadAccepted | frontend/app/final-analysis/page.js:81-89 | with camelCase keys every form the radio buttons can produce is accepted |
| FinalAnalysisPage.ShownFacts | frontend/app/final-analysis/page.js:100-127 | every error but a non-string detail has a displayed text; a thrown message and a string detail are shown as they are; the status line is "Server error (" then the status in decimal digits then "): " and the status text; the invalid-form and empty-response messages differ |
| FinalAnalysisPage.NonOkErrorPrecedence | frontend/app/final-analysis/page.js:100-119 | 422 and only 422 gives the invalid-form message; the empty-response message needs another status; a detail is shown only for a non-empty body that has one; otherwise the status line |
| FinalAnalysisPage.SubmissionFacts | frontend/app/final-analysis/page.js:49-133 | an empty field blocks the submission and names exactly the empty keys; a failed health check stops the POST and names the base URL; an unparseable body gives "Invalid response from server" whatever the status; success needs an OK, parsed response |
| FinalAnalysisPage.SnakeCaseSubmissionFails | frontend/app/final-analysis/page.js:76-106 | as written, a complete form sent to a healthy backend ends with the invalid-form message |
| FinalAnalysisPage.FinalAnalysisPageState.constructor | frontend/app/final-analysis/page.js:32-47 | the page starts with the default form, no error, not loading, and the base URL from the setting or "http://localhost:8000" |
| FinalAnalysisPage.FinalAnalysisPageState.HandleChange | frontend/app/final-analysis/page.js:135-140 | only the form changes, by `ChangeField` |
| FinalAnalysisPage.FinalAnalysisPageState.HandleSubmit | frontend/app/final-analysis/page.js:49-133 | error, result atom and route follow `Submission`; the request recorded is the snake_case body the page sends, and only when the health check passed; the atom is set and the page navigates only on success; loading ends false |
| TreatmentPlanPage.MissingAmongFacts | frontend/app/final-analysis-treatment-plan/page.js:48 | the filter keeps exactly the falsy fields and never more than it was given |
| TreatmentPlanPage.MissingFieldsFacts | frontend/app/final-analysis-treatment-plan/page.js:39-48 | the missing list holds exactly the falsy required fields, and is empty exactly when all six are truthy |
| TreatmentPlanPage.EmptyListIsNotMissing | frontend/app/final-analysis-treatment-plan/page.js:48 | a field holding an empty array is not missing, since an empty array is truthy |
| TreatmentPlanPage.BadgeFacts | frontend/app/final-analysis-treatment-plan/page.js:190-196 | for every diagnosis, the badge is destructive exactly when it is "serious" in any mix of letter cases (seven letters, each the lower- or upper-case letter of "serious"), and success otherwise |
| TreatmentPlanPage.BadgeIgnoresCase | frontend/app/final-analysis-treatment-plan/page.js:190-196 | "SERIOUS" gives the destructive badge |
| TreatmentPlanPage.BadgeNeedsWholeWord | frontend/app/final-analysis-treatment-plan/page.js:190-196 | "serious!" gives the success badge |
| TreatmentPlanPage.ViewFacts | frontend/app/final-analysis-treatment-plan/page.js:15-75 | a falsy result and only it gives the no-results view; the invalid view lists exactly the falsy required fields; the results view needs all six present and its badge follows the diagnosis |
| TreatmentPlanPage.BackendResultFields | frontend/app/final-analysis-treatment-plan/page.js:39-48 | a backend result has five of the six required fields truthy and lacks `treatment_recommendations` |
| TreatmentPlanPage.BackendResultNeverShown | frontend/app/final-analysis-treatment-plan/page.js:39-75 | every result the backend returns is shown as invalid, missing `treatment_recommendations` only |
| DatabaseUrl.ReplaceFirstFacts | backend/app/core/database.py:9 | replacing the first occurrence keeps what precedes it and everything after it, later occurrences included |
| DatabaseUrl.ReplaceFirstWithoutOccurrence | backend/app/core/database.py:9 | a string without the pattern is unchanged |
| DatabaseUrl.ResolveFacts | backend/app/core/database.py:7-11 | an unset or empty URL is refused with "DATABASE_URL not set"; a "postgres://" URL becomes "postgresql://" plus the same remainder; any other URL passes unchanged |
| DatabaseUrl.CurrentSchemeUnchanged | backend/app/core/database.py:8 | a URL already starting with "postgresql://" is left alone |
| DatabaseUrl.ResolveIdempotent | backend/app/core/database.py:8-9 | rewriting an accepted URL again changes nothing |
| Conversation.FormatShortTranscripts | backend/app/api/conversation.py:38-41 | an empty transcript formats to ""; one message formats to its "role: message" line with no newline |
| Conversation.FormatConcat | backend/app/api/conversation.py:38-41 | formatting a concatenation joins the two texts with exactly one newline |
| Conversation.FormatAppend | backend/app/api/conversation.py:38-41 | a later message appends a newline and its line, leaving the text before it as it was |
| Conversation.FormatLength | backend/app/api/conversation.py:38-41 | the text's length is the lines' lengths plus one per separator, none at the end |
| Conversation.ProcessConversationFacts | backend/app/api/conversation.py:32-59 | with an output parser passed, as the other endpoints do: the LLM gets the formatted transcript; the result is a success exactly when the LLM answers; every failure is a 500 whose detail starts with "Error processing conversation: " |
| Conversation.AsWrittenNeverSucceeds | backend/app/api/conversation.py:44-59 | as written, the call omits the required `output_parser` (backend/app/core/llm.py:18-23): every request is the 500 carrying the resulting `TypeError` text, whatever the transcript and the LLM |
| Conversation.AsWrittenLosesAnalysis | backend/app/api/conversation.py:44-59 | for an LLM that always answers, the corrected call returns its analysis while the call as written fails |
| DrRayChat.AppendMessageFacts | frontend/app/chat-with-dr-ray/components/Chat.js:12-26 | an append keeps every earlier message, adds one at the end with the given text and sender, and keeps ids equal to positions |
| DrRayChat.PositionIdsAreUnique | frontend/app/chat-with-dr-ray/components/Chat.js:14 | when ids are positions, two messages share an id only if they are the same message |
| DrRayChat.ChatWindow.constructor | frontend/app/chat-with-dr-ray/components/Chat.js:5-7 | the window starts with the initial messages and an empty input |
| DrRayChat.ChatWindow.SetInput | frontend/app/chat-with-dr-ray/components/Chat.js:69 | only the input changes |
| DrRayChat.ChatWindow.HandleSendMessage | frontend/app/chat-with-dr-ray/components/Chat.js:9-30 | blank input changes nothing; otherwise the text is appended as a user message with id length+1, a bot reply is owed, and the input is cleared; the log only grows |
| DrRayChat.ChatWindow.BotReply | frontend/app/chat-with-dr-ray/components/Chat.js:18-27 | an owed reply appends "This is a bot response." numbered after the log as it is then |
| StoryChat.TotalAfterUpdate | frontend/components/chat/Chat.js:59 | replacing one paragraph changes the story's question count by the difference of the two paragraphs' counts |
| StoryChat.NextFollowUpFacts | frontend/components/chat/Chat.js:39-61 | nothing happens without a story, out of range, or with no follow-ups left; otherwise the first question is asked, exactly it is removed, no other paragraph changes, and the story holds one question fewer |
| StoryChat.StoryWithoutFollowUpsAsksNothing | frontend/components/chat/Chat.js:42-44 | a story whose paragraphs have no follow-up list never yields a follow-up |
| StoryChat.StoryChatState.constructor | frontend/components/chat/Chat.js:12-17 | the chat starts with the initial messages, empty input, index 0, not loading, not complete |
| StoryChat.StoryChatState.SetInput | frontend/components/chat/Chat.js:145 | only the input changes |
| StoryChat.StoryChatState.SendFollowUpQuestion | frontend/components/chat/Chat.js:39-61 | the message log and the story change exactly as `NextFollowUp` says for the index given; nothing else changes |
| StoryChat.StoryChatState.OnPatientStoryLoaded | frontend/components/chat/Chat.js:30-35 | with exactly one message and a loaded story, the first follow-up for the current index is asked |
| StoryChat.StoryChatState.SendMessage | frontend/components/chat/Chat.js:67-120 | blank input changes nothing; otherwise the user message is appended with id length+1 and the input cleared; a reply appends the bot message; a complete reply sets the flag and the plan and keeps the index; any other reply advances the index by one and asks the follow-up for the old index; loading ends false |
| StoryChat.CompletionDisablesInput | frontend/components/chat/Chat.js:148 | once complete, the chat stays complete and the input stays disabled |
| FeedbackRoute.NewEntryFixedMembers | frontend/app/api/feedback/route.js:19-26 | the entry has session id "session_id", an empty form, source "user_generated" and the timestamp |
| FeedbackRoute.NewEntryFacts | frontend/app/api/feedback/route.js:19-26 | the entry carries the feedback and the analysis result exactly when the body has them, and no members beyond the six listed |
| FeedbackRoute.FeedbackStore.constructor | frontend/app/api/feedback/route.js:16 | the store holds the given file state |
| FeedbackRoute.FeedbackStore.Post | frontend/app/api/feedback/route.js:5-50 | on success the file holds the earlier entries in order plus the new one at the end (a missing file counts as empty), answering `{success: true}`; any failure leaves the file as it was and answers 500 |
| CompileData.FailureOfPrefix | scripts/compile_data.py:20-22 | a line that fails to parse fails the whole load |
| CompileData.LoadLinesFacts | scripts/compile_data.py:15-23 | a load gives one record per non-blank line, each the parse of that line, in file order |
| CompileData.LoadLinesConcat | scripts/compile_data.py:15-23 | loading two line lists in a row gives the first's records then the second's |
| CompileData.LoadJsonl | scripts/compile_data.py:15-23 | the loop returns the records of `LoadSpec`: none for a missing file, blank lines skipped |
| CompileData.WriteJsonl | scripts/compile_data.py:33-35 | the loop writes each record's dump followed by a newline, in order |
| CompileData.OneLinePerRecord | scripts/compile_data.py:33-35 | the output has exactly one newline per record |
| CompileData.OutputReadsBack | scripts/compile_data.py:15-35 | loading the output back gives the merged records, when the parser inverts the dump |
| CompileData.CompileTrainingData | scripts/compile_data.py:25-37 | the output is the guideline records then the user responses, and the reported count is the sum of both |

## Left out

- The LLM calls, the prompts, the output parser and the ElevenLabs voice services are external. An LLM outcome enters as a parameter (`FinalAnalysisApi.LlmOutcome`, `Conversation.LlmOutcome`).
- File and network I/O become parameters: `fetch` results, file contents as lines or JSON values, the outcome of a write, and the `DATABASE_URL` and `NEXT_PUBLIC_API_URL` settings. `json.loads`, `json.dumps` and `JSON.parse` are abstract, except where the parsed value is itself the model's input.
- Clocks and identifiers are parameters: timestamps, and session ids from Python `hash()`, which is randomised per process.
- Timers, React's batching of state updates, and the feedback file's read-modify-write race are left out. `DrRayChat.ChatWindow.BotReply` stands for the one-second timer firing.
- `Text.AsciiLower` lower-cases ASCII letters only. JavaScript's `toLowerCase` also maps non-ASCII letters, and that is not modelled.
- Probabilities are `real`. IEEE rounding of the sum in the validator and the `Math.round` percentages on the result page are not modelled.
- pydantic's coercion of numbers to strings and its exact error texts are not modelled. `FinalAnalysisModels.ValidateFormData` reports the failing field names, not the messages.
- Chatbot.ChatbotService.StartSession: the question list is a parameter. The source reads `patient_story.all_questions`, which `PatientStoryResponse` does not have, and the `FollowUpQuestion` type of `ChatbotResponse` is not defined in the model file.
- Chatbot.ChatbotService.HandleResponse: the response has no `session_id`. `ChatbotResponse` declares none, and pydantic ignores the extra argument.
- Conversation.ProcessConversation: the `metadata` passed to the LLM is not modelled; the LLM outcome depends on the formatted transcript only.
- Conversation.ProcessConversationAsWritten: the `TypeError` text is the one Python 3.10 and later give (the method's qualified name); older versions name the method without its class.
- FinalAnalysisPage.Shown: a `detail` that is not a string is converted by `new Error(detail)` through JavaScript's `String`. That conversion is not modelled, so no displayed text is given for it.
- FinalAnalysisApi.LlmFailureDetail: the text of a re-caught `HTTPException` is taken to be "status: detail". This is Starlette's string form, which is not part of this model.
- IntakeForm.IntakeFormPage.OnSubmit: the texts of the thrown errors are not modelled, because the page shows one fixed alert for all of them. `JSON.stringify` of the posted body is also not modelled.
- frontend/components/chat/Chat.js would not render: a stray `Copy;` at line 38 throws, and `handleKeyDown` is read at line 146 before its declaration at line 156. The model covers the handlers as intended. The Enter-key handler only calls `SendMessage`.
- StoryChat.StoryChatState.SendMessage: the bot message is the reply's `message` property, with `JNull` standing for `undefined`. A reply of `null` is treated as a thrown error, because reading a property of `null` throws.
- TreatmentPlanPage.ViewFor: beyond the null guard and the filter, a render failure is modelled only for the checks the page performs: a non-string diagnosis, a list that is not an array, or a `null` list item. The feedback form on that page is not modelled; its endpoint is `FeedbackRoute`.
- FeedbackRoute.FeedbackStore.Post: creating the feedback directory is not modelled.
- Rendering-only components, the fetch-only pages, the Redis and logging wrappers, the SQLAlchemy engine and tables, and the routing in `main.py` have no behaviour to verify.

## Findings

| source | as written | input that shows it | evidently intended | confidence | as-written member | corrected member |
|---|---|---|---|---|---|---|
| frontend/app/final-analysis/page.js:81-89 | the questionnaire posts snake_case keys (`position_change_pain`, …), but the backend schema requires camelCase (`positionChangePain`, …) | the default form: its body lacks positionChangePain, activityLevel, legPain, painTime and bowelBladder, so the backend answers 422 and the page shows the invalid-form message | post the schema's camelCase keys, which every form the radio buttons can produce then passes | high, not executed | FinalAnalysisPage.ClientPayloadAlwaysRejected | FinalAnalysisPage.CamelCasePayloadAccepted |
| backend/app/api/conversation.py:44-50 | `process_conversation` calls `llm_service.generate_response` without the `output_parser` argument that backend/app/core/llm.py:18-23 requires, so the call raises `TypeError` and the `except` turns it into a 500 | any request, e.g. an empty transcript: the answer is 500 "Error processing conversation: LLMService.generate_response() missing 1 required positional argument: 'output_parser'" | pass an output parser, as backend/app/api/final_analysis.py:104-108 and backend/app/api/intake_analysis.py:20-24 do, so that the LLM's analysis is returned | high, not executed | Conversation.AsWrittenNeverSucceeds | Conversation.ProcessConversationFacts |

Other mismatches between the parts, kept visible in the model:

- `TreatmentPlanPage.BackendResultNeverShown`: the result page requires `treatment_recommendations`. The backend's `AnalysisResult` has no such field, so every backend result is shown as invalid.
- `StoryChat.StoryWithoutFollowUpsAsksNothing`: the backend's story paragraphs carry no `follow_up_questions`, so the follow-up chat never asks a follow-up for such a story.
- `StoryChat.StoryChatState.SendMessage`: after a reply that is not complete, the follow-up is asked for the index the handler saw. That is the old index, not the incremented one.
- `Chatbot.EmptyQuestionReadsAsCompletion`: a question that is an empty dict reads as the end of the assessment.
