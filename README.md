# NexaLearn core, modelled in Dafny

NexaLearn is a study assistant. A React client asks an Express server to
explain a topic. The server forwards a prompt to a hosted chat-completion
provider (OpenRouter) and relays the answer. A Supabase-backed auth context
keeps the signed-in user and a per-user record of learned topics. This
project models the decision logic of five parts of that system:

- **The routed explain handler** (`AIController.explain`), module `AiController`:
  - topic resolution (`customTopic || selectedTopic`);
  - validation order: topic first, then the provider key, then the provider call;
  - the prompt with its defaults ("General", "English");
  - how the provider's outcome is classified into a status and a JSON body.
- **The unrouted explain handler** (`explainTopic`), module `ChatBotController`:
  - three-field validation;
  - a `trim()`med prompt template;
  - `explanation` instead of `reply` in the success body;
  - the "OpenRouter failed" fallback.
- **The auth context**, module `AuthContext`:
  - the progress record, a map semester → subject → unit → topics, and its update `markTopicAsLearned`;
  - the provider's state: user, `authLoading` and the cached "user" entry of local storage;
  - the session restore, the auth-state listener and `signOut`.
  The progress object is a heap object, so the sharing that the spread `{...DEFAULT_USER}` creates can be seen.
- **The application shell**, module `App`:
  - the `ProtectedRoute` and `PublicRoute` guards;
  - the routing table with its catch-all redirect, matching paths as the router does (any letter case, trailing slashes);
  - following redirects until the screen settles;
  - where the guards get readiness from.
- **The learning page**, module `LearningPage`:
  - its form state as a class;
  - the request step (`handleGetExplanation`) split at the `fetch`;
  - the custom-topic input rule;
  - the text export;
  - lemmas that connect the page to both handlers.

Two shared modules support these:

- `JsValues` covers JavaScript truthiness on optional strings, `||`, `String.prototype.trim` (the ECMAScript whitespace set), the lines of multi-line template literals and `includes`.
- `Http` covers the provider outcome, the provider call, and the response body.

Foreign calls are not modelled. Their results become parameters:

- Supabase returns a session user or none, a profile row or none, and a thrown sign-out or not.
- The provider call yields a response with a status, text and content, or it throws an error with or without a message.
- The environment's `OPENROUTER_API_KEY` is an optional string.
- Local storage is an optional stored user.

## Model

| member | source | states |
|---|---|---|
| JsValues.Or | server/src/controller/ss.js:6 | JavaScript `or` on two values is truthy iff either operand is; it is `a` when `a` is truthy, else `b` |
| JsValues.OrDefault | server/src/controller/ss.js:45-47 | a value or-ed with a non-empty literal is `f`'s text when that is non-empty, else the fallback; it is never empty |
| JsValues.TrimStart | server/src/controller/ChatBot.controller.js:31 | the result is a suffix of the input; everything dropped is whitespace; the result does not start with whitespace |
| JsValues.TrimEnd | server/src/controller/ChatBot.controller.js:31 | the result is a prefix of the input; everything dropped is whitespace; the result does not end with whitespace |
| JsValues.TrimPadded | server/src/controller/ChatBot.controller.js:22-31 | `trim()` of whitespace + text + whitespace is the text, when the text neither starts nor ends with whitespace |
| JsValues.SplitJoin | server/src/controller/ss.js:44-52 | splitting lines joined with "\n" gives the lines back when none holds a newline |
| JsValues.JoinIncludesLine | server/src/controller/ss.js:44-52 | every line occurs in the joined text |
| AiController.ResolveTopic | server/src/controller/ss.js:6 | the topic is truthy iff the custom or the selected topic is; the custom topic wins |
| AiController.UserPrompt | server/src/controller/ss.js:44-52 | the prompt contains "Subject: s", "Topic: t" and "Language: l"; when no value holds a newline, its lines are exactly the template's lines |
| AiController.Call | server/src/controller/ss.js:24-58 | the provider request goes to the completions URL with the bearer key, the referer, the "NexaLearn AI Assistant" title, the model and the system prompt, and no sampling options; its user message names the defaulted subject, the topic and the defaulted language |
| AiController.Relay | server/src/controller/ss.js:61-93 | success iff an OK response has non-empty content, and the success body is then exactly `{ success: true, reply }` with the content verbatim and status 200; a non-OK status and its text pass through; an OK response without content is 200 with "No explanation generated" and the raw data; a throw is 500 with the error's message |
| AiController.Explain | server/src/controller/ss.js:6-21 | an empty topic gives 400 "Topic is required" and no provider call; with a topic, a missing key gives 500 and no call; the provider is called iff both checks pass, and the answer is then the relayed outcome; the call is exactly `AiController.Call` of the body, the resolved topic and the key, so it carries the URL, the bearer key and a prompt with the defaulted subject, the topic and the defaulted language |
| AiController.PhotosynthesisExample | server/src/controller/ss.js:44-85 | Biology/Photosynthesis/English with an answering provider makes one call, whose prompt lines carry the three values; the answer is 200 with the provider's text as `reply` |
| ChatBotController.TrimmedTemplate | server/src/controller/ChatBot.controller.js:22-31 | trimming the template removes exactly its opening newline and closing indentation, whatever the three values are |
| ChatBotController.Prompt | server/src/controller/ChatBot.controller.js:22-31 | the prompt contains "Subject: s", "Topic: t" and "Explain this topic in l."; when no value holds a newline, its lines are the template's inner lines |
| ChatBotController.Call | server/src/controller/ChatBot.controller.js:33-59 | the provider request goes to the completions URL with the bearer key, the referer, the "Learning Assistant" title, the model and the system prompt, at most 400 tokens and temperature 0.7; its user message is the trimmed prompt naming the subject, the topic and the language |
| ChatBotController.Relay | server/src/controller/ChatBot.controller.js:61-94 | as the routed handler, except that the success body is exactly `{ success: true, explanation }` and never carries `reply`, and a thrown error without a message reports "OpenRouter failed" |
| ChatBotController.ExplainTopic | server/src/controller/ChatBot.controller.js:3-19 | a missing subject, topic or language gives 400 and no call; then a missing key gives 500 and no call; the provider is called iff both checks pass, and the call is exactly `ChatBotController.Call` of the three members and the key: the trimmed prompt, max_tokens 400 and temperature 0.7 |
| AuthContext.Marked | nexa-learn/src/context/AuthContext.jsx:148-155 | afterwards the unit exists and lists the topic; the topic is appended at the end only if absent, and the order is kept; only the missing keys were added at each level; every other semester, subject and unit is unchanged |
| AuthContext.MarkedIdempotent | nexa-learn/src/context/AuthContext.jsx:153-155 | marking the same topic twice equals marking it once |
| AuthContext.MarkedKeepsUnitDuplicateFree | nexa-learn/src/context/AuthContext.jsx:153-154 | a unit list without duplicates stays without duplicates |
| AuthContext.MarkedKeepsDuplicateFree | nexa-learn/src/context/AuthContext.jsx:148-155 | a record whose units have no duplicate topics keeps that property |
| AuthContext.MarkedLeavesOtherUnits | nexa-learn/src/context/AuthContext.jsx:148-151 | every unit but the marked one lists the same topics as before |
| AuthContext.OAuthFullName | nexa-learn/src/context/AuthContext.jsx:62-65 | the OAuth name is `full_name` if non-empty, else `name` if non-empty, else null |
| AuthContext.AuthProvider.constructor | nexa-learn/src/context/AuthContext.jsx:13-17 | the provider starts with no user and loading; it holds the module's one default progress object, as earlier providers left it |
| AuthContext.AuthProvider.Init | nexa-learn/src/context/AuthContext.jsx:23-44 | loading ends whether a session was found, none was, or the lookup threw; a session user becomes the user with its id, its email and the cached progress, and is cached; otherwise the user and the cache are unchanged |
| AuthContext.AuthProvider.OnAuthStateChange | nexa-learn/src/context/AuthContext.jsx:50-92 | no session user clears the user and the cache and upserts nothing; a session user sets id, email and the cached progress, takes the name and student id from the profile row when one came back, upserts (id, OAuth name), and is cached; loading ends |
| AuthContext.AuthProvider.SignOut | nexa-learn/src/context/AuthContext.jsx:137-141 | once the SDK call returns, the user and the cache are cleared; if it throws, nothing changes |
| AuthContext.AuthProvider.MarkTopicAsLearned | nexa-learn/src/context/AuthContext.jsx:144-162 | the current user, or a copy of the default user sharing its progress object, becomes the user; that progress object is updated in place to the marked record; the cache mirrors the user |
| AuthContext.AuthProvider.MarkTopicAsLearnedFromFreshDefault | nexa-learn/src/context/AuthContext.jsx:147 | corrected update: without a user, the record starts from a fresh empty progress object, and the default one stays unchanged |
| AuthContext.DefaultProgressLeaks | nexa-learn/src/context/AuthContext.jsx:146-147 | as written, mark "Sets" with nobody signed in, sign out, then mark "Relations": the unit lists both topics |
| AuthContext.DefaultProgressLeaksAcrossMounts | nexa-learn/src/context/AuthContext.jsx:13-147 | as written, after the first provider signs out and so empties local storage, a provider mounted later on that storage starts its signed-out record from the topics an earlier provider marked |
| AuthContext.FreshDefaultDoesNotLeak | nexa-learn/src/context/AuthContext.jsx:146-147 | with the corrected update, the same sequence lists only "Relations" |
| App.ProtectedRoute | nexa-learn/src/App.jsx:15-23 | nothing iff not ready; the children iff ready and signed in; otherwise a redirect to /login |
| App.PublicRoute | nexa-learn/src/App.jsx:25-33 | nothing iff not ready; the children iff ready and signed out; otherwise a redirect to / |
| App.GuardsExclusive | nexa-learn/src/App.jsx:15-33 | the two guards never both show their children, and once ready exactly one does |
| App.Route | nexa-learn/src/App.jsx:40-108 | before readiness exactly the listed paths render nothing; redirects go only to / or /login; a screen is shown only once ready, with the navigation bar exactly when signed in |
| App.PatternsExclusive | nexa-learn/src/App.jsx:41-105 | no path matches two of the six patterns, so the order of the routes does not matter |
| App.CaseAndTrailingSlashes | nexa-learn/src/App.jsx:71-81 | paths match whatever their case and with trailing slashes: a signed-in user at "/Learning/" gets the learning page, and a visitor at "/LOGIN//" gets the login form |
| App.UnmatchedRedirectsHome | nexa-learn/src/App.jsx:107 | any path that matches none of the six patterns redirects to / |
| App.Settle | nexa-learn/src/App.jsx:20-30 | following the `<Navigate replace>` redirects only ever leads to / or /login, and a screen has the navigation bar exactly when signed in |
| App.EveryPathSettles | nexa-learn/src/App.jsx:41-107 | within two redirects every path settles: on nothing before readiness; on a screen with navigation when signed in; on the login or sign-up form when signed out |
| App.AsWrittenEveryPathBlank | nexa-learn/src/App.jsx:16-18 | as written, readiness is read from a member the context does not provide, so every path settles on nothing |
| App.ReadyViews | nexa-learn/src/App.jsx:16-20 | with readiness taken as `!authLoading`, once loading is over: a signed-in user sees the page a /learning, /flashcards or /progress path names and the home page from every other path; a visitor sees the sign-up form on a /signup path and the login form from every other path |
| LearningPage.ResolveTopic | nexa-learn/src/pages/LearningPage.jsx:39 | the topic is empty iff both fields are; the custom topic wins |
| LearningPage.RequestBody | nexa-learn/src/pages/LearningPage.jsx:57-62 | the body holds exactly the four form fields; the routed handler resolves from it the topic the page resolved and reads the page's subject and language; it is never complete for the unrouted handler |
| LearningPage.ExplanationAfter | nexa-learn/src/pages/LearningPage.jsx:66-75 | an OK reply shows `reply`, or "No explanation generated" without one; a non-OK reply or an exception shows the fixed failure text; never empty |
| LearningPage.FileNameRoundTrip | nexa-learn/src/pages/LearningPage.jsx:99 | the file name gives back the subject and the topic when the subject has no underscore |
| LearningPage.Export | nexa-learn/src/pages/LearningPage.jsx:82-103 | no file iff the explanation is empty; otherwise the name is `<subject>_<topic>.txt`, the content is exactly the header lines naming subject, topic and language and ending in "Explanation:", then the explanation verbatim, then the closing indentation; when the three values hold no newline, splitting the content gives the header lines first |
| LearningPage.Page.constructor | nexa-learn/src/pages/LearningPage.jsx:27-32 | the initial state: subject "General", no topic, "English", no explanation, not loading |
| LearningPage.Page.EditCustomTopic | nexa-learn/src/pages/LearningPage.jsx:138-141 | sets the custom topic and clears the selected one, so the resolved topic is exactly the typed text; nothing else changes |
| LearningPage.Page.PickTopic | nexa-learn/src/pages/LearningPage.jsx:131 | sets only the selected topic; the resolved topic does not change while a custom topic is typed |
| LearningPage.Page.SetLanguage | nexa-learn/src/pages/LearningPage.jsx:148 | sets only the language |
| LearningPage.Page.StartExplanation | nexa-learn/src/pages/LearningPage.jsx:38-64 | without a topic it alerts, sends nothing and changes nothing; otherwise loading starts, the explanation is cleared, and the four form fields are sent |
| LearningPage.Page.FinishExplanation | nexa-learn/src/pages/LearningPage.jsx:66-78 | the explanation is set from the reply, and loading ends whatever the reply was |
| LearningPage.Page.ExportToFile | nexa-learn/src/pages/LearningPage.jsx:82-103 | the export of the current state; its file name gives back "General" and the resolved topic |
| LearningPage.SentRequestPassesTopicCheck | nexa-learn/src/pages/LearningPage.jsx:39-62 | the routed handler resolves the same topic from the sent body, so the request never meets its 400 branch; the provider is called iff the key is set |
| LearningPage.RoutedExplanationShown | nexa-learn/src/pages/LearningPage.jsx:66-75 | end to end through the routed handler: the page shows the provider's content verbatim, "No explanation generated", or the failure text, by the provider's outcome and the key |
| LearningPage.UnroutedControllerNeverExplains | nexa-learn/src/pages/LearningPage.jsx:57-72 | the unrouted handler rejects the page's body with 400; even its success shows "No explanation generated", because it answers with `explanation` and the page reads `reply` |

## Left out

- Supabase is not modelled: the session lookup, the auth-state subscription and its unsubscription, the `profiles` upsert and select, `signUp` and `signInWithPassword`. Their results are parameters. `signUp` and `signIn` only wrap SDK calls into `{ success, error }` and are not modelled.
- `fetch` (to the provider and to the backend), `response.text()`/`json()` and the JSON encoding are not modelled. The provider's outcome and the page's reply are parameters. The content is a string or absent, not any JSON value.
- Local storage and `JSON.parse`/`stringify` are replaced by an optional stored user. A malformed stored entry, which makes `JSON.parse` throw, is not modelled.
- The `mounted` flag and any interleaving of the restore with listener events are not modelled. Each event runs to completion on its own.
- Request bodies are string-valued maps. Non-string JSON values, a missing `req.body` and prototype keys are not modelled.
- `console` logging, the `alert` display, the Blob/URL download mechanics, text-to-speech, the typed-markdown display, the rendering and styling, and the button that is disabled while loading are not modelled.
- Route matching covers what the six patterns need: letters in any case and any number of trailing slashes. Percent-decoding of the path, a router basename and routes with parameters are not modelled.
- The server's entry point and route wiring are not part of this model. The handler at POST /api/v2/chatbot/explain is taken to be `AIController.explain`. The navigation bar, the login form and the other pages are not part of this model.
- LearningPage.Page.FinishExplanation: the message built for the thrown error on a non-OK reply is dropped by the page and is not modelled.
- AuthContext.AuthProvider.MarkTopicAsLearned: without a user, the real copy has only a `progress` member and no `id`, `email` or name members. The model gives it absent values.

## Findings

| source | as written | input that shows it | evidently intended | confidence | as-written member | corrected member |
|---|---|---|---|---|---|---|
| nexa-learn/src/App.jsx:16 | both guards read `authReady` from the context, which provides `authLoading` and no `authReady`, so `!authReady` always holds | any path, signed in or not, after loading ended | readiness is `!authLoading`, so the guards redirect or render | not executed | App.AsWrittenEveryPathBlank | App.ReadyViews |
| nexa-learn/src/context/AuthContext.jsx:147 | without a user, `{ ...DEFAULT_USER }` copies only the top level, so the update writes into the one shared `DEFAULT_USER.progress` object, and progress marked while signed out survives a sign-out | mark "Sets" signed out, sign out, mark "Relations": the unit lists ["Sets", "Relations"] | each signed-out record starts from an empty progress object | not executed | AuthContext.DefaultProgressLeaks | AuthContext.FreshDefaultDoesNotLeak |
