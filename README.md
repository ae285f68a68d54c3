# Prompt enhancer, enhance-prompt route and chat box: a Dafny model

This project models the core of a web application. The user types a rough
request. A panel rewrites it mechanically into a fuller prompt, using an
optional persona and three sliders (tone, detail level, language complexity).
The result goes to a hosted chat model, under a per-user prompt quota, and
each prompt is kept in a history table. Three parts are modelled:

- **The prompt-enhancer panel** (`prompt_enhancer.dfy`, module `PromptEnhancer`), in two layers:
  - The engine: the role table, the strict `< 33` / `> 66` slider buckets, the sentence each bucket adds, and `Enhance`, which builds the enhanced prompt.
  - The panel state: the class `Enhancer`. Its fields are updated by setters, and every change re-runs the step-by-step rebuild (`Recompute`), as the component's effect does.
- **The `POST /api/enhance-prompt` handler** (`enhance_route.dfy`, module `EnhanceRoute`):
  - its chain of early returns with their statuses;
  - its own variant of the enhancement, where each clause is guarded by JavaScript truthiness and the role is written in as its raw key;
  - the history row it writes.
- **The chat box** (`chat_interface.dfy`, module `ChatInterface`). It is the class `Chat`, holding:
  - the message log, the typed input and the applied enhanced text;
  - the usage counters;
  - the send handler, with its no-op case, its quota branch, the request it sends, the daily-counter rule and the history row;
  - the routing of text-box edits between the input and the enhanced text.

Two shared modules support these:

- `Js` (`js.dfy`) models the runtime behaviour the code relies on:
  - absent values and truthiness (`x || d`, `if (x)`);
  - `String.prototype.trim` with the ECMAScript whitespace set;
  - `substring(0, n)` and `split(sep)[0]`.
- `SavedPrompts` (`saved_prompts.dfy`) holds the history title rule, which both the route and the chat box use: the first 50 characters, plus `"..."` when the prompt is longer.

The backend and network calls are modelled as parameters. These cover the authentication lookup, the usage rows, the model reply, the clock's day and whether the route's update fails. Their effects become results: the request sent, the usage update written and the history row written.

## Model

| member | source | states |
|---|---|---|
| Js.Trim | src/components/chat-interface.tsx:51-53 | `trim` cuts one contiguous piece out of the string. Only whitespace lies before and after it. It starts and ends with a non-whitespace character. It is empty exactly when the string is blank. |
| Js.TrimIdempotent | src/components/chat-interface.tsx:53 | Trimming an already trimmed text changes nothing. |
| Js.Prefix | src/app/api/enhance-prompt/route.ts:106 | `substring(0, n)` is a prefix of length `min(n, length)`. |
| Js.BeforeFirst | src/components/chat-interface.tsx:98-100 | `split(sep)[0]` is a prefix without `sep`. It is followed by `sep` whenever it stops short. |
| Js.BeforeFirstAbsent | src/components/chat-interface.tsx:98-100 | A string without the separator is its own first piece. |
| SavedPrompts.Title | src/app/api/enhance-prompt/route.ts:106 | A prompt of at most 50 characters is its own title. A longer one gives its first 50 characters followed by exactly `"..."`. The title is longer than 50 exactly when the prompt is. |
| SavedPrompts.TitleIdempotent | src/components/chat-interface.tsx:122-124 | Taking the title of a title changes nothing. |
| PromptEnhancer.BucketOf | src/components/prompt-enhancer.tsx:48-54 | Low exactly below 33, High exactly above 66, Middle for 33..66 inclusive. |
| PromptEnhancer.ToneSentence | src/components/prompt-enhancer.tsx:48-54 | The tone sentence of each bucket. Its properties are carried by `CaptionsAgreeWithClauses` and `EnhanceDeterminesBuckets`. |
| PromptEnhancer.DetailSentence | src/components/prompt-enhancer.tsx:57-63 | The detail sentence of each bucket. Its properties are carried by `CaptionsAgreeWithClauses` and `EnhanceDeterminesBuckets`. |
| PromptEnhancer.ComplexitySentence | src/components/prompt-enhancer.tsx:66-72 | The complexity sentence of each bucket. Its properties are carried by `CaptionsAgreeWithClauses`, `EnhanceDeterminesBuckets` and `EnhancedTextNotBlank`. |
| PromptEnhancer.RolePrefix | src/components/prompt-enhancer.tsx:43-45 | The persona clause, `"As a " + label + ", "` from the role table (the `RoleOptions` constant, lines 77-85), and nothing for `default`. It is carried by `EnhanceDefaultRole` and `EnhanceWithRole`. |
| PromptEnhancer.Enhance | src/components/prompt-enhancer.tsx:37-75 | The engine's output for an original text and settings. Its properties are carried by the layout, injectivity and read-back lemmas below, and by `Enhancer.Recompute`. |
| PromptEnhancer.EnhanceLayout | src/components/prompt-enhancer.tsx:40-74 | The output holds each piece at the running sum of the lengths before it, for every original text: the role prefix, the original text, `"\n\n"`, the tone sentence, a space, the detail sentence, a space and the complexity sentence. |
| PromptEnhancer.EnhanceIsPrefixOriginalClauses | src/components/prompt-enhancer.tsx:40-72 | The output is the role prefix, then the original text, then the three slider clauses. |
| PromptEnhancer.EnhanceDefaultRole | src/components/prompt-enhancer.tsx:43-45 | With the `default` role no persona is added, and the output opens with the original text verbatim. |
| PromptEnhancer.EnhanceWithRole | src/components/prompt-enhancer.tsx:43-45 | With any other role the output opens with `"As a " + label + ", "`, where the label comes from the role table. |
| PromptEnhancer.ExtractOriginalOfEnhance | src/components/prompt-enhancer.tsx:40-72 | The original text can be cut back out of the output. |
| PromptEnhancer.EnhanceInjective | src/components/prompt-enhancer.tsx:40-72 | Under fixed settings, different original texts give different outputs. |
| PromptEnhancer.EnhanceDeterminesBuckets | src/components/prompt-enhancer.tsx:47-72 | For a given role and original text, the output fixes each slider's bucket. |
| PromptEnhancer.EnhanceDependsOnlyOnBuckets | src/components/prompt-enhancer.tsx:47-72 | Settings that agree on the role and on the three buckets give the same output. |
| PromptEnhancer.DefaultsClauses | src/components/prompt-enhancer.tsx:26-30 | The initial settings (`default`, 50, 50, 50) give the original text, then the balanced, moderate-detail and mixed-language sentences. |
| PromptEnhancer.CaptionsAgreeWithClauses | src/components/prompt-enhancer.tsx:112-156 | Each slider caption names the sentence its slider contributes. For example "Direct" appears exactly when the concise sentence is emitted. This holds both ways, for all nine captions. |
| PromptEnhancer.ToneCaption | src/components/prompt-enhancer.tsx:112 | The tone slider's caption. It is carried by `CaptionsAgreeWithClauses`. |
| PromptEnhancer.DetailCaption | src/components/prompt-enhancer.tsx:130-134 | The detail slider's caption. It is carried by `CaptionsAgreeWithClauses`. |
| PromptEnhancer.ComplexityCaption | src/components/prompt-enhancer.tsx:152-156 | The complexity slider's caption. It is carried by `CaptionsAgreeWithClauses`. |
| PromptEnhancer.Enhancer.constructor | src/components/prompt-enhancer.tsx:26-35 | Mounting sets the default controls. The first recompute then shows the defaults' enhanced prompt. |
| PromptEnhancer.Enhancer.Recompute | src/components/prompt-enhancer.tsx:37-75 | The four guarded reassignments of the working prompt leave the shown prompt equal to `Enhance` of the current prompt and controls. The controls are unchanged. |
| PromptEnhancer.Enhancer.SetOriginalPrompt | src/components/prompt-enhancer.tsx:32-35 | A new original prompt is recomputed. The controls are kept, and the panel stays consistent. |
| PromptEnhancer.Enhancer.SetRole | src/components/prompt-enhancer.tsx:94 | Picking a role from the table changes only the role, then recomputes. |
| PromptEnhancer.Enhancer.SetTone | src/components/prompt-enhancer.tsx:121 | Moving the tone slider changes only the tone, then recomputes. |
| PromptEnhancer.Enhancer.SetDetailLevel | src/components/prompt-enhancer.tsx:143 | Moving the detail slider changes only the detail level, then recomputes. |
| PromptEnhancer.Enhancer.SetComplexity | src/components/prompt-enhancer.tsx:165 | Moving the complexity slider changes only the complexity, then recomputes. |
| PromptEnhancer.Enhancer.Apply | src/components/prompt-enhancer.tsx:180 | Apply hands over the shown prompt. That prompt is `Enhance` of the current prompt and controls. |
| EnhanceRoute.Rejection | src/app/api/enhance-prompt/route.ts:11-43 | The early returns, in order: 401 without a user, 500 for an unreadable body, 400 for a falsy prompt, 500 when the usage query fails, 403 when the total is at or above the limit, with a `null` column compared as 0. No early return happens exactly for an admitted request. |
| EnhanceRoute.NullLimitRefused | src/app/api/enhance-prompt/route.ts:38-43 | A row whose `prompts_limit` is `null` is refused with 403 for any non-negative or `null` total (the chat box shows a limit of 5 for such a row). |
| EnhanceRoute.EnhanceRequest | src/app/api/enhance-prompt/route.ts:47-81 | The guarded reassignments produce the route's enhancement. |
| EnhanceRoute.WithRole | src/app/api/enhance-prompt/route.ts:49-51 | The role step: `"As a " + role + ", "` in front for a truthy role other than `"default"`. It is carried by `RoutePersonaUsesKey` and `RouteUnchangedIff`. |
| EnhanceRoute.WithTone | src/app/api/enhance-prompt/route.ts:53-61 | The tone step, skipped for a missing or zero tone. It is carried by `RouteMatchesEngine` and `RouteUnchangedIff`. |
| EnhanceRoute.WithDetail | src/app/api/enhance-prompt/route.ts:63-71 | The detail step, skipped for a missing or zero detail level. It is carried by `RouteMatchesEngine` and `RouteUnchangedIff`. |
| EnhanceRoute.WithComplexity | src/app/api/enhance-prompt/route.ts:73-81 | The complexity step, skipped for a missing or zero complexity. It is carried by `RouteMatchesEngine` and `RouteUnchangedIff`. |
| EnhanceRoute.RouteEnhance | src/app/api/enhance-prompt/route.ts:47-81 | The four steps in turn. It is carried by `RouteMatchesEngine`, `RoutePersonaUsesKey`, `RouteUnchangedIff` and `RouteInjective`. |
| EnhanceRoute.RouteMatchesEngine | src/app/api/enhance-prompt/route.ts:47-81 | Take a missing, empty or `"default"` role and three non-zero sliders. The route then writes exactly what the panel's engine writes for the same numbers. |
| EnhanceRoute.KeyDiffersFromLabel | src/components/prompt-enhancer.tsx:77-85 | Every persona key differs from its label in its first character. |
| EnhanceRoute.RoutePersonaUsesKey | src/app/api/enhance-prompt/route.ts:49-51 | With a persona role the route writes the raw key. So for that role its output never equals the panel's, whatever the sliders. |
| EnhanceRoute.RouteUnchangedIff | src/app/api/enhance-prompt/route.ts:49-81 | The prompt comes back unchanged exactly when no clause fires: no persona role, and every slider missing or zero. |
| EnhanceRoute.RouteInjective | src/app/api/enhance-prompt/route.ts:47-81 | Under fixed settings, different prompts give different enhanced prompts. |
| EnhanceRoute.PostAsWritten | src/app/api/enhance-prompt/route.ts:84-120 | As written, every request either stops at an early return or throws at the usage update. It then leaves through the outer catch with 500 "Internal server error". No history row is written. |
| EnhanceRoute.Post | src/app/api/enhance-prompt/route.ts:11-113 | The corrected handler behaves as follows. Early returns are unchanged. An admitted request writes the total plus one, a `null` total counting as 0. A failed update answers 500 "Failed to update prompt count". Otherwise the response carries the route's enhancement, and the attempted history row holds the prompt, that enhancement and the prompt's title. The row is kept unless the insert fails, and the response does not depend on whether it does. |
| EnhanceRoute.WrittenVersusIntended | src/app/api/enhance-prompt/route.ts:84-113 | Take one admitted request. The handler as written answers it with the 500. The corrected handler sends back the enhanced prompt. |
| ChatInterface.ChooseMessage | src/components/chat-interface.tsx:51-53 | The trimmed enhanced text is sent when it is not blank, otherwise the trimmed input. The message is empty exactly when both are blank. It is already trimmed. |
| ChatInterface.RequestFor | src/components/chat-interface.tsx:139-154 | The request names the Mixtral model and caps at 1024 tokens. Its messages are the instruction, then every earlier log entry in order, then the new user message. |
| ChatInterface.UsageAfter | src/components/chat-interface.tsx:97-116 | The update writes three values. The total becomes the stored total, or 0, plus one. The daily count becomes the stored count plus one on the stored day, and 1 on any other day; a missing or empty stored date counts as today. The date becomes today. |
| ChatInterface.StoredDay | src/components/chat-interface.tsx:98-100 | The date part of the stored `last_prompt_date`, or today when it is missing or empty. It is carried by `UsageAfter`, `SecondSendSameDay` and `FirstSendNextDay`. |
| ChatInterface.SecondSendSameDay | src/components/chat-interface.tsx:97-116 | After one send, a second send on the same day raises both the total and the daily count by one more. |
| ChatInterface.FirstSendNextDay | src/components/chat-interface.tsx:103-106 | The first send on a different day starts the daily count again at 1, while the total keeps counting. |
| ChatInterface.ExchangeAppended | src/components/chat-interface.tsx:57-65 | Appending a non-empty trimmed user message and its answer keeps the log a run of user/answer exchanges. |
| ChatInterface.EnhancedTextNotBlank | src/components/prompt-enhancer.tsx:66-74 | The panel's output always ends in a full stop, so it is never blank. |
| ChatInterface.AppliedTextIsSent | src/components/chat-interface.tsx:204-207 | Once the panel's text is applied, a send sends that text trimmed, whatever was typed. |
| ChatInterface.Chat.constructor | src/components/chat-interface.tsx:18-24 | The box starts with an empty log, empty input and no enhanced text. The panel is closed and the counters are 0 and 5. |
| ChatInterface.Chat.LoadUsage | src/components/chat-interface.tsx:27-48 | With a user and a row, the counters become the stored values, with a missing or zero value falling back to 0 and 5. Otherwise nothing changes. |
| ChatInterface.Chat.NextUsage | src/components/chat-interface.tsx:97-116 | The step-by-step daily-counter computation (reset when the day changed) produces `UsageAfter`. |
| ChatInterface.Chat.SendMessage | src/components/chat-interface.tsx:50-197 | There are three cases. (1) With both texts blank, nothing changes and nothing is sent. (2) At or over quota, the user message and the limit text are appended, the texts are cleared, the panel closes and the counter is kept. (3) Below quota, the user message and then the reply or the apology are appended; the counter rises by exactly one when a user is signed in; the request is built from the log before the send; and with a user and a usage row the update is `UsageAfter` and the history row holds the message and its title. In every case the log stays a run of exchanges. |
| ChatInterface.Chat.AppendExchange | src/components/chat-interface.tsx:57-65 | The quota branch appends the user message and the limit text together. Nothing else changes. |
| ChatInterface.Chat.AppendAnswer | src/components/chat-interface.tsx:162-183 | The answer closes the exchange opened by the user message. |
| ChatInterface.Chat.OpenEnhancer | src/components/chat-interface.tsx:199-202 | The panel opens only for non-blank input. Nothing else changes. |
| ChatInterface.Chat.ApplyEnhancedPrompt | src/components/chat-interface.tsx:204-207 | The applied text becomes the enhanced text and the panel closes. |
| ChatInterface.Chat.CancelEnhancer | src/components/chat-interface.tsx:267 | Cancel closes the panel and changes nothing else. |
| ChatInterface.Chat.EditText | src/components/chat-interface.tsx:329-336 | An edit goes to the enhanced text while there is one, otherwise to the input. The box then shows the edit, except that emptying the enhanced text brings the input back into view. |
| ChatInterface.Chat.DisplayedText | src/components/chat-interface.tsx:329 | What the text box shows, `enhancedPrompt` when it is non-empty, otherwise `input`. It is carried by `EditText`. |

## Findings

| source | as written | input that shows it | evidently intended | confidence | as-written member | corrected member |
|---|---|---|---|---|---|---|
| src/app/api/enhance-prompt/route.ts:84-91 | The usage update sets `daily_prompts_used: dailyPromptsUsed + 1` and `last_prompt_date: today`. Neither name is declared in the handler. Evaluating the object throws a ReferenceError, which the outer catch turns into 500 "Internal server error". | A signed-in user with `prompts_used` 0 and `prompts_limit` 5 posts `{ prompt: "hi" }`. The answer is 500, where the enhanced prompt `"hi"` was due. | Write the incremented total, answer 500 only when the update fails, then save the history and return the enhanced prompt. | not executed; as TypeScript the file does not type-check either | EnhanceRoute.PostAsWritten | EnhanceRoute.Post |

## Left out

- Backend and network I/O:
  - The Supabase authentication, select, update and insert calls, and the `fetch` to the chat-completions endpoint, are parameters and results.
  - Not modelled: the endpoint URL, the headers, the API key, user ids, `created_at` timestamps and `console.error`.
- The JSON response of the chat model is reduced to the reply text or its absence. Any failed or malformed reply becomes the "with the AI model" apology.
- Exceptions in the chat box:
  - Every Supabase call of the send sits inside the inner `try`. The model treats those calls as returning, never throwing; only the model call can fail.
  - The outer `catch` of the send (src/components/chat-interface.tsx:186-196) is left out, with its second apology text. Reaching it would need the inner `catch` itself to throw.
- The chat box's history insert result is ignored by the source. The model returns the row it writes.
- Concurrency and rendering:
  - A send runs to completion as one step. React's batching of state updates, re-renders, and interleaving with other events are not modelled.
  - `loading` is only set and cleared. That includes an Enter-key send while a send is under way (src/components/chat-interface.tsx:340-344).
  - The buttons' `disabled` conditions are rendering (src/components/chat-interface.tsx:352,360).
- The system instruction sent to the model is opaque text. The constructor `Instruction` stands for it.
- The "Global Settings" selects and checkboxes (src/components/chat-interface.tsx:270-320) are uncontrolled and feed nothing.
- Strings:
  - JavaScript strings are UTF-16 code units; Dafny's `char` is a Unicode scalar value. Lengths (the 50-character title) and `trim` agree only outside the astral planes.
  - The route's prompt is taken to be a string. Its settings are taken to be strings and integers; non-string prompts, fractional or `NaN` slider values and other JSON types are not modelled. The sliders have step 1, so they produce integers.
- Role keys:
  - The panel's role is one of the table's keys, because the select offers only those.
  - Lookups of inherited object keys (`roleOptions["constructor"]`) are not modelled.
- The day string is a parameter (`today`). `toISOString` is not modelled.
- The chat page, the dashboard, the sign-up page and the Supabase client wrappers are not part of this model.
- EnhanceRoute.Post: does not write `daily_prompts_used` or `last_prompt_date`. The names those fields are set from are declared nowhere in the route, so no intended values can be read off the code. The corrected handler writes only the incremented total.
