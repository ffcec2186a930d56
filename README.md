# ChatGPT dashboard: verified model of its question store and chat proxy

The dashboard keeps an ordered list of question records. A user adds, refreshes and removes them; an auto-refresh timer re-asks every record that is not loading; each fetch later ends in an answer or an error. The answers come from a proxy endpoint, `/api/chat`. It checks the request, then tries a fixed chain of four candidate models against the completion service and returns the first answer it gets.

The project models three pieces:

- `Dashboard` (`dashboard.dfy`): the record list and its updaters as functions. The controller is a class `Controller` whose methods reassign its `questions` field. A fetch is split in two. `Ask` marks the record as loading and returns the request it sends. `Resolve(id, outcome)` later applies the outcome as one atomic step, in any order. The question card's display priority is the helper `Shown`.
- `ChatApi` (`chat_api.dfy`): the `/api/chat` handler. `Respond` is a function that specifies it. `Handle` is the method with the candidate loop, proved equal to `Respond`. Each upstream reply is an input, one per candidate.
- `ControlPanel` (`control_panel.dfy`): the submit check (JavaScript `trim` and the blank test), the panel's input state, and the constant tables of layouts and refresh intervals.

`Common` (`common.dfy`) holds `Option`, the opaque `Usage` record and JavaScript truthiness of optional strings.

Some behaviours of the code are easy to miss. The model follows the code in each:

- Fallback. Every failed attempt moves on to the next candidate, not only a 403 reply. A non-OK status throws at `pages/api/chat.js:60`, and that throw is caught by the loop's own `catch` at :63-66. An OK reply without a `choices` array also throws (at :50), and is caught the same way.
- Missing answer. An OK reply without an answer still gives 200, with the answer absent (`pages/api/chat.js:50-54`). The card then shows "No answer yet".
- Blank text. Blank input is rejected only in the control panel (`components/ControlPanel.js:15`). `Controller.AddQuestion` takes any text.
- Status codes. The handler does not classify upstream status codes. A 401 fails every candidate, and the record ends with the aggregate "No accessible models found" message (`Dashboard.AllCandidatesFailScenario`).
- Failed fetch. A failed fetch keeps the record's previous answer (`components/Dashboard.js:94-102`).

## Model

| member | source | states |
|---|---|---|
| `ChatApi.FirstAccepted` | pages/api/chat.js:24-67 | the index of the first reply the loop answers with; every earlier reply was not accepted; `None` exactly when no reply is accepted |
| `ChatApi.Respond` | pages/api/chat.js:1-79 | 405 'Method not allowed' exactly for a non-POST method and 400 'Question is required' exactly for a POST with a falsy question; a POST with a truthy question and no key gives 500 'OpenAI API key not configured' with no upstream request; no guard failure makes an upstream request; at most 4 requests; 200 exactly when the guards pass and some candidate is accepted, and then `model_used` is the first accepted candidate, with no later one tried, the answer is that reply's first choice content and the usage is that reply's usage; when the guards pass and no candidate is accepted, 500 with the fixed message and the four suggested actions after exactly 4 requests |
| `ChatApi.ModelsToTry` | pages/api/chat.js:17-22 | four candidates, the caller's model first, then the fallback list |
| `ChatApi.UpstreamFor` | pages/api/chat.js:34-41 | the request names the candidate, carries one user-role message holding the question, and asks for at most 500 tokens |
| `ChatApi.RequestedModel` | pages/api/chat.js:6 | an absent `model` becomes 'gpt-3.5-turbo'; a given one is used as it is |
| `ChatApi.Accepted` | pages/api/chat.js:49-66 | a thrown request, a 403, any other non-OK status and an OK reply without `choices` are not answered with; an OK reply with `choices` is |
| `ChatApi.FirstContent` | pages/api/chat.js:50 | absent for an empty `choices` array, otherwise the first choice's content |
| `ChatApi.Handle` | pages/api/chat.js:1-79 | the handler's guards and candidate loop give exactly the response `Respond` specifies and make exactly as many requests; request i carries candidate i and one user-role message whose content is the question |
| `ChatApi.ModelsToTryShape` | pages/api/chat.js:17-22 | the chain is the caller's model followed by 'gpt-3.5-turbo', 'gpt-4o-mini' and 'text-davinci-003', four entries |
| `ChatApi.FailureAdvances` | pages/api/chat.js:56-66 | a 403, any other non-OK status, a thrown error and an OK reply without `choices` all move on to the next candidate; a response other than 200 uses all four attempts |
| `ChatApi.EmptyChoicesStillAnswer` | pages/api/chat.js:49-55 | an OK reply with an empty `choices` array gives 200 with the answer absent and the model that was asked |
| `Dashboard.Settle` | components/Dashboard.js:75-102 | a thrown error or a non-OK reply is a failure; its message is the body's truthy `message`, else 'Failed to get response'; an OK reply is a success carrying the body's answer and usage |
| `Dashboard.Step` | components/Dashboard.js:57-102 | id, question, model and timestamp never change; a start sets loading, clears the error and keeps the answer; a success clears loading and the error and sets answer and usage; a failure clears loading, sets the error and keeps answer and usage |
| `Dashboard.NewRecord` | components/Dashboard.js:108-116 | the new record has the id, text, model and time given, no answer, no error, no usage, is not loading, and the card shows "No answer yet" for it |
| `Dashboard.Receive` | components/Dashboard.js:75-78 | a proxy response always arrives as a reply; it is OK exactly for a 2xx status; an error or no-model body carries its `message` and no answer or usage; an answer body carries its answer and usage and no message |
| `Dashboard.Shown` | components/QuestionCard.js:26-43 | the spinner exactly when loading; otherwise a truthy error is shown, else a truthy answer, else "No answer yet", each exactly under its condition and showing that field's value |
| `Dashboard.UpdateWhere` | components/Dashboard.js:57-61 | the list keeps its length; the records with the id take the step in place and every other record is unchanged |
| `Dashboard.Without` | components/Dashboard.js:131-133 | a record is kept exactly when it was in the list and its id differs; nothing is added; an absent id leaves the list as it is |
| `Dashboard.FindIndex` | components/Dashboard.js:124 | the first record with the id, if any; `None` exactly when no record has it |
| `Dashboard.LoadingCount` | components/Dashboard.js:168-169 | the loading count is at most the total; it is 0 exactly when no record is loading and equals the total exactly when all are |
| `Dashboard.SweepTargets` | components/Dashboard.js:144-148 | every non-loading record is dispatched with its own id, question and model, and every dispatch comes from a non-loading record |
| `Dashboard.ClearLoading` | components/Dashboard.js:23 | the reloaded list has the same length and each record is the saved one with `loading` false and nothing else changed |
| `Dashboard.UpdateAbsentIsIdentity` | components/Dashboard.js:81-102 | an update for an id that is not in the list leaves the list unchanged |
| `Dashboard.RemoveThenResolve` | components/Dashboard.js:94-133 | after removal no record has the id, and a later result for it leaves the list unchanged, so a removed record is never resurrected |
| `Dashboard.WithoutConcat` | components/Dashboard.js:132 | removal preserves relative order: it distributes over concatenation |
| `Dashboard.SweepPartition` | components/Dashboard.js:144-169 | the loading records and the records a sweep dispatches together make up the whole list |
| `Dashboard.SweepConcat` | components/Dashboard.js:144-148 | a sweep dispatches in list order: over a concatenation it dispatches the first part's records, then the second's |
| `Dashboard.ReloadRefreshesAll` | components/Dashboard.js:23 | after a reload nothing is loading, so the next sweep dispatches every record |
| `Dashboard.ClearLoadingIdempotent` | components/Dashboard.js:23 | normalising a normalised list changes nothing |
| `Dashboard.SweepStep` | components/Dashboard.js:144-147 | starting the next idle record, or skipping a loading one, extends the swept prefix by one record |
| `Dashboard.SweptAllLoading` | components/Dashboard.js:144-148 | after a whole sweep every record is loading |
| `Dashboard.SettledIsShown` | components/QuestionCard.js:26-43 | a settled record never shows the spinner; a truthy answer of a success is shown, and so is a non-empty failure message |
| `Dashboard.StartedShowsSpinner` | components/QuestionCard.js:26-30 | a record whose fetch has started shows the spinner |
| `Dashboard.FallbackScenario` | pages/api/chat.js:49-58 | "What is 2+2?" with model 'm1': a 403 for 'm1' and the answer "4" from 'gpt-3.5-turbo' give 200 with `model_used` 'gpt-3.5-turbo'; the appended record ends showing "4" and the earlier records are unchanged |
| `Dashboard.AllCandidatesFailScenario` | pages/api/chat.js:69-78 | when every candidate fails, the record shows the proxy's aggregate message as its error and keeps its previous answer |
| `Dashboard.Controller.constructor` | components/Dashboard.js:11-13 | the list starts empty, the layout is 'grid-2' and the refresh interval is 0 |
| `Dashboard.Controller.Restore` | components/Dashboard.js:18-27 | a saved list is loaded with `loading` cleared; nothing saved or an unreadable value leaves the list as it is |
| `Dashboard.Controller.Ask` | components/Dashboard.js:56-73 | the matching records start fetching, every other record is unchanged, and the request carries the given id, text and model |
| `Dashboard.Controller.Resolve` | components/Dashboard.js:75-103 | the outcome, read by `Settle`, is applied to the matching records only; for an id no longer in the list nothing changes |
| `Dashboard.Controller.AddQuestion` | components/Dashboard.js:107-120 | exactly one record is appended at the end, with the text, model and time given, no answer, no error and its fetch started; earlier records keep their values and order |
| `Dashboard.Controller.Refresh` | components/Dashboard.js:123-128 | nothing happens when no record has the id or the first one is loading; otherwise its fetch restarts with its own question and model |
| `Dashboard.Controller.Remove` | components/Dashboard.js:131-133 | the list becomes the list without the id, and no record with the id remains |
| `Dashboard.Controller.Sweep` | components/Dashboard.js:142-148 | the sweep dispatches exactly `SweepTargets` of the list it started from; the records sharing an id with an idle record are started, all others are unchanged, and afterwards every record is loading |
| `Dashboard.Controller.SetRefreshInterval` | components/Dashboard.js:163-165 | the interval becomes the value chosen |
| `Dashboard.Controller.SetLayout` | components/Dashboard.js:12 | the layout becomes the value chosen |
| `Dashboard.Controller.Counts` | components/Dashboard.js:168-169 | the header's loading count is at most its total |
| `ControlPanel.TrimStart` | components/ControlPanel.js:15 | the result is a suffix of the text; what it drops is white space and it does not start with white space |
| `ControlPanel.TrimEnd` | components/ControlPanel.js:15 | the result is a prefix of the text; what it drops is white space and it does not end with white space |
| `ControlPanel.TrimIsSlice` | components/ControlPanel.js:15 | the trimmed text is the slice of the input that starts where the leading white space ends, and everything before it is white space |
| `ControlPanel.TrimDropsTrailingSpace` | components/ControlPanel.js:15 | everything after the trimmed slice is white space |
| `ControlPanel.Trim` | components/ControlPanel.js:15 | the trimmed text is no longer than the input and neither starts nor ends with white space |
| `ControlPanel.TrimEmptyIffBlank` | components/ControlPanel.js:15 | the trimmed text is empty exactly when the input is blank |
| `ControlPanel.TrimIdempotent` | components/ControlPanel.js:15-16 | trimming the submitted text again changes nothing |
| `ControlPanel.LayoutIds` | components/ControlPanel.js:21-26 | the layout ids are exactly 'grid-2', 'grid-3', 'grid-1' and 'list', all distinct |
| `ControlPanel.RefreshValues` | components/ControlPanel.js:28-34 | the intervals are exactly 0 ('Manual'), 30000, 60000, 300000 and 600000 ms, increasing and non-negative |
| `ControlPanel.Panel.constructor` | components/ControlPanel.js:10-11 | the input starts empty and the model starts as 'gpt-3.5-turbo' |
| `ControlPanel.Panel.Type` | components/ControlPanel.js:95 | the input holds the typed text |
| `ControlPanel.Panel.SelectModel` | components/ControlPanel.js:44 | the selected model becomes the one chosen |
| `ControlPanel.Panel.HandleSubmit` | components/ControlPanel.js:13-19 | blank input submits nothing and stays as it is; otherwise exactly one submission is made with the trimmed, non-empty text and the selected model, and the input is cleared |

## Left out

- Browser storage and JSON. Reading and writing the saved list, layout and interval are not modelled. `Controller.Restore` takes the parsed list, or `None` when nothing was saved or parsing failed. Restoring the saved layout and interval (`parseInt`) is left out.
- Timers. `setInterval`, `clearInterval`, `setTimeout`, `refreshTimer` and `isRefreshing` are not modelled. `Controller.Sweep` is one firing of the timer, reading the current list. Whether a timer is armed for a given interval is not modelled.
- Network. Calls to `/api/chat` and to the completion service are left out. A proxy reply is a `FetchOutcome` input, and `Receive` gives the one a proxy response produces. The upstream replies are a sequence input with one entry per candidate.
- Concurrency. The interleaving of async completions is not modelled. Each completion is an atomic `Resolve` step that may come in any order.
- Ids and clocks. `generateId` and `Date.now()` are nondeterministic, so they become parameters. `Controller.AddQuestion` requires the id to be fresh. Ids are integers here; in the source they are floating-point numbers, and only equality is used.
- Upstream request details. The `Authorization` header and the `temperature: 0.7` setting are left out (the second is a float), and so are the console logs. The `data.error?.message` thrown at `pages/api/chat.js:60` only reaches the log, so it is not modelled either.
- Request body. `question` and `model` are modelled as optional strings. A non-string JSON value, an explicit `null` model (which is not replaced by the default), and a missing body are not modelled.
- ChatApi.Handle: requires one upstream reply per candidate. The replies are the environment's answers, not something the handler's caller provides.
- Rendering. The JSX of the dashboard, control panel, card and layout is not modelled. Only the card's display priority is kept, as `Dashboard.Shown`.
