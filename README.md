# Instagram batch DM extension — verified model

The extension sends one templated direct message to each of a few Instagram
profile links. It has three parts:

- **The popup** (`Popup`) parses the link list. It refuses a start when no
  link or no message is given. It sends `START_TASK`/`STOP_TASK` to the
  background and mirrors the worker's log, progress and completion in its
  own state.
- **The background worker** (`Background.Worker`) is the campaign state
  machine. It takes the links one at a time. For each link it reports
  progress and opens the tab. It injects the delivery script with the
  spintax-expanded message and records a result. Between links it waits a
  random delay. It ends with a summary.
- **The page script** (`Content`) finds the "Message" button. It finds the
  input box, types the text into the Lexical editor, then finds the send
  button and clicks it.

The text helpers shared by the worker and the task manager are modelled once,
in `TaskManager`:

- spintax expansion (`{a|b}` picks one option);
- the `@username` shown for a link;
- the random delay.

`Math.random()` becomes an explicit `Draw`, a multiple of 2^-53, and
`Math.floor(Math.random() * n)` is modelled by the integer quotient
`(d * n) / 2^53`. The browser
calls around a target become an `Attempt` value. The page at each step of a
delivery becomes a parameter (a list of elements in document order). Log
lines, opened tabs, injected texts and the pauses between targets are recorded in fields so the
contracts can state them.

Modules:

- `Wrappers`: `Option`, `Result`.
- `Types`: the shared records and messages.
- `Strings`:
  - JavaScript `trim`, `includes`, one-character `split`;
  - number-to-text;
  - greedy character runs.
- `TaskManager`, `Popup`, `Content`, `Background`: as above.

## Model

| member | source | states |
|---|---|---|
| TaskManager.Expand | src/utils/taskManager.ts:18-21 | the global replace as a left-to-right scan: a group found at the scan position is replaced with the option its own draw picks and the scan resumes after its `}`; otherwise the character is kept. A definition with no contract of its own; its properties are stated by ExpandShortens, ExpandNoGroup, GroupThenRest, KeepChar and BraceFreeText |
| TaskManager.ProcessSpintax | src/utils/taskManager.ts:17-22 | `processSpintax` is the scan started with the first draw. A definition with no contract of its own; its properties are stated by SpintaxUnchangedIff, DegenerateTemplates, LoneGroup, SingleGroupYieldsOption, EveryOptionReachable, EmptyOptionChosen, AdjacentGroupsIndependent, NestedKeepsOuterBraces and GroupThenClose |
| TaskManager.ScaledBounds | src/utils/taskManager.ts:20 | `Math.floor(Math.random()*n)` is an index in `[0, n)` for every draw |
| TaskManager.ScaledOnto | src/utils/taskManager.ts:20 | every index below `n` is produced by some draw, so every option can be picked |
| TaskManager.ChooseOption | src/utils/taskManager.ts:19-20 | the replacement of a group is one of its `\|`-separated options (empty options included) |
| TaskManager.ExpandShortens | src/utils/taskManager.ts:17-22 | expansion never lengthens the text, and strictly shortens it when it holds a `{…}` group without inner braces |
| TaskManager.ExpandNoGroup | src/utils/taskManager.ts:17-22 | text with no `{…}` group is returned unchanged |
| TaskManager.SpintaxUnchangedIff | src/utils/taskManager.ts:17-22 | `processSpintax` returns its input exactly when the input holds no group (both directions) |
| TaskManager.DegenerateTemplates | src/utils/taskManager.ts:18 | `""`, `"{}"` and an unclosed `"{abc"` are left as they are, because the pattern needs one or more non-brace characters between the braces |
| TaskManager.GroupThenRest | src/utils/taskManager.ts:17-22 | a leading group is replaced with the first draw and the scan resumes after its closing brace with the next draw |
| TaskManager.LoneGroup | src/utils/taskManager.ts:17-22 | a template that is a single group expands to the option the draw picks |
| TaskManager.SingleGroupYieldsOption | src/utils/taskManager.ts:17-22 | a single-group template yields `options[floor(r * options.length)]`, which is among the options |
| TaskManager.EveryOptionReachable | src/utils/taskManager.ts:17-22 | for every option of a single group there are draws that produce exactly that option |
| TaskManager.EmptyOptionChosen | src/utils/taskManager.ts:19-20 | `"{a\|}"` can expand to the empty string: empty options are kept by `split` |
| TaskManager.AdjacentGroupsIndependent | src/utils/taskManager.ts:17-22 | two adjacent groups are each replaced by their own option, using the first and second draws |
| TaskManager.KeepChar | src/utils/taskManager.ts:18 | where no group starts, the character is kept and the scan moves on by one |
| TaskManager.BraceFreeText | src/utils/taskManager.ts:18 | brace-free text before the rest of a template is copied through unchanged |
| TaskManager.NestedKeepsOuterBraces | src/utils/taskManager.ts:18 | in `{x{a\|b}}` only the inner group is replaced, and the outer brace characters survive around the result |
| TaskManager.OpenBeforeGroup | src/utils/taskManager.ts:18 | an opening brace followed by text and then another brace does not start a match |
| TaskManager.GroupThenClose | src/utils/taskManager.ts:18 | a group followed by a stray `}` expands to the option followed by that `}` |
| TaskManager.FindMatch | src/utils/taskManager.ts:28 | the regular-expression search returns the leftmost offset where `instagram.com/` and a username start, and nothing exactly when there is none |
| TaskManager.CaptureMeaning | src/utils/taskManager.ts:28 | the capture is the longest non-empty run of characters other than `/` and `?` right after `instagram.com/` |
| TaskManager.ExtractUsername | src/utils/taskManager.ts:27-30 | with no match the URL itself is returned; with a match, `@` followed by the capture at the leftmost match |
| TaskManager.ExtractFromProfileLink | src/utils/taskManager.ts:27-30 | `https://www.instagram.com/name/?x` and similar links give `@name` |
| TaskManager.FindMatchFirst | src/utils/taskManager.ts:28 | a match with no match before it is the one the search finds |
| TaskManager.ExtractUsernameNoHost | src/utils/taskManager.ts:29 | a URL without the host fragment is shown as it is |
| TaskManager.RandomDelay | src/utils/taskManager.ts:35-37 | for `min <= max` the delay lies in `[min, max]`; for `min == max` it is `min` |
| TaskManager.RandomDelayOnto | src/utils/taskManager.ts:35-37 | every value in `[min, max]` is produced by some draw |
| Strings.Trim | src/entrypoints/popup/main.ts:276 | `trim`: leading whitespace removed, then trailing whitespace. A definition with no contract of its own; its properties are stated by TrimmedIff, TrimIsCore and TrimIdempotent |
| Strings.Contains | src/entrypoints/popup/main.ts:277 | `includes`: the fragment is a prefix of some suffix of the text. A definition with no contract of its own; ContainsAt and ContainsWitness show it holds exactly when the fragment occurs at some offset |
| Strings.SplitOn | src/entrypoints/popup/main.ts:275 | one-character `split`, also used for the `\|` of a spintax group (taskManager.ts:19): there is at least one piece, and no piece holds the separator or is longer than the text. JoinSplit and SplitCount state that nothing is lost |
| Strings.TrimmedIff | src/entrypoints/popup/main.ts:276 | `trim` yields text with no whitespace at either end, and it is the identity exactly on such text |
| Strings.TrimIsCore | src/entrypoints/popup/main.ts:276 | the trimmed text is a contiguous slice of the input with only whitespace around it |
| Strings.TrimIdempotent | src/entrypoints/popup/main.ts:276 | trimming twice equals trimming once |
| Strings.ContainsAt | src/entrypoints/popup/main.ts:277 | `includes` holds wherever the fragment occurs |
| Strings.ContainsWitness | src/entrypoints/popup/main.ts:277 | `includes` holds only where the fragment occurs at some offset |
| Strings.JoinSplit | src/entrypoints/popup/main.ts:275 | splitting on line feeds loses nothing: joining the pieces gives back the text |
| Strings.SplitCount | src/entrypoints/popup/main.ts:275 | there is one piece more than there are line feeds |
| Strings.DecimalRoundTrip | src/entrypoints/popup/main.ts:158 | the decimal rendering of a number reads back as that number |
| Popup.MapFilter | src/entrypoints/popup/main.ts:276-277 | `.map(line => line.trim()).filter(…)`: never more entries than lines, and every entry passes the filter. MapFilterKeeps and MapFilterFrom state which entries appear and in what order |
| Popup.MapFilterKeeps | src/entrypoints/popup/main.ts:276-277 | every line that qualifies after trimming appears in the output, in input order |
| Popup.MapFilterFrom | src/entrypoints/popup/main.ts:276-277 | every output entry is the trimmed form of some input line |
| Popup.QualifyingTrimmed | src/entrypoints/popup/main.ts:276-277 | every kept line contains `instagram.com/` and is already trimmed |
| Popup.ParseLinks | src/entrypoints/popup/main.ts:273-279 | the result is the first `min(q, 5)` qualifying trimmed lines, in order |
| Popup.ParseLinksEmptyIff | src/entrypoints/popup/main.ts:273-279 | no link is parsed exactly when no line, once trimmed, contains `instagram.com/` |
| Popup.ValidateStart | src/entrypoints/popup/main.ts:210-243 | refuses with "no links" exactly when none parse. Refuses with "empty message" exactly when links parse but the trimmed message is blank. Otherwise the configuration holds the parsed links, the trimmed message and the delays in milliseconds |
| Popup.NeverTooManyLinks | src/entrypoints/popup/main.ts:222-226 | the "more than 5 links" refusal can never be produced |
| Popup.ValidateAcceptsIff | src/entrypoints/popup/main.ts:217-231 | a start is accepted exactly when some line is a profile link and the message is not blank |
| Popup.LinkCounter | src/entrypoints/popup/main.ts:156-171 | the label reads `n/5` for the parsed count `n`. It is blue exactly when `n > 0` and is never red |
| Popup.PopupController.CheckRunningTask | src/entrypoints/popup/main.ts:197-204 | a stored running flag puts the popup into the running state; otherwise nothing changes |
| Popup.PopupController.StartTask | src/entrypoints/popup/main.ts:207-251 | a refused start logs the refusal, shows the error state and sends nothing. An accepted one sets running, logs the start and sends exactly one `START_TASK` with the validated configuration |
| Popup.PopupController.StopTask | src/entrypoints/popup/main.ts:254-258 | sends `STOP_TASK`, logs the stop at warning level and returns to the ready state |
| Popup.PopupController.OnTaskComplete | src/entrypoints/popup/main.ts:261-265 | clears the running flag and shows the ready state, nothing else |
| Popup.PopupController.OnMessage | src/entrypoints/popup/main.ts:141-150 | `LOG` appends one line, `PROGRESS` sets the counters, `TASK_COMPLETE` completes; nothing else changes |
| Content.QuerySelector | src/entrypoints/instagram.content.ts:97-100 | `document.querySelector`: the first element in document order that the selector matches. A definition with no contract of its own, by way of `First`; FirstFrom and FirstIs state that the earliest match is returned and nothing exactly when none matches. It serves the labelled lookups at instagram.content.ts:111-112 as well |
| Content.FirstFrom | src/entrypoints/instagram.content.ts:79-88 | returns the first element from an offset that passes the test, and nothing exactly when none does |
| Content.FirstIs | src/entrypoints/instagram.content.ts:79-88 | an element that passes, with none passing before it, is the one found |
| Content.FirstOfSelectors | src/entrypoints/instagram.content.ts:94-124 | the first strategy that finds something decides, and the search fails only when every strategy fails |
| Content.FindMessageButton | src/entrypoints/instagram.content.ts:79-88 | returns the first `div[role=button]` whose trimmed text is `发消息` or `Message`, and nothing exactly when there is none |
| Content.FindInputBox | src/entrypoints/instagram.content.ts:94-102 | tries the four selectors in order and fails only when no element matches any of them |
| Content.LexicalEditorFirst | src/entrypoints/instagram.content.ts:94-97 | a Lexical editor on the page is always preferred |
| Content.SecondPassAddsNothing | src/entrypoints/instagram.content.ts:109-122 | when both labelled selectors fail, no button passes the scan of all buttons either |
| Content.ChineseLabelPreferred | src/entrypoints/instagram.content.ts:110-113 | a `发送` button wins over a `Send` button |
| Content.FindSendButton | src/entrypoints/instagram.content.ts:108-124 | equals the labelled-selector search, and fails exactly when no button is labelled `发送` or `Send` |
| Content.InsertTextEvents | src/entrypoints/instagram.content.ts:151-165 | one `insertText` input event per character, in order |
| Content.InsertTextEventsCarryText | src/entrypoints/instagram.content.ts:151-165 | the per-character events carry exactly the typed text |
| Content.Editor.TypeText | src/entrypoints/instagram.content.ts:131-209 | the primary path leaves the typed text as the only paragraph and announces each character. The fallback writes the text into the first paragraph and dispatches `input`, `change` and `insertText` |
| Content.ExecuteDM | src/entrypoints/instagram.content.ts:28-73 | succeeds exactly when all three controls are found and the click does not throw. The first missing control ends the run with its own error, and no later lookup is made. The editor is untouched unless the first two lookups succeed. Once they do, it holds the text as the primary typing path or the fallback leaves it |
| Background.NormalizeInjection | src/entrypoints/background.ts:84-100 | the first frame's result is passed through. A missing result becomes "no result", and a thrown injection becomes "script failed: …" |
| Background.NormalizedSuccess | src/entrypoints/background.ts:93-96 | a success is reported only when the script's own first-frame result says so |
| Background.Outcome | src/entrypoints/background.ts:63-79 | the recorded result names the link; it succeeds exactly when the tab loaded and the script reported success, and otherwise carries the error |
| Background.Outcomes | src/entrypoints/background.ts:46-82 | result `i` is the outcome of target `i` |
| Background.OutcomesAligned | src/entrypoints/background.ts:71-78 | result `i` names link `i` |
| Background.CountSuccess | src/entrypoints/background.ts:118 | the success count is at most the number of results |
| Background.CountSuccessExtremes | src/entrypoints/background.ts:118 | the count equals the total exactly when all succeeded, and is zero exactly when none did |
| Background.WaitSeconds | src/entrypoints/background.ts:108 | `Math.round(delay / 1000)` is within half a second of the delay, with halves rounding up |
| Background.CompletionMessages | src/entrypoints/background.ts:119-122 | what `completeTask` sends: the summary counting the successes, `TASK_COMPLETE`, then the progress `(n, n)` for `n` results. A definition with no contract of its own; RunEnds, CampaignEnds and LastStepEnds state where it ends the log |
| Background.Record | src/entrypoints/background.ts:71-78 | recording a result keeps results aligned with links: a settled campaign becomes one with the current target's result pushed |
| Background.Advance | src/entrypoints/background.ts:71-104 | recording and moving the index keeps the campaign settled: one result per target before the index |
| Background.Worker.constructor | src/entrypoints/background.ts:6-7 | idle with no campaign and no history |
| Background.Worker.StartTask | src/entrypoints/background.ts:21-37 | ignored while running. Otherwise the worker runs, stores the flag, starts the campaign at index 0 with no results, and logs the start |
| Background.Worker.StopTask | src/entrypoints/background.ts:39-44 | always clears the running flag, the campaign and the stored flag, and logs the stop at info level |
| Background.Worker.CompleteTask | src/entrypoints/background.ts:116-127 | sends the summary, `TASK_COMPLETE` and the final progress, then clears the running state |
| Background.Worker.MoveToNext | src/entrypoints/background.ts:102-114 | moves the index past the recorded result. It then waits the random delay and logs it when a target remains, and completes otherwise |
| Background.Worker.ProcessNextLink | src/entrypoints/background.ts:46-82 | idle: nothing. At the end: the completion lines. With a target left: visits it and injects the expanded message only when the tab loaded. It sends the progress, the attempt's lines and then the wait or the completion, and records the outcome |
| Background.Worker.TryTarget | src/entrypoints/background.ts:63-79 | logs the tab failure, or the load, the injection and the script's answer; the text is injected only when the tab loaded |
| Background.Worker.OnRequest | src/entrypoints/background.ts:9-44 | `STOP_TASK` always stops: no campaign, running and stored flags cleared, and "任务已停止" logged. `START_TASK` while idle starts the campaign at index 0 with no results, sets both flags and logs "任务开始"; while running it changes nothing. No tab is visited, no text injected and no pause taken |
| Background.Worker.Step | src/entrypoints/background.ts:46-114 | one target handled: it is visited, its expanded message is injected exactly when the tab loaded, and the popup hears the progress, the attempt's lines and then the wait or the completion. With a target left the campaign advances and the worker pauses once for the drawn delay; after the last one the worker is idle, has not paused, and the completion lines close the log |
| Background.Worker.FinishAtEnd | src/entrypoints/background.ts:51-55 | a campaign past its last link logs "所有任务完成!" and then the completion of its results, ends idle, and visits, injects and pauses nothing |
| Background.Worker.RunToCompletion | src/entrypoints/background.ts:46-127 | from any point, the remaining targets are visited in order. The results are the earlier ones followed by the outcome of each remaining target. Each loaded tab is handed its own expansion of the message, failed tabs nothing. The worker pauses once between consecutive targets and not after the last. The outbox keeps everything sent before and gains exactly `RunMessages`: each target's progress, processing line, attempt lines and wait, then the completion lines |
| Background.Worker.FinishRun | src/entrypoints/background.ts:46-127 | the same as RunToCompletion when at most one target remains, the outbox included: it gains "所有任务完成!" and the completion when no target is left, and the last target's step otherwise |
| Background.RunMessages | src/entrypoints/background.ts:46-127 | everything the popup hears over an uninterrupted run: each target's step messages in order, or the final line and the completion when no target is left. A definition with no contract of its own; RunEnds and RunBegins state how it opens and closes, and the driver methods ensure the outbox gains exactly it |
| Background.RunEnds | src/entrypoints/background.ts:116-122 | whatever was sent before, a run's messages end with the summary, `TASK_COMPLETE` and the final progress over the earlier results followed by one outcome per remaining target |
| Background.RunBegins | src/entrypoints/background.ts:57-61 | a run with a target left opens with `PROGRESS (i, n)` and the "正在处理 (i+1/n): @name" line for that target |
| Background.CampaignEnds | src/entrypoints/background.ts:116-122 | after "任务开始", a campaign's messages end with the summary over one result per link, the third-to-last being the success count |
| Background.OutcomesCons | src/entrypoints/background.ts:46-82 | the outcomes of a non-empty list are the first target's outcome followed by the rest's |
| Background.LastStepEnds | src/entrypoints/background.ts:102-127 | handling the last target ends the popup traffic with the completion lines |
| Background.Campaign | src/entrypoints/background.ts:21-127 | a whole campaign visits every link in order and records one result per link, naming that link. It hands each loaded tab an expansion of the message and pauses once between consecutive links. The outbox is exactly "任务开始" followed by `RunMessages` from the first link, and its last three messages are the summary counting the successes, `TASK_COMPLETE` and the final progress. It ends idle |
| Background.DelaysBetweenTargets | src/entrypoints/background.ts:102-110 | a run over n targets pauses n - 1 times; pause `i` is the delay drawn for it and lies within the configured bounds |
| Background.InjectedWhenAllLoad | src/entrypoints/background.ts:57-67 | when every tab loads, each target is handed exactly one text, its own expansion of the message, in order |
| Background.InjectedWhenNoneLoad | src/entrypoints/background.ts:63-79 | when no tab loads, no text is handed over |

## Left out

- The browser APIs (`chrome.tabs`, `chrome.scripting`, `chrome.storage`, `chrome.runtime.sendMessage`) are not called. Opening a tab, waiting for it to load and injecting the script are one `Attempt` value per target. The storage write is the `storedRunning` field, and the messages to the popup are the `outbox` field.
- `openInstagramTab`, `waitForPageComplete` (background.ts:129-166) and their 30-second timeout: time is not modelled. A timeout or any other tab error is a `TabFailed` attempt.
- Pauses: only the random delay between targets (background.ts:107-109) is recorded, in the worker's `slept` field. The page script's sleeps (instagram.content.ts:34, 44, 55, 64), the 200 ms wait after focusing the editor (instagram.content.ts:134), the per-character typing wait (instagram.content.ts:164) and the 2000 ms pause after a page loads (background.ts:153) are dropped. No clock is modelled.
- `Math.random()`: it is an injected `Draw` in `[0, 2^53)`. Each group of a template and each pause has its own draw.
- TaskManager.Scaled: computes `floor(d * n / 2^53)` exactly. JavaScript rounds the product `Math.random() * n` to a double first, so for a draw just below a multiple of `1/n` it can pick the next index up (for `n = 3` and `d = (2^54 - 1) / 3` JavaScript gives 2 and the model gives 1). The range of indices and the reachability of each one are unaffected.
- Concurrency: a `STOP_TASK` that arrives while a step is waiting on the browser is not modelled. Each step runs to its end before the next request is handled.
- The worker calls `processNextLink` at the end of `startTask` (background.ts:36). `Background.Worker.StartTask` stops before that call, and `Background.Campaign` makes it as the first step. Likewise `Background.Worker.MoveToNext` stops before the call to `processNextLink` after the pause (background.ts:110); `Background.Worker.RunToCompletion` makes that call as its next step.
- `sendDMFunction` (background.ts:199-275), the copy of the delivery steps that the worker actually injects, is not part of this model. The worker sees its answer only as the `Injection` value. The page script's own delivery (`Content.ExecuteDM`) is modelled instead.
- The page script's `PING`/`EXECUTE_DM` listener (instagram.content.ts:7-20) is not modelled; it only forwards to `executeDM`.
- Content.Editor.TypeText: models a primary-path failure only before the path starts. A failure part-way through, which would leave some characters typed before the fallback, is not modelled. Focus, selection ranges and the random typing jitter are not modelled either.
- Content.ExecuteDM: the editor that is typed into is a parameter. It is not tied to the input box that the lookup finds in `dialog`, whose index is discarded.
- Content.ExecuteDM: only the final click can throw (`clickFault`). Clicking the message button and typing are assumed not to throw, and a typing failure falls back as in `typeInLexicalEditor`.
- The pages a delivery sees (`profile`, `dialog`, `composed`) are parameters, because clicking and typing change the page in ways the script does not control.
- The popup's delay fields are modelled as integers. `parseInt` on text that is not a number (giving `NaN`) is not modelled.
- `updateProgress` shows a percentage computed in floating point. Popup.ProgressStats and Popup.ProgressStatus keep only the text fields.
- The logger's time stamps and HTML rendering, `console.log`, `updateUI`'s button styling, and the status indicator's colours are not modelled; the indicator is the `Indicator` value.
- `loadSavedData`, `saveData` and `clearLog` in the popup are storage and DOM chores and are not modelled.
- The delay range is not checked by the source: for `delayMin > delayMax` the formula still gives a value. TaskManager.RandomDelay states bounds only for `min <= max`.

## Notes on the code

Behaviour of the code that departs from what its names, comments or messages suggest. The model follows the code:

- Stopping an idle worker is not a no-op: `stopTask` (background.ts:39-44) always clears the state and logs "任务已停止" at info level. The popup logs the same text at warning level (main.ts:256).
- The typing helper never reports failure, even when both of its methods fail (the log line at instagram.content.ts:207 says so). `typeInLexicalEditor` (instagram.content.ts:131-209) returns nothing and swallows every error of the fallback.
- `findSendButton` has a second method, a scan of all buttons (commented at instagram.content.ts:115). That scan (instagram.content.ts:116-121) tests exactly what the two labelled selectors tested, so it cannot find anything they missed (Content.SecondPassAddsNothing).
- The popup has a refusal for more than five targets, but `parseLinks` already cuts the list to five, so the popup's ">5" refusal (main.ts:222-226) and the counter's red colour (main.ts:161-163) are unreachable (Popup.NeverTooManyLinks, Popup.LinkCounter).
- `extractUsername` only recognises links containing `instagram.com/`; any other URL is shown whole.
- When the cursor is already past the last link, the code logs "所有任务完成!" before the completion summary (background.ts:51-55).
