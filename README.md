# Survey flow engine — a Dafny model

This project models the client side of a browser survey. A server hands out tasks one at a time.
The page shows each task on one of three screens, and then asks for the next task.

- **Welcome screen.** It may demand consent checkboxes before the participant can go on.
- **Question screen.** It collects one answer per question.
- **Thank-you screen.** It submits on its own.

A cookie marks a browser that has already taken part. A returning participant is shown a "cheating" confirmation screen first.

The project has seven modules:

- `JsValue` (`js_value.dfy`): JSON scalars and the three JavaScript tests the flow applies to task properties:
  - truthiness;
  - `=== true`;
  - "null or undefined".
- `SurveyTask` (`survey_task.dfy`):
  - the task records;
  - the slot `state.task` can hold;
  - server responses;
  - submission payloads;
  - what a screen asks of the controller;
  - what the "next" button does.
- `Utils` (`utils.dfy`): the two members of the controller's `utils` object that carry logic.
  - The in-place Fisher–Yates shuffle is an `array` method, proved against a function on sequences. That function is proved to be a permutation.
  - The dispatch of `make_next_button`.
- `QuestionScreen` (`qscreen.dfy`): the question screen. It is a class whose `answers` map is updated in place. It contains:
  - the sorted, optionally shuffled question-id list;
  - the completeness loop;
  - `_submit`'s decision;
  - `showQ`'s dispatch.
- `WelcomeScreen` (`welcome_screen.dfy`):
  - consent-section detection;
  - caption and message defaults;
  - the checkbox handlers, as a class with the two flags and the two boxes;
  - the `pre_submit` gate.
- `Controller` (`flow.dfy`): the controller of `frontend/index.js` and the thank-you screen.
  - One `Flow` object is one page load. Its state is `userid`, `currentTaskId`, `task`, `iter`, the browser's cookie, the leave-page guard and the mounted screen.
  - Requests to the server, renders, toasts, cookie writes and guard changes go to a ghost `log` of `Effect`s.
  - A server response is fed back by calling `OnTaskLoaded`.
- `Scenarios` (`scenarios.dfy`): four complete runs driven through the controller's methods:
  - a first participation from the welcome screen to a final thank-you screen;
  - a question screen refusing an incomplete submission;
  - a welcome screen refusing to go on until its agreement box is ticked;
  - a returning participant.

How the screens and the controller connect:

- A welcome or question screen does not call the controller itself. Its check returns a
  `ScreenRequest`, either `ShowToast(msg)` or `CallSubmit(payload)`.
- `Flow.ClickNext` performs that request. This is what the source's `pre_submit` / `_submit` closures do when they call `utils.showToast` or `submit`.
- `Math.random` is an arbitrary function `pick`. The index drawn at step `i` is `pick(i) % (i + 1)`, which can be any value in `[0, i]`.

Four behaviours of the code are easy to misread; the model follows the code:

- **Screens submit without a payload.** The welcome and question screens call `submit()` (`frontend/screens/welcome_screen.js:127`, `frontend/screens/qscreen.js:234`). The answers are not forwarded.
- **The cookie is written on every `submit`.** This includes the thank-you screen's automatic one and submissions on terminal tasks (`frontend/index.js:167`). It is not written once only.
- **The cheating screen does not go through `run`'s dispatch.** `init` renders it directly (`frontend/index.js:146-156`). A task whose `tasktype` is `"cheating"` renders nothing in `run`.
- **Confirming on the cheating screen** calls `loadInitialTask` again and does not touch the cookie.

## Model

| member | source | states |
|---|---|---|
| JsValue.Override | frontend/screens/welcome_screen.js:33-44 | a property found by `hasOwnProperty` replaces the default; a missing one leaves it |
| Utils.Draw | frontend/index.js:26 | the index drawn at step `i` lies in `[0, i]` |
| Utils.Swap | frontend/index.js:27-29 | the exchange through `temp` keeps the length |
| Utils.SwapPermutes | frontend/index.js:27-29 | the exchange keeps every element as often as before |
| Utils.ShuffleDown | frontend/index.js:25-30 | the loop from index `i` down to 1 keeps the length |
| Utils.ShuffleDownPermutes | frontend/index.js:25-30 | the loop from any index down to 1 is a permutation |
| Utils.Shuffled | frontend/index.js:22-31 | the shuffle keeps the length and leaves sequences of length at most 1 unchanged |
| Utils.ShuffledIsPermutation | frontend/index.js:22-31 | for every choice of random numbers the shuffle has the same length and the same multiset |
| Utils.ShuffleArray | frontend/index.js:22-31 | the in-place loop leaves exactly `Shuffled(old contents)` in the array |
| Utils.MakeNextButton | frontend/index.js:52-92 | no button exactly when `next_button_hide` is truthy; otherwise a click calls the screen's function exactly when one was passed, else `submit({})` |
| QuestionScreen.SortedKeys | frontend/screens/qscreen.js:238-239 | the key set in strictly ascending string order: each key exactly once, nothing else |
| QuestionScreen.QidOrderIsPermutation | frontend/screens/qscreen.js:237-245 | shuffled or not, the id list holds every question id exactly once and nothing else |
| QuestionScreen.CompletenessIgnoresOrder | frontend/screens/qscreen.js:214-223 | two id lists with the same elements are complete for the same answers |
| QuestionScreen.CompleteIffAllKeysAnswered | frontend/screens/qscreen.js:214-245 | the displayed list is complete iff every question id is an answer key; extra answers do not matter, no questions means complete |
| QuestionScreen.HorizontalFlags | frontend/screens/qscreen.js:112-119 | dividers default to off and option labels to on; a present property decides by its truthiness |
| QuestionScreen.ShowQ | frontend/screens/qscreen.js:11-53 | `check_horizontal` gives a horizontal radio group and `check_vertical` a vertical one, both with the question's options; any other type gives text only |
| QuestionScreen.ViewsOf | frontend/screens/qscreen.js:268-271 | one view per listed id, in list order, each `showQ` of that id's question |
| QuestionScreen.BuildQidList | frontend/screens/qscreen.js:237-245 | sorting then shuffling in place when `shuffle_questions` is truthy yields `QidOrder` |
| QuestionScreen.QScreen.constructor | frontend/screens/qscreen.js:237-272 | the screen lists the questions in `QidOrder`, with one view each; the reminder is `please_answer_msg` when present, else `"Bitte beantworten Sie alle Fragen!"`; the button calls `_submit` unless hidden; no answers yet |
| QuestionScreen.QScreen.OnAnswer | frontend/screens/qscreen.js:210-212 | last write wins for the key; every other key keeps its answer |
| QuestionScreen.QScreen.ChooseOption | frontend/screens/qscreen.js:87-98 | choosing an offered option records exactly that option for that question |
| QuestionScreen.QScreen.AreAllQsAnswered | frontend/screens/qscreen.js:214-223 | true iff every listed id has an answer, which on a well-built screen is iff every question id has one |
| QuestionScreen.QScreen.Submit | frontend/screens/qscreen.js:225-235 | one unanswered question gives the reminder toast and no submission; otherwise `submit()` without a payload |
| WelcomeScreen.ConsentOf | frontend/screens/welcome_screen.js:17-44 | a section is declared iff its key is present; the bottom area shows iff a section is declared; caption and messages default unless overridden |
| WelcomeScreen.GatePassesIffDeclaredChecked | frontend/screens/welcome_screen.js:108-128 | `pre_submit` submits, without a payload, iff every declared section is ticked |
| WelcomeScreen.GateReminderOrder | frontend/screens/welcome_screen.js:111-125 | one reminder at most; data protection is checked first and wins when both are unticked |
| WelcomeScreen.WelcomeButton | frontend/screens/welcome_screen.js:130-156 | with a bottom area a `pre_submit` button is always there; without one the shared button honours `next_button_hide` |
| WelcomeScreen.Welcome.constructor | frontend/screens/welcome_screen.js:17-44 | both flags and both boxes start unticked on each rendering, the overlay hidden |
| WelcomeScreen.Welcome.ClickAgreementLabel | frontend/screens/welcome_screen.js:67-70 | the box toggles and the flag then equals it; the other section is untouched and each flag keeps mirroring its box |
| WelcomeScreen.Welcome.ClickAgreementBox | frontend/screens/welcome_screen.js:72-74 | the browser's toggle, then the flag equals the box; each flag keeps mirroring its box |
| WelcomeScreen.Welcome.ClickDataProtectionLabel | frontend/screens/welcome_screen.js:91-94 | the box toggles and the flag then equals it; the other section is untouched and each flag keeps mirroring its box |
| WelcomeScreen.Welcome.ClickDataProtectionBox | frontend/screens/welcome_screen.js:96-98 | the browser's toggle, then the flag equals the box; each flag keeps mirroring its box |
| WelcomeScreen.Welcome.PreSubmit | frontend/screens/welcome_screen.js:108-128 | the guarded early returns give exactly the gate's answer for the current flags |
| WelcomeScreen.Welcome.ShowDataProtection | frontend/screens/welcome_screen.js:158-167 | the data-protection button shows the overlay |
| WelcomeScreen.Welcome.ClickOverlay | frontend/screens/welcome_screen.js:168-172 | a click on the overlay hides it |
| Controller.ReplayGuard | frontend/index.js:144-167 | only `""` and `"true"` reach the first task, so the `"agreed"` that `submit` writes sends the next page load to the cheating screen |
| Controller.InitEffects | frontend/index.js:117-160 | guard, then the reload toast, then the cheating render iff the cookie routes to cheating |
| Controller.InitLoadsIffNotCheating | frontend/index.js:144-159 | `init` asks for the first task exactly once iff the cookie does not route to cheating, and renders nothing through `run` |
| Controller.RouteOf | frontend/index.js:234-244 | `"welcome"`, `"thankyou"` and `"Q"` each select their own screen; every other type, or none, selects nothing |
| Controller.SubmitEffects | frontend/index.js:165-183 | the cookie write first, then one `loadUserTask(userid, next_task, payload)` iff the task is not final and has a successor |
| Controller.SubmitLoadsOnceIffAdvances | frontend/index.js:167-182 | every submit writes the cookie, also on terminal tasks; exactly one load when it goes on, none when `final === true` or `next_task` is null or missing |
| Controller.RunRendersAtMostOne | frontend/index.js:224-246 | one `run` renders at most one screen: none past the ceiling, for a non-object task, or for an unknown type such as `"cheating"` |
| Controller.ThankyouAutoSubmit | frontend/screens/thankyou_screen.js:1-12 | render, then `submit({"finished": true})`, loading the next task iff not final; the guard is released last, iff `final_task === true` |
| Controller.RunsFromRenderBound | frontend/index.js:225-227 | any number of `run` calls from counter `i` render at most one screen each and at most `100 - i` in all |
| Controller.AtMostCeilingScreens | frontend/index.js:10-15 | from the initial `iter = 0`, `run` renders at most 100 screens however the responses go |
| Controller.ButtonAction | frontend/index.js:65-88 | no button does nothing; the `submit({})` handler submits an empty object; the screen's handler does the screen's action |
| Controller.ActionEffects | frontend/index.js:113-115 | confirming on the cheating screen only asks for the first task; a reminder only toasts; a submission is `submit`'s effects |
| Controller.RejectedClickLoadsNothing | frontend/screens/qscreen.js:229-232 | a rejected attempt requests nothing; only a submission writes the cookie; the cheating confirmation requests exactly once |
| Controller.Flow.constructor | frontend/index.js:10-15 | `userid "null"`, task id 0, no task, counter 0, blank page; the cookie as the browser kept it |
| Controller.Flow.Init | frontend/index.js:117-160 | ids reset to 0 and `"null"`, guard installed; the cheating screen iff the cookie is neither empty nor `"true"`, otherwise the first task is requested |
| Controller.Flow.CheatSubmit | frontend/index.js:113-115 | exactly one `loadInitialTask`, nothing else |
| Controller.Flow.LoadNextTask | frontend/index.js:205-221 | one `loadUserTask(userid, current_task_id, payload)` |
| Controller.Flow.Submit | frontend/index.js:165-183 | cookie is `"agreed"`; throws iff no task object; `current_task_id` moves to `next_task` iff it goes on, else stays; the log grows by `SubmitEffects` |
| Controller.Flow.ShowWelcome | frontend/index.js:235 | a fresh welcome screen built from the task, both flags and both boxes unticked, each flag equal to its box, overlay hidden; one render |
| Controller.Flow.ShowQuestions | frontend/index.js:239 | a fresh question screen built from the task, no answers, one render |
| Controller.Flow.ShowThankyou | frontend/screens/thankyou_screen.js:1-12 | the thank-you button without a screen function; render, auto-submit with `{"finished": true}`, then the guard goes iff `final_task === true` |
| Controller.Flow.ReleaseGuardIfFinal | frontend/screens/thankyou_screen.js:8-11 | the guard is cleared iff `final_task === true` |
| Controller.Flow.Run | frontend/index.js:224-246 | the counter always grows by one; past 100 nothing happens; for a task object the page is cleared and the screen its type names is shown |
| Controller.Flow.OnTaskLoaded | frontend/index.js:185-203 | a pair sets user id and task, a bare task only the task; a `null` task stops before `run` |
| Controller.Flow.ClickNext | frontend/index.js:84-87 | the click does exactly what the mounted screen's button and check decide |
| Controller.Flow.PendingAction | frontend/screens/welcome_screen.js:147-149 | the screen's check runs without changing anything |
| Controller.Flow.Perform | frontend/screens/qscreen.js:229-234 | a reminder is toasted, a submission goes through `submit`, a cheating confirmation through `cheatSubmit` |
| Scenarios.FirstParticipation | frontend/index.js:144-183 | welcome, then submit to task 1 under the assigned user id, then the final thank-you with no further request; the next page load shows the cheating screen |
| Scenarios.IncompleteQuestions | frontend/screens/qscreen.js:225-235 | one answer out of two gives the reminder and no request; the second answer lets the click request task 3 |
| Scenarios.ReturningParticipant | frontend/index.js:144-156 | with `"agreed"` stored, the cheating screen shows without a request; confirming requests the first task once |
| Scenarios.ConsentRequired | frontend/screens/welcome_screen.js:67-128 | with an agreement section, a click before ticking only shows the default agreement reminder; after a click on the label the same button submits and requests task 1 under the assigned user id |

## Left out

- DOM construction is rendered as abstract `Render(kind)` entries. This covers element trees, CSS classes, `innerHTML`, scrolling, the loader and the screen's visibility, titles, scale labels and captions. Markdown conversion by `showdown` is a library this model does not see.
- `frontend/api.js` is replaced by logged `LoadInitial` and `LoadUserTask` entries. Its responses come back as `OnTaskLoaded` inputs. `reloadTaskTemplate` is a debug-only request and is not logged.
- `frontend/screens/cheatscreen.js` is a thin DOM wrapper. It is the `CheatingOn` screen, whose button runs `cheatSubmit`.
- `cookies.js` is not part of this model. The cookie is a string field of the page, read by `Init` and written by `Submit`. Its three-day expiry is not modelled.
- `history.pushState` and the `popstate` back-button blocking are not modelled. `window.onbeforeunload` is the boolean `leaveGuard` plus its log entries.
- Timers and time are not modelled: the toast's `setTimeout` dismissal and `isoTimeStamp`.
- Callbacks are single atomic steps. The model does not capture requests answered out of order or while another is pending. It also does not capture that `load_next_task` hides the buttons: any mounted screen's button can be clicked.
- Task properties are JSON scalars. Objects and arrays as property values are not modelled, nor are fractional numbers and `NaN`. `taskbody` is always present. For a task that is not a question task, `questions` is an empty map, so the `TypeError` the page raises when `taskbody` or `questions` is missing is not modelled.
- `submit` on a `null` or missing task raises a `TypeError` after writing the cookie. `Flow.Submit` reports this as `thrown`; what the browser does with the uncaught exception is not modelled.
- `QuestionScreen.SortedKeys` compares Dafny characters. JavaScript's default sort compares UTF-16 code units, and the two orders differ only for characters outside the Basic Multilingual Plane.
- Question ids that collide with `Object.prototype` members, such as `hasOwnProperty`, are not modelled.
- The visual `checked` state of radio buttons is not modelled. A row click checks the radio whose `id` is the option text, which can belong to another question with the same options, while the answer recorded is the right one.
- Response shapes the server does not send are not modelled: an empty array (which leaves `userid` undefined), a bare truthy value that is not an object (for which `run` clears the page and shows nothing), and texts such as `please_answer_msg` that are not strings.
- `admin/index.js` is not part of this model. Its copy of `shuffleArray` is the same algorithm as `Utils.ShuffleArray`.
