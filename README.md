# To-do list task store, in Dafny

This project models the state manager of a single-page, browser-resident to-do
list (`script.js`). The application keeps one ordered list of tasks
`{ id, text, createdAt }` in memory. It validates what the user types and mirrors
the list into one `localStorage` slot after every change. Deleting one task or
all of them goes through a yes/no dialog.

- `wrappers.dfy`, module `Wrappers`: `Option`, which stands for JavaScript `null`
  and for "no file chosen".
- `validation.dfy`, module `Validation`: `validateTaskInput`. The model includes
  `String.prototype.trim`, using the ECMAScript whitespace and line-terminator
  characters, and JavaScript's `length`, counted in UTF-16 code units. Three
  rules are tried in order on the trimmed text: empty, starts with a digit
  `0`-`9`, shorter than 5. The first rule that fails sets the message.
- `task_store.dfy`, module `TodoList`: the class `TaskStore`. It has three fields:
  `tasks` (the list), `pending` (the action the open dialog's confirm button
  runs) and `slot` (the storage slot's content). Its methods are start-up
  loading, add, edit, delete, delete-all, confirm, cancel, export and import.
  The same module holds `showPopup` as written, in `BindAsWritten`, for the
  finding below.
- `scenarios.dfy`, module `Scenarios`: sequences of user actions on a freshly
  started store, proved from the method contracts alone.

Several things are parameters of the operations rather than modelled:
- `Date.now()` and `new Date().toISOString()`;
- the reply of `prompt()` (`None` when the user cancels);
- whether `localStorage.setItem` succeeds;
- what `JSON.parse` made of a stored or imported text: an array, another value, or an exception.

The main class follows the evidently intended dialog behaviour: each prompt
replaces the pending action, and confirm runs the latest one. See "Findings".

`editTask` and `deleteTask` read `tasks[index].text` without a bounds check
(script.js:194, 179), so an index outside the list makes them throw. They are
only called with the index of a rendered task, so the model requires an index
inside the list.

## Model

| member | source | states |
|---|---|---|
| Validation.LeadingSpace | script.js:87 | the number of leading whitespace characters: every character before it is whitespace and the one at it is not |
| Validation.TrailingSpace | script.js:87 | the number of trailing whitespace characters: every character after the cut is whitespace and the one before it is not |
| Validation.Trim | script.js:87 | trim() gives a string with no whitespace at either end; it is the slice of the input between the leading whitespace and the trailing whitespace; it is empty exactly when the input is all whitespace |
| Validation.TrimUnique | script.js:87 | a string with no whitespace at its ends, with any whitespace around it, trims to itself: the result of trim() is determined independently of how it is computed |
| Validation.TrimIdempotent | script.js:87 | trimming an already trimmed text changes nothing |
| Validation.TrimIgnoresPadding | script.js:87 | adding whitespace around an input does not change its trimmed text |
| Validation.TrimSplit | script.js:87 | every input is its trimmed text with whitespace only on either side |
| Validation.Utf16Length | script.js:100 | JavaScript's length lies between the number of characters and twice that, so a text of at least 5 characters always passes the length rule |
| Validation.ValidateTaskInput | script.js:86-105 | valid exactly when the trimmed input is non-empty, does not start with a digit and is at least 5 long; a valid verdict has the empty message and an invalid one does not; the empty message is given exactly for blank input, the digit message exactly for non-blank input starting with a digit, the length message exactly for the remaining short inputs |
| Validation.ValidateTrimmed | script.js:86-105 | the stored text of a task (the trimmed input) gets the same verdict as the raw input |
| Validation.ValidateIgnoresPadding | script.js:86-105 | whitespace around an input never changes the verdict |
| Validation.BlankIsEmpty | script.js:90-92 | blank input is rejected with the empty message, before any other rule |
| Validation.DigitBeatsLength | script.js:95-102 | "12", with any whitespace around it, is rejected for its leading digit and not for its length |
| Validation.EmptySample | script.js:90-92 | "" is rejected as empty |
| Validation.DigitSample | script.js:95-97 | "123abc" is rejected for its leading digit |
| Validation.ShortSample | script.js:100-102 | "ab" is rejected as too short |
| Validation.SampleAcceptance | script.js:86-105 | "Buy milk" with any surrounding whitespace is accepted with the empty message and trims to "Buy milk" |
| TodoList.Splice | script.js:184 | splice(i, 1) with i inside the list removes one element, keeps the others in their order (element k of the result is element k, or k + 1 from i on) and removes exactly the element at i from the multiset; an index past the end changes nothing |
| TodoList.LoadedTasks | script.js:54-70 | start-up yields a non-empty list only when the slot holds an array of exactly those tasks |
| TodoList.Apply | script.js:174-232 | what the confirm callbacks (script.js:174, 183-188, 227-232) do to the list: never add a task; a delete of an index inside the list removes exactly that task, keeping the others in order (one fewer); clear-all leaves the empty list; a success dialog's callback changes nothing |
| TodoList.LoadAfterSave | script.js:54-83 | whatever the slot held before, a list saved successfully is exactly the list the next start-up loads, and after a failed write start-up loads what the slot held before |
| TodoList.BindAsWritten | script.js:130-136 | as written, the confirm button is bound after any call, and it runs the new prompt's action exactly when nothing was bound before or the same action was bound |
| TodoList.BindingSticks | script.js:130-136 | as written, once the button is bound to an action, any number of later prompts leave that binding unchanged |
| TodoList.FirstBindingSticks | script.js:124-137 | as written, the first prompt of the session decides what the confirm button runs after any series of later prompts |
| TodoList.ConfirmAsWritten | script.js:133-136 | as written, a confirm click never adds a task and with no binding changes nothing |
| TodoList.AsWrittenDeletesWrongTask | script.js:124-137 | as written, after a confirmed delete of the first of [a, b, c], a confirmed delete of c at index 1 removes b instead, which differs from the intended [b] |
| TodoList.AsWrittenSuccessDialogSwallowsDelete | script.js:124-137 | as written, when a success dialog was the session's first dialog, a confirmed delete leaves the list unchanged, where the intended delete removes one task |
| TodoList.ImportBannerAsWritten | script.js:364-377 | as written, the import banner differs from the intended one exactly when the file holds an array and a dialog was shown earlier in the session |
| TodoList.AsWrittenImportReportsReadError | script.js:364-377 | as written, a successful import after an earlier dialog reports "Error reading file", where the intended banner for the same import with a working store is none |
| TodoList.TaskStore.constructor | script.js:46-70 | start-up: the list is what the slot holds if it is an array, otherwise empty; no dialog is open; the invariant holds |
| TodoList.TaskStore.LoadTasksFromStorage | script.js:54-70 | from the empty list: a stored array replaces the list; a non-array value or a parse failure sets it empty; a missing or empty slot leaves it empty |
| TodoList.TaskStore.SaveTasksToStorage | script.js:73-83 | a successful write stores the current list; a failed one keeps the old slot and the in-memory list and shows the save warning |
| TodoList.TaskStore.ShowPopup | script.js:124-137 | the dialog's pending action becomes the new one, replacing any earlier one |
| TodoList.TaskStore.AddTask | script.js:145-176 | invalid input changes neither the list, the dialog nor the slot, and shows the validator's message; valid input appends exactly one task `{now, trimmed input, timestamp}` after the unchanged old list, saves, and opens the success dialog; the appended text is itself trimmed and valid |
| TodoList.TaskStore.EditTask | script.js:193-215 | a cancelled prompt or an invalid reply leaves everything unchanged (an invalid reply shows its message); a valid reply changes only the text of the task at the index to the trimmed reply: same length, same id and creation time, every other task unchanged, then saves and opens the success dialog; the new text is itself trimmed and valid |
| TodoList.TaskStore.DeleteTask | script.js:178-190 | the list and slot are unchanged; the dialog now holds the delete of that index |
| TodoList.TaskStore.DeleteAllTasks | script.js:218-234 | on an empty list the list stays empty, the dialog is untouched and "No tasks to delete." is shown; otherwise the list is unchanged and the dialog holds the clear |
| TodoList.TaskStore.Confirm | script.js:124-137 | the dialog closes; its action runs on the current list; a pending delete always removes exactly the task at its index (one fewer task, the rest in order), because no delete ever goes stale; a clear empties the list; a delete or clear is saved; a success dialog's confirm changes nothing; with no dialog nothing changes |
| TodoList.TaskStore.Cancel | script.js:308-315 | cancel or a click on the backdrop closes the dialog without running its action; the list is untouched |
| TodoList.TaskStore.ExportTasks | script.js:339-356 | never changes the list; on an empty list no file and "No tasks to export."; otherwise the file holds the whole list and the success dialog opens |
| TodoList.TaskStore.ImportTasks | script.js:358-380 | an array is appended after the old list, in order and without validation, then saved; a non-array shows the format error and an unreadable text shows the read error, both changing nothing; for a chosen file the banner is the intended import banner (the save outcome, the format error or the read error); no file changes nothing |
| Scenarios.AddThenRestart | script.js:145-176 | after a valid add with working storage, the next start-up loads the old list followed by the new task |
| Scenarios.RejectedAddChangesNothing | script.js:145-152 | a rejected input leaves the list as loaded and the storage slot as it was, and shows a non-empty message |
| Scenarios.DeleteAnswered | script.js:178-190 | a delete followed by cancel leaves the list identical; followed by confirm the list is the tasks before the chosen one followed by the tasks after it, in order |
| Scenarios.ConfirmedDelete | script.js:178-190 | on any store, a delete of task i confirmed with a working store leaves the tasks before i followed by the tasks after it, and keeps the invariant |
| Scenarios.LatestPromptWins | script.js:124-137 | when each prompt binds its own action, deleting a and then c from [a, b, c] leaves [b] |
| Scenarios.DeleteAfterAdd | script.js:124-137 | after a valid add whose success dialog is acknowledged, a confirmed delete of task i removes exactly that task from the list with the new task at its end |
| Scenarios.ClearAnswered | script.js:218-234 | on an empty list delete-all reports "No tasks to delete." and the list stays empty; otherwise cancel keeps the list and confirm empties it |
| Scenarios.ImportTwoIntoThree | script.js:364-371 | importing two tasks into three gives five: the three original first, then the two imported, in order |
| Scenarios.ImportNonArray | script.js:372-374 | a file that parses to a non-array leaves the list unchanged and reports the format error |

## Left out

- DOM rendering and element handles are not modelled. This covers `renderTasks`, `createTaskElement`, `updateDeleteAllButton` and the element lookups. They are presentation only.
- `escapeHtml` is not modelled, because it relies on the browser's `textContent`/`innerHTML` behaviour.
- Dialog titles and messages are not modelled. One of them quotes the task text and one the task count; they are presentation only.
- Clearing the input field after an add is not modelled, nor is hiding an earlier error banner.
- The 5-second auto-hide of the error banner and the 300 ms animation class are not modelled. They are timing and UI. A method's `banner` result is the message the call shows, if any.
- `localStorage` is reduced to two things. Reads are the `StoredItem` the store starts from, where a read that throws counts as `Missing`. Writes are a `writable` flag. Exceptions, quota and the console log are not modelled.
- `JSON.parse` and `JSON.stringify` (RFC 8259) are abstracted to their outcome, a `Parsed` value. `toISOString` (ISO 8601) is a string parameter.
- `FileReader`, `Blob`, object URLs and the download link are not modelled. Export returns the list it would write; import receives the parse of the chosen file.
- TodoList.TaskStore.ImportTasks: imported elements are modelled as task records. Non-task-shaped JSON values (numbers, objects missing fields) are not representable, so the model cannot show what they do to later edits.
- Task ids are inputs. `Date.now()` can repeat, so the model claims no uniqueness of ids.
- An out-of-range index in edit or delete makes the source throw. The model makes an in-range index a requirement instead.
- Strings are sequences of Unicode scalar values. A JavaScript string can hold an unpaired surrogate, which a Dafny `char` cannot, so such inputs are not representable.
- `getTaskStatistics` and `currentEditingIndex` are not modelled. Nothing in the program uses them.

## Findings

| source | as written | input that shows it | evidently intended | confidence | as-written member | corrected member |
|---|---|---|---|---|---|---|
| script.js:124-137 | `showPopup` always clones and replaces the `confirmBtn` looked up at start-up. After the first call that node has no parent, so every later call throws at `confirmBtn.parentNode.replaceChild`, after the dialog is shown. The button in the page keeps the first callback it ever got. | From [a, b, c]: delete a and confirm, giving [b, c]. Then delete c (index 1) and confirm: the first callback `splice(0, 1)` runs and [c] remains. | Each prompt binds its own callback. The second confirm removes c and leaves [b]. | not executed; high (follows from DOM `replaceChild` semantics) | TodoList.AsWrittenDeletesWrongTask | Scenarios.LatestPromptWins |
| script.js:124-137 | The same stale binding: when the session's first dialog was a success notice (after an add, edit, import or export), its empty callback stays bound. | Add a task (success dialog), then delete task i and confirm: the list is unchanged. | The confirmed delete removes task i. | not executed; high | TodoList.AsWrittenSuccessDialogSwallowsDelete | Scenarios.DeleteAfterAdd |
| script.js:364-377 | After any earlier dialog in the session, the success dialog of an import throws inside the `try`. The tasks are already appended and saved, and the `catch` shows "Error reading file". The first dialog of a session still works. | Add a task, then import a file holding an array: the tasks are appended and the read error is shown. | The import is reported as a success and no error is shown. | not executed; high | TodoList.AsWrittenImportReportsReadError | TodoList.TaskStore.ImportTasks |

The rest of the model uses the intended behaviour: `TaskStore.ShowPopup` replaces the pending action, and `TaskStore.Confirm` runs it.
