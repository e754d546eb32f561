# Grok Automator: a Dafny model of the orchestrator

Grok Automator is a Chrome extension that drives the Grok Imagine web page in two ways:

- **video queue**: turns a queue of images into videos, one after another;
- **edit run**: applies a list of text prompts to a reference image, then collects one generated image per prompt.

This project models the orchestration. Three pieces are covered:

- **background worker** (`background/background.js`):
  - its two state records;
  - the message handlers the popup calls;
  - the video queue loop `processQueue`;
  - the image-edit run `processImageEditQueue`;
  - the log upserts;
  - `sanitizeFilename`;
  - the way `sendToContentScript` turns a reply into a result.
- **popup** (`popup/popup.js`):
  - the variables it holds;
  - the handlers that reassign them and send requests;
  - the button and status-text decisions;
  - the prompt-list and queue builders.
- **content script**: every call into it is an *outcome* that the model takes as input.

## How the model is built

**Content-script calls.**
- Each call's reply, or its rejection, is an `Outcome`: `Messaging.Outcome`, either `Ok(Response)` or `Err(message)`.
- `Messaging.SendResult` is the mapping `sendToContentScript` applies.
- The outcomes of a whole run come in an environment record: `Video.QueueEnv` or `Edit.EditEnv`.
- Pause and stop messages that arrive while a call is awaited are part of the same record, as the commands handled after that step. The loops read the flags only at step boundaries, so this loses nothing.

**Background state.** The two records are classes, `Video.VideoQueue` and `Edit.EditQueue`.
- Their fields are the JavaScript record's fields.
- Each handler is a method whose `ensures` ties the new state to a function of the old state: `StartJob`, `RunQueue`, `EditRun`, and so on.
- The loops are `while` loops. Their invariants tie the loop state to those functions.
- The properties of the runs are lemmas about the functions, in `VideoProperties` and `EditProperties`:
  - pause and resume lose nothing;
  - a stop ends the run at the next boundary;
  - where a setup failure is logged;
  - which image each prompt collects;
  - what the log ends with.

**Popup.**
- The popup is the class `Popup.PopupPage`. Its fields are the popup's module-level variables plus the form values its handlers read.
- Each handler is specified by a step function on `Popup.PopupState` that also gives the request sent.
- `PopupProperties` proves:
  - what the prompt-list reader, the queue builder, the buttons and the status lines amount to;
  - what the popup shows after a background run has ended.

**Flags.** The two flags do not keep "paused implies processing", and the model does not claim it. A pause that arrives during an edit prompt ends the edit run: `isPaused` stays set while the `finally` clears `isProcessing` (`EditProperties.ControlEndsEditRun`, `PopupProperties.PausedEditCannotResume`). A pause during the last video item ends the same way (`VideoProperties.PauseOnLastItem`). In both cases a later resume does nothing.

The string built-ins (`trim`, `split`, `substring`, `padStart`) are in `Text`. The file-name builders are in `Filenames`. The keyed log upsert is in `Log`.

## Model

| member | source | states |
|---|---|---|
| Messaging.SendResult | background/background.js:514-526 | a transport error rejects with its message, a reply with a non-empty error rejects with it, any other reply resolves, and no reply resolves to `{ success: true }` |
| Messaging.SendResultRange | background/background.js:514-526 | the mapping produces exactly the outcomes that do not resolve with an error field: any rejection, and any resolved reply without an error |
| Log.FindIndex | background/background.js:575 | the index is -1 exactly when no entry has the name, and otherwise is the first entry with it |
| Log.Lookup | background/background.js:585 | an entry is found exactly when some entry has the name, and the entry found is the first entry with the name |
| Log.UpsertSpec | background/background.js:574-582 | the first entry with the name is replaced in place and the length kept, or a new entry is appended; every other entry is unchanged and the name then finds the new status and error |
| Log.FindIndexAt | background/background.js:575 | the first entry with the name is the one `findIndex` returns |
| Log.UpsertOthers | background/background.js:574-582 | an upsert leaves the entries of every other name as they were |
| Log.UpsertKeepsUnique | background/background.js:574-582 | a log without duplicate names keeps none after an upsert |
| Log.UpsertKeepsNoneProcessing | background/background.js:574-582 | upserting a non-'processing' entry keeps a log free of 'processing' entries |
| Log.UpsertOverwrite | background/background.js:574-582 | two upserts of the same name: the second wins and the first leaves no trace |
| Log.UpsertLabels | background/background.js:574-582 | an upsert adds exactly its name to the log's names |
| Log.UpsertFacts | background/background.js:574-582 | summary of one upsert: entry found, names grown by one, other names unchanged, uniqueness and absence of 'processing' kept |
| Log.UniqueLabelsCount | background/background.js:574-582 | a log with unique names has as many entries as names |
| Log.LogBound | background/background.js:574-582 | a log with unique names drawn from a set has at most that many entries |
| Log.UpsertAllLabels | background/background.js:574-582 | a series of upserts adds exactly the entries' names |
| Log.UpsertAllUnique | background/background.js:574-582 | a series of upserts keeps the names unique |
| Log.UpsertAllNoneProcessing | background/background.js:574-582 | a series of non-'processing' upserts adds no 'processing' entry |
| Log.UpsertAllOthers | background/background.js:574-582 | a name none of the upserted entries has is found as before |
| Text.Split | popup/popup.js:563 | `split('\n')` yields at least one piece, and no piece contains the separator |
| Text.Take | background/background.js:380 | `substring(0, n)` has length n clamped to [0, length] and is a prefix |
| Text.OrElse | background/background.js:72-73 | `value \|\| fallback` is the value when it is a non-empty string, and the fallback when it is absent or empty |
| Text.DecimalString | popup/popup.js:319 | `String(n)` is a non-empty digit string, one digit exactly below 10 and at most two below 100 |
| Text.PadStartZero | popup/popup.js:319 | `padStart(width, '0')` has length max(width, length) and is zeros followed by the string |
| Text.DecimalRoundTrip | popup/popup.js:319 | the decimal string of n reads back as n |
| Text.PadValue | popup/popup.js:319 | zero padding keeps a digit string's value |
| Text.Pad2RoundTrip | popup/popup.js:319 | the two-digit counter has at least two digits, exactly two below 100, and reads back as n |
| Text.LeadingSpaceFacts | popup/popup.js:561 | the characters `trim` removes in front are white space, and the next one is not |
| Text.ContentEndFacts | popup/popup.js:561 | the characters `trim` removes at the end are white space, and the one before them is not |
| Text.SplitAtSeparator | popup/popup.js:563 | splitting at a separator splits each side independently |
| Text.SplitSnocOther | popup/popup.js:563 | a trailing non-separator character joins the last piece |
| Text.SplitSnocSeparator | popup/popup.js:563 | a trailing separator adds one empty piece |
| Text.TrimConsWhitespace | popup/popup.js:561 | a leading white-space character does not change `trim` |
| Text.TrimSnocWhitespace | popup/popup.js:561 | a trailing white-space character does not change `trim` |
| Text.TrimDecomposition | popup/popup.js:561 | every string is white space, then its trimmed form, then white space |
| Text.TrimUntrimmed | popup/popup.js:561 | a string without white-space margins trims to itself |
| Text.TrimmedEnds | popup/popup.js:561 | a trimmed string has no white-space margins |
| Text.TrimIdempotent | popup/popup.js:561 | `trim` is idempotent |
| Text.TrimWhitespace | popup/popup.js:561-562 | white space trims to the empty string |
| Text.TrimSubstring | popup/popup.js:563 | trimming adds no character |
| Filenames.ReplaceUnsafe | background/background.js:570 | every character outside `[A-Za-z0-9_-]` becomes '_' and the rest are kept |
| Filenames.CollapseUnderscores | background/background.js:570 | collapsing never lengthens the string, keeps its first and last characters and a safe string safe, and leaves no two underscores in a row |
| Filenames.CollapseNoDouble | background/background.js:570 | a string without two underscores in a row is left unchanged by collapsing |
| Filenames.TrimUnderscoresShape | background/background.js:570 | on a safe string without double underscores, removing one leading and one trailing underscore gives a sanitized name: safe, no double underscore, no underscore at either end |
| Filenames.ReplaceUnsafeOfSafe | background/background.js:570 | replacing unsafe characters in a safe string changes nothing |
| Filenames.ContentReplaceUnsafe | background/background.js:570 | the replacement keeps every letter, digit and hyphen, in order |
| Filenames.ContentCollapse | background/background.js:570 | collapsing underscores keeps every letter, digit and hyphen, in order |
| Filenames.ContentTrimUnderscores | background/background.js:570 | trimming underscores keeps every letter, digit and hyphen, in order |
| Filenames.SanitizeFilenameShape | background/background.js:569-571 | the result has only `[A-Za-z0-9_-]`, no double underscore and no underscore at either end, and keeps every letter, digit and hyphen of the input in order |
| Filenames.SanitizeFilenameIdempotent | background/background.js:569-571 | sanitizing a sanitized name changes nothing |
| Filenames.LastSeparator | popup/popup.js:319 | the position of the last '.' or '/', or -1 when there is none |
| Filenames.HasExtensionAtLastSeparator | popup/popup.js:319 | `/\.[^/.]+$/` matches exactly when the last separator is a '.' with at least one character after it |
| Filenames.StripExtension | popup/popup.js:319 | the extension is removed exactly when there is one, leaving the text before the last '.' |
| Filenames.OutputFilenameOf | popup/popup.js:319 | a file `base.ext` at queue position i becomes `NN-grok-base.mp4`, NN being i + 1 padded to two digits |
| Filenames.NumberedPrefix | popup/popup.js:319 | a digit string followed by '-' determines its counter |
| Filenames.OutputFilenamesDistinct | popup/popup.js:313-321 | output names of different queue positions never coincide, whatever the file names |
| Filenames.EditImageFilenamesDistinct | background/background.js:449 | edit image names of different prompt positions never coincide |
| Video.StateView | background/background.js:49-54 | the `getState` reply holds every field of the record (queue, flags, cursor, counter, ratio, folder, log, tab), with the number of videos in place of the list |
| Video.ApplyControls | background/background.js:79-97 | the pause and stop handlers touch only the two flags |
| Video.DownloadTargets | background/background.js:535-544 | one save request per video, in order: the video's URL saved as `folder/filename`, the folder defaulting to "grok-videos" |
| Video.StepItem | background/background.js:237-297 | one item keeps the queue and the settings, sets the cursor to the item and the counter to its number |
| Video.RunFromStep | background/background.js:230-298 | the defining equation of `RunFrom` for an active loop: it processes item i and goes on from i + 1 |
| Video.RunFromHalt | background/background.js:231-235 | the defining equation of `RunFrom` for a loop that is no longer active: it leaves at the boundary and records the cursor |
| Video.RunFromDone | background/background.js:300-306 | the defining equation of `RunFrom` past the last item: the run is no longer processing and the cursor is back at 0 |
| Video.VideoQueue.constructor | background/background.js:4-15 | the record the worker starts with |
| Video.VideoQueue.GetState | background/background.js:49-54 | the reply is the record's view, with the number of generated videos |
| Video.VideoQueue.UpdateSettings | background/background.js:56-61 | each defined setting is written, whatever its value, and nothing else changes |
| Video.VideoQueue.StartProcessing | background/background.js:63-77 | the record is reset from the message, defaults applied, then the queue is run |
| Video.VideoQueue.PauseProcessing | background/background.js:79-83 | sets the pause flag only |
| Video.VideoQueue.ResumeProcessing | background/background.js:85-90 | clears the pause flag, then runs the queue from the cursor |
| Video.VideoQueue.StopProcessing | background/background.js:92-97 | clears both flags only |
| Video.VideoQueue.GetGeneratedVideos | background/background.js:99-107 | each video's position, output name and URL, in order |
| Video.VideoQueue.ClearGeneratedVideos | background/background.js:115-118 | empties the video list only |
| Video.VideoQueue.DownloadAllVideos | background/background.js:529-549 | fails with "No videos to download" when there are none; otherwise requests every save, clears the list and returns the count |
| Video.VideoQueue.AddLogEntry | background/background.js:574-582 | the log becomes the upsert of the entry |
| Video.VideoQueue.UpdateLogEntry | background/background.js:584-594 | the entry found is updated in place, or one is added: the same upsert |
| Video.VideoQueue.HandleControls | background/background.js:79-97 | the commands that arrived during a call, applied in order |
| Video.VideoQueue.RunSetup | background/background.js:210-227 | the setup step: a rejected call is logged under the first item's name or "Setup" and the run goes on |
| Video.VideoQueue.ProcessItem | background/background.js:237-297 | the loop body equals `StepItem` |
| Video.VideoQueue.RunItems | background/background.js:230-306 | the item loop equals `RunFrom` |
| Video.VideoQueue.ProcessQueue | background/background.js:205-315 | `processQueue` equals `RunQueue`: guard, setup from the first item, item loop |
| VideoProperties.StopIndex | background/background.js:230-235 | where the loop started at i leaves: an index in [i, length] |
| VideoProperties.ApplyControlsFlags | background/background.js:79-97 | the flags after the commands depend only on the flags before |
| VideoProperties.ApplyControlsNeverStarts | background/background.js:79-97 | no command makes a stopped run active again |
| VideoProperties.ControlTransitions | background/background.js:79-97 | pause sets only the pause flag and is idempotent; stop clears both flags; resuming a stopped run does nothing |
| VideoProperties.StartResets | background/background.js:63-73 | `startProcessing` resets cursor, counter, log and videos whatever the record held, and applies the defaults |
| VideoProperties.StepItemOutcome | background/background.js:237-287 | an item sets cursor i and counter i + 1; its 'processing' entry is overwritten by the final one, so the log is as if only that one had been written |
| VideoProperties.StepItemLog | background/background.js:243-287 | the item's final entry is found under its file name and the other entries are unchanged |
| VideoProperties.RunFromEnd | background/background.js:230-306 | the loop leaves at `StopIndex`, queue, settings and tab unchanged, cursor within the queue, never still active |
| VideoProperties.RunFromCounter | background/background.js:238-239 | the counter shows the number of the last item processed |
| VideoProperties.RunFromVideos | background/background.js:278-284 | the videos gained are exactly those of the items that succeeded, in queue order |
| VideoProperties.RunFromLog | background/background.js:243-287 | the log is the old log with every processed item's final entry upserted, in order |
| VideoProperties.ItemEntriesFacts | background/background.js:278-287 | the items' final entries carry their file names and none is 'processing' |
| VideoProperties.ItemEntryShape | background/background.js:278-287 | an item's final entry is 'completed', or 'failed' with its error |
| VideoProperties.StartedSetupFacts | background/background.js:210-227 | after setup the queue is in place, no videos yet, at most the setup failure logged |
| VideoProperties.StartedRun | background/background.js:205-306 | a started run ends suspended or finished; cursor within the queue; its videos are those of the items that succeeded, at most one per item; every logged item is settled |
| VideoProperties.RunFromAgree | background/background.js:230-298 | the loop from i depends only on the outcomes of items i onwards |
| VideoProperties.RunFromIgnoresCursor | background/background.js:230-238 | the saved cursor is overwritten before it is read |
| VideoProperties.QuietStep | background/background.js:231-235 | an item during which no command arrived keeps the flags |
| VideoProperties.PauseAtItem | background/background.js:231-235 | suspending at the item where a pause arrived and resuming loses nothing |
| VideoProperties.PauseStep | background/background.js:237-297 | a pause during an item leaves the item's step as without it, then pauses |
| VideoProperties.PauseOnLastItem | background/background.js:230-306 | a pause during the last item does not suspend the run: it ends paused but not processing, with the cursor at 0, and a resume then does nothing |
| VideoProperties.RunToActive | background/background.js:230-235 | with no command before item n the loop is still active at n |
| VideoProperties.RunFromSplit | background/background.js:230-298 | the loop from i is the loop from n applied to the record at n |
| VideoProperties.RunToAgree | background/background.js:230-298 | the first items are processed alike when their outcomes agree |
| VideoProperties.PauseResumeLossless | background/background.js:230-235 | a pause during item n and a later resume give the record of a run without the pause |
| VideoProperties.PauseResumeRun | background/background.js:63-90 | from a start: pause during item n, then resume, equals the run without the pause |
| VideoProperties.StopAtItem | background/background.js:231-235 | a stop during item n: the loop leaves after item n with both flags clear, counter n + 1 |
| VideoProperties.StopEndsRun | background/background.js:92-97 | a stop during item n ends the run at the next boundary: flags clear, counter n + 1, cursor at the next item, or 0 after the last |
| VideoProperties.StopThenResume | background/background.js:85-90 | after such a stop, a resume does not restart the run |
| VideoProperties.StopLog | background/background.js:230-298 | such a run logs the entries of items i to n and nothing of later items |
| VideoProperties.SetupFailureOverwritten | background/background.js:225-243 | a setup failure is logged under the first item's file name, and that entry is overwritten when the first item is processed |
| VideoProperties.SetupFailureLog | background/background.js:225-287 | after a failed setup the log is the first item's entry followed by the later items' entries |
| VideoProperties.TwoItemRun | background/background.js:205-315 | two items, the first succeeding and the second timing out: one video kept, first logged 'completed', second 'failed' with the timeout, cursor reset |
| Edit.StateView | background/background.js:121-132 | the `getImageEditState` reply holds the prompts, both flags, the cursor, the delay, the log and the error, with the number of images in place of the list |
| Edit.DelayOrDefault | background/background.js:139 | `delay \|\| 5`: an absent or zero delay becomes 5, any other delay is kept |
| Edit.ApplyControls | background/background.js:149-164 | the pause and stop handlers touch only the two flags |
| Edit.DebugEditReply | background/background.js:181-189 | with a tab, the content script's reply or `{ success: false, error }`; without one, "No tabId provided" |
| Edit.StepPrompt | background/background.js:373-413 | one prompt step keeps the prompt list (its log entry: `EditProperties.StepPromptLog`) |
| Edit.CollectFrom | background/background.js:444-476 | the collection loop keeps the prompts |
| Edit.EditQueue.constructor | background/background.js:18-29 | the record the worker starts with |
| Edit.EditQueue.GetImageEditState | background/background.js:121-132 | the reply is the record's view, with the number of images |
| Edit.EditQueue.StartImageEdit | background/background.js:134-147 | the record is reset from the message, defaults applied, then the run starts |
| Edit.EditQueue.PauseImageEdit | background/background.js:149-152 | sets the pause flag only |
| Edit.EditQueue.ResumeImageEdit | background/background.js:154-158 | clears the pause flag, then runs the queue |
| Edit.EditQueue.StopImageEdit | background/background.js:160-164 | clears both flags only |
| Edit.EditQueue.GetEditGeneratedImages | background/background.js:166-174 | each image's position, file name and URL, in order |
| Edit.EditQueue.ClearEditGeneratedImages | background/background.js:176-179 | empties the image list only |
| Edit.EditQueue.AddEditLogEntry | background/background.js:597-604 | the log becomes the upsert of the entry |
| Edit.EditQueue.UpdateEditLogEntry | background/background.js:606-615 | the entry found is updated in place, or one is added: the same upsert |
| Edit.EditQueue.HandleControls | background/background.js:149-164 | the commands that arrived during a call, applied in order |
| Edit.EditQueue.SubmitPrompt | background/background.js:379-412 | the loop body equals `StepPrompt` |
| Edit.EditQueue.RunPrompts | background/background.js:373-413 | the prompt loop equals `PromptsFrom` and reports whether it halted |
| Edit.EditQueue.WaitForGenerations | background/background.js:415-431 | step 5 equals `WaitStep` |
| Edit.EditQueue.CollectGenerated | background/background.js:444-476 | the collection loop equals `CollectFrom` |
| Edit.EditQueue.CollectImage | background/background.js:446-474 | one image: named, fetched or kept as the thumbnail URL, appended; the prompt's entry 'completed' |
| Edit.EditQueue.CollectImages | background/background.js:433-486 | step 6 equals `CollectStep` |
| Edit.EditQueue.RunVerified | background/background.js:359-499 | the run after the edit-mode check equals `VerifiedRun` |
| Edit.EditQueue.FinishEdit | background/background.js:415-499 | steps 5 to 7 equal `FinishRun` |
| Edit.EditQueue.ProcessEditQueue | background/background.js:319-509 | `processImageEditQueue` equals `EditRun`: guard, set-up checks, prompts, finishing steps, `finally` |
| EditProperties.EditStartResets | background/background.js:134-145 | `startImageEdit` resets cursor, log, images and error whatever the record held, and applies the delay default 5 and the folder default 'grok-edits' |
| EditProperties.PromptLabelParts | background/background.js:380 | a prompt label is "Prompt ", the number i + 1, then a tail starting with ':' |
| EditProperties.PromptLabelsDistinct | background/background.js:380 | labels of different prompt positions never coincide |
| EditProperties.PromptLabelNotFixed | background/background.js:380 | no prompt label is one of the run's fixed labels |
| EditProperties.FixedNotPromptLabel | background/background.js:380 | no fixed label is the label of any prompt |
| EditProperties.OwnLabelOnly | background/background.js:380 | prompt k's label is used by no later position |
| EditProperties.ShortPromptLabel | background/background.js:380 | a prompt of at most 40 characters appears whole in its label, without "..." |
| EditProperties.LongPromptLabel | background/background.js:380 | a longer prompt appears as its first 40 characters and "..." |
| EditProperties.PromptEntryShape | background/background.js:380-412 | a prompt's entry is under its label; it stays 'processing' exactly when every call for it succeeded (the reference click only after the first prompt), otherwise 'failed' with the first rejected call's message |
| EditProperties.StepPromptLog | background/background.js:379-412 | one prompt step writes that prompt's entry, sets the cursor to it, and leaves every other label alone |
| EditProperties.PromptsFromLogAt | background/background.js:373-413 | a failed prompt does not stop the loop: with no command before prompt m, the loop leaves prompt m's own entry in the log |
| EditProperties.PromptsFromSettings | background/background.js:373-413 | the prompt loop keeps the prompts, delay, tab, folder, error and images |
| EditProperties.CollectFromSettings | background/background.js:444-476 | the collection loop keeps the settings, the error and the pause flag |
| EditProperties.CollectStepSettings | background/background.js:433-486 | step 6 keeps the settings, the error and the pause flag |
| EditProperties.VerifiedRunSettings | background/background.js:359-499 | the run after the edit-mode check keeps the settings and the error |
| EditProperties.EditRunSettles | background/background.js:319-509 | a run never changes prompts, delay, tab or folder; past its guard it always ends with `isProcessing` cleared; a run that fails the guard changes nothing |
| EditProperties.CheckedRunSettings | background/background.js:328-499 | the outer `try` keeps the settings |
| EditProperties.PromptsFromOthers | background/background.js:373-413 | the prompt loop touches no label other than the prompts' |
| EditProperties.CollectFromOthers | background/background.js:444-476 | the collection loop touches no label other than the prompts' |
| EditProperties.FinishRunOthers | background/background.js:415-489 | steps 5 to 7 touch only the prompt labels and the wait and collect entries |
| EditProperties.CollectStepOthers | background/background.js:433-486 | step 6 touches only the prompt labels and the collect entry |
| EditProperties.VerifiedRunEditMode | background/background.js:359-489 | once edit mode is confirmed, its entry stays 'completed' whatever follows |
| EditProperties.SetupFailureEndsRun | background/background.js:328-508 | a failed set-up ends the run: the message becomes the error and is logged, no prompt is submitted, only the flags change otherwise |
| EditProperties.SetupPassed | background/background.js:328-359 | a passing set-up keeps the error and logs edit mode 'completed' |
| EditProperties.ControlHaltsPrompts | background/background.js:373-377 | a pause or stop during prompt n halts the prompt loop at the next boundary with the cursor there, paused exactly when the command was a pause |
| EditProperties.ControlEndsEditRun | background/background.js:319-509 | such a command before the last prompt ends the run with `isProcessing` cleared, no image and no wait or collect entry; even after a pause, a resume leaves the record as it is |
| EditProperties.CollectedCountMeans | background/background.js:444-447 | prompt p gets an image exactly when it is a prompt and thumbnail 2p exists |
| EditProperties.CollectedImages | background/background.js:444-470 | the collected images number at most one per prompt |
| EditProperties.CollectedImagesShape | background/background.js:444-470 | image k belongs to prompt k, is named for it and made from thumbnail 2k |
| EditProperties.CollectFromTake | background/background.js:444-474 | taking thumbnail 2p is one loop step that appends prompt p's image |
| EditProperties.CollectFromSkips | background/background.js:447 | past the last generated thumbnail the loop changes nothing |
| EditProperties.CollectFromImages | background/background.js:444-476 | the loop from p appends exactly the images of prompts p onwards |
| EditProperties.CollectedNamesDistinct | background/background.js:449 | the collected images have pairwise different file names |
| EditProperties.CollectFromMarksCompleted | background/background.js:472-474 | every prompt that gets an image ends 'completed' |
| EditProperties.FinishRunImages | background/background.js:415-489 | steps 5 to 7 append `CollectedFor` to the images and move the cursor past the prompts |
| EditProperties.FinishRunWaiting | background/background.js:417-431 | the wait entry settles with the outcome of waiting for the initial thumbnails plus two per prompt |
| EditProperties.WaitStepEntry | background/background.js:418-431 | the wait entry is 'completed', or 'failed' with the error |
| EditProperties.FinishRunCollectLog | background/background.js:433-486 | the collect entry ends as `CollectingEntry`, and every prompt that got an image is 'completed' |
| EditProperties.FinishRunCollectFailed | background/background.js:480-486 | without thumbnails the collect entry still ends as `CollectingEntry` |
| EditProperties.PromptsQuiet | background/background.js:373-413 | with no command the prompt loop runs to its end |
| EditProperties.EditRunCompletes | background/background.js:319-509 | a quiet run past a passing set-up submits every prompt, keeps `CollectedFor`, logs the wait's outcome, and ends neither processing nor paused, without error |
| EditProperties.FinishedRunFacts | background/background.js:415-509 | the flags, cursor, prompts and images after steps 5 to 7 and the `finally` |
| EditProperties.QuietRunFinishes | background/background.js:372-509 | a quiet run is the finishing steps applied to the record the prompt loop leaves |
| Popup.Truncate | popup/popup.js:119-123 | empty or missing gives ""; a string that fits is kept; a longer one becomes a prefix of it followed by "...", maxLength characters long (at least 3) |
| Popup.Clean | popup/popup.js:563 | at most one prompt per line |
| Popup.ImageFiles | popup/popup.js:237 | the files kept are exactly the image files |
| Popup.PopupPage.constructor | popup/popup.js:4-11 | the popup's variables as it opens |
| Popup.PopupPage.HandleFolderSelect | popup/popup.js:236-243 | the image files replace the selection, unless there are none |
| Popup.PopupPage.HandleFilesSelect | popup/popup.js:246-253 | the image files join the selection, unless there are none |
| Popup.PopupPage.ClearFiles | popup/popup.js:286-289 | empties the selection only |
| Popup.PopupPage.StartGeneration | popup/popup.js:301-337 | refused without files, off Grok or when a file cannot be read; otherwise sets the flags and status and sends the queue |
| Popup.PopupPage.TogglePause | popup/popup.js:340-353 | flips the pause flag, sets "Paused" or "Resuming..." and sends the matching request |
| Popup.PopupPage.StopGeneration | popup/popup.js:356-363 | when confirmed, clears both flags and sends the stop |
| Popup.PopupPage.StartImageEdit | popup/popup.js:651-677 | refused without prompts or off Grok; otherwise sets the flags and status and sends the prompts, delay and folder |
| Popup.PopupPage.ToggleEditPause | popup/popup.js:680-693 | flips the edit pause flag, sets the status and sends the matching request |
| Popup.PopupPage.StopImageEdit | popup/popup.js:696-703 | when confirmed, clears both edit flags and sends the stop |
| Popup.PopupPage.HandlePromptsFileUpload | popup/popup.js:611-627 | a read file's text follows the trimmed old prompts on a new line; no file or a failed read changes nothing |
| Popup.PopupPage.RefreshState | popup/popup.js:157-217 | both halves of the refresh, in order |
| Popup.PopupPage.RefreshVideo | popup/popup.js:160-178 | video flags from the reply, and the status line when `VideoStatus` gives one |
| Popup.PopupPage.RefreshEdit | popup/popup.js:187-208 | edit flags from the reply, and the status line when `EditStatus` gives one |
| PopupProperties.CleanAppend | popup/popup.js:563 | cleaning two line lists is cleaning each |
| PopupProperties.CleanSplitConsWhitespace | popup/popup.js:560-564 | a leading white-space character changes no prompt |
| PopupProperties.CleanSnocLast | popup/popup.js:563 | white space added to the last line changes no prompt |
| PopupProperties.CleanSplitSnocWhitespace | popup/popup.js:560-564 | a trailing white-space character changes no prompt |
| PopupProperties.CleanSplitSnocNewline | popup/popup.js:563 | a trailing line break changes no prompt |
| PopupProperties.CleanSplitLead | popup/popup.js:560-564 | leading white space changes no prompt |
| PopupProperties.CleanSplitTrail | popup/popup.js:560-564 | trailing white space changes no prompt |
| PopupProperties.GetEditPromptsAsClean | popup/popup.js:560-564 | trimming the whole text first makes no difference |
| PopupProperties.CleanGivesPrompts | popup/popup.js:563 | every cleaned line is non-empty, has no white-space margin and no line break |
| PopupProperties.PromptsAreClean | popup/popup.js:560-564 | every prompt is one non-empty line without white-space margins |
| PopupProperties.BlankTextNoPrompts | popup/popup.js:560-564 | white-space-only text holds no prompt |
| PopupProperties.CleanOfPrompts | popup/popup.js:563 | a list of prompts cleans to itself |
| PopupProperties.SplitNoSeparator | popup/popup.js:563 | text without a line break is one line |
| PopupProperties.SplitJoin | popup/popup.js:563 | splitting lines joined by the separator gives them back |
| PopupProperties.PromptsRoundTrip | popup/popup.js:560-564 | a prompt list written one per line reads back as the same list |
| PopupProperties.PromptsIdempotent | popup/popup.js:560-564 | writing the prompts back one per line and reading them again changes nothing |
| PopupProperties.UploadAppendsPrompts | popup/popup.js:611-627 | after an upload the prompts are the old prompts followed by the file's |
| PopupProperties.UploadedPrompts | popup/popup.js:611-627 | the handler changes only the prompt box, appending the file's prompts, and a failed upload adds none |
| PopupProperties.ImageFilesAppend | popup/popup.js:237 | filtering a concatenation is filtering each part |
| PopupProperties.ImageFilesOfImages | popup/popup.js:256-258 | filtering image files changes nothing |
| PopupProperties.SelectionStaysImages | popup/popup.js:236-253 | the selection holds only image files, and adding files equals filtering the old selection with the new files |
| PopupProperties.BuildQueueShape | popup/popup.js:313-321 | the queue exists exactly when every file is read; one item per file, in order, with its name and data; no two output names coincide |
| PopupProperties.ButtonsConsistent | popup/popup.js:411-433 | start never enabled beside pause or stop; pause and stop enabled exactly while running; "Resume" exactly while paused; inputs locked and warning shown exactly while running; when idle, clear disabled exactly when there is no input |
| PopupProperties.VideoStartEnabledIffSent | popup/popup.js:301-337 | when idle and the files are readable, the start button is enabled exactly when pressing it sends the queue |
| PopupProperties.EditStartEnabledIffSent | popup/popup.js:751-774 | when idle, the edit start button is enabled exactly when pressing it sends the prompts |
| PopupProperties.StartLocksControls | popup/popup.js:301-337 | an accepted start sends every selected file and leaves only pause and stop enabled |
| PopupProperties.EditStartLocksControls | popup/popup.js:651-677 | an accepted edit start sends the clean prompt list and leaves only pause and stop enabled |
| PopupProperties.TogglePauseTwice | popup/popup.js:340-353 | two presses restore the flag, sending one pause and one resume; the button then reads the other action |
| PopupProperties.ToggleEditPauseTwice | popup/popup.js:680-693 | the same for the edit run |
| PopupProperties.StopFreesControls | popup/popup.js:356-363 | a confirmed stop frees the controls at once; a cancelled one does nothing |
| PopupProperties.StopEditFreesControls | popup/popup.js:696-703 | the same for the edit run |
| PopupProperties.VideoStatusCases | popup/popup.js:169-178 | "Paused" exactly when paused; "Complete!" exactly when idle with a counter above zero; the line is left alone exactly when processing past the queue's end or idle with a zero counter |
| PopupProperties.EditStatusCases | popup/popup.js:195-208 | "Paused" exactly when paused; the error text exactly when idle with an error; "Complete!" when idle, error-free and past the last prompt; "Stopped" otherwise when the run was active before |
| PopupProperties.CompletedEditShowsComplete | popup/popup.js:195-208 | an edit run that goes through every prompt shows "Complete!" and frees the controls |
| PopupProperties.PausedEditCannotResume | popup/popup.js:187-208 | a pause ends the edit run: the popup shows "Paused" with its pause button disabled, and a resume would do nothing |
| PopupProperties.StoppedEditShowsStopped | popup/popup.js:205-207 | a stop during an edit run shows "Stopped" |
| PopupProperties.StoppedVideoShowsComplete | popup/popup.js:175-177 | a stopped video run shows "Complete!" although the queue was not finished |

## Left out

- Timestamps of log entries: `Date.now()` is a clock. Without them, `addLogEntry` and `updateLogEntry` (and the edit pair) have the same effect on the model, which `UpdateLogEntry` states.
- The storage load at start-up (background/background.js:31-36): it can replace the initial record with the one `saveState` saved, which holds everything but `generatedVideos` (background/background.js:39-43), so a restarted worker may report `isProcessing` with no loop running. It is not modelled; the constructor of `Video.VideoQueue` is the declared record (background/background.js:4-15).
- `saveState`, `console` output, notifications, and `sleep` or the edit delay's timing: side effects with no influence on the modelled state.
- Concurrency: a handler running while a loop awaits is modelled only as pause and stop commands handled after the awaited step. Two runs of the same loop at once, from a resume while a loop is still running, are not modelled.
- The injection of the content script by `chrome.scripting` is reduced to the outcome of the second `ping`.
- `contentScriptLoaded`, the default branch, and the tab-update listener: they only answer `{ success: true }` or log.
- The `goBack` call between items has no effect on the state, so its outcome is not part of the environment.
- Thumbnails are represented by their `src` strings only. A selected file is its `File` object (`handle`), name and MIME type.
- Downloads: `downloadFile` is given as the list of save requests, URL and path (`DownloadTargets`); whether the browser saves a file is not modelled. The popup's zip and download code is not part of this model.
- The DOM: progress bars, log lists, image previews and HTML rendering. The popup's inputs are the values its handlers read.
- `alert` and `confirm`: `confirm` is the `confirmed` parameter.
- `fileToBase64`: it is the `read` parameter, which yields the data URL or nothing when reading fails (the promise rejects).
- `file.text()`: it is given as a `Result` parameter of `HandlePromptsFileUpload`.
- The `status: 'pending'` field of queue items, which the background never reads.
- `checkGrokPage`: the constructor of `Popup.PopupPage` takes the tab and the badge it produces (`currentTabId` from the tab query, `onGrok` from the URL).
- `loadState` and `loadEditState`: they set the flags the way the halves of `RefreshState` do, and they fill the form fields (with the `'16:9'` and `'grok-videos'` defaults) from the reply; filling the form is not modelled.
- `saveSettings`: it sends the message that `Video.VideoQueue.UpdateSettings` handles; the popup side of it is not modelled. `updateEditPromptsCount` only writes a count into the page.
- The image fetch of the edit run is given per prompt position (`EditEnv.fetch`), so two prompts with the same thumbnail URL may fetch differently, as two network calls can.
- String lengths are counted in Dafny characters, not UTF-16 code units; `trim` uses the ECMAScript white-space set over Dafny characters.
- `parseInt` of the delay field: the popup's delay is an integer parameter. A NaN delay is not modelled.
- Video.VideoQueue.RunItems: the in-loop guard of `processQueue` is the loop condition; this is equivalent because the guard is the loop's only exit besides its bound.
- Edit.EditQueue.RunPrompts: likewise, the in-loop guard of the prompt loop is the loop condition.
- Commands that arrive during the setup calls are applied at one point of each run: the video run applies them after the setup step has logged any failure (`Video.SetupJob`), and the edit run applies them before its set-up checks (`Edit.EditRun`). The order does not matter in either run: the setup steps touch only the log and the error, and the flags are first read by the item or prompt loop.
