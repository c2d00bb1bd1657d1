# MouthWrite core, modelled in Dafny

MouthWrite is a push-to-talk dictation tool. Holding the global hotkey records
the microphone. Releasing it sends the recording to a speech-recognition (ASR)
service over an OpenAI-compatible streaming chat endpoint. The transcript can
then be refined by a language model, using recent history as context. The
result is copied to the clipboard and pasted into the focused window. A
floating window shows each stage, and a button translates the result.

This project models the core of that program:

- the session controller, a state machine over the floating window's states;
- the floating window's block bookkeeping and height arithmetic;
- the hotkey latch;
- the transcription history;
- the audio recorder;
- the two streaming clients and the line loop they share;
- the configuration tree with its dotted-key access and default merging;
- the ICO writer of the icon script.

One Dafny module per source file:

| module | file | source |
|---|---|---|
| `Json` | json.dfy | decoded JSON values and Python truthiness |
| `Text` | text.dfy | the Python string operations the core uses |
| `EventStream` | event_stream.dfy | the `data:` line loop of both workers |
| `AsrClient` | asr_client.dfy | core/asr_client.py |
| `LlmClient` | llm_client.dfy | core/llm_client.py |
| `Configuration` | config.dfy | config.py |
| `History` | history.dfy | core/history.py |
| `Hotkey` | hotkey.dfy | core/hotkey.py |
| `Audio` | audio.dfy | core/audio.py |
| `MainWindow` | main_window.dfy | gui/main_window.py |
| `Session` | controller.dfy | core/controller.py |
| `GenIcon` | gen_icon.dfy | scripts/gen_icon.py |

Pure code (the tag cleaner, prompt building, the line loop, config paths,
the hotkey transitions, the ICO layout) is written as functions, with lemmas
about them. Objects whose methods update their own fields are classes:

- `HotkeyListener`, `HistoryManager`, `AudioRecorder`;
- `TextBlock`, `FloatingWindow`, `Config`;
- `Controller`.

Their methods are proved against those functions. Loops in the source are
`while` loops with invariants:

- the walk of `Config.get` and the recursive default merge;
- the height loop of `_reposition`;
- the frame sum of `get_duration`;
- the line loop of the workers;
- the history-line loop of `_build_optimize_prompt`;
- the entry loop of `build_ico`.

Qt's single-shot timers are a multiset `pending` of timers started but not yet
fired. Firing one is an event method of `Controller`. A worker is the request
it was created with. Its signals arrive as the `OnAsr…`, `OnOptimize…` and
`OnTranslate…` events.

Where the code and its description differ, the model follows the code:

- `_build_optimize_prompt` in the controller formats the module-level
  templates itself. It never passes the rules override that
  `build_optimize_prompt` supports. `Session.PromptWithRecentIsClientPrompt`
  proves that the two agree when there is no override.
- `clean_asr_output` makes a single regular-expression pass. Nested tags
  therefore survive partly: `AsrClient.NestedTagsNotIdempotent`.
- `Config.get` treats a stored `null` like a missing key and returns the
  default.

## Model

| member | source | states |
|---|---|---|
| Text.Strip | core/asr_client.py:31 | `strip()` never lengthens the text and leaves no whitespace at either end |
| Text.StripIsInfix | core/asr_client.py:31 | the stripped text is a contiguous piece of the input with only whitespace before and after it |
| Text.StripIdempotent | core/llm_client.py:79 | stripping twice is stripping once |
| Text.Lower | core/asr_client.py:20 | lower-casing keeps the length |
| Text.RStripChar | core/asr_client.py:50 | `rstrip("/")` keeps a prefix, drops only slashes, and the result does not end in a slash |
| Text.Split | config.py:96 | `split(".")` gives at least one segment, none holding a dot, and joining them with "." gives the key back |
| Text.SplitJoin | config.py:96 | splitting a join of dot-free segments gives the segments back (the other half of the round trip) |
| Text.ConcatAppend | core/asr_client.py:125 | accumulating one more chunk appends it to the concatenation |
| Text.ContainsInfix | core/asr_client.py:21 | a string occurs in any text built around it |
| EventStream.Classify | core/asr_client.py:121-128 | a decoded chunk contributes content only when that content is non-empty |
| EventStream.Run | core/llm_client.py:145-159 | the line loop yields exactly the emitted chunks, text and end status of the fold over the lines |
| EventStream.FoldUnfold | core/asr_client.py:114-128 | the fold over lines `i..` is line `i`'s step applied to the fold over the rest |
| EventStream.FoldTextIsConcat | core/asr_client.py:124-126 | the accumulated text is the concatenation of the emitted chunks, and no emitted chunk is empty |
| EventStream.DoneEndsStream | core/asr_client.py:118-119 | lines after the first `[DONE]` have no effect |
| EventStream.NonDataLineSkipped | core/asr_client.py:115-116 | a line without the `data: ` prefix can be removed without changing the outcome |
| EventStream.AbortEndsInError | core/asr_client.py:120-133 | a chunk whose handling escapes the inner `except` ends the run with that failure, after the chunks emitted before it |
| EventStream.NoStopCompletes | core/asr_client.py:114-131 | a run in which no line stops the loop completes normally |
| EventStream.ChatUrl | core/llm_client.py:122-128 | the URL ends in `/chat/completions`, after the base URL without its trailing slashes |
| EventStream.ThenAssoc | core/asr_client.py:125-126 | emitting a chunk and then the rest equals emitting the rest after a longer prefix |
| AsrClient.MarkerSelectsDashScope | core/asr_client.py:15-21 | a base URL containing "dashscope" or "aliyuncs" in any ASCII letter case selects the DashScope shape |
| AsrClient.NoMarkerSelectsVllm | core/asr_client.py:15-21 | a base URL containing neither marker selects the vLLM shape (the converse) |
| AsrClient.FirstBar | core/asr_client.py:30 | finds the first `\|`, or reports that there is none |
| AsrClient.TagAt | core/asr_client.py:30 | a tag the pattern matches at the front starts with `<\|`, ends with `\|>` and is at least four characters long |
| AsrClient.RemoveTags | core/asr_client.py:30 | the substitution never lengthens the text |
| AsrClient.Clean | core/asr_client.py:24-31 | the cleaned transcript is no longer than the input and has no edge whitespace |
| AsrClient.NoTagOpenerUnchanged | core/asr_client.py:30 | text without `<\|` is left as it is by the substitution |
| AsrClient.CleanWithoutTagsTrims | core/asr_client.py:24-31 | text without `<\|` is only stripped |
| AsrClient.TagDropped | core/asr_client.py:30 | a `<\|name\|>` tag at the front is removed and the scan continues after it |
| AsrClient.PlainKept | core/asr_client.py:30 | text without `<` passes through the substitution unchanged |
| AsrClient.RemoveTagsRender | core/asr_client.py:30 | on text made of plain runs and `<\|name\|>` tags, the substitution leaves exactly the plain runs |
| AsrClient.StripKeepsAbsentChar | core/asr_client.py:31 | stripping introduces no character that was not there |
| AsrClient.CleanRenderIdempotent | core/asr_client.py:24-31 | cleaning a tagged transcript gives its stripped plain text, and cleaning again changes nothing |
| AsrClient.CleanLanguageTagged | core/asr_client.py:27-31 | `<\|zh\|>text<\|endoftext\|>` cleans to the stripped text |
| AsrClient.NestedTagsNotIdempotent | core/asr_client.py:30-31 | with nested tags one pass leaves `<\|\|>`, which a second pass removes: cleaning is not idempotent in general |
| AsrClient.InnerTagRemoved | core/asr_client.py:30 | the scan on `<\|<\|x\|>\|>` matches the inner tag and keeps the outer delimiters |
| AsrClient.PayloadShape | core/asr_client.py:56-98 | the payload has exactly the selected shape, the given model, streaming on, and carries the recording's `data:` URI |
| AsrClient.ShapesDisjoint | core/asr_client.py:60-97 | no payload has both shapes |
| AsrClient.BuildRequest | core/asr_client.py:41-54 | the request goes to the chat URL, has the DashScope shape exactly when the stripped base URL has a marker, carries the recording's URI and the bearer key |
| AsrClient.RunWorker | core/asr_client.py:100-133 | the worker loop yields the outcome of the fold: the chunks, then the cleaned text, or an error |
| AsrClient.FinishedIsCleanedChunks | core/asr_client.py:124-131 | the finished text is the cleaned concatenation of the emitted chunks, none of them empty |
| LlmClient.FormatAppend | core/llm_client.py:92-93 | formatting two templates back to back is formatting each of them in turn |
| LlmClient.EffectiveRules | core/llm_client.py:79 | a non-blank override, stripped, replaces the built-in rules; a missing or blank override falls back to them |
| LlmClient.BuildOptimizePrompt | core/llm_client.py:69-103 | the prompt opens with the rules in force and ends with the text, then the closing instruction |
| LlmClient.PromptAfterRules | core/llm_client.py:80-103 | whichever template applies, the prompt opens with the rules and ends with the text and the closing line |
| LlmClient.PromptAfterRulesAsTemplate | core/llm_client.py:80-103 | with and without history, the prompt is the rules followed by that template formatted with its values |
| LlmClient.DefaultRulesUsePlainTemplate | core/llm_client.py:46-50 | with the built-in rules and no history, the prompt is `OPTIMIZE_PROMPT.format(text=...)` |
| LlmClient.DefaultRulesUseHistoryTemplate | core/llm_client.py:52-61 | with the built-in rules and a history, the prompt is `OPTIMIZE_PROMPT_WITH_HISTORY.format(...)` |
| LlmClient.EmptyHistoryIsNoHistory | core/llm_client.py:80 | an empty history gives the same prompt as none |
| LlmClient.OverrideOpensPrompt | core/llm_client.py:79 | a non-blank override opens the prompt, stripped |
| LlmClient.BuildTranslatePrompt | core/llm_client.py:63-66 | the translation prompt names the target language first and ends with the text |
| LlmClient.PayloadCarriesPrompt | core/llm_client.py:133-137 | the payload holds the model, streaming on, and a single user message whose content is the prompt |
| LlmClient.BuildRequest | core/llm_client.py:113-137 | the request goes to the chat URL, carries the prompt and the bearer key |
| LlmClient.RunWorker | core/llm_client.py:127-163 | the worker loop yields the outcome of the fold: the chunks, then the full text, or an error |
| LlmClient.FinishedIsChunks | core/llm_client.py:155-161 | the finished text is exactly the concatenation of the emitted chunks, none of them empty |
| Configuration.Walk | config.py:97-105 | a walk that finds something below the root never finds `null` |
| Configuration.WalkFindsStored | config.py:97-105 | along a path whose values are present and not null, `get` finds what is stored |
| Configuration.GetDefault | config.py:94-105 | `get` returns the default exactly when the walk fails; otherwise never `null` |
| Configuration.SetFailsIffBlocked | config.py:107-113 | `set` raises exactly when some existing prefix of the path holds a non-object |
| Configuration.SetFreshSucceeds | config.py:110-113 | setting below missing keys always succeeds |
| Configuration.SetThenAt | config.py:107-113 | after a successful `set`, the value is stored at the path, and `get` finds it unless it is `null` |
| Configuration.SetLeavesOthers | config.py:107-113 | a successful `set` leaves every path that parts from its own unchanged |
| Configuration.Merge | config.py:78-83 | the merged tree has exactly the keys of the data and of the defaults |
| Configuration.MergeKeeps | config.py:79-83 | a value already present is kept, and only objects present in both are merged into |
| Configuration.MergeCovers | config.py:78-83 | every default path exists after the merge, unless an existing non-object blocks it |
| Configuration.MergeIdempotent | config.py:74-83 | merging the defaults a second time changes nothing |
| Configuration.MergeSelf | config.py:78-83 | merging a tree with itself gives it back |
| Configuration.MergeInto | config.py:78-83 | the key-by-key loop computes the recursive merge |
| Configuration.Config.constructor | config.py:8-33 | a fresh settings object holds the defaults |
| Configuration.Config.Get | config.py:94-105 | the segment loop returns what the walk over the split key gives, or the default |
| Configuration.Config.Set | config.py:107-113 | on success the tree becomes the `set` result; on failure nothing changes |
| Configuration.Config.MergeDefaults | config.py:75-83 | the tree becomes its merge with `DEFAULT_CONFIG` |
| History.NewRecord | core/history.py:63-69 | the record has the given texts and time, and carries a translation exactly when one was given |
| History.Added | core/history.py:70-72 | the new record is first, followed by the old records, cut to 500 |
| History.AddedDropsOnlyOldest | core/history.py:70-72 | below the cap nothing is dropped; at the cap only the oldest record is dropped |
| History.WithLastTranslation | core/history.py:75-79 | only the newest record gets the translation; an empty list stays empty |
| History.Prefix | core/history.py:81-82 | `records[:n]` is a prefix of the list; a negative `n` counts from the end |
| History.HistoryManager.constructor | core/history.py:26-29 | a new manager holds no records (loading is left out) |
| History.HistoryManager.AddRecord | core/history.py:56-73 | the list becomes the record list with the new record added |
| History.HistoryManager.UpdateLastTranslation | core/history.py:75-79 | the list becomes the list with the newest translation set |
| History.HistoryManager.GetRecent | core/history.py:81-82 | returns `records[:n]` |
| History.HistoryManager.GetAll | core/history.py:84-85 | returns every record |
| History.HistoryManager.Clear | core/history.py:87-89 | leaves no records |
| Hotkey.TargetKeys | core/hotkey.py:19-50 | an unknown or right-Alt name falls back to both right-Alt keys; never empty |
| Hotkey.ModifierKeys | core/hotkey.py:19-53 | an unknown modifier name falls back to right Ctrl; never empty |
| Hotkey.Initial | core/hotkey.py:41-59 | the listener starts unlatched, out of dismiss mode, with no translate request, satisfying the latch invariant |
| Hotkey.PressPreservesInv | core/hotkey.py:101-121 | a key-down keeps the latch invariant |
| Hotkey.ReleasePreservesInv | core/hotkey.py:123-130 | a key-up keeps the latch invariant |
| Hotkey.UpdatePreservesInv | core/hotkey.py:79-88 | changing the hotkey keeps the invariant and unlatches |
| Hotkey.TargetDown | core/hotkey.py:105-112 | a hotkey key-down while unlatched latches and notifies `pressed`; while latched it does nothing |
| Hotkey.ComboFlag | core/hotkey.py:107-117 | the translate request is armed by a modifier already held when latching, or pressed while latched |
| Hotkey.DismissOnlyForOtherKeys | core/hotkey.py:113-121 | dismiss is notified exactly for other keys in dismiss mode |
| Hotkey.KeyUp | core/hotkey.py:123-130 | a hotkey key-up while latched unlatches, notifies `released` and hands over the translate request; unlatched, it only forgets the key |
| Hotkey.ConsumeTwice | core/hotkey.py:90-94 | reading the translate request resets it: a second read is false |
| Hotkey.UpdateKeeps | core/hotkey.py:79-88 | changing the hotkey drops the latch and pressed keys and keeps dismiss mode |
| Hotkey.ReplayAlternates | core/hotkey.py:101-130 | over any key-event sequence, `pressed` and `released` notifications alternate |
| Hotkey.HotkeyListener.constructor | core/hotkey.py:41-59 | the fields form the initial latch for the configured names |
| Hotkey.HotkeyListener.UpdateHotkey | core/hotkey.py:79-88 | the fields become the state after the hotkey change |
| Hotkey.HotkeyListener.ConsumeTranslateRequest | core/hotkey.py:90-94 | returns the request and resets it, as the transition function says |
| Hotkey.HotkeyListener.SetDismissMode | core/hotkey.py:96-98 | dismiss mode becomes the given flag |
| Hotkey.HotkeyListener.OnPress | core/hotkey.py:101-121 | the new fields and notification are the key-down transition |
| Hotkey.HotkeyListener.OnRelease | core/hotkey.py:123-130 | the new fields and notification are the key-up transition |
| Audio.TotalSamples | core/audio.py:78-81 | no blocks hold no samples |
| Audio.TotalSamplesAppend | core/audio.py:53-57 | a new block adds its length to the total |
| Audio.Duration | core/audio.py:76-81 | the duration is 0 with no blocks and never negative |
| Audio.TooShortIsUnderThreeTenths | core/controller.py:225 | the integer test on samples holds exactly when the duration is below 0.3 s |
| Audio.AudioRecorder.constructor | core/audio.py:17-23 | a new recorder is idle, with no stream and no blocks |
| Audio.AudioRecorder.Start | core/audio.py:26-40 | the blocks are emptied; recording exactly when the stream started, and an error otherwise |
| Audio.AudioRecorder.Stop | core/audio.py:42-50 | recording stops and the stream is gone; the blocks are kept |
| Audio.AudioRecorder.Callback | core/audio.py:53-57 | the block is kept only while recording, and the total grows by its length |
| Audio.AudioRecorder.GetAudioBase64 | core/audio.py:60-74 | "" without blocks, else the encoding of the blocks |
| Audio.AudioRecorder.GetDuration | core/audio.py:76-81 | the summing loop gives the recording's duration |
| MainWindow.BlockHeight | gui/main_window.py:135-142 | a block is 32 pixels taller than its text |
| MainWindow.ChromeHeight | gui/main_window.py:409-419 | the fixed part is 106 pixels with the translate button and 72 without |
| MainWindow.IdealHeight | gui/main_window.py:430 | the ideal height is never below the fixed part |
| MainWindow.Clamp | gui/main_window.py:431-432 | the height lies between 60 and the maximum, equals the ideal height when that is in range, and the nearer bound otherwise |
| MainWindow.FloorNeverApplies | gui/main_window.py:430-432 | the 60-pixel floor never takes effect |
| MainWindow.ContentHeightAppend | gui/main_window.py:421-428 | one more block adds its height and one divider if blocks were there |
| MainWindow.ContentHeightOrderFree | gui/main_window.py:421-428 | the content height depends only on which texts are shown, not on their order |
| MainWindow.Ordered | gui/main_window.py:421-428 | the texts appear in the dict's key order |
| MainWindow.ShowButton | gui/main_window.py:366-368 | the button is shown exactly for an untranslated "done" |
| MainWindow.AddKeepsConsistent | gui/main_window.py:306-318 | adding a block keeps the dict, its key order and the divider count consistent |
| MainWindow.TextBlock.constructor | gui/main_window.py:44-76 | a new block is empty |
| MainWindow.TextBlock.SetText | gui/main_window.py:105-107 | the text becomes the given one |
| MainWindow.TextBlock.AppendText | gui/main_window.py:109-111 | the text is extended by the given one |
| MainWindow.TextBlock.GetText | gui/main_window.py:113-114 | returns the text |
| MainWindow.TextBlock.CalcBlockHeight | gui/main_window.py:135-142 | returns the block height of its text |
| MainWindow.FloatingWindow.OrderedTexts | gui/main_window.py:421-428 | one text per block, in key order |
| MainWindow.FloatingWindow.constructor | gui/main_window.py:159-184 | a new window has no state, blocks or dividers, is untranslated and hidden, with auto-scroll on |
| MainWindow.FloatingWindow.DeferReflow | gui/main_window.py:389-392 | auto-scroll is on and a reflow is pending |
| MainWindow.FloatingWindow.AddBlock | gui/main_window.py:306-318 | a fresh empty block replaces or joins the dict; a new kind goes last; a divider is added when blocks existed |
| MainWindow.FloatingWindow.AppendToBlock | gui/main_window.py:320-324 | only that block's text grows; a missing kind changes nothing |
| MainWindow.FloatingWindow.SetBlockText | gui/main_window.py:326-330 | only that block's text is replaced; a missing kind changes nothing |
| MainWindow.FloatingWindow.GetBlockText | gui/main_window.py:332-334 | the block's text, or "" for a missing kind |
| MainWindow.FloatingWindow.ClearBlocks | gui/main_window.py:341-350 | no blocks, no dividers, not translated |
| MainWindow.FloatingWindow.SetState | gui/main_window.py:355-368 | the state is set and the button shown exactly for an untranslated "done" |
| MainWindow.FloatingWindow.MarkTranslated | gui/main_window.py:377-379 | translated, and the button hidden |
| MainWindow.FloatingWindow.ContentHeightNow | gui/main_window.py:421-428 | the loop computes the content height of the blocks in order |
| MainWindow.FloatingWindow.Reposition | gui/main_window.py:394-448 | the height becomes the clamped ideal height; auto-scroll goes off when everything fits on a screen |
| MainWindow.FloatingWindow.OnReflowTimer | gui/main_window.py:389-394 | the pending reflow runs `_reposition` |
| MainWindow.FloatingWindow.ShowAtBottomCenter | gui/main_window.py:384-387 | the window is visible and sized to its content |
| MainWindow.FloatingWindow.Close | gui/main_window.py:467-469 | the window is hidden |
| Session.Path | core/controller.py:238-240 | every setting the controller reads is a two-segment key without dots |
| Session.DottedKeyWalksPath | core/controller.py:238-240 | `config.get` on the dotted key walks exactly those two segments |
| Session.WorkerNeedsStringUrl | core/asr_client.py:41-50 | a worker is created exactly when the stored base URL is a string; with no `asr` or `llm` section there is none |
| Session.HistoryLines | core/controller.py:284-286 | one `[time] optimized_text` line per recent record, in order |
| Session.HistoryText | core/controller.py:283-287 | there is a history block exactly when there are recent records, and it starts with `[` |
| Session.Recent | core/controller.py:281-282 | `get_recent(ctx_count)` is a prefix of the records; a count that cannot slice raises |
| Session.PromptWithRecentIsClientPrompt | core/controller.py:279-291 | the controller's prompt equals `build_optimize_prompt` with the same history and no override |
| Session.TranslationSource | core/controller.py:339-341 | the optimised text wins; there is nothing to translate only when both texts are empty |
| Session.Controller.constructor | core/controller.py:43-94 | a new controller is idle, with empty buffers, no workers, no timers and dismiss mode off |
| Session.Controller.Stop | core/controller.py:100-104 | the recorder stops and dismiss mode goes off |
| Session.Controller.StartDismissMode | core/controller.py:112-120 | the mouse listener runs and the hotkey listener is in dismiss mode |
| Session.Controller.StopDismissMode | core/controller.py:122-126 | the mouse listener is gone and dismiss mode is off |
| Session.Controller.DismissWindow | core/controller.py:165-169 | dismiss mode goes off and the window is hidden |
| Session.Controller.OnKeyboardDismiss | core/controller.py:145-149 | a visible window in "done" or "error" is closed; otherwise nothing changes |
| Session.Controller.OnMouseDismiss | core/controller.py:151-159 | the check is scheduled |
| Session.Controller.FireCheckMouseDismiss | core/controller.py:161-163 | the same rule as the keyboard dismiss, when the timer fires |
| Session.Controller.OnKeyPressed | core/controller.py:180-209 | ignored while a session runs; otherwise the buffers and window are reset, and the session runs exactly when recording started |
| Session.Controller.StartSession | core/controller.py:190-209 | resets the buffers and blocks, shows "listening", and starts recording |
| Session.Controller.ResetSession | core/controller.py:190-206 | busy, dismiss mode off, empty buffers and blocks, state "listening" |
| Session.Controller.OnAudioError | core/controller.py:426-431 | "error" is shown, the session ends and dismiss mode goes on |
| Session.Controller.RecordingTooShort | core/controller.py:225 | the recording is too short exactly when it lasts under 0.3 s |
| Session.Controller.OnKeyReleased | core/controller.py:214-247 | ignored outside a session; a short or empty recording closes the window; otherwise "recognizing", an empty "asr" block, and an ASR worker for the recording, none when the stored `asr.base_url` is not a string |
| Session.Controller.SubmitRecording | core/controller.py:225-247 | a discarded recording ends the session; otherwise the ASR worker is created, unless `asr.base_url` is not a string and its constructor raises |
| Session.Controller.StartAsrWorker | core/controller.py:237-247 | the worker gets the ASR settings and the recording; a base URL that is not a string (None when missing) makes the constructor raise and the previous worker stays |
| Session.Controller.OnAsrChunk | core/controller.py:249-253 | the "asr" block shows the cleaned text received so far; other blocks unchanged |
| Session.Controller.OnAsrDone | core/controller.py:255-267 | without a key the text is recorded, copied and pasted; with one, optimisation is scheduled |
| Session.Controller.FinishUnoptimized | core/controller.py:260-265 | the raw text is recorded as its own refinement, copied, and pasted |
| Session.Controller.OnAsrError | core/controller.py:269-274 | the "asr" block shows the error, "error" is shown, the session ends, dismiss mode on |
| Session.Controller.BuildOptimizePrompt | core/controller.py:279-291 | the prompt from the recent history and the raw text, or None where Python raises |
| Session.Controller.FireStartOptimization | core/controller.py:293-308 | "optimizing", an empty "optimize" block, and a worker for the prompt unless the prompt or the worker constructor raises |
| Session.Controller.ShowOptimizing | core/controller.py:294-295 | "optimizing" is shown and the "optimize" block added |
| Session.Controller.StartOptimizer | core/controller.py:297-308 | the worker is created for the prompt, unless building it raises or `llm.base_url` is not a string |
| Session.Controller.StartLlmWorker | core/controller.py:298-304 | the worker gets the language-model settings and the prompt; a base URL that is not a string (None when missing) makes the constructor raise and the previous worker stays |
| Session.Controller.OnOptimizeChunk | core/controller.py:310-312 | the chunk is appended to the "optimize" block only |
| Session.Controller.OnOptimizeDone | core/controller.py:314-319 | the pair is recorded, the refinement copied, and the paste scheduled |
| Session.Controller.OnOptimizeError | core/controller.py:321-325 | the error is shown in the block, and the raw text is copied and pasted |
| Session.Controller.FinishWithPaste | core/controller.py:385-395 | copied, "done", and the paste scheduled |
| Session.Controller.FireAutoPaste | core/controller.py:402-414 | the paste timer is replaced by the dismiss-mode timer |
| Session.Controller.FireEnableDismiss | core/controller.py:413-414 | dismiss mode goes on |
| Session.Controller.OnTranslate | core/controller.py:330-359 | dismiss mode off; without a key or text nothing else changes; otherwise "translating", an empty "translate" block and a worker for the translation prompt, none when `llm.base_url` is not a string |
| Session.Controller.StartTranslation | core/controller.py:334-359 | the branches of `_on_translate` after dismiss mode has gone off |
| Session.Controller.LaunchTranslation | core/controller.py:346-359 | "translating", an empty "translate" block, and a translating worker, none when `llm.base_url` is not a string |
| Session.Controller.OnTranslateChunk | core/controller.py:361-363 | the chunk is appended to the "translate" block only |
| Session.Controller.OnTranslateDone | core/controller.py:365-374 | copied, added to the newest record, marked translated, "done", dismiss mode on |
| Session.Controller.OnTranslateError | core/controller.py:376-380 | the error is shown in the block, "error", dismiss mode on |
| Session.Controller.ResetAndClose | core/controller.py:416-418 | the session ends and the window is hidden |
| Session.Controller.CloseWindow | gui/main_window.py:467-469 | the window is hidden, and its close event ends the session and dismiss mode |
| Session.Controller.OnWindowKeyPress | gui/main_window.py:464-465 | any key in the window closes it, with the close event's effects |
| Session.Controller.OnWindowClosed | core/controller.py:420-424 | the session ends and dismiss mode goes off |
| GenIcon.LittleEndian | scripts/gen_icon.py:85-95 | a field of `width` bytes |
| GenIcon.LittleEndianRoundTrip | scripts/gen_icon.py:85-95 | a value that fits its field reads back as itself |
| GenIcon.Dimension | scripts/gen_icon.py:83-84 | 0 for 256 and above, else the size |
| GenIcon.EntriesFitMeans | scripts/gen_icon.py:85-98 | when packing succeeds, every size is non-negative and every length and offset fits 32 bits |
| GenIcon.Header | scripts/gen_icon.py:73 | the header is 6 bytes |
| GenIcon.Entry | scripts/gen_icon.py:85-95 | an entry is 16 bytes |
| GenIcon.Entries | scripts/gen_icon.py:79-96 | 16 bytes per image |
| GenIcon.ImageData | scripts/gen_icon.py:80-97 | as long as all the PNGs together |
| GenIcon.BuildIco | scripts/gen_icon.py:68-100 | the loop writes the header, the directory and the images; the file is 6 + 16n bytes plus the PNG lengths |
| GenIcon.BuildStep | scripts/gen_icon.py:96-98 | one loop turn extends the entries, the data and the offset by one image |
| GenIcon.IcoHeader | scripts/gen_icon.py:73 | the file opens with 0, 1 and the image count, little-endian |
| GenIcon.IcoEntry | scripts/gen_icon.py:76-98 | entry `i` of the file is the entry for image `i` at its offset |
| GenIcon.IcoImage | scripts/gen_icon.py:76-100 | image `i`'s bytes sit in the file at the offset its entry records |
| GenIcon.EntryLengthAndOffset | scripts/gen_icon.py:93-94 | an entry's last eight bytes read back as the length and the offset |
| GenIcon.EntryFixedFields | scripts/gen_icon.py:87-92 | an entry's first eight bytes read back as width, height, palette 0, reserved 0, 1 plane, 32 bits |
| GenIcon.ReadCountRoundTrip | scripts/gen_icon.py:73 | a reader finds the image count in the header |
| GenIcon.ReadImageRoundTrip | scripts/gen_icon.py:68-100 | a reader following entry `i` gets image `i` back |
| GenIcon.DirectoryRoundTrip | scripts/gen_icon.py:68-100 | the written file, read through its directory, gives back the count and every image |

## Left out

- Qt threads, signals and timers are not modelled as concurrency. A worker is its request. A timer is an element of the `pending` multiset, and any pending timer may fire next.
- The network is left out. A response is either a transport or HTTP-status error, or the lines of its body. Timeouts are not modelled.
- JSON decoding of a stream line is the `decode` parameter; `None` stands for `JSONDecodeError`.
- The WAV and base64 encoding of the recording is the `encode` parameter.
- The clock is left out: the timestamp of a new history record is the `now` parameter.
- Font metrics are left out: the pixel height of a block's wrapped text is the `textHeight` parameter.
- Sounds, status-bar text and the "copied" mark on a block are not modelled: `_start_player`, `_end_player`, `set_status_text` and `show_block_copied`.
- The mouse hit test `_on_mouse_click` is left out. An outside click is the `OnMouseDismiss` event.
- Session.Controller.FireAutoPaste: the simulated Ctrl+V and the `isActiveWindow` test are not modelled. Only the timer that follows is.
- Session.Controller.OnWindowClosed: `_cleanup_workers` (stopping and waiting for running threads) is not modelled.
- Session.Controller.Stop: stopping the hotkey hook and the workers is not modelled.
- `Controller.start`, `Controller.update_hotkey`, `HotkeyListener.start` and `HotkeyListener.stop` are left out. They start and stop the OS keyboard hook.
- Session.Controller.OnTranslate: `str(target)` of a non-string target language is the `render` parameter.
- Non-string values of the model and key settings are passed to the workers as they are stored; what the HTTP client would do with them is not modelled. A base URL that is not a string is modelled: the worker constructor raises, the slot stops after the window has changed, and no worker is created.
- Reading and writing config.json and history.json is not modelled: `_load`, `save`, `_save` and `reload`. The Config singleton (`__new__`) is not modelled either.
- Configuration.Config.constructor: it holds the defaults, as after loading with no file present. A loaded file is not modelled.
- History.HistoryManager.constructor: it starts empty, as with no history file. A loaded file is not modelled.
- Records are modelled with all four fields known. A hand-edited history file with missing keys is not modelled.
- MainWindow.FloatingWindow.Reposition: the window's position and the screen's geometry are not modelled. The scroll range, `_on_scroll_range_changed` and `_scroll_to_bottom` are not modelled either. Only the height and the auto-scroll flag are.
- Painting, styles and widget layout of the window are not modelled: `_setup_window`, `_setup_ui` and `_render`.
- Text.Lower: only ASCII letters are lower-cased. Python's full Unicode case mapping is not modelled.
- Audio.AudioRecorder.Start: the device, sample format and channel count passed to the input stream are not modelled. Only whether opening and starting it succeed is.
- The drawing half of the icon script is not modelled: `render_icon`, `pixmap_to_png_bytes` and `main`. The PNG bytes are given.
- GenIcon.BuildIco: the `struct.error` raised for an out-of-range field is not modelled. It is the `Packable` precondition instead.
