/**
 * The session controller (core/controller.py): the push-to-talk session as a
 * state machine over the floating window's states. Every Qt slot and every
 * `QTimer.singleShot` callback is an event method of `Controller`; a timer
 * that has been started and has not fired yet is an element of `pending`.
 * The window, the history, the recorder and the hotkey listener are the
 * classes of their own modules; the ASR and language-model workers are the
 * requests they were created with, and what they send back arrives through
 * the `OnAsr…`, `OnOptimize…` and `OnTranslate…` events.
 */
module Session {
  import opened Json
  import opened Audio
  import opened MainWindow
  import opened History
  import Text
  import Configuration
  import Hotkey
  import AsrClient
  import LlmClient

  /** The four single-shot timers the controller starts. */
  datatype Timer = StartOptimization | AutoPaste | EnableDismiss | CheckMouseDismiss

  /** Which slots a language-model worker's signals are connected to. */
  datatype Purpose = ForOptimize | ForTranslate

  /** An ASR worker: the settings it was given and the recording. */
  datatype AsrJob = AsrJob(baseUrl: string, model: Json, apiKey: Json, audioBase64: string)

  /** A language-model worker: the settings it was given and the prompt. */
  datatype LlmJob = LlmJob(baseUrl: string, model: Json, apiKey: Json, prompt: string, purpose: Purpose)

  /** The settings the controller reads. */
  datatype Key =
    | AsrBaseUrl | AsrModel | AsrApiKey | LlmBaseUrl | LlmModel | LlmApiKey | ContextCount | TargetLanguage

  /** A setting's key segments: "asr.base_url" is ["asr", "base_url"]. */
  function Path(key: Key): (path: seq<string>)
    ensures |path| == 2 && forall i :: 0 <= i < |path| ==> '.' !in path[i]
  {
    match key
    case AsrBaseUrl => ["asr", "base_url"]
    case AsrModel => ["asr", "model"]
    case AsrApiKey => ["asr", "api_key"]
    case LlmBaseUrl => ["llm", "base_url"]
    case LlmModel => ["llm", "model"]
    case LlmApiKey => ["llm", "api_key"]
    case ContextCount => ["history", "context_count"]
    case TargetLanguage => ["translation", "target_language"]
  }

  /** The dotted key the source passes to `config.get`. */
  function DottedKey(key: Key): string
  {
    Text.Join(Path(key), ".")
  }

  /** Getting a dotted key walks exactly its segments. */
  lemma DottedKeyWalksPath(data: map<string, Json>, key: Key, default: Json)
    ensures Configuration.Lookup(data, DottedKey(key), default) == Setting(data, key, default)
  {
    Text.SplitJoin(Path(key), '.');
  }

  /** `config.get(key, default)` on the given settings. */
  function Setting(data: map<string, Json>, key: Key, default: Json): Json
  {
    Configuration.LookupPath(data, Path(key), default)
  }

  /** The ASR worker `_on_key_released` creates for a recording. Its
      constructor calls `rstrip("/")` on the base URL, which raises for
      anything but a string (a missing key reads as None): then there is no
      worker. Model and key are handed over as they are stored. */
  function AsrJobFor(data: map<string, Json>, audioBase64: string): (job: Option<AsrJob>)
  {
    match Setting(data, AsrBaseUrl, Null)
    case Str(url) => Some(AsrJob(url, Setting(data, AsrModel, Null), Setting(data, AsrApiKey, Null), audioBase64))
    case _ => None
  }

  /** The language-model worker created for a prompt; as for the ASR worker,
      a base URL that is not a string makes the constructor raise. */
  function LlmJobFor(data: map<string, Json>, prompt: string, purpose: Purpose): (job: Option<LlmJob>)
  {
    match Setting(data, LlmBaseUrl, Null)
    case Str(url) => Some(LlmJob(url, Setting(data, LlmModel, Null), Setting(data, LlmApiKey, Null), prompt, purpose))
    case _ => None
  }

  /** A worker is created exactly when the stored base URL is a string, so a
      settings file without an `asr` or `llm` section starts none. */
  lemma WorkerNeedsStringUrl(data: map<string, Json>, audioBase64: string, prompt: string, purpose: Purpose)
    ensures AsrJobFor(data, audioBase64).Some? <==> Setting(data, AsrBaseUrl, Null).Str?
    ensures LlmJobFor(data, prompt, purpose).Some? <==> Setting(data, LlmBaseUrl, Null).Str?
    ensures "asr" !in data ==> AsrJobFor(data, audioBase64) == None
    ensures "llm" !in data ==> LlmJobFor(data, prompt, purpose) == None
  {
  }

  /** The worker field after a slot tries to create `job`: the new worker,
      or, when the constructor raised, whatever was there before. */
  function Spawned<T>(job: Option<T>, previous: Option<T>): Option<T>
  {
    if job.Some? then job else previous
  }

  /** `if not self._config.get("llm.api_key", "")`: whether a language-model
      key is set. */
  predicate HasLlmKey(data: map<string, Json>)
  {
    Truthy(Setting(data, LlmApiKey, Str("")))
  }

  const AsrFailed := "识别失败: "
  const OptimizeFailed := "优化失败: "
  const TranslateFailed := "翻译失败: "

  /** `_state_allows_dismiss`: the window shows a finished or failed session. */
  predicate StateAllowsDismiss(state: Option<WindowState>)
  {
    state == Some(Done) || state == Some(Error)
  }

  /** One line of the history context: `[time] optimized_text`. */
  function HistoryLine(r: Record): string
  {
    "[" + r.time + "] " + r.optimizedText
  }

  function HistoryLines(recent: seq<Record>): (lines: seq<string>)
    ensures |lines| == |recent|
    ensures forall i :: 0 <= i < |recent| ==> lines[i] == HistoryLine(recent[i])
  {
    seq(|recent|, i requires 0 <= i < |recent| => HistoryLine(recent[i]))
  }

  /** The history block of the prompt: absent when there are no recent
      records, otherwise their lines joined by newlines, which is never
      empty. */
  function HistoryText(recent: seq<Record>): (text: Option<string>)
    ensures text.None? <==> recent == []
    ensures text.Some? ==> |text.value| > 0 && text.value[0] == '['
  {
    if recent == [] then None
    else
      var lines := HistoryLines(recent);
      JoinStartsWithFirst(lines, "\n");
      Some(Text.Join(lines, "\n"))
  }

  lemma JoinStartsWithFirst(parts: seq<string>, sep: string)
    requires parts != [] && |parts[0]| > 0
    ensures |Text.Join(parts, sep)| > 0 && Text.Join(parts, sep)[0] == parts[0][0]
  {
    if |parts| > 1 {
      assert Text.Join(parts, sep) == parts[0] + (sep + Text.Join(parts[1..], sep));
    }
  }

  /** `self._history.get_recent(ctx_count)`, that is `records[:ctx_count]`:
      a missing count (None) takes every record, a boolean counts as 0 or 1,
      and any other non-integer makes the slice raise. */
  function Recent(count: Json, records: seq<Record>): (recent: Option<seq<Record>>)
    ensures recent.Some? <==> count.Null? || count.Bool? || count.Int?
    ensures recent.Some? ==> recent.value <= records
    ensures count.Null? ==> recent == Some(records)
    ensures count.Int? && count.i >= 0 ==> recent == Some(records[..Min(count.i, |records|)])
  {
    match count
    case Null => Some(records)
    case Bool(b) => Some(Prefix(records, if b then 1 else 0))
    case Int(n) => Some(Prefix(records, n))
    case _ => None
  }

  /** `OPTIMIZE_PROMPT_WITH_HISTORY.format(history=..., text=...)`. */
  function FormatWithHistory(historyText: string, raw: string): string
  {
    LlmClient.Format(LlmClient.OptimizePromptWithHistory, map["history" := historyText, "text" := raw])
  }

  /** `OPTIMIZE_PROMPT.format(text=...)`. */
  function FormatPlain(raw: string): string
  {
    LlmClient.Format(LlmClient.OptimizePrompt, map["text" := raw])
  }

  /** The prompt for the given recent records: the history template when
      there are any, the plain one otherwise. */
  function PromptWithRecent(recent: seq<Record>, raw: string): string
  {
    if recent != [] then FormatWithHistory(Text.Join(HistoryLines(recent), "\n"), raw) else FormatPlain(raw)
  }

  /** The controller's own formatting gives exactly the language-model
      client's prompt with the built-in rules and the records' lines as
      history. */
  lemma PromptWithRecentIsClientPrompt(recent: seq<Record>, raw: string)
    ensures PromptWithRecent(recent, raw) == LlmClient.BuildOptimizePrompt(raw, HistoryText(recent), None)
  {
    if recent != [] {
      LlmClient.DefaultRulesUseHistoryTemplate(raw, HistoryText(recent).value);
    } else {
      LlmClient.DefaultRulesUsePlainTemplate(raw, None);
    }
  }

  /** `_build_optimize_prompt`, or None when it raises. */
  function OptimizePromptFor(count: Json, records: seq<Record>, raw: string): Option<string>
  {
    match Recent(count, records)
    case None => None
    case Some(recent) => Some(PromptWithRecent(recent, raw))
  }

  /** `str(target)` for the target language: a string is used as it is; how
      Python renders any other value is the parameter `render`. */
  function TargetName(target: Json, render: Json -> string): string
  {
    if target.Str? then target.s else render(target)
  }

  /** The text `_on_translate` translates: the optimised text, or the raw
      recognised text when the optimised one is empty. */
  function TranslationSource(optimizedText: string, rawAsrText: string): (text: string)
    ensures text == "" <==> optimizedText == "" && rawAsrText == ""
    ensures optimizedText != "" ==> text == optimizedText
  {
    if optimizedText != "" then optimizedText else rawAsrText
  }

  /** A finished recording is dropped when it is under 0.3 s or encodes to
      nothing. */
  predicate Discarded(frames: seq<Block>, sampleRate: nat, encode: seq<Block> -> string)
  {
    TooShort(TotalSamples(frames), sampleRate) || encode(frames) == ""
  }

  class Controller {
    const window: FloatingWindow
    const config: Configuration.Config
    const audio: AudioRecorder
    const hotkey: Hotkey.HotkeyListener
    const history: HistoryManager

    var busy: bool
    var asrBuffer: string
    var rawAsrText: string
    var optimizedText: string
    var asrWorker: Option<AsrJob>
    var llmWorker: Option<LlmJob>
    /** `_mouse_listener is not None`. */
    var mouseListener: bool
    /** What the last copy put on the clipboard. */
    var clipboard: string
    var pending: multiset<Timer>

    /** The window is consistent, dismiss mode is on in the hotkey listener
        exactly while the mouse listener exists, and a busy session always
        has its window on screen. */
    predicate Valid()
      reads this`mouseListener, this`busy, window`blocks, window`order, window`dividers, window`buttonShown,
            window`state, window`translated, window`visible, hotkey`dismissMode
    {
      && window.Valid()
      && audio.sampleRate > 0
      && mouseListener == hotkey.dismissMode
      && (busy ==> window.visible)
    }

    /** No field an event can change differs from its value when the event
        began. */
    twostate predicate Untouched()
      reads this, window, audio, hotkey`dismissMode
    {
      && busy == old(busy) && asrBuffer == old(asrBuffer) && rawAsrText == old(rawAsrText)
      && optimizedText == old(optimizedText) && asrWorker == old(asrWorker) && llmWorker == old(llmWorker)
      && mouseListener == old(mouseListener) && clipboard == old(clipboard) && pending == old(pending)
      && window.state == old(window.state) && window.blocks == old(window.blocks) && window.order == old(window.order)
      && window.dividers == old(window.dividers) && window.translated == old(window.translated)
      && window.buttonShown == old(window.buttonShown) && window.visible == old(window.visible)
      && window.height == old(window.height) && window.autoScroll == old(window.autoScroll)
      && window.reflowPending == old(window.reflowPending)
      && audio.frames == old(audio.frames) && audio.recording == old(audio.recording)
      && audio.streamOpen == old(audio.streamOpen)
      && hotkey.dismissMode == old(hotkey.dismissMode)
    }

    /** The settings file and the saved history are loaded by the caller;
        the recorder uses 16 kHz. */
    constructor(window: FloatingWindow, config: Configuration.Config, history: HistoryManager,
                hotkey: Hotkey.HotkeyListener)
      requires window.Valid() && !hotkey.dismissMode
      ensures Valid()
      ensures this.window == window && this.config == config && this.history == history && this.hotkey == hotkey
      ensures fresh(audio) && audio.frames == [] && !audio.recording && !audio.streamOpen
      ensures !busy && asrBuffer == "" && rawAsrText == "" && optimizedText == ""
      ensures asrWorker == None && llmWorker == None && !mouseListener && clipboard == "" && pending == multiset{}
    {
      this.window := window;
      this.config := config;
      this.history := history;
      this.hotkey := hotkey;
      audio := new AudioRecorder(16000);
      busy := false;
      asrBuffer := "";
      rawAsrText := "";
      optimizedText := "";
      asrWorker := None;
      llmWorker := None;
      mouseListener := false;
      clipboard := "";
      pending := multiset{};
    }

    /** `_start_dismiss_mode`. */
    method StartDismissMode()
      modifies this`mouseListener, hotkey`dismissMode
      ensures mouseListener && hotkey.dismissMode
    {
      hotkey.SetDismissMode(true);
      if !mouseListener {
        mouseListener := true;
      }
    }

    /** `_stop_dismiss_mode`. */
    method StopDismissMode()
      modifies this`mouseListener, hotkey`dismissMode
      ensures !mouseListener && !hotkey.dismissMode
    {
      hotkey.SetDismissMode(false);
      if mouseListener {
        mouseListener := false;
      }
    }

    /** `_on_window_closed`; stopping the workers is not modelled. */
    method OnWindowClosed()
      requires window.Valid() && audio.sampleRate > 0
      modifies this`busy, this`mouseListener, hotkey`dismissMode
      ensures Valid()
      ensures !busy && !mouseListener && !hotkey.dismissMode
    {
      StopDismissMode();
      busy := false;
    }

    /** `self._window.close()`: the window's close event runs
        `_on_window_closed` before `close` returns. */
    method CloseWindow()
      requires Valid()
      modifies this`busy, this`mouseListener, window`visible, hotkey`dismissMode
      ensures Valid()
      ensures !window.visible && !busy && !mouseListener
      ensures !hotkey.dismissMode
    {
      window.Close();
      OnWindowClosed();
    }

    /** The window's `keyPressEvent`: any key closes it. */
    method OnWindowKeyPress()
      requires Valid()
      modifies this`busy, this`mouseListener, window`visible, hotkey`dismissMode
      ensures Valid()
      ensures !window.visible && !busy && !mouseListener
      ensures !hotkey.dismissMode
    {
      CloseWindow();
    }

    /** `_dismiss_window`. */
    method DismissWindow()
      requires Valid()
      modifies this`busy, this`mouseListener, window`visible, hotkey`dismissMode
      ensures Valid()
      ensures !window.visible && !mouseListener
      ensures !hotkey.dismissMode
      ensures busy == (old(busy) && !old(window.visible))
    {
      StopDismissMode();
      if window.visible {
        CloseWindow();
      }
    }

    /** `_on_keyboard_dismiss`: only a visible window showing a finished or
        failed session is closed, whether dismiss mode is on or not. */
    method OnKeyboardDismiss()
      requires Valid()
      modifies this`busy, this`mouseListener, window`visible, hotkey`dismissMode
      ensures Valid()
      ensures old(window.visible) && StateAllowsDismiss(window.state) ==>
                !window.visible && !busy && !hotkey.dismissMode
      ensures !(old(window.visible) && StateAllowsDismiss(window.state)) ==>
                && window.visible == old(window.visible) && busy == old(busy)
                && mouseListener == old(mouseListener) && hotkey.dismissMode == old(hotkey.dismissMode)
    {
      if window.visible && StateAllowsDismiss(window.state) {
        DismissWindow();
      }
    }

    /** `_on_mouse_dismiss`: the check is put off by 120 ms. */
    method OnMouseDismiss()
      modifies this`pending
      ensures pending == old(pending) + multiset{CheckMouseDismiss}
    {
      pending := pending + multiset{CheckMouseDismiss};
    }

    /** `_check_mouse_dismiss`, when its timer fires: the same rule as the
        keyboard. */
    method FireCheckMouseDismiss()
      requires Valid() && CheckMouseDismiss in pending
      modifies this`pending, this`busy, this`mouseListener, window`visible, hotkey`dismissMode
      ensures Valid()
      ensures pending == old(pending) - multiset{CheckMouseDismiss}
      ensures old(window.visible) && StateAllowsDismiss(window.state) ==>
                !window.visible && !busy && !hotkey.dismissMode
      ensures !(old(window.visible) && StateAllowsDismiss(window.state)) ==>
                && window.visible == old(window.visible) && busy == old(busy)
                && mouseListener == old(mouseListener) && hotkey.dismissMode == old(hotkey.dismissMode)
    {
      pending := pending - multiset{CheckMouseDismiss};
      if window.visible && StateAllowsDismiss(window.state) {
        DismissWindow();
      }
    }

    /** `_on_key_pressed`. A press while a session is running is ignored;
        a press on a finished or failed session closes it first. Then the
        buffers and blocks are reset, the window shows "listening" and the
        recorder starts; when the recorder cannot start, its error signal
        runs `_on_audio_error` at once. */
    method OnKeyPressed(outcome: StartOutcome)
      requires Valid()
      modifies this`busy, this`mouseListener, this`asrBuffer, this`rawAsrText, this`optimizedText, window`visible,
               window`state, window`buttonShown, window`blocks, window`order, window`dividers, window`translated,
               window`height, window`autoScroll, audio, hotkey`dismissMode
      ensures Valid()
      ensures old(busy) && !StateAllowsDismiss(old(window.state)) ==> Untouched()
      ensures !old(busy) || StateAllowsDismiss(old(window.state)) ==>
                && asrBuffer == "" && rawAsrText == "" && optimizedText == ""
                && window.blocks == map[] && window.order == [] && window.dividers == 0 && !window.translated
                && window.visible && audio.frames == []
                && (busy <==> outcome == Started) && (audio.recording <==> outcome == Started)
                && window.state == (if outcome == Started then Some(Listening) else Some(Error))
                && (hotkey.dismissMode <==> outcome != Started)
    {
      if busy {
        if StateAllowsDismiss(window.state) {
          StopDismissMode();
          CloseWindow();
          busy := false;
        } else {
          return;
        }
      }
      StartSession(outcome);
    }

    /** The part of `_on_key_pressed` that starts a new session. */
    method StartSession(outcome: StartOutcome)
      requires Valid()
      modifies this`busy, this`mouseListener, this`asrBuffer, this`rawAsrText, this`optimizedText, window`visible,
               window`state, window`buttonShown, window`blocks, window`order, window`dividers, window`translated,
               window`height, window`autoScroll, audio, hotkey`dismissMode
      ensures Valid()
      ensures && asrBuffer == "" && rawAsrText == "" && optimizedText == ""
              && window.blocks == map[] && window.order == [] && window.dividers == 0 && !window.translated
              && window.visible && audio.frames == []
              && (busy <==> outcome == Started) && (audio.recording <==> outcome == Started)
              && window.state == (if outcome == Started then Some(Listening) else Some(Error))
              && (hotkey.dismissMode <==> outcome != Started)
    {
      ResetSession();
      window.ShowAtBottomCenter();
      var failed := audio.Start(outcome);
      if failed {
        OnAudioError();
      }
    }

    /** The session is marked busy, dismiss mode goes off, the buffers and
        blocks are emptied and "listening" is shown. */
    method ResetSession()
      requires Valid()
      modifies this`busy, this`mouseListener, this`asrBuffer, this`rawAsrText, this`optimizedText,
               window`state, window`buttonShown, window`blocks, window`order, window`dividers, window`translated,
               hotkey`dismissMode
      ensures window.Valid() && !mouseListener && !hotkey.dismissMode && busy
      ensures asrBuffer == "" && rawAsrText == "" && optimizedText == ""
      ensures window.blocks == map[] && window.order == [] && window.dividers == 0 && !window.translated
      ensures window.state == Some(Listening)
    {
      busy := true;
      StopDismissMode();
      asrBuffer := "";
      rawAsrText := "";
      optimizedText := "";
      window.ClearBlocks();
      window.SetState(Listening);
    }

    /** `_on_audio_error`; the status text is not modelled. */
    method OnAudioError()
      requires Valid()
      modifies this`busy, this`mouseListener, window`state, window`buttonShown, hotkey`dismissMode
      ensures Valid()
      ensures !busy && window.state == Some(Error) && mouseListener
      ensures hotkey.dismissMode
    {
      window.SetState(Error);
      StartDismissMode();
      busy := false;
    }

    /** `_reset_and_close`. */
    method ResetAndClose()
      requires Valid()
      modifies this`busy, this`mouseListener, window`visible, hotkey`dismissMode
      ensures Valid()
      ensures !busy && !window.visible && !mouseListener
      ensures !hotkey.dismissMode
    {
      busy := false;
      CloseWindow();
    }

    /** The `get_duration() < 0.3` test on the recorder. */
    method RecordingTooShort() returns (tooShort: bool)
      requires audio.sampleRate > 0
      ensures tooShort <==> TooShort(TotalSamples(audio.frames), audio.sampleRate)
    {
      var seconds := audio.GetDuration();
      TooShortIsUnderThreeTenths(audio.frames, audio.sampleRate);
      tooShort := seconds < 0.3;
    }

    /** `_on_key_released`: ignored outside a session; otherwise the
        recorder stops, a recording under 0.3 s or with nothing to encode
        ends the session with the window closed, and any other starts the
        ASR worker under a new "asr" block (the block stays, without a
        worker, when the base URL is not a string). */
    method OnKeyReleased(encode: seq<Block> -> string)
      requires Valid()
      modifies this`busy, this`mouseListener, this`asrWorker, window`visible, window`state, window`buttonShown,
               window`blocks, window`order, window`dividers, window`autoScroll, window`reflowPending, audio,
               hotkey`dismissMode
      ensures Valid()
      ensures !old(busy) ==> Untouched()
      ensures old(busy) ==> !audio.recording && !audio.streamOpen && audio.frames == old(audio.frames)
      ensures old(busy) && Discarded(audio.frames, audio.sampleRate, encode) ==>
                && !busy && !window.visible && !hotkey.dismissMode
                && window.blocks == old(window.blocks) && window.state == old(window.state)
                && asrWorker == old(asrWorker)
      ensures old(busy) && !Discarded(audio.frames, audio.sampleRate, encode) ==>
                && busy && window.state == Some(Recognizing) && hotkey.dismissMode == old(hotkey.dismissMode)
                && Asr in window.blocks && window.blocks[Asr].text == ""
                && window.blocks == old(window.blocks)[Asr := window.blocks[Asr]]
                && asrWorker == Spawned(AsrJobFor(config.data, encode(audio.frames)), old(asrWorker))
    {
      if !busy {
        return;
      }
      audio.Stop();
      SubmitRecording(encode);
    }

    /** The part of `_on_key_released` after the recorder has stopped. */
    method SubmitRecording(encode: seq<Block> -> string)
      requires Valid() && busy
      modifies this`busy, this`mouseListener, this`asrWorker, window`visible, window`state, window`buttonShown,
               window`blocks, window`order, window`dividers, window`autoScroll, window`reflowPending, hotkey`dismissMode
      ensures Valid()
      ensures Discarded(audio.frames, audio.sampleRate, encode) ==>
                && !busy && !window.visible && !hotkey.dismissMode
                && window.blocks == old(window.blocks) && window.state == old(window.state)
                && asrWorker == old(asrWorker)
      ensures !Discarded(audio.frames, audio.sampleRate, encode) ==>
                && busy && window.state == Some(Recognizing) && hotkey.dismissMode == old(hotkey.dismissMode)
                && Asr in window.blocks && window.blocks[Asr].text == ""
                && window.blocks == old(window.blocks)[Asr := window.blocks[Asr]]
                && asrWorker == Spawned(AsrJobFor(config.data, encode(audio.frames)), old(asrWorker))
    {
      var tooShort := RecordingTooShort();
      if tooShort {
        ResetAndClose();
        return;
      }
      var encoded := audio.GetAudioBase64(encode);
      if encoded == "" {
        ResetAndClose();
        return;
      }
      window.SetState(Recognizing);
      var block := window.AddBlock(Asr);
      StartAsrWorker(encoded);
    }

    /** The `ASRWorker` created with the ASR settings and the recording, when
        its constructor does not raise. */
    method StartAsrWorker(audioBase64: string)
      requires Valid()
      modifies this`asrWorker
      ensures Valid()
      ensures asrWorker == Spawned(AsrJobFor(config.data, audioBase64), old(asrWorker))
    {
      asrWorker := Spawned(AsrJobFor(config.data, audioBase64), asrWorker);
    }

    /** `_on_asr_chunk`: the "asr" block shows the cleaned text received so far. */
    method OnAsrChunk(text: string)
      requires Valid()
      modifies this`asrBuffer, window.blocks.Values, window`autoScroll, window`reflowPending
      ensures Valid()
      ensures asrBuffer == old(asrBuffer) + text
      ensures Asr in window.blocks ==> window.blocks[Asr].text == AsrClient.Clean(asrBuffer)
      ensures forall k :: k in window.blocks && k != Asr ==> window.blocks[k].text == old(window.blocks[k].text)
    {
      asrBuffer := asrBuffer + text;
      var cleaned := AsrClient.Clean(asrBuffer);
      window.SetBlockText(Asr, cleaned);
    }

    /** `_finish_with_paste`: copy, show "done" and schedule the paste. It
        does not touch dismiss mode. */
    method FinishWithPaste(text: string)
      requires Valid()
      modifies this`clipboard, this`pending, window`state, window`buttonShown
      ensures Valid()
      ensures clipboard == text && window.state == Some(Done) && window.buttonShown == !window.translated
      ensures pending == old(pending) + multiset{AutoPaste}
    {
      clipboard := text;
      window.SetState(Done);
      pending := pending + multiset{AutoPaste};
    }

    /** `_on_asr_done`: without a language-model key the recognised text is
        recorded as its own optimisation and the session finishes; with one,
        optimisation is only scheduled. */
    method OnAsrDone(cleaned: string, now: string)
      requires Valid()
      modifies this`rawAsrText, this`clipboard, this`pending, window.blocks.Values, window`autoScroll,
               window`reflowPending, window`state, window`buttonShown, history
      ensures Valid()
      ensures rawAsrText == cleaned
      ensures Asr in window.blocks ==> window.blocks[Asr].text == cleaned
      ensures forall k :: k in window.blocks && k != Asr ==> window.blocks[k].text == old(window.blocks[k].text)
      ensures !HasLlmKey(config.data) ==>
                && history.records == Added(old(history.records), NewRecord(now, cleaned, cleaned, ""))
                && clipboard == cleaned && window.state == Some(Done)
                && pending == old(pending) + multiset{AutoPaste}
      ensures HasLlmKey(config.data) ==>
                && history.records == old(history.records)
                && clipboard == old(clipboard) && window.state == old(window.state)
                && pending == old(pending) + multiset{StartOptimization}
    {
      rawAsrText := cleaned;
      window.SetBlockText(Asr, cleaned);
      if !HasLlmKey(config.data) {
        FinishUnoptimized(now);
        return;
      }
      pending := pending + multiset{StartOptimization};
    }

    /** The branch of `_on_asr_done` without a language-model key: the
        recognised text is recorded as its own optimisation, then copied. */
    method FinishUnoptimized(now: string)
      requires Valid()
      modifies this`clipboard, this`pending, window`state, window`buttonShown, history
      ensures Valid()
      ensures history.records == Added(old(history.records), NewRecord(now, rawAsrText, rawAsrText, ""))
      ensures clipboard == rawAsrText && window.state == Some(Done)
      ensures pending == old(pending) + multiset{AutoPaste}
    {
      history.AddRecord(now, rawAsrText, rawAsrText, "");
      FinishWithPaste(rawAsrText);
    }

    /** `_on_asr_error`. */
    method OnAsrError(err: string)
      requires Valid()
      modifies this`busy, this`mouseListener, window.blocks.Values, window`autoScroll, window`reflowPending,
               window`state, window`buttonShown, hotkey`dismissMode
      ensures Valid()
      ensures Asr in window.blocks ==> window.blocks[Asr].text == AsrFailed + err
      ensures forall k :: k in window.blocks && k != Asr ==> window.blocks[k].text == old(window.blocks[k].text)
      ensures window.state == Some(Error) && !busy && mouseListener
      ensures hotkey.dismissMode
    {
      window.SetBlockText(Asr, AsrFailed + err);
      window.SetState(Error);
      StartDismissMode();
      busy := false;
    }

    /** `_build_optimize_prompt`: None stands for the exception a
        non-integer count raises. */
    method BuildOptimizePrompt() returns (prompt: Option<string>)
      ensures prompt == OptimizePromptFor(Setting(config.data, ContextCount, Int(5)),
                                          history.records, rawAsrText)
    {
      var count := Setting(config.data, ContextCount, Int(5));
      var recent: seq<Record>;
      if count.Bool? {
        recent := history.GetRecent(if count.b then 1 else 0);
      } else if count.Int? {
        recent := history.GetRecent(count.i);
      } else {
        return None;
      }
      if recent == [] {
        return Some(FormatPlain(rawAsrText));
      }
      var lines: seq<string> := [];
      var i := 0;
      while i < |recent|
        invariant 0 <= i <= |recent|
        invariant |lines| == i
        invariant forall k :: 0 <= k < i ==> lines[k] == HistoryLine(recent[k])
      {
        lines := lines + [HistoryLine(recent[i])];
        i := i + 1;
      }
      assert lines == HistoryLines(recent);
      prompt := Some(FormatWithHistory(Text.Join(lines, "\n"), rawAsrText));
    }

    /** `_start_optimization`, when its timer fires: the "optimize" block is
        added before the prompt is built, so a prompt that raises, or a base
        URL that is not a string, leaves the block and no worker. */
    method FireStartOptimization()
      requires Valid() && StartOptimization in pending
      modifies this`pending, this`llmWorker, window`state, window`buttonShown, window`blocks, window`order,
               window`dividers, window`autoScroll, window`reflowPending
      ensures Valid()
      ensures pending == old(pending) - multiset{StartOptimization}
      ensures window.state == Some(Optimizing)
      ensures Optimize in window.blocks && fresh(window.blocks[Optimize]) && window.blocks[Optimize].text == ""
      ensures window.blocks == old(window.blocks)[Optimize := window.blocks[Optimize]]
      ensures window.dividers == old(window.dividers) + (if old(window.blocks) != map[] then 1 else 0)
      ensures var p := OptimizePromptFor(Setting(config.data, ContextCount, Int(5)), history.records, rawAsrText);
              p.None? ==> llmWorker == old(llmWorker)
      ensures var p := OptimizePromptFor(Setting(config.data, ContextCount, Int(5)), history.records, rawAsrText);
              p.Some? ==> llmWorker == Spawned(LlmJobFor(config.data, p.value, ForOptimize), old(llmWorker))
    {
      pending := pending - multiset{StartOptimization};
      ShowOptimizing();
      StartOptimizer();
    }

    /** "optimizing" is shown and the "optimize" block added. */
    method ShowOptimizing()
      requires Valid()
      modifies window`state, window`buttonShown, window`blocks, window`order, window`dividers, window`autoScroll,
               window`reflowPending
      ensures Valid()
      ensures window.state == Some(Optimizing)
      ensures Optimize in window.blocks && fresh(window.blocks[Optimize]) && window.blocks[Optimize].text == ""
      ensures window.blocks == old(window.blocks)[Optimize := window.blocks[Optimize]]
      ensures window.dividers == old(window.dividers) + (if old(window.blocks) != map[] then 1 else 0)
    {
      window.SetState(Optimizing);
      var block := window.AddBlock(Optimize);
    }

    /** The prompt is built and, unless that raises, the optimising worker
        starts with it. */
    method StartOptimizer()
      modifies this`llmWorker
      ensures var p := OptimizePromptFor(Setting(config.data, ContextCount, Int(5)), history.records, rawAsrText);
              p.None? ==> llmWorker == old(llmWorker)
      ensures var p := OptimizePromptFor(Setting(config.data, ContextCount, Int(5)), history.records, rawAsrText);
              p.Some? ==> llmWorker == Spawned(LlmJobFor(config.data, p.value, ForOptimize), old(llmWorker))
    {
      var prompt := BuildOptimizePrompt();
      if prompt.Some? {
        StartLlmWorker(prompt.value, ForOptimize);
      }
    }

    /** The `LLMWorker` created with the language-model settings and the
        prompt, its signals connected to the slots `purpose` names, when its
        constructor does not raise. */
    method StartLlmWorker(prompt: string, purpose: Purpose)
      modifies this`llmWorker
      ensures llmWorker == Spawned(LlmJobFor(config.data, prompt, purpose), old(llmWorker))
    {
      llmWorker := Spawned(LlmJobFor(config.data, prompt, purpose), llmWorker);
    }

    /** `_on_optimize_chunk`. */
    method OnOptimizeChunk(text: string)
      requires Valid()
      modifies window.blocks.Values, window`autoScroll, window`reflowPending
      ensures Valid()
      ensures Optimize in window.blocks ==> window.blocks[Optimize].text == old(window.blocks[Optimize].text) + text
      ensures forall k :: k in window.blocks && k != Optimize ==> window.blocks[k].text == old(window.blocks[k].text)
    {
      window.AppendToBlock(Optimize, text);
    }

    /** `_on_optimize_done`: the pair (raw, optimised) is recorded and the
        session finishes with the optimised text. */
    method OnOptimizeDone(fullText: string, now: string)
      requires Valid()
      modifies this`optimizedText, this`clipboard, this`pending, window`state, window`buttonShown, history
      ensures Valid()
      ensures optimizedText == fullText
      ensures history.records == Added(old(history.records), NewRecord(now, rawAsrText, fullText, ""))
      ensures clipboard == fullText && window.state == Some(Done)
      ensures pending == old(pending) + multiset{AutoPaste}
    {
      optimizedText := fullText;
      history.AddRecord(now, rawAsrText, fullText, "");
      FinishWithPaste(fullText);
    }

    /** `_on_optimize_error`: the session still finishes ("done", never
        "error") with the raw text, and nothing is recorded. */
    method OnOptimizeError(err: string)
      requires Valid()
      modifies this`clipboard, this`pending, window.blocks.Values, window`autoScroll, window`reflowPending,
               window`state, window`buttonShown
      ensures Valid()
      ensures Optimize in window.blocks ==> window.blocks[Optimize].text == OptimizeFailed + err
      ensures forall k :: k in window.blocks && k != Optimize ==> window.blocks[k].text == old(window.blocks[k].text)
      ensures clipboard == rawAsrText && window.state == Some(Done)
      ensures pending == old(pending) + multiset{AutoPaste}
    {
      window.SetBlockText(Optimize, OptimizeFailed + err);
      FinishWithPaste(rawAsrText);
    }

    /** `_auto_paste`, when its timer fires: the simulated Ctrl+V is not
        modelled; dismiss mode is switched on only 300 ms later. */
    method FireAutoPaste()
      requires AutoPaste in pending
      modifies this`pending
      ensures pending == old(pending) - multiset{AutoPaste} + multiset{EnableDismiss}
    {
      pending := pending - multiset{AutoPaste} + multiset{EnableDismiss};
    }

    /** The `_start_dismiss_mode` timer that `_auto_paste` starts. */
    method FireEnableDismiss()
      requires Valid() && EnableDismiss in pending
      modifies this`pending, this`mouseListener, hotkey`dismissMode
      ensures Valid()
      ensures pending == old(pending) - multiset{EnableDismiss}
      ensures mouseListener && hotkey.dismissMode
    {
      pending := pending - multiset{EnableDismiss};
      StartDismissMode();
    }

    /** `_on_translate`: dismiss mode always goes off; without a key or
        without text nothing else happens; otherwise the translation worker
        starts under a new "translate" block (the block stays, without a
        worker, when the base URL is not a string). */
    method OnTranslate(render: Json -> string)
      requires Valid()
      modifies this`mouseListener, this`llmWorker, hotkey`dismissMode, window`state, window`buttonShown, window`blocks,
               window`order, window`dividers, window`autoScroll, window`reflowPending
      ensures Valid()
      ensures !mouseListener && !hotkey.dismissMode
      ensures !HasLlmKey(config.data) || TranslationSource(optimizedText, rawAsrText) == "" ==>
                && window.state == old(window.state) && window.blocks == old(window.blocks)
                && window.order == old(window.order) && window.dividers == old(window.dividers)
                && llmWorker == old(llmWorker)
      ensures HasLlmKey(config.data) && TranslationSource(optimizedText, rawAsrText) != "" ==>
                && window.state == Some(Translating)
                && Translate in window.blocks && window.blocks[Translate].text == ""
                && window.blocks == old(window.blocks)[Translate := window.blocks[Translate]]
                && var target := Setting(config.data, TargetLanguage, Str("English"));
                   var prompt := LlmClient.BuildTranslatePrompt(TranslationSource(optimizedText, rawAsrText),
                                                                TargetName(target, render));
                   llmWorker == Spawned(LlmJobFor(config.data, prompt, ForTranslate), old(llmWorker))
    {
      StopDismissMode();
      StartTranslation(render);
    }

    /** The part of `_on_translate` after dismiss mode has gone off. */
    method StartTranslation(render: Json -> string)
      requires Valid()
      modifies this`llmWorker, window`state, window`buttonShown, window`blocks, window`order, window`dividers,
               window`autoScroll, window`reflowPending
      ensures Valid()
      ensures !HasLlmKey(config.data) || TranslationSource(optimizedText, rawAsrText) == "" ==>
                && window.state == old(window.state) && window.blocks == old(window.blocks)
                && window.order == old(window.order) && window.dividers == old(window.dividers)
                && llmWorker == old(llmWorker)
      ensures HasLlmKey(config.data) && TranslationSource(optimizedText, rawAsrText) != "" ==>
                && window.state == Some(Translating)
                && Translate in window.blocks && window.blocks[Translate].text == ""
                && window.blocks == old(window.blocks)[Translate := window.blocks[Translate]]
                && var target := Setting(config.data, TargetLanguage, Str("English"));
                   var prompt := LlmClient.BuildTranslatePrompt(TranslationSource(optimizedText, rawAsrText),
                                                                TargetName(target, render));
                   llmWorker == Spawned(LlmJobFor(config.data, prompt, ForTranslate), old(llmWorker))
    {
      if !HasLlmKey(config.data) {
        return;
      }
      var text := if optimizedText != "" then optimizedText else rawAsrText;
      if text == "" {
        return;
      }
      var target := Setting(config.data, TargetLanguage, Str("English"));
      var prompt := LlmClient.BuildTranslatePrompt(text, TargetName(target, render));
      LaunchTranslation(prompt);
    }

    /** "translating" is shown, the "translate" block added and the worker
        started with the prompt. */
    method LaunchTranslation(prompt: string)
      requires Valid()
      modifies this`llmWorker, window`state, window`buttonShown, window`blocks, window`order, window`dividers,
               window`autoScroll, window`reflowPending
      ensures Valid()
      ensures window.state == Some(Translating)
      ensures Translate in window.blocks && window.blocks[Translate].text == ""
      ensures window.blocks == old(window.blocks)[Translate := window.blocks[Translate]]
      ensures llmWorker == Spawned(LlmJobFor(config.data, prompt, ForTranslate), old(llmWorker))
    {
      window.SetState(Translating);
      var block := window.AddBlock(Translate);
      StartLlmWorker(prompt, ForTranslate);
    }

    /** `_on_translate_chunk`. */
    method OnTranslateChunk(text: string)
      requires Valid()
      modifies window.blocks.Values, window`autoScroll, window`reflowPending
      ensures Valid()
      ensures Translate in window.blocks ==> window.blocks[Translate].text == old(window.blocks[Translate].text) + text
      ensures forall k :: k in window.blocks && k != Translate ==> window.blocks[k].text == old(window.blocks[k].text)
    {
      window.AppendToBlock(Translate, text);
    }

    /** `_on_translate_done`: copy, add the translation to the newest
        record, hide the button and allow dismissing. */
    method OnTranslateDone(fullText: string)
      requires Valid()
      modifies this`clipboard, this`mouseListener, history, window`translated, window`buttonShown, window`state,
               hotkey`dismissMode
      ensures Valid()
      ensures clipboard == fullText
      ensures history.records == WithLastTranslation(old(history.records), fullText)
      ensures window.translated && !window.buttonShown && window.state == Some(Done)
      ensures mouseListener && hotkey.dismissMode
    {
      clipboard := fullText;
      history.UpdateLastTranslation(fullText);
      window.MarkTranslated();
      window.SetState(Done);
      StartDismissMode();
    }

    /** `_on_translate_error`. */
    method OnTranslateError(err: string)
      requires Valid()
      modifies this`mouseListener, window.blocks.Values, window`autoScroll, window`reflowPending, window`state,
               window`buttonShown, hotkey`dismissMode
      ensures Valid()
      ensures Translate in window.blocks ==> window.blocks[Translate].text == TranslateFailed + err
      ensures forall k :: k in window.blocks && k != Translate ==> window.blocks[k].text == old(window.blocks[k].text)
      ensures window.state == Some(Error) && mouseListener
      ensures hotkey.dismissMode
    {
      window.SetBlockText(Translate, TranslateFailed + err);
      window.SetState(Error);
      StartDismissMode();
    }

    /** `stop()`: the recorder stops and dismiss mode goes off; stopping the
        keyboard listener and the workers is not modelled. */
    method Stop()
      requires Valid()
      modifies this`mouseListener, audio, hotkey`dismissMode
      ensures Valid()
      ensures !audio.recording && !audio.streamOpen && audio.frames == old(audio.frames)
      ensures !mouseListener && !hotkey.dismissMode
    {
      audio.Stop();
      StopDismissMode();
    }
  }
}
