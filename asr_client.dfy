/**
 * The speech-recognition client (core/asr_client.py): choosing the request
 * shape from the base URL, the request payload with its RFC 2397 (section 3)
 * `data:` URI, the removal of `<|...|>` tags from the transcript, and the
 * worker's run over the streamed response.
 */
module AsrClient {
  import opened Json
  import opened Text
  import opened EventStream

  /** The markers that select the DashScope request shape. */
  const DashScopeMarkers: seq<string> := ["dashscope", "aliyuncs"]

  /** `_is_dashscope`: some marker occurs in the lower-cased base URL. */
  predicate IsDashScope(baseUrl: string)
  {
    exists k :: 0 <= k < |DashScopeMarkers| && Contains(Lower(baseUrl), DashScopeMarkers[k])
  }

  lemma LowerConcat(x: string, y: string)
    ensures Lower(x + y) == Lower(x) + Lower(y)
  {
  }

  /** A base URL in which either marker occurs, in any letter case, selects
      DashScope. */
  lemma MarkerSelectsDashScope(x: string, m: string, y: string)
    requires Lower(m) == "dashscope" || Lower(m) == "aliyuncs"
    ensures IsDashScope(x + m + y)
  {
    LowerConcat(x + m, y);
    LowerConcat(x, m);
    ContainsInfix(Lower(x), Lower(m), Lower(y));
    if Lower(m) == "dashscope" {
      assert Contains(Lower(x + m + y), DashScopeMarkers[0]);
    } else {
      assert Contains(Lower(x + m + y), DashScopeMarkers[1]);
    }
  }

  /** A base URL in which no marker occurs selects the vLLM shape. */
  lemma NoMarkerSelectsVllm(baseUrl: string)
    requires !Contains(Lower(baseUrl), "dashscope") && !Contains(Lower(baseUrl), "aliyuncs")
    ensures !IsDashScope(baseUrl)
  {
  }

  // ---------------------------------------------------------------------------
  // Tag removal: `re.sub(r"<\|[^|]*\|>", "", text)` then `strip()`.
  // ---------------------------------------------------------------------------

  /** Position of the first `|` in `s`. */
  function FirstBar(s: string): (r: Option<nat>)
    ensures r.Some? ==> r.value < |s| && s[r.value] == '|' && '|' !in s[..r.value]
    ensures r.None? ==> '|' !in s
  {
    if s == [] then None
    else if s[0] == '|' then Some(0)
    else match FirstBar(s[1..])
      case None => None
      case Some(k) =>
        assert s[..k + 1] == [s[0]] + s[1..][..k];
        Some(k + 1)
  }

  /** Length of the tag the pattern matches at the start of `s`, if any: `<|`,
      then everything up to the first `|`, which must be followed by `>`.
      Backtracking cannot help the pattern, since `[^|]*` never gives back a `|`. */
  function TagAt(s: string): (r: Option<nat>)
    ensures r.Some? ==> 4 <= r.value <= |s| && s[..2] == "<|" && s[r.value - 2..r.value] == "|>"
                        && '|' !in s[2..r.value - 2]
  {
    if |s| < 2 || s[0] != '<' || s[1] != '|' then None
    else match FirstBar(s[2..])
      case None => None
      case Some(k) =>
        if 2 + k + 1 < |s| && s[2 + k + 1] == '>' then
          assert s[2..2 + k] == s[2..][..k];
          Some(k + 4)
        else None
  }

  /** The substitution: a left-to-right scan that drops each match and keeps
      every other character. */
  function RemoveTags(s: string): (r: string)
    ensures |r| <= |s|
    decreases |s|
  {
    if s == [] then ""
    else match TagAt(s)
      case Some(n) => RemoveTags(s[n..])
      case None => [s[0]] + RemoveTags(s[1..])
  }

  /** `clean_asr_output`. */
  function Clean(s: string): (r: string)
    ensures |r| <= |s|
    ensures r == [] || (!IsSpace(r[0]) && !IsSpace(r[|r| - 1]))
  {
    Strip(RemoveTags(s))
  }

  lemma {:induction false} NoTagOpenerUnchanged(s: string)
    requires !Contains(s, "<|")
    ensures RemoveTags(s) == s
    decreases |s|
  {
    if s != [] {
      assert !StartsWith(s, "<|");
      assert TagAt(s).None?;
      NoTagOpenerUnchanged(s[1..]);
    }
  }

  /** A transcript in which `<|` never occurs is only trimmed. */
  lemma CleanWithoutTagsTrims(s: string)
    requires !Contains(s, "<|")
    ensures Clean(s) == Strip(s)
  {
    NoTagOpenerUnchanged(s);
  }

  /** A transcript as the recogniser lays it out: plain text and `<|name|>` tags. */
  datatype Segment = Plain(text: string) | Tag(name: string)

  predicate WellFormed(seg: Segment)
  {
    match seg
    case Plain(t) => '<' !in t && '|' !in t
    case Tag(n) => '|' !in n
  }

  function Render(segs: seq<Segment>): string
  {
    if segs == [] then ""
    else
      var head := match segs[0]
        case Plain(t) => t
        case Tag(n) => "<|" + n + "|>";
      head + Render(segs[1..])
  }

  /** The text of the plain segments, in order. */
  function Texts(segs: seq<Segment>): string
  {
    if segs == [] then ""
    else (if segs[0].Plain? then segs[0].text else "") + Texts(segs[1..])
  }

  lemma {:induction false} FirstBarAfterName(name: string, rest: string)
    requires '|' !in name
    ensures FirstBar(name + "|>" + rest) == Some(|name|)
    decreases |name|
  {
    if name == [] {
      assert (name + "|>" + rest)[0] == '|';
    } else {
      assert (name + "|>" + rest)[1..] == name[1..] + "|>" + rest;
      assert name[0] != '|';
      FirstBarAfterName(name[1..], rest);
    }
  }

  lemma TagDropped(name: string, rest: string)
    requires '|' !in name
    ensures RemoveTags("<|" + name + "|>" + rest) == RemoveTags(rest)
  {
    var s := "<|" + name + "|>" + rest;
    assert s[2..] == name + "|>" + rest;
    FirstBarAfterName(name, rest);
    assert s[2 + |name| + 1] == '>';
    assert TagAt(s) == Some(|name| + 4);
    assert s[|name| + 4..] == rest;
  }

  lemma KeptChar(s: string)
    requires s != [] && s[0] != '<'
    ensures RemoveTags(s) == [s[0]] + RemoveTags(s[1..])
  {
  }

  lemma {:induction false} PlainKept(t: string, rest: string)
    requires '<' !in t
    ensures RemoveTags(t + rest) == t + RemoveTags(rest)
    decreases |t|
  {
    if t != [] {
      var s, tail := t + rest, t[1..];
      assert t[0] in t;
      assert s[1..] == tail + rest;
      assert '<' !in tail by {
        forall c | c in tail ensures c != '<' { assert c in t; }
      }
      KeptChar(s);
      PlainKept(tail, rest);
      calc {
        RemoveTags(s);
        [t[0]] + RemoveTags(tail + rest);
        [t[0]] + (tail + RemoveTags(rest));
        { assert t == [t[0]] + tail; }
        t + RemoveTags(rest);
      }
    } else {
      assert t + rest == rest;
    }
  }

  /** On a well-formed transcript the substitution drops exactly the tags. */
  lemma {:induction false} RemoveTagsRender(segs: seq<Segment>)
    requires forall k :: 0 <= k < |segs| ==> WellFormed(segs[k])
    ensures RemoveTags(Render(segs)) == Texts(segs)
    decreases |segs|
  {
    if segs != [] {
      RemoveTagsRender(segs[1..]);
      match segs[0]
      case Plain(t) =>
        PlainKept(t, Render(segs[1..]));
      case Tag(n) =>
        assert Render(segs) == "<|" + n + "|>" + Render(segs[1..]);
        TagDropped(n, Render(segs[1..]));
    }
  }

  lemma {:induction false} TextsHaveNoOpener(segs: seq<Segment>)
    requires forall k :: 0 <= k < |segs| ==> WellFormed(segs[k])
    ensures '<' !in Texts(segs)
    decreases |segs|
  {
    if segs != [] {
      TextsHaveNoOpener(segs[1..]);
    }
  }

  lemma {:induction false} NoLessThanNoOpener(s: string)
    requires '<' !in s
    ensures !Contains(s, "<|")
    decreases |s|
  {
    if s != [] {
      assert s[0] in s;
      assert forall c :: c in s[1..] ==> c in s;
      NoLessThanNoOpener(s[1..]);
    }
  }

  lemma StripKeepsAbsentChar(s: string, c: char)
    requires c !in s
    ensures c !in Strip(s)
  {
    var r := Strip(s);
    var i := StripIsInfix(s);
    forall j | 0 <= j < |r| ensures r[j] != c {
      assert r[j] == s[i + j];
    }
  }

  /** Cleaning a well-formed transcript leaves its trimmed plain text, and a
      second cleaning changes nothing. */
  lemma CleanRenderIdempotent(segs: seq<Segment>)
    requires forall k :: 0 <= k < |segs| ==> WellFormed(segs[k])
    ensures Clean(Render(segs)) == Strip(Texts(segs))
    ensures Clean(Clean(Render(segs))) == Clean(Render(segs))
  {
    RemoveTagsRender(segs);
    TextsHaveNoOpener(segs);
    var once := Strip(Texts(segs));
    StripKeepsAbsentChar(Texts(segs), '<');
    NoLessThanNoOpener(once);
    CleanWithoutTagsTrims(once);
    StripIdempotent(Texts(segs));
  }

  /** The tagged form the recogniser produces loses its tags. */
  lemma CleanLanguageTagged(lang: string, body: string)
    requires '|' !in lang && '|' !in body && '<' !in body
    ensures Clean("<|" + lang + "|>" + body + "<|endoftext|>") == Strip(body)
  {
    var segs := [Tag(lang), Plain(body), Tag("endoftext")];
    assert Render(segs[2..]) == "<|endoftext|>" + "";
    assert Render(segs[1..]) == body + Render(segs[2..]);
    assert Render(segs) == "<|" + lang + "|>" + body + "<|endoftext|>";
    assert Texts(segs[2..]) == "";
    assert Texts(segs) == body;
    RemoveTagsRender(segs);
  }

  /** One pass of the substitution is not idempotent once tags nest. */
  lemma NestedTagsNotIdempotent()
    ensures Clean("<|<|x|>|>") == "<||>"
    ensures Clean("<||>") == ""
  {
    InnerTagRemoved();
    StripNoEdgeSpace("<||>");
    assert RemoveTags("<||>") == "" by {
      TagDropped("", "");
      assert "<|" + "" + "|>" + "" == "<||>";
    }
    StripNoEdgeSpace("");
  }

  /** The scan matches the inner tag and leaves the outer delimiters. */
  lemma InnerTagRemoved()
    ensures RemoveTags("<|<|x|>|>") == "<||>"
  {
    var s := "<|<|x|>|>";
    assert FirstBar(s[2..]) == Some(1) by {
      assert s[2..] == "<|x|>|>";
      assert FirstBar(s[2..][1..]) == Some(0);
    }
    assert TagAt(s) == None;
    assert TagAt(s[1..]) == None;
    assert s[1..][1..] == "<|x|>|>";
    TagThenCloser();
    assert RemoveTags(s[1..]) == "|" + "|>";
    assert RemoveTags(s) == "<" + RemoveTags(s[1..]);
    assert "<" + ("|" + "|>") == "<||>";
  }

  lemma TagThenCloser()
    ensures RemoveTags("<|x|>|>") == "|>"
  {
    var t := "<|x|>|>";
    assert FirstBar(t[2..]) == Some(1) by {
      assert t[2..] == "x|>|>";
      assert FirstBar(t[2..][1..]) == Some(0);
    }
    assert TagAt(t) == Some(5);
    assert t[5..] == "|>";
    CloserKept();
  }

  lemma CloserKept()
    ensures RemoveTags("|>") == "|>"
  {
    assert TagAt("|>") == None;
    assert TagAt(">") == None;
    assert RemoveTags(">") == ">" + RemoveTags("");
  }

  // ---------------------------------------------------------------------------
  // The request.
  // ---------------------------------------------------------------------------

  const DataUriPrefix := "data:audio/wav;base64,"

  /** The RFC 2397 URI carrying the base64 WAV recording. */
  function DataUri(audioBase64: string): string
  {
    DataUriPrefix + audioBase64
  }

  function UserMessage(part: Json): Json
  {
    Obj(map["role" := Str("user"), "content" := Arr([part])])
  }

  /** `_build_payload`. */
  function BuildPayload(model: string, audioBase64: string, dashscope: bool): Json
  {
    var uri := DataUri(audioBase64);
    if dashscope then
      Obj(map[
        "model" := Str(model),
        "stream" := Bool(true),
        "messages" := Arr([UserMessage(Obj(map["type" := Str("input_audio"),
                                                "input_audio" := Obj(map["data" := Str(uri)])]))]),
        "asr_options" := Obj(map["enable_itn" := Bool(false)])])
    else
      Obj(map[
        "model" := Str(model),
        "stream" := Bool(true),
        "temperature" := Float(0.0),
        "messages" := Arr([UserMessage(Obj(map["type" := Str("audio_url"),
                                                "audio_url" := Obj(map["url" := Str(uri)])]))])])
  }

  /** The single content part of a payload with exactly one user message
      holding exactly one part. */
  function SoleContentPart(payload: Json): Option<Json>
  {
    if !payload.Obj? || "messages" !in payload.fields then None
    else
      var msgs := payload.fields["messages"];
      if !msgs.Arr? || |msgs.items| != 1 || !msgs.items[0].Obj? then None
      else
        var msg := msgs.items[0].fields;
        if "role" !in msg || msg["role"] != Str("user") || "content" !in msg then None
        else
          var content := msg["content"];
          if !content.Arr? || |content.items| != 1 then None else Some(content.items[0])
  }

  /** The DashScope shape: an `input_audio` part and `asr_options.enable_itn`
      off, no temperature. */
  predicate DashScopeShape(payload: Json)
  {
    payload.Obj? && payload.fields.Keys == {"model", "stream", "messages", "asr_options"}
    && payload.fields["asr_options"] == Obj(map["enable_itn" := Bool(false)])
    && SoleContentPart(payload).Some?
    && var part := SoleContentPart(payload).value;
       part.Obj? && part.fields.Keys == {"type", "input_audio"}
       && part.fields["type"] == Str("input_audio")
  }

  /** The vLLM shape: an `audio_url` part and temperature 0.0. */
  predicate VllmShape(payload: Json)
  {
    payload.Obj? && payload.fields.Keys == {"model", "stream", "temperature", "messages"}
    && payload.fields["temperature"] == Float(0.0)
    && SoleContentPart(payload).Some?
    && var part := SoleContentPart(payload).value;
       part.Obj? && part.fields.Keys == {"type", "audio_url"}
       && part.fields["type"] == Str("audio_url")
  }

  /** The recording URI a payload of either shape carries. */
  function AudioUri(payload: Json): Option<string>
  {
    match SoleContentPart(payload)
    case None => None
    case Some(part) =>
      if !part.Obj? then None
      else if "input_audio" in part.fields && part.fields["input_audio"].Obj?
              && "data" in part.fields["input_audio"].fields
              && part.fields["input_audio"].fields["data"].Str? then
        Some(part.fields["input_audio"].fields["data"].s)
      else if "audio_url" in part.fields && part.fields["audio_url"].Obj?
              && "url" in part.fields["audio_url"].fields
              && part.fields["audio_url"].fields["url"].Str? then
        Some(part.fields["audio_url"].fields["url"].s)
      else None
  }

  lemma ShapesDisjoint(payload: Json)
    ensures !(DashScopeShape(payload) && VllmShape(payload))
  {
  }

  /** The payload has exactly the shape the flag selects, the given model,
      streaming on, and the recording's data URI. */
  lemma PayloadShape(model: string, audioBase64: string, dashscope: bool)
    ensures var p := BuildPayload(model, audioBase64, dashscope);
            (DashScopeShape(p) <==> dashscope) && (VllmShape(p) <==> !dashscope)
            && p.fields["model"] == Str(model) && p.fields["stream"] == Bool(true)
            && AudioUri(p) == Some(DataUri(audioBase64))
  {
    var p := BuildPayload(model, audioBase64, dashscope);
    ShapesDisjoint(p);
    if dashscope {
      assert p.fields.Keys == {"model", "stream", "messages", "asr_options"};
    } else {
      assert p.fields.Keys == {"model", "stream", "temperature", "messages"};
    }
  }

  /** `ASRWorker.__init__` and the first lines of `run`: the shape is chosen
      from the base URL with its trailing slashes removed. */
  function BuildRequest(baseUrl: string, model: string, apiKey: string, audioBase64: string): (r: Request)
    ensures r.url == ChatUrl(baseUrl)
    ensures DashScopeShape(r.payload) <==> IsDashScope(RStripChar(baseUrl, '/'))
    ensures VllmShape(r.payload) <==> !IsDashScope(RStripChar(baseUrl, '/'))
    ensures AudioUri(r.payload) == Some(DataUri(audioBase64))
    ensures "Authorization" in r.headers && r.headers["Authorization"] == "Bearer " + apiKey
  {
    var dashscope := IsDashScope(RStripChar(baseUrl, '/'));
    PayloadShape(model, audioBase64, dashscope);
    Request(ChatUrl(baseUrl), Headers(apiKey), BuildPayload(model, audioBase64, dashscope))
  }

  // ---------------------------------------------------------------------------
  // The worker.
  // ---------------------------------------------------------------------------

  /** What `ASRWorker.run` signals for a response: the streamed chunks, then
      the cleaned transcript or an error. */
  function Outcome(response: Response, decode: string -> Option<Json>): WorkerResult
  {
    match response
    case TransportError => Errored([])
    case Body(lines) =>
      var o := Fold(lines, decode);
      if o.status.Completed? then Finished(o.emitted, Clean(o.text)) else Errored(o.emitted)
  }

  /** The worker: the line loop, then the cleaning. */
  method RunWorker(response: Response, decode: string -> Option<Json>) returns (result: WorkerResult)
    ensures result == Outcome(response, decode)
  {
    if response.TransportError? {
      return Errored([]);
    }
    var emitted, rawText, status := Run(response.lines, decode);
    if status.Completed? {
      result := Finished(emitted, Clean(rawText));
    } else {
      result := Errored(emitted);
    }
  }

  /** The finished transcript is the cleaned concatenation of the emitted
      chunks, none of which is empty. */
  lemma FinishedIsCleanedChunks(response: Response, decode: string -> Option<Json>)
    requires Outcome(response, decode).Finished?
    ensures Outcome(response, decode).text == Clean(Concat(Outcome(response, decode).chunks))
    ensures forall k :: 0 <= k < |Outcome(response, decode).chunks| ==> Outcome(response, decode).chunks[k] != ""
  {
    FoldTextIsConcat(response.lines, decode);
  }
}
