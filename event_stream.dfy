/**
 * The line loop both streaming workers run over a chat-completions response
 * (core/asr_client.py:114-128 and core/llm_client.py:145-159, which are the
 * same loop). It is a simplified subset of the `data:` field handling of the
 * server-sent events format (section 9.2 of the WHATWG HTML Living
 * Standard): only lines that start exactly with `data: ` are used, there is
 * no joining of multi-line events, and the first payload that strips to
 * `[DONE]` ends the stream.
 *
 * JSON decoding is a parameter (`decode`, None for a JSONDecodeError); what
 * the worker does with a decoded chunk is modelled exactly: a KeyError or an
 * IndexError skips the line, a TypeError or AttributeError escapes to the
 * worker's outer handler and ends the run with an error.
 */
module EventStream {
  import opened Json
  import opened Text

  /** Why a chunk escapes the `except (JSONDecodeError, KeyError, IndexError)` clause. */
  datatype Failure =
    | NotSubscriptable      // TypeError: the value cannot be indexed by a key or position
    | NoGetMethod           // AttributeError: `.get` called on a non-dict
    | NonStringContent      // TypeError: a truthy non-string content added to a str

  /** What one decoded chunk contributes to the stream. */
  datatype ChunkOutcome = Skip | Content(text: string) | Abort(failure: Failure)

  /** `delta.get("content", "")` followed by `if content: acc += content`. */
  function ContentOf(delta: map<string, Json>): ChunkOutcome
  {
    var content := if "content" in delta then delta["content"] else Str("");
    if !Truthy(content) then Skip
    else if content.Str? then Content(content.s)
    else Abort(NonStringContent)
  }

  /** `choice.get("delta", {})` then the content step. */
  function ClassifyChoice(choice: Json): ChunkOutcome
  {
    if !choice.Obj? then Abort(NoGetMethod)
    else
      var delta := if "delta" in choice.fields then choice.fields["delta"] else Obj(map[]);
      if delta.Obj? then ContentOf(delta.fields) else Abort(NoGetMethod)
  }

  /** `choices[0]` then the rest. */
  function ClassifyChoices(choices: Json): ChunkOutcome
  {
    match choices
    case Arr(items) => if items == [] then Skip else ClassifyChoice(items[0])  // IndexError
    case Obj(_) => Skip                                  // KeyError: 0 is never a JSON key
    case Str(s) => if s == "" then Skip else Abort(NoGetMethod)  // IndexError, or a 1-char str
    case _ => Abort(NotSubscriptable)
  }

  /** `chunk["choices"][0].get("delta", {}).get("content", "")` as the worker
      evaluates it inside its inner `try`. */
  function Classify(chunk: Json): (r: ChunkOutcome)
    ensures r.Content? ==> r.text != ""
  {
    if !chunk.Obj? then Abort(NotSubscriptable)
    else if "choices" !in chunk.fields then Skip          // KeyError
    else ClassifyChoices(chunk.fields["choices"])
  }

  datatype LineAction = NotData | Done | Chunk(outcome: ChunkOutcome)

  const DataPrefix := "data: "

  /** What the loop does with one line of the response body. */
  function ClassifyLine(line: string, decode: string -> Option<Json>): LineAction
  {
    if !StartsWith(line, DataPrefix) then NotData
    else
      var payload := line[|DataPrefix|..];
      if Strip(payload) == "[DONE]" then Done
      else match decode(payload)
        case None => Chunk(Skip)
        case Some(chunk) => Chunk(Classify(chunk))
  }

  datatype Status = Completed | Failed(failure: Failure)

  /** The chunks emitted, the accumulated text and how the loop ended. */
  datatype Outcome = Outcome(emitted: seq<string>, text: string, status: Status)

  /** Prefix already emitted chunks and text to the outcome of the rest. */
  function Then(emitted: seq<string>, text: string, rest: Outcome): Outcome
  {
    Outcome(emitted + rest.emitted, text + rest.text, rest.status)
  }

  /** The effect of one line on the outcome of the lines after it. */
  function Step(action: LineAction, rest: Outcome): Outcome
  {
    match action
    case NotData => rest
    case Done => Outcome([], "", Completed)
    case Chunk(Skip) => rest
    case Chunk(Content(c)) => Then([c], c, rest)
    case Chunk(Abort(f)) => Outcome([], "", Failed(f))
  }

  /** The loop as a right fold over the lines. */
  function Fold(lines: seq<string>, decode: string -> Option<Json>): Outcome
    decreases |lines|
  {
    if lines == [] then Outcome([], "", Completed)
    else Step(ClassifyLine(lines[0], decode), Fold(lines[1..], decode))
  }

  /** A line that ends the loop: the `[DONE]` sentinel or a chunk that escapes. */
  predicate Stops(line: string, decode: string -> Option<Json>)
  {
    var a := ClassifyLine(line, decode);
    a.Done? || (a.Chunk? && a.outcome.Abort?)
  }

  lemma FoldUnfold(lines: seq<string>, i: int, decode: string -> Option<Json>)
    requires 0 <= i < |lines|
    ensures Fold(lines[i..], decode) == Step(ClassifyLine(lines[i], decode), Fold(lines[i + 1..], decode))
  {
    assert lines[i..][0] == lines[i] && lines[i..][1..] == lines[i + 1..];
  }

  lemma ThenEmpty(emitted: seq<string>, text: string, status: Status)
    ensures Then(emitted, text, Outcome([], "", status)) == Outcome(emitted, text, status)
  {
    assert emitted + [] == emitted && text + "" == text;
  }

  lemma ThenAssoc(emitted: seq<string>, text: string, c: string, rest: Outcome)
    ensures Then(emitted, text, Then([c], c, rest)) == Then(emitted + [c], text + c, rest)
  {
    assert emitted + ([c] + rest.emitted) == (emitted + [c]) + rest.emitted;
    assert text + (c + rest.text) == (text + c) + rest.text;
  }

  /** The worker loop, run line by line; the text it accumulates and the
      chunks it emits are exactly those of the fold. */
  method Run(lines: seq<string>, decode: string -> Option<Json>)
    returns (emitted: seq<string>, text: string, status: Status)
    ensures Outcome(emitted, text, status) == Fold(lines, decode)
  {
    emitted, text, status := [], "", Completed;
    var i := 0;
    var stopped := false;
    while i < |lines| && !stopped
      invariant 0 <= i <= |lines|
      invariant !stopped ==> status == Completed
      invariant !stopped ==> Fold(lines, decode) == Then(emitted, text, Fold(lines[i..], decode))
      invariant stopped ==> Fold(lines, decode) == Outcome(emitted, text, status)
    {
      var action := ClassifyLine(lines[i], decode);
      ghost var rest := Fold(lines[i + 1..], decode);
      FoldUnfold(lines, i, decode);
      i := i + 1;
      match action
      case NotData =>
      case Done =>
        ThenEmpty(emitted, text, Completed);
        stopped := true;
      case Chunk(Skip) =>
      case Chunk(Content(c)) =>
        ThenAssoc(emitted, text, c, rest);
        emitted, text := emitted + [c], text + c;
      case Chunk(Abort(f)) =>
        ThenEmpty(emitted, text, Failed(f));
        status := Failed(f);
        stopped := true;
    }
  }

  /** How a worker's response arrives: the connection or the HTTP status
      check fails before any line is read, or the body is read line by line. */
  datatype Response = TransportError | Body(lines: seq<string>)

  /** What a worker signals: the chunks it emitted, then either the final
      text or an error. */
  datatype WorkerResult = Finished(chunks: seq<string>, text: string) | Errored(chunks: seq<string>)

  const ChatPath := "/chat/completions"

  /** The request URL: the base URL without its trailing slashes, then the
      chat-completions path. */
  function ChatUrl(baseUrl: string): (url: string)
    ensures EndsWith(url, ChatPath)
    ensures var root := url[..|url| - |ChatPath|];
            StartsWith(baseUrl, root) && (root == [] || root[|root| - 1] != '/')
            && forall i :: |root| <= i < |baseUrl| ==> baseUrl[i] == '/'
  {
    var root := RStripChar(baseUrl, '/');
    assert (root + ChatPath)[..|root|] == root;
    root + ChatPath
  }

  /** The request a worker sends. */
  datatype Request = Request(url: string, headers: map<string, string>, payload: Json)

  /** The two headers both workers send. */
  function Headers(apiKey: string): map<string, string>
  {
    map["Content-Type" := "application/json", "Authorization" := "Bearer " + apiKey]
  }

  lemma {:induction false} FoldTextIsConcat(lines: seq<string>, decode: string -> Option<Json>)
    ensures Fold(lines, decode).text == Concat(Fold(lines, decode).emitted)
    ensures forall k :: 0 <= k < |Fold(lines, decode).emitted| ==> Fold(lines, decode).emitted[k] != ""
    decreases |lines|
  {
    if lines != [] {
      FoldTextIsConcat(lines[1..], decode);
      var rest := Fold(lines[1..], decode);
      match ClassifyLine(lines[0], decode)
      case NotData =>
      case Done =>
      case Chunk(Skip) =>
      case Chunk(Content(c)) =>
        assert ([c] + rest.emitted)[1..] == rest.emitted;
      case Chunk(Abort(f)) =>
    }
  }

  /** Lines after the first `[DONE]` have no effect, and neither does the
      sentinel itself. */
  lemma {:induction false} DoneEndsStream(pre: seq<string>, done: string, post: seq<string>,
                                          decode: string -> Option<Json>)
    requires ClassifyLine(done, decode).Done?
    ensures Fold(pre + [done] + post, decode) == Fold(pre, decode)
    decreases |pre|
  {
    if pre == [] {
      assert (pre + [done] + post)[0] == done;
    } else {
      assert (pre + [done] + post)[0] == pre[0];
      assert (pre + [done] + post)[1..] == pre[1..] + [done] + post;
      DoneEndsStream(pre[1..], done, post, decode);
    }
  }

  /** A line without the `data: ` prefix is skipped wherever it occurs. */
  lemma {:induction false} NonDataLineSkipped(pre: seq<string>, line: string, post: seq<string>,
                                              decode: string -> Option<Json>)
    requires !StartsWith(line, DataPrefix)
    ensures Fold(pre + [line] + post, decode) == Fold(pre + post, decode)
    decreases |pre|
  {
    if pre == [] {
      assert (pre + [line] + post)[1..] == post;
      assert pre + post == post;
    } else {
      assert (pre + [line] + post)[0] == pre[0] && (pre + post)[0] == pre[0];
      assert (pre + [line] + post)[1..] == pre[1..] + [line] + post;
      assert (pre + post)[1..] == pre[1..] + post;
      NonDataLineSkipped(pre[1..], line, post, decode);
    }
  }

  /** A chunk that escapes the inner handler ends the run with an error; the
      chunks before it were already emitted. */
  lemma {:induction false} AbortEndsInError(pre: seq<string>, bad: string, post: seq<string>,
                                            decode: string -> Option<Json>)
    requires forall k :: 0 <= k < |pre| ==> !Stops(pre[k], decode)
    requires ClassifyLine(bad, decode).Chunk? && ClassifyLine(bad, decode).outcome.Abort?
    ensures Fold(pre + [bad] + post, decode).status == Failed(ClassifyLine(bad, decode).outcome.failure)
    ensures Fold(pre + [bad] + post, decode).emitted == Fold(pre, decode).emitted
    decreases |pre|
  {
    if pre == [] {
      assert (pre + [bad] + post)[0] == bad;
    } else {
      assert (pre + [bad] + post)[0] == pre[0];
      assert (pre + [bad] + post)[1..] == pre[1..] + [bad] + post;
      assert !Stops(pre[0], decode);
      AbortEndsInError(pre[1..], bad, post, decode);
    }
  }

  /** A run whose lines never stop it completes. */
  lemma {:induction false} NoStopCompletes(lines: seq<string>, decode: string -> Option<Json>)
    requires forall k :: 0 <= k < |lines| ==> !Stops(lines[k], decode)
    ensures Fold(lines, decode).status == Completed
    decreases |lines|
  {
    if lines != [] {
      assert !Stops(lines[0], decode);
      NoStopCompletes(lines[1..], decode);
    }
  }
}
