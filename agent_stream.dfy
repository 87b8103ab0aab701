/** `streamAgentMessage`: the streaming chat request. The response body is
    read chunk by chunk into a carry-over buffer, split into lines on
    `\r?\n`, and every complete line starting with `data:` is handed on as
    either the `[DONE]` sentinel or a JSON event; what is left in the buffer
    when the body ends is read once more, trimmed, as a last line. The line
    format borrows the `data:` field of Server-Sent Events (section 9.2 of
    the WHATWG HTML Living Standard) but treats every line as its own event
    and ignores blank lines and all other fields. */
module AgentStream {
  import opened Js
  import opened ApiErrors
  import opened AgentRecords

  // ---------------------------------------------------------------------
  // Framing
  // ---------------------------------------------------------------------

  function Init<T>(s: seq<T>): seq<T>
    requires |s| >= 1
  {
    s[..|s| - 1]
  }

  function Last<T>(s: seq<T>): T
    requires |s| >= 1
  {
    s[|s| - 1]
  }

  /** A piece that a `\n` ends loses one `\r` before it. */
  function DropCr(w: string): string {
    if w != [] && w[|w| - 1] == '\r' then w[..|w| - 1] else w
  }

  /** One more character scanned: a `\n` closes the open piece (without the
      `\r` of a `\r\n`) and opens an empty one; any other character extends
      the open piece. */
  function Feed(pieces: seq<string>, x: char): (r: seq<string>)
    requires |pieces| >= 1
    ensures |r| >= 1
    ensures x != '\n' ==> |r| == |pieces| && Last(r) == Last(pieces) + [x]
    ensures x == '\n' ==> Last(r) == []
  {
    if x == '\n' then Init(pieces) + [DropCr(Last(pieces)), ""]
    else Init(pieces) + [Last(pieces) + [x]]
  }

  /** `s.split(/\r?\n/)`: the pieces between separators, where a separator
      is `\r\n` or a bare `\n`. Scanning left to right, every `\n` ends a
      line, and the `\r` just before it, if any, belongs to the separator;
      this is what the leftmost match of `\r?\n` finds. There is always at
      least one piece, and the last one holds no `\n`. */
  function SplitLines(s: string): (r: seq<string>)
    ensures |r| >= 1
    ensures '\n' !in Last(r)
    decreases |s|
  {
    if s == [] then [""] else Feed(SplitLines(Init(s)), Last(s))
  }

  /** Feeding only touches the open, last piece. */
  lemma FeedKeepsClosedPieces(closed: seq<string>, open: seq<string>, x: char)
    requires |open| >= 1
    ensures Feed(closed + open, x) == closed + Feed(open, x)
  {
    assert Init(closed + open) == closed + Init(open);
    assert Last(closed + open) == Last(open);
  }

  /** Text without a line feed is a single piece. */
  lemma {:induction false} SplitLinesOfLine(w: string)
    requires '\n' !in w
    ensures SplitLines(w) == [w]
    decreases |w|
  {
    if w != [] {
      assert '\n' !in Init(w) by {
        assert forall k :: 0 <= k < |Init(w)| ==> Init(w)[k] == w[k];
      }
      SplitLinesOfLine(Init(w));
      assert Init(w) + [Last(w)] == w;
    }
  }

  /** Appending text only re-splits the last, unterminated piece: the
      complete lines found so far stay as they are. */
  lemma {:induction false} SplitLinesAppend(s: string, c: string)
    ensures SplitLines(s + c) == Init(SplitLines(s)) + SplitLines(Last(SplitLines(s)) + c)
    decreases |c|
  {
    var pieces := SplitLines(s);
    var open := Last(pieces);
    if c == [] {
      assert s + c == s && open + c == open;
      SplitLinesOfLine(open);
      assert Init(pieces) + [open] == pieces;
    } else {
      SplitLinesAppend(s, Init(c));
      InitLastAppend(s, c);
      InitLastAppend(open, c);
      FeedKeepsClosedPieces(Init(pieces), SplitLines(open + Init(c)), Last(c));
    }
  }

  lemma InitLastAppend(a: string, c: string)
    requires c != []
    ensures Init(a + c) == a + Init(c) && Last(a + c) == Last(c)
  {
  }

  /** Closing a line with `\n`, after text that holds no line feed. */
  lemma CloseLine(a: string)
    requires '\n' !in a
    ensures SplitLines(a + "\n") == [DropCr(a), ""]
  {
    SplitLinesOfLine(a);
    var s := a + "\n";
    assert Init(s) == a && Last(s) == '\n';
  }

  /** Once a line is closed, what follows splits on its own. */
  lemma {:induction false} SplitAfterClosedLine(head: string, first: string, b: string)
    requires SplitLines(head) == [first, ""]
    ensures SplitLines(head + b) == [first] + SplitLines(b)
    decreases |b|
  {
    if b == [] {
      assert head + b == head;
    } else {
      SplitAfterClosedLine(head, first, Init(b));
      InitLastAppend(head, b);
      FeedKeepsClosedPieces([first], SplitLines(Init(b)), Last(b));
    }
  }

  /** The first line of text ended by `\r\n` is the text before the `\r`. */
  lemma SplitLinesCrLf(a: string, b: string)
    requires '\n' !in a
    ensures SplitLines(a + "\r\n" + b) == [a] + SplitLines(b)
  {
    var a1 := a + "\r";
    assert '\n' !in a1;
    CloseLine(a1);
    assert a1 + "\n" == a + "\r\n";
    assert DropCr(a1) == a;
    SplitAfterClosedLine(a + "\r\n", a, b);
  }

  /** The first line of text ended by a bare `\n` is the text before it,
      when that does not end with `\r`. */
  lemma SplitLinesLf(a: string, b: string)
    requires '\n' !in a && (a == [] || a[|a| - 1] != '\r')
    ensures SplitLines(a + "\n" + b) == [a] + SplitLines(b)
  {
    CloseLine(a);
    SplitAfterClosedLine(a + "\n", a, b);
  }

  // ---------------------------------------------------------------------
  // Lines and events
  // ---------------------------------------------------------------------

  /** What one line is: ignored, the sentinel, or an event payload. */
  datatype LineKind = Ignored | Sentinel | Payload(data: string)

  /** The classification inside the read loop: only a line starting with
      `data:` counts; its payload is what follows, with leading white space
      dropped; an empty payload is ignored. The line is not trimmed. */
  function Classify(line: string): (k: LineKind)
    ensures !StartsWith(line, "data:") ==> k == Ignored
    ensures k.Payload? ==> k.data != [] && k.data != "[DONE]" && !IsSpace(k.data[0])
    ensures k.Payload? ==> line == "data:" + line[5..] && k.data == TrimStart(line[5..])
    ensures k == Sentinel <==> StartsWith(line, "data:") && TrimStart(line[5..]) == "[DONE]"
    ensures StartsWith(line, "data:") && TrimStart(line[5..]) == [] ==> k == Ignored
    ensures StartsWith(line, "data:") && TrimStart(line[5..]) != [] && TrimStart(line[5..]) != "[DONE]"
      ==> k == Payload(TrimStart(line[5..]))
  {
    if !StartsWith(line, "data:") then Ignored
    else
      var data := TrimStart(line[5..]);
      if data == [] then Ignored
      else if data == "[DONE]" then Sentinel
      else Payload(data)
  }

  /** A callback invocation: `onEvent(event)` or `onDone()`. */
  datatype Signal = Event(event: AgentStreamEvent) | Done

  /** The signals delivered so far, and whether the sentinel has ended the
      stream. */
  datatype Run = Run(signals: seq<Signal>, finished: bool)

  const Start := Run([], false)

  /** One line of the loop, after an unfinished run: the sentinel calls
      `onDone` and ends the stream; a payload that parses into an event
      calls `onEvent`; anything else is skipped. */
  function Step(run: Run, line: string, parse: string -> Option<Value>): (r: Run)
    ensures r == run
         || r == Run(run.signals + [Done], true)
         || (!r.finished && |r.signals| == |run.signals| + 1 && r.signals[|run.signals|].Event?
             && r.signals[..|run.signals|] == run.signals)
    ensures Classify(line) == Ignored ==> r == run
    ensures Classify(line) == Sentinel ==> r == Run(run.signals + [Done], true)
    ensures Classify(line).Payload? ==>
      var e := ToAgentStreamEvent(parse(Classify(line).data));
      r == if e.Some? then Run(run.signals + [Event(e.value)], false) else run
  {
    match Classify(line)
    case Ignored => run
    case Sentinel => Run(run.signals + [Done], true)
    case Payload(data) =>
      match ToAgentStreamEvent(parse(data))
      case None => run
      case Some(e) => Run(run.signals + [Event(e)], false)
  }

  /** The lines handled in order from `start`; once the sentinel has been
      met, later lines are not looked at. */
  function RunFrom(start: Run, lines: seq<string>, parse: string -> Option<Value>): Run
    decreases |lines|
  {
    if lines == [] then start
    else
      var prev := RunFrom(start, Init(lines), parse);
      if prev.finished then prev else Step(prev, Last(lines), parse)
  }

  function RunLines(lines: seq<string>, parse: string -> Option<Value>): Run {
    RunFrom(Start, lines, parse)
  }

  /** A finished run stays as it is whatever lines follow. */
  lemma {:induction false} FinishedRunAbsorbs(run: Run, lines: seq<string>, parse: string -> Option<Value>)
    requires run.finished
    ensures RunFrom(run, lines, parse) == run
    decreases |lines|
  {
    if lines != [] {
      FinishedRunAbsorbs(run, Init(lines), parse);
    }
  }

  /** Handling `a + b` is handling `a`, then `b` from where `a` left off. */
  lemma {:induction false} RunFromAppend(start: Run, a: seq<string>, b: seq<string>, parse: string -> Option<Value>)
    ensures RunFrom(start, a + b, parse) == RunFrom(RunFrom(start, a, parse), b, parse)
    decreases |b|
  {
    if b == [] {
      assert a + b == a;
    } else {
      assert Init(a + b) == a + Init(b);
      assert Last(a + b) == Last(b);
      RunFromAppend(start, a, Init(b), parse);
    }
  }

  /** The lines after the sentinel are never processed. */
  lemma SentinelEndsTheBatch(before: seq<string>, after: seq<string>, parse: string -> Option<Value>)
    requires RunLines(before, parse).finished
    ensures RunLines(before + after, parse) == RunLines(before, parse)
  {
    RunFromAppend(Start, before, after, parse);
    FinishedRunAbsorbs(RunLines(before, parse), after, parse);
  }

  /** The stream is finished after a batch of lines exactly when one of
      them is the sentinel. */
  lemma {:induction false} RunLinesFinishedIffSentinel(lines: seq<string>, parse: string -> Option<Value>)
    ensures RunLines(lines, parse).finished <==> exists i :: 0 <= i < |lines| && Classify(lines[i]) == Sentinel
    decreases |lines|
  {
    if lines != [] {
      var init := Init(lines);
      RunLinesFinishedIffSentinel(init, parse);
      assert forall i :: 0 <= i < |init| ==> init[i] == lines[i];
      assert lines == init + [Last(lines)];
      if !RunLines(init, parse).finished && Classify(Last(lines)) != Sentinel {
        assert forall i :: 0 <= i < |lines| ==> Classify(lines[i]) != Sentinel by {
          forall i | 0 <= i < |lines| ensures Classify(lines[i]) != Sentinel {
            if i < |init| {
              assert lines[i] == init[i];
            }
          }
        }
      }
    }
  }

  /** `onDone` is delivered at most once, as the last signal, exactly when
      the sentinel was met. */
  predicate DoneOnlyAtEnd(signals: seq<Signal>, finished: bool) {
    if finished then signals != [] && signals[|signals| - 1] == Done && Done !in signals[..|signals| - 1]
    else Done !in signals
  }

  lemma {:induction false} RunLinesDoneOnlyAtEnd(lines: seq<string>, parse: string -> Option<Value>)
    ensures var run := RunLines(lines, parse); DoneOnlyAtEnd(run.signals, run.finished)
    decreases |lines|
  {
    if lines != [] {
      RunLinesDoneOnlyAtEnd(Init(lines), parse);
      var prev := RunLines(Init(lines), parse);
      if !prev.finished {
        StepDoneOnlyAtEnd(prev, Last(lines), parse);
      }
    }
  }

  /** One step from an unfinished run adds `onDone` only with the sentinel. */
  lemma StepDoneOnlyAtEnd(prev: Run, line: string, parse: string -> Option<Value>)
    requires !prev.finished && Done !in prev.signals
    ensures var run := Step(prev, line, parse); DoneOnlyAtEnd(run.signals, run.finished)
  {
    var run := Step(prev, line, parse);
    if run == Run(prev.signals + [Done], true) {
      assert run.signals[..|run.signals| - 1] == prev.signals;
    } else if run != prev {
      assert run.signals == prev.signals + [run.signals[|prev.signals|]];
    }
  }

  /** The handling of the text left in the buffer at the end of the body:
      trimmed this time, it may hold the sentinel or one last event;
      `onDone` follows in every case but the sentinel, where it is the
      sentinel's own. */
  function TailSignals(buffer: string, parse: string -> Option<Value>): (r: seq<Signal>)
    ensures 1 <= |r| <= 2 && r[|r| - 1] == Done && (|r| == 2 ==> r[0].Event?)
  {
    var tail := Trim(buffer);
    if StartsWith(tail, "data:") then
      var data := TrimStart(tail[5..]);
      if data == "[DONE]" then [Done]
      else
        match ToAgentStreamEvent(parse(data))
        case None => [Done]
        case Some(e) => [Event(e), Done]
    else [Done]
  }

  // ---------------------------------------------------------------------
  // The request
  // ---------------------------------------------------------------------

  /** Why reading stopped without an answer: the request was aborted
      through its signal, or the network failed. */
  datatype ReadError = Aborted | NetworkFailure

  /** How the body ends after its last chunk: it closes, or the read fails. */
  datatype BodyEnd = Closed | Broken(reason: ReadError)

  /** A response body as the decoded text of its chunks. */
  datatype Body = Body(chunks: seq<string>, end: BodyEnd)

  /** What the client reads of a response: the status, the content type
      ('' when absent), the body as JSON (None when it does not parse) and
      the body stream, when there is one. */
  datatype Response = Response(status: int, contentType: string, json: Option<Value>, body: Option<Body>)

  datatype Reply = Answered(response: Response) | FetchFailed(reason: ReadError)

  /** `AgentStreamPayload` as received. */
  datatype StreamPayload = StreamPayload(sessionId: Value, message: Value, images: Value)

  /** The JSON body posted to the stream endpoint. */
  datatype StreamRequest = StreamRequest(sessionId: string, message: string, images: seq<string>)

  datatype Failure = Refused(error: ApiError) | Interrupted(reason: ReadError)

  /** The callbacks delivered, and the error raised at the end, if any. */
  datatype Outcome = Outcome(signals: seq<Signal>, failure: Option<Failure>)

  predicate IsOk(status: int) {
    200 <= status <= 299
  }

  const MissingMessage := "消息不能为空"
  const StreamUnavailable := "流式响应不可用"

  /** The fallback message of `resolveStreamError`, naming the status when
      there is one (a zero status counts as none). */
  function FallbackMessage(status: int): (m: string)
    ensures status == 0 ==> m == "请求失败"
    ensures status != 0 ==> m == "请求失败（" + IntString(status) + "）"
  {
    if status != 0 then "请求失败（" + IntString(status) + "）" else "请求失败"
  }

  /** `resolveStreamError` over the response's status and its body read as
      JSON: a non-blank `message` of an object body wins over the fallback,
      and a numeric `code` is kept. */
  function ResolveStreamError(status: int, payload: Option<Value>): (e: ApiError)
    ensures e.status == Some(status)
    ensures var readable := payload.Some? && IsObject(payload.value);
      && (readable && ToText(Field(payload.value, "message")) != [] ==> e.message == ToText(Field(payload.value, "message")))
      && (!(readable && ToText(Field(payload.value, "message")) != []) ==> e.message == FallbackMessage(status))
      && (readable && Field(payload.value, "code").Num? ==> e.code == Some(Field(payload.value, "code").n))
      && (!(readable && Field(payload.value, "code").Num?) ==> e.code.None?)
  {
    var fallback := FallbackMessage(status);
    if payload.None? || !IsObject(payload.value) then ApiError(fallback, None, Some(status))
    else
      var p := payload.value;
      var message := ToOptionalText(Field(p, "message"));
      var code := Field(p, "code");
      ApiError(if message.Some? then message.value else fallback, if code.Num? then Some(code.n) else None, Some(status))
  }

  /** The concatenation of the chunks. */
  function Concat(chunks: seq<string>): string
    decreases |chunks|
  {
    if chunks == [] then "" else Concat(Init(chunks)) + Last(chunks)
  }

  /** What reading the whole body yields, stated on its whole text: the
      complete lines in order until the sentinel; then, if the body closed,
      the trimmed remainder and `onDone`; if the read failed, its error. */
  function BodySpec(text: string, end: BodyEnd, parse: string -> Option<Value>): Outcome {
    var pieces := SplitLines(text);
    var run := RunLines(Init(pieces), parse);
    if run.finished then Outcome(run.signals, None)
    else
      match end
      case Closed => Outcome(run.signals + TailSignals(Last(pieces), parse), None)
      case Broken(reason) => Outcome(run.signals, Some(Interrupted(reason)))
  }

  /** `streamAgentMessage` as a whole, with the transport `server` and
      `JSON.parse` as parameters. */
  function StreamSpec(payload: StreamPayload, server: StreamRequest -> Reply, parse: string -> Option<Value>): Outcome {
    var sessionId := ToText(payload.sessionId);
    var content := ToText(payload.message);
    if sessionId == [] then Outcome([], Some(Refused(Plain(MissingSessionId))))
    else if content == [] then Outcome([], Some(Refused(Plain(MissingMessage))))
    else ReplyOutcome(server(StreamRequest(sessionId, content, ToTextArray(payload.images))), parse)
  }

  /** What follows the request: a failed fetch, a refused response (an
      error status or a JSON body), a missing body, or the body read. */
  function ReplyOutcome(reply: Reply, parse: string -> Option<Value>): Outcome {
    match reply
    case FetchFailed(reason) => Outcome([], Some(Interrupted(reason)))
    case Answered(response) =>
      if !IsOk(response.status) || Includes(response.contentType, "application/json") then
        Outcome([], Some(Refused(ResolveStreamError(response.status, response.json))))
      else if response.body.None? then
        Outcome([], Some(Refused(ApiError(StreamUnavailable, None, Some(response.status)))))
      else
        BodySpec(Concat(response.body.value.chunks), response.body.value.end, parse)
  }

  /** The body delivers `onDone` at most once, last, and exactly when it
      ends without an error. */
  lemma BodyDoneOnlyAtEnd(text: string, end: BodyEnd, parse: string -> Option<Value>)
    ensures var o := BodySpec(text, end, parse); DoneOnlyAtEnd(o.signals, o.failure.None?)
  {
    var pieces := SplitLines(text);
    RunLinesDoneOnlyAtEnd(Init(pieces), parse);
    var run := RunLines(Init(pieces), parse);
    if !run.finished && end.Closed? {
      var tail := TailSignals(Last(pieces), parse);
      DoneOnlyAtEndAppend(run.signals, tail);
    }
  }

  lemma DoneOnlyAtEndAppend(a: seq<Signal>, tail: seq<Signal>)
    requires Done !in a
    requires 1 <= |tail| <= 2 && tail[|tail| - 1] == Done && (|tail| == 2 ==> tail[0].Event?)
    ensures DoneOnlyAtEnd(a + tail, true)
  {
    var all := a + tail;
    assert all[..|all| - 1] == a + tail[..|tail| - 1];
    assert Done !in tail[..|tail| - 1];
  }

  /** On every normal exit `onDone` is called exactly once, as the last
      callback; when an error is raised it is not called at all. */
  lemma StreamDoneExactlyOnce(payload: StreamPayload, server: StreamRequest -> Reply, parse: string -> Option<Value>)
    ensures var o := StreamSpec(payload, server, parse); DoneOnlyAtEnd(o.signals, o.failure.None?)
  {
    var sessionId := ToText(payload.sessionId);
    var content := ToText(payload.message);
    if sessionId != [] && content != [] {
      ReplyDoneOnlyAtEnd(server(StreamRequest(sessionId, content, ToTextArray(payload.images))), parse);
    }
  }

  lemma ReplyDoneOnlyAtEnd(reply: Reply, parse: string -> Option<Value>)
    ensures var o := ReplyOutcome(reply, parse); DoneOnlyAtEnd(o.signals, o.failure.None?)
  {
    if reply.Answered? && reply.response.body.Some? {
      BodyDoneOnlyAtEnd(Concat(reply.response.body.value.chunks), reply.response.body.value.end, parse);
    }
  }

  lemma {:induction false} ConcatAppend(a: seq<string>, b: seq<string>)
    ensures Concat(a + b) == Concat(a) + Concat(b)
    decreases |b|
  {
    if b == [] {
      assert a + b == a;
    } else {
      assert Init(a + b) == a + Init(b) && Last(a + b) == Last(b);
      ConcatAppend(a, Init(b));
    }
  }

  /** After a chunk, the complete lines of everything read so far are the
      earlier ones followed by those of the buffer with the chunk appended,
      and the new buffer is the last piece of that. */
  lemma BufferedSplit(consumed: string, chunk: string)
    ensures var b := Last(SplitLines(consumed)) + chunk;
      && Init(SplitLines(consumed + chunk)) == Init(SplitLines(consumed)) + Init(SplitLines(b))
      && Last(SplitLines(consumed + chunk)) == Last(SplitLines(b))
  {
    SplitLinesAppend(consumed, chunk);
  }

  /** Once the sentinel has been met in the text read so far, nothing read
      later changes the signals. */
  lemma FinishedPrefix(prefix: string, rest: string, parse: string -> Option<Value>)
    requires RunLines(Init(SplitLines(prefix)), parse).finished
    ensures RunLines(Init(SplitLines(prefix + rest)), parse) == RunLines(Init(SplitLines(prefix)), parse)
  {
    BufferedSplit(prefix, rest);
    SentinelEndsTheBatch(Init(SplitLines(prefix)), Init(SplitLines(Last(SplitLines(prefix)) + rest)), parse);
  }

  /** The batch of lines a chunk completes continues the run of the lines
      completed before it. */
  lemma NextBatch(consumed: string, chunk: string, signals: seq<Signal>, parse: string -> Option<Value>)
    requires RunLines(Init(SplitLines(consumed)), parse) == Run(signals, false)
    ensures var lines := SplitLines(Last(SplitLines(consumed)) + chunk);
      && RunLines(Init(SplitLines(consumed + chunk)), parse) == RunFrom(Run(signals, false), Init(lines), parse)
      && Last(SplitLines(consumed + chunk)) == Last(lines)
  {
    BufferedSplit(consumed, chunk);
    RunFromAppend(Start, Init(SplitLines(consumed)), Init(SplitLines(Last(SplitLines(consumed)) + chunk)), parse);
  }

  lemma ChunkStep(chunks: seq<string>, i: nat)
    requires i < |chunks|
    ensures Concat(chunks[..i + 1]) == Concat(chunks[..i]) + chunks[i]
  {
    assert Init(chunks[..i + 1]) == chunks[..i] && Last(chunks[..i + 1]) == chunks[i];
  }

  lemma ConcatSplit(chunks: seq<string>, k: nat)
    requires k <= |chunks|
    ensures Concat(chunks) == Concat(chunks[..k]) + Concat(chunks[k..])
  {
    assert chunks == chunks[..k] + chunks[k..];
    ConcatAppend(chunks[..k], chunks[k..]);
  }

  /** Once the chunks up to `i` hold the sentinel, the outcome of the whole
      body is fixed. */
  lemma FinishedBody(chunks: seq<string>, i: nat, end: BodyEnd, parse: string -> Option<Value>)
    requires i < |chunks|
    requires RunLines(Init(SplitLines(Concat(chunks[..i + 1]))), parse).finished
    ensures BodySpec(Concat(chunks), end, parse)
      == Outcome(RunLines(Init(SplitLines(Concat(chunks[..i + 1]))), parse).signals, None)
  {
    var done, later := chunks[..i + 1], chunks[i + 1..];
    ConcatSplit(chunks, i + 1);
    var text := Concat(done) + Concat(later);
    FinishedPrefix(Concat(done), Concat(later), parse);
    var run := RunLines(Init(SplitLines(text)), parse);
    assert run == RunLines(Init(SplitLines(Concat(done))), parse);
    assert BodySpec(text, end, parse) == Outcome(run.signals, None);
  }

  /** The `for` loop over one batch of complete lines: lines are handled in
      order, and the sentinel stops the batch at once. */
  method HandleLines(lines: seq<string>, signals0: seq<Signal>, parse: string -> Option<Value>)
    returns (signals: seq<Signal>, finished: bool)
    ensures Run(signals, finished) == RunFrom(Run(signals0, false), lines, parse)
  {
    signals := signals0;
    finished := false;
    var j := 0;
    while j < |lines|
      invariant 0 <= j <= |lines|
      invariant RunFrom(Run(signals0, false), lines[..j], parse) == Run(signals, false)
    {
      assert Init(lines[..j + 1]) == lines[..j] && Last(lines[..j + 1]) == lines[j];
      signals, finished := HandleLine(lines[j], signals, parse);
      if finished {
        assert lines == lines[..j + 1] + lines[j + 1..];
        RunFromAppend(Run(signals0, false), lines[..j + 1], lines[j + 1..], parse);
        FinishedRunAbsorbs(Run(signals, true), lines[j + 1..], parse);
        return;
      }
      j := j + 1;
    }
    assert lines[..j] == lines;
  }

  /** One line inside the loop: the sentinel calls `onDone` and stops; a
      payload that parses into an event calls `onEvent`. */
  method HandleLine(line: string, signals0: seq<Signal>, parse: string -> Option<Value>)
    returns (signals: seq<Signal>, finished: bool)
    ensures Run(signals, finished) == Step(Run(signals0, false), line, parse)
  {
    signals, finished := signals0, false;
    match Classify(line) {
      case Ignored =>
      case Sentinel =>
        signals, finished := signals0 + [Done], true;
      case Payload(data) =>
        var event := ToAgentStreamEvent(parse(data));
        if event.Some? {
          signals := signals0 + [Event(event.value)];
        }
    }
  }

  /** The read loop itself: chunks are appended to `buffer`, the complete
      lines are handled in order and the unterminated rest is kept; the
      sentinel returns at once. Whatever the chunking, the outcome is that
      of the whole text. */
  method ReadBody(body: Body, parse: string -> Option<Value>) returns (outcome: Outcome)
    ensures outcome == BodySpec(Concat(body.chunks), body.end, parse)
  {
    var chunks := body.chunks;
    var buffer := "";
    var signals: seq<Signal> := [];
    var i := 0;
    ghost var consumed := "";
    while i < |chunks|
      invariant 0 <= i <= |chunks|
      invariant consumed == Concat(chunks[..i])
      invariant buffer == Last(SplitLines(consumed))
      invariant RunLines(Init(SplitLines(consumed)), parse) == Run(signals, false)
    {
      var lines := SplitLines(buffer + chunks[i]);
      var finished;
      NextBatch(consumed, chunks[i], signals, parse);
      ChunkStep(chunks, i);
      signals, finished := HandleLines(Init(lines), signals, parse);
      buffer := Last(lines);
      consumed := consumed + chunks[i];
      if finished {
        FinishedBody(chunks, i, body.end, parse);
        return Outcome(signals, None);
      }
      i := i + 1;
    }
    assert chunks[..i] == chunks;
    match body.end
    case Broken(reason) =>
      outcome := Outcome(signals, Some(Interrupted(reason)));
    case Closed =>
      var last := HandleTail(buffer, parse);
      outcome := Outcome(signals + last, None);
  }

  /** The tail handling after the body closed: the trimmed remainder may
      carry the sentinel or one last event; `onDone` is called in every
      case. */
  method HandleTail(buffer: string, parse: string -> Option<Value>) returns (signals: seq<Signal>)
    ensures signals == TailSignals(buffer, parse)
  {
    var tail := Trim(buffer);
    if !StartsWith(tail, "data:") {
      return [Done];
    }
    var data := TrimStart(tail[5..]);
    if data == "[DONE]" {
      return [Done];
    }
    var event := ToAgentStreamEvent(parse(data));
    if event.None? {
      return [Done];
    }
    signals := [Event(event.value), Done];
  }

  /** `streamAgentMessage`: the checks made before and after the request,
      then the read loop. */
  method StreamAgentMessage(payload: StreamPayload, server: StreamRequest -> Reply, parse: string -> Option<Value>)
    returns (outcome: Outcome)
    ensures outcome == StreamSpec(payload, server, parse)
  {
    var sessionId := ToText(payload.sessionId);
    var content := ToText(payload.message);
    if sessionId == [] {
      return Outcome([], Some(Refused(Plain(MissingSessionId))));
    }
    if content == [] {
      return Outcome([], Some(Refused(Plain(MissingMessage))));
    }
    var reply := server(StreamRequest(sessionId, content, ToTextArray(payload.images)));
    if reply.FetchFailed? {
      return Outcome([], Some(Interrupted(reply.reason)));
    }
    var response := reply.response;
    if !IsOk(response.status) || Includes(response.contentType, "application/json") {
      return Outcome([], Some(Refused(ResolveStreamError(response.status, response.json))));
    }
    if response.body.None? {
      return Outcome([], Some(Refused(ApiError(StreamUnavailable, None, Some(response.status)))));
    }
    outcome := ReadBody(response.body.value, parse);
  }
}
