/** The agent chat page: labels for sessions and tool activity, and the
    conversation bubbles that a submitted message and its streamed reply
    produce. */
module AgentPage {
  import opened Js
  import opened ApiErrors
  import opened AgentRecords
  import AgentStream

  // ---------------------------------------------------------------------
  // Display texts
  // ---------------------------------------------------------------------

  /** `toDisplayText`: the trimmed value, or the fallback when it is blank. */
  function ToDisplayText(value: string, fallback: string): (r: string)
    ensures Trim(value) != [] ==> r == Trim(value)
    ensures Trim(value) == [] ==> r == fallback
    ensures r != [] <==> !AllSpace(value) || fallback != []
  {
    var normalized := Trim(value);
    if normalized != [] then normalized else fallback
  }

  const RecentlyUpdated: string := "刚刚更新"

  /** `toSessionTimeLabel`: a session's time, never blank. */
  function ToSessionTimeLabel(value: string): (r: string)
    ensures r != [] && IsTrimmed(r)
    ensures !AllSpace(value) ==> r == Trim(value)
    ensures AllSpace(value) ==> r == RecentlyUpdated
  {
    ToDisplayText(value, RecentlyUpdated)
  }

  /** An entry of the session list: keyed by the session id, with a title
      that falls back to the numbered `会话 n` and a time label. */
  datatype ConversationItem = ConversationItem(key: string, title: string, timeLabel: string)

  /** The entry of the `n`-th session (counting from 1). */
  function ConversationItemOf(s: AgentSession, n: nat): (c: ConversationItem)
    ensures c.key == s.sessionId
    ensures c.title == ToDisplayText(s.title, "会话 " + IntString(n)) && c.title != []
    ensures c.timeLabel == ToSessionTimeLabel(if s.updatedAt != [] then s.updatedAt else s.createdAt)
    ensures c.timeLabel != []
  {
    var fallback := "会话 " + IntString(n);
    assert fallback[0] == '会';
    ConversationItem(
      s.sessionId,
      ToDisplayText(s.title, fallback),
      ToSessionTimeLabel(if s.updatedAt != [] then s.updatedAt else s.createdAt))
  }

  function ConversationItems(sessions: seq<AgentSession>): (r: seq<ConversationItem>)
    ensures |r| == |sessions|
    ensures forall i :: 0 <= i < |r| ==>
      && r[i].key == sessions[i].sessionId
      && r[i].title == ToDisplayText(sessions[i].title, "会话 " + IntString(i + 1))
      && r[i].title != [] && r[i].timeLabel != []
      && r[i].timeLabel == ToSessionTimeLabel(if sessions[i].updatedAt != [] then sessions[i].updatedAt else sessions[i].createdAt)
  {
    seq(|sessions|, i requires 0 <= i < |sessions| => ConversationItemOf(sessions[i], i + 1))
  }

  /** `TOOL_RESULT_MAX_LENGTH` */
  const ToolResultMaxLength: nat := 180

  /** The characters that are not white space, in order. */
  function NonSpace(s: string): string {
    if s == [] then [] else (if IsSpace(s[0]) then [] else [s[0]]) + NonSpace(s[1..])
  }

  lemma {:induction false} NonSpaceAppend(a: string, b: string)
    ensures NonSpace(a + b) == NonSpace(a) + NonSpace(b)
  {
    if a == [] {
      assert a + b == b;
    } else {
      assert (a + b)[0] == a[0] && (a + b)[1..] == a[1..] + b;
      NonSpaceAppend(a[1..], b);
    }
  }

  lemma {:induction false} NonSpaceOfSpace(s: string)
    requires AllSpace(s)
    ensures NonSpace(s) == []
  {
    if s != [] {
      NonSpaceOfSpace(s[1..]);
    }
  }

  /** Trimming keeps every character that is not white space. */
  lemma NonSpaceTrim(s: string)
    ensures NonSpace(Trim(s)) == NonSpace(s)
  {
    NonSpaceTrimStart(s);
    NonSpaceTrimEnd(TrimStart(s));
  }

  lemma NonSpaceTrimStart(s: string)
    ensures NonSpace(TrimStart(s)) == NonSpace(s)
  {
    var t := TrimStart(s);
    var a := s[..|s| - |t|];
    assert s == a + t;
    NonSpaceAppend(a, t);
    NonSpaceOfSpace(a);
  }

  lemma NonSpaceTrimEnd(s: string)
    ensures NonSpace(TrimEnd(s)) == NonSpace(s)
  {
    var t := TrimEnd(s);
    var c := s[|t|..];
    assert s == t + c;
    NonSpaceAppend(t, c);
    NonSpaceOfSpace(c);
  }

  /** `replace(/\s+/g, ' ')`: every maximal run of white space becomes one
      space. The result has no other white space and no two spaces in a
      row. */
  function CollapseSpace(s: string): (r: string)
    ensures forall i :: 0 <= i < |r| && IsSpace(r[i]) ==> r[i] == ' '
    ensures forall i :: 0 <= i < |r| - 1 ==> !(r[i] == ' ' && r[i + 1] == ' ')
    ensures s != [] ==> r != [] && (IsSpace(s[0]) <==> r[0] == ' ')
    decreases |s|
  {
    if s == [] then []
    else if IsSpace(s[0]) then
      " " + CollapseSpace(TrimStart(s[1..]))
    else
      [s[0]] + CollapseSpace(s[1..])
  }

  // A reference reading of `replace(/\s+/g, ' ')`, in two steps: every
  // white space character becomes a space, then every space that follows a
  // space is dropped.

  /** Every white space character replaced by a space. */
  function Blanks(s: string): (r: string)
    ensures |r| == |s|
  {
    seq(|s|, i requires 0 <= i < |s| => if IsSpace(s[i]) then ' ' else s[i])
  }

  /** Drops each space that follows a space. */
  function Squeeze(s: string): string
    decreases |s|
  {
    if |s| <= 1 then s
    else if s[0] == ' ' && s[1] == ' ' then Squeeze(s[1..])
    else [s[0]] + Squeeze(s[1..])
  }

  function Spaces(k: nat): string {
    seq(k, _ => ' ')
  }

  /** A run of spaces behind a space is squeezed away. */
  lemma {:induction false} SqueezeSpaceRun(k: nat, x: string)
    ensures Squeeze([' '] + (Spaces(k) + x)) == Squeeze([' '] + x)
  {
    if k == 0 {
      assert Spaces(k) + x == x;
    } else {
      var y := [' '] + (Spaces(k) + x);
      assert y[0] == ' ' && y[1] == ' ';
      assert y[1..] == [' '] + (Spaces(k - 1) + x);
      SqueezeSpaceRun(k - 1, x);
    }
  }

  /** A space followed by something other than a space stays. */
  lemma SqueezeAfterSpace(x: string)
    requires x == [] || x[0] != ' '
    ensures Squeeze([' '] + x) == [' '] + Squeeze(x)
  {
    if x != [] {
      assert ([' '] + x)[1..] == x;
    }
  }

  /** A character other than a space stays in front. */
  lemma SqueezeAfterChar(c: char, x: string)
    requires c != ' '
    ensures Squeeze([c] + x) == [c] + Squeeze(x)
  {
    if x != [] {
      assert ([c] + x)[1..] == x;
    }
  }

  /** Every maximal run of white space becomes exactly one space:
      `CollapseSpace` equals the two-step reference reading. */
  lemma {:induction false} CollapseByReference(s: string)
    ensures CollapseSpace(s) == Squeeze(Blanks(s))
    decreases |s|
  {
    if s == [] {
    } else if IsSpace(s[0]) {
      var u := TrimStart(s[1..]);
      var k := BlanksOfSpaceRun(s);
      SqueezeSpaceRun(k, Blanks(u));
      SqueezeAfterSpace(Blanks(u));
      CollapseByReference(u);
    } else {
      assert Blanks(s) == [s[0]] + Blanks(s[1..]);
      SqueezeAfterChar(s[0], Blanks(s[1..]));
      CollapseByReference(s[1..]);
    }
  }

  /** A text opening with white space reads, once blanked, as a space, the
      `k` spaces of the rest of its leading white space, and the blanked
      text after them, which does not open with a space. */
  lemma BlanksOfSpaceRun(s: string) returns (k: nat)
    requires s != [] && IsSpace(s[0])
    ensures var u := TrimStart(s[1..]);
      && Blanks(s) == [' '] + (Spaces(k) + Blanks(u))
      && (Blanks(u) == [] || Blanks(u)[0] != ' ')
  {
    BlanksOfSpaceHead(s);
    k := BlanksOfLeadingSpace(s[1..]);
    BlanksHead(TrimStart(s[1..]));
  }

  lemma BlanksOfSpaceHead(s: string)
    requires s != [] && IsSpace(s[0])
    ensures Blanks(s) == [' '] + Blanks(s[1..])
  {
    BlanksAppend([s[0]], s[1..]);
    assert [s[0]] + s[1..] == s;
    BlanksOfSpace([s[0]]);
  }

  lemma BlanksHead(u: string)
    requires u == [] || !IsSpace(u[0])
    ensures Blanks(u) == [] || Blanks(u)[0] != ' '
  {
  }

  /** The leading white space of a text blanks to `k` spaces. */
  lemma BlanksOfLeadingSpace(t: string) returns (k: nat)
    ensures Blanks(t) == Spaces(k) + Blanks(TrimStart(t))
  {
    var u := TrimStart(t);
    k := |t| - |u|;
    var w := t[..k];
    assert t == w + u;
    BlanksAppend(w, u);
    BlanksOfSpace(w);
  }

  lemma BlanksAppend(a: string, b: string)
    ensures Blanks(a + b) == Blanks(a) + Blanks(b)
  {
  }

  lemma BlanksOfSpace(w: string)
    requires AllSpace(w)
    ensures Blanks(w) == Spaces(|w|)
  {
  }

  /** Collapsing keeps every character that is not white space, in order. */
  lemma {:induction false} CollapseKeepsText(s: string)
    ensures NonSpace(CollapseSpace(s)) == NonSpace(s)
    decreases |s|
  {
    if s == [] {
    } else if IsSpace(s[0]) {
      var rest := TrimStart(s[1..]);
      CollapseKeepsText(rest);
      NonSpaceTrimStart(s[1..]);
      NonSpaceAppend(" ", CollapseSpace(rest));
    } else {
      CollapseKeepsText(s[1..]);
      NonSpaceAppend([s[0]], CollapseSpace(s[1..]));
      NonSpaceAppend([s[0]], s[1..]);
      assert s == [s[0]] + s[1..];
    }
  }

  /** A text is blank exactly when its collapsed form is. */
  lemma {:induction false} CollapseBlank(s: string)
    ensures AllSpace(CollapseSpace(s)) <==> AllSpace(s)
    decreases |s|
  {
    if s != [] && IsSpace(s[0]) {
      var rest := TrimStart(s[1..]);
      CollapseBlank(rest);
      BlankAfterSpace(s);
      BlankAfterOneSpace(CollapseSpace(rest));
    } else if s != [] {
      assert !AllSpace(s);
    }
  }

  /** Behind a leading space, a text is blank exactly when the rest after
      its leading white space is. */
  lemma BlankAfterSpace(s: string)
    requires s != [] && IsSpace(s[0])
    ensures AllSpace(s) <==> AllSpace(TrimStart(s[1..]))
  {
    AllSpaceCons(s);
    AllSpaceTrimStart(s[1..]);
  }

  lemma {:induction false} AllSpaceTrimStart(s: string)
    ensures AllSpace(TrimStart(s)) <==> AllSpace(s)
  {
    if |s| > 0 && IsSpace(s[0]) {
      AllSpaceTrimStart(s[1..]);
      AllSpaceCons(s);
    }
  }

  lemma AllSpaceCons(s: string)
    requires s != []
    ensures AllSpace(s) <==> IsSpace(s[0]) && AllSpace(s[1..])
  {
    if IsSpace(s[0]) && AllSpace(s[1..]) {
      forall i | 0 <= i < |s| ensures IsSpace(s[i]) {
        if i > 0 {
          assert s[i] == s[1..][i - 1];
        }
      }
    }
  }

  lemma BlankAfterOneSpace(c: string)
    ensures AllSpace(" " + c) <==> AllSpace(c)
  {
    assert (" " + c)[1..] == c;
  }

  /** `toToolResultSummary`: the whitespace-collapsed, trimmed result; empty
      only for a blank result, and cut to 180 characters plus `...` when
      longer. */
  function ToToolResultSummary(value: string): (r: string)
    ensures |r| <= ToolResultMaxLength + 3
    ensures r == [] <==> AllSpace(value)
    ensures |Trim(CollapseSpace(value))| <= ToolResultMaxLength ==> r == Trim(CollapseSpace(value))
    ensures |Trim(CollapseSpace(value))| > ToolResultMaxLength ==>
      r == Trim(CollapseSpace(value))[..ToolResultMaxLength] + "..."
  {
    CollapseBlank(value);
    Shorten(Trim(CollapseSpace(value)))
  }

  /** The cut applied to the normalized result. */
  function Shorten(normalized: string): (r: string)
    ensures |r| <= ToolResultMaxLength + 3
    ensures r == [] <==> normalized == []
    ensures |normalized| <= ToolResultMaxLength ==> r == normalized
    ensures |normalized| > ToolResultMaxLength ==> r == normalized[..ToolResultMaxLength] + "..."
  {
    if normalized == [] then ""
    else if |normalized| <= ToolResultMaxLength then normalized
    else normalized[..ToolResultMaxLength] + "..."
  }

  /** A summary short enough to be shown whole loses only white space. */
  lemma SummaryKeepsText(value: string)
    requires |Trim(CollapseSpace(value))| <= ToolResultMaxLength
    ensures NonSpace(ToToolResultSummary(value)) == NonSpace(value)
  {
    NonSpaceTrim(CollapseSpace(value));
    CollapseKeepsText(value);
  }

  const ToolFallback: string := "工具"

  /** The system bubble for a `tool_call`: the tool's name, and the
      arguments on a second line only when they are not blank. */
  function ToolCallText(name: string, arguments: string): (r: string)
    ensures StartsWith(r, "正在调用工具：" + ToDisplayText(name, ToolFallback))
    ensures Trim(arguments) == [] ==> r == "正在调用工具：" + ToDisplayText(name, ToolFallback)
    ensures Trim(arguments) != [] ==> r == "正在调用工具：" + ToDisplayText(name, ToolFallback) + "\n参数：" + Trim(arguments)
  {
    var head := "正在调用工具：" + ToDisplayText(name, ToolFallback);
    var argumentsText := Trim(arguments);
    var r := if argumentsText != [] then head + "\n参数：" + argumentsText else head;
    assert r[..|head|] == head;
    r
  }

  /** The name shown for a `tool_result`: its tool name, else its call id,
      else `工具`. */
  function ToolResultName(toolName: string, toolCallId: string): (r: string)
    ensures r != []
    ensures !AllSpace(toolName) ==> r == Trim(toolName)
    ensures toolName == [] && !AllSpace(toolCallId) ==> r == Trim(toolCallId)
    ensures toolName != [] && AllSpace(toolName) ==> r == ToolFallback
    ensures toolName == [] && AllSpace(toolCallId) ==> r == ToolFallback
  {
    ToDisplayText(if toolName != [] then toolName else toolCallId, ToolFallback)
  }

  /** The system bubble for a `tool_result`: the summary when there is one. */
  function ToolResultText(toolName: string, toolCallId: string, result: string): (r: string)
    ensures AllSpace(result) ==> r == ToolResultName(toolName, toolCallId) + " 已返回结果"
    ensures !AllSpace(result) ==> r == ToolResultName(toolName, toolCallId) + " 返回：" + ToToolResultSummary(result)
  {
    var summary := ToToolResultSummary(result);
    if summary != [] then ToolResultName(toolName, toolCallId) + " 返回：" + summary
    else ToolResultName(toolName, toolCallId) + " 已返回结果"
  }

  /** The system bubble text of a tool event. */
  function ToolText(e: AgentStreamEvent): string
    requires !e.Content?
  {
    match e
    case ToolCall(_, name, arguments) => ToolCallText(name, arguments)
    case ToolResult(toolCallId, toolName, result) => ToolResultText(toolName, toolCallId, result)
  }

  /** The active session: the selected one, else the first listed, else
      none (''). */
  function ResolvedActiveSessionId(selected: string, sessions: seq<AgentSession>): (r: string)
    ensures selected != [] ==> r == selected
    ensures selected == [] && sessions != [] ==> r == sessions[0].sessionId
    ensures r == [] <==> selected == [] && (sessions == [] || sessions[0].sessionId == [])
  {
    if selected != [] then selected else if sessions != [] then sessions[0].sessionId else ""
  }

  // ---------------------------------------------------------------------
  // Bubbles
  // ---------------------------------------------------------------------

  datatype BubbleRole = UserRole | AiRole | SystemRole

  /** A chat bubble; keys come from `createBubbleKey` and are modelled as
      fresh numbers. */
  datatype Bubble = Bubble(key: nat, role: BubbleRole, content: string, loading: bool, streaming: bool)

  /** What a bubble shows: its role and text. */
  datatype Line = Line(role: BubbleRole, content: string)

  function Transcript(bubbles: seq<Bubble>): (r: seq<Line>)
    ensures |r| == |bubbles|
    ensures forall i :: 0 <= i < |r| ==> r[i] == Line(bubbles[i].role, bubbles[i].content)
  {
    seq(|bubbles|, i requires 0 <= i < |bubbles| => Line(bubbles[i].role, bubbles[i].content))
  }

  lemma TranscriptAppend(a: seq<Bubble>, b: seq<Bubble>)
    ensures Transcript(a + b) == Transcript(a) + Transcript(b)
  {
  }

  /** `historyBubbleItems`: a user record shows as the user, any other as
      the assistant. */
  function HistoryLines(history: seq<AgentHistoryMessage>): (r: seq<Line>)
    ensures |r| == |history|
    ensures forall i :: 0 <= i < |r| ==>
      r[i] == Line(if history[i].role == User then UserRole else AiRole, history[i].content)
  {
    seq(|history|, i requires 0 <= i < |history| =>
      Line(if history[i].role == User then UserRole else AiRole, history[i].content))
  }

  /** The history bubbles, with the fresh keys `from`, `from + 1`, .... */
  function HistoryBubbles(history: seq<AgentHistoryMessage>, from: nat): (r: seq<Bubble>)
    ensures |r| == |history|
    ensures Transcript(r) == HistoryLines(history)
    ensures forall i :: 0 <= i < |r| ==> r[i].key == from + i
    ensures DistinctKeys(r) && KeysBelow(r, from + |r|)
  {
    seq(|history|, i requires 0 <= i < |history| =>
      Bubble(from + i, if history[i].role == User then UserRole else AiRole, history[i].content, false, false))
  }

  /** The `prev.map(...)` update: the bubble with the given key takes the
      content and stops loading; every other bubble is unchanged. */
  function Rewrite(bubbles: seq<Bubble>, key: nat, content: string, streaming: bool): (r: seq<Bubble>)
    ensures |r| == |bubbles|
    ensures forall i :: 0 <= i < |r| ==> r[i].key == bubbles[i].key && r[i].role == bubbles[i].role
    ensures forall i :: 0 <= i < |r| && bubbles[i].key != key ==> r[i] == bubbles[i]
    ensures forall i :: 0 <= i < |r| && bubbles[i].key == key ==>
      r[i] == bubbles[i].(content := content, loading := false, streaming := streaming)
  {
    seq(|bubbles|, i requires 0 <= i < |bubbles| =>
      if bubbles[i].key != key then bubbles[i]
      else bubbles[i].(content := content, loading := false, streaming := streaming))
  }

  predicate DistinctKeys(bubbles: seq<Bubble>) {
    forall i, j :: 0 <= i < j < |bubbles| ==> bubbles[i].key != bubbles[j].key
  }

  predicate KeysBelow(bubbles: seq<Bubble>, bound: nat) {
    forall i :: 0 <= i < |bubbles| ==> bubbles[i].key < bound
  }

  /** A bubble with a fresh key keeps the keys distinct. */
  lemma AppendFresh(bubbles: seq<Bubble>, b: Bubble)
    requires DistinctKeys(bubbles) && KeysBelow(bubbles, b.key)
    ensures DistinctKeys(bubbles + [b]) && KeysBelow(bubbles + [b], b.key + 1)
  {
  }

  /** Rewriting a bubble keeps the keys. */
  lemma RewriteKeys(bubbles: seq<Bubble>, key: nat, content: string, streaming: bool, bound: nat)
    requires DistinctKeys(bubbles) && KeysBelow(bubbles, bound)
    ensures DistinctKeys(Rewrite(bubbles, key, content, streaming))
    ensures KeysBelow(Rewrite(bubbles, key, content, streaming), bound)
  {
    var r := Rewrite(bubbles, key, content, streaming);
    assert forall i :: 0 <= i < |r| ==> r[i].key == bubbles[i].key;
  }

  /** With distinct keys, rewriting the bubble at `p` is an update of that
      one position. */
  lemma RewriteAt(bubbles: seq<Bubble>, p: nat, content: string, streaming: bool)
    requires DistinctKeys(bubbles) && p < |bubbles|
    ensures Rewrite(bubbles, bubbles[p].key, content, streaming)
      == bubbles[p := bubbles[p].(content := content, loading := false, streaming := streaming)]
  {
  }

  // ---------------------------------------------------------------------
  // The streamed reply
  // ---------------------------------------------------------------------

  /** The assistant text: the content events' texts, in arrival order. */
  function ContentOf(signals: seq<AgentStream.Signal>): string {
    if signals == [] then "" else ContentOf(AgentStream.Init(signals)) + SignalContent(AgentStream.Last(signals))
  }

  /** The text one signal adds to the assistant reply. */
  function SignalContent(signal: AgentStream.Signal): string {
    if signal.Event? && signal.event.Content? then signal.event.content else ""
  }

  /** The system bubble one signal adds. */
  function SignalLines(signal: AgentStream.Signal): seq<Line> {
    if signal.Event? && !signal.event.Content? then [Line(SystemRole, ToolText(signal.event))] else []
  }

  /** The system bubbles: one per tool event, in arrival order. */
  function ToolLines(signals: seq<AgentStream.Signal>): seq<Line> {
    if signals == [] then [] else ToolLines(AgentStream.Init(signals)) + SignalLines(AgentStream.Last(signals))
  }

  /** One more signal adds its text and its system bubble. */
  lemma SignalsStep(signals: seq<AgentStream.Signal>, i: nat)
    requires i < |signals|
    ensures ContentOf(signals[..i + 1]) == ContentOf(signals[..i]) + SignalContent(signals[i])
    ensures ToolLines(signals[..i + 1]) == ToolLines(signals[..i]) + SignalLines(signals[i])
  {
    assert AgentStream.Init(signals[..i + 1]) == signals[..i];
  }

  lemma LinesAssoc(a: seq<Line>, b: seq<Line>, c: seq<Line>)
    ensures (a + b) + c == a + (b + c)
  {
  }

  const NoContentPlaceholder: string := "已收到你的问题，暂时没有生成可展示内容。"
  const FailurePlaceholder: string := "请求失败，请稍后重试。"

  /** The final assistant text: the streamed content, else the placeholder
      for success or for failure. */
  function FinalText(content: string, failed: bool): (r: string)
    ensures r != []
    ensures content != [] ==> r == content
    ensures content == [] ==> r == (if failed then FailurePlaceholder else NoContentPlaceholder)
  {
    if content != [] then content else if failed then FailurePlaceholder else NoContentPlaceholder
  }

  /** The toast a page action shows. */
  datatype Notice =
    | Quiet
    | Warning(message: string)
    | ErrorMessage(message: string)
    /** a network failure: the platform's own error message */
    | PlatformError

  /** A cancelled stream (an `AbortError`) shows nothing; any other failure
      shows its message. */
  function FailureNotice(failure: Option<AgentStream.Failure>): (n: Notice)
    ensures n.Quiet? <==> failure.None? || failure == Some(AgentStream.Interrupted(AgentStream.Aborted))
    ensures failure.Some? && failure.value.Refused? ==> n == ErrorMessage(failure.value.error.message)
  {
    if failure.None? then Quiet
    else if failure.value.Refused? then ErrorMessage(failure.value.error.message)
    else if failure.value.reason.Aborted? then Quiet
    else PlatformError
  }

  const BusyCreateWarning: string := "当前回复进行中，请稍后再新建会话"
  const BusySwitchWarning: string := "当前回复进行中，请稍后再切换会话"

  /** The session a submission goes to: the active one, or else a new
      session titled with the first 20 characters of the message. */
  function TurnSession(active: string, message: string, createSession: string -> Result<string>): (r: Result<string>)
    ensures active != [] ==> r == Ok(active)
    ensures active == [] ==> r == createSession(Take(message, 20))
  {
    if active != [] then Ok(active) else createSession(Take(message, 20))
  }

  /** A submission under way: its session, message and assistant bubble. */
  datatype Turn = Turn(sessionId: string, message: string, assistantKey: nat)

  /** The bubbles a new turn is appended to: the current ones, or the
      history when there are none (always the history after a new session
      clears them). */
  function BaseLines(current: seq<Bubble>, newSession: bool, history: seq<AgentHistoryMessage>): seq<Line> {
    if !newSession && current != [] then Transcript(current) else HistoryLines(history)
  }

  /** The bubbles once a turn has started: the base, the user's message and
      the (empty, loading) assistant bubble. */
  function OpenedLines(current: seq<Bubble>, newSession: bool, history: seq<AgentHistoryMessage>, message: string): seq<Line> {
    BaseLines(current, newSession, history) + [Line(UserRole, message), Line(AiRole, [])]
  }

  /** The chat state of the page. */
  class AgentChat {
    var selectedSessionId: string
    var senderValue: string
    var bubbles: seq<Bubble>
    var isStreaming: bool
    /** keys from `nextKey` on are fresh */
    var nextKey: nat

    predicate Valid()
      reads this
    {
      DistinctKeys(bubbles) && KeysBelow(bubbles, nextKey)
    }

    constructor()
      ensures Valid() && bubbles == [] && !isStreaming && selectedSessionId == [] && senderValue == []
    {
      selectedSessionId := "";
      senderValue := "";
      bubbles := [];
      isStreaming := false;
      nextKey := 0;
    }

    /** Appends a bubble under a fresh key (`createBubbleKey`). */
    method AppendBubble(role: BubbleRole, content: string, loading: bool) returns (key: nat)
      requires Valid()
      modifies this
      ensures Valid() && key == old(nextKey)
      ensures bubbles == old(bubbles) + [Bubble(key, role, content, loading, false)]
      ensures isStreaming == old(isStreaming)
      ensures selectedSessionId == old(selectedSessionId) && senderValue == old(senderValue)
    {
      key := nextKey;
      AppendFresh(bubbles, Bubble(key, role, content, loading, false));
      bubbles := bubbles + [Bubble(key, role, content, loading, false)];
      nextKey := nextKey + 1;
    }

    /** The user's bubble and a loading assistant bubble, after the current
        bubbles or, when there are none or a new session cleared them,
        after the history. */
    method OpenTurn(message: string, newSession: bool, history: seq<AgentHistoryMessage>) returns (assistantKey: nat)
      requires Valid()
      modifies this
      ensures Valid()
      ensures |bubbles| > 0 && bubbles[|bubbles| - 1].key == assistantKey && bubbles[|bubbles| - 1].role == AiRole
      ensures bubbles[|bubbles| - 1].loading
      ensures Transcript(bubbles) == OpenedLines(old(bubbles), newSession, history, message)
      ensures isStreaming == old(isStreaming)
      ensures selectedSessionId == old(selectedSessionId) && senderValue == old(senderValue)
    {
      UseBase(newSession, history);
      assistantKey := AppendTurn(message);
    }

    /** `prev.length ? prev : historyBubbleItems`, where a new session has
        emptied `prev`. */
    method UseBase(newSession: bool, history: seq<AgentHistoryMessage>)
      requires Valid()
      modifies this
      ensures Valid() && Transcript(bubbles) == BaseLines(old(bubbles), newSession, history)
      ensures isStreaming == old(isStreaming)
      ensures selectedSessionId == old(selectedSessionId) && senderValue == old(senderValue)
    {
      if newSession || bubbles == [] {
        bubbles := HistoryBubbles(history, nextKey);
        nextKey := nextKey + |history|;
      }
    }

    /** The user's bubble, then the loading assistant bubble. */
    method AppendTurn(message: string) returns (assistantKey: nat)
      requires Valid()
      modifies this
      ensures Valid()
      ensures |bubbles| > 0 && bubbles[|bubbles| - 1].key == assistantKey && bubbles[|bubbles| - 1].role == AiRole
      ensures bubbles[|bubbles| - 1].loading
      ensures Transcript(bubbles) == Transcript(old(bubbles)) + [Line(UserRole, message), Line(AiRole, [])]
      ensures isStreaming == old(isStreaming)
      ensures selectedSessionId == old(selectedSessionId) && senderValue == old(senderValue)
    {
      ghost var base := bubbles;
      var _ := AppendBubble(UserRole, message, false);
      assistantKey := AppendBubble(AiRole, "", true);
      TranscriptAppend(base, bubbles[|base|..]);
      assert bubbles == base + bubbles[|base|..];
    }

    /** A submission that passed the guard: the sender is cleared, a session
        is created when none is active (a failure is reported and ends the
        submission), and the turn's bubbles are appended. */
    method BeginTurn(message: string, sessions: seq<AgentSession>, history: seq<AgentHistoryMessage>,
                     createSession: string -> Result<string>) returns (turn: Option<Turn>, notice: Notice)
      requires Valid() && !isStreaming
      modifies this
      ensures Valid()
      ensures
        var active := ResolvedActiveSessionId(old(selectedSessionId), sessions);
        var session := TurnSession(active, message, createSession);
        && senderValue == []
        && (session.Err? ==>
             turn.None? && notice == ErrorMessage(session.error.message) && !isStreaming
             && bubbles == old(bubbles) && selectedSessionId == old(selectedSessionId))
        && (session.Ok? ==>
             && turn.Some? && notice.Quiet? && isStreaming
             && turn.value.sessionId == session.value && turn.value.message == message
             && selectedSessionId == (if active == [] then session.value else old(selectedSessionId))
             && |bubbles| > 0 && bubbles[|bubbles| - 1].key == turn.value.assistantKey && bubbles[|bubbles| - 1].role == AiRole
             && bubbles[|bubbles| - 1].loading
             && Transcript(bubbles) == OpenedLines(old(bubbles), active == [], history, message))
    {
      senderValue := "";
      var active := ResolvedActiveSessionId(selectedSessionId, sessions);
      var session := TurnSession(active, message, createSession);
      if session.Err? {
        return None, ErrorMessage(session.error.message);
      }
      if active == [] {
        selectedSessionId := session.value;
      }
      var assistantKey := OpenTurn(message, active == [], history);
      isStreaming := true;
      turn := Some(Turn(session.value, message, assistantKey));
      notice := Quiet;
    }

    /** `onEvent`: content is appended to the assistant text and rewrites
        only the assistant bubble; a tool event appends a system bubble. */
    method ApplyEvent(assistantKey: nat, content: string, e: AgentStreamEvent) returns (next: string)
      requires Valid()
      modifies this
      ensures Valid()
      ensures isStreaming == old(isStreaming) && selectedSessionId == old(selectedSessionId)
      ensures senderValue == old(senderValue)
      ensures e.Content? ==> (next == content + e.content
        && bubbles == Rewrite(old(bubbles), assistantKey, next, true))
      ensures !e.Content? ==> (next == content
        && bubbles == old(bubbles) + [Bubble(old(nextKey), SystemRole, ToolText(e), false, false)])
    {
      if e.Content? {
        next := content + e.content;
        RewriteKeys(bubbles, assistantKey, next, true, nextKey);
        bubbles := Rewrite(bubbles, assistantKey, next, true);
        return;
      }
      next := content;
      var _ := AppendBubble(SystemRole, ToolText(e), false);
    }

    /** One delivered signal, seen from the assistant bubble at `p`: the
        bubbles before it stay, its content grows by the signal's text, and
        the signal's system bubble (if any) is appended. `Done` changes
        nothing, since the page passes no `onDone`. */
    method ApplySignal(p: nat, assistantKey: nat, content: string, signal: AgentStream.Signal) returns (next: string)
      requires Valid() && p < |bubbles| && bubbles[p].key == assistantKey
      modifies this
      ensures Valid() && p < |bubbles| && bubbles[p].key == assistantKey && bubbles[p].role == old(bubbles[p].role)
      ensures isStreaming == old(isStreaming) && selectedSessionId == old(selectedSessionId)
      ensures senderValue == old(senderValue)
      ensures next == content + SignalContent(signal)
      ensures bubbles[..p] == old(bubbles)[..p]
      ensures Transcript(bubbles[p + 1..]) == Transcript(old(bubbles)[p + 1..]) + SignalLines(signal)
    {
      if signal.Done? {
        return content;
      }
      var e := signal.event;
      ghost var before := bubbles;
      ghost var k0 := nextKey;
      if e.Content? {
        RewriteAt(bubbles, p, content + e.content, true);
        next := ApplyEvent(assistantKey, content, e);
        UpdateKeepsSides(before, p, bubbles[p]);
      } else {
        next := ApplyEvent(assistantKey, content, e);
        AppendKeepsSides(before, p, bubbles[|bubbles| - 1]);
      }
    }

    /** The end of `handleSubmit`: the assistant bubble takes its final
        text, the failure (if any) is reported, and streaming stops. */
    method FinishTurn(assistantKey: nat, content: string, failure: Option<AgentStream.Failure>) returns (notice: Notice)
      requires Valid()
      modifies this
      ensures Valid()
      ensures bubbles == Rewrite(old(bubbles), assistantKey, FinalText(content, failure.Some?), false)
      ensures notice == FailureNotice(failure) && !isStreaming
      ensures selectedSessionId == old(selectedSessionId) && senderValue == old(senderValue)
    {
      RewriteKeys(bubbles, assistantKey, FinalText(content, failure.Some?), false, nextKey);
      bubbles := Rewrite(bubbles, assistantKey, FinalText(content, failure.Some?), false);
      notice := FailureNotice(failure);
      isStreaming := false;
    }

    /** `handleSubmit`: blank input, or input while a reply is streaming,
        is ignored; otherwise the message is sent. */
    method HandleSubmit(input: string, sessions: seq<AgentSession>, history: seq<AgentHistoryMessage>,
                        createSession: string -> Result<string>,
                        server: AgentStream.StreamRequest -> AgentStream.Reply, parse: string -> Option<Value>)
      returns (notice: Notice)
      requires Valid()
      modifies this
      ensures Valid() && isStreaming == old(isStreaming)
      ensures Trim(input) == [] || old(isStreaming) ==>
        && notice.Quiet? && bubbles == old(bubbles)
        && selectedSessionId == old(selectedSessionId) && senderValue == old(senderValue)
      ensures Trim(input) != [] && !old(isStreaming) ==>
        var active := ResolvedActiveSessionId(old(selectedSessionId), sessions);
        var session := TurnSession(active, Trim(input), createSession);
        && senderValue == []
        && (session.Err? ==>
             notice == ErrorMessage(session.error.message)
             && bubbles == old(bubbles) && selectedSessionId == old(selectedSessionId))
        && (session.Ok? ==>
             var o := AgentStream.StreamSpec(AgentStream.StreamPayload(Str(session.value), Str(Trim(input)), Arr([])), server, parse);
             && notice == FailureNotice(o.failure)
             && selectedSessionId == (if active == [] then session.value else old(selectedSessionId))
             && Transcript(bubbles) == BaseLines(old(bubbles), active == [], history)
                  + [Line(UserRole, Trim(input)), Line(AiRole, FinalText(ContentOf(o.signals), o.failure.Some?))]
                  + ToolLines(o.signals))
    {
      var message := Trim(input);
      if message == [] || isStreaming {
        return Quiet;
      }
      notice := SubmitMessage(message, sessions, history, createSession, server, parse);
    }

    /** A submission that passed the guard: the user's message and the
        assistant's reply are appended to the conversation; the reply shows
        the streamed content (or a placeholder) and the tool activity
        follows it, one bubble per tool event. */
    method SubmitMessage(message: string, sessions: seq<AgentSession>, history: seq<AgentHistoryMessage>,
                         createSession: string -> Result<string>,
                         server: AgentStream.StreamRequest -> AgentStream.Reply, parse: string -> Option<Value>)
      returns (notice: Notice)
      requires Valid() && !isStreaming
      modifies this
      ensures Valid() && !isStreaming
      ensures
        var active := ResolvedActiveSessionId(old(selectedSessionId), sessions);
        var session := TurnSession(active, message, createSession);
        && senderValue == []
        && (session.Err? ==>
             notice == ErrorMessage(session.error.message)
             && bubbles == old(bubbles) && selectedSessionId == old(selectedSessionId))
        && (session.Ok? ==>
             var o := AgentStream.StreamSpec(AgentStream.StreamPayload(Str(session.value), Str(message), Arr([])), server, parse);
             && notice == FailureNotice(o.failure)
             && selectedSessionId == (if active == [] then session.value else old(selectedSessionId))
             && Transcript(bubbles) == BaseLines(old(bubbles), active == [], history)
                  + [Line(UserRole, message), Line(AiRole, FinalText(ContentOf(o.signals), o.failure.Some?))]
                  + ToolLines(o.signals))
    {
      var turn;
      turn, notice := BeginTurn(message, sessions, history, createSession);
      if turn.None? {
        return;
      }
      var t := turn.value;
      ghost var newSession := ResolvedActiveSessionId(old(selectedSessionId), sessions) == [];
      ghost var started := Transcript(bubbles);
      var outcome := AgentStream.StreamAgentMessage(
        AgentStream.StreamPayload(Str(t.sessionId), Str(t.message), Arr([])), server, parse);
      notice := ReceiveReply(t.assistantKey, outcome);
      SubmitTranscript(old(bubbles), newSession, history, t.message, started, Transcript(bubbles),
                       FinalText(ContentOf(outcome.signals), outcome.failure.Some?), ToolLines(outcome.signals));
    }

    /** The rest of `handleSubmit`, once the turn's bubbles are in place:
        the reply's signals are delivered to the assistant bubble (the last
        one) and the turn is finished. */
    method ReceiveReply(assistantKey: nat, outcome: AgentStream.Outcome) returns (notice: Notice)
      requires Valid() && |bubbles| > 0
      requires bubbles[|bubbles| - 1].key == assistantKey && bubbles[|bubbles| - 1].role == AiRole
      modifies this
      ensures Valid() && !isStreaming
      ensures selectedSessionId == old(selectedSessionId) && senderValue == old(senderValue)
      ensures notice == FailureNotice(outcome.failure)
      ensures Transcript(bubbles) == Transcript(old(bubbles))[..|old(bubbles)| - 1]
        + [Line(AiRole, FinalText(ContentOf(outcome.signals), outcome.failure.Some?))] + ToolLines(outcome.signals)
    {
      var p := |bubbles| - 1;
      ghost var started := bubbles;
      var content := Deliver(p, assistantKey, outcome.signals);
      ghost var delivered := bubbles;
      notice := FinishTurn(assistantKey, content, outcome.failure);
      ReplyTranscript(started, delivered, bubbles, p, FinalText(content, outcome.failure.Some?), ToolLines(outcome.signals));
    }

    /** The signal at `i`, after those before it. */
    method DeliverNext(p: nat, assistantKey: nat, signals: seq<AgentStream.Signal>, i: nat, content: string,
                       ghost after: seq<Line>) returns (next: string)
      requires Valid() && p < |bubbles| && bubbles[p].key == assistantKey && i < |signals|
      requires content == ContentOf(signals[..i])
      requires Transcript(bubbles[p + 1..]) == after + ToolLines(signals[..i])
      modifies this
      ensures Valid() && p < |bubbles| && bubbles[p].key == assistantKey && bubbles[p].role == old(bubbles[p].role)
      ensures isStreaming == old(isStreaming) && selectedSessionId == old(selectedSessionId)
      ensures senderValue == old(senderValue)
      ensures next == ContentOf(signals[..i + 1])
      ensures bubbles[..p] == old(bubbles)[..p]
      ensures Transcript(bubbles[p + 1..]) == after + ToolLines(signals[..i + 1])
    {
      SignalsStep(signals, i);
      LinesAssoc(after, ToolLines(signals[..i]), SignalLines(signals[i]));
      next := ApplySignal(p, assistantKey, content, signals[i]);
    }

    /** The read loop's callbacks: every signal of the reply in turn. */
    method Deliver(p: nat, assistantKey: nat, signals: seq<AgentStream.Signal>) returns (content: string)
      requires Valid() && p < |bubbles| && bubbles[p].key == assistantKey
      modifies this
      ensures Valid() && p < |bubbles| && bubbles[p].key == assistantKey && bubbles[p].role == old(bubbles[p].role)
      ensures isStreaming == old(isStreaming) && selectedSessionId == old(selectedSessionId)
      ensures senderValue == old(senderValue)
      ensures content == ContentOf(signals)
      ensures bubbles[..p] == old(bubbles)[..p]
      ensures Transcript(bubbles[p + 1..]) == Transcript(old(bubbles)[p + 1..]) + ToolLines(signals)
    {
      content := "";
      ghost var front := old(bubbles)[..p];
      ghost var after := Transcript(old(bubbles)[p + 1..]);
      var i := 0;
      while i < |signals|
        invariant Valid() && isStreaming == old(isStreaming) && selectedSessionId == old(selectedSessionId)
        invariant senderValue == old(senderValue)
        invariant 0 <= i <= |signals| && p < |bubbles|
        invariant bubbles[p].key == assistantKey && bubbles[p].role == old(bubbles[p].role)
        invariant content == ContentOf(signals[..i])
        invariant bubbles[..p] == front
        invariant Transcript(bubbles[p + 1..]) == after + ToolLines(signals[..i])
      {
        content := DeliverNext(p, assistantKey, signals, i, content, after);
        i := i + 1;
      }
      assert signals[..i] == signals;
    }

    /** `handleCreateSession`: refused with a warning while a reply is
        streaming; otherwise a session without a title is created and becomes
        the selected one, with an empty sender and no bubbles, and a failure
        is reported with its message and changes nothing. */
    method HandleCreateSession(createSession: string -> Result<string>) returns (notice: Notice)
      requires Valid()
      modifies this
      ensures Valid() && isStreaming == old(isStreaming)
      ensures old(isStreaming) ==> notice == Warning(BusyCreateWarning) && unchanged(this)
      ensures !old(isStreaming) && createSession([]).Err? ==>
        notice == ErrorMessage(createSession([]).error.message) && unchanged(this)
      ensures !old(isStreaming) && createSession([]).Ok? ==>
        && notice.Quiet? && selectedSessionId == createSession([]).value
        && senderValue == [] && bubbles == []
    {
      if isStreaming {
        return Warning(BusyCreateWarning);
      }
      var created := createSession([]);
      if created.Err? {
        return ErrorMessage(created.error.message);
      }
      selectedSessionId := created.value;
      senderValue := "";
      bubbles := [];
      notice := Quiet;
    }

    /** `handleSessionChange`: refused with a warning while a reply is
        streaming; otherwise the chosen session becomes the selected one and
        the sender and the bubbles are cleared, so the session's history is
        shown. */
    method HandleSessionChange(sessionId: string) returns (notice: Notice)
      requires Valid()
      modifies this
      ensures Valid() && isStreaming == old(isStreaming)
      ensures old(isStreaming) ==> notice == Warning(BusySwitchWarning) && unchanged(this)
      ensures !old(isStreaming) ==>
        && notice.Quiet? && selectedSessionId == sessionId
        && senderValue == [] && bubbles == []
    {
      if isStreaming {
        return Warning(BusySwitchWarning);
      }
      senderValue := "";
      bubbles := [];
      selectedSessionId := sessionId;
      notice := Quiet;
    }
  }

  /** The bubbles of a finished turn: those before the assistant bubble,
      the assistant bubble with its final text, then the tool bubbles. */
  lemma TurnTranscript(started: seq<Bubble>, delivered: seq<Bubble>, final: seq<Bubble>, p: nat, text: string)
    requires p + 1 == |started| && p < |delivered|
    requires delivered[..p] == started[..p] && delivered[p].role == started[p].role
    requires final == delivered[p := delivered[p].(content := text, loading := false, streaming := false)]
    ensures Transcript(final) == Transcript(started)[..p] + [Line(started[p].role, text)] + Transcript(delivered[p + 1..])
  {
    SplitAt(final, p);
    UpdateKeepsSides(delivered, p, final[p]);
    assert Transcript(final[..p]) == Transcript(started)[..p];
  }

  /** The bubbles after the reply: the assistant bubble (the last one when
      the turn started) holds the final text and the tool bubbles follow. */
  lemma ReplyTranscript(started: seq<Bubble>, delivered: seq<Bubble>, final: seq<Bubble>, p: nat, text: string, tools: seq<Line>)
    requires p + 1 == |started| && p < |delivered| && DistinctKeys(delivered)
    requires delivered[..p] == started[..p] && delivered[p].role == started[p].role
    requires Transcript(delivered[p + 1..]) == Transcript(started[p + 1..]) + tools
    requires final == Rewrite(delivered, delivered[p].key, text, false)
    ensures Transcript(final) == Transcript(started)[..p] + [Line(started[p].role, text)] + tools
  {
    assert started[p + 1..] == [];
    assert Transcript(delivered[p + 1..]) == tools;
    RewriteAt(delivered, p, text, false);
    TurnTranscript(started, delivered, final, p, text);
  }

  /** The transcript of a submission: the base, the user's message, the
      reply in place of the loading bubble, then the tool bubbles. */
  lemma SubmitTranscript(current: seq<Bubble>, newSession: bool, history: seq<AgentHistoryMessage>, message: string,
                         started: seq<Line>, final: seq<Line>, reply: string, tools: seq<Line>)
    requires started == OpenedLines(current, newSession, history, message)
    requires final == started[..|started| - 1] + [Line(AiRole, reply)] + tools
    ensures final == BaseLines(current, newSession, history) + [Line(UserRole, message), Line(AiRole, reply)] + tools
  {
    assert started[..|started| - 1] == BaseLines(current, newSession, history) + [Line(UserRole, message)];
  }

  lemma UpdateKeepsSides(bubbles: seq<Bubble>, p: nat, b: Bubble)
    requires p < |bubbles|
    ensures bubbles[p := b][..p] == bubbles[..p] && bubbles[p := b][p + 1..] == bubbles[p + 1..]
  {
  }

  lemma AppendKeepsSides(bubbles: seq<Bubble>, p: nat, b: Bubble)
    requires p < |bubbles|
    ensures (bubbles + [b])[..p] == bubbles[..p]
    ensures Transcript((bubbles + [b])[p + 1..]) == Transcript(bubbles[p + 1..]) + [Line(b.role, b.content)]
  {
    assert (bubbles + [b])[p + 1..] == bubbles[p + 1..] + [b];
    TranscriptAppend(bubbles[p + 1..], [b]);
  }

  /** A transcript around one position. */
  lemma SplitAt(bubbles: seq<Bubble>, p: nat)
    requires p < |bubbles|
    ensures Transcript(bubbles) == Transcript(bubbles[..p]) + [Line(bubbles[p].role, bubbles[p].content)] + Transcript(bubbles[p + 1..])
  {
  }
}
