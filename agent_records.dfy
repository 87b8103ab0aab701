/** The record normalisers of the agent API module: sessions, history
    messages and stream events arrive as untyped JSON and are defaulted
    field by field or dropped, never raising. */
module AgentRecords {
  import opened Js
  import opened ApiErrors

  /** `toTextArray`: the trimmed non-blank strings of an array, in order;
      nothing for a non-array. */
  function ToTextArray(v: Value): (r: seq<string>)
    ensures !v.Arr? ==> r == []
    ensures v.Arr? ==> |r| <= |v.items|
    ensures forall i :: 0 <= i < |r| ==> r[i] != [] && IsTrimmed(r[i])
  {
    if v.Arr? then NonBlankTexts(v.items) else []
  }

  /** Every non-blank string element reaches the array, trimmed, and every
      element of it comes from an element at the same or a later index. */
  lemma ToTextArrayElements(items: seq<Value>, i: nat, j: nat)
    ensures i < |items| && ToText(items[i]) != [] ==> ToText(items[i]) in ToTextArray(Arr(items))
    ensures j < |ToTextArray(Arr(items))| ==>
      exists k :: j <= k < |items| && ToText(items[k]) == ToTextArray(Arr(items))[j]
  {
    if i < |items| && ToText(items[i]) != [] {
      NonBlankTextsKeeps(items, i);
    }
    if j < |ToTextArray(Arr(items))| {
      var k := NonBlankTextsOrigin(items, j);
    }
  }

  /** `toTextArray` keeps the order and multiplicity of the array: the
      array of a concatenation is the concatenation of the arrays, and a
      one-element array gives its trimmed text exactly when that is
      non-empty. */
  lemma ToTextArrayInOrder(a: seq<Value>, b: seq<Value>, v: Value)
    ensures ToTextArray(Arr(a + b)) == ToTextArray(Arr(a)) + ToTextArray(Arr(b))
    ensures ToTextArray(Arr([v])) == if ToText(v) == [] then [] else [ToText(v)]
  {
    NonBlankTextsAppend(a, b, v);
  }

  /** `AgentSession` */
  datatype AgentSession = AgentSession(sessionId: string, title: string, createdAt: string, updatedAt: string)

  /** `toAgentSession`: no session for a non-object or a blank (or
      non-string) `session_id`; otherwise every field is its trimmed text,
      '' when missing or not a string. */
  function ToAgentSession(v: Value): (r: Option<AgentSession>)
    ensures r.None? <==> !IsObject(v) || ToText(Field(v, "session_id")) == []
    ensures r.Some? ==> r.value.sessionId != [] && r.value.sessionId == ToText(Field(v, "session_id"))
    ensures r.Some? ==> r.value.title == ToText(Field(v, "title"))
    ensures r.Some? ==> r.value.createdAt == ToText(Field(v, "created_at"))
    ensures r.Some? ==> r.value.updatedAt == ToText(Field(v, "updated_at"))
    ensures r.Some? ==> IsTrimmed(r.value.title) && IsTrimmed(r.value.createdAt) && IsTrimmed(r.value.updatedAt)
  {
    if !IsObject(v) then None
    else
      var sessionId := ToText(Field(v, "session_id"));
      if sessionId == [] then None
      else Some(AgentSession(
        sessionId,
        ToText(Field(v, "title")),
        ToText(Field(v, "created_at")),
        ToText(Field(v, "updated_at"))))
  }

  datatype Role = User | Assistant

  /** `AgentHistoryMessage` */
  datatype AgentHistoryMessage = AgentHistoryMessage(role: Role, content: string, images: seq<string>, createdAt: string)

  /** `toAgentHistoryMessage`: no message for a non-object or a blank
      content; the role is user exactly when the trimmed role is 'user'. */
  function ToAgentHistoryMessage(v: Value): (r: Option<AgentHistoryMessage>)
    ensures r.None? <==> !IsObject(v) || ToText(Field(v, "content")) == []
    ensures r.Some? ==> (r.value.role == User <==> ToText(Field(v, "role")) == "user")
    ensures r.Some? ==> r.value.content != [] && r.value.content == ToText(Field(v, "content"))
    ensures r.Some? ==> r.value.images == ToTextArray(Field(v, "images"))
    ensures r.Some? ==> r.value.createdAt == ToText(Field(v, "created_at"))
  {
    if !IsObject(v) then None
    else
      var role := if ToText(Field(v, "role")) == "user" then User else Assistant;
      var content := ToText(Field(v, "content"));
      var createdAt := ToText(Field(v, "created_at"));
      if content == [] then None
      else Some(AgentHistoryMessage(role, content, ToTextArray(Field(v, "images")), createdAt))
  }

  /** `.filter(item => item !== null)` after a map: the present values, in
      order. */
  function Present<T>(xs: seq<Option<T>>): (r: seq<T>)
    ensures |r| <= |xs|
    ensures forall i :: 0 <= i < |r| ==> Some(r[i]) in xs
  {
    if xs == [] then []
    else
      var rest := Present(xs[1..]);
      assert forall i :: 0 <= i < |rest| ==> Some(rest[i]) in xs by {
        forall i | 0 <= i < |rest| ensures Some(rest[i]) in xs {
          assert Some(rest[i]) in xs[1..];
        }
      }
      match xs[0]
      case None => rest
      case Some(x) => [x] + rest
  }

  /** The filter keeps order and multiplicity: filtering a concatenation
      is concatenating the filtered parts, and one value is kept exactly
      when it is present. */
  lemma {:induction false} PresentAppend<T>(a: seq<Option<T>>, b: seq<Option<T>>, x: Option<T>)
    ensures Present(a + b) == Present(a) + Present(b)
    ensures Present([x]) == if x.Some? then [x.value] else []
  {
    if a == [] {
      assert a + b == b;
    } else {
      assert (a + b)[1..] == a[1..] + b;
      PresentAppend(a[1..], b, x);
    }
    assert [x][1..] == [];
  }

  /** The elements of an array as read by `Array.isArray(x) ? x : []`. */
  function ElementsOf(v: Value): seq<Value> {
    if v.Arr? then v.items else []
  }

  /** `list.map(toAgentSession)` */
  function Sessions(list: seq<Value>): (r: seq<Option<AgentSession>>)
    ensures |r| == |list|
    ensures forall k :: 0 <= k < |list| ==> r[k] == ToAgentSession(list[k])
  {
    seq(|list|, k requires 0 <= k < |list| => ToAgentSession(list[k]))
  }

  lemma SessionsAppend(a: seq<Value>, b: seq<Value>, v: Value)
    ensures Sessions(a + b) == Sessions(a) + Sessions(b)
    ensures Sessions([v]) == [ToAgentSession(v)]
  {
  }

  /** `list.map(toAgentSession).filter(item => item !== null)` */
  function SessionList(list: seq<Value>): (r: seq<AgentSession>)
    ensures |r| <= |list|
    ensures forall i :: 0 <= i < |r| ==> r[i].sessionId != []
  {
    var mapped := Sessions(list);
    var r := Present(mapped);
    assert forall i :: 0 <= i < |r| ==> r[i].sessionId != [] by {
      forall i | 0 <= i < |r| ensures r[i].sessionId != [] {
        assert Some(r[i]) in mapped;
      }
    }
    r
  }

  /** The sessions come in the order of their items: the sessions of a
      concatenation are those of its parts, and one item gives its session
      exactly when it normalises. */
  lemma SessionListInOrder(a: seq<Value>, b: seq<Value>, v: Value)
    ensures SessionList(a + b) == SessionList(a) + SessionList(b)
    ensures SessionList([v]) == if ToAgentSession(v).Some? then [ToAgentSession(v).value] else []
  {
    SessionsAppend(a, b, v);
    PresentAppend(Sessions(a), Sessions(b), ToAgentSession(v));
  }

  /** `getAgentSessions`' result mapping: the sessions that normalise, read
      from the `sessions` array (none when it is not an array). */
  function SessionsFrom(data: Value): (r: seq<AgentSession>)
    ensures r == SessionList(ElementsOf(Field(data, "sessions")))
    ensures !Field(data, "sessions").Arr? ==> r == []
    ensures |r| <= |ElementsOf(Field(data, "sessions"))|
    ensures forall i :: 0 <= i < |r| ==> r[i].sessionId != []
  {
    SessionList(ElementsOf(Field(data, "sessions")))
  }

  /** `list.map(toAgentHistoryMessage)` */
  function Messages(list: seq<Value>): (r: seq<Option<AgentHistoryMessage>>)
    ensures |r| == |list|
    ensures forall k :: 0 <= k < |list| ==> r[k] == ToAgentHistoryMessage(list[k])
  {
    seq(|list|, k requires 0 <= k < |list| => ToAgentHistoryMessage(list[k]))
  }

  lemma MessagesAppend(a: seq<Value>, b: seq<Value>, v: Value)
    ensures Messages(a + b) == Messages(a) + Messages(b)
    ensures Messages([v]) == [ToAgentHistoryMessage(v)]
  {
  }

  /** `list.map(toAgentHistoryMessage).filter(item => item !== null)` */
  function HistoryList(list: seq<Value>): (r: seq<AgentHistoryMessage>)
    ensures |r| <= |list|
    ensures forall i :: 0 <= i < |r| ==> r[i].content != []
  {
    var mapped := Messages(list);
    var r := Present(mapped);
    assert forall i :: 0 <= i < |r| ==> r[i].content != [] by {
      forall i | 0 <= i < |r| ensures r[i].content != [] {
        assert Some(r[i]) in mapped;
      }
    }
    r
  }

  /** The messages come in the order of their items: the messages of a
      concatenation are those of its parts, and one item gives its message
      exactly when it normalises. */
  lemma HistoryListInOrder(a: seq<Value>, b: seq<Value>, v: Value)
    ensures HistoryList(a + b) == HistoryList(a) + HistoryList(b)
    ensures HistoryList([v]) == if ToAgentHistoryMessage(v).Some? then [ToAgentHistoryMessage(v).value] else []
  {
    MessagesAppend(a, b, v);
    PresentAppend(Messages(a), Messages(b), ToAgentHistoryMessage(v));
  }

  /** `getAgentHistory`'s result mapping: the messages that normalise, read
      from the `messages` array (none when it is not an array). */
  function HistoryFrom(data: Value): (r: seq<AgentHistoryMessage>)
    ensures r == HistoryList(ElementsOf(Field(data, "messages")))
    ensures !Field(data, "messages").Arr? ==> r == []
    ensures |r| <= |ElementsOf(Field(data, "messages"))|
    ensures forall i :: 0 <= i < |r| ==> r[i].content != []
  {
    HistoryList(ElementsOf(Field(data, "messages")))
  }

  const MissingSessionId := "sessionId 不能为空"
  const NoSessionReturned := "创建会话失败：未返回会话 ID"

  /** `createAgentSession`'s request body: the title only when it is not
      blank. */
  function CreateSessionBody(title: Value): (body: map<string, Value>)
    ensures "title" in body <==> ToText(title) != []
    ensures body.Keys <= {"title"}
    ensures "title" in body ==> body["title"] == Str(ToText(title))
  {
    var t := ToOptionalText(title);
    if t.Some? then map["title" := Str(t.value)] else map[]
  }

  /** `createAgentSession`, with the backend call `post` (body to response
      data) as a parameter: the trimmed session id, or an error when the
      backend returns none. */
  function CreateAgentSession(title: Value, post: map<string, Value> -> Value): (r: Result<string>)
    ensures r.Ok? <==> ToText(Field(post(CreateSessionBody(title)), "session_id")) != []
    ensures r.Ok? ==> r.value == ToText(Field(post(CreateSessionBody(title)), "session_id"))
    ensures r.Err? ==> r.error == Plain(NoSessionReturned)
  {
    var data := post(CreateSessionBody(title));
    var sessionId := ToText(Field(data, "session_id"));
    if sessionId == [] then Err(Plain(NoSessionReturned)) else Ok(sessionId)
  }

  /** `getAgentHistory`, with the backend call `get` (session id to response
      data) as a parameter: a blank id is refused before any request. */
  function GetAgentHistory(sessionId: string, get: string -> Value): (r: Result<seq<AgentHistoryMessage>>)
    ensures r.Err? <==> Trim(sessionId) == []
    ensures r.Err? ==> r.error == Plain(MissingSessionId)
    ensures r.Ok? ==> r.value == HistoryFrom(get(Trim(sessionId)))
  {
    var normalized := Trim(sessionId);
    if normalized == [] then Err(Plain(MissingSessionId)) else Ok(HistoryFrom(get(normalized)))
  }

  /** `AgentStreamEvent` */
  datatype AgentStreamEvent =
    | Content(content: string)
    | ToolCall(id: string, name: string, arguments: string)
    | ToolResult(toolCallId: string, toolName: string, result: string)

  /** The object `data` of a tool event: a non-object reads as `{}`. */
  function EventData(parsed: Value): (d: Value)
    ensures IsObject(Field(parsed, "data")) ==> d == Field(parsed, "data")
    ensures !IsObject(Field(parsed, "data")) ==> forall k :: Field(d, k) == Undefined
  {
    var data := Field(parsed, "data");
    if IsObject(data) then data else Obj(map[])
  }

  /** `toAgentStreamEvent` on the outcome of `JSON.parse` (None when it
      throws). */
  function ToAgentStreamEvent(parsed: Option<Value>): (r: Option<AgentStreamEvent>)
    ensures r.None? <==> (parsed.None? || !IsObject(parsed.value)
      || ToText(Field(parsed.value, "type")) !in {"content", "tool_call", "tool_result"})
    ensures r.Some? && r.value.Content? ==>
      ToText(Field(parsed.value, "type")) == "content"
      && r.value.content == (if Field(parsed.value, "content").Str? then Field(parsed.value, "content").s else "")
    ensures r.Some? && r.value.ToolCall? ==>
      ToText(Field(parsed.value, "type")) == "tool_call"
      && r.value.id == ToText(Field(EventData(parsed.value), "id"))
      && r.value.name == ToText(Field(EventData(parsed.value), "name"))
      && r.value.arguments == ToText(Field(EventData(parsed.value), "arguments"))
    ensures r.Some? && r.value.ToolResult? ==>
      ToText(Field(parsed.value, "type")) == "tool_result"
      && r.value.toolCallId == ToText(Field(EventData(parsed.value), "tool_call_id"))
      && r.value.toolName == ToText(Field(EventData(parsed.value), "tool_name"))
      && r.value.result == ToText(Field(EventData(parsed.value), "result"))
  {
    if parsed.None? || !IsObject(parsed.value) then None
    else
      var p := parsed.value;
      var kind := ToText(Field(p, "type"));
      if kind == "content" then
        var c := Field(p, "content");
        Some(Content(if c.Str? then c.s else ""))
      else if kind == "tool_call" then
        var data := EventData(p);
        Some(ToolCall(ToText(Field(data, "id")), ToText(Field(data, "name")), ToText(Field(data, "arguments"))))
      else if kind == "tool_result" then
        var data := EventData(p);
        Some(ToolResult(ToText(Field(data, "tool_call_id")), ToText(Field(data, "tool_name")), ToText(Field(data, "result"))))
      else None
  }

  /** A content event keeps its text exactly, white space included. */
  lemma ContentIsVerbatim(text: string)
    ensures ToAgentStreamEvent(Some(Obj(map["type" := Str("content"), "content" := Str(text)])))
      == Some(Content(text))
  {
    var p := Obj(map["type" := Str("content"), "content" := Str(text)]);
    assert Field(p, "type") == Str("content") && Field(p, "content") == Str(text);
    assert IsTrimmed("content");
    assert ToText(Str("content")) == "content";
  }
}
