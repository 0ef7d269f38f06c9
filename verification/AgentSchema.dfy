/** Messages exchanged with the language model and their mapping to and from the SDK. */
module AgentSchema {
  import opened Common

  datatype ToolCall = ToolCall(id: string, name: string, arguments: string)

  datatype Role = System | Developer | User | Assistant | ToolResult | OtherRole(text: string)

  datatype Message = Message(
    role: Role, content: string, toolCalls: seq<ToolCall>, toolCallID: string, name: string)

  datatype Request = Request(messages: seq<Message>, tools: seq<string>, maxTokens: int)

  // ---------- requests: our messages to SDK parameters ----------

  datatype SdkParam =
    | SystemParam(content: string)
    | DeveloperParam(content: string)
    | UserParam(content: string)
    | ToolParam(content: string, toolCallID: string)
    | AssistantParam(text: Option<string>, toolCalls: seq<ToolCall>)

  function ToSdk(m: Message): SdkParam {
    match m.role
    case System => SystemParam(m.content)
    case Developer => DeveloperParam(m.content)
    case ToolResult => ToolParam(m.content, m.toolCallID)
    case Assistant =>
      if m.toolCalls == [] then AssistantParam(Some(m.content), [])
      else AssistantParam(if m.content != "" then Some(m.content) else None, m.toolCalls)
    case User => UserParam(m.content)
    case OtherRole(_) => UserParam(m.content)
  }

  /** What the endpoint can read back out of a parameter. */
  function ReadBack(p: SdkParam): Message {
    match p
    case SystemParam(c) => Message(System, c, [], "", "")
    case DeveloperParam(c) => Message(Developer, c, [], "", "")
    case UserParam(c) => Message(User, c, [], "", "")
    case ToolParam(c, id) => Message(ToolResult, c, [], id, "")
    case AssistantParam(t, calls) => Message(Assistant, if t.Some? then t.value else "", calls, "", "")
  }

  /** A message of the shape its role calls for; only the tool name is not transmitted. */
  predicate WellShaped(m: Message) {
    !m.role.OtherRole? &&
    (m.toolCalls != [] ==> m.role == Assistant) &&
    (m.toolCallID != "" ==> m.role == ToolResult)
  }

  method ToSdkMessages(messages: seq<Message>) returns (out: seq<SdkParam>)
    ensures |out| == |messages|
    ensures forall i :: 0 <= i < |messages| ==> out[i] == ToSdk(messages[i])
    ensures forall i :: 0 <= i < |messages| && WellShaped(messages[i]) ==>
              ReadBack(out[i]) == messages[i].(name := "")
    ensures forall i :: 0 <= i < |messages| && messages[i].role.OtherRole? ==> out[i] == UserParam(messages[i].content)
    ensures forall i :: 0 <= i < |messages| && out[i].AssistantParam? ==>
              (out[i].text.None? <==> messages[i].content == "" && messages[i].toolCalls != [])
  {
    out := [];
    for i := 0 to |messages|
      invariant |out| == i
      invariant forall j :: 0 <= j < i ==> out[j] == ToSdk(messages[j])
      invariant forall j :: 0 <= j < i && WellShaped(messages[j]) ==> ReadBack(out[j]) == messages[j].(name := "")
    {
      var m := messages[i];
      match m.role {
        case System => out := out + [SystemParam(m.content)];
        case Developer => out := out + [DeveloperParam(m.content)];
        case ToolResult => out := out + [ToolParam(m.content, m.toolCallID)];
        case Assistant =>
          if |m.toolCalls| == 0 {
            out := out + [AssistantParam(Some(m.content), [])];
          } else {
            var text: Option<string> := None;
            if m.content != "" {
              text := Some(m.content);
            }
            var calls := [];
            for j := 0 to |m.toolCalls|
              invariant calls == m.toolCalls[..j]
            {
              calls := calls + [m.toolCalls[j]];
            }
            assert calls == m.toolCalls;
            out := out + [AssistantParam(text, calls)];
          }
        case _ => out := out + [UserParam(m.content)];
      }
      assert out[i] == ToSdk(m);
    }
  }

  // ---------- responses: SDK choices to our messages ----------

  datatype SdkChoice = SdkChoice(content: string, toolCalls: seq<ToolCall>)

  datatype SdkResponse = SdkResponse(choices: seq<SdkChoice>, totalTokens: int)

  /** The role is always assistant, whatever the endpoint sent. */
  function FromSdk(c: SdkChoice): Message {
    Message(Assistant, c.content, c.toolCalls, "", "")
  }

  // ---------- the conversation grammar ----------

  /** One tool message per call, with the call's id and name, in order. */
  ghost predicate Answers(replies: seq<Message>, calls: seq<ToolCall>) {
    |replies| == |calls| &&
    forall j :: 0 <= j < |calls| ==>
      replies[j].role == ToolResult && replies[j].toolCalls == [] &&
      replies[j].toolCallID == calls[j].id && replies[j].name == calls[j].name
  }

  /** The sequence starts with an assistant message with k >= 1 calls and its k answers. */
  ghost predicate OpensBlock(ms: seq<Message>) {
    ms != [] && ms[0].role == Assistant && 1 <= |ms[0].toolCalls| < |ms| &&
    Answers(ms[1..1 + |ms[0].toolCalls|], ms[0].toolCalls)
  }

  ghost function BlockLength(ms: seq<Message>): (n: nat)
    requires OpensBlock(ms)
    ensures 1 < n <= |ms|
  {
    1 + |ms[0].toolCalls|
  }

  ghost predicate Blocks(ms: seq<Message>)
    decreases |ms|
  {
    ms == [] || (OpensBlock(ms) && Blocks(ms[BlockLength(ms)..]))
  }

  ghost predicate Conversation(ms: seq<Message>) {
    2 <= |ms| && ms[0].role == System && ms[1].role == User && Blocks(ms[2..])
  }

  lemma {:induction false} BlocksAppend(ms: seq<Message>, more: seq<Message>)
    requires Blocks(ms) && Blocks(more)
    ensures Blocks(ms + more)
    decreases |ms|
  {
    if ms == [] {
      assert ms + more == more;
    } else {
      var n := BlockLength(ms);
      assert (ms + more)[1..n] == ms[1..n];
      assert OpensBlock(ms + more) && BlockLength(ms + more) == n;
      assert (ms + more)[n..] == ms[n..] + more;
      BlocksAppend(ms[n..], more);
    }
  }

  lemma {:induction false} ConversationAppend(ms: seq<Message>, more: seq<Message>)
    requires Conversation(ms) && Blocks(more)
    ensures Conversation(ms + more)
  {
    BlocksAppend(ms[2..], more);
    assert (ms + more)[2..] == ms[2..] + more;
  }

  /** The ids of the answers, and of the calls they answer, survive the mapping. */
  lemma {:induction false} BlocksKeepIds(ms: seq<Message>, i: nat)
    requires Blocks(ms) && i < |ms|
    ensures ms[i].role == Assistant || ms[i].role == ToolResult
    ensures ms[i].role == Assistant ==>
              ToSdk(ms[i]).AssistantParam? && ToSdk(ms[i]).toolCalls == ms[i].toolCalls
    ensures ms[i].role == ToolResult ==> ToSdk(ms[i]) == ToolParam(ms[i].content, ms[i].toolCallID)
    decreases |ms|
  {
    var n := BlockLength(ms);
    if 0 < i < n {
      assert ms[i] == ms[1..n][i - 1];
    } else if i >= n {
      BlocksKeepIds(ms[n..], i - n);
    }
  }
}
