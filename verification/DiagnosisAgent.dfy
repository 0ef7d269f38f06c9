/** The bounded tool-call loop that turns a cluster snapshot into an outcome.

    The provider, the tool executor and the JSON decoder are arbitrary: a session fixes
    what each of them returns on its i-th use.  The first part says, without a loop, how
    a session ends and what it sends; the method `Run` is the loop. */
module DiagnosisAgent {
  import opened Common
  import opened AgentSchema

  const MAX_TOKENS: int := 900
  const REPAIR_MAX_TOKENS: int := 500
  const FALLBACK_ITERATIONS: nat := 5
  const TRACE_RESULT_BYTES: nat := 200

  datatype Rca = Rca(
    summary: string, rootCause: string, contributingFactors: seq<string>,
    remediationSteps: seq<string>, confidence: real, reasoning: string)

  datatype Decoded = Decoded(rca: Rca) | Undecodable(error: string)

  datatype Completion = Answered(response: SdkResponse) | Refused(error: string)

  datatype Execution = Executed(output: string) | Broke(error: string)

  /** `complete(i)` is the i-th answer of the provider, `execute(j)` the j-th of the tools. */
  datatype Session = Session(
    systemPrompt: string, repairPrompt: string, snapshot: string, tools: seq<string>,
    complete: nat -> Completion, execute: nat -> Execution, unmarshal: string -> Decoded,
    executor: bool, quote: string -> string)

  datatype TraceStep = TraceStep(tool: string, args: string, result: string)

  datatype Outcome = Outcome(
    phase: Phase, rca: Option<Rca>, tokensUsed: int, rawError: string, reasoning: string,
    trace: seq<TraceStep>)

  function EffectiveCap(maxIter: int): (cap: nat)
    ensures cap > 0
  {
    if maxIter <= 0 then FALLBACK_ITERATIONS else maxIter
  }

  /** Token totals are 64-bit. */
  function Wrap64(x: int): (r: int)
    ensures -0x8000_0000_0000_0000 <= r < 0x8000_0000_0000_0000
    ensures -0x8000_0000_0000_0000 <= x < 0x8000_0000_0000_0000 ==> r == x
  {
    (x + 0x8000_0000_0000_0000) % 0x1_0000_0000_0000_0000 - 0x8000_0000_0000_0000
  }

  lemma {:induction false} WrapSums(x: int, y: int)
    ensures Wrap64(Wrap64(x) + y) == Wrap64(x + y)
  {}

  /** At most the first 200 bytes. */
  function Clipped(s: string): (r: string)
    ensures r <= s && |r| <= TRACE_RESULT_BYTES && (|s| <= TRACE_RESULT_BYTES ==> r == s)
  {
    if |s| > TRACE_RESULT_BYTES then s[..TRACE_RESULT_BYTES] else s
  }

  function ParseRca(s: Session, content: string): (d: Decoded)
    ensures d.Decoded? ==> d == s.unmarshal(content) && d.rca.summary != "" && d.rca.rootCause != ""
    ensures d.Undecodable? ==>
              s.unmarshal(content).Undecodable? ||
              s.unmarshal(content).rca.summary == "" || s.unmarshal(content).rca.rootCause == ""
  {
    match s.unmarshal(content)
    case Undecodable(e) => Undecodable("unmarshal: " + e)
    case Decoded(rca) =>
      if rca.summary == "" || rca.rootCause == "" then
        Undecodable("incomplete rca: missing summary or rootCause")
      else Decoded(rca)
  }

  // ---------- rounds ----------

  predicate HasMessage(s: Session, i: nat) {
    s.complete(i).Answered? && s.complete(i).response.choices != []
  }

  /** The first choice of the i-th answer; empty when there is none. */
  function Reply(s: Session, i: nat): Message {
    if HasMessage(s, i) then FromSdk(s.complete(i).response.choices[0])
    else FromSdk(SdkChoice("", []))
  }

  /** The i-th answer asks for at least one tool. */
  predicate IsToolRound(s: Session, i: nat) {
    HasMessage(s, i) && Reply(s, i).toolCalls != []
  }

  ghost predicate ToolRounds(s: Session, n: nat) {
    forall i :: 0 <= i < n ==> IsToolRound(s, i)
  }

  /** The first round at or after `i` that asks for no tool, or `cap`. */
  function StopFrom(s: Session, cap: nat, i: nat): (n: nat)
    requires i <= cap
    ensures i <= n <= cap && (n < cap ==> !IsToolRound(s, n))
    ensures forall j :: i <= j < n ==> IsToolRound(s, j)
    decreases cap - i
  {
    if i == cap || !IsToolRound(s, i) then i else StopFrom(s, cap, i + 1)
  }

  function Stop(s: Session, cap: nat): (n: nat)
    ensures n <= cap && ToolRounds(s, n) && (n < cap ==> !IsToolRound(s, n))
  {
    StopFrom(s, cap, 0)
  }

  /** The calls of the first n rounds, in the order they are executed. */
  function CallsMade(s: Session, n: nat): seq<ToolCall> {
    if n == 0 then [] else CallsMade(s, n - 1) + Reply(s, n - 1).toolCalls
  }

  /** What the j-th executed call yields for the model. */
  function ToolText(s: Session, j: nat, call: ToolCall): string {
    if !s.executor then "tool " + s.quote(call.name) + ": no executor configured"
    else
      match s.execute(j)
      case Executed(output) => output
      case Broke(e) => "error: " + e
  }

  function ToolMessage(s: Session, j: nat, call: ToolCall): Message {
    Message(ToolResult, ToolText(s, j, call), [], call.id, call.name)
  }

  function TraceEntry(s: Session, j: nat, call: ToolCall): TraceStep {
    TraceStep(call.name, call.arguments, Clipped(ToolText(s, j, call)))
  }

  /** Answers to `calls`, the first of which is the `from`-th executed in the session. */
  function ToolMessages(s: Session, from: nat, calls: seq<ToolCall>): (r: seq<Message>)
    ensures |r| == |calls|
  {
    seq(|calls|, j requires 0 <= j < |calls| => ToolMessage(s, from + j, calls[j]))
  }

  function TraceEntries(s: Session, from: nat, calls: seq<ToolCall>): (r: seq<TraceStep>)
    ensures |r| == |calls|
  {
    seq(|calls|, j requires 0 <= j < |calls| => TraceEntry(s, from + j, calls[j]))
  }

  /** What round i adds to the conversation: the answer and the results of its calls. */
  function Round(s: Session, i: nat): seq<Message> {
    [Reply(s, i)] + ToolMessages(s, |CallsMade(s, i)|, Reply(s, i).toolCalls)
  }

  function Opening(s: Session): seq<Message> {
    [Message(System, s.systemPrompt, [], "", ""),
     Message(User, "Cluster context:\n" + s.snapshot, [], "", "")]
  }

  /** The conversation after n tool rounds. */
  function Transcript(s: Session, n: nat): seq<Message> {
    if n == 0 then Opening(s) else Transcript(s, n - 1) + Round(s, n - 1)
  }

  function TraceOf(s: Session, n: nat): seq<TraceStep> {
    TraceEntries(s, 0, CallsMade(s, n))
  }

  function TokensOf(s: Session, i: nat): int {
    if s.complete(i).Answered? then s.complete(i).response.totalTokens else 0
  }

  /** Running total over the first n answers, failed ones counting nothing. */
  function TokenTotal(s: Session, n: nat): int {
    if n == 0 then 0 else Wrap64(TokenTotal(s, n - 1) + TokensOf(s, n - 1))
  }

  /** The usage reported by those of the first n answers that were given. */
  function TokenSum(s: Session, n: nat): int {
    if n == 0 then 0
    else
      match s.complete(n - 1)
      case Answered(r) => TokenSum(s, n - 1) + r.totalTokens
      case Refused(_) => TokenSum(s, n - 1)
  }

  // ---------- what a session sends and how it ends ----------

  /** A tool-free answer that does not decode triggers the single repair request. */
  predicate Repairs(s: Session, cap: nat) {
    var n := Stop(s, cap);
    n < cap && HasMessage(s, n) && ParseRca(s, Reply(s, n).content).Undecodable?
  }

  function MainRequest(s: Session, i: nat): Request {
    Request(Transcript(s, i), s.tools, MAX_TOKENS)
  }

  function MainRequests(s: Session, n: nat): (r: seq<Request>)
    ensures |r| == n
    ensures forall i :: 0 <= i < n ==> r[i] == MainRequest(s, i)
  {
    if n == 0 then [] else MainRequests(s, n - 1) + [MainRequest(s, n - 1)]
  }

  function MainCount(s: Session, cap: nat): (n: nat)
    ensures n <= cap
  {
    if Stop(s, cap) < cap then Stop(s, cap) + 1 else cap
  }

  function RepairRequest(s: Session, n: nat): Request {
    Request(Transcript(s, n) + [Reply(s, n)] + [Message(User, s.repairPrompt, [], "", "")], [], REPAIR_MAX_TOKENS)
  }

  function Requests(s: Session, cap: nat): seq<Request> {
    MainRequests(s, MainCount(s, cap)) +
    if Repairs(s, cap) then [RepairRequest(s, Stop(s, cap))] else []
  }

  /** The analysis the repair request brought back, or why it did not. */
  function Repaired(s: Session, n: nat): Decoded {
    match s.complete(n + 1)
    case Refused(e) => Undecodable(e)
    case Answered(r) =>
      if r.choices == [] then Undecodable("empty repair response")
      else ParseRca(s, FromSdk(r.choices[0]).content)
  }

  /** How a session ends.  Done exactly with a complete analysis, Failed exactly when the
      round that stopped the loop brought no message at all. */
  function OutcomeOf(s: Session, cap: nat): (o: Outcome)
    ensures Terminal(o.phase)
    ensures o.phase == Done <==> o.rca.Some?
    ensures o.rca.Some? ==> o.rca.value.summary != "" && o.rca.value.rootCause != ""
    ensures o.phase == Failed <==> Stop(s, cap) < cap && !HasMessage(s, Stop(s, cap))
  {
    var n := Stop(s, cap);
    var used := TokenTotal(s, |Requests(s, cap)|);
    if n == cap then
      Outcome(Partial, None, used, "max iterations reached without final RCA", "", TraceOf(s, n))
    else if s.complete(n).Refused? then
      Outcome(Failed, None, used, s.complete(n).error, "", TraceOf(s, n))
    else if !HasMessage(s, n) then
      Outcome(Failed, None, used, "provider returned empty choices", "", TraceOf(s, n))
    else
      match ParseRca(s, Reply(s, n).content)
      case Decoded(rca) => Outcome(Done, Some(rca), used, "", rca.reasoning, TraceOf(s, n))
      case Undecodable(e) =>
        match Repaired(s, n)
        case Decoded(rca) => Outcome(Done, Some(rca), used, "", rca.reasoning, TraceOf(s, n))
        case Undecodable(e') => Outcome(Partial, None, used, "rca parse: " + e + "; repair: " + e', "", TraceOf(s, n))
  }

  // ---------- properties of every session ----------

  /** The recorded usage is the sum over every request sent, the repair included. */
  lemma {:induction false} TokensAreSummed(s: Session, cap: nat)
    ensures OutcomeOf(s, cap).tokensUsed == Wrap64(TokenSum(s, |Requests(s, cap)|))
  {
    TotalIsWrappedSum(s, |Requests(s, cap)|);
  }

  lemma {:induction false} RefusalIsFree(s: Session, n: nat)
    requires s.complete(n).Refused?
    ensures TokenTotal(s, n + 1) == TokenTotal(s, n)
  {
    assert n > 0 ==> TokenTotal(s, n) == Wrap64(TokenTotal(s, n - 1) + TokensOf(s, n - 1));
  }

  lemma {:induction false} TotalIsWrappedSum(s: Session, n: nat)
    ensures TokenTotal(s, n) == Wrap64(TokenSum(s, n))
  {
    if n > 0 {
      TotalIsWrappedSum(s, n - 1);
      WrapSums(TokenSum(s, n - 1), TokensOf(s, n - 1));
    }
  }

  lemma {:induction false} RoundIsBlock(s: Session, i: nat)
    requires IsToolRound(s, i)
    ensures Blocks(Round(s, i))
  {
    var block, from, calls := Round(s, i), |CallsMade(s, i)|, Reply(s, i).toolCalls;
    var replies := ToolMessages(s, from, calls);
    forall j | 0 <= j < |calls| ensures replies[j] == ToolMessage(s, from + j, calls[j]) {
      MessageAt(s, from, calls, j);
    }
    assert block[1..1 + |calls|] == replies;
    assert OpensBlock(block) && block[BlockLength(block)..] == [];
  }

  lemma {:induction false} TranscriptIsConversation(s: Session, n: nat)
    requires ToolRounds(s, n)
    ensures Conversation(Transcript(s, n))
  {
    if n > 0 {
      TranscriptIsConversation(s, n - 1);
      assert IsToolRound(s, n - 1);
      RoundIsBlock(s, n - 1);
      ConversationAppend(Transcript(s, n - 1), Round(s, n - 1));
    }
  }

  lemma {:induction false} TranscriptsGrow(s: Session, m: nat, n: nat)
    requires m < n
    ensures Transcript(s, m) < Transcript(s, n)
  {
    if m < n - 1 {
      TranscriptsGrow(s, m, n - 1);
    }
    assert Transcript(s, n - 1) < Transcript(s, n);
  }

  ghost predicate IsRepairOf(repair: Request, main: Request) {
    exists a: Message, u: Message ::
      repair.messages == main.messages + [a] + [u] &&
      a.role == Assistant && a.toolCalls == [] && u.role == User && u.toolCalls == []
  }

  /** Every request is a well-formed conversation, each main request strictly extends the
      previous one, and a repair adds only the tool-free answer and one user message. */
  lemma {:induction false} RequestsAreConversations(s: Session, cap: nat)
    requires cap > 0
    ensures var sent, n := Requests(s, cap), MainCount(s, cap);
            1 <= n <= |sent| <= n + 1 &&
            (forall i :: 0 <= i < n ==>
              Conversation(sent[i].messages) && sent[i].maxTokens == 900 && sent[i].tools == s.tools) &&
            (forall i :: 0 < i < n ==> sent[i - 1].messages < sent[i].messages) &&
            (|sent| == n + 1 ==>
              IsRepairOf(sent[n], sent[n - 1]) && sent[n].maxTokens == 500 && sent[n].tools == [])
  {
    var sent, n := Requests(s, cap), MainCount(s, cap);
    forall i | 0 <= i < n ensures Conversation(sent[i].messages) {
      assert sent[i] == MainRequest(s, i);
      TranscriptIsConversation(s, i);
    }
    forall i | 0 < i < n ensures sent[i - 1].messages < sent[i].messages {
      assert sent[i] == MainRequest(s, i) && sent[i - 1] == MainRequest(s, i - 1);
      TranscriptsGrow(s, i - 1, i);
    }
    if |sent| == n + 1 {
      var k := Stop(s, cap);
      assert k == n - 1 && sent[k] == MainRequest(s, k) && sent[n] == RepairRequest(s, k);
      assert Reply(s, k).toolCalls == [];
      assert sent[n].messages == sent[k].messages + [Reply(s, k)] + [Message(User, s.repairPrompt, [], "", "")];
    }
  }

  /** The tool messages of a conversation, in order. */
  function OnlyTools(ms: seq<Message>): seq<Message> {
    if ms == [] then []
    else OnlyTools(ms[..|ms| - 1]) + if ms[|ms| - 1].role == ToolResult then [ms[|ms| - 1]] else []
  }

  lemma {:induction false} OnlyToolsOfTools(ms: seq<Message>, answers: seq<Message>)
    requires forall i :: 0 <= i < |answers| ==> answers[i].role == ToolResult
    ensures OnlyTools(ms + answers) == OnlyTools(ms) + answers
  {
    if answers == [] {
      assert ms + answers == ms;
    } else {
      var k := |answers| - 1;
      assert (ms + answers)[..|ms| + k] == ms + answers[..k];
      OnlyToolsOfTools(ms, answers[..k]);
    }
  }

  lemma {:induction false} OnlyToolsPlusRound(ms: seq<Message>, reply: Message, answers: seq<Message>)
    requires reply.role == Assistant
    requires forall i :: 0 <= i < |answers| ==> answers[i].role == ToolResult
    ensures OnlyTools(ms + ([reply] + answers)) == OnlyTools(ms) + answers
  {
    assert OnlyTools(ms + [reply]) == OnlyTools(ms) by {
      assert (ms + [reply])[..|ms|] == ms;
    }
    assert ms + ([reply] + answers) == (ms + [reply]) + answers by {
      Assoc(ms, [reply], answers);
    }
    OnlyToolsOfTools(ms + [reply], answers);
  }

  lemma {:induction false} OnlyToolsAtStart(s: Session)
    ensures OnlyTools(Transcript(s, 0)) == []
  {
    var ms := Transcript(s, 0);
    assert ms[..1][..0] == [] && OnlyTools(ms[..1]) == [];
  }

  /** The tool messages sent back are the answers to the executed calls, one each. */
  lemma {:induction false} ToolMessagesAnswerCalls(s: Session, n: nat)
    ensures OnlyTools(Transcript(s, n)) == ToolMessages(s, 0, CallsMade(s, n))
  {
    if n == 0 {
      OnlyToolsAtStart(s);
    } else {
      ToolMessagesAnswerCalls(s, n - 1);
      var reply := Reply(s, n - 1);
      OnlyToolsPlusRound(Transcript(s, n - 1), reply, ToolMessages(s, |CallsMade(s, n - 1)|, reply.toolCalls));
      MessagesAppend(s, CallsMade(s, n - 1), reply.toolCalls);
    }
  }

  /** Trace entry k is the k-th executed call, with a clipped copy of the text the model
      was given for it. */
  lemma {:induction false} TraceMatchesTools(s: Session, cap: nat, k: nat)
    requires k < |OutcomeOf(s, cap).trace|
    ensures var o, n := OutcomeOf(s, cap), Stop(s, cap);
            var told := OnlyTools(Transcript(s, n));
            |o.trace| == |told| == |CallsMade(s, n)| &&
            o.trace[k].tool == CallsMade(s, n)[k].name == told[k].name &&
            o.trace[k].args == CallsMade(s, n)[k].arguments &&
            told[k].toolCallID == CallsMade(s, n)[k].id &&
            o.trace[k].result <= told[k].content &&
            |o.trace[k].result| ==
              (if |told[k].content| > 200 then 200 else |told[k].content|)
  {
    ToolMessagesAnswerCalls(s, Stop(s, cap));
  }

  // ---------- the outcome, read off the provider's answers ----------

  /** The i-th answer carries a message. */
  predicate Speaks(s: Session, i: nat) {
    s.complete(i).Answered? && |s.complete(i).response.choices| > 0
  }

  function Spoken(s: Session, i: nat): SdkChoice
    requires Speaks(s, i)
  {
    s.complete(i).response.choices[0]
  }

  /** The first n answers all ask for tools. */
  ghost predicate AskForTools(s: Session, n: nat) {
    forall i: nat :: i < n ==> Speaks(s, i) && |Spoken(s, i).toolCalls| > 0
  }

  predicate IsComplete(d: Decoded) {
    d.Decoded? && d.rca.summary != "" && d.rca.rootCause != ""
  }

  lemma {:induction false} StopIsKnown(s: Session, cap: nat, n: nat)
    requires AskForTools(s, n) && n <= cap && (n < cap ==> !(Speaks(s, n) && |Spoken(s, n).toolCalls| > 0))
    ensures Stop(s, cap) == n
  {
    AskedRounds(s, n);
    assert n < Stop(s, cap) ==> IsToolRound(s, n);
    assert Stop(s, cap) < n ==> IsToolRound(s, Stop(s, cap));
  }

  lemma {:induction false} AskedRounds(s: Session, n: nat)
    requires AskForTools(s, n)
    ensures ToolRounds(s, n)
  {
    forall i | 0 <= i < n ensures IsToolRound(s, i) {
      assert Speaks(s, i);
    }
  }

  /** Tools to the last: Partial after as many requests as allowed. */
  lemma {:induction false} OutcomeOfToolsOnly(s: Session, cap: nat)
    requires AskForTools(s, cap)
    ensures var o := OutcomeOf(s, cap);
            o.phase == Partial && o.rca == None && o.reasoning == "" &&
            o.rawError == "max iterations reached without final RCA" && |Requests(s, cap)| == cap
  {
    StopIsKnown(s, cap, cap);
  }

  /** No message: Failed with the provider's error, or for want of one. */
  lemma {:induction false} OutcomeOfSilence(s: Session, cap: nat, n: nat)
    requires n < cap && AskForTools(s, n) && !Speaks(s, n)
    ensures var o := OutcomeOf(s, cap);
            o.phase == Failed && o.rca == None && o.reasoning == "" && |Requests(s, cap)| == n + 1 &&
            o.rawError == if s.complete(n).Refused? then s.complete(n).error else "provider returned empty choices"
  {
    StopIsKnown(s, cap, n);
  }

  /** A complete analysis in the first answer without tool calls: Done with that analysis. */
  lemma {:induction false} OutcomeOfAnalysis(s: Session, cap: nat, n: nat)
    requires n < cap && AskForTools(s, n) && Speaks(s, n) && Spoken(s, n).toolCalls == []
    requires IsComplete(s.unmarshal(Spoken(s, n).content))
    ensures var o, rca := OutcomeOf(s, cap), s.unmarshal(Spoken(s, n).content).rca;
            o.phase == Done && o.rca == Some(rca) && o.reasoning == rca.reasoning && o.rawError == "" &&
            |Requests(s, cap)| == n + 1
  {
    StopIsKnown(s, cap, n);
  }

  /** Why a text is no complete analysis. */
  function Complaint(d: Decoded): string {
    match d
    case Undecodable(e) => "unmarshal: " + e
    case Decoded(_) => "incomplete rca: missing summary or rootCause"
  }

  /** Why the repair brought none: no answer, no message, or no complete analysis in it. */
  function RepairComplaint(s: Session, i: nat): string {
    match s.complete(i)
    case Refused(e) => e
    case Answered(r) =>
      if |r.choices| == 0 then "empty repair response" else Complaint(s.unmarshal(r.choices[0].content))
  }

  /** Otherwise one repair request decides: Done with its analysis if that is complete,
      Partial without one if not. */
  lemma {:induction false} OutcomeOfRepair(s: Session, cap: nat, n: nat)
    requires n < cap && AskForTools(s, n) && Speaks(s, n) && Spoken(s, n).toolCalls == []
    requires !IsComplete(s.unmarshal(Spoken(s, n).content))
    ensures |Requests(s, cap)| == n + 2
    ensures var o, repaired := OutcomeOf(s, cap), Speaks(s, n + 1) && IsComplete(s.unmarshal(Spoken(s, n + 1).content));
            (repaired ==>
              o.phase == Done && o.rca == Some(s.unmarshal(Spoken(s, n + 1).content).rca) &&
              o.reasoning == s.unmarshal(Spoken(s, n + 1).content).rca.reasoning && o.rawError == "") &&
            (!repaired ==>
              o.phase == Partial && o.rca == None && o.reasoning == "" &&
              o.rawError == "rca parse: " + Complaint(s.unmarshal(Spoken(s, n).content)) +
                            "; repair: " + RepairComplaint(s, n + 1))
  {
    StopIsKnown(s, cap, n);
  }

  // ---------- the requests, read off the answers and the tools ----------

  /** What the model is told about the j-th executed call. */
  ghost predicate Tells(s: Session, j: nat, call: ToolCall, m: Message) {
    m.role == ToolResult && m.toolCallID == call.id && m.name == call.name && m.toolCalls == [] &&
    (!s.executor ==> m.content == "tool " + s.quote(call.name) + ": no executor configured") &&
    (s.executor && s.execute(j).Executed? ==> m.content == s.execute(j).output) &&
    (s.executor && s.execute(j).Broke? ==> m.content == "error: " + s.execute(j).error)
  }

  /** How many calls the first n answers ask for. */
  ghost function CallCount(s: Session, n: nat): nat {
    if n == 0 then 0 else CallCount(s, n - 1) + if Speaks(s, n - 1) then |Spoken(s, n - 1).toolCalls| else 0
  }

  lemma {:induction false} CallsAreCounted(s: Session, n: nat)
    ensures |CallsMade(s, n)| == CallCount(s, n)
  {
    if n > 0 {
      CallsAreCounted(s, n - 1);
    }
  }

  /** What round i adds to the conversation: the answer, word for word, and what its calls
      yielded. */
  lemma {:induction false} RoundRecords(s: Session, i: nat) returns (told: seq<Message>)
    requires Speaks(s, i)
    ensures var said := Spoken(s, i);
            Transcript(s, i + 1) ==
            Transcript(s, i) + ([Message(Assistant, said.content, said.toolCalls, "", "")] + told) &&
            |told| == |said.toolCalls| &&
            forall j :: 0 <= j < |told| ==> Tells(s, CallCount(s, i) + j, said.toolCalls[j], told[j])
  {
    CallsAreCounted(s, i);
    var calls, from := Reply(s, i).toolCalls, |CallsMade(s, i)|;
    told := ToolMessages(s, from, calls);
    forall j | 0 <= j < |told| ensures Tells(s, from + j, calls[j], told[j]) {
      MessageAt(s, from, calls, j);
    }
    assert Reply(s, i) == Message(Assistant, Spoken(s, i).content, Spoken(s, i).toolCalls, "", "");
  }

  lemma {:induction false} RequestAt(s: Session, cap: nat, i: nat)
    requires i < cap && AskForTools(s, i)
    ensures i < |Requests(s, cap)| && Requests(s, cap)[i] == MainRequest(s, i)
  {
    AskedRounds(s, i);
    assert Stop(s, cap) < i ==> IsToolRound(s, Stop(s, cap));
  }

  /** The first request holds the two prompts. */
  lemma {:induction false} FirstRequestSays(s: Session, cap: nat)
    requires cap > 0
    ensures |Requests(s, cap)| > 0 && Requests(s, cap)[0].messages ==
              [Message(System, s.systemPrompt, [], "", ""),
               Message(User, "Cluster context:\n" + s.snapshot, [], "", "")]
  {
    RequestAt(s, cap, 0);
  }

  /** Each further one adds the answer to the one before, and what its calls yielded. */
  lemma {:induction false} RequestsRecordRounds(s: Session, cap: nat, i: nat) returns (told: seq<Message>)
    requires i + 1 < cap && AskForTools(s, i + 1)
    ensures |Requests(s, cap)| > i + 1 && |told| == |Spoken(s, i).toolCalls|
    ensures var said := Spoken(s, i);
            Requests(s, cap)[i + 1].messages ==
            Requests(s, cap)[i].messages + ([Message(Assistant, said.content, said.toolCalls, "", "")] + told)
    ensures forall j :: 0 <= j < |told| ==> Tells(s, CallCount(s, i) + j, Spoken(s, i).toolCalls[j], told[j])
  {
    RequestAt(s, cap, i);
    RequestAt(s, cap, i + 1);
    assert Speaks(s, i);
    told := RoundRecords(s, i);
  }

  /** The repair request adds the answer that did not decode and the repair prompt. */
  lemma {:induction false} RepairRequestSays(s: Session, cap: nat, n: nat)
    requires n < cap && AskForTools(s, n) && Speaks(s, n) && Spoken(s, n).toolCalls == []
    requires !IsComplete(s.unmarshal(Spoken(s, n).content))
    ensures |Requests(s, cap)| == n + 2
    ensures Requests(s, cap)[n + 1].messages ==
            Requests(s, cap)[n].messages + [Message(Assistant, Spoken(s, n).content, [], "", "")] +
            [Message(User, s.repairPrompt, [], "", "")]
  {
    StopIsKnown(s, cap, n);
    assert Requests(s, cap)[n] == MainRequest(s, n) && Requests(s, cap)[n + 1] == RepairRequest(s, n);
  }

  // ---------- tools cannot fail a run ----------

  /** The same session with other tool behaviour, or with none configured. */
  function WithTools(s: Session, executor: bool, execute: nat -> Execution): Session {
    s.(executor := executor, execute := execute)
  }

  lemma {:induction false} SameStop(s: Session, executor: bool, execute: nat -> Execution, cap: nat, i: nat)
    requires i <= cap
    ensures StopFrom(WithTools(s, executor, execute), cap, i) == StopFrom(s, cap, i)
    decreases cap - i
  {
    if i < cap && IsToolRound(s, i) {
      SameStop(s, executor, execute, cap, i + 1);
    }
  }

  lemma {:induction false} SameCallsAndTokens(s: Session, executor: bool, execute: nat -> Execution, n: nat)
    ensures CallsMade(WithTools(s, executor, execute), n) == CallsMade(s, n)
    ensures TokenTotal(WithTools(s, executor, execute), n) == TokenTotal(s, n)
  {
    if n > 0 {
      SameCallsAndTokens(s, executor, execute, n - 1);
    }
  }

  lemma {:induction false} SameRequestCount(s: Session, executor: bool, execute: nat -> Execution, cap: nat)
    ensures Stop(WithTools(s, executor, execute), cap) == Stop(s, cap)
    ensures |Requests(WithTools(s, executor, execute), cap)| == |Requests(s, cap)|
  {
    var t := WithTools(s, executor, execute);
    SameStop(s, executor, execute, cap, 0);
    SameAnswers(s, executor, execute, Stop(s, cap));
  }

  lemma {:induction false} SameAnswers(s: Session, executor: bool, execute: nat -> Execution, n: nat)
    ensures var t := WithTools(s, executor, execute);
            HasMessage(t, n) == HasMessage(s, n) && Reply(t, n) == Reply(s, n) && Repaired(t, n) == Repaired(s, n) &&
            ParseRca(t, Reply(s, n).content) == ParseRca(s, Reply(s, n).content)
  {}

  /** Given the same answers of the provider, a missing executor or a failing tool changes
      nothing but the texts told to the model: not how often it is asked, nor the outcome,
      nor which calls the trace lists. */
  lemma {:induction false} ToolsOnlyShapeTexts(s: Session, executor: bool, execute: nat -> Execution, cap: nat)
    ensures var t := WithTools(s, executor, execute);
            var o, o' := OutcomeOf(s, cap), OutcomeOf(t, cap);
            |Requests(t, cap)| == |Requests(s, cap)| && o' == o.(trace := o'.trace) &&
            |o'.trace| == |o.trace| &&
            forall k :: 0 <= k < |o.trace| ==>
              o'.trace[k].tool == o.trace[k].tool && o'.trace[k].args == o.trace[k].args
  {
    var n := Stop(s, cap);
    SameRequestCount(s, executor, execute, cap);
    SameCallsAndTokens(s, executor, execute, n);
    SameCallsAndTokens(s, executor, execute, |Requests(s, cap)|);
    SameAnswers(s, executor, execute, n);
    assert OutcomeOf(s, cap).trace == TraceOf(s, n);
  }

  /** A session costs at most one completion per iteration and one repair. */
  lemma {:induction false} WorkBound(s: Session, cap: nat)
    ensures |Requests(s, cap)| <= cap + 1
    ensures RequestedTokens(Requests(s, cap)) <= 900 * cap + 500
  {
    var main := MainRequests(s, MainCount(s, cap));
    UniformTokens(main, MAX_TOKENS);
    if Repairs(s, cap) {
      TokensAppend(main, RepairRequest(s, Stop(s, cap)));
    } else {
      assert main + [] == main;
    }
  }

  /** Output tokens asked for, over a list of requests. */
  function RequestedTokens(rs: seq<Request>): int {
    if rs == [] then 0 else RequestedTokens(rs[..|rs| - 1]) + rs[|rs| - 1].maxTokens
  }

  lemma {:induction false} TokensAppend(rs: seq<Request>, r: Request)
    ensures RequestedTokens(rs + [r]) == RequestedTokens(rs) + r.maxTokens
  {
    assert (rs + [r])[..|rs|] == rs;
  }

  lemma {:induction false} UniformTokens(rs: seq<Request>, x: int)
    requires forall i :: 0 <= i < |rs| ==> rs[i].maxTokens == x
    ensures RequestedTokens(rs) == |rs| * x
  {
    if rs != [] {
      UniformTokens(rs[..|rs| - 1], x);
      assert |rs| * x == (|rs| - 1) * x + x;
    }
  }

  // ---------- the loop ----------

  method CallTool(s: Session, j: nat, call: ToolCall) returns (text: string)
    ensures text == ToolText(s, j, call)
  {
    if !s.executor {
      return "tool " + s.quote(call.name) + ": no executor configured";
    }
    match s.execute(j)
    case Broke(e) => return "error: " + e;
    case Executed(output) => return output;
  }

  /** One more completion, asking only for the JSON object. */
  method RepairRca(s: Session, messages: seq<Message>, n: nat, tokens: int)
    returns (result: Decoded, tokens': int, request: Request)
    requires tokens == TokenTotal(s, n + 1)
    ensures result == Repaired(s, n)
    ensures tokens' == TokenTotal(s, n + 2)
    ensures request == Request(messages + [Message(User, s.repairPrompt, [], "", "")], [], REPAIR_MAX_TOKENS)
  {
    var repair := messages + [Message(User, s.repairPrompt, [], "", "")];
    request := Request(repair, [], REPAIR_MAX_TOKENS);
    tokens' := tokens;
    var completion := s.complete(n + 1);
    if completion.Refused? {
      result := Undecodable(completion.error);
      return;
    }
    tokens' := Wrap64(tokens' + completion.response.totalTokens);
    if |completion.response.choices| == 0 {
      result := Undecodable("empty repair response");
      return;
    }
    result := ParseRca(s, FromSdk(completion.response.choices[0]).content);
  }

  lemma {:induction false} StopsAt(s: Session, cap: nat, i: nat)
    requires i < cap && ToolRounds(s, i) && !IsToolRound(s, i)
    ensures Stop(s, cap) == i && MainCount(s, cap) == i + 1
    ensures Requests(s, cap) == MainRequests(s, i) + [MainRequest(s, i)] +
            if Repairs(s, cap) then [RepairRequest(s, i)] else []
  {
    assert Stop(s, cap) > i ==> IsToolRound(s, i);
    assert Stop(s, cap) < i ==> IsToolRound(s, Stop(s, cap));
  }

  lemma {:induction false} FailsAt(s: Session, cap: nat, i: nat)
    requires i < cap && ToolRounds(s, i) && !HasMessage(s, i)
    ensures Requests(s, cap) == MainRequests(s, i) + [MainRequest(s, i)]
    ensures var e := if s.complete(i).Refused? then s.complete(i).error else "provider returned empty choices";
            OutcomeOf(s, cap) == Outcome(Failed, None, TokenTotal(s, i + 1), e, "", TraceOf(s, i))
  {
    StopsAt(s, cap, i);
  }

  lemma {:induction false} RunsOut(s: Session, cap: nat)
    requires ToolRounds(s, cap)
    ensures Requests(s, cap) == MainRequests(s, cap)
    ensures OutcomeOf(s, cap) ==
            Outcome(Partial, None, TokenTotal(s, cap), "max iterations reached without final RCA", "", TraceOf(s, cap))
  {
    assert Stop(s, cap) < cap ==> IsToolRound(s, Stop(s, cap));
  }

  /** The model asked for no tool: decode its answer, repairing once. */
  method Conclude(s: Session, cap: nat, i: nat, messages: seq<Message>, tokens: int, trace: seq<TraceStep>)
    returns (out: Outcome, repairs: seq<Request>)
    requires i < cap && ToolRounds(s, i) && !IsToolRound(s, i) && HasMessage(s, i)
    requires messages == Transcript(s, i) + [Reply(s, i)]
    requires tokens == TokenTotal(s, i + 1) && trace == TraceOf(s, i)
    ensures out == OutcomeOf(s, cap)
    ensures MainRequests(s, i) + [MainRequest(s, i)] + repairs == Requests(s, cap)
  {
    StopsAt(s, cap, i);
    repairs := [];
    var parsed := ParseRca(s, messages[|messages| - 1].content);
    if parsed.Decoded? {
      out := Outcome(Done, Some(parsed.rca), tokens, "", parsed.rca.reasoning, trace);
      return;
    }
    var repaired, tokens', request := RepairRca(s, messages, i, tokens);
    repairs := [request];
    if repaired.Decoded? {
      out := Outcome(Done, Some(repaired.rca), tokens', "", repaired.rca.reasoning, trace);
      return;
    }
    out := Outcome(Partial, None, tokens', "rca parse: " + parsed.error + "; repair: " + repaired.error, "", trace);
  }

  /** The loop's variables. */
  datatype Progress = Progress(
    messages: seq<Message>, trace: seq<TraceStep>, tokens: int, executed: nat, sent: seq<Request>)

  ghost predicate AtRound(s: Session, i: nat, p: Progress) {
    ToolRounds(s, i) && p.messages == Transcript(s, i) && p.trace == TraceOf(s, i) &&
    p.tokens == TokenTotal(s, i) && p.executed == |CallsMade(s, i)| && p.sent == MainRequests(s, i)
  }

  /** One turn of the loop: a verdict, or one more tool round. */
  method Turn(s: Session, cap: nat, i: nat, p: Progress) returns (verdict: Option<Outcome>, p': Progress)
    requires i < cap && AtRound(s, i, p)
    ensures verdict.Some? ==> verdict.value == OutcomeOf(s, cap) && p'.sent == Requests(s, cap)
    ensures verdict.None? ==> AtRound(s, i + 1, p')
  {
    p' := p.(sent := p.sent + [Request(p.messages, s.tools, MAX_TOKENS)]);
    var completion := s.complete(i);
    if completion.Refused? {
      RefusalIsFree(s, i);
      var out := GiveUp(s, cap, i, p'.tokens, completion.error, p'.trace);
      return Some(out), p';
    }
    p' := p'.(tokens := Wrap64(p'.tokens + completion.response.totalTokens));
    if |completion.response.choices| == 0 {
      var out := GiveUp(s, cap, i, p'.tokens, "provider returned empty choices", p'.trace);
      return Some(out), p';
    }
    var msg := FromSdk(completion.response.choices[0]);
    p' := p'.(messages := p'.messages + [msg]);
    if |msg.toolCalls| == 0 {
      var out, repairs := Conclude(s, cap, i, p'.messages, p'.tokens, p'.trace);
      return Some(out), p'.(sent := p'.sent + repairs);
    }
    p' := NextRound(s, i, msg, p');
    verdict := None;
  }

  /** The provider gave no message. */
  method GiveUp(s: Session, cap: nat, i: nat, tokens: int, error: string, trace: seq<TraceStep>) returns (out: Outcome)
    requires i < cap && ToolRounds(s, i) && !HasMessage(s, i)
    requires tokens == TokenTotal(s, i + 1) && trace == TraceOf(s, i)
    requires error == if s.complete(i).Refused? then s.complete(i).error else "provider returned empty choices"
    ensures out == OutcomeOf(s, cap) && MainRequests(s, i) + [MainRequest(s, i)] == Requests(s, cap)
  {
    FailsAt(s, cap, i);
    out := Outcome(Failed, None, tokens, error, "", trace);
  }

  /** The model asked for tools: run them and add their results. */
  method NextRound(s: Session, i: nat, msg: Message, p: Progress) returns (p': Progress)
    requires ToolRounds(s, i) && IsToolRound(s, i) && msg == Reply(s, i)
    requires p.messages == Transcript(s, i) + [msg] && p.trace == TraceOf(s, i) && p.tokens == TokenTotal(s, i + 1)
    requires p.executed == |CallsMade(s, i)| && p.sent == MainRequests(s, i + 1)
    ensures AtRound(s, i + 1, p')
  {
    var answers, steps := ExecuteCalls(s, p.executed, msg.toolCalls);
    RoundDone(s, i, p.messages, answers, steps);
    p' := p.(executed := p.executed + |msg.toolCalls|, trace := p.trace + steps, messages := p.messages + answers);
  }

  /** The diagnosis loop, with the requests it sends. */
  method Run(s: Session, maxIter: int) returns (out: Outcome, sent: seq<Request>)
    ensures maxIter > 0 ==> out == OutcomeOf(s, maxIter) && sent == Requests(s, maxIter)
    ensures maxIter <= 0 ==> out == OutcomeOf(s, 5) && sent == Requests(s, 5)
  {
    var cap := maxIter;
    if cap <= 0 {
      cap := FALLBACK_ITERATIONS;
    }
    var p := Progress(Opening(s), [], 0, 0, []);
    for i := 0 to cap
      invariant AtRound(s, i, p)
    {
      var verdict;
      verdict, p := Turn(s, cap, i, p);
      if verdict.Some? {
        return verdict.value, p.sent;
      }
    }
    RunsOut(s, cap);
    return Outcome(Partial, None, p.tokens, "max iterations reached without final RCA", "", p.trace), p.sent;
  }

  /** Execute one round's calls in order. */
  method ExecuteCalls(s: Session, from: nat, calls: seq<ToolCall>)
    returns (answers: seq<Message>, steps: seq<TraceStep>)
    ensures answers == ToolMessages(s, from, calls)
    ensures steps == TraceEntries(s, from, calls)
  {
    answers, steps := [], [];
    for j := 0 to |calls|
      invariant answers == ToolMessages(s, from, calls[..j])
      invariant steps == TraceEntries(s, from, calls[..j])
    {
      var result := CallTool(s, from + j, calls[j]);
      var truncated := result;
      if |truncated| > 200 {
        truncated := truncated[..200];
      }
      steps := steps + [TraceStep(calls[j].name, calls[j].arguments, truncated)];
      answers := answers + [Message(ToolResult, result, [], calls[j].id, calls[j].name)];
      assert ToolMessages(s, from, calls[..j + 1]) ==
             ToolMessages(s, from, calls[..j]) + [ToolMessage(s, from + j, calls[j])];
      assert TraceEntries(s, from, calls[..j + 1]) ==
             TraceEntries(s, from, calls[..j]) + [TraceEntry(s, from + j, calls[j])];
    }
    assert calls[..|calls|] == calls;
  }

  lemma {:induction false} RoundDone(s: Session, i: nat, messages: seq<Message>, answers: seq<Message>,
                                     steps: seq<TraceStep>)
    requires messages == Transcript(s, i) + [Reply(s, i)]
    requires answers == ToolMessages(s, |CallsMade(s, i)|, Reply(s, i).toolCalls)
    requires steps == TraceEntries(s, |CallsMade(s, i)|, Reply(s, i).toolCalls)
    ensures messages + answers == Transcript(s, i + 1)
    ensures TraceOf(s, i) + steps == TraceOf(s, i + 1)
    ensures |CallsMade(s, i + 1)| == |CallsMade(s, i)| + |Reply(s, i).toolCalls|
  {
    Assoc(Transcript(s, i), [Reply(s, i)], answers);
    EntriesAppend(s, CallsMade(s, i), Reply(s, i).toolCalls);
  }

  lemma {:induction false} EntriesAppend(s: Session, made: seq<ToolCall>, more: seq<ToolCall>)
    ensures TraceEntries(s, 0, made + more) == TraceEntries(s, 0, made) + TraceEntries(s, |made|, more)
  {
    var whole, parts := TraceEntries(s, 0, made + more), TraceEntries(s, 0, made) + TraceEntries(s, |made|, more);
    forall j | 0 <= j < |whole| ensures whole[j] == parts[j] {
      var i := if j < |made| then j else j - |made|;
      assert (made + more)[j] == if j < |made| then made[i] else more[i];
    }
  }

  lemma {:induction false} MessagesAppend(s: Session, made: seq<ToolCall>, more: seq<ToolCall>)
    ensures ToolMessages(s, 0, made + more) == ToolMessages(s, 0, made) + ToolMessages(s, |made|, more)
  {
    var whole, parts := ToolMessages(s, 0, made + more), ToolMessages(s, 0, made) + ToolMessages(s, |made|, more);
    forall j | 0 <= j < |whole| ensures whole[j] == parts[j] {
      if j < |made| {
        MessageOfFirst(s, made, more, j);
      } else {
        MessageOfSecond(s, made, more, j - |made|);
      }
    }
  }

  lemma {:induction false} MessageOfFirst(s: Session, made: seq<ToolCall>, more: seq<ToolCall>, j: nat)
    requires j < |made|
    ensures ToolMessages(s, 0, made + more)[j] == ToolMessages(s, 0, made)[j]
  {
    MessageAt(s, 0, made + more, j);
    MessageAt(s, 0, made, j);
  }

  lemma {:induction false} MessageOfSecond(s: Session, made: seq<ToolCall>, more: seq<ToolCall>, i: nat)
    requires i < |more|
    ensures ToolMessages(s, 0, made + more)[|made| + i] == ToolMessages(s, |made|, more)[i]
  {
    MessageAt(s, 0, made + more, |made| + i);
    MessageAt(s, |made|, more, i);
  }

  lemma {:induction false} MessageAt(s: Session, from: nat, calls: seq<ToolCall>, j: nat)
    requires j < |calls|
    ensures ToolMessages(s, from, calls)[j] == ToolMessage(s, from + j, calls[j])
  {}
}
