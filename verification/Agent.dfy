/** The session history: Anthropic-shaped messages made of content blocks. */
module History {
  import opened Base

  /** A JSON value, of which only `Null` is ever looked at. */
  datatype Json = Null | Opaque(tag: nat)

  /** `None` in a field is a missing or non-string JSON member. */
  datatype Block =
    | Text(text: Option<string>)
    | ToolUse(id: Option<string>, name: Option<string>, input: Option<Json>)
    | ToolResult(toolUseId: Option<string>, content: ResultContent, isError: bool)
    | OtherBlock

  datatype ResultContent = NoContent | StringContent(s: string) | ValueContent(j: Json)

  datatype Role = User | Assistant | OtherRole

  datatype Content = Blocks(blocks: seq<Block>) | NotAnArray

  datatype Message = Message(role: Role, content: Content)

  function BlocksOf(m: Message): seq<Block> { if m.content.Blocks? then m.content.blocks else [] }

  datatype ToolCall = ToolCall(id: string, name: string, input: Json)

  predicate UsableCall(b: Block) { b.ToolUse? && b.id.Some? && b.name.Some? }

  /** `collect_tool_uses`: in order, skipping blocks without an id or a name. */
  function CollectToolUses(blocks: seq<Block>): seq<ToolCall> {
    if blocks == [] then []
    else
      var init, b := CollectToolUses(blocks[..|blocks| - 1]), blocks[|blocks| - 1];
      if UsableCall(b) then init + [CallOf(b)] else init
  }

  function CallOf(b: Block): ToolCall
    requires UsableCall(b)
  {
    ToolCall(b.id.value, b.name.value, if b.input.Some? then b.input.value else Null)
  }

  function Join(parts: seq<string>, sep: string): string {
    if parts == [] then "" else if |parts| == 1 then parts[0] else parts[0] + sep + Join(parts[1..], sep)
  }

  predicate HasText(b: Block) { b.Text? && b.text.Some? }

  function Texts(blocks: seq<Block>): seq<string> {
    if blocks == [] then []
    else
      var init, b := Texts(blocks[..|blocks| - 1]), blocks[|blocks| - 1];
      if HasText(b) then init + [b.text.value] else init
  }

  // ---- What a pass over the blocks keeps ----

  /** `pos` are the places of all the blocks that satisfy `keep`, in order. */
  ghost predicate Kept(pos: seq<nat>, blocks: seq<Block>, keep: Block -> bool) {
    && (forall i :: 0 <= i < |pos| ==> pos[i] < |blocks| && keep(blocks[pos[i]]))
    && (forall i, j :: 0 <= i < j < |pos| ==> pos[i] < pos[j])
    && (forall k :: 0 <= k < |blocks| && keep(blocks[k]) ==> k in pos)
  }

  /** One more block. */
  lemma KeptNext(pos: seq<nat>, blocks: seq<Block>, keep: Block -> bool) returns (more: seq<nat>)
    requires blocks != [] && Kept(pos, blocks[..|blocks| - 1], keep)
    ensures more == if keep(blocks[|blocks| - 1]) then pos + [|blocks| - 1] else pos
    ensures Kept(more, blocks, keep)
  {
    var n := |blocks| - 1;
    more := pos;
    if keep(blocks[n]) { more := pos + [n]; }
    forall i | 0 <= i < |more| ensures more[i] < |blocks| && keep(blocks[more[i]]) {
      if i < |pos| { assert blocks[..n][pos[i]] == blocks[pos[i]]; }
    }
    forall k | 0 <= k < |blocks| && keep(blocks[k]) ensures k in more {
      KeptPlace(pos, blocks, keep, k);
    }
  }

  lemma KeptPlace(pos: seq<nat>, blocks: seq<Block>, keep: Block -> bool, k: nat)
    requires blocks != [] && Kept(pos, blocks[..|blocks| - 1], keep) && k < |blocks| && keep(blocks[k])
    ensures k < |blocks| - 1 ==> k in pos
  {
    if k < |blocks| - 1 { assert blocks[..|blocks| - 1][k] == blocks[k]; }
  }

  /** The collected calls are those of the usable tool_use blocks: each with its own id, name and input. */
  lemma {:induction false} CollectedAre(blocks: seq<Block>) returns (pos: seq<nat>)
    ensures Kept(pos, blocks, UsableCall) && |CollectToolUses(blocks)| == |pos|
    ensures forall i :: 0 <= i < |pos| ==> IsCallOf(CollectToolUses(blocks)[i], blocks[pos[i]])
  {
    pos := [];
    if blocks != [] {
      pos := CollectedAre(blocks[..|blocks| - 1]);
      pos := KeptNext(pos, blocks, UsableCall);
    }
  }

  predicate IsCallOf(call: ToolCall, b: Block) {
    b.ToolUse? && b.id == Some(call.id) && b.name == Some(call.name)
    && (b.input == Some(call.input) || (b.input == None && call.input == Null))
  }

  lemma {:induction false} TextsAre(blocks: seq<Block>) returns (pos: seq<nat>)
    ensures Kept(pos, blocks, HasText) && |Texts(blocks)| == |pos|
    ensures forall i :: 0 <= i < |pos| ==> blocks[pos[i]].text == Some(Texts(blocks)[i])
  {
    pos := [];
    if blocks != [] {
      pos := TextsAre(blocks[..|blocks| - 1]);
      pos := KeptNext(pos, blocks, HasText);
    }
  }

  /** Every part stands in the joined text at its place, with a separator on each side that has a neighbour. */
  lemma {:induction false} JoinAround(parts: seq<string>, sep: string, i: nat)
    requires i < |parts|
    ensures Join(parts, sep) == (if i == 0 then "" else Join(parts[..i], sep) + sep)
                                + parts[i] + (if i == |parts| - 1 then "" else sep + Join(parts[i + 1..], sep))
  {
    if i > 0 {
      JoinAround(parts[1..], sep, i - 1);
      assert parts[1..][..i - 1] == parts[1..i] && parts[..i][1..] == parts[1..i];
      assert parts[1..][i..] == parts[i + 1..];
    }
  }

  /** The text is that of all the text blocks, in order, one to a line. */
  ghost predicate TextOf(blocks: seq<Block>, text: string) {
    exists pos :: Kept(pos, blocks, HasText) && text == LinesAt(blocks, pos)
  }

  function LinesAt(blocks: seq<Block>, pos: seq<nat>): string
    requires forall i :: 0 <= i < |pos| ==> pos[i] < |blocks|
  {
    Join(seq(|pos|, i requires 0 <= i < |pos| => TextAt(blocks[pos[i]])), "\n")
  }

  function TextAt(b: Block): string { if HasText(b) then b.text.value else "" }

  lemma JoinedTexts(blocks: seq<Block>)
    ensures TextOf(blocks, Join(Texts(blocks), "\n"))
  {
    var pos := TextsAre(blocks);
    assert Texts(blocks) == seq(|pos|, i requires 0 <= i < |pos| => TextAt(blocks[pos[i]]));
  }

  // ---- Pairing ----

  predicate HasToolUse(m: Message) { m.role == Assistant && exists b :: b in BlocksOf(m) && b.ToolUse? }

  predicate HasToolResult(m: Message) { m.role == User && exists b :: b in BlocksOf(m) && b.ToolResult? }

  /** Every tool_use block is complete, so that none is skipped. */
  predicate Complete(blocks: seq<Block>) { forall b :: b in blocks && b.ToolUse? ==> UsableCall(b) }

  /** The ids of all tool_use blocks, in order. */
  function UseIds(blocks: seq<Block>): seq<Option<string>> {
    if blocks == [] then []
    else
      var init, b := UseIds(blocks[..|blocks| - 1]), blocks[|blocks| - 1];
      if b.ToolUse? then init + [b.id] else init
  }

  /** The message consists of exactly one result for each of these ids, in their order. */
  predicate Answers(m: Message, ids: seq<Option<string>>) {
    && m.role == User && |BlocksOf(m)| == |ids|
    && forall i :: 0 <= i < |ids| ==> ids[i].Some? && BlocksOf(m)[i].ToolResult? && BlocksOf(m)[i].toolUseId == ids[i]
  }

  /** Calls are answered at once and completely, and only calls are answered. */
  predicate Linked(m: Message, next: Message) {
    HasToolUse(m) || HasToolResult(next) ==> HasToolUse(m) && Answers(next, UseIds(BlocksOf(m)))
  }

  ghost predicate AllLinked(ms: seq<Message>) {
    && (ms != [] ==> !HasToolResult(ms[0]))
    && forall i :: 0 <= i < |ms| - 1 ==> Linked(ms[i], ms[i + 1])
  }

  /** Nothing is left open, except one handed-off client call. */
  predicate OpenEnd(ms: seq<Message>, pending: Option<string>) {
    match pending
    case None => ms == [] || !HasToolUse(ms[|ms| - 1])
    case Some(id) =>
      && ms != []
      && var last := ms[|ms| - 1];
         HasToolUse(last) && UseIds(BlocksOf(last)) == [Some(id)]
  }

  /** Every tool_use is matched in the next message; `pending` is the call a client is working on. */
  ghost predicate Paired(ms: seq<Message>, pending: Option<string>) { AllLinked(ms) && OpenEnd(ms, pending) }

  /** Collecting skips nothing exactly when every block is complete. */
  lemma {:induction false} CollectedIds(blocks: seq<Block>)
    ensures |CollectToolUses(blocks)| <= |UseIds(blocks)|
    ensures |CollectToolUses(blocks)| == |UseIds(blocks)| <==> Complete(blocks)
    ensures Complete(blocks) ==>
              forall i :: 0 <= i < |UseIds(blocks)| ==> UseIds(blocks)[i] == Some(CollectToolUses(blocks)[i].id)
  {
    if blocks != [] {
      var n := |blocks| - 1;
      CollectedIds(blocks[..n]);
      assert blocks == blocks[..n] + [blocks[n]];
      assert Complete(blocks) <==> Complete(blocks[..n]) && (blocks[n].ToolUse? ==> UsableCall(blocks[n]));
    }
  }
}

/** The agent loop: call the provider, run node-side tools, hand one client tool to the caller. */
module AgentLoop {
  import opened Base
  import opened History
  import opened Metering

  datatype Tool = NodeTool | ClientTool

  datatype ChatResult = ChatResult(content: seq<Block>, stopReason: string, usage: Usage)

  datatype StepInput = Prompt(text: string) | ClientResult(toolUseId: string, content: string, isError: bool)

  datatype StepOutcome =
    | Final(content: string, usage: Usage)
    | NeedsClientTool(toolUseId: string, name: string, input: Json, usage: Usage)

  datatype StepError = ProviderFailed | NoToolUseBlocks | UnsupportedToolMix | UnexpectedStopReason

  /** The provider's answers to come (`None` is a failed call); when they run out, the provider is gone. */
  type Script = seq<Option<ChatResult>>

  /** What a node tool returns for a call, which may also depend on the history's length and its place in the turn. */
  type Executor = (nat, nat, ToolCall) -> Result<string, string>

  // ---- Pieces of a turn ----

  function ResultBlock(id: string, content: string, isError: bool): Block {
    ToolResult(Some(id), StringContent(content), isError)
  }

  function InputMessage(input: StepInput): Message {
    match input
    case Prompt(text) => Message(User, Blocks([Text(Some(text))]))
    case ClientResult(id, content, isError) => Message(User, Blocks([ResultBlock(id, content, isError)]))
  }

  function Find(tools: map<string, Tool>, name: string): Option<Tool> {
    if name in tools then Some(tools[name]) else None
  }

  predicate IsClientCall(tools: map<string, Tool>, c: ToolCall) { Find(tools, c.name) == Some(ClientTool) }

  function ClientCount(tools: map<string, Tool>, calls: seq<ToolCall>): nat {
    if calls == [] then 0
    else ClientCount(tools, calls[..|calls| - 1]) + (if IsClientCall(tools, calls[|calls| - 1]) then 1 else 0)
  }

  function RunNodeCall(tools: map<string, Tool>, exec: Executor, time: nat, i: nat, c: ToolCall): Block {
    match Find(tools, c.name)
    case None => ResultBlock(c.id, "unknown tool `" + c.name + "`", true)
    case Some(_) =>
      match exec(time, i, c)
      case Success(s) => ResultBlock(c.id, s, false)
      case Failure(e) => ResultBlock(c.id, "tool error: " + e, true)
  }

  function RunNodeCalls(tools: map<string, Tool>, exec: Executor, time: nat, calls: seq<ToolCall>): seq<Block> {
    seq(|calls|, i requires 0 <= i < |calls| => RunNodeCall(tools, exec, time, i, calls[i]))
  }

  // ---- One step ----

  type StepResult = (seq<Message>, Result<StepOutcome, StepError>)

  /** What the loop makes of one answer. */
  datatype Verdict =
    | EndTurn
    | HandOff(call: ToolCall)            // a single client tool
    | RunHere(calls: seq<ToolCall>)      // node or unknown tools only
    | Pause
    | Refuse(error: StepError)

  function Judge(tools: map<string, Tool>, resp: ChatResult): Verdict {
    if resp.stopReason == "end_turn" then EndTurn
    else if resp.stopReason == "tool_use" then JudgeCalls(tools, CollectToolUses(resp.content))
    else if resp.stopReason == "pause_turn" then Pause
    else Refuse(UnexpectedStopReason)
  }

  function JudgeCalls(tools: map<string, Tool>, calls: seq<ToolCall>): Verdict {
    var clients := ClientCount(tools, calls);
    if calls == [] then Refuse(NoToolUseBlocks)
    else if clients > 0 && |calls| > 1 then Refuse(UnsupportedToolMix)
    else if clients > 0 then HandOff(calls[0])
    else RunHere(calls)
  }

  predicate Continues(v: Verdict) { v.Pause? || v.RunHere? }

  function Reply(resp: ChatResult): Message { Message(Assistant, Blocks(resp.content)) }

  function Results(tools: map<string, Tool>, exec: Executor, time: nat, calls: seq<ToolCall>): Message {
    Message(User, Blocks(RunNodeCalls(tools, exec, time, calls)))
  }

  /** The history after one answer and the node tools it called. */
  function AfterTurn(tools: map<string, Tool>, exec: Executor, ms: seq<Message>, resp: ChatResult,
                     v: Verdict): seq<Message> {
    var ms1 := ms + [Reply(resp)];
    if v.RunHere? then ms1 + [Results(tools, exec, |ms1|, v.calls)] else ms1
  }

  function Stopped(resp: ChatResult, v: Verdict, usage: Usage): Result<StepOutcome, StepError>
    requires !Continues(v)
  {
    match v
    case EndTurn => Success(Final(Join(Texts(resp.content), "\n"), usage))
    case HandOff(call) => Success(NeedsClientTool(call.id, call.name, call.input, usage))
    case Refuse(e) => Failure(e)
  }

  /** The loop of `step`, from any point of it. */
  function Turns(tools: map<string, Tool>, exec: Executor, ms: seq<Message>, usage: Usage, script: Script): StepResult
    decreases |script|
  {
    if script == [] || script[0] == None then (ms, Failure(ProviderFailed))
    else
      var resp := script[0].value;
      var v, usage1 := Judge(tools, resp), Plus(usage, resp.usage);
      var ms1 := AfterTurn(tools, exec, ms, resp, v);
      if Continues(v) then Turns(tools, exec, ms1, usage1, script[1..]) else (ms1, Stopped(resp, v, usage1))
  }

  lemma OneTurn(tools: map<string, Tool>, exec: Executor, ms: seq<Message>, usage: Usage, script: Script)
    requires script != [] && script[0].Some?
    ensures var resp := script[0].value;
            var v, usage1 := Judge(tools, resp), Plus(usage, resp.usage);
            var ms1 := AfterTurn(tools, exec, ms, resp, v);
            Turns(tools, exec, ms, usage, script)
            == if Continues(v) then Turns(tools, exec, ms1, usage1, script[1..]) else (ms1, Stopped(resp, v, usage1))
  {
  }

  class AgentSession {
    var messages: seq<Message>

    constructor ()
      ensures messages == []
    {
      messages := [];
    }

    method Step(tools: map<string, Tool>, exec: Executor, input: StepInput, script: Script)
      returns (r: Result<StepOutcome, StepError>)
      modifies this
      ensures (messages, r) == Turns(tools, exec, old(messages) + [InputMessage(input)], NO_USAGE, script)
    {
      messages := messages + [InputMessage(input)];
      var totalUsage := new UsageCounter();
      var turn := 0;
      while true
        invariant 0 <= turn <= |script| && fresh(totalUsage)
        invariant Turns(tools, exec, old(messages) + [InputMessage(input)], NO_USAGE, script)
               == Turns(tools, exec, messages, totalUsage.total, script[turn..])
        decreases |script| - turn
      {
        if turn == |script| || script[turn] == None { return Failure(ProviderFailed); }
        var resp := script[turn].value;
        ghost var before, usage, rest := messages, totalUsage.total, script[turn..];
        OneTurn(tools, exec, before, usage, rest);
        assert rest[1..] == script[turn + 1..];
        turn := turn + 1;
        totalUsage.Add(resp.usage);
        messages := messages + [Reply(resp)];
        var verdict := JudgeReply(tools, resp);
        match verdict {
          case RunHere(calls) =>
            var blocks := RunTools(tools, exec, |messages|, calls);
            messages := messages + [Message(User, Blocks(blocks))];
          case Pause =>
          case _ =>
            r := Stopped(resp, verdict, totalUsage.total);
            return;
        }
        assert Turns(tools, exec, before, usage, rest)
            == Turns(tools, exec, messages, totalUsage.total, script[turn..]);
      }
    }
  }

  /** The branches on the stop reason, and the classification before any tool is run. */
  method JudgeReply(tools: map<string, Tool>, resp: ChatResult) returns (v: Verdict)
    ensures v == Judge(tools, resp)
    ensures v.RunHere? ==> forall i :: 0 <= i < |v.calls| ==> !IsClientCall(tools, v.calls[i])
  {
    if resp.stopReason == "end_turn" {
      return EndTurn;
    } else if resp.stopReason == "tool_use" {
      var toolUses := CollectToolUses(resp.content);
      if toolUses == [] { return Refuse(NoToolUseBlocks); }
      var hasNode, clientCount := Classify(tools, toolUses);
      if clientCount > 0 && (hasNode || clientCount > 1) { return Refuse(UnsupportedToolMix); }
      ClientCountBound(tools, toolUses);
      if clientCount == 1 {
        // the only call is the client's, so the search below cannot come up empty
        var i := FirstClientCall(tools, toolUses);
        return HandOff(toolUses[i]);
      }
      return RunHere(toolUses);
    } else if resp.stopReason == "pause_turn" {
      return Pause;
    }
    return Refuse(UnexpectedStopReason);
  }

  /** The classification pass over a turn's calls. */
  method Classify(tools: map<string, Tool>, calls: seq<ToolCall>) returns (hasNode: bool, clientCount: nat)
    ensures clientCount == ClientCount(tools, calls)
    ensures hasNode <==> clientCount < |calls|
  {
    hasNode, clientCount := false, 0;
    for i := 0 to |calls|
      invariant clientCount == ClientCount(tools, calls[..i]) <= i
      invariant hasNode <==> clientCount < i
    {
      assert calls[..i + 1][..i] == calls[..i];
      if Find(tools, calls[i].name) == Some(ClientTool) {
        clientCount := clientCount + 1;
      } else {
        hasNode := true;
      }
    }
    assert calls[..|calls|] == calls;
  }

  /** Each call in declaration order, with failures and unknown tools reported as error results. */
  method RunTools(tools: map<string, Tool>, exec: Executor, time: nat, calls: seq<ToolCall>)
    returns (blocks: seq<Block>)
    requires forall i :: 0 <= i < |calls| ==> !IsClientCall(tools, calls[i])
    ensures blocks == RunNodeCalls(tools, exec, time, calls)
  {
    blocks := [];
    for i := 0 to |calls|
      invariant |blocks| == i
      invariant forall j :: 0 <= j < i ==> blocks[j] == RunNodeCall(tools, exec, time, j, calls[j])
    {
      var call := calls[i];
      var content, isError;
      match Find(tools, call.name) {
        case Some(NodeTool) =>
          match exec(time, i, call) {
            case Success(s) => content, isError := s, false;
            case Failure(e) => content, isError := "tool error: " + e, true;
          }
        case Some(ClientTool) =>
          assert false;  // filtered above
        case None => content, isError := "unknown tool `" + call.name + "`", true;
      }
      blocks := blocks + [ResultBlock(call.id, content, isError)];
    }
  }

  /** `find(..).expect(..)`: there is one to find. */
  method FirstClientCall(tools: map<string, Tool>, calls: seq<ToolCall>) returns (i: nat)
    requires exists j :: 0 <= j < |calls| && IsClientCall(tools, calls[j])
    ensures i < |calls| && IsClientCall(tools, calls[i])
    ensures forall j :: 0 <= j < i ==> !IsClientCall(tools, calls[j])
  {
    i := 0;
    while !IsClientCall(tools, calls[i])
      invariant i < |calls| && forall j :: 0 <= j < i ==> !IsClientCall(tools, calls[j])
      decreases |calls| - i
    {
      i := i + 1;
    }
  }

  lemma {:induction false} ClientCountBound(tools: map<string, Tool>, calls: seq<ToolCall>)
    ensures ClientCount(tools, calls) <= |calls|
    ensures ClientCount(tools, calls) == 0 <==> forall j :: 0 <= j < |calls| ==> !IsClientCall(tools, calls[j])
  {
    if calls != [] { ClientCountBound(tools, calls[..|calls| - 1]); }
  }

  // ---- Pairing is kept, exactly when the provider is disciplined ----

  /** Calls only with stop_reason "tool_use", and then every call complete. */
  predicate Disciplined(resp: ChatResult) {
    && (resp.stopReason == "end_turn" || resp.stopReason == "pause_turn" ==>
          forall b :: b in resp.content ==> !b.ToolUse?)
    && (resp.stopReason == "tool_use" ==> Complete(resp.content))
  }

  /** Every answer this step takes from the provider is disciplined. */
  predicate DisciplinedTurns(tools: map<string, Tool>, script: Script)
    decreases |script|
  {
    script == [] || script[0] == None
    || (Disciplined(script[0].value)
        && (!Continues(Judge(tools, script[0].value)) || DisciplinedTurns(tools, script[1..])))
  }

  function PendingOf(o: StepOutcome): Option<string> {
    match o case Final(_, _) => None case NeedsClientTool(id, _, _, _) => Some(id)
  }

  /** The client answers as `runAgentLoop` does: a handed-off call with its result, and only that. */
  predicate FitsPending(input: StepInput, pending: Option<string>) {
    match input
    case Prompt(_) => pending == None
    case ClientResult(id, _, _) => pending == Some(id)
  }

  lemma {:induction false} TurnsExtend(tools: map<string, Tool>, exec: Executor, ms: seq<Message>, usage: Usage,
                                       script: Script)
    ensures ms <= Turns(tools, exec, ms, usage, script).0
    decreases |script|
  {
    if script != [] && script[0].Some? {
      var resp := script[0].value;
      var v := Judge(tools, resp);
      var ms1 := AfterTurn(tools, exec, ms, resp, v);
      assert ms <= ms1;
      TurnsExtend(tools, exec, ms1, Plus(usage, resp.usage), script[1..]);
    }
  }

  lemma Snoc(ms: seq<Message>, m: Message)
    requires AllLinked(ms) && ms != []
    ensures AllLinked(ms + [m]) <==> Linked(ms[|ms| - 1], m)
  {
    var ms1 := ms + [m];
    if Linked(ms[|ms| - 1], m) {
      forall i | 0 <= i < |ms1| - 1 ensures Linked(ms1[i], ms1[i + 1]) {
        if i < |ms| - 1 { assert Linked(ms[i], ms[i + 1]); }
      }
    } else {
      assert !Linked(ms1[|ms| - 1], ms1[|ms|]);
    }
  }

  /** A broken link stays broken however the history grows. */
  lemma BrokenStays(ms: seq<Message>, more: seq<Message>)
    requires ms <= more && AllLinked(more)
    ensures AllLinked(ms)
  {
    forall i | 0 <= i < |ms| - 1 ensures Linked(ms[i], ms[i + 1]) {
      assert Linked(more[i], more[i + 1]);
    }
  }

  /** What a verdict says about the answer. */
  lemma VerdictMeans(tools: map<string, Tool>, resp: ChatResult)
    ensures var v := Judge(tools, resp);
            && (v.EndTurn? || v.Pause? ==> (Disciplined(resp) <==> !HasToolUse(Reply(resp))))
            && (v.RunHere? ==> v.calls == CollectToolUses(resp.content))
            && (v.HandOff? ==> CollectToolUses(resp.content) == [v.call])
            && (v.HandOff? ==> (UseIds(resp.content) == [Some(v.call.id)] <==> Complete(resp.content)))
            && (v.RunHere? || v.HandOff? ==> HasToolUse(Reply(resp)) && (Disciplined(resp) <==> Complete(resp.content)))
  {
    CallsFound(resp.content);
    CollectedIds(resp.content);
    StopReasonsDiffer();
  }

  /** The verdict on an answer, by its stop reason and the tools its calls name. */
  lemma VerdictIff(tools: map<string, Tool>, resp: ChatResult)
    ensures var v, calls, asksTools := Judge(tools, resp), CollectToolUses(resp.content), resp.stopReason == "tool_use";
            && (v == EndTurn <==> resp.stopReason == "end_turn")
            && (v == Pause <==> resp.stopReason == "pause_turn")
            && (v == RunHere(calls)
                <==> asksTools && calls != [] && forall i :: 0 <= i < |calls| ==> !IsClientCall(tools, calls[i]))
            && (v.HandOff? <==> asksTools && |calls| == 1 && IsClientCall(tools, calls[0]))
            && (v == Refuse(NoToolUseBlocks) <==> asksTools && calls == [])
            && (v == Refuse(UnsupportedToolMix)
                <==> asksTools && |calls| > 1 && exists i :: 0 <= i < |calls| && IsClientCall(tools, calls[i]))
  {
    StopReasonsDiffer();
    ClientCountBound(tools, CollectToolUses(resp.content));
  }

  lemma StopReasonsDiffer()
    ensures "end_turn" != "tool_use" && "tool_use" != "pause_turn" && "pause_turn" != "end_turn"
  {
    assert "tool_use"[0] != "end_turn"[0];
  }

  lemma {:induction false} CallsFound(blocks: seq<Block>)
    ensures CollectToolUses(blocks) != [] ==> exists b :: b in blocks && b.ToolUse?
  {
    if blocks != [] {
      var n := |blocks| - 1;
      CallsFound(blocks[..n]);
      if UsableCall(blocks[n]) { assert blocks[n] in blocks; }
      assert forall b :: b in blocks[..n] ==> b in blocks;
    }
  }

  /** After an assistant message with calls, any assistant message breaks the history. */
  lemma UnansweredBreaks(tools: map<string, Tool>, exec: Executor, ms: seq<Message>, usage: Usage, script: Script)
    requires ms != [] && HasToolUse(ms[|ms| - 1])
    requires Turns(tools, exec, ms, usage, script).1.Success?
    ensures !AllLinked(Turns(tools, exec, ms, usage, script).0)
  {
    var resp := script[0].value;
    var v := Judge(tools, resp);
    var ms1 := AfterTurn(tools, exec, ms, resp, v);
    var out := Turns(tools, exec, ms, usage, script).0;
    TurnsExtend(tools, exec, ms1, Plus(usage, resp.usage), script[1..]);
    assert ms1 <= out;
    assert ms1[|ms| - 1] == ms[|ms| - 1] && ms1[|ms|] == Reply(resp);
    assert !Linked(out[|ms| - 1], out[|ms|]);
  }

  /** One successful run of the loop, from a history with nothing open. */
  lemma {:induction false} TurnsPairedIff(tools: map<string, Tool>, exec: Executor, ms: seq<Message>, usage: Usage,
                                          script: Script)
    requires ms != [] && AllLinked(ms) && !HasToolUse(ms[|ms| - 1])
    requires Turns(tools, exec, ms, usage, script).1.Success?
    ensures var (out, r) := Turns(tools, exec, ms, usage, script);
            Paired(out, PendingOf(r.value)) <==> DisciplinedTurns(tools, script)
    decreases |script|
  {
    var resp := script[0].value;
    var v, usage1 := Judge(tools, resp), Plus(usage, resp.usage);
    VerdictMeans(tools, resp);
    Snoc(ms, Reply(resp));
    match v
    case RunHere(calls) => RunHerePairedIff(tools, exec, ms, usage, script);
    case Pause =>
      var ms1 := ms + [Reply(resp)];
      if HasToolUse(Reply(resp)) {
        UnansweredBreaks(tools, exec, ms1, usage1, script[1..]);
      } else {
        TurnsPairedIff(tools, exec, ms1, usage1, script[1..]);
      }
    case _ =>
  }

  /** The case of a turn whose calls the node runs and answers itself. */
  lemma {:induction false} RunHerePairedIff(tools: map<string, Tool>, exec: Executor, ms: seq<Message>, usage: Usage,
                                            script: Script)
    requires ms != [] && AllLinked(ms) && !HasToolUse(ms[|ms| - 1])
    requires Turns(tools, exec, ms, usage, script).1.Success? && Judge(tools, script[0].value).RunHere?
    ensures var (out, r) := Turns(tools, exec, ms, usage, script);
            Paired(out, PendingOf(r.value)) <==> DisciplinedTurns(tools, script)
    decreases |script|, 0
  {
    var resp := script[0].value;
    var calls := Judge(tools, resp).calls;
    VerdictMeans(tools, resp);
    var out := Turns(tools, exec, ms, usage, script).0;
    var ms2 := AfterTurn(tools, exec, ms, resp, RunHere(calls));
    ExchangeLinked(ms, Reply(resp), Results(tools, exec, |ms| + 1, calls), calls);
    if Complete(resp.content) {
      TurnsPairedIff(tools, exec, ms2, Plus(usage, resp.usage), script[1..]);
    } else {
      TurnsExtend(tools, exec, ms2, Plus(usage, resp.usage), script[1..]);
      if AllLinked(out) { BrokenStays(ms2, out); }
    }
  }

  /** A reply with calls and the results of them. */
  lemma ExchangeLinked(ms: seq<Message>, reply: Message, results: Message, calls: seq<ToolCall>)
    requires ms != [] && AllLinked(ms) && !HasToolUse(ms[|ms| - 1])
    requires HasToolUse(reply) && calls == CollectToolUses(BlocksOf(reply)) && ResultsFor(results, calls)
    ensures AllLinked(ms + [reply] + [results]) <==> Complete(BlocksOf(reply))
    ensures !HasToolUse(results)
  {
    ResultsLinked(reply, results, calls);
    Snoc(ms, reply);
    Snoc(ms + [reply], results);
  }

  lemma ResultsLinked(reply: Message, results: Message, calls: seq<ToolCall>)
    requires HasToolUse(reply) && calls == CollectToolUses(BlocksOf(reply)) && ResultsFor(results, calls)
    ensures Linked(reply, results) <==> Complete(BlocksOf(reply))
    ensures !HasToolUse(results)
  {
    CollectedIds(BlocksOf(reply));
  }

  predicate ResultsFor(m: Message, calls: seq<ToolCall>) {
    && m.role == User && |BlocksOf(m)| == |calls|
    && forall i :: 0 <= i < |calls| ==> BlocksOf(m)[i].ToolResult? && BlocksOf(m)[i].toolUseId == Some(calls[i].id)
  }

  /**
   * History pairing. From a paired history, with the client answering as it
   * should, a successful step leaves the history paired (with exactly the
   * handed-off call pending) if and only if every answer it took from the
   * provider was disciplined. So a provider that reports calls under
   * "end_turn" is what breaks a session, and nothing else does.
   */
  lemma StepKeepsPairingIff(tools: map<string, Tool>, exec: Executor, ms: seq<Message>, pending: Option<string>,
                            input: StepInput, script: Script)
    requires Paired(ms, pending) && FitsPending(input, pending)
    requires Turns(tools, exec, ms + [InputMessage(input)], NO_USAGE, script).1.Success?
    ensures var (out, r) := Turns(tools, exec, ms + [InputMessage(input)], NO_USAGE, script);
            Paired(out, PendingOf(r.value)) <==> DisciplinedTurns(tools, script)
  {
    var m := InputMessage(input);
    if ms != [] {
      if input.ClientResult? { assert Answers(m, UseIds(BlocksOf(ms[|ms| - 1]))); }
      Snoc(ms, m);
    }
    TurnsPairedIff(tools, exec, ms + [m], NO_USAGE, script);
  }

  // ---- The bill of a step ----

  /** The usages of the answers a step takes from the provider. */
  function UsagesTaken(tools: map<string, Tool>, script: Script): seq<Usage>
    decreases |script|
  {
    if script == [] || script[0] == None then []
    else
      var resp := script[0].value;
      [resp.usage] + if Continues(Judge(tools, resp)) then UsagesTaken(tools, script[1..]) else []
  }

  /** The usage a step reports is accumulated over exactly the answers it took. */
  lemma {:induction false} StepUsage(tools: map<string, Tool>, exec: Executor, ms: seq<Message>, before: seq<Usage>,
                                     script: Script)
    requires Turns(tools, exec, ms, Accumulated(before), script).1.Success?
    ensures Turns(tools, exec, ms, Accumulated(before), script).1.value.usage
         == Accumulated(before + UsagesTaken(tools, script))
    decreases |script|
  {
    var resp := script[0].value;
    var v := Judge(tools, resp);
    OneTurn(tools, exec, ms, Accumulated(before), script);
    AccumulatedSnoc(before, resp.usage, if Continues(v) then UsagesTaken(tools, script[1..]) else []);
    if Continues(v) {
      StepUsage(tools, exec, AfterTurn(tools, exec, ms, resp, v), before + [resp.usage], script[1..]);
    }
  }

  /** Below the caps, a step is billed for exactly the tokens its answers reported, in all fields. */
  lemma StepTokens(tools: map<string, Tool>, exec: Executor, ms: seq<Message>, script: Script)
    requires Turns(tools, exec, ms, NO_USAGE, script).1.Success? && BelowCaps(UsagesTaken(tools, script))
    ensures TotalTokens(Turns(tools, exec, ms, NO_USAGE, script).1.value.usage)
         == ExactTokens(UsagesTaken(tools, script))
  {
    StepUsage(tools, exec, ms, [], script);
    assert [] + UsagesTaken(tools, script) == UsagesTaken(tools, script);
    TotalIsReported(UsagesTaken(tools, script));
  }

  lemma AccumulatedSnoc(before: seq<Usage>, u: Usage, rest: seq<Usage>)
    ensures Accumulated(before + [u]) == Plus(Accumulated(before), u)
    ensures before + ([u] + rest) == before + [u] + rest
    ensures before + [u] + [] == before + [u]
  {
    assert (before + [u])[..|before|] == before;
  }

  // ---- Whole conversations ----

  /** One exchange: what the client sends, and what the provider will answer during it. */
  datatype Exchange = Exchange(input: StepInput, script: Script)

  /** A conversation in which every step succeeds and the client answers as `runAgentLoop` does. */
  ghost predicate Conversation(tools: map<string, Tool>, exec: Executor, ms: seq<Message>, pending: Option<string>,
                               xs: seq<Exchange>, out: seq<Message>, left: Option<string>)
    decreases |xs|
  {
    if xs == [] then out == ms && left == pending
    else
      var (ms1, r) := Turns(tools, exec, ms + [InputMessage(xs[0].input)], NO_USAGE, xs[0].script);
      && FitsPending(xs[0].input, pending)
      && r.Success?
      && Conversation(tools, exec, ms1, PendingOf(r.value), xs[1..], out, left)
  }

  /** Sessions that start empty and talk to a disciplined provider stay paired for ever. */
  lemma {:induction false} ConversationPaired(tools: map<string, Tool>, exec: Executor, ms: seq<Message>,
                                              pending: Option<string>,
                                              xs: seq<Exchange>, out: seq<Message>, left: Option<string>)
    requires Paired(ms, pending) && Conversation(tools, exec, ms, pending, xs, out, left)
    requires forall x :: x in xs ==> DisciplinedTurns(tools, x.script)
    ensures Paired(out, left)
    decreases |xs|
  {
    if xs != [] {
      assert xs[0] in xs;
      StepKeepsPairingIff(tools, exec, ms, pending, xs[0].input, xs[0].script);
      var (ms1, r) := Turns(tools, exec, ms + [InputMessage(xs[0].input)], NO_USAGE, xs[0].script);
      ConversationPaired(tools, exec, ms1, PendingOf(r.value), xs[1..], out, left);
    }
  }
}
