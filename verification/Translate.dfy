/** Anthropic-shaped history to OpenAI chat messages, and a chat completion back. */
module Translate {
  import opened Base
  import opened History
  import opened Metering
  import opened AgentLoop

  /** JSON printing and parsing, of which only the round trip matters. */
  datatype Codec = Codec(render: Json -> string, parse: string -> Option<Json>) {
    ghost predicate Lawful() { forall j :: parse(render(j)) == Some(j) }
  }

  datatype OaiCall = OaiCall(id: string, name: string, arguments: string)

  datatype OaiMessage =
    | SystemMsg(content: string)
    | UserMsg(content: string)
    | AssistantMsg(text: Option<string>, toolCalls: seq<OaiCall>)
    | ToolMsg(toolCallId: string, content: string)

  // ---- Specification: history to chat messages ----

  function OrEmpty(s: Option<string>): string { if s.Some? then s.value else "" }

  function ResultString(c: Codec, r: ResultContent): string {
    match r
    case StringContent(s) => s
    case ValueContent(j) => c.render(j)
    case NoContent => ""
  }

  function ToolMsgs(c: Codec, blocks: seq<Block>): seq<OaiMessage> {
    if blocks == [] then []
    else
      var init, b := ToolMsgs(c, blocks[..|blocks| - 1]), blocks[|blocks| - 1];
      if b.ToolResult? then init + [ToolMsg(OrEmpty(b.toolUseId), ResultString(c, b.content))] else init
  }

  function OaiCallOf(c: Codec, b: Block): OaiCall
    requires b.ToolUse?
  {
    OaiCall(OrEmpty(b.id), OrEmpty(b.name), c.render(if b.input.Some? then b.input.value else Null))
  }

  function CallParts(c: Codec, blocks: seq<Block>): seq<OaiCall> {
    if blocks == [] then []
    else
      var init, b := CallParts(c, blocks[..|blocks| - 1]), blocks[|blocks| - 1];
      if b.ToolUse? then init + [OaiCallOf(c, b)] else init
  }

  function Joined(parts: seq<string>): Option<string> { if parts == [] then None else Some(Join(parts, "\n")) }

  function ToOai(c: Codec, m: Message): seq<OaiMessage> {
    var blocks := BlocksOf(m);
    match m.role
    case User =>
      ToolMsgs(c, blocks) + (if Texts(blocks) == [] then [] else [UserMsg(Join(Texts(blocks), "\n"))])
    case Assistant => [AssistantMsg(Joined(Texts(blocks)), CallParts(c, blocks))]
    case OtherRole => []
  }

  function AllToOai(c: Codec, system: string, ms: seq<Message>): seq<OaiMessage> {
    if ms == [] then [SystemMsg(system)] else AllToOai(c, system, ms[..|ms| - 1]) + ToOai(c, ms[|ms| - 1])
  }

  // ---- The translator ----

  method MessagesAnthropicToOai(c: Codec, system: string, messages: seq<Message>) returns (out: seq<OaiMessage>)
    ensures out == AllToOai(c, system, messages)
  {
    out := [SystemMsg(system)];
    for k := 0 to |messages|
      invariant out == AllToOai(c, system, messages[..k])
    {
      assert messages[..k + 1][..k] == messages[..k];
      var content := if messages[k].content.Blocks? then messages[k].content.blocks else [];
      match messages[k].role {
        case User =>
          var translated := TranslateUser(c, content);
          out := out + translated;
        case Assistant =>
          var translated := TranslateAssistant(c, content);
          out := out + [translated];
        case OtherRole =>
          assert out == out + [];
      }
    }
    assert messages[..|messages|] == messages;
  }

  method TranslateUser(c: Codec, content: seq<Block>) returns (out: seq<OaiMessage>)
    ensures out == ToOai(c, Message(User, Blocks(content)))
  {
    out := [];
    var textParts := [];
    for i := 0 to |content|
      invariant out == ToolMsgs(c, content[..i]) && textParts == Texts(content[..i])
    {
      assert content[..i + 1][..i] == content[..i];
      match content[i] {
        case Text(text) => if text.Some? { textParts := textParts + [text.value]; }
        case ToolResult(id, result, _) => out := out + [ToolMsg(OrEmpty(id), ResultString(c, result))];
        case _ =>
      }
    }
    assert content[..|content|] == content;
    if textParts != [] { out := out + [UserMsg(Join(textParts, "\n"))]; }
  }

  method TranslateAssistant(c: Codec, content: seq<Block>) returns (out: OaiMessage)
    ensures [out] == ToOai(c, Message(Assistant, Blocks(content)))
  {
    var textParts, toolCalls := [], [];
    for i := 0 to |content|
      invariant textParts == Texts(content[..i]) && toolCalls == CallParts(c, content[..i])
    {
      assert content[..i + 1][..i] == content[..i];
      match content[i] {
        case Text(text) => if text.Some? { textParts := textParts + [text.value]; }
        case ToolUse(id, name, input) =>
          var arguments := c.render(if input.Some? then input.value else Null);
          toolCalls := toolCalls + [OaiCall(OrEmpty(id), OrEmpty(name), arguments)];
        case _ =>
      }
    }
    assert content[..|content|] == content;
    out := AssistantMsg(if textParts == [] then None else Some(Join(textParts, "\n")), toolCalls);
  }

  // ---- Pairing survives translation ----

  function Calls(m: OaiMessage): seq<OaiCall> { if m.AssistantMsg? then m.toolCalls else [] }

  predicate ReplyTo(m: OaiMessage, call: OaiCall) { m.ToolMsg? && m.toolCallId == call.id }

  /** The calls at `p` are answered by the tool messages right after it, one per id, in order. */
  predicate AnsweredAt(out: seq<OaiMessage>, p: nat)
    requires p < |out|
  {
    var calls := Calls(out[p]);
    && p + |calls| < |out|
    && forall j :: 0 <= j < |calls| ==> ReplyTo(out[p + 1 + j], calls[j])
  }

  /** The tool message at `q` answers a call of the assistant message that precedes its run. */
  ghost predicate AnswersOne(out: seq<OaiMessage>, q: nat)
    requires q < |out|
  {
    exists p :: 0 <= p < q && IsReplyTo(out, p, q)
  }

  predicate IsReplyTo(out: seq<OaiMessage>, p: nat, q: nat)
    requires p < q < |out|
  {
    && AnsweredAt(out, p) && q - p <= |Calls(out[p])|
  }

  /** `open` positions at the end are exempt: one assistant message may still wait for its answer. */
  ghost predicate OaiPaired(out: seq<OaiMessage>, open: nat) {
    && open <= |out|
    && (forall p :: 0 <= p < |out| - open && Calls(out[p]) != [] ==> AnsweredAt(out, p))
    && (forall q :: 0 <= q < |out| && out[q].ToolMsg? ==> AnswersOne(out, q))
  }

  function OpenCount(ms: seq<Message>): nat { if ms != [] && HasToolUse(ms[|ms| - 1]) then 1 else 0 }

  lemma {:induction false} UserAnswers(c: Codec, blocks: seq<Block>)
    requires forall b :: b in blocks ==> b.ToolResult?
    ensures |ToolMsgs(c, blocks)| == |blocks| && Texts(blocks) == []
    ensures forall i :: 0 <= i < |blocks| ==>
              ToolMsgs(c, blocks)[i].ToolMsg? && ToolMsgs(c, blocks)[i].toolCallId == OrEmpty(blocks[i].toolUseId)
  {
    if blocks != [] {
      assert forall b :: b in blocks[..|blocks| - 1] ==> b in blocks;
      UserAnswers(c, blocks[..|blocks| - 1]);
    }
  }

  lemma {:induction false} NoResultsNoToolMsgs(c: Codec, blocks: seq<Block>)
    requires forall b :: b in blocks ==> !b.ToolResult?
    ensures ToolMsgs(c, blocks) == []
  {
    if blocks != [] {
      assert forall b :: b in blocks[..|blocks| - 1] ==> b in blocks;
      assert blocks[|blocks| - 1] in blocks;
      NoResultsNoToolMsgs(c, blocks[..|blocks| - 1]);
    }
  }

  /** The translated calls are the tool_use blocks, id by id. */
  lemma {:induction false} CallPartsMatch(c: Codec, blocks: seq<Block>)
    ensures |CallParts(c, blocks)| == |UseIds(blocks)|
    ensures forall i :: 0 <= i < |CallParts(c, blocks)| ==> CallParts(c, blocks)[i].id == OrEmpty(UseIds(blocks)[i])
  {
    if blocks != [] { CallPartsMatch(c, blocks[..|blocks| - 1]); }
  }

  lemma {:induction false} NoUsesNoCalls(c: Codec, blocks: seq<Block>)
    requires forall b :: b in blocks ==> !b.ToolUse?
    ensures CallParts(c, blocks) == []
  {
    if blocks != [] {
      assert forall b :: b in blocks[..|blocks| - 1] ==> b in blocks;
      assert blocks[|blocks| - 1] in blocks;
      NoUsesNoCalls(c, blocks[..|blocks| - 1]);
    }
  }

  lemma AnsweredExtends(out: seq<OaiMessage>, more: seq<OaiMessage>, p: nat)
    requires p < |out| && AnsweredAt(out, p)
    ensures AnsweredAt(out + more, p)
  {
    var all, calls := out + more, Calls(out[p]);
    forall j | 0 <= j < |calls| ensures ReplyTo(all[p + 1 + j], calls[j]) {
      assert ReplyTo(out[p + 1 + j], calls[j]);
    }
  }

  lemma AnswersOneExtends(out: seq<OaiMessage>, more: seq<OaiMessage>, q: nat)
    requires q < |out| && AnswersOne(out, q)
    ensures AnswersOne(out + more, q)
  {
    var p :| 0 <= p < q && IsReplyTo(out, p, q);
    AnsweredExtends(out, more, p);
    assert IsReplyTo(out + more, p, q);
  }

  lemma AppendQuiet(out: seq<OaiMessage>, more: seq<OaiMessage>, open: nat)
    requires OaiPaired(out, 0) && |more| <= 1 && open <= |more|
    requires forall m :: m in more ==> !m.ToolMsg? && (open == 0 ==> Calls(m) == [])
    ensures OaiPaired(out + more, open)
  {
    var all := out + more;
    assert forall i :: |out| <= i < |all| ==> all[i] in more;
    forall p | 0 <= p < |all| - open && Calls(all[p]) != [] ensures AnsweredAt(all, p) {
      AnsweredExtends(out, more, p);
    }
    forall q | 0 <= q < |all| && all[q].ToolMsg? ensures AnswersOne(all, q) {
      AnswersOneExtends(out, more, q);
    }
  }

  lemma AppendAnswers(out: seq<OaiMessage>, more: seq<OaiMessage>)
    requires OaiPaired(out, 1) && |more| == |Calls(out[|out| - 1])|
    requires forall j :: 0 <= j < |more| ==> ReplyTo(more[j], Calls(out[|out| - 1])[j])
    ensures OaiPaired(out + more, 0)
  {
    var all, last := out + more, |out| - 1;
    assert AnsweredAt(all, last);
    assert forall i :: |out| <= i < |all| ==> all[i] == more[i - |out|];
    forall p | 0 <= p < |all| && Calls(all[p]) != [] ensures AnsweredAt(all, p) {
      if p < last { AnsweredExtends(out, more, p); }
    }
    forall q | 0 <= q < |all| && all[q].ToolMsg? ensures AnswersOne(all, q) {
      if q > last {
        assert IsReplyTo(all, last, q);
      } else {
        AnswersOneExtends(out, more, q);
      }
    }
  }

  lemma AssistantStep(c: Codec, out: seq<OaiMessage>, m: Message)
    requires OaiPaired(out, 0) && m.role == Assistant
    ensures OaiPaired(out + ToOai(c, m), if HasToolUse(m) then 1 else 0)
  {
    if !HasToolUse(m) { NoUsesNoCalls(c, BlocksOf(m)); }
    AppendQuiet(out, ToOai(c, m), if HasToolUse(m) then 1 else 0);
  }

  /**
   * Translating a linked history: every assistant message with calls is
   * followed at once by one tool message per call, in order and before any user
   * text, and every tool message is such an answer. Only calls in the last
   * message of the history are still open.
   */
  lemma {:induction false} TranslationKeepsPairing(c: Codec, system: string, ms: seq<Message>)
    requires AllLinked(ms)
    ensures OaiPaired(AllToOai(c, system, ms), OpenCount(ms))
    ensures OpenCount(ms) == 1 ==> var out := AllToOai(c, system, ms);
              out[|out| - 1] == AssistantMsg(Joined(Texts(BlocksOf(ms[|ms| - 1]))),
                                             CallParts(c, BlocksOf(ms[|ms| - 1])))
  {
    if ms != [] {
      var n := |ms| - 1;
      var prior, m := ms[..n], ms[n];
      BrokenStays(prior, ms);
      if n > 0 { assert Linked(ms[n - 1], ms[n]); }
      TranslationKeepsPairing(c, system, prior);
      var out := AllToOai(c, system, prior);
      if OpenCount(prior) == 1 {
        AnswerStep(c, out, prior[n - 1], m);
      } else {
        QuietStep(c, out, m);
      }
    }
  }

  /** The message after open calls answers them all. */
  lemma AnswerStep(c: Codec, out: seq<OaiMessage>, asked: Message, m: Message)
    requires OaiPaired(out, 1) && HasToolUse(asked) && Linked(asked, m)
    requires Calls(out[|out| - 1]) == CallParts(c, BlocksOf(asked))
    ensures OaiPaired(out + ToOai(c, m), 0) && !HasToolUse(m)
  {
    UserAnswers(c, BlocksOf(m));
    CallPartsMatch(c, BlocksOf(asked));
    AppendAnswers(out, ToOai(c, m));
  }

  lemma QuietStep(c: Codec, out: seq<OaiMessage>, m: Message)
    requires OaiPaired(out, 0) && !HasToolResult(m)
    ensures OaiPaired(out + ToOai(c, m), if HasToolUse(m) then 1 else 0)
  {
    match m.role
    case Assistant => AssistantStep(c, out, m);
    case User =>
      NoResultsNoToolMsgs(c, BlocksOf(m));
      AppendQuiet(out, ToOai(c, m), 0);
    case OtherRole => assert out + ToOai(c, m) == out;
  }

  /** So whatever history the agent loop keeps paired, the other provider sees paired. */
  lemma PairedHistoriesTranslate(c: Codec, system: string, ms: seq<Message>, pending: Option<string>)
    requires Paired(ms, pending)
    ensures OaiPaired(AllToOai(c, system, ms), if pending == None then 0 else 1)
    ensures pending.Some? ==> var out := AllToOai(c, system, ms);
              |Calls(out[|out| - 1])| == 1 && Calls(out[|out| - 1])[0].id == pending.value
  {
    TranslationKeepsPairing(c, system, ms);
    if pending.Some? { CallPartsMatch(c, BlocksOf(ms[|ms| - 1])); }
  }

  /** End to end: a session run on a disciplined provider can be replayed to the other one at any time. */
  lemma ConversationTranslates(c: Codec, system: string, tools: map<string, Tool>, exec: Executor,
                               xs: seq<Exchange>, out: seq<Message>, left: Option<string>)
    requires Conversation(tools, exec, [], None, xs, out, left)
    requires forall x :: x in xs ==> DisciplinedTurns(tools, x.script)
    ensures OaiPaired(AllToOai(c, system, out), if left == None then 0 else 1)
  {
    ConversationPaired(tools, exec, [], None, xs, out, left);
    PairedHistoriesTranslate(c, system, out, left);
  }

  // ---- A completion, back to blocks ----

  /** `None` is a member that is missing or not of the expected type. */
  datatype RawCall = RawCall(id: Option<string>, name: Option<string>, arguments: Option<string>)

  datatype RawMessage = RawMessage(content: Option<string>, toolCalls: Option<seq<RawCall>>)

  datatype Choice = Choice(message: Option<RawMessage>, finishReason: Option<string>)

  datatype Completion = Completion(choice: Option<Choice>, promptTokens: nat, completionTokens: nat)

  datatype ResponseError = MissingChoice | MissingMessage

  function ArgumentsOf(call: RawCall): string { if call.arguments.Some? then call.arguments.value else "{}" }

  function InputOf(c: Codec, call: RawCall): Json {
    var parsed := c.parse(ArgumentsOf(call));
    if parsed.Some? then parsed.value else Null
  }

  function UseBlock(c: Codec, call: RawCall): Block {
    ToolUse(Some(OrEmpty(call.id)), Some(OrEmpty(call.name)), Some(InputOf(c, call)))
  }

  function RawCalls(m: RawMessage): seq<RawCall> { if m.toolCalls.Some? then m.toolCalls.value else [] }

  function TextBlocks(m: RawMessage): seq<Block> {
    if m.content.Some? && m.content.value != "" then [Text(m.content)] else []
  }

  function UseBlocks(c: Codec, calls: seq<RawCall>): seq<Block> {
    seq(|calls|, i requires 0 <= i < |calls| => UseBlock(c, calls[i]))
  }

  function StopReason(finishReason: Option<string>): string {
    var reason := if finishReason.Some? then finishReason.value else "stop";
    if reason == "stop" then "end_turn"
    else if reason == "tool_calls" then "tool_use"
    else if reason == "length" then "max_tokens"
    else reason
  }

  /** Token counts are truncated to 32 bits. */
  method ResponseOaiToAnthropic(c: Codec, body: Completion) returns (r: Result<ChatResult, ResponseError>)
    ensures match body.choice
            case None => r == Failure(MissingChoice)
            case Some(choice) =>
              match choice.message
              case None => r == Failure(MissingMessage)
              case Some(m) => r == Success(ChatResult(
                TextBlocks(m) + UseBlocks(c, RawCalls(m)), StopReason(choice.finishReason),
                Usage(body.promptTokens % U32_LIMIT, body.completionTokens % U32_LIMIT, None, None)))
  {
    if body.choice == None { return Failure(MissingChoice); }
    var choice := body.choice.value;
    if choice.message == None { return Failure(MissingMessage); }
    var message := choice.message.value;
    var content: seq<Block> := [];
    if message.content.Some? && message.content.value != "" {
      content := content + [Text(message.content)];
    }
    if message.toolCalls.Some? {
      var calls := message.toolCalls.value;
      for i := 0 to |calls|
        invariant content == TextBlocks(message) + UseBlocks(c, calls)[..i]
      {
        content := content + [UseBlock(c, calls[i])];
      }
      assert UseBlocks(c, calls)[..|calls|] == UseBlocks(c, calls);
    }
    assert content == TextBlocks(message) + UseBlocks(c, RawCalls(message));
    r := Success(ChatResult(content, StopReason(choice.finishReason),
                            Usage(body.promptTokens % U32_LIMIT, body.completionTokens % U32_LIMIT, None, None)));
  }

  // ---- Back out again ----

  lemma TextsPlus(blocks: seq<Block>, b: Block)
    requires b.ToolUse?
    ensures Texts(blocks + [b]) == Texts(blocks)
  {
    assert (blocks + [b])[..|blocks|] == blocks;
  }

  lemma CallPartsPlus(c: Codec, blocks: seq<Block>, b: Block)
    requires b.ToolUse?
    ensures CallParts(c, blocks + [b]) == CallParts(c, blocks) + [OaiCallOf(c, b)]
  {
    assert (blocks + [b])[..|blocks|] == blocks;
  }

  function UseBlocksFrom(c: Codec, blocks: seq<Block>, calls: seq<RawCall>): seq<Block> { blocks + UseBlocks(c, calls) }

  lemma UseBlocksSnoc(c: Codec, blocks: seq<Block>, calls: seq<RawCall>)
    requires calls != []
    ensures UseBlocksFrom(c, blocks, calls)
         == UseBlocksFrom(c, blocks, calls[..|calls| - 1]) + [UseBlock(c, calls[|calls| - 1])]
  {
  }

  lemma {:induction false} TextOfResponse(c: Codec, blocks: seq<Block>, calls: seq<RawCall>)
    ensures Texts(UseBlocksFrom(c, blocks, calls)) == Texts(blocks)
  {
    if calls == [] {
      assert UseBlocksFrom(c, blocks, calls) == blocks;
    } else {
      TextOfResponse(c, blocks, calls[..|calls| - 1]);
      UseBlocksSnoc(c, blocks, calls);
      TextsPlus(UseBlocksFrom(c, blocks, calls[..|calls| - 1]), UseBlock(c, calls[|calls| - 1]));
    }
  }

  function CallsOf(c: Codec, calls: seq<RawCall>): seq<OaiCall> {
    seq(|calls|, i requires 0 <= i < |calls| => OaiCallOf(c, UseBlock(c, calls[i])))
  }

  lemma {:induction false} CallsOfResponse(c: Codec, blocks: seq<Block>, calls: seq<RawCall>)
    requires CallParts(c, blocks) == []
    ensures CallParts(c, UseBlocksFrom(c, blocks, calls)) == CallsOf(c, calls)
  {
    if calls == [] {
      assert UseBlocksFrom(c, blocks, calls) == blocks;
    } else {
      CallsOfResponse(c, blocks, calls[..|calls| - 1]);
      UseBlocksSnoc(c, blocks, calls);
      CallPartsPlus(c, UseBlocksFrom(c, blocks, calls[..|calls| - 1]), UseBlock(c, calls[|calls| - 1]));
      assert CallsOf(c, calls)
          == CallsOf(c, calls[..|calls| - 1]) + [OaiCallOf(c, UseBlock(c, calls[|calls| - 1]))];
    }
  }

  lemma PartsOfText(c: Codec, m: RawMessage)
    ensures Texts(TextBlocks(m)) == (if TextBlocks(m) == [] then [] else [m.content.value])
    ensures CallParts(c, TextBlocks(m)) == []
  {
    if TextBlocks(m) != [] { assert TextBlocks(m)[..0] == []; }
  }

  /**
   * Round trip: a completion translated in and sent back out is one assistant
   * message with the same text (an empty text becomes none) and the same calls
   * by id and name; and its arguments mean the same JSON for every call if and
   * only if they were valid JSON for every call.
   */
  lemma ResponseRoundTrip(c: Codec, system: string, m: RawMessage)
    requires c.Lawful()
    ensures var content := TextBlocks(m) + UseBlocks(c, RawCalls(m));
            var out := AllToOai(c, system, [Message(Assistant, Blocks(content))]);
            && |out| == 2 && out[1].AssistantMsg?
            && out[1].text == (if m.content == Some("") then None else m.content)
            && |out[1].toolCalls| == |RawCalls(m)|
            && (forall i :: 0 <= i < |RawCalls(m)| ==>
                  out[1].toolCalls[i].id == OrEmpty(RawCalls(m)[i].id)
                  && out[1].toolCalls[i].name == OrEmpty(RawCalls(m)[i].name))
            && (forall i :: 0 <= i < |RawCalls(m)| ==>
                  (c.parse(out[1].toolCalls[i].arguments) == c.parse(ArgumentsOf(RawCalls(m)[i]))
                   <==> c.parse(ArgumentsOf(RawCalls(m)[i])).Some?))
  {
    ResponseOut(c, system, m);
    forall i | 0 <= i < |RawCalls(m)|
      ensures c.parse(CallsOf(c, RawCalls(m))[i].arguments) == c.parse(ArgumentsOf(RawCalls(m)[i]))
              <==> c.parse(ArgumentsOf(RawCalls(m)[i])).Some?
    {
      ArgumentsRoundTrip(c, RawCalls(m)[i]);
    }
  }

  lemma ArgumentsRoundTrip(c: Codec, call: RawCall)
    requires c.Lawful()
    ensures c.parse(OaiCallOf(c, UseBlock(c, call)).arguments) == c.parse(ArgumentsOf(call))
            <==> c.parse(ArgumentsOf(call)).Some?
  {
  }

  lemma ResponseOut(c: Codec, system: string, m: RawMessage)
    ensures AllToOai(c, system, [Message(Assistant, Blocks(TextBlocks(m) + UseBlocks(c, RawCalls(m))))])
         == [SystemMsg(system),
             AssistantMsg(if m.content == Some("") then None else m.content, CallsOf(c, RawCalls(m)))]
  {
    var ms := [Message(Assistant, Blocks(TextBlocks(m) + UseBlocks(c, RawCalls(m))))];
    PartsOfText(c, m);
    TextOfResponse(c, TextBlocks(m), RawCalls(m));
    CallsOfResponse(c, TextBlocks(m), RawCalls(m));
    if m.content.Some? { assert Join([m.content.value], "\n") == m.content.value; }
    assert ms[..0] == [];
    assert AllToOai(c, system, ms) == [SystemMsg(system)] + ToOai(c, ms[0]);
  }

  /** Finish reasons that translate to the end of the turn or a pause in it. */
  predicate EndsOrPauses(finishReason: Option<string>) {
    finishReason == None || finishReason == Some("stop") || finishReason == Some("end_turn")
    || finishReason == Some("pause_turn")
  }

  lemma StopReasonMeans(finishReason: Option<string>)
    ensures StopReason(finishReason) == "end_turn" || StopReason(finishReason) == "pause_turn"
            <==> EndsOrPauses(finishReason)
  {
    StopReasonsDiffer();
    assert "max_tokens"[0] != "end_turn"[0] && "max_tokens"[0] != "pause_turn"[0];
  }

  /**
   * A translated completion is disciplined, in the sense the agent loop needs,
   * exactly when the server does not report calls with a finish reason of
   * "stop" (or none at all, which reads as "stop") or with one of the agent
   * loop's own "end_turn" and "pause_turn", which pass through.
   */
  lemma TranslatedIsDisciplinedIff(c: Codec, m: RawMessage, finishReason: Option<string>, usage: Usage)
    ensures Disciplined(ChatResult(TextBlocks(m) + UseBlocks(c, RawCalls(m)), StopReason(finishReason), usage))
            <==> RawCalls(m) == [] || !EndsOrPauses(finishReason)
  {
    StopReasonMeans(finishReason);
    var content := TextBlocks(m) + UseBlocks(c, RawCalls(m));
    forall b | b in content ensures b.ToolUse? ==> UsableCall(b) {}
    if RawCalls(m) != [] {
      var b := UseBlock(c, RawCalls(m)[0]);
      assert UseBlocks(c, RawCalls(m))[0] == b;
      assert b in content;
    }
  }
}
