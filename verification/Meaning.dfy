/**
 * What the translation to the other provider preserves, said of the messages
 * themselves: texts, tool results, calls and their arguments, in order.
 */
module Meaning {
  import opened Base
  import opened History
  import opened AgentLoop
  import opened Metering
  import opened Translate

  predicate IsResult(b: Block) { b.ToolResult? }

  predicate IsUse(b: Block) { b.ToolUse? }

  predicate IsOr(text: string, o: Option<string>) { if o.Some? then text == o.value else text == "" }

  /** A string stands as it is, any other value as text that parses back to it, and nothing as "". */
  predicate ResultText(c: Codec, r: ResultContent, text: string) {
    match r
    case StringContent(s) => text == s
    case ValueContent(j) => c.parse(text) == Some(j)
    case NoContent => text == ""
  }

  predicate ResultFor(c: Codec, m: OaiMessage, b: Block) {
    m.ToolMsg? && b.ToolResult? && IsOr(m.toolCallId, b.toolUseId) && ResultText(c, b.content, m.content)
  }

  predicate CallFor(c: Codec, call: OaiCall, b: Block) {
    && b.ToolUse? && IsOr(call.id, b.id) && IsOr(call.name, b.name)
    && c.parse(call.arguments) == Some(if b.input.Some? then b.input.value else Null)
  }

  predicate NoText(blocks: seq<Block>) { forall i :: 0 <= i < |blocks| ==> !HasText(blocks[i]) }

  /** One tool message for each result block, in order, and after them one message with all the text, if any. */
  ghost predicate UserSegment(c: Codec, blocks: seq<Block>, seg: seq<OaiMessage>) {
    exists pos :: Kept(pos, blocks, IsResult) && UserSegmentAt(c, blocks, seg, pos)
  }

  ghost predicate UserSegmentAt(c: Codec, blocks: seq<Block>, seg: seq<OaiMessage>, pos: seq<nat>) {
    && |seg| == |pos| + (if NoText(blocks) then 0 else 1)
    && ResultsAt(c, blocks, seg[..|pos|], pos)
    && (!NoText(blocks) ==> seg[|pos|].UserMsg? && TextOf(blocks, seg[|pos|].content))
  }

  /** One message with all the text, if any, and one call for each tool_use block, in order. */
  ghost predicate AssistantSegment(c: Codec, blocks: seq<Block>, seg: seq<OaiMessage>) {
    && |seg| == 1 && seg[0].AssistantMsg?
    && (if NoText(blocks) then seg[0].text == None else seg[0].text.Some? && TextOf(blocks, seg[0].text.value))
    && exists pos :: Kept(pos, blocks, IsUse) && CallsAt(c, blocks, seg[0].toolCalls, pos)
  }

  predicate CallsAt(c: Codec, blocks: seq<Block>, calls: seq<OaiCall>, pos: seq<nat>) {
    && |calls| == |pos|
    && forall i :: 0 <= i < |pos| ==> pos[i] < |blocks| && CallFor(c, calls[i], blocks[pos[i]])
  }

  /** What a message of the history becomes. */
  ghost predicate Segment(c: Codec, m: Message, seg: seq<OaiMessage>) {
    match m.role
    case User => UserSegment(c, BlocksOf(m), seg)
    case Assistant => AssistantSegment(c, BlocksOf(m), seg)
    case OtherRole => seg == []
  }

  // ---- The pieces ----

  predicate ResultsAt(c: Codec, blocks: seq<Block>, msgs: seq<OaiMessage>, pos: seq<nat>) {
    && |msgs| == |pos|
    && forall i :: 0 <= i < |pos| ==> pos[i] < |blocks| && ResultFor(c, msgs[i], blocks[pos[i]])
  }

  lemma OneResult(c: Codec, b: Block)
    requires c.Lawful() && b.ToolResult?
    ensures ResultFor(c, ToolMsg(OrEmpty(b.toolUseId), ResultString(c, b.content)), b)
  {
  }

  lemma OneUse(c: Codec, b: Block)
    requires c.Lawful() && b.ToolUse?
    ensures CallFor(c, OaiCallOf(c, b), b)
  {
  }

  lemma NextResult(c: Codec, blocks: seq<Block>, msgs: seq<OaiMessage>, pos: seq<nat>, msg: OaiMessage)
    requires blocks != [] && ResultsAt(c, blocks[..|blocks| - 1], msgs, pos)
    ensures ResultsAt(c, blocks, msgs, pos)
    ensures ResultFor(c, msg, blocks[|blocks| - 1]) ==> ResultsAt(c, blocks, msgs + [msg], pos + [|blocks| - 1])
  {
    forall i | 0 <= i < |pos| ensures blocks[..|blocks| - 1][pos[i]] == blocks[pos[i]] {}
  }

  lemma NextCall(c: Codec, blocks: seq<Block>, calls: seq<OaiCall>, pos: seq<nat>, call: OaiCall)
    requires blocks != [] && CallsAt(c, blocks[..|blocks| - 1], calls, pos)
    ensures CallsAt(c, blocks, calls, pos)
    ensures CallFor(c, call, blocks[|blocks| - 1]) ==> CallsAt(c, blocks, calls + [call], pos + [|blocks| - 1])
  {
    forall i | 0 <= i < |pos| ensures blocks[..|blocks| - 1][pos[i]] == blocks[pos[i]] {}
  }

  lemma {:induction false} ToolMsgsAre(c: Codec, blocks: seq<Block>) returns (pos: seq<nat>)
    requires c.Lawful()
    ensures Kept(pos, blocks, IsResult) && ResultsAt(c, blocks, ToolMsgs(c, blocks), pos)
  {
    pos := [];
    if blocks != [] {
      var n, b := |blocks| - 1, blocks[|blocks| - 1];
      var init := ToolMsgsAre(c, blocks[..n]);
      pos := KeptNext(init, blocks, IsResult);
      if b.ToolResult? { OneResult(c, b); }
      NextResult(c, blocks, ToolMsgs(c, blocks[..n]), init,
                 if b.ToolResult? then ToolMsg(OrEmpty(b.toolUseId), ResultString(c, b.content)) else SystemMsg(""));
    }
  }

  lemma {:induction false} CallPartsAre(c: Codec, blocks: seq<Block>) returns (pos: seq<nat>)
    requires c.Lawful()
    ensures Kept(pos, blocks, IsUse) && CallsAt(c, blocks, CallParts(c, blocks), pos)
  {
    pos := [];
    if blocks != [] {
      var n, b := |blocks| - 1, blocks[|blocks| - 1];
      var init := CallPartsAre(c, blocks[..n]);
      pos := KeptNext(init, blocks, IsUse);
      if b.ToolUse? { OneUse(c, b); }
      NextCall(c, blocks, CallParts(c, blocks[..n]), init, if b.ToolUse? then OaiCallOf(c, b) else OaiCall("", "", ""));
    }
  }

  lemma TextOrNot(blocks: seq<Block>)
    ensures NoText(blocks) <==> Texts(blocks) == []
    ensures TextOf(blocks, Join(Texts(blocks), "\n"))
  {
    var pos := TextsAre(blocks);
    if pos != [] { assert HasText(blocks[pos[0]]); }
    JoinedTexts(blocks);
  }

  lemma MessageTranslates(c: Codec, m: Message)
    requires c.Lawful()
    ensures Segment(c, m, ToOai(c, m))
  {
    var blocks := BlocksOf(m);
    TextOrNot(blocks);
    match m.role
    case User =>
      var pos := ToolMsgsAre(c, blocks);
      assert ToOai(c, m)[..|pos|] == ToolMsgs(c, blocks);
      assert UserSegmentAt(c, blocks, ToOai(c, m), pos);
    case Assistant =>
      var pos := CallPartsAre(c, blocks);
    case OtherRole =>
  }

  // ---- Whole histories ----

  /** The translation is the system prompt and then, from one cut to the next, what each message becomes. */
  ghost predicate Translated(c: Codec, system: string, ms: seq<Message>, out: seq<OaiMessage>, cuts: seq<nat>) {
    && |cuts| == |ms| + 1 && cuts[0] == 1 && cuts[|ms|] == |out|
    && out != [] && out[0] == SystemMsg(system)
    && forall i :: 0 <= i < |ms| ==> TranslatedAt(c, ms, out, cuts, i)
  }

  ghost predicate TranslatedAt(c: Codec, ms: seq<Message>, out: seq<OaiMessage>, cuts: seq<nat>, i: nat)
    requires i < |ms| < |cuts|
  {
    cuts[i] <= cuts[i + 1] <= |out| && Segment(c, ms[i], out[cuts[i]..cuts[i + 1]])
  }

  /**
   * Meaning survives. For every history, whoever keeps it paired or not: after
   * the system prompt each message is translated in its place; every tool
   * result keeps its id and its text, every call its id, its name and, as JSON,
   * its input, and every message its text, all in their order.
   */
  lemma {:induction false} HistoryTranslates(c: Codec, system: string, ms: seq<Message>) returns (cuts: seq<nat>)
    requires c.Lawful()
    ensures Translated(c, system, ms, AllToOai(c, system, ms), cuts)
  {
    if ms == [] {
      cuts := [1];
    } else {
      var n := |ms| - 1;
      var prior := HistoryTranslates(c, system, ms[..n]);
      var out := AllToOai(c, system, ms[..n]);
      cuts := prior + [|out| + |ToOai(c, ms[n])|];
      MessageTranslates(c, ms[n]);
      OneMore(c, system, ms, out, ToOai(c, ms[n]), prior);
    }
  }

  lemma OneMore(c: Codec, system: string, ms: seq<Message>, out: seq<OaiMessage>, seg: seq<OaiMessage>, prior: seq<nat>)
    requires ms != [] && Translated(c, system, ms[..|ms| - 1], out, prior) && Segment(c, ms[|ms| - 1], seg)
    ensures Translated(c, system, ms, out + seg, prior + [|out| + |seg|])
  {
    var n, all, cuts := |ms| - 1, out + seg, prior + [|out| + |seg|];
    forall i | 0 <= i < |ms| ensures TranslatedAt(c, ms, all, cuts, i) {
      if i < n {
        assert TranslatedAt(c, ms[..n], out, prior, i);
        assert all[cuts[i]..cuts[i + 1]] == out[prior[i]..prior[i + 1]];
      } else {
        assert all[cuts[n]..cuts[n + 1]] == seg;
      }
    }
  }

  // ---- A completion's blocks ----

  /** A call's arguments, parsed: `Null` if they are not JSON, and those of "{}" if there are none. */
  predicate InputFor(c: Codec, call: RawCall, input: Json) {
    var parsed := c.parse(if call.arguments.Some? then call.arguments.value else "{}");
    if parsed.Some? then input == parsed.value else input == Null
  }

  predicate UseFor(c: Codec, call: RawCall, b: Block) {
    && UsableCall(b) && IsOr(b.id.value, call.id) && IsOr(b.name.value, call.name)
    && b.input.Some? && InputFor(c, call, b.input.value)
  }

  lemma CallBlock(c: Codec, call: RawCall)
    ensures UseFor(c, call, UseBlock(c, call))
  {
  }

  /** Translated in, a completion is its text, unless that is empty, and one usable call for each of its calls. */
  lemma CompletionBlocks(c: Codec, m: RawMessage)
    ensures var blocks := TextBlocks(m) + UseBlocks(c, RawCalls(m));
            var text := if m.content == None || m.content == Some("") then 0 else 1;
            && |blocks| == text + |RawCalls(m)|
            && (text == 1 ==> blocks[0] == Text(m.content))
            && forall i :: 0 <= i < |RawCalls(m)| ==> UseFor(c, RawCalls(m)[i], blocks[text + i])
  {
    var first, uses := TextBlocks(m), UseBlocks(c, RawCalls(m));
    forall i | 0 <= i < |RawCalls(m)| ensures UseFor(c, RawCalls(m)[i], (first + uses)[|first| + i]) {
      CallBlock(c, RawCalls(m)[i]);
      assert (first + uses)[|first| + i] == uses[i];
    }
  }

  /**
   * What the agent loop makes of a translated completion: it acts on its calls
   * exactly when the server finished with "tool_calls" (or the loop's own
   * "tool_use"), takes it for an answer exactly when with "stop", nothing or
   * "end_turn", and refuses any other reason but the loop's own "pause_turn".
   */
  lemma VerdictOnCompletion(tools: map<string, Tool>, content: seq<Block>, finishReason: Option<string>, usage: Usage)
    ensures var v := Judge(tools, ChatResult(content, StopReason(finishReason), usage));
            && (finishReason == Some("tool_calls") || finishReason == Some("tool_use") ==>
                  v == JudgeCalls(tools, CollectToolUses(content)))
            && (v.EndTurn?
                <==> finishReason == None || finishReason == Some("stop") || finishReason == Some("end_turn"))
            && (v.Pause? <==> finishReason == Some("pause_turn"))
            && (v == Refuse(UnexpectedStopReason)
                <==> finishReason.Some?
                     && finishReason.value !in {"stop", "end_turn", "tool_calls", "tool_use", "pause_turn"})
  {
    ReasonsDiffer();
    StopReasonsDiffer();
  }

  lemma ReasonsDiffer()
    ensures "max_tokens" != "end_turn" && "max_tokens" != "tool_use" && "max_tokens" != "pause_turn"
    ensures "length" != "stop" && "length" != "tool_calls" && "length" != "end_turn" && "length" != "pause_turn"
    ensures "length" != "tool_use"
    ensures "stop" != "tool_calls" && "stop" != "tool_use" && "stop" != "pause_turn" && "stop" != "end_turn"
    ensures "tool_calls" != "tool_use" && "tool_calls" != "pause_turn" && "tool_calls" != "end_turn"
  {
    assert "length"[0] != "stop"[0] && "length"[0] != "tool_calls"[0] && "length"[0] != "pause_turn"[0];
    assert "max_tokens"[0] != "end_turn"[0] && "max_tokens"[0] != "pause_turn"[0];
    assert "tool_calls"[5] != "tool_use"[5];
  }
}
