/**
 * What a session's history carries. Pairing speaks of ids only; this is about
 * what stands in the messages: prompts, what tools returned, and the answer.
 */
module StepContents {
  import opened Base
  import opened Metering
  import opened History
  import opened AgentLoop

  /** A user message with exactly this text. */
  predicate Says(m: Message, text: string) { m == Message(User, Blocks([Text(Some(text))])) }

  /** A user message with exactly one tool result. */
  predicate Returns(m: Message, id: string, content: string, isError: bool) {
    m == Message(User, Blocks([ToolResult(Some(id), StringContent(content), isError)]))
  }

  predicate Carries(m: Message, input: StepInput) {
    match input
    case Prompt(text) => Says(m, text)
    case ClientResult(id, content, isError) => Returns(m, id, content, isError)
  }

  /** A result block for a call block: what the tool made of that very call, or why it did not run. */
  predicate NodeAnswer(tools: map<string, Tool>, exec: Executor, q: nat, i: nat, b: Block, r: Block) {
    && UsableCall(b) && r.ToolResult? && r.toolUseId == b.id && r.content.StringContent?
    && var name := b.name.value;
       if name !in tools then r.isError && r.content.s == "unknown tool `" + name + "`"
       else
         && tools[name] == NodeTool
         && match exec(q, i, ToolCall(b.id.value, name, if b.input == None then Null else b.input.value))
            case Success(s) => !r.isError && r.content.s == s
            case Failure(e) => r.isError && r.content.s == "tool error: " + e
  }

  /** `answer`, at place `q` of the history, has the results of exactly the usable calls of `asked`, in order. */
  ghost predicate RanHere(tools: map<string, Tool>, exec: Executor, asked: Message, answer: Message, q: nat) {
    && asked.role == Assistant && answer.role == User
    && exists pos :: Kept(pos, BlocksOf(asked), UsableCall) && ResultsAt(tools, exec, asked, answer, q, pos)
  }

  predicate ResultsAt(tools: map<string, Tool>, exec: Executor, asked: Message, answer: Message, q: nat,
                      pos: seq<nat>) {
    && |BlocksOf(answer)| == |pos|
    && forall i :: 0 <= i < |pos| ==>
         pos[i] < |BlocksOf(asked)| && NodeAnswer(tools, exec, q, i, BlocksOf(asked)[pos[i]], BlocksOf(answer)[i])
  }

  /** All user messages from place `start` on are results of the calls right before them. */
  ghost predicate AllRanHere(tools: map<string, Tool>, exec: Executor, ms: seq<Message>, start: nat) {
    forall q :: start <= q < |ms| && ms[q].role == User ==> q > 0 && RanHere(tools, exec, ms[q - 1], ms[q], q)
  }

  /** `m` asks for one call, which is the one handed off. */
  ghost predicate Asks(m: Message, id: string, name: string, input: Json) {
    m.role == Assistant && exists k: nat :: SoleCallAt(BlocksOf(m), k, ToolCall(id, name, input))
  }

  predicate SoleCallAt(blocks: seq<Block>, k: nat, call: ToolCall) {
    && k < |blocks| && IsCallOf(call, blocks[k])
    && forall j :: 0 <= j < |blocks| && UsableCall(blocks[j]) ==> j == k
  }

  /** The outcome of a step is what its last message says. */
  ghost predicate Reports(m: Message, o: StepOutcome) {
    match o
    case Final(content, _) => m.role == Assistant && TextOf(BlocksOf(m), content)
    case NeedsClientTool(id, name, input, _) => Asks(m, id, name, input)
  }

  // ---- One turn ----

  lemma JudgedRunHere(tools: map<string, Tool>, resp: ChatResult)
    requires Judge(tools, resp).RunHere?
    ensures var calls := Judge(tools, resp).calls;
            calls == CollectToolUses(resp.content) && forall i :: 0 <= i < |calls| ==> !IsClientCall(tools, calls[i])
  {
    ClientCountBound(tools, CollectToolUses(resp.content));
  }

  lemma ResultsCarry(tools: map<string, Tool>, exec: Executor, reply: Message, q: nat, calls: seq<ToolCall>)
    requires reply.role == Assistant && calls == CollectToolUses(BlocksOf(reply))
    requires forall i :: 0 <= i < |calls| ==> !IsClientCall(tools, calls[i])
    ensures RanHere(tools, exec, reply, Results(tools, exec, q, calls), q)
  {
    var blocks := BlocksOf(reply);
    var pos := CollectedAre(blocks);
    forall i | 0 <= i < |pos|
      ensures NodeAnswer(tools, exec, q, i, blocks[pos[i]], RunNodeCall(tools, exec, q, i, calls[i]))
    {
      assert IsCallOf(calls[i], blocks[pos[i]]) && !IsClientCall(tools, calls[i]);
    }
    assert ResultsAt(tools, exec, reply, Results(tools, exec, q, calls), q, pos);
  }

  lemma StopReports(tools: map<string, Tool>, resp: ChatResult, usage: Usage)
    requires !Continues(Judge(tools, resp)) && Stopped(resp, Judge(tools, resp), usage).Success?
    ensures Reports(Reply(resp), Stopped(resp, Judge(tools, resp), usage).value)
  {
    if Judge(tools, resp).HandOff? {
      HandOffIsSole(tools, resp);
      var call := Judge(tools, resp).call;
      var k: nat :| SoleCallAt(resp.content, k, call);
      assert SoleCallAt(BlocksOf(Reply(resp)), k, ToolCall(call.id, call.name, call.input));
    } else {
      JoinedTexts(resp.content);
    }
  }

  lemma HandOffIsSole(tools: map<string, Tool>, resp: ChatResult)
    requires Judge(tools, resp).HandOff?
    ensures exists k: nat :: SoleCallAt(resp.content, k, Judge(tools, resp).call)
  {
    VerdictMeans(tools, resp);
    var pos := CollectedAre(resp.content);
    assert SoleCallAt(resp.content, pos[0], Judge(tools, resp).call);
  }

  // ---- One step ----

  lemma TurnCarries(tools: map<string, Tool>, exec: Executor, ms: seq<Message>, resp: ChatResult, v: Verdict)
    requires v.RunHere? ==>
               v.calls == CollectToolUses(resp.content)
               && forall i :: 0 <= i < |v.calls| ==> !IsClientCall(tools, v.calls[i])
    ensures AllRanHere(tools, exec, AfterTurn(tools, exec, ms, resp, v), |ms|)
  {
    if v.RunHere? {
      ResultsCarry(tools, exec, Reply(resp), |ms| + 1, v.calls);
      PairRanHere(tools, exec, ms, Reply(resp), Results(tools, exec, |ms| + 1, v.calls));
    } else {
      ReplyRanHere(tools, exec, ms, Reply(resp));
    }
  }

  lemma ReplyRanHere(tools: map<string, Tool>, exec: Executor, ms: seq<Message>, reply: Message)
    requires reply.role == Assistant
    ensures AllRanHere(tools, exec, ms + [reply], |ms|)
  {
    assert (ms + [reply])[|ms|] == reply;
  }

  lemma PairRanHere(tools: map<string, Tool>, exec: Executor, ms: seq<Message>, reply: Message, results: Message)
    requires RanHere(tools, exec, reply, results, |ms| + 1)
    ensures AllRanHere(tools, exec, ms + [reply] + [results], |ms|)
  {
    var out := ms + [reply] + [results];
    assert out[|ms|] == reply && out[|ms| + 1] == results;
  }

  lemma RanHereLater(tools: map<string, Tool>, exec: Executor, start: nat, ms1: seq<Message>, out: seq<Message>)
    requires ms1 <= out && AllRanHere(tools, exec, ms1, start) && AllRanHere(tools, exec, out, |ms1|)
    ensures AllRanHere(tools, exec, out, start)
  {
    forall q | start <= q < |out| && out[q].role == User ensures q > 0 && RanHere(tools, exec, out[q - 1], out[q], q) {
      if q < |ms1| { assert out[q] == ms1[q] && (q > 0 ==> out[q - 1] == ms1[q - 1]); }
    }
  }

  lemma {:induction false} TurnsRunHere(tools: map<string, Tool>, exec: Executor, ms: seq<Message>, usage: Usage,
                                        script: Script)
    ensures AllRanHere(tools, exec, Turns(tools, exec, ms, usage, script).0, |ms|)
    decreases |script|
  {
    if script != [] && script[0].Some? {
      var resp := script[0].value;
      var v, usage1 := Judge(tools, resp), Plus(usage, resp.usage);
      var ms1 := AfterTurn(tools, exec, ms, resp, v);
      OneTurn(tools, exec, ms, usage, script);
      if v.RunHere? { JudgedRunHere(tools, resp); }
      TurnCarries(tools, exec, ms, resp, v);
      if Continues(v) {
        TurnsRunHere(tools, exec, ms1, usage1, script[1..]);
        TurnsExtend(tools, exec, ms1, usage1, script[1..]);
        RanHereLater(tools, exec, |ms|, ms1, Turns(tools, exec, ms1, usage1, script[1..]).0);
      }
    }
  }

  /** The last message reports the outcome. */
  ghost predicate EndsWith(out: seq<Message>, start: nat, o: StepOutcome) {
    |out| > start && Reports(out[|out| - 1], o)
  }

  lemma {:induction false} TurnsReport(tools: map<string, Tool>, exec: Executor, ms: seq<Message>, usage: Usage,
                                       script: Script)
    requires Turns(tools, exec, ms, usage, script).1.Success?
    ensures EndsWith(Turns(tools, exec, ms, usage, script).0, |ms|, Turns(tools, exec, ms, usage, script).1.value)
    decreases |script|
  {
    var resp := script[0].value;
    var v, usage1 := Judge(tools, resp), Plus(usage, resp.usage);
    OneTurn(tools, exec, ms, usage, script);
    if Continues(v) {
      TurnsReport(tools, exec, AfterTurn(tools, exec, ms, resp, v), usage1, script[1..]);
    } else {
      StopReports(tools, resp, usage1);
    }
  }

  /** The first message after `ms` carries the input. */
  predicate Starts(ms: seq<Message>, input: StepInput, out: seq<Message>) {
    ms <= out && |out| > |ms| && Carries(out[|ms|], input)
  }

  lemma InputStarts(ms: seq<Message>, input: StepInput, out: seq<Message>)
    requires ms + [InputMessage(input)] <= out
    ensures Starts(ms, input, out)
  {
    var ms1 := ms + [InputMessage(input)];
    assert out[|ms|] == ms1[|ms|];
    assert ms == ms1[..|ms|] == out[..|ms|];
  }

  /**
   * What one step adds to the history: first a message that carries exactly the
   * caller's input; then, among the provider's answers, user messages that hold
   * what each node tool returned for the call just before; and at the end, if
   * the step succeeds, the answer its outcome reports.
   */
  lemma StepCarries(tools: map<string, Tool>, exec: Executor, ms: seq<Message>, input: StepInput, script: Script)
    ensures var (out, r) := Turns(tools, exec, ms + [InputMessage(input)], NO_USAGE, script);
            && Starts(ms, input, out)
            && AllRanHere(tools, exec, out, |ms| + 1)
            && (r.Success? ==> EndsWith(out, |ms| + 1, r.value))
  {
    var ms1 := ms + [InputMessage(input)];
    TurnsExtend(tools, exec, ms1, NO_USAGE, script);
    InputStarts(ms, input, Turns(tools, exec, ms1, NO_USAGE, script).0);
    TurnsRunHere(tools, exec, ms1, NO_USAGE, script);
    if Turns(tools, exec, ms1, NO_USAGE, script).1.Success? { TurnsReport(tools, exec, ms1, NO_USAGE, script); }
  }
}

/** The same for a whole run of the client's loop. */
module LoopContents {
  import opened Base
  import opened History
  import opened AgentLoop
  import opened NodeSpec
  import opened ChannelSpec
  import opened ClientLoop
  import opened StepContents

  /** `answer` holds what the client's handler returned for the call `asked` hands off, or that there is none. */
  ghost predicate Handed(s: Setting, t: Turn, asked: Message, answer: Message) {
    exists id, name, input :: HandedCall(s, t, asked, answer, id, name, input)
  }

  ghost predicate HandedCall(s: Setting, t: Turn, asked: Message, answer: Message, id: string, name: string,
                             input: Json) {
    && Asks(asked, id, name, input)
    && if name !in s.handlers then Returns(answer, id, "unknown client tool: " + name, true)
       else t.handled.Some? && Returns(answer, id, t.handled.value.0, t.handled.value.1)
  }

  /** Where the loop's own messages stand, one for each round: the input, then the answer to each handed-off call. */
  ghost predicate Placed(s: Setting, ms: seq<Message>, input: StepInput, turns: seq<Turn>, out: seq<Message>,
                         at: seq<nat>) {
    && |at| <= |turns| && (at != [] ==> at[0] == |ms|)
    && (forall i :: 0 <= i < |at| ==> at[i] < |out|)
    && (at != [] ==> Carries(out[at[0]], input))
    && (forall i :: 0 < i < |at| ==> at[i - 1] < at[i] && AnsweredAt(s, turns, out, at, i))
  }

  /** The i-th place has the handler's answer of the turn before. */
  ghost predicate AnsweredAt(s: Setting, turns: seq<Turn>, out: seq<Message>, at: seq<nat>, i: nat)
    requires 0 < i < |at| <= |turns| && 0 <= at[i] < |out|
  {
    at[i] > 0 && Handed(s, turns[i - 1], out[at[i] - 1], out[at[i]])
  }

  /** Every other user message is a node-run result. */
  ghost predicate RestRanHere(s: Setting, start: nat, out: seq<Message>, at: seq<nat>) {
    forall q :: start <= q < |out| && out[q].role == User && q !in at ==>
      q > 0 && RanHere(s.tools, s.exec, out[q - 1], out[q], q)
  }

  /** What one request does to the history: nothing, if the gate refuses it. */
  ghost predicate Sent(s: Setting, ms: seq<Message>, input: StepInput, out: seq<Message>) {
    out == ms || (Starts(ms, input, out) && AllRanHere(s.tools, s.exec, out, |ms| + 1))
  }

  lemma SendCarries(s: Setting, w: Side, input: StepInput, prevAck: Option<ClientAck>, t: Turn)
    ensures var (w1, sent) := Send(s, w, input, prevAck, t);
            && Sent(s, w.messages, input, w1.messages)
            && (sent.Success? ==> EndsWith(w1.messages, |w.messages| + 1, sent.value))
  {
    StepCarries(s.tools, s.exec, w.messages, input, t.script);
  }

  /** Any message that carries this input answers the call that ends `out`. */
  ghost predicate Answering(s: Setting, t: Turn, out: seq<Message>, step: StepInput) {
    out != [] && forall m :: Carries(m, step) ==> Handed(s, t, out[|out| - 1], m)
  }

  ghost predicate EndsWithText(out: seq<Message>, text: string) {
    out != [] && TextOf(BlocksOf(out[|out| - 1]), text)
  }

  lemma RoundCarries(s: Setting, w: Side, input: StepInput, prevAck: Option<ClientAck>, t: Turn)
    ensures match RoundOf(s, w, input, prevAck, t)
            case Stop(run) =>
              && run.world == Send(s, w, input, prevAck, t).0
              && (run.log != [] ==> Send(s, w, input, prevAck, t).1.Success?) && |run.log| <= 1
              && (run.answer.Success? ==> EndsWithText(run.world.messages, run.answer.value))
            case Next(w1, _, step, _) =>
              && w1 == Send(s, w, input, prevAck, t).0 && |w1.messages| > |w.messages| + 1
              && Answering(s, t, w1.messages, step)
  {
    SendCarries(s, w, input, prevAck, t);
    match RoundOf(s, w, input, prevAck, t)
    case Stop(_) =>
    case Next(w1, _, step, _) => HandOffAnswered(s, t, w1.messages, Send(s, w, input, prevAck, t).1.value, step);
  }

  lemma HandOffAnswered(s: Setting, t: Turn, out: seq<Message>, o: StepOutcome, step: StepInput)
    requires out != [] && Reports(out[|out| - 1], o)
    requires o.NeedsClientTool? && AnswerTo(s, t, o.toolUseId, o.name) == Some(step)
    ensures Answering(s, t, out, step)
  {
    forall m | Carries(m, step) ensures Handed(s, t, out[|out| - 1], m) {
      assert HandedCall(s, t, out[|out| - 1], m, o.toolUseId, o.name, o.input);
    }
  }

  /** What a run from here leaves: its places, and nothing else but node results. */
  ghost predicate Left(s: Setting, ms: seq<Message>, input: StepInput, turns: seq<Turn>, run: LoopRun, at: seq<nat>) {
    var out := run.world.messages;
    && ms <= out && |at| >= |run.log|
    && Placed(s, ms, input, turns, out, at) && RestRanHere(s, |ms|, out, at)
    && (run.answer.Success? ==> EndsWithText(out, run.answer.value))
  }

  /**
   * What a run of the loop leaves in the history. There is a place for each
   * request: at the first stands the prompt, verbatim; at each later one, right
   * after an answer that hands off one call, exactly what the client's handler
   * returned for that call, with its error flag. Every other user message holds
   * what node tools returned for the calls right before it. An answer of the
   * loop is the text of the last message.
   */
  lemma {:induction false} RunCarries(s: Setting, w: Side, input: StepInput, prevAck: Option<ClientAck>,
                                      turns: seq<Turn>)
    returns (at: seq<nat>)
    ensures Left(s, w.messages, input, turns, RunFrom(s, w, input, prevAck, turns), at)
    decreases |turns|
  {
    at := [];
    if turns != [] {
      SendCarries(s, w, input, prevAck, turns[0]);
      RoundCarries(s, w, input, prevAck, turns[0]);
      match RoundOf(s, w, input, prevAck, turns[0])
      case Stop(run) =>
        if run.world.messages != w.messages {
          at := [|w.messages|];
        }
        StopLeft(s, w.messages, input, turns, run, at);
      case Next(w1, billed, step, ack) =>
        var rest := RunCarries(s, w1, step, ack, turns[1..]);
        at := [|w.messages|] + rest;
        NextLeft(s, w.messages, input, turns, w1.messages, billed, step, RunFrom(s, w1, step, ack, turns[1..]), rest);
    }
  }

  lemma StopLeft(s: Setting, ms: seq<Message>, input: StepInput, turns: seq<Turn>, run: LoopRun, at: seq<nat>)
    requires turns != [] && Sent(s, ms, input, run.world.messages) && |run.log| <= |at|
    requires at == if run.world.messages == ms then [] else [|ms|]
    requires run.answer.Success? ==> EndsWithText(run.world.messages, run.answer.value)
    ensures Left(s, ms, input, turns, run, at)
  {
  }

  lemma NextLeft(s: Setting, ms: seq<Message>, input: StepInput, turns: seq<Turn>, ms1: seq<Message>, billed: Billed,
                 step: StepInput, run: LoopRun, rest: seq<nat>)
    requires turns != [] && |ms| < |ms1| && Sent(s, ms, input, ms1) && Answering(s, turns[0], ms1, step)
    requires Left(s, ms1, step, turns[1..], run, rest)
    ensures Left(s, ms, input, turns, Prefixed([billed], run), [|ms|] + rest)
  {
    var out := run.world.messages;
    assert ms == ms1[..|ms|] == out[..|ms|];
    PlacedLater(s, ms, input, turns, ms1, step, out, rest);
    RestLater(s, ms, ms1, out, rest);
  }

  lemma PlacedLater(s: Setting, ms: seq<Message>, input: StepInput, turns: seq<Turn>, ms1: seq<Message>,
                    step: StepInput,
                    out: seq<Message>, rest: seq<nat>)
    requires turns != [] && |ms| < |ms1| && ms1 <= out && Carries(ms1[|ms|], input)
    requires Placed(s, ms1, step, turns[1..], out, rest) && Answering(s, turns[0], ms1, step)
    ensures Placed(s, ms, input, turns, out, [|ms|] + rest)
  {
    var at := [|ms|] + rest;
    assert out[|ms|] == ms1[|ms|];
    forall i | 0 < i < |at| ensures at[i - 1] < at[i] && AnsweredAt(s, turns, out, at, i) {
      if i > 1 {
        assert AnsweredAt(s, turns[1..], out, rest, i - 1);
      } else {
        assert out[|ms1| - 1] == ms1[|ms1| - 1];
      }
    }
  }

  lemma RestLater(s: Setting, ms: seq<Message>, ms1: seq<Message>, out: seq<Message>, rest: seq<nat>)
    requires |ms| < |ms1| && ms1 <= out
    requires AllRanHere(s.tools, s.exec, ms1, |ms| + 1) && RestRanHere(s, |ms1|, out, rest)
    ensures RestRanHere(s, |ms|, out, [|ms|] + rest)
  {
    forall q | |ms| <= q < |out| && out[q].role == User && q !in [|ms|] + rest
      ensures q > 0 && RanHere(s.tools, s.exec, out[q - 1], out[q], q)
    {
      if q < |ms1| { assert out[q] == ms1[q]; }
    }
  }
}
