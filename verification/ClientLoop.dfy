/**
 * The client's loop, against the node's channel entry and agent session: send
 * a step, co-sign the receipt, send that ack with the next step, and answer a
 * tool call with its result.
 */
module ClientLoop {
  import opened Base
  import opened ChannelSpec
  import opened RegistrySpec
  import opened Metering
  import opened NodeSpec
  import opened NodeService
  import opened History
  import opened AgentLoop

  /** What stays the same during a loop. */
  datatype Setting = Setting(
    id: ChannelId,
    client: Address,
    deposit: nat,                  // what the chain reports for the channel
    pricing: seq<BackendPrice>,
    tools: map<string, Tool>,      // the node's registry
    exec: Executor,
    handlers: set<string>)         // the tools the client can run

  /** What the world contributes to one round trip. */
  datatype Turn = Turn(
    backend: Backend,
    script: Script,                    // the provider's answers
    signed: bool,                      // whether `signAck` succeeds
    handled: Option<(string, bool)>)   // what the client's tool handler returns; `None` if it throws

  /** The node's side of the loop: the channel's entry and the session's history. */
  datatype Side = Side(entry: ChannelState, messages: seq<Message>)

  datatype SendError = Refused(error: ApiError) | BackendFailed(failure: StepError)

  datatype LoopError = SendFailed(error: SendError) | HandlerThrew | NoMoreTurns

  function SignedAck(client: Address, u: Update): ClientAck { ClientAck(u, Some(Genuine(client, u))) }

  /** What the node can prove the client agreed to owe. */
  function AckedOwed(e: ChannelState): nat { if e.lastAcked.Some? then e.lastAcked.value.update.cumOwed else 0 }

  function Cached(e: ChannelState, deposit: nat): ChannelState {
    if e.deposit == None then e.(deposit := Some(deposit)) else e
  }

  /** The gate, when no other request is in flight. */
  function Admission(e: ChannelState, deposit: nat): (ChannelState, Option<ApiError>) {
    if e.deposit == None && deposit >= U128_LIMIT then (e, Some(BadDeposit))
    else (Cached(e, deposit), Gate(Cached(e, deposit).deposit.value, e.cumOwed))
  }

  function CostOf(s: Setting, t: Turn, o: StepOutcome): nat {
    RoundTripCost(TotalTokens(o.usage), PriceUnits(s.pricing, t.backend))
  }

  /** One request with no other in flight: gate, agent step, receipt. */
  function Send(s: Setting, w: Side, input: StepInput, prevAck: Option<ClientAck>, t: Turn)
    : (Side, Result<StepOutcome, SendError>)
  {
    var (e, error) := Admission(w.entry, s.deposit);
    match error
    case Some(err) => (w.(entry := e), Failure(Refused(err)))
    case None =>
      var (ms, r) := Turns(s.tools, s.exec, w.messages + [InputMessage(input)], NO_USAGE, t.script);
      match r
      case Failure(err) => (Side(e, ms), Failure(BackendFailed(err)))
      case Success(o) =>
        match BuildReceipt(e, s.id, CostOf(s, t, o), prevAck)
        case Failure(err) => (Side(e, ms), Failure(Refused(err)))
        case Success(e1) => (Side(e1, ms), Success(o))
  }

  /** One receipt: the entry it signs, its cost, and whether its ack was signed. */
  datatype Billed = Billed(entry: ChannelState, cost: nat, signed: bool)

  datatype LoopRun = LoopRun(world: Side, log: seq<Billed>, answer: Result<string, LoopError>)

  function NextAck(s: Setting, t: Turn, u: Update, prevAck: Option<ClientAck>): Option<ClientAck> {
    if t.signed then Some(SignedAck(s.client, u)) else prevAck
  }

  /** The client's answer to a tool call. */
  function AnswerTo(s: Setting, t: Turn, id: string, name: string): (r: Option<StepInput>)
    ensures r.Some? ==> r.value.ClientResult? && r.value.toolUseId == id
  {
    if name !in s.handlers then Some(ClientResult(id, "unknown client tool: " + name, true))
    else match t.handled
      case None => None
      case Some((content, isError)) => Some(ClientResult(id, content, isError))
  }

  /** What one round trip of the loop comes to. */
  datatype Round =
    | Stop(run: LoopRun)
    | Next(world: Side, billed: Billed, step: StepInput, ack: Option<ClientAck>)

  function RoundOf(s: Setting, w: Side, input: StepInput, prevAck: Option<ClientAck>, t: Turn): Round {
    var (w1, sent) := Send(s, w, input, prevAck, t);
    match sent
    case Failure(err) => Stop(LoopRun(w1, [], Failure(SendFailed(err))))
    case Success(o) =>
      var billed := Billed(w1.entry, CostOf(s, t, o), t.signed);
      match o
      case Final(content, _) => Stop(LoopRun(w1, [billed], Success(content)))
      case NeedsClientTool(id, name, _, _) =>
        match AnswerTo(s, t, id, name)
        case None => Stop(LoopRun(w1, [billed], Failure(HandlerThrew)))
        case Some(next) => Next(w1, billed, next, NextAck(s, t, UpdateOf(s.id, w1.entry), prevAck))
  }

  /** `runAgentLoop`, from any point of it. */
  function RunFrom(s: Setting, w: Side, input: StepInput, prevAck: Option<ClientAck>, turns: seq<Turn>): LoopRun
    decreases |turns|
  {
    if turns == [] then LoopRun(w, [], Failure(NoMoreTurns))
    else match RoundOf(s, w, input, prevAck, turns[0])
      case Stop(run) => run
      case Next(w1, billed, step, ack) => Prefixed([billed], RunFrom(s, w1, step, ack, turns[1..]))
  }

  function Prefixed(log: seq<Billed>, run: LoopRun): LoopRun { run.(log := log + run.log) }

  function Receipts(id: ChannelId, log: seq<Billed>): seq<Update> {
    seq(|log|, i requires 0 <= i < |log| => UpdateOf(id, log[i].entry))
  }

  // ---- The methods ----

  method Admit(node: NodeProcess, id: ChannelId, deposit: nat) returns (error: Option<ApiError>)
    requires TasksAt(node.State(), id) == []
    modifies node
    ensures (EntryAt(node.State(), id), error) == Admission(old(EntryAt(node.State(), id)), deposit)
    ensures if error == None then |TasksAt(node.State(), id)| == 1 && TasksAt(node.State(), id)[0].stage == Running
            else TasksAt(node.State(), id) == []
  {
    error := node.BeginCheck(id);
    if error.Some? { return; }
    if TasksAt(node.State(), id)[0].stage == Fetching {
      error := node.DepositReturned(id, 0, deposit);
      if error.Some? { return; }
      error := node.ResumeCheck(id, 0);
    }
  }

  method SendStep(node: NodeProcess, session: AgentSession, s: Setting, input: StepInput,
                  prevAck: Option<ClientAck>, t: Turn) returns (sent: Result<(Update, StepOutcome), SendError>)
    requires TasksAt(node.State(), s.id) == [] && node.pricing == s.pricing
    modifies node, session
    ensures TasksAt(node.State(), s.id) == []
    ensures var (w1, r) := Send(s, old(Side(EntryAt(node.State(), s.id), session.messages)), input, prevAck, t);
            && Side(EntryAt(node.State(), s.id), session.messages) == w1
            && sent == match r
                       case Failure(err) => Failure(err)
                       case Success(o) => Success((UpdateOf(s.id, w1.entry), o))
  {
    var error := Admit(node, s.id, s.deposit);
    if error.Some? { return Failure(Refused(error.value)); }
    var outcome := session.Step(s.tools, s.exec, input, t.script);
    match outcome {
      case Failure(err) =>
        node.Abandon(s.id, 0);
        return Failure(BackendFailed(err));
      case Success(o) =>
        var receipt := node.FinishExecute(s.id, 0, t.backend, o.usage, prevAck);
        match receipt {
          case Failure(err) => return Failure(Refused(err));
          case Success(u) => return Success((u, o));
        }
    }
  }

  /** `runAgentLoop` with a channel. */
  method RunAgentLoop(node: NodeProcess, session: AgentSession, s: Setting, prompt: string, turns: seq<Turn>)
    returns (answer: Result<string, LoopError>, receipts: seq<Update>)
    requires TasksAt(node.State(), s.id) == [] && node.pricing == s.pricing
    modifies node, session
    ensures var start := old(Side(EntryAt(node.State(), s.id), session.messages));
            var run := RunFrom(s, start, Prompt(prompt), None, turns);
            && answer == run.answer
            && receipts == Receipts(s.id, run.log)
            && Side(EntryAt(node.State(), s.id), session.messages) == run.world
  {
    ghost var run := RunFrom(s, Side(EntryAt(node.State(), s.id), session.messages), Prompt(prompt), None, turns);
    ghost var log: seq<Billed> := [];
    var step := Prompt(prompt);
    var prevAck: Option<ClientAck> := None;
    var attempt := 0;
    receipts := [];
    assert turns[0..] == turns && [] + run.log == run.log;
    while true
      invariant 0 <= attempt <= |turns|
      invariant TasksAt(node.State(), s.id) == []
      invariant receipts == Receipts(s.id, log)
      invariant run == Prefixed(log, RunFrom(s, Side(EntryAt(node.State(), s.id), session.messages), step, prevAck,
                                             turns[attempt..]))
      decreases |turns| - attempt
    {
      if attempt == |turns| { return Failure(NoMoreTurns), receipts; }
      var t := turns[attempt];
      ghost var before, sentStep, sentAck, rest :=
        Side(EntryAt(node.State(), s.id), session.messages), step, prevAck, turns[attempt..];
      ghost var round := RoundOf(s, before, step, prevAck, t);
      attempt := attempt + 1;
      var sent := SendStep(node, session, s, step, prevAck, t);
      if sent.Failure? { return Failure(SendFailed(sent.error)), receipts; }
      var (receipt, response) := sent.value;
      if t.signed { prevAck := Some(SignedAck(s.client, receipt)); }
      receipts := receipts + [receipt];
      ghost var billed := Billed(EntryAt(node.State(), s.id), CostOf(s, t, response), t.signed);
      ReceiptsSnoc(s.id, log, billed);
      match response {
        case Final(content, _) =>
          assert round
              == Stop(LoopRun(Side(EntryAt(node.State(), s.id), session.messages), [billed], Success(content)));
          return Success(content), receipts;
        case NeedsClientTool(id, name, _, _) =>
          if name !in s.handlers {
            step := ClientResult(id, "unknown client tool: " + name, true);
          } else if t.handled == None {
            assert round
                == Stop(LoopRun(Side(EntryAt(node.State(), s.id), session.messages), [billed], Failure(HandlerThrew)));
            return Failure(HandlerThrew), receipts;
          } else {
            step := ClientResult(id, t.handled.value.0, t.handled.value.1);
          }
      }
      ghost var after := Side(EntryAt(node.State(), s.id), session.messages);
      assert round == Next(after, billed, step, prevAck);
      RunOfRound(s, before, sentStep, sentAck, rest, log, after, billed, step, prevAck);
      assert rest[1..] == turns[attempt..];
      log := log + [billed];
    }
  }

  lemma RunOfRound(s: Setting, w: Side, input: StepInput, prevAck: Option<ClientAck>, turns: seq<Turn>,
                   log: seq<Billed>,
                   w1: Side, billed: Billed, step: StepInput, ack: Option<ClientAck>)
    requires turns != [] && RoundOf(s, w, input, prevAck, turns[0]) == Next(w1, billed, step, ack)
    ensures Prefixed(log, RunFrom(s, w, input, prevAck, turns))
         == Prefixed(log + [billed], RunFrom(s, w1, step, ack, turns[1..]))
  {
    var rest := RunFrom(s, w1, step, ack, turns[1..]);
    assert RunFrom(s, w, input, prevAck, turns) == Prefixed([billed], rest);
    assert log + ([billed] + rest.log) == log + [billed] + rest.log;
  }

  lemma ReceiptsSnoc(id: ChannelId, log: seq<Billed>, billed: Billed)
    ensures Receipts(id, log + [billed]) == Receipts(id, log) + [UpdateOf(id, billed.entry)]
  {
  }

  // ---- The debt of a loop ----

  /** What is unacknowledged after each receipt: everything since the last receipt whose ack was signed. */
  function Debts(open: nat, log: seq<Billed>): (debts: seq<nat>)
    ensures |debts| == |log|
    decreases |log|
  {
    if log == [] then []
    else
      var now := open + log[0].cost;
      [now] + Debts(if log[0].signed then 0 else now, log[1..])
  }

  /** The total the next request will prove, with the ack it carries or with what is recorded. */
  function Proven(e: ChannelState, prevAck: Option<ClientAck>): nat {
    if prevAck.Some? then prevAck.value.update.cumOwed else AckedOwed(e)
  }

  /** What a request finds: the node knows no other signer, and at most `open` is not proven. */
  predicate Owing(s: Setting, e: ChannelState, prevAck: Option<ClientAck>, open: nat) {
    && e.cumOwed < U128_LIMIT
    && (e.clientAddress == None || e.clientAddress == Some(Account(s.client)))
    && (prevAck.Some? ==> var u := prevAck.value.update; prevAck == Some(SignedAck(s.client, u)) && u.id == s.id)
    && 0 <= e.cumOwed - Proven(e, prevAck) <= open
    && (e.cumOwed < U128_LIMIT - 1 ==> e.cumOwed - Proven(e, prevAck) == open)
  }

  /**
   * On a channel nobody else uses no ack of the loop is ever refused, and
   * after every receipt the billed total exceeds the acknowledged one by
   * exactly the cost since the last receipt whose ack could be signed; only
   * at the ceiling of `u128` can it be less.
   */
  lemma {:induction false} DebtOfRun(s: Setting, w: Side, input: StepInput, prevAck: Option<ClientAck>,
                                     turns: seq<Turn>, open: nat)
    requires Owing(s, w.entry, prevAck, open)
    ensures var run := RunFrom(s, w, input, prevAck, turns);
            && RunEndsCleanly(run)
            && DebtsAre(run.log, Debts(open, run.log))
    decreases |turns|
  {
    if turns != [] {
      RoundOwing(s, w, input, prevAck, turns[0], open);
      match RoundOf(s, w, input, prevAck, turns[0])
      case Stop(run) =>
        if run.log != [] { DebtsPrefixed(open, run.log[0], []); }
      case Next(w1, billed, step, ack) =>
        DebtOfRun(s, w1, step, ack, turns[1..], if billed.signed then 0 else open + billed.cost);
        DebtsPrefixed(open, billed, RunFrom(s, w1, step, ack, turns[1..]).log);
    }
  }

  /** The loop never ends because the node refuses its ack. */
  predicate RunEndsCleanly(run: LoopRun) {
    run.answer.Failure? && run.answer.error.SendFailed? && run.answer.error.error.Refused? ==>
      GateError(run.answer.error.error.error)
  }

  predicate GateError(err: ApiError) { err == ZeroDeposit || err == Exhausted || err == BadDeposit }

  predicate DebtIs(e: ChannelState, debt: nat) {
    && 0 <= e.cumOwed - AckedOwed(e) <= debt
    && (e.cumOwed < U128_LIMIT - 1 ==> e.cumOwed - AckedOwed(e) == debt)
  }

  predicate DebtsAre(log: seq<Billed>, debts: seq<nat>) {
    |log| == |debts| && forall i :: 0 <= i < |log| ==> DebtIs(log[i].entry, debts[i])
  }

  /** One billed, and what the request after it will find. */
  lemma BilledOwing(s: Setting, e: ChannelState, prevAck: Option<ClientAck>, open: nat, cost: nat, signed: bool)
    requires Owing(s, e, prevAck, open)
    ensures BuildReceipt(e, s.id, cost, prevAck).Success?
    ensures var e1 := BuildReceipt(e, s.id, cost, prevAck).value;
            && DebtIs(e1, open + cost)
            && Owing(s, e1, if signed then Some(SignedAck(s.client, UpdateOf(s.id, e1))) else prevAck,
                     if signed then 0 else open + cost)
  {
  }

  lemma RoundOwing(s: Setting, w: Side, input: StepInput, prevAck: Option<ClientAck>, t: Turn, open: nat)
    requires Owing(s, w.entry, prevAck, open)
    ensures match RoundOf(s, w, input, prevAck, t)
            case Stop(run) =>
              RunEndsCleanly(run) && |run.log| <= 1
              && (run.log != [] ==> DebtIs(run.log[0].entry, open + run.log[0].cost))
            case Next(w1, billed, step, ack) =>
              DebtIs(billed.entry, open + billed.cost)
              && Owing(s, w1.entry, ack, if billed.signed then 0 else open + billed.cost)
  {
    SendOwing(s, w, input, prevAck, t, open);
  }

  lemma SendOwing(s: Setting, w: Side, input: StepInput, prevAck: Option<ClientAck>, t: Turn, open: nat)
    requires Owing(s, w.entry, prevAck, open)
    ensures var (w1, sent) := Send(s, w, input, prevAck, t);
            match sent
            case Failure(err) => err.BackendFailed? || GateError(err.error)
            case Success(o) =>
              var now := open + CostOf(s, t, o);
              DebtIs(w1.entry, now)
              && Owing(s, w1.entry, NextAck(s, t, UpdateOf(s.id, w1.entry), prevAck), if t.signed then 0 else now)
  {
    var e := Cached(w.entry, s.deposit);
    var r := Turns(s.tools, s.exec, w.messages + [InputMessage(input)], NO_USAGE, t.script).1;
    BilledOwing(s, e, prevAck, open, if r.Success? then CostOf(s, t, r.value) else 0, t.signed);
  }

  lemma DebtsPrefixed(open: nat, billed: Billed, log: seq<Billed>)
    requires DebtIs(billed.entry, open + billed.cost)
    requires DebtsAre(log, Debts(if billed.signed then 0 else open + billed.cost, log))
    ensures DebtsAre([billed] + log, Debts(open, [billed] + log))
  {
    assert ([billed] + log)[1..] == log;
  }

  predicate AllSigned(log: seq<Billed>) { forall i :: 0 <= i < |log| ==> log[i].signed }

  lemma {:induction false} DebtsWhenSigned(log: seq<Billed>)
    requires AllSigned(log)
    ensures |Debts(0, log)| == |log| && forall i :: 0 <= i < |log| ==> Debts(0, log)[i] == log[i].cost
  {
    if log != [] { DebtsWhenSigned(log[1..]); }
  }

  /**
   * One-round-trip debt: when every ack is signed, a loop that starts fully
   * acked never leaves more unacknowledged than its last round trip.
   */
  lemma OneRoundTripDebt(s: Setting, w: Side, prompt: string, turns: seq<Turn>)
    requires Owing(s, w.entry, None, 0)
    requires forall i :: 0 <= i < |turns| ==> turns[i].signed
    ensures var log := RunFrom(s, w, Prompt(prompt), None, turns).log;
            forall i :: 0 <= i < |log| ==> DebtIs(log[i].entry, log[i].cost)
  {
    DebtOfRun(s, w, Prompt(prompt), None, turns, 0);
    LogSigned(s, w, Prompt(prompt), None, turns);
    DebtsWhenSigned(RunFrom(s, w, Prompt(prompt), None, turns).log);
  }

  lemma {:induction false} LogSigned(s: Setting, w: Side, input: StepInput, prevAck: Option<ClientAck>,
                                     turns: seq<Turn>)
    requires forall i :: 0 <= i < |turns| ==> turns[i].signed
    ensures AllSigned(RunFrom(s, w, input, prevAck, turns).log)
    decreases |turns|
  {
    if turns != [] {
      RoundSigned(s, w, input, prevAck, turns[0]);
      match RoundOf(s, w, input, prevAck, turns[0])
      case Stop(_) =>
      case Next(w1, billed, step, ack) =>
        LogSigned(s, w1, step, ack, turns[1..]);
        SignedPrefixed(billed, RunFrom(s, w1, step, ack, turns[1..]).log);
    }
  }

  lemma SignedPrefixed(billed: Billed, log: seq<Billed>)
    requires billed.signed && AllSigned(log)
    ensures AllSigned([billed] + log)
  {
  }

  lemma RoundSigned(s: Setting, w: Side, input: StepInput, prevAck: Option<ClientAck>, t: Turn)
    requires t.signed
    ensures match RoundOf(s, w, input, prevAck, t)
            case Stop(run) => AllSigned(run.log)
            case Next(_, billed, _, _) => billed.signed
  {
  }

  // ---- What a loop is billed for ----

  /** The cost is for every token the turn's answers reported, unless a counter hit its cap. */
  predicate BilledFor(s: Setting, t: Turn, cost: nat) {
    var calls := UsagesTaken(s.tools, t.script);
    BelowCaps(calls) ==> cost == ExactTokens(calls) * PriceUnits(s.pricing, t.backend) % U128_LIMIT / 1000
  }

  /** The i-th receipt of a loop is for what the provider reported in the i-th turn. */
  lemma {:induction false} LoopCosts(s: Setting, w: Side, input: StepInput, prevAck: Option<ClientAck>,
                                     turns: seq<Turn>)
    ensures var log := RunFrom(s, w, input, prevAck, turns).log;
            |log| <= |turns| && forall i :: 0 <= i < |log| ==> BilledFor(s, turns[i], log[i].cost)
    decreases |turns|
  {
    if turns != [] {
      RoundCost(s, w, input, prevAck, turns[0]);
      match RoundOf(s, w, input, prevAck, turns[0])
      case Stop(_) =>
      case Next(w1, billed, step, ack) =>
        LoopCosts(s, w1, step, ack, turns[1..]);
        CostsPrefixed(s, turns, billed, RunFrom(s, w1, step, ack, turns[1..]).log);
    }
  }

  lemma CostsPrefixed(s: Setting, turns: seq<Turn>, billed: Billed, log: seq<Billed>)
    requires turns != [] && BilledFor(s, turns[0], billed.cost)
    requires |log| <= |turns| - 1 && forall i :: 0 <= i < |log| ==> BilledFor(s, turns[1..][i], log[i].cost)
    ensures forall i :: 0 <= i < |[billed] + log| ==> BilledFor(s, turns[i], ([billed] + log)[i].cost)
  {
    forall i | 0 <= i < |[billed] + log| ensures BilledFor(s, turns[i], ([billed] + log)[i].cost) {
      if i > 0 { assert BilledFor(s, turns[1..][i - 1], log[i - 1].cost); }
    }
  }

  lemma RoundCost(s: Setting, w: Side, input: StepInput, prevAck: Option<ClientAck>, t: Turn)
    ensures match RoundOf(s, w, input, prevAck, t)
            case Stop(run) => |run.log| <= 1 && (run.log != [] ==> BilledFor(s, t, run.log[0].cost))
            case Next(_, billed, _, _) => BilledFor(s, t, billed.cost)
  {
    var ms := w.messages + [InputMessage(input)];
    if Send(s, w, input, prevAck, t).1.Success? && BelowCaps(UsagesTaken(s.tools, t.script)) {
      StepTokens(s.tools, s.exec, ms, t.script);
    }
  }

  // ---- The history of a loop ----

  /**
   * The loop answers exactly the call it was handed, so with a disciplined
   * provider a run that ends with an answer leaves the session paired, with
   * nothing pending, and ready for the next prompt.
   */
  lemma {:induction false} RunKeepsPairing(s: Setting, w: Side, pending: Option<string>, input: StepInput,
                                           prevAck: Option<ClientAck>, turns: seq<Turn>)
    requires Paired(w.messages, pending) && FitsPending(input, pending)
    requires forall i :: 0 <= i < |turns| ==> DisciplinedTurns(s.tools, turns[i].script)
    ensures var run := RunFrom(s, w, input, prevAck, turns);
            run.answer.Success? ==> Paired(run.world.messages, None)
    decreases |turns|
  {
    if RunFrom(s, w, input, prevAck, turns).answer.Success? {
      RoundKeepsPairing(s, w, pending, input, prevAck, turns[0]);
      match RoundOf(s, w, input, prevAck, turns[0])
      case Stop(_) =>
      case Next(w1, _, step, ack) => RunKeepsPairing(s, w1, Some(step.toolUseId), step, ack, turns[1..]);
    }
  }

  lemma RoundKeepsPairing(s: Setting, w: Side, pending: Option<string>, input: StepInput,
                          prevAck: Option<ClientAck>, t: Turn)
    requires Paired(w.messages, pending) && FitsPending(input, pending) && DisciplinedTurns(s.tools, t.script)
    ensures match RoundOf(s, w, input, prevAck, t)
            case Stop(run) => run.answer.Success? ==> Paired(run.world.messages, None)
            case Next(w1, _, step, _) => step.ClientResult? && Paired(w1.messages, Some(step.toolUseId))
  {
    SendKeepsPairing(s, w, pending, input, prevAck, t);
  }

  lemma SendKeepsPairing(s: Setting, w: Side, pending: Option<string>, input: StepInput,
                         prevAck: Option<ClientAck>, t: Turn)
    requires Paired(w.messages, pending) && FitsPending(input, pending) && DisciplinedTurns(s.tools, t.script)
    ensures var (w1, sent) := Send(s, w, input, prevAck, t);
            sent.Success? ==> Paired(w1.messages, PendingOf(sent.value))
  {
    if Turns(s.tools, s.exec, w.messages + [InputMessage(input)], NO_USAGE, t.script).1.Success? {
      StepKeepsPairingIff(s.tools, s.exec, w.messages, pending, input, t.script);
    }
  }
}
