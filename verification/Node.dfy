/**
 * The node's side of a channel: the deposit gate, the receipts it signs and
 * the client acknowledgements it records.
 *
 * `execute` is asynchronous: a request reads the channel entry, may wait for
 * an `eth_call`, then waits for the backend, and only then is charged. Other
 * requests run in between, so a suspended request is a `Task` remembering what
 * it has read so far. Tasks of a channel are kept in the order they were begun.
 */
module NodeSpec {
  import opened Base
  import opened ChannelSpec
  import opened Metering

  /** `None` is a signature that is not 65 bytes or recovers nothing. */
  datatype ClientAck = ClientAck(update: Update, clientSig: Option<Signature>)

  datatype ChannelState = ChannelState(
    nonce: nat,
    cumOwed: nat,
    lastAcked: Option<ClientAck>,
    clientAddress: Option<Recovered>,
    deposit: Option<nat>)

  const FRESH := ChannelState(0, 0, None, None, None)

  datatype Stage =
    | Fetching                 // no cached deposit: the eth_call is under way
    | Fetched(deposit: nat)    // it has answered, the entry is not yet locked again
    | Running                  // past the gate, waiting for the backend

  datatype Task = Task(readOwed: nat, stage: Stage)

  datatype NodeState = NodeState(entries: map<ChannelId, ChannelState>, tasks: map<ChannelId, seq<Task>>)

  datatype ApiError =
    | ZeroDeposit | Exhausted                                   // 402
    | AckForOtherChannel | BadAckUpdate | BadAckSig | AckSignerDiffers  // 400
    | BadDeposit                                                // 500

  function EntryAt(n: NodeState, id: ChannelId): ChannelState {
    if id in n.entries then n.entries[id] else FRESH
  }

  function TasksAt(n: NodeState, id: ChannelId): seq<Task> {
    if id in n.tasks then n.tasks[id] else []
  }

  function PutEntry(n: NodeState, id: ChannelId, e: ChannelState): NodeState { n.(entries := n.entries[id := e]) }

  function PutTasks(n: NodeState, id: ChannelId, ts: seq<Task>): NodeState { n.(tasks := n.tasks[id := ts]) }

  function Without(ts: seq<Task>, i: nat): seq<Task>
    requires i < |ts|
  {
    ts[..i] + ts[i + 1..]
  }

  // ---- The gate: `check_channel_solvent` ----

  function Gate(deposit: nat, cumOwed: nat): Option<ApiError> {
    if deposit == 0 then Some(ZeroDeposit) else if cumOwed >= deposit then Some(Exhausted) else None
  }

  /** Up to the first await: the entry is read once, and a cached deposit decides at once. */
  function Begin(n: NodeState, id: ChannelId): NodeState {
    var e := EntryAt(n, id);
    match e.deposit
    case None => PutTasks(n, id, TasksAt(n, id) + [Task(e.cumOwed, Fetching)])
    case Some(d) =>
      if Gate(d, e.cumOwed) == None then PutTasks(n, id, TasksAt(n, id) + [Task(e.cumOwed, Running)]) else n
  }

  /** The `eth_call` answers with the on-chain deposit; one past `u128` fails the request. */
  function Answer(n: NodeState, id: ChannelId, i: nat, deposit: nat): NodeState {
    var ts := TasksAt(n, id);
    if i < |ts| && ts[i].stage == Fetching then
      if deposit >= U128_LIMIT then PutTasks(n, id, Without(ts, i))
      else PutTasks(n, id, ts[i := ts[i].(stage := Fetched(deposit))])
    else n
  }

  /** The request resumes: it caches what it fetched and compares it with what it read before. */
  function Resume(n: NodeState, id: ChannelId, i: nat): NodeState {
    var ts := TasksAt(n, id);
    if i < |ts| && ts[i].stage.Fetched? then
      var d := ts[i].stage.deposit;
      var n1 := PutEntry(n, id, EntryAt(n, id).(deposit := Some(d)));
      if Gate(d, ts[i].readOwed) == None then PutTasks(n1, id, ts[i := ts[i].(stage := Running)])
      else PutTasks(n1, id, Without(ts, i))
    else n
  }

  /** The request ends without a charge: RPC or backend failure. */
  function Abort(n: NodeState, id: ChannelId, i: nat): NodeState {
    var ts := TasksAt(n, id);
    if i < |ts| then PutTasks(n, id, Without(ts, i)) else n
  }

  // ---- Acknowledgements and receipts ----

  function VerifyAck(e: ChannelState, ack: ClientAck, expected: ChannelId): Result<ChannelState, ApiError> {
    if ack.update.id != expected then Failure(AckForOtherChannel)
    else if ack.update.cumOwed >= U128_LIMIT then Failure(BadAckUpdate)
    else match ack.clientSig
      case None => Failure(BadAckSig)
      case Some(sig) =>
        var signer := Recover(ack.update, sig);
        if e.clientAddress.Some? && e.clientAddress != Some(signer) then Failure(AckSignerDiffers)
        else Success(e.(clientAddress := Some(signer), lastAcked := Some(ack)))
  }

  function VerifyOptionalAck(e: ChannelState, ack: Option<ClientAck>, id: ChannelId): Result<ChannelState, ApiError> {
    match ack
    case None => Success(e)
    case Some(a) => VerifyAck(e, a, id)
  }

  /** The entry after one more charged round trip; its nonce and total are what the node signs. */
  function Bump(e: ChannelState, cost: nat): ChannelState {
    e.(nonce := SaturatingAdd(e.nonce, 1, U64_LIMIT), cumOwed := Accrue(e.cumOwed, cost))
  }

  function UpdateOf(id: ChannelId, e: ChannelState): Update { Update(id, e.nonce, e.cumOwed) }

  /** `build_receipt`: record the piggy-backed ack, then bump. A bad ack charges nothing. */
  function BuildReceipt(e: ChannelState, id: ChannelId, cost: nat, prevAck: Option<ClientAck>)
    : Result<ChannelState, ApiError>
  {
    match VerifyOptionalAck(e, prevAck, id)
    case Failure(err) => Failure(err)
    case Success(e1) => Success(Bump(e1, cost))
  }

  /** The backend has answered: the request leaves, and is charged unless its ack is refused. */
  function Finish(n: NodeState, id: ChannelId, i: nat, cost: nat, prevAck: Option<ClientAck>)
    : (NodeState, Option<Update>)
  {
    var ts := TasksAt(n, id);
    if i < |ts| && ts[i].stage == Running then
      var n1 := PutTasks(n, id, Without(ts, i));
      match BuildReceipt(EntryAt(n, id), id, cost, prevAck)
      case Failure(_) => (PutEntry(n1, id, EntryAt(n, id)), None)
      case Success(e) => (PutEntry(n1, id, e), Some(UpdateOf(id, e)))
    else (n, None)
  }

  /** The standalone `/ack` endpoint. */
  function Acknowledge(n: NodeState, ack: ClientAck): NodeState {
    var id := ack.update.id;
    match VerifyAck(EntryAt(n, id), ack, id)
    case Failure(_) => PutEntry(n, id, EntryAt(n, id))
    case Success(e) => PutEntry(n, id, e)
  }
}

/** The node process: the channel map behind its lock, and the requests suspended on it. */
module NodeService {
  import opened Base
  import opened ChannelSpec
  import opened RegistrySpec
  import opened Metering
  import Spec = NodeSpec
  import opened NodeSpec

  class NodeProcess {
    const pricing: seq<BackendPrice>
    var channels: map<ChannelId, ChannelState>
    var tasks: map<ChannelId, seq<Task>>

    function State(): NodeState
      reads this
    {
      NodeState(channels, tasks)
    }

    constructor (pricing: seq<BackendPrice>)
      ensures State() == NodeState(map[], map[]) && this.pricing == pricing
    {
      this.pricing, channels, tasks := pricing, map[], map[];
    }

    method BeginCheck(id: ChannelId) returns (error: Option<ApiError>)
      modifies this`tasks
      ensures State() == Spec.Begin(old(State()), id)
      ensures var e := EntryAt(old(State()), id);
              error == if e.deposit.Some? then Gate(e.deposit.value, e.cumOwed) else None
    {
      var cachedDeposit, cumOwed := None, 0;
      if id in channels {
        cachedDeposit, cumOwed := channels[id].deposit, channels[id].cumOwed;
      }
      error := None;
      var stage := Fetching;
      if cachedDeposit.Some? {
        error := Gate(cachedDeposit.value, cumOwed);
        stage := Running;
      }
      if error == None {
        tasks := tasks[id := TasksAt(State(), id) + [Task(cumOwed, stage)]];
      }
    }

    /** The `eth_call` resolves; the request is not resumed yet. */
    method DepositReturned(id: ChannelId, i: nat, deposit: nat) returns (error: Option<ApiError>)
      requires i < |TasksAt(State(), id)| && TasksAt(State(), id)[i].stage == Fetching
      modifies this`tasks
      ensures State() == Spec.Answer(old(State()), id, i, deposit)
      ensures error == if deposit >= U128_LIMIT then Some(BadDeposit) else None
    {
      var ts := tasks[id];
      if deposit >= U128_LIMIT {
        tasks := tasks[id := ts[..i] + ts[i + 1..]];
        return Some(BadDeposit);
      }
      tasks := tasks[id := ts[i := ts[i].(stage := Fetched(deposit))]];
      error := None;
    }

    method ResumeCheck(id: ChannelId, i: nat) returns (error: Option<ApiError>)
      requires i < |TasksAt(State(), id)| && TasksAt(State(), id)[i].stage.Fetched?
      modifies this
      ensures State() == Spec.Resume(old(State()), id, i)
      ensures error == Gate(old(TasksAt(State(), id)[i].stage.deposit), old(TasksAt(State(), id)[i].readOwed))
    {
      var ts := tasks[id];
      var d, cumOwed := ts[i].stage.deposit, ts[i].readOwed;
      if id !in channels { channels := channels[id := FRESH]; }
      channels := channels[id := channels[id].(deposit := Some(d))];
      error := Gate(d, cumOwed);
      if error == None {
        tasks := tasks[id := ts[i := ts[i].(stage := Running)]];
      } else {
        tasks := tasks[id := ts[..i] + ts[i + 1..]];
      }
    }

    /** `verify_and_record_ack` on the locked entry. */
    method VerifyAndRecordAck(id: ChannelId, ack: ClientAck) returns (error: Option<ApiError>)
      requires id in channels
      modifies this`channels
      ensures match Spec.VerifyAck(old(channels[id]), ack, id)
              case Failure(err) => error == Some(err) && channels == old(channels)
              case Success(e) => error == None && channels == old(channels)[id := e]
    {
      if ack.update.id != id { return Some(AckForOtherChannel); }
      if ack.update.cumOwed >= U128_LIMIT { return Some(BadAckUpdate); }
      if ack.clientSig == None { return Some(BadAckSig); }
      var entry := channels[id];
      var recovered := Recover(ack.update, ack.clientSig.value);
      match entry.clientAddress {
        case Some(known) => if known != recovered { return Some(AckSignerDiffers); }
        case None =>
      }
      entry := entry.(clientAddress := Some(recovered));
      entry := entry.(lastAcked := Some(ack));
      channels := channels[id := entry];
      error := None;
    }

    method BuildReceipt(id: ChannelId, backend: Backend, usage: Usage, prevAck: Option<ClientAck>)
      returns (receipt: Result<Update, ApiError>)
      modifies this`channels
      ensures var e := EntryAt(old(State()), id);
              var cost := RoundTripCost(TotalTokens(usage), PriceUnits(pricing, backend));
              match Spec.BuildReceipt(e, id, cost, prevAck)
              case Failure(err) => receipt == Failure(err) && State() == PutEntry(old(State()), id, e)
              case Success(e1) => receipt == Success(UpdateOf(id, e1)) && State() == PutEntry(old(State()), id, e1)
    {
      var cost := RoundTripCost(TotalTokens(usage), PriceUnits(pricing, backend));
      if id !in channels { channels := channels[id := FRESH]; }
      assert channels == old(channels)[id := EntryAt(old(State()), id)];
      if prevAck.Some? {
        var error := VerifyAndRecordAck(id, prevAck.value);
        if error.Some? { return Failure(error.value); }
      }
      var entry := channels[id];
      var newNonce := SaturatingAdd(entry.nonce, 1, U64_LIMIT);
      var newCumOwed := Accrue(entry.cumOwed, cost);
      channels := channels[id := entry.(nonce := newNonce, cumOwed := newCumOwed)];
      receipt := Success(Update(id, newNonce, newCumOwed));
    }

    method FinishExecute(id: ChannelId, i: nat, backend: Backend, usage: Usage, prevAck: Option<ClientAck>)
      returns (receipt: Result<Update, ApiError>)
      requires i < |TasksAt(State(), id)| && TasksAt(State(), id)[i].stage == Running
      modifies this
      ensures var cost := RoundTripCost(TotalTokens(usage), PriceUnits(pricing, backend));
              var (n, signed) := Spec.Finish(old(State()), id, i, cost, prevAck);
              State() == n && signed == if receipt.Success? then Some(receipt.value) else None
      ensures receipt.Failure? ==>
                Spec.BuildReceipt(EntryAt(old(State()), id), id,
                  RoundTripCost(TotalTokens(usage), PriceUnits(pricing, backend)), prevAck) == Failure(receipt.error)
    {
      var ts := tasks[id];
      tasks := tasks[id := ts[..i] + ts[i + 1..]];
      receipt := BuildReceipt(id, backend, usage, prevAck);
    }

    /** The backend has failed, or the client is gone. */
    method Abandon(id: ChannelId, i: nat)
      requires i < |TasksAt(State(), id)|
      modifies this`tasks
      ensures State() == Spec.Abort(old(State()), id, i)
    {
      var ts := tasks[id];
      tasks := tasks[id := ts[..i] + ts[i + 1..]];
    }

    method Ack(ack: ClientAck) returns (error: Option<ApiError>)
      modifies this`channels
      ensures State() == Spec.Acknowledge(old(State()), ack)
      ensures error == None <==> Spec.VerifyAck(EntryAt(old(State()), ack.update.id), ack, ack.update.id).Success?
    {
      var id := ack.update.id;
      if id !in channels { channels := channels[id := FRESH]; }
      error := VerifyAndRecordAck(id, ack);
    }
  }
}
