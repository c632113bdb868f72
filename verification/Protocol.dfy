/**
 * The whole system: both contracts on one token ledger, a clock, the node
 * processes that follow the node's code, and the set of signatures in
 * existence. A run is any sequence of enabled actions, in any order.
 */
module Protocol {
  import opened Base
  import opened Sums
  import opened Ledger
  import R = RegistrySpec
  import opened ChannelSpec
  import C = ChannelSpec
  import opened ChannelHistory
  import N = NodeSpec

  /** `honest` are the node addresses whose key signs only through `build_receipt` of one process. */
  datatype Params = Params(cfg: Config, registry: Address, owner: Address, honest: set<Address>)

  datatype World = World(
    ch: ChState,                          // JobChannel, with the shared token balances
    reg: R.RegState,
    nodes: map<Address, N.NodeState>,
    signed: set<Signature>,               // every genuine signature made so far
    now: nat)

  datatype RegistryCall =
    | RegisterNode(info: R.NodeInfo, stake: nat)
    | UpdateNode(info: R.NodeInfo)
    | UnregisterNode
    | SlashNode(a: Address, recipient: Address, amount: nat)
    | ChangeEscrow(escrow: Address)
    | ChangeMinStake(minStake: nat)

  datatype ChannelCall =
    | CallOpen(node: Address, channelNonce: nat, deposit: nat)
    | CallTopUp(id: ChannelId, amount: nat)
    | CallCooperativeClose(u: Update, clientSig: Signature, nodeSig: Signature)
    | CallChallengeClose(u: Update, clientSig: Signature, nodeSig: Signature)
    | CallSubmitChallenge(u: Update, clientSig: Signature, nodeSig: Signature)
    | CallFinalize(id: ChannelId)
    | CallReclaim(id: ChannelId)

  datatype NodeEvent =
    | BeginRequest(id: ChannelId)
    | DepositAnswer(id: ChannelId, i: nat)
    | ResumeRequest(id: ChannelId, i: nat)
    | FinishRequest(id: ChannelId, i: nat, cost: nat, prevAck: Option<N.ClientAck>)
    | AbortRequest(id: ChannelId, i: nat)
    | ReceiveAck(ack: N.ClientAck)

  datatype Action =
    | Tick(seconds: nat)
    | Pay(from: Address, to: Address, amount: nat)
    | OnRegistry(sender: Address, rc: RegistryCall)
    | OnChannel(sender: Address, cc: ChannelCall)
    | SignUpdate(sig: Signature)
    | OnNode(a: Address, ne: NodeEvent)

  function NodeAt(w: World, a: Address): N.NodeState {
    if a in w.nodes then w.nodes[a] else N.NodeState(map[], map[])
  }

  function Contracts(p: Params): set<Address> { {p.cfg.self, p.registry} }

  // ---- What may happen ----

  /** Signatures cannot be forged: a genuine one can be presented only after it was made. */
  predicate Known(w: World, sig: Signature) { sig.Genuine? ==> sig in w.signed }

  predicate KnownAck(w: World, ack: Option<N.ClientAck>) {
    ack.Some? && ack.value.clientSig.Some? ==> Known(w, ack.value.clientSig.value)
  }

  predicate FitsOnChain(u: Update) { u.nonce < U64_LIMIT && u.cumOwed < U256_LIMIT }

  predicate EnabledOnChannel(w: World, cc: ChannelCall) {
    match cc
    case CallCooperativeClose(u, cs, ns) => FitsOnChain(u) && Known(w, cs) && Known(w, ns)
    case CallChallengeClose(u, cs, ns) => FitsOnChain(u) && Known(w, cs) && Known(w, ns)
    case CallSubmitChallenge(u, cs, ns) => FitsOnChain(u) && Known(w, cs) && Known(w, ns)
    case _ => true
  }

  /** The contracts never call each other's mutators, so no transaction has one of them as its sender. */
  predicate Enabled(p: Params, w: World, a: Action) {
    match a
    case Tick(_) => true
    case Pay(from, _, _) => from !in Contracts(p)
    case OnRegistry(sender, _) => sender !in Contracts(p)
    case OnChannel(sender, cc) => sender !in Contracts(p) && EnabledOnChannel(w, cc)
    case SignUpdate(sig) => sig.Genuine? && sig.signer !in p.honest
    case OnNode(a, ne) =>
      && a in p.honest
      && (ne.FinishRequest? ==> KnownAck(w, ne.prevAck))
      && (ne.ReceiveAck? ==> KnownAck(w, Some(ne.ack)))
  }

  // ---- What it does ----

  function RegistryOutcome(p: Params, w: World, sender: Address, rc: RegistryCall): R.Outcome {
    var b := w.ch.balances;
    match rc
    case RegisterNode(info, stake) => R.Register(p.registry, w.reg, b, sender, info, stake)
    case UpdateNode(info) => R.Update(w.reg, b, sender, info)
    case UnregisterNode => R.Unregister(p.registry, w.reg, b, sender)
    case SlashNode(a, recipient, amount) => R.Slash(p.registry, p.owner, w.reg, b, sender, a, recipient, amount)
    case ChangeEscrow(x) => R.SetEscrow(p.owner, w.reg, b, sender, x)
    case ChangeMinStake(x) => R.SetMinStake(p.owner, w.reg, b, sender, x)
  }

  function ChannelOutcome(p: Params, w: World, sender: Address, cc: ChannelCall): C.Outcome {
    match cc
    case CallOpen(node, n, deposit) =>
      OpenChannel(p.cfg, w.ch, R.IsActive(w.reg, node), w.now, sender, node, n, deposit)
    case CallTopUp(id, amount) => TopUp(p.cfg, w.ch, sender, id, amount)
    case CallCooperativeClose(u, cs, ns) => CooperativeClose(p.cfg, w.ch, u, cs, ns)
    case CallChallengeClose(u, cs, ns) => ChallengeClose(p.cfg, w.ch, w.now, u, cs, ns)
    case CallSubmitChallenge(u, cs, ns) => SubmitChallenge(w.ch, w.now, u, cs, ns)
    case CallFinalize(id) => Finalize(p.cfg, w.ch, w.now, id)
    case CallReclaim(id) => Reclaim(p.cfg, w.ch, w.now, sender, id)
  }

  function NodeOutcome(w: World, a: Address, ne: NodeEvent): (N.NodeState, Option<Update>) {
    var n := NodeAt(w, a);
    match ne
    case BeginRequest(id) => (N.Begin(n, id), None)
    case DepositAnswer(id, i) => (N.Answer(n, id, i, ChannelAt(w.ch.channels, id).deposit), None)
    case ResumeRequest(id, i) => (N.Resume(n, id, i), None)
    case FinishRequest(id, i, cost, prevAck) => N.Finish(n, id, i, cost, prevAck)
    case AbortRequest(id, i) => (N.Abort(n, id, i), None)
    case ReceiveAck(ack) => (N.Acknowledge(n, ack), None)
  }

  /** A reverted call leaves everything as it was. */
  function Step(p: Params, w: World, a: Action): World {
    match a
    case Tick(seconds) => w.(now := w.now + seconds)
    case Pay(from, to, amount) =>
      (match Transfer(w.ch.balances, from, to, amount)
       case None => w
       case Some(b) => w.(ch := w.ch.(balances := b)))
    case OnRegistry(sender, rc) =>
      (match RegistryOutcome(p, w, sender, rc)
       case Failure(_) => w
       case Success((r, b)) => w.(reg := r, ch := w.ch.(balances := b)))
    case OnChannel(sender, cc) =>
      (match ChannelOutcome(p, w, sender, cc)
       case Failure(_) => w
       case Success(s) => w.(ch := s))
    case SignUpdate(sig) => w.(signed := w.signed + {sig})
    case OnNode(a, ne) =>
      var (n, u) := NodeOutcome(w, a, ne);
      w.(nodes := w.nodes[a := n], signed := if u.Some? then w.signed + {Genuine(a, u.value)} else w.signed)
  }

  function Run(p: Params, w: World, acts: seq<Action>): World
    decreases |acts|
  {
    if acts == [] then w else Run(p, Step(p, w, acts[0]), acts[1..])
  }

  predicate Legal(p: Params, w: World, acts: seq<Action>)
    decreases |acts|
  {
    acts == [] || (Enabled(p, w, acts[0]) && Legal(p, Step(p, w, acts[0]), acts[1..]))
  }

  /** Deployment: both contracts empty, nothing signed, any distribution of tokens. */
  ghost predicate Init(p: Params, w: World) {
    && p.cfg.self != p.registry
    && w.ch.channels == map[] && w.ch.log == []
    && Sum(w.ch.balances) < U256_LIMIT
    && w.reg.nodes == map[] && w.reg.nodeList == [] && w.reg.listIndex == map[]
    && w.reg.log == [R.MinStakeSet(w.reg.minStake)]
    && w.nodes == map[] && w.signed == {}
  }

  // ---- The chain's invariant ----

  ghost function ChannelSurplus(p: Params, w: World): int { Surplus(p.cfg, w.ch) }

  ghost function RegistrySurplus(p: Params, w: World): int {
    Balance(w.ch.balances, p.registry) - Sum(R.Stakes(w.reg))
  }

  /** Tokens this action hands to a contract outright, by a plain transfer or as the recipient of a slash. */
  function Donated(p: Params, w: World, a: Action, contract: Address): nat {
    match a
    case Pay(from, to, amount) =>
      if to == contract && Balance(w.ch.balances, from) >= amount then amount else 0
    case OnRegistry(sender, SlashNode(x, recipient, amount)) =>
      if recipient == contract && RegistryOutcome(p, w, sender, a.rc).Success? then amount else 0
    case _ => 0
  }

  ghost predicate PartiesInv(p: Params, w: World) {
    && (forall a :: R.IsActive(w.reg, a) ==> a !in Contracts(p))
    && (forall id :: var c := ChannelAt(w.ch.channels, id);
                     c.status != Absent ==> c.client !in Contracts(p) && c.node !in Contracts(p))
  }

  ghost predicate ChainInv(p: Params, w: World) {
    && p.cfg.self != p.registry
    && R.RegInv(w.reg)
    && ChannelSurplus(p, w) >= 0 && RegistrySurplus(p, w) >= 0
    && Sum(w.ch.balances) < U256_LIMIT
    && PartiesInv(p, w)
    && forall id :: IdInv(w.ch, id)
  }

  lemma InitChain(p: Params, w: World)
    requires Init(p, w)
    ensures ChainInv(p, w)
  {
    assert Deposits(w.ch.channels) == map[] && R.Stakes(w.reg) == map[];
  }

  function IdOf(sender: Address, cc: ChannelCall): ChannelId {
    match cc
    case CallOpen(node, n, _) => Derived(sender, node, n)
    case CallTopUp(id, _) => id
    case CallCooperativeClose(u, _, _) => u.id
    case CallChallengeClose(u, _, _) => u.id
    case CallSubmitChallenge(u, _, _) => u.id
    case CallFinalize(id) => id
    case CallReclaim(id) => id
  }

  /** What a successful call logs. */
  function EventOf(p: Params, w: World, sender: Address, cc: ChannelCall): Event {
    var id := IdOf(sender, cc);
    var c := ChannelAt(w.ch.channels, id);
    match cc
    case CallOpen(node, n, deposit) => ChannelOpened(id, sender, node, n, deposit)
    case CallTopUp(_, amount) => ChannelToppedUp(id, amount, c.deposit + amount)
    case CallCooperativeClose(u, _, _) =>
      var paid := Min(u.cumOwed, c.deposit);
      ChannelClosed(id, u.nonce, paid, c.deposit - paid)
    case CallChallengeClose(u, _, _) =>
      ChannelChallenged(id, u.nonce, u.cumOwed, Timestamp64(w.now) + p.cfg.challengeWindow)
    case CallSubmitChallenge(u, _, _) => ChannelChallenged(id, u.nonce, u.cumOwed, c.challengeDeadline)
    case CallFinalize(_) =>
      var paid := Min(c.latestCumOwed, c.deposit);
      ChannelClosed(id, c.latestNonce, paid, c.deposit - paid)
    case CallReclaim(_) => ChannelReclaimed(id, c.deposit)
  }

  /** Each successful channel call is a transition of one channel. */
  lemma ChannelCallMoves(p: Params, w: World, sender: Address, cc: ChannelCall) returns (id: ChannelId, e: Event)
    requires ChainInv(p, w) && sender !in Contracts(p) && ChannelOutcome(p, w, sender, cc).Success?
    ensures Moves(p.cfg, w.ch, ChannelOutcome(p, w, sender, cc).value, sender, id, e)
    ensures var c1 := ChannelAt(ChannelOutcome(p, w, sender, cc).value.channels, id);
            c1.client !in Contracts(p) && c1.node !in Contracts(p)
    ensures e.ChannelChallenged? <==> cc.CallChallengeClose? || cc.CallSubmitChallenge?
    ensures e.ChannelClosed? <==> cc.CallCooperativeClose? || cc.CallFinalize?
    ensures e.ChannelReclaimed? <==> cc.CallReclaim?
    ensures cc.CallChallengeClose? || cc.CallSubmitChallenge? || cc.CallCooperativeClose?
            ==> id == cc.u.id
    ensures cc.CallFinalize? || cc.CallReclaim? ==> id == cc.id
  {
    id, e := IdOf(sender, cc), EventOf(p, w, sender, cc);
    CallMoves(p, w, sender, cc);
    PartiesKept(p, w, ChannelOutcome(p, w, sender, cc).value, sender, id, e);
  }

  lemma CallMoves(p: Params, w: World, sender: Address, cc: ChannelCall)
    requires ChainInv(p, w) && sender !in Contracts(p) && ChannelOutcome(p, w, sender, cc).Success?
    ensures Moves(p.cfg, w.ch, ChannelOutcome(p, w, sender, cc).value, sender, IdOf(sender, cc),
                  EventOf(p, w, sender, cc))
  {
    assert IdInv(w.ch, IdOf(sender, cc));
    match cc
    case CallOpen(node, n, deposit) =>
      OpenMoves(p.cfg, w.ch, R.IsActive(w.reg, node), w.now, sender, node, n, deposit);
    case CallTopUp(id, amount) => TopUpMoves(p.cfg, w.ch, sender, id, amount);
    case CallFinalize(id) => FinalizeMoves(p, w, sender, id);
    case CallReclaim(id) => ReclaimMoves(p.cfg, w.ch, w.now, sender, id);
    case _ => SignedCallMoves(p, w, sender, cc);
  }

  lemma FinalizeMoves(p: Params, w: World, sender: Address, id: ChannelId)
    requires PartiesInv(p, w) && ChannelOutcome(p, w, sender, CallFinalize(id)).Success?
    ensures Moves(p.cfg, w.ch, ChannelOutcome(p, w, sender, CallFinalize(id)).value, sender, id,
                  EventOf(p, w, sender, CallFinalize(id)))
  {
    var c := ChannelAt(w.ch.channels, id);
    SettleMoves(p.cfg, w.ch, sender, id, c.latestNonce, c.latestCumOwed);
  }

  /** The calls that carry a state signed by both parties. */
  lemma SignedCallMoves(p: Params, w: World, sender: Address, cc: ChannelCall)
    requires cc.CallCooperativeClose? || cc.CallChallengeClose? || cc.CallSubmitChallenge?
    requires PartiesInv(p, w) && ChannelOutcome(p, w, sender, cc).Success?
    requires IdInv(w.ch, cc.u.id)
    ensures Moves(p.cfg, w.ch, ChannelOutcome(p, w, sender, cc).value, sender, cc.u.id, EventOf(p, w, sender, cc))
  {
    if cc.CallCooperativeClose? {
      SettleMoves(p.cfg, w.ch, sender, cc.u.id, cc.u.nonce, cc.u.cumOwed);
    } else {
      ChallengeMoves(p.cfg, w.ch, w.now, sender, cc.u, cc.clientSig, cc.nodeSig);
    }
  }

  /** A channel's parties are set when it is opened and never after. */
  lemma PartiesKept(p: Params, w: World, s1: ChState, sender: Address, id: ChannelId, e: Event)
    requires PartiesInv(p, w) && Moves(p.cfg, w.ch, s1, sender, id, e)
    requires e.ChannelOpened? ==> e.client !in Contracts(p) && e.node !in Contracts(p)
    ensures var c1 := ChannelAt(s1.channels, id);
            c1.client !in Contracts(p) && c1.node !in Contracts(p)
  {
  }

  lemma ChannelCallKeeps(p: Params, w: World, sender: Address, cc: ChannelCall)
    requires ChainInv(p, w) && Enabled(p, w, OnChannel(sender, cc)) && ChannelOutcome(p, w, sender, cc).Success?
    ensures var w1 := Step(p, w, OnChannel(sender, cc));
            && ChainInv(p, w1)
            && ChannelSurplus(p, w1) == ChannelSurplus(p, w)
            && RegistrySurplus(p, w1) == RegistrySurplus(p, w)
  {
    var id, e := ChannelCallMoves(p, w, sender, cc);
    MoveKeeps(p, w, ChannelOutcome(p, w, sender, cc).value, sender, id, e);
  }

  lemma MoveKeeps(p: Params, w: World, s1: ChState, sender: Address, id: ChannelId, e: Event)
    requires ChainInv(p, w) && sender !in Contracts(p) && Moves(p.cfg, w.ch, s1, sender, id, e)
    requires var c1 := ChannelAt(s1.channels, id); c1.client !in Contracts(p) && c1.node !in Contracts(p)
    ensures var w1 := w.(ch := s1);
            && ChainInv(p, w1)
            && ChannelSurplus(p, w1) == ChannelSurplus(p, w)
            && RegistrySurplus(p, w1) == RegistrySurplus(p, w)
  {
    var c1 := ChannelAt(s1.channels, id);
    TransitionKeeps(w.ch, id, c1, s1.balances, e);
    forall other | other != id
      ensures IdInv(s1, other) && ChannelAt(s1.channels, other) == ChannelAt(w.ch.channels, other)
    {
      OthersKeep(w.ch, id, c1, s1.balances, e, other);
    }
  }

  lemma RegistryCallKeeps(p: Params, w: World, sender: Address, rc: RegistryCall)
    requires ChainInv(p, w) && Enabled(p, w, OnRegistry(sender, rc)) && RegistryOutcome(p, w, sender, rc).Success?
    ensures var a := OnRegistry(sender, rc); var w1 := Step(p, w, a);
            && R.RegInv(w1.reg) && Sum(w1.ch.balances) == Sum(w.ch.balances)
            && (forall x :: R.IsActive(w1.reg, x) ==> x !in Contracts(p))
            && ChannelSurplus(p, w1) == ChannelSurplus(p, w) + Donated(p, w, a, p.cfg.self)
            && RegistrySurplus(p, w1) == RegistrySurplus(p, w) + Donated(p, w, a, p.registry)
  {
    var b := w.ch.balances;
    match rc
    case RegisterNode(info, stake) => R.RegisterKeeps(p.registry, w.reg, b, sender, info, stake);
    case UpdateNode(info) => R.UpdateKeeps(p.registry, w.reg, b, sender, info);
    case UnregisterNode => R.UnregisterKeeps(p.registry, w.reg, b, sender);
    case SlashNode(a, recipient, amount) =>
      R.SlashKeeps(p.registry, p.owner, w.reg, b, sender, a, recipient, amount);
    case ChangeEscrow(x) => SettingKeeps(w.reg, w.reg.(escrow := x), R.EscrowSet(x));
    case ChangeMinStake(x) => SettingKeeps(w.reg, w.reg.(minStake := x), R.MinStakeSet(x));
  }

  lemma SettingKeeps(r: R.RegState, r1: R.RegState, e: R.Event)
    requires R.RegInv(r) && r1.nodes == r.nodes && r1.nodeList == r.nodeList && r1.listIndex == r.listIndex
    ensures R.RegInv(R.Emit(r1, e)) && R.Stakes(R.Emit(r1, e)) == R.Stakes(r)
    ensures forall x :: R.IsActive(R.Emit(r1, e), x) <==> R.IsActive(r, x)
  {
    assert R.Stakes(r1) == R.Stakes(r);
    R.EmitKeeps(r1, e);
  }

  lemma RegistryCallAccounted(p: Params, w: World, sender: Address, rc: RegistryCall)
    requires R.RegInv(w.reg) && R.StakesAccounted(w.reg) && RegistryOutcome(p, w, sender, rc).Success?
    ensures R.StakesAccounted(RegistryOutcome(p, w, sender, rc).value.0)
  {
    var b, r1 := w.ch.balances, RegistryOutcome(p, w, sender, rc).value.0;
    match rc
    case RegisterNode(info, stake) => R.RegisterAccounted(p.registry, w.reg, b, sender, info, stake);
    case UpdateNode(info) => R.UpdateAccounted(w.reg, b, sender, info);
    case UnregisterNode => R.UnregisterAccounted(p.registry, w.reg, b, sender);
    case SlashNode(a, recipient, amount) =>
      R.SlashAccounted(p.registry, p.owner, w.reg, b, sender, a, recipient, amount);
    case ChangeEscrow(x) => R.SettingAccounted(w.reg, r1, R.EscrowSet(x));
    case ChangeMinStake(x) => R.SettingAccounted(w.reg, r1, R.MinStakeSet(x));
  }

  /**
   * Solvency and conservation, one action at a time: every action keeps the
   * invariant, creates no tokens, and changes what each contract holds beyond
   * its debts by exactly what the action donates to it.
   */
  lemma ChainStep(p: Params, w: World, a: Action)
    requires ChainInv(p, w) && Enabled(p, w, a)
    ensures ChainInv(p, Step(p, w, a))
    ensures ChannelSurplus(p, Step(p, w, a)) == ChannelSurplus(p, w) + Donated(p, w, a, p.cfg.self)
    ensures RegistrySurplus(p, Step(p, w, a)) == RegistrySurplus(p, w) + Donated(p, w, a, p.registry)
  {
    var w1 := Step(p, w, a);
    match a
    case OnChannel(sender, cc) =>
      if ChannelOutcome(p, w, sender, cc).Success? { ChannelCallKeeps(p, w, sender, cc); }
    case OnRegistry(sender, rc) =>
      if RegistryOutcome(p, w, sender, rc).Success? {
        RegistryCallKeeps(p, w, sender, rc);
        assert w1.ch.channels == w.ch.channels && w1.ch.log == w.ch.log;
        assert forall id :: IdInv(w.ch, id) ==> IdInv(w1.ch, id);
      }
    case Pay(from, to, amount) =>
      if Balance(w.ch.balances, from) >= amount {
        MoveConserves(w.ch.balances, from, to, amount);
        assert forall id :: IdInv(w.ch, id) ==> IdInv(w1.ch, id);
      }
    case _ =>
  }
}
