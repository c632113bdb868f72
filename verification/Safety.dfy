/** The invariants that tie the contract to what the node has signed, kept by every action. */
module Safety {
  import opened Base
  import opened ChannelSpec
  import opened ChannelHistory
  import N = NodeSpec
  import opened Metering
  import opened NodeDebt
  import opened Protocol

  const MAX_NONCE: nat := U64_LIMIT - 1

  function Entry(w: World, a: Address, id: ChannelId): N.ChannelState { N.EntryAt(NodeAt(w, a), id) }

  function Tasks(w: World, a: Address, id: ChannelId): seq<N.Task> { N.TasksAt(NodeAt(w, a), id) }

  function Escrowed(w: World, id: ChannelId): nat { TallyOf(w.ch.log, id).deposited }

  // ---- What the nodes have signed ----

  predicate HonestSig(p: Params, sig: Signature) { sig.Genuine? && sig.signer in p.honest }

  /** Nothing signed is ahead of the node's own counters. */
  ghost predicate Covered(p: Params, w: World) {
    forall sig :: sig in w.signed && HonestSig(p, sig) ==>
      var e := Entry(w, sig.signer, sig.update.id);
      sig.update.nonce <= e.nonce && sig.update.cumOwed <= e.cumOwed
  }

  /** The node's counters are those of its last receipt. */
  ghost predicate Latest(p: Params, w: World) {
    forall a, id :: a in p.honest && Entry(w, a, id).nonce > 0 ==>
      Genuine(a, N.UpdateOf(id, Entry(w, a, id))) in w.signed
  }

  /** A recorded ack was made for this channel, by the signer the node then took for its client. */
  ghost predicate AcksInv(w: World) { forall a, id :: AckInv(Entry(w, a, id), id) }

  predicate AckInv(e: N.ChannelState, id: ChannelId) {
    e.lastAcked.Some? ==>
      var ack := e.lastAcked.value;
      ack.update.id == id && ack.update.cumOwed < U128_LIMIT
      && ack.clientSig.Some? && e.clientAddress == Some(Recover(ack.update, ack.clientSig.value))
  }

  ghost predicate CountersFit(w: World) {
    forall a, id :: Entry(w, a, id).nonce < U64_LIMIT && Entry(w, a, id).cumOwed < U128_LIMIT
  }

  /** A higher nonce never carries a lower total; one nonce below the ceiling carries one total. */
  predicate InOrder(u: Update, v: Update) {
    && (u.nonce < v.nonce ==> u.cumOwed <= v.cumOwed)
    && (u.nonce == v.nonce < MAX_NONCE ==> u.cumOwed == v.cumOwed)
  }

  predicate SameSource(s: Signature, t: Signature) {
    s.Genuine? && t.Genuine? && s.signer == t.signer && s.update.id == t.update.id
  }

  ghost predicate SignedInOrder(p: Params, w: World) {
    forall s, t :: s in w.signed && t in w.signed && HonestSig(p, s) && SameSource(s, t) ==> InOrder(s.update, t.update)
  }

  ghost predicate SigInv(p: Params, w: World) {
    CountersFit(w) && Covered(p, w) && SignedInOrder(p, w) && Latest(p, w) && AcksInv(w)
  }

  // ---- What the contract has accepted ----

  predicate CoSigned(w: World, c: Channel, u: Update) { Genuine(c.client, u) in w.signed && Genuine(c.node,
                     u) in w.signed }

  /** Every state the contract ever accepted for the channel was signed by both its parties. */
  ghost predicate Backed(w: World, id: ChannelId) {
    var c := ChannelAt(w.ch.channels, id);
    forall e :: e in w.ch.log && e.id == id ==>
      && (e.ChannelChallenged? ==> CoSigned(w, c, Update(id, e.nonce, e.cumOwed)))
      && (e.ChannelClosed? ==> CoSigned(w, c, Update(id, c.latestNonce, c.latestCumOwed)))
  }

  ghost predicate SafetyInv(p: Params, w: World) {
    ChainInv(p, w) && SigInv(p, w) && forall id :: Backed(w, id)
  }

  lemma InitSafety(p: Params, w: World)
    requires Init(p, w)
    ensures SafetyInv(p, w)
  {
    InitChain(p, w);
  }

  // ---- Node actions ----

  /** A node action touches one entry: it stays, or it is bumped and signed. */
  lemma NodeEffect(w: World, a: Address, ne: NodeEvent)
    ensures var (n, u) := NodeOutcome(w, a, ne);
            forall id :: var e, e1 := Entry(w, a, id), N.EntryAt(n, id);
              if u.Some? && u.value.id == id then
                u.value == N.UpdateOf(id, e1) && ne.FinishRequest?
                && e1.nonce == SaturatingAdd(e.nonce, 1, U64_LIMIT)
                && e1.cumOwed == Accrue(e.cumOwed, ne.cost)
              else e1.nonce == e.nonce && e1.cumOwed == e.cumOwed
    ensures forall id :: AckInv(Entry(w, a, id), id) ==> AckInv(N.EntryAt(NodeOutcome(w, a, ne).0, id), id)
  {
  }

  lemma NodeActionSigs(p: Params, w: World, a: Address, ne: NodeEvent)
    requires SigInv(p, w) && Enabled(p, w, OnNode(a, ne))
    ensures SigInv(p, Step(p, w, OnNode(a, ne)))
  {
    var w1 := Step(p, w, OnNode(a, ne));
    NodeEffect(w, a, ne);
    forall x, id
      ensures Entry(w1, x, id).nonce >= Entry(w, x, id).nonce && Entry(w1, x, id).cumOwed >= Entry(w, x, id).cumOwed
      ensures Entry(w1, x, id).nonce < U64_LIMIT && Entry(w1, x, id).cumOwed < U128_LIMIT
    {
    }
    forall x, id | x in p.honest && Entry(w1, x, id).nonce > 0
      ensures Genuine(x, N.UpdateOf(id, Entry(w1, x, id))) in w1.signed
    {
    }
    if NodeOutcome(w, a, ne).1.Some? {
      NewReceiptInOrder(p, w, a, ne);
    }
  }

  /** The new receipt is above everything the node signed for the channel before. */
  lemma NewReceiptInOrder(p: Params, w: World, a: Address, ne: NodeEvent)
    requires SigInv(p, w) && Enabled(p, w, OnNode(a, ne)) && NodeOutcome(w, a, ne).1.Some?
    ensures Covered(p, Step(p, w, OnNode(a, ne))) && SignedInOrder(p, Step(p, w, OnNode(a, ne)))
  {
    var w1, u := Step(p, w, OnNode(a, ne)), NodeOutcome(w, a, ne).1.value;
    NodeEffect(w, a, ne);
    assert w1.signed == w.signed + {Genuine(a, u)};
    forall s | s in w.signed && HonestSig(p, s) && s.signer == a && s.update.id == u.id
      ensures InOrder(s.update, u) && InOrder(u, s.update)
    {
      ReceiptAbove(p, w, a, ne, s);
    }
    NewReceiptCovered(p, w, a, ne);
  }

  lemma NewReceiptCovered(p: Params, w: World, a: Address, ne: NodeEvent)
    requires SigInv(p, w) && Enabled(p, w, OnNode(a, ne)) && NodeOutcome(w, a, ne).1.Some?
    ensures Covered(p, Step(p, w, OnNode(a, ne)))
  {
    var w1, u := Step(p, w, OnNode(a, ne)), NodeOutcome(w, a, ne).1.value;
    NodeEffect(w, a, ne);
    forall s | s in w1.signed && HonestSig(p, s)
      ensures var e := Entry(w1, s.signer, s.update.id); s.update.nonce <= e.nonce && s.update.cumOwed <= e.cumOwed
    {
      if s != Genuine(a, u) { assert s in w.signed; }
    }
  }

  lemma ReceiptAbove(p: Params, w: World, a: Address, ne: NodeEvent, s: Signature)
    requires SigInv(p, w) && Enabled(p, w, OnNode(a, ne)) && NodeOutcome(w, a, ne).1.Some?
    requires s in w.signed && HonestSig(p, s) && s.signer == a && s.update.id == NodeOutcome(w, a, ne).1.value.id
    ensures InOrder(s.update, NodeOutcome(w, a, ne).1.value) && InOrder(NodeOutcome(w, a, ne).1.value, s.update)
  {
    NodeEffect(w, a, ne);
    var e := Entry(w, a, s.update.id);
    assert s.update.nonce <= e.nonce && s.update.cumOwed <= e.cumOwed;
  }

  /**
   * A receipt's nonce is new, different from every one the node signed for the
   * channel before, exactly while the node's counter is below u64::MAX.
   */
  lemma FreshNonceIffBelowCeiling(p: Params, w: World, a: Address, ne: NodeEvent)
    requires SigInv(p, w) && Enabled(p, w, OnNode(a, ne)) && NodeOutcome(w, a, ne).1.Some?
    ensures var u := NodeOutcome(w, a, ne).1.value;
            (forall s :: s in w.signed && s.Genuine? && s.signer == a && s.update.id == u.id ==>
               s.update.nonce != u.nonce)
            <==> Entry(w, a, u.id).nonce < MAX_NONCE
  {
    NodeEffect(w, a, ne);
    var u := NodeOutcome(w, a, ne).1.value;
    var e := Entry(w, a, u.id);
    if e.nonce == MAX_NONCE {
      assert Genuine(a, N.UpdateOf(u.id, e)) in w.signed;
    }
    forall s | s in w.signed && s.Genuine? && s.signer == a && s.update.id == u.id ensures s.update.nonce <= e.nonce {
      assert HonestSig(p, s);
    }
  }

  lemma OtherActionSigs(p: Params, w: World, a: Action)
    requires SigInv(p, w) && Enabled(p, w, a) && !a.OnNode?
    ensures SigInv(p, Step(p, w, a))
  {
    var w1 := Step(p, w, a);
    assert w1.nodes == w.nodes;
    assert forall sig :: sig in w1.signed && HonestSig(p, sig) ==> sig in w.signed;
    forall x, id ensures Entry(w1, x, id) == Entry(w, x, id) {}
  }

  // ---- Contract actions ----

  /** Closing or challenging needs both parties' signatures on the new state, or none at all to finalize. */
  lemma AcceptedIsCoSigned(p: Params, w: World, sender: Address, cc: ChannelCall, id: ChannelId, e: Event)
    requires SafetyInv(p, w) && Enabled(p, w, OnChannel(sender, cc))
    requires ChannelOutcome(p, w, sender, cc).Success?
    requires Moves(p.cfg, w.ch, ChannelOutcome(p, w, sender, cc).value, sender, id, e)
    requires cc.CallChallengeClose? || cc.CallSubmitChallenge? || cc.CallCooperativeClose? ==> id == cc.u.id
    requires cc.CallFinalize? ==> id == cc.id
    ensures var c1 := ChannelAt(ChannelOutcome(p, w, sender, cc).value.channels, id);
            (cc.CallChallengeClose? || cc.CallSubmitChallenge? || cc.CallCooperativeClose? || cc.CallFinalize?)
            ==> CoSigned(w, c1, Update(id, c1.latestNonce, c1.latestCumOwed))
  {
    if cc.CallFinalize? {
      FinalizedIsCoSigned(p, w, sender, id);
    } else if cc.CallChallengeClose? || cc.CallSubmitChallenge? || cc.CallCooperativeClose? {
      SubmittedIsCoSigned(p, w, sender, cc);
    }
  }

  lemma FinalizedIsCoSigned(p: Params, w: World, sender: Address, id: ChannelId)
    requires SafetyInv(p, w) && ChannelOutcome(p, w, sender, CallFinalize(id)).Success?
    ensures var c1 := ChannelAt(ChannelOutcome(p, w, sender, CallFinalize(id)).value.channels, id);
            CoSigned(w, c1, Update(id, c1.latestNonce, c1.latestCumOwed))
  {
    var c := ChannelAt(w.ch.channels, id);
    assert IdInv(w.ch, id) && Backed(w, id);
    assert ChannelChallenged(id, c.latestNonce, c.latestCumOwed, c.challengeDeadline) in w.ch.log;
  }

  lemma SubmittedIsCoSigned(p: Params, w: World, sender: Address, cc: ChannelCall)
    requires cc.CallChallengeClose? || cc.CallSubmitChallenge? || cc.CallCooperativeClose?
    requires EnabledOnChannel(w, cc) && ChannelOutcome(p, w, sender, cc).Success?
    ensures var c1 := ChannelAt(ChannelOutcome(p, w, sender, cc).value.channels, cc.u.id);
            CoSigned(w, c1, Update(cc.u.id, c1.latestNonce, c1.latestCumOwed))
  {
    match cc
    case CallCooperativeClose(u, cs, ns) =>
    case CallChallengeClose(u, cs, ns) =>
    case CallSubmitChallenge(u, cs, ns) =>
  }

  lemma ChannelCallBacked(p: Params, w: World, sender: Address, cc: ChannelCall)
    requires SafetyInv(p, w) && Enabled(p, w, OnChannel(sender, cc)) && ChannelOutcome(p, w, sender, cc).Success?
    ensures forall other :: Backed(Step(p, w, OnChannel(sender, cc)), other)
  {
    var w1 := Step(p, w, OnChannel(sender, cc));
    var id, e := ChannelCallMoves(p, w, sender, cc);
    AcceptedIsCoSigned(p, w, sender, cc, id, e);
    forall other ensures Backed(w1, other) {
      assert Backed(w, other) && IdInv(w.ch, other);
      if other == id { OldEventsBacked(w, w1, id, e); } else { OtherBacked(w, w1, id, e, other); }
    }
  }

  lemma OtherBacked(w: World, w1: World, id: ChannelId, e: Event, other: ChannelId)
    requires Backed(w, other) && other != id && e.id == id && w1.signed == w.signed && w1.ch.log == w.ch.log + [e]
    requires ChannelAt(w1.ch.channels, other) == ChannelAt(w.ch.channels, other)
    ensures Backed(w1, other)
  {
  }

  lemma OldEventsBacked(w: World, w1: World, id: ChannelId, e: Event)
    requires Backed(w, id) && IdInv(w.ch, id) && w1.signed == w.signed && w1.ch.log == w.ch.log + [e]
    requires Transition(id, ChannelAt(w.ch.channels, id), ChannelAt(w1.ch.channels, id), e)
    requires var c1 := ChannelAt(w1.ch.channels, id);
             e.ChannelChallenged? || e.ChannelClosed? ==> CoSigned(w, c1, Update(id, c1.latestNonce, c1.latestCumOwed))
    ensures Backed(w1, id)
  {
    var c, c1 := ChannelAt(w.ch.channels, id), ChannelAt(w1.ch.channels, id);
    forall x | x in w1.ch.log && x.id == id
      ensures x.ChannelChallenged? ==> CoSigned(w1, c1, Update(id, x.nonce, x.cumOwed))
      ensures x.ChannelClosed? ==> CoSigned(w1, c1, Update(id, c1.latestNonce, c1.latestCumOwed))
    {
      assert x in w.ch.log ==> EventInv(c, TallyOf(w.ch.log, id), x);
    }
  }

  lemma SafetyStep(p: Params, w: World, a: Action)
    requires SafetyInv(p, w) && Enabled(p, w, a)
    ensures SafetyInv(p, Step(p, w, a))
  {
    ChainStep(p, w, a);
    var w1 := Step(p, w, a);
    if a.OnNode? { NodeActionSigs(p, w, a.a, a.ne); } else { OtherActionSigs(p, w, a); }
    if a.OnChannel? && ChannelOutcome(p, w, a.sender, a.cc).Success? {
      ChannelCallBacked(p, w, a.sender, a.cc);
    } else {
      assert w1.ch.channels == w.ch.channels && w1.ch.log == w.ch.log && w.signed <= w1.signed;
      forall id ensures Backed(w1, id) { assert Backed(w, id); }
    }
  }

  lemma {:induction false} SafetyRun(p: Params, w: World, acts: seq<Action>)
    requires SafetyInv(p, w) && Legal(p, w, acts)
    ensures SafetyInv(p, Run(p, w, acts))
    decreases |acts|
  {
    if acts != [] {
      SafetyStep(p, w, acts[0]);
      SafetyRun(p, Step(p, w, acts[0]), acts[1..]);
    }
  }

  // ---- The debt account under bounded concurrency ----

  /** At most `k` requests of a channel in flight at a node, none charged more than `cost`. */
  predicate Bounded(w: World, a: Action, k: nat, cost: nat) {
    a.OnNode? ==>
      && (a.ne.BeginRequest? ==> |Tasks(w, a.a, a.ne.id)| < k)
      && (a.ne.FinishRequest? ==> a.ne.cost <= cost)
  }

  predicate BoundedRun(p: Params, w: World, acts: seq<Action>, k: nat, cost: nat)
    decreases |acts|
  {
    acts == [] || (Bounded(w, acts[0], k, cost) && BoundedRun(p, Step(p, w, acts[0]), acts[1..], k, cost))
  }

  ghost predicate DebtAt(w: World, a: Address, id: ChannelId, k: nat, cost: nat) {
    DebtInv(Entry(w, a, id), Tasks(w, a, id), Escrowed(w, id), k, cost)
  }

  ghost predicate DebtsInv(p: Params, w: World, k: nat, cost: nat) { forall a, id :: DebtAt(w, a, id, k, cost) }

  function Target(ne: NodeEvent): ChannelId { if ne.ReceiveAck? then ne.ack.update.id else ne.id }

  lemma NodeEventDebt(p: Params, w: World, a: Address, ne: NodeEvent, id: ChannelId, k: nat, cost: nat)
    requires IdInv(w.ch, id) && DebtAt(w, a, id, k, cost) && Bounded(w, OnNode(a, ne), k, cost)
    ensures var n := NodeOutcome(w, a, ne).0;
            DebtInv(N.EntryAt(n, id), N.TasksAt(n, id), Escrowed(w, id), k, cost)
  {
    if Target(ne) == id {
      if ne.FinishRequest? {
        FinishDebt(w, a, ne, k, cost);
      } else if ne.ReceiveAck? {
        AckDebt(w, a, ne.ack, k, cost);
      } else {
        GateDebt(w, a, ne, k, cost);
      }
    }
  }

  lemma GateDebt(w: World, a: Address, ne: NodeEvent, k: nat, cost: nat)
    requires !ne.ReceiveAck? && !ne.FinishRequest?
    requires IdInv(w.ch, ne.id) && DebtAt(w, a, ne.id, k, cost) && Bounded(w, OnNode(a, ne), k, cost)
    ensures var n := NodeOutcome(w, a, ne).0;
            DebtInv(N.EntryAt(n, ne.id), N.TasksAt(n, ne.id), Escrowed(w, ne.id), k, cost)
  {
    var e, ts, escrowed := Entry(w, a, ne.id), Tasks(w, a, ne.id), Escrowed(w, ne.id);
    match ne
    case BeginRequest(id) =>
      if e.deposit == None {
        BeginDebt(e, ts, N.Fetching, escrowed, k, cost);
      } else if N.Gate(e.deposit.value, e.cumOwed) == None {
        BeginDebt(e, ts, N.Running, escrowed, k, cost);
      }
    case DepositAnswer(id, i) =>
      if i < |ts| && ts[i].stage == N.Fetching {
        LeaveDebt(e, ts, i, escrowed, k, cost);
        RestageDebt(e, ts, i, N.Fetched(ChannelAt(w.ch.channels, id).deposit), escrowed, k, cost);
      }
    case ResumeRequest(id, i) =>
      if i < |ts| && ts[i].stage.Fetched? { ResumeDebt(e, ts, i, escrowed, k, cost); }
    case AbortRequest(id, i) =>
      if i < |ts| { LeaveDebt(e, ts, i, escrowed, k, cost); }
    case _ =>
  }

  lemma FinishDebt(w: World, a: Address, ne: NodeEvent, k: nat, cost: nat)
    requires ne.FinishRequest? && DebtAt(w, a, ne.id, k, cost) && ne.cost <= cost
    ensures var n := NodeOutcome(w, a, ne).0;
            DebtInv(N.EntryAt(n, ne.id), N.TasksAt(n, ne.id), Escrowed(w, ne.id), k, cost)
  {
    var e, ts, escrowed := Entry(w, a, ne.id), Tasks(w, a, ne.id), Escrowed(w, ne.id);
    if ne.i < |ts| && ts[ne.i].stage == N.Running {
      LeaveDebt(e, ts, ne.i, escrowed, k, cost);
      ChargeDebt(e, N.EntryAt(NodeOutcome(w, a, ne).0, ne.id), ts, ne.i, ne.cost, escrowed, k, cost);
    }
  }

  lemma AckDebt(w: World, a: Address, ack: N.ClientAck, k: nat, cost: nat)
    requires DebtAt(w, a, ack.update.id, k, cost)
    ensures var id, n := ack.update.id, NodeOutcome(w, a, ReceiveAck(ack)).0;
            DebtInv(N.EntryAt(n, id), N.TasksAt(n, id), Escrowed(w, id), k, cost)
  {
    var id := ack.update.id;
    var e, ts, escrowed := Entry(w, a, id), Tasks(w, a, id), Escrowed(w, id);
    forall i | 0 <= i < |ts|
      ensures TaskInv(N.EntryAt(NodeOutcome(w, a, ReceiveAck(ack)).0, id), ts, i, escrowed, k, cost)
    {
      assert TaskInv(e, ts, i, escrowed, k, cost);
    }
  }

  lemma ResumeDebt(e: N.ChannelState, ts: seq<N.Task>, i: nat, escrowed: nat, k: nat, cost: nat)
    requires DebtInv(e, ts, escrowed, k, cost) && i < |ts| && ts[i].stage.Fetched?
    ensures var d := ts[i].stage.deposit;
            DebtInv(e.(deposit := Some(d)),
                    if N.Gate(d, ts[i].readOwed) == None then ts[i := ts[i].(stage := N.Running)] else N.Without(ts, i),
                    escrowed, k, cost)
  {
    assert TaskInv(e, ts, i, escrowed, k, cost);
    var e1 := e.(deposit := Some(ts[i].stage.deposit));
    forall j | 0 <= j < |ts| ensures TaskInv(e1, ts, j, escrowed, k, cost) {
      assert TaskInv(e, ts, j, escrowed, k, cost);
    }
    LeaveDebt(e1, ts, i, escrowed, k, cost);
    if N.Gate(ts[i].stage.deposit, ts[i].readOwed) == None {
      RestageDebt(e1, ts, i, N.Running, escrowed, k, cost);
    }
  }

  lemma DebtStep(p: Params, w: World, a: Action, k: nat, cost: nat)
    requires SafetyInv(p, w) && DebtsInv(p, w, k, cost) && Enabled(p, w, a) && Bounded(w, a, k, cost)
    ensures DebtsInv(p, Step(p, w, a), k, cost)
  {
    var w1 := Step(p, w, a);
    forall x, id ensures DebtAt(w1, x, id, k, cost) {
      assert DebtAt(w, x, id, k, cost);
      if a.OnNode? && x == a.a {
        assert IdInv(w.ch, id);
        NodeEventDebt(p, w, x, a.ne, id, k, cost);
      } else {
        EscrowOnlyGrows(p, w, a, id);
        EscrowGrows(Entry(w, x, id), Tasks(w, x, id), Escrowed(w, id), Escrowed(w1, id), k, cost);
      }
    }
  }

  lemma EscrowOnlyGrows(p: Params, w: World, a: Action, id: ChannelId)
    requires ChainInv(p, w) && Enabled(p, w, a)
    ensures Escrowed(Step(p, w, a), id) >= Escrowed(w, id)
  {
    if a.OnChannel? && ChannelOutcome(p, w, a.sender, a.cc).Success? {
      var j, e := ChannelCallMoves(p, w, a.sender, a.cc);
      TallyAppend(w.ch.log, e, id);
    }
  }

  lemma {:induction false} DebtRun(p: Params, w: World, acts: seq<Action>, k: nat, cost: nat)
    requires SafetyInv(p, w) && DebtsInv(p, w, k, cost) && Legal(p, w, acts) && BoundedRun(p, w, acts, k, cost)
    ensures DebtsInv(p, Run(p, w, acts), k, cost)
    decreases |acts|
  {
    if acts != [] {
      SafetyStep(p, w, acts[0]);
      DebtStep(p, w, acts[0], k, cost);
      DebtRun(p, Step(p, w, acts[0]), acts[1..], k, cost);
    }
  }
}
