/** What holds in every run of the system, from deployment on. */
module Theorems {
  import opened Base
  import opened Sums
  import opened Ledger
  import R = RegistrySpec
  import opened ChannelSpec
  import opened ChannelHistory
  import opened NodeDebt
  import opened Protocol
  import opened Safety

  /** The channel and its contract, as they stand after a run. */
  function Chan(w: World, id: ChannelId): Channel { ChannelAt(w.ch.channels, id) }

  ghost predicate Reaches(p: Params, w0: World, acts: seq<Action>, w: World) {
    Init(p, w0) && Legal(p, w0, acts) && w == Run(p, w0, acts)
  }

  lemma ReachedSafety(p: Params, w0: World, acts: seq<Action>, w: World)
    requires Reaches(p, w0, acts, w)
    ensures SafetyInv(p, w)
  {
    InitSafety(p, w0);
    SafetyRun(p, w0, acts);
  }

  // ---- Solvency ----

  function TotalDonated(p: Params, w: World, acts: seq<Action>, contract: Address): nat
    decreases |acts|
  {
    if acts == [] then 0
    else Donated(p, w, acts[0], contract) + TotalDonated(p, Step(p, w, acts[0]), acts[1..], contract)
  }

  lemma {:induction false} SurplusRun(p: Params, w: World, acts: seq<Action>)
    requires ChainInv(p, w) && Legal(p, w, acts)
    ensures ChannelSurplus(p, Run(p, w, acts)) == ChannelSurplus(p, w) + TotalDonated(p, w, acts, p.cfg.self)
    ensures RegistrySurplus(p, Run(p, w, acts)) == RegistrySurplus(p, w) + TotalDonated(p, w, acts, p.registry)
    decreases |acts|
  {
    if acts != [] {
      ChainStep(p, w, acts[0]);
      SurplusRun(p, Step(p, w, acts[0]), acts[1..]);
    }
  }

  /**
   * In every run each contract holds exactly what it owes (all open deposits,
   * all stakes) plus whatever was given to it outright.
   */
  lemma Solvency(p: Params, w0: World, acts: seq<Action>, w: World)
    requires Reaches(p, w0, acts, w)
    ensures Balance(w.ch.balances, p.cfg.self)
         == Sum(Deposits(w.ch.channels)) + Balance(w0.ch.balances, p.cfg.self) + TotalDonated(p, w0, acts, p.cfg.self)
    ensures Balance(w.ch.balances, p.registry)
         == Sum(R.Stakes(w.reg)) + Balance(w0.ch.balances, p.registry) + TotalDonated(p, w0, acts, p.registry)
  {
    InitSafety(p, w0);
    SurplusRun(p, w0, acts);
    assert Deposits(w0.ch.channels) == map[] && R.Stakes(w0.reg) == map[];
  }

  /** No payment out of either contract fails for lack of funds, and no top-up overflows. */
  lemma PayoutsNeverFail(p: Params, w0: World, acts: seq<Action>, w: World, sender: Address)
    requires Reaches(p, w0, acts, w)
    ensures forall cc :: ChannelOutcome(p, w, sender, cc) == Failure(TransferFailed) ==> cc.CallOpen? || cc.CallTopUp?
    ensures forall rc :: RegistryOutcome(p, w, sender, rc) == Failure(R.TransferFailed) ==> rc.RegisterNode?
    ensures forall id, amount :: sender !in Contracts(p) ==>
              ChannelOutcome(p, w, sender, CallTopUp(id, amount)) != Failure(Overflow)
  {
    ReachedSafety(p, w0, acts, w);
    forall cc | ChannelOutcome(p, w, sender, cc) == Failure(TransferFailed) ensures cc.CallOpen? || cc.CallTopUp? {
      if !cc.CallOpen? && !cc.CallTopUp? { PayoutSucceeds(p, w, sender, cc); }
    }
    forall rc | RegistryOutcome(p, w, sender, rc) == Failure(R.TransferFailed) ensures rc.RegisterNode? {
      match rc
      case SlashNode(a, recipient, amount) =>
        R.StakePaymentsSucceed(p.registry, p.owner, w.reg, w.ch.balances, sender, a, recipient, amount);
      case UnregisterNode =>
        R.StakePaymentsSucceed(p.registry, p.owner, w.reg, w.ch.balances, sender, sender, sender, 0);
      case _ =>
    }
    forall id, amount | sender !in Contracts(p)
      ensures ChannelOutcome(p, w, sender, CallTopUp(id, amount)) != Failure(Overflow)
    {
      TopUpFits(p, w, sender, id, amount);
    }
  }

  lemma PayoutSucceeds(p: Params, w: World, sender: Address, cc: ChannelCall)
    requires SafetyInv(p, w) && !cc.CallOpen? && !cc.CallTopUp?
    ensures ChannelOutcome(p, w, sender, cc) != Failure(TransferFailed)
  {
    match cc
    case CallCooperativeClose(u, cs, ns) =>
      var c := Chan(w, u.id);
      if c.status != Absent {
        PaymentsSucceed(p.cfg, w.ch, u.id, c.(latestNonce := u.nonce, latestCumOwed := u.cumOwed), w.now, sender);
      }
    case CallFinalize(id) =>
      if Chan(w, id).status != Absent { PaymentsSucceed(p.cfg, w.ch, id, Chan(w, id), w.now, sender); }
    case CallReclaim(id) =>
      if Chan(w, id).status != Absent { PaymentsSucceed(p.cfg, w.ch, id, Chan(w, id), w.now, sender); }
    case _ =>
  }

  /** A deposit is part of the token supply, so a top-up that is paid for cannot overflow. */
  lemma TopUpFits(p: Params, w: World, sender: Address, id: ChannelId, amount: nat)
    requires ChainInv(p, w) && sender !in Contracts(p)
    ensures ChannelOutcome(p, w, sender, CallTopUp(id, amount)) != Failure(Overflow)
  {
    var b := w.ch.balances;
    if Balance(b, sender) >= amount {
      DepositsUpdate(w.ch.channels, id, NO_CHANNEL);
      var b1 := Move(b, sender, p.cfg.self, amount);
      MoveConserves(b, sender, p.cfg.self, amount);
      SumUpdate(b1, p.cfg.self, 0);
    }
  }

  // ---- One channel through time ----

  /** How a channel may look later, given how it looks now. */
  predicate Later(c: Channel, c1: Channel) {
    && c1.latestNonce >= c.latestNonce
    && (c.status != Absent ==> c1.status != Absent && c1.client == c.client && c1.node == c.node)
    && (c.status == Challenged ==>
          (c1.status == Challenged || c1.status == Closed) && c1.challengeDeadline == c.challengeDeadline)
    && (c.status == Closed ==> c1 == c)
  }

  lemma LaterStep(p: Params, w: World, a: Action, id: ChannelId)
    requires SafetyInv(p, w) && Enabled(p, w, a)
    ensures Later(Chan(w, id), Chan(Step(p, w, a), id))
  {
    if a.OnChannel? && ChannelOutcome(p, w, a.sender, a.cc).Success? {
      var j, e := ChannelCallMoves(p, w, a.sender, a.cc);
      assert IdInv(w.ch, j);
    }
  }

  /**
   * From any reachable state on, whatever happens next: the nonce never
   * decreases, the parties never change, a deadline once set never moves, and
   * a closed channel stays as it is; in particular its id is never reopened.
   */
  lemma {:induction false} LaterRun(p: Params, w: World, acts: seq<Action>, id: ChannelId)
    requires SafetyInv(p, w) && Legal(p, w, acts)
    ensures Later(Chan(w, id), Chan(Run(p, w, acts), id))
    decreases |acts|
  {
    if acts != [] {
      LaterStep(p, w, acts[0], id);
      SafetyStep(p, w, acts[0]);
      LaterRun(p, Step(p, w, acts[0]), acts[1..], id);
    }
  }

  /**
   * Highest state wins. Accepted challenges have strictly growing nonces, a
   * channel closed by `_settle` ends on a co-signed state whose nonce is the
   * largest ever accepted, and pays exactly that state, capped by the escrow.
   * An open channel has accepted nothing, which is why `challengeClose` needs
   * no nonce check.
   */
  lemma HighestStateWins(p: Params, w0: World, acts: seq<Action>, w: World, id: ChannelId)
    requires Reaches(p, w0, acts, w)
    ensures Ordered(w.ch.log, id)
    ensures Chan(w, id).status == Open ==> Chan(w, id).latestNonce == 0 && Chan(w, id).latestCumOwed == 0
    ensures Chan(w, id).status == Open ==> forall f :: f in w.ch.log ==> !IsChallenge(f, id)
    ensures forall e :: e in w.ch.log && e.ChannelClosed? && e.id == id ==>
              var c := Chan(w, id);
              && CoSigned(w, c, Update(id, e.finalNonce, c.latestCumOwed))
              && (forall f :: f in w.ch.log && IsChallenge(f, id) ==> f.nonce <= e.finalNonce)
              && e.paid == Min(c.latestCumOwed, Escrowed(w, id))
              && e.paid + e.refunded == Escrowed(w, id)
  {
    ReachedSafety(p, w0, acts, w);
    assert IdInv(w.ch, id) && Backed(w, id);
    var c, t := Chan(w, id), TallyOf(w.ch.log, id);
    forall f | f in w.ch.log && f.id == id ensures EventInv(c, t, f) {}
  }

  /**
   * Lifetime conservation. Until it is closed, a channel's deposit is all that
   * was ever paid in and nothing has been paid out; once closed, all of it has
   * been paid out, in exactly one ending. No id is opened twice.
   */
  lemma LifetimeConservation(p: Params, w0: World, acts: seq<Action>, w: World, id: ChannelId)
    requires Reaches(p, w0, acts, w)
    ensures var t, c := TallyOf(w.ch.log, id), Chan(w, id);
            && (c.status == Absent ==> t == Tally(0, 0, 0, 0))
            && (c.status == Open || c.status == Challenged ==>
                  t.deposited == c.deposit && t.released == 0 && t.openings == 1 && t.endings == 0)
            && (c.status == Closed ==>
                  t.released == t.deposited && c.deposit == 0 && t.openings == 1 && t.endings == 1)
  {
    ReachedSafety(p, w0, acts, w);
    assert IdInv(w.ch, id);
  }

  // ---- Composed safety: the contract together with an honest node ----

  /** In a reachable state, two states an honest node signed for one channel are in order. */
  lemma HonestStatesInOrder(p: Params, w: World, c: Channel, u: Update, v: Update)
    requires SafetyInv(p, w) && c.node in p.honest && u.id == v.id
    requires CoSigned(w, c, u) && CoSigned(w, c, v)
    ensures InOrder(u, v)
  {
    assert SameSource(Genuine(c.node, u), Genuine(c.node, v));
  }

  /**
   * Composed safety. Take any channel of an honest node, and any interleaving
   * of requests, receipts, acks and contract calls by anyone. The totals of the
   * accepted challenges never decrease. After the first of them the channel can
   * no longer be reclaimed, now or ever, and if it is closed the node was paid
   * at least the total of every accepted state, capped by the escrow, with one
   * exception: a state accepted at the very last nonce, u64::MAX.
   */
  lemma ComposedSafety(p: Params, w0: World, acts: seq<Action>, w: World, id: ChannelId)
    requires Reaches(p, w0, acts, w) && Chan(w, id).node in p.honest
    ensures forall i, j :: 0 <= i < j < |w.ch.log| && IsChallenge(w.ch.log[i], id) && IsChallenge(w.ch.log[j], id)
                           ==> w.ch.log[i].cumOwed <= w.ch.log[j].cumOwed
    ensures forall f :: f in w.ch.log && IsChallenge(f, id) ==> Protected(p, w, id, f)
  {
    ReachedSafety(p, w0, acts, w);
    assert IdInv(w.ch, id) && Backed(w, id);
    ChallengesGrow(p, w, id);
    forall f | f in w.ch.log && IsChallenge(f, id) ensures Protected(p, w, id, f) {
      AcceptedIsProtected(p, w, id, f);
    }
  }

  /** What an accepted state gives the node: no reclaim, and no settlement below it. */
  ghost predicate Protected(p: Params, w: World, id: ChannelId, f: Event)
    requires f.ChannelChallenged?
  {
    && (forall e :: e in w.ch.log && e.id == id ==> !e.ChannelReclaimed?)
    && (forall sender :: ChannelOutcome(p, w, sender, CallReclaim(id)) == Failure(ChannelNotOpen))
    && (f.nonce < MAX_NONCE ==> Chan(w, id).latestCumOwed >= f.cumOwed)
    && (f.nonce < MAX_NONCE ==> forall e :: e in w.ch.log && e.ChannelClosed? && e.id == id ==>
                                  e.paid >= Min(f.cumOwed, Escrowed(w, id)))
  }

  lemma AcceptedIsProtected(p: Params, w: World, id: ChannelId, f: Event)
    requires SafetyInv(p, w) && IdInv(w.ch, id) && Backed(w, id) && Chan(w, id).node in p.honest
    requires f in w.ch.log && IsChallenge(f, id)
    ensures Protected(p, w, id, f)
  {
    AcceptedIsKept(p, w, id, f);
    var c, t := Chan(w, id), TallyOf(w.ch.log, id);
    forall e | e in w.ch.log && e.id == id ensures EventInv(c, t, e) {}
  }

  lemma ChallengesGrow(p: Params, w: World, id: ChannelId)
    requires SafetyInv(p, w) && IdInv(w.ch, id) && Backed(w, id) && Chan(w, id).node in p.honest
    ensures var log := w.ch.log;
            forall i, j :: 0 <= i < j < |log| && IsChallenge(log[i], id) && IsChallenge(log[j], id)
                           ==> log[i].cumOwed <= log[j].cumOwed
  {
    var c, log := Chan(w, id), w.ch.log;
    forall i, j | 0 <= i < j < |log| && IsChallenge(log[i], id) && IsChallenge(log[j], id)
      ensures log[i].cumOwed <= log[j].cumOwed
    {
      assert log[i] in log && log[j] in log;
      HonestStatesInOrder(p, w, c, Update(id, log[i].nonce, log[i].cumOwed), Update(id, log[j].nonce, log[j].cumOwed));
    }
  }

  lemma AcceptedIsKept(p: Params, w: World, id: ChannelId, f: Event)
    requires SafetyInv(p, w) && IdInv(w.ch, id) && Backed(w, id) && Chan(w, id).node in p.honest
    requires f in w.ch.log && IsChallenge(f, id)
    ensures Chan(w, id).status != Open && (f.nonce < MAX_NONCE ==> Chan(w, id).latestCumOwed >= f.cumOwed)
  {
    var c := Chan(w, id);
    assert EventInv(c, TallyOf(w.ch.log, id), f);
    LatestIsCoSigned(w, id, f);
    HonestStatesInOrder(p, w, c, Update(id, f.nonce, f.cumOwed), Update(id, c.latestNonce, c.latestCumOwed));
  }

  /** A channel that was ever challenged records a co-signed state, whether settled or still in its window. */
  lemma LatestIsCoSigned(w: World, id: ChannelId, f: Event)
    requires IdInv(w.ch, id) && Backed(w, id) && f in w.ch.log && IsChallenge(f, id)
    ensures CoSigned(w, Chan(w, id), Update(id, Chan(w, id).latestNonce, Chan(w, id).latestCumOwed))
  {
    var c, t := Chan(w, id), TallyOf(w.ch.log, id);
    assert EventInv(c, t, f);
    if c.status == Closed {
      var e := EndingOf(w.ch.log, id);
      assert e in w.ch.log && !e.ChannelReclaimed?;
    }
  }

  lemma {:induction false} EndingOf(log: seq<Event>, id: ChannelId) returns (e: Event)
    requires TallyOf(log, id).endings > 0
    ensures e in log && e.id == id && (e.ChannelClosed? || e.ChannelReclaimed?)
  {
    e := log[|log| - 1];
    if e.id != id || !(e.ChannelClosed? || e.ChannelReclaimed?) {
      e := EndingOf(log[..|log| - 1], id);
    }
  }

  /**
   * The action that makes the exception: the recorded total of an honest node's
   * channel goes down only in a cooperative close that repeats the nonce
   * u64::MAX. When some run contains such an action is `OwedCanDropIff`.
   */
  lemma OwedDropsOnlyAtNonceCeiling(p: Params, w: World, a: Action, id: ChannelId)
    requires SafetyInv(p, w) && Enabled(p, w, a) && Chan(w, id).node in p.honest
    requires Chan(Step(p, w, a), id).latestCumOwed < Chan(w, id).latestCumOwed
    ensures Chan(w, id).status == Challenged && Chan(w, id).latestNonce == MAX_NONCE
    ensures a.OnChannel? && a.cc.CallCooperativeClose? && a.cc.u.id == id && a.cc.u.nonce == MAX_NONCE
  {
    var c, c1 := Chan(w, id), Chan(Step(p, w, a), id);
    var j, e := ChannelCallMoves(p, w, a.sender, a.cc);
    AcceptedIsCoSigned(p, w, a.sender, a.cc, j, e);
    assert IdInv(w.ch, id) && Backed(w, id);
    assert ChannelChallenged(id, c.latestNonce, c.latestCumOwed, c.challengeDeadline) in w.ch.log;
    HonestStatesInOrder(p, w, c, Update(id, c.latestNonce, c.latestCumOwed),
                        Update(id, c1.latestNonce, c1.latestCumOwed));
  }

  // ---- What the node's recorded ack is worth ----

  /**
   * The node keeps the last client ack as what it would submit to close. On an
   * open channel that ack does close it, with some node signature in existence,
   * exactly when the node signed that same state and the signer it learned from
   * its first ack is the channel's client. (It checks neither.) It is then paid
   * the acknowledged total, capped by the deposit.
   */
  lemma LastAckClosesIff(p: Params, w0: World, acts: seq<Action>, w: World, a: Address, id: ChannelId, sender: Address)
    requires Reaches(p, w0, acts, w) && Chan(w, id).status == Open && Chan(w, id).node == a
    requires Entry(w, a, id).lastAcked.Some?
    ensures var ack := Entry(w, a, id).lastAcked.value;
            && ack.clientSig.Some?
            && ((exists ns :: Known(w, ns) && ClosesWith(p, w, sender, ack.update, ack.clientSig.value, ns))
                <==> Genuine(a, ack.update) in w.signed
                     && Entry(w, a, id).clientAddress == Some(Account(Chan(w, id).client)))
  {
    ReachedSafety(p, w0, acts, w);
    SafeAckClosesIff(p, w, a, id, sender);
  }

  lemma SafeAckClosesIff(p: Params, w: World, a: Address, id: ChannelId, sender: Address)
    requires SafetyInv(p, w) && Chan(w, id).status == Open && Chan(w, id).node == a
    requires Entry(w, a, id).lastAcked.Some?
    ensures var ack := Entry(w, a, id).lastAcked.value;
            && ack.clientSig.Some?
            && ((exists ns :: Known(w, ns) && ClosesWith(p, w, sender, ack.update, ack.clientSig.value, ns))
                <==> Genuine(a, ack.update) in w.signed
                     && Entry(w, a, id).clientAddress == Some(Account(Chan(w, id).client)))
  {
    var ack := Entry(w, a, id).lastAcked.value;
    assert AckInv(Entry(w, a, id), id) && IdInv(w.ch, id);
    var c, ns := Chan(w, id), Genuine(a, ack.update);
    if ns in w.signed && Entry(w, a, id).clientAddress == Some(Account(c.client)) {
      PayoutSucceeds(p, w, sender, CallCooperativeClose(ack.update, ack.clientSig.value, ns));
      assert ClosesWith(p, w, sender, ack.update, ack.clientSig.value, ns);
    }
  }

  predicate ClosesWith(p: Params, w: World, sender: Address, u: Update, clientSig: Signature, nodeSig: Signature) {
    var outcome := ChannelOutcome(p, w, sender, CallCooperativeClose(u, clientSig, nodeSig));
    var c := Chan(w, u.id);
    && outcome.Success?
    && ChannelAt(outcome.value.channels, u.id).status == Closed
    && outcome.value.log == w.ch.log + [ChannelClosed(u.id, u.nonce, Min(u.cumOwed, c.deposit),
                                                      c.deposit - Min(u.cumOwed, c.deposit))]
  }

  // ---- Debt under concurrency ----

  /**
   * With at most `k` requests of a channel in flight, none costing more than
   * `cost`, the debt stays below escrow + k * cost although the gate's check and
   * the charge are far apart; a cached deposit never exceeds the escrow, which
   * is the on-chain deposit until the channel closes.
   */
  lemma OvershootBound(p: Params, w0: World, acts: seq<Action>, w: World, k: nat, cost: nat, a: Address, id: ChannelId)
    requires Reaches(p, w0, acts, w) && BoundedRun(p, w0, acts, k, cost)
    ensures var e := Entry(w, a, id);
            && (e.cumOwed == 0 || e.cumOwed <= Escrowed(w, id) - 1 + k * cost)
            && (e.deposit.Some? ==> e.deposit.value <= Escrowed(w, id))
    ensures Chan(w, id).status != Closed ==> Escrowed(w, id) == Chan(w, id).deposit
  {
    InitSafety(p, w0);
    forall x, j ensures DebtAt(w0, x, j, k, cost) { DebtStarts(k, cost); }
    DebtRun(p, w0, acts, k, cost);
    assert DebtAt(w, a, id, k, cost);
    SafetyRun(p, w0, acts);
    assert IdInv(w.ch, id);
  }

  /** So the part of a settled state that the escrow could not pay is less than k * cost. */
  lemma UnpaidBound(p: Params, w0: World, acts: seq<Action>, w: World, k: nat, cost: nat, e: Event)
    requires Reaches(p, w0, acts, w) && BoundedRun(p, w0, acts, k, cost)
    requires e in w.ch.log && e.ChannelClosed? && Chan(w, e.id).node in p.honest
    ensures Chan(w, e.id).latestCumOwed - e.paid <= Max(0, k * cost - 1)
  {
    var c := Chan(w, e.id);
    ReachedSafety(p, w0, acts, w);
    assert IdInv(w.ch, e.id) && Backed(w, e.id);
    assert EventInv(c, TallyOf(w.ch.log, e.id), e);
    OvershootBound(p, w0, acts, w, k, cost, c.node, e.id);
    assert HonestSig(p, Genuine(c.node, Update(e.id, c.latestNonce, c.latestCumOwed)));
  }

  // ---- The challenge window, and progress ----

  /**
   * Window discipline. From the moment a channel is challenged, and however the
   * run goes on, the deadline is the one set then: as long as the channel is
   * still challenged a counter-challenge is too late exactly when finalizing is
   * no longer too early, so at no time can both succeed.
   */
  lemma WindowDiscipline(p: Params, w: World, acts: seq<Action>, w1: World, u: Update, cs: Signature, ns: Signature,
                         sender: Address)
    requires SafetyInv(p, w) && Legal(p, w, acts) && w1 == Run(p, w, acts)
    requires Chan(w, u.id).status == Challenged && Chan(w1, u.id).status == Challenged
    ensures var deadline := Chan(w, u.id).challengeDeadline;
            && (ChannelOutcome(p, w1, sender, CallSubmitChallenge(u, cs, ns)) == Failure(ChallengeWindowClosed)
                <==> w1.now >= deadline)
            && (ChannelOutcome(p, w1, sender, CallFinalize(u.id)) == Failure(ChallengeWindowOpen)
                <==> w1.now < deadline)
    ensures !(ChannelOutcome(p, w1, sender, CallSubmitChallenge(u, cs, ns)).Success?
              && ChannelOutcome(p, w1, sender, CallFinalize(u.id)).Success?)
  {
    LaterRun(p, w, acts, u.id);
  }

  /** From every challenged channel, waiting for the deadline lets anyone close it. */
  lemma ChallengedCanClose(p: Params, w0: World, acts: seq<Action>, w: World, id: ChannelId, sender: Address, wait: nat)
    requires Reaches(p, w0, acts, w) && Chan(w, id).status == Challenged && sender !in Contracts(p)
    requires w.now + wait >= Chan(w, id).challengeDeadline
    ensures Legal(p, w, [Tick(wait), OnChannel(sender, CallFinalize(id))])
    ensures Chan(Run(p, w, [Tick(wait), OnChannel(sender, CallFinalize(id))]), id).status == Closed
  {
    ReachedSafety(p, w0, acts, w);
    var w1 := Step(p, w, Tick(wait));
    SafetyStep(p, w, Tick(wait));
    PaymentsSucceed(p.cfg, w1.ch, id, Chan(w1, id), w1.now, sender);
    RunTwo(p, w, Tick(wait), OnChannel(sender, CallFinalize(id)));
  }

  lemma RunTwo(p: Params, w: World, a: Action, b: Action)
    ensures Run(p, w, [a, b]) == Step(p, Step(p, w, a), b)
    ensures Legal(p, w, [a, b]) <==> Enabled(p, w, a) && Enabled(p, Step(p, w, a), b)
  {
    assert [a, b][1..] == [b] && [b][1..] == [];
    assert Run(p, Step(p, w, a), [b]) == Run(p, Step(p, Step(p, w, a), b), []);
    assert Legal(p, Step(p, Step(p, w, a), b), []);
    assert Legal(p, Step(p, w, a), [b]) <==> Enabled(p, Step(p, w, a), b);
  }

  /**
   * From every open channel its client can wait and get the whole deposit back,
   * if and only if opening time plus timeout fits the contract's 64-bit clock.
   */
  lemma OpenCanReclaimIff(p: Params, w0: World, acts: seq<Action>, w: World, id: ChannelId)
    requires Reaches(p, w0, acts, w) && Chan(w, id).status == Open
    ensures Chan(w, id).openedAt + p.cfg.reclaimTimeout < U64_LIMIT
            <==> exists wait :: ReclaimsAfter(p, w, id, wait)
  {
    ReachedSafety(p, w0, acts, w);
    var c := Chan(w, id);
    var client := c.client;
    if c.openedAt + p.cfg.reclaimTimeout < U64_LIMIT {
      var wait := c.openedAt + p.cfg.reclaimTimeout;
      var w1 := Step(p, w, Tick(wait));
      SafetyStep(p, w, Tick(wait));
      PaymentsSucceed(p.cfg, w1.ch, id, c, w1.now, client);
      assert Reclaim(p.cfg, w1.ch, w1.now, client, id).Success?;
      assert ReclaimsAfter(p, w, id, wait);
    }
  }

  predicate ReclaimsAfter(p: Params, w: World, id: ChannelId, wait: nat) {
    var c := Chan(w, id);
    var w1 := Step(p, w, Tick(wait));
    var w2 := Step(p, w1, OnChannel(c.client, CallReclaim(id)));
    && Enabled(p, w1, OnChannel(c.client, CallReclaim(id)))
    && Chan(w2, id).status == Closed
    && Balance(w2.ch.balances, c.client) == Balance(w.ch.balances, c.client) + c.deposit
  }

  // ---- The node registry ----

  /**
   * In every run the registry's array lists each active node exactly once, the
   * 1-based index is its inverse, and an inactive node has no stake.
   */
  lemma RegistryListIsExact(p: Params, w0: World, acts: seq<Action>, w: World)
    requires Reaches(p, w0, acts, w)
    ensures forall a :: a in w.reg.nodeList <==> R.IsActive(w.reg, a)
    ensures forall i :: 0 <= i < |w.reg.nodeList| ==> Lookup(w.reg.listIndex, w.reg.nodeList[i]) == i + 1
    ensures forall a :: a !in w.reg.nodeList ==>
              Lookup(w.reg.listIndex, a) == 0 && R.NodeAt(w.reg.nodes, a).stake == 0
    ensures forall i, j :: 0 <= i < j < |w.reg.nodeList| ==> w.reg.nodeList[i] != w.reg.nodeList[j]
  {
    ReachedSafety(p, w0, acts, w);
    R.ListIsTheActiveSet(w.reg);
  }

  lemma {:induction false} StakesAccountedRun(p: Params, w: World, acts: seq<Action>)
    requires ChainInv(p, w) && R.StakesAccounted(w.reg) && Legal(p, w, acts)
    ensures R.StakesAccounted(Run(p, w, acts).reg)
    decreases |acts|
  {
    if acts != [] {
      var a := acts[0];
      if a.OnRegistry? && RegistryOutcome(p, w, a.sender, a.rc).Success? {
        RegistryCallAccounted(p, w, a.sender, a.rc);
      }
      ChainStep(p, w, a);
      StakesAccountedRun(p, Step(p, w, a), acts[1..]);
    }
  }

  /**
   * Stake conservation: in every run, what a node staked over all its
   * registrations is what it has at stake now plus what was returned to it
   * plus what was slashed.
   */
  lemma StakeConservation(p: Params, w0: World, acts: seq<Action>, w: World, a: Address)
    requires Reaches(p, w0, acts, w)
    ensures R.Staked(w.reg.log, a) == R.NodeAt(w.reg.nodes, a).stake + R.Released(w.reg.log, a)
  {
    InitSafety(p, w0);
    assert R.StakesAccounted(w0.reg) by {
      assert w0.reg.log[..0] == [];
    }
    StakesAccountedRun(p, w0, acts);
  }
}
