/**
 * The life of one channel, read off the contract's event log. Every successful
 * call is one of five transitions of a single channel (`Transition`), and every
 * transition keeps the account in `IdInv` for that channel and for all others.
 */
module ChannelHistory {
  import opened Base
  import opened Sums
  import opened Ledger
  import opened ChannelSpec

  // ---- Reading the log ----

  /** What a channel's events add up to. */
  datatype Tally = Tally(deposited: nat, released: nat, openings: nat, endings: nat)

  function Count(t: Tally, e: Event): Tally {
    match e
    case ChannelOpened(_, _, _, _, deposit) => t.(deposited := t.deposited + deposit, openings := t.openings + 1)
    case ChannelToppedUp(_, amount, _) => t.(deposited := t.deposited + amount)
    case ChannelChallenged(_, _, _, _) => t
    case ChannelClosed(_, _, paid, refunded) =>
      t.(released := t.released + paid + refunded, endings := t.endings + 1)
    case ChannelReclaimed(_, amount) => t.(released := t.released + amount, endings := t.endings + 1)
  }

  function TallyOf(log: seq<Event>, id: ChannelId): Tally {
    if log == [] then Tally(0, 0, 0, 0)
    else
      var t := TallyOf(log[..|log| - 1], id);
      var e := log[|log| - 1];
      if e.id == id then Count(t, e) else t
  }

  lemma TallyAppend(log: seq<Event>, e: Event, id: ChannelId)
    ensures TallyOf(log + [e], id) == if e.id == id then Count(TallyOf(log, id), e) else TallyOf(log, id)
  {
    assert (log + [e])[..|log|] == log;
  }

  // ---- The account of one channel ----

  /** What an event in the log says about the channel as it is now. */
  predicate EventInv(c: Channel, t: Tally, e: Event) {
    match e
    case ChannelOpened(_, client, node, _, _) => c.status != Absent && c.client == client && c.node == node
    case ChannelToppedUp(_, _, _) => c.status != Absent
    case ChannelChallenged(_, nonce, _, deadline) =>
      (c.status == Challenged || c.status == Closed) && nonce <= c.latestNonce && deadline == c.challengeDeadline
    case ChannelClosed(_, finalNonce, paid, refunded) =>
      && c.status == Closed && finalNonce == c.latestNonce
      && paid == Min(c.latestCumOwed, t.deposited) && paid + refunded == t.deposited
    case ChannelReclaimed(_, amount) =>
      c.status == Closed && c.latestNonce == 0 && c.latestCumOwed == 0 && amount == t.deposited
  }

  predicate RecordInv(id: ChannelId, c: Channel, t: Tally) {
    && t.deposited == t.released + c.deposit
    && t.openings == (if c.status == Absent then 0 else 1)
    && t.endings == (if c.status == Closed then 1 else 0)
    && (c.status == Absent ==> c == NO_CHANNEL)
    && (c.status == Open ==> c.latestNonce == 0 && c.latestCumOwed == 0 && c.challengeDeadline == 0)
    && (c.status == Closed ==> c.deposit == 0)
    && (c.status != Closed ==> t.released == 0)
    && (c.status != Absent ==> id.Derived? && id.client == c.client && id.node == c.node)
  }

  /** Challenges of a channel come with strictly growing nonces. */
  ghost predicate Ordered(log: seq<Event>, id: ChannelId) {
    forall i, j :: 0 <= i < j < |log| && IsChallenge(log[i], id) && IsChallenge(log[j], id)
                   ==> log[i].nonce < log[j].nonce
  }

  predicate IsChallenge(e: Event, id: ChannelId) { e.ChannelChallenged? && e.id == id }

  /** A reclaimed channel was never challenged. */
  ghost predicate Exclusive(log: seq<Event>, id: ChannelId) {
    forall e, f :: e in log && f in log && e.ChannelReclaimed? && e.id == id ==> !IsChallenge(f, id)
  }

  ghost predicate EventsInv(log: seq<Event>, id: ChannelId, c: Channel, t: Tally) {
    forall e :: e in log && e.id == id ==> EventInv(c, t, e)
  }

  ghost predicate IdInv(s: ChState, id: ChannelId) {
    var c, t := ChannelAt(s.channels, id), TallyOf(s.log, id);
    && RecordInv(id, c, t)
    && EventsInv(s.log, id, c, t)
    && Exclusive(s.log, id)
    && (c.status == Challenged ==>
          ChannelChallenged(id, c.latestNonce, c.latestCumOwed, c.challengeDeadline) in s.log)
    && Ordered(s.log, id)
  }

  // ---- The five transitions ----

  /** `c` becomes `c1` while the contract logs `e`. */
  predicate Transition(id: ChannelId, c: Channel, c1: Channel, e: Event) {
    && e.id == id
    && match e
       case ChannelOpened(_, client, node, channelNonce, deposit) =>
         && c.status == Absent && id == Derived(client, node, channelNonce)
         && c1 == c.(client := client, node := node, deposit := deposit, openedAt := c1.openedAt, status := Open)
       case ChannelToppedUp(_, amount, newDeposit) =>
         c.status == Open && newDeposit == c.deposit + amount && c1 == c.(deposit := newDeposit)
       case ChannelChallenged(_, nonce, cumOwed, deadline) =>
         && (c.status == Open || (c.status == Challenged && nonce > c.latestNonce && deadline == c.challengeDeadline))
         && c1 == c.(latestNonce := nonce, latestCumOwed := cumOwed, challengeDeadline := deadline,
                     status := Challenged)
       case ChannelClosed(_, finalNonce, paid, refunded) =>
         && (c.status == Open || c.status == Challenged) && finalNonce >= c.latestNonce
         && paid == Min(c1.latestCumOwed, c.deposit) && paid + refunded == c.deposit
         && c1 == c.(latestNonce := finalNonce, latestCumOwed := c1.latestCumOwed, deposit := 0, status := Closed)
       case ChannelReclaimed(_, amount) =>
         c.status == Open && amount == c.deposit && c1 == c.(deposit := 0, status := Closed)
  }

  lemma TransitionRecord(id: ChannelId, c: Channel, c1: Channel, t: Tally, e: Event)
    requires RecordInv(id, c, t) && Transition(id, c, c1, e)
    ensures RecordInv(id, c1, Count(t, e)) && EventInv(c1, Count(t, e), e)
  {
  }

  lemma TransitionOldEvent(id: ChannelId, c: Channel, c1: Channel, t: Tally, e: Event, earlier: Event)
    requires RecordInv(id, c, t) && Transition(id, c, c1, e) && EventInv(c, t, earlier)
    ensures EventInv(c1, Count(t, e), earlier)
  {
  }

  lemma EventsKeep(log: seq<Event>, id: ChannelId, c: Channel, c1: Channel, t: Tally, e: Event)
    requires RecordInv(id, c, t) && EventsInv(log, id, c, t) && Transition(id, c, c1, e)
    ensures EventsInv(log + [e], id, c1, Count(t, e))
  {
    TransitionRecord(id, c, c1, t, e);
    forall x | x in log + [e] && x.id == id ensures EventInv(c1, Count(t, e), x) {
      if x in log { TransitionOldEvent(id, c, c1, t, e, x); }
    }
  }

  lemma OrderKeeps(log: seq<Event>, id: ChannelId, c: Channel, c1: Channel, t: Tally, e: Event)
    requires RecordInv(id, c, t) && EventsInv(log, id, c, t) && Transition(id, c, c1, e)
    requires Ordered(log, id) && Exclusive(log, id)
    ensures Ordered(log + [e], id) && Exclusive(log + [e], id)
  {
    var log1 := log + [e];
    forall i, j | 0 <= i < j < |log1| && IsChallenge(log1[i], id) && IsChallenge(log1[j], id)
      ensures log1[i].nonce < log1[j].nonce
    {
      assert log1[i] == log[i] && log[i] in log && EventInv(c, t, log[i]);
    }
    forall x, y | x in log1 && y in log1 && x.ChannelReclaimed? && x.id == id ensures !IsChallenge(y, id) {
      assert x in log ==> EventInv(c, t, x);
      assert y in log && y.id == id ==> EventInv(c, t, y);
    }
  }

  lemma TransitionKeeps(s: ChState, id: ChannelId, c1: Channel, b: Balances, e: Event)
    requires IdInv(s, id) && Transition(id, ChannelAt(s.channels, id), c1, e)
    ensures IdInv(Put(s, id, c1, b, e), id)
  {
    var c, t := ChannelAt(s.channels, id), TallyOf(s.log, id);
    TallyAppend(s.log, e, id);
    TransitionRecord(id, c, c1, t, e);
    EventsKeep(s.log, id, c, c1, t, e);
    OrderKeeps(s.log, id, c, c1, t, e);
  }

  lemma OthersKeep(s: ChState, id: ChannelId, c1: Channel, b: Balances, e: Event, other: ChannelId)
    requires e.id == id != other && IdInv(s, other)
    ensures IdInv(Put(s, id, c1, b, e), other)
  {
    TallyAppend(s.log, e, other);
  }

  // ---- Every successful call is a transition ----

  ghost function Deposits(channels: Channels): map<ChannelId, nat> { map id | id in channels :: channels[id].deposit }

  lemma DepositsUpdate(channels: Channels, id: ChannelId, c: Channel)
    ensures Sum(Deposits(channels[id := c])) == Sum(Deposits(channels)) - ChannelAt(channels, id).deposit + c.deposit
    ensures ChannelAt(channels, id).deposit <= Sum(Deposits(channels))
  {
    assert Deposits(channels[id := c]) == Deposits(channels)[id := c.deposit];
    SumUpdate(Deposits(channels), id, c.deposit);
  }

  /** The contract's balance beyond what it owes back to its channels. */
  ghost function Surplus(cfg: Config, s: ChState): int { Balance(s.balances, cfg.self) - Sum(Deposits(s.channels)) }

  /** One step of one channel that moves exactly the value it books, out of nothing and into nothing. */
  ghost predicate Moves(cfg: Config, s: ChState, s1: ChState, sender: Address, id: ChannelId, e: Event) {
    var c1 := ChannelAt(s1.channels, id);
    && s1 == Put(s, id, c1, s1.balances, e)
    && Transition(id, ChannelAt(s.channels, id), c1, e)
    && Sum(s1.balances) == Sum(s.balances)
    && Surplus(cfg, s1) == Surplus(cfg, s)
    && forall x :: x != cfg.self && x != sender && x != c1.client && x != c1.node
                   ==> Balance(s1.balances, x) == Balance(s.balances, x)
  }

  lemma OpenMoves(cfg: Config, s: ChState, nodeActive: bool, now: nat, sender: Address, node: Address, n: nat,
                  deposit: nat)
    requires sender != cfg.self && IdInv(s, Derived(sender, node, n))
    requires OpenChannel(cfg, s, nodeActive, now, sender, node, n, deposit).Success?
    ensures Moves(cfg, s, OpenChannel(cfg, s, nodeActive, now, sender, node, n, deposit).value,
                  sender, Derived(sender, node, n), ChannelOpened(Derived(sender, node, n), sender, node, n, deposit))
  {
    var id := Derived(sender, node, n);
    var s1 := OpenChannel(cfg, s, nodeActive, now, sender, node, n, deposit).value;
    DepositsUpdate(s.channels, id, ChannelAt(s1.channels, id));
    MoveConserves(s.balances, sender, cfg.self, deposit);
  }

  lemma TopUpMoves(cfg: Config, s: ChState, sender: Address, id: ChannelId, amount: nat)
    requires sender != cfg.self && TopUp(cfg, s, sender, id, amount).Success?
    ensures Moves(cfg, s, TopUp(cfg, s, sender, id, amount).value,
                  sender, id, ChannelToppedUp(id, amount, ChannelAt(s.channels, id).deposit + amount))
  {
    var s1 := TopUp(cfg, s, sender, id, amount).value;
    DepositsUpdate(s.channels, id, ChannelAt(s1.channels, id));
    MoveConserves(s.balances, sender, cfg.self, amount);
  }

  lemma ChallengeMoves(cfg: Config, s: ChState, now: nat, sender: Address, u: Update, clientSig: Signature,
                       nodeSig: Signature)
    ensures var r := ChallengeClose(cfg, s, now, u, clientSig, nodeSig);
            r.Success? ==> Moves(cfg, s, r.value, sender, u.id,
              ChannelChallenged(u.id, u.nonce, u.cumOwed, ChannelAt(r.value.channels, u.id).challengeDeadline))
    ensures var r := SubmitChallenge(s, now, u, clientSig, nodeSig);
            r.Success? ==> Moves(cfg, s, r.value, sender, u.id,
              ChannelChallenged(u.id, u.nonce, u.cumOwed, ChannelAt(r.value.channels, u.id).challengeDeadline))
  {
    var r1, r2 := ChallengeClose(cfg, s, now, u, clientSig, nodeSig), SubmitChallenge(s, now, u, clientSig, nodeSig);
    if r1.Success? { DepositsUpdate(s.channels, u.id, ChannelAt(r1.value.channels, u.id)); }
    if r2.Success? { DepositsUpdate(s.channels, u.id, ChannelAt(r2.value.channels, u.id)); }
  }

  /** `_settle` on a record whose nonce and total the caller may just have raised. */
  lemma SettleMoves(cfg: Config, s: ChState, sender: Address, id: ChannelId, nonce: nat, cumOwed: nat)
    requires var c := ChannelAt(s.channels, id);
             && (c.status == Open || c.status == Challenged) && nonce >= c.latestNonce
             && c.client != cfg.self && c.node != cfg.self
    requires Settle(cfg, s, id, ChannelAt(s.channels, id).(latestNonce := nonce, latestCumOwed := cumOwed)).Success?
    ensures var c := ChannelAt(s.channels, id).(latestNonce := nonce, latestCumOwed := cumOwed);
            Moves(cfg, s, Settle(cfg, s, id, c).value, sender, id,
                  ChannelClosed(id, nonce, PaidOf(c), c.deposit - PaidOf(c)))
  {
    var c := ChannelAt(s.channels, id).(latestNonce := nonce, latestCumOwed := cumOwed);
    var s1 := Settle(cfg, s, id, c).value;
    DepositsUpdate(s.channels, id, ChannelAt(s1.channels, id));
    var b1 := TransferIfPositive(s.balances, cfg.self, c.node, PaidOf(c)).value;
    PaidOut(s.balances, cfg.self, c.node, PaidOf(c));
    PaidOut(b1, cfg.self, c.client, c.deposit - PaidOf(c));
  }

  lemma PaidOut(b: Balances, from: Address, to: Address, amount: nat)
    requires from != to && TransferIfPositive(b, from, to, amount).Some?
    ensures var b1 := TransferIfPositive(b, from, to, amount).value;
            && Sum(b1) == Sum(b)
            && Balance(b1, from) == Balance(b, from) - amount
            && forall x :: x != from && x != to ==> Balance(b1, x) == Balance(b, x)
  {
    if amount > 0 { MoveConserves(b, from, to, amount); }
  }

  lemma ReclaimMoves(cfg: Config, s: ChState, now: nat, sender: Address, id: ChannelId)
    requires sender != cfg.self && Reclaim(cfg, s, now, sender, id).Success?
    ensures Moves(cfg, s, Reclaim(cfg, s, now, sender, id).value,
                  sender, id, ChannelReclaimed(id, ChannelAt(s.channels, id).deposit))
  {
    var s1 := Reclaim(cfg, s, now, sender, id).value;
    DepositsUpdate(s.channels, id, ChannelAt(s1.channels, id));
    var amount := ChannelAt(s.channels, id).deposit;
    if amount > 0 { MoveConserves(s.balances, cfg.self, sender, amount); }
  }

  /** While the deposits are covered, no payment out of the contract can fail. */
  lemma PaymentsSucceed(cfg: Config, s: ChState, id: ChannelId, c: Channel, now: nat, sender: Address)
    requires Surplus(cfg, s) >= 0 && c.deposit == ChannelAt(s.channels, id).deposit
    requires c.node != cfg.self
    ensures Settle(cfg, s, id, c).Success?
    ensures Reclaim(cfg, s, now, sender, id) != Failure(TransferFailed)
  {
    DepositsUpdate(s.channels, id, NO_CHANNEL);
  }
}
