/**
 * JobChannel: escrowed two-party payment channels, closed by the highest
 * co-signed cumulative state.
 *
 * As in Registry.dfy, each external function has a specification over values,
 * and the contract class is proved against it. The emitted events are part of
 * the state, so that statements about whole lifetimes can be read off the log.
 */
module ChannelSpec {
  import opened Base
  import opened Ledger

  /**
   * `channelIdOf` hashes (client, node, channelNonce); the hash is taken as
   * injective, so such an id is its preimage. Callers may pass any other 32
   * bytes, which then name no channel.
   */
  datatype ChannelId = Derived(client: Address, node: Address, channelNonce: nat) | Foreign(raw: nat)

  /** What both parties sign. */
  datatype Update = Update(id: ChannelId, nonce: nat, cumOwed: nat)

  /** A 65-byte signature: one made by a key over an update, or any other bytes. */
  datatype Signature = Genuine(signer: Address, update: Update) | Garbage(tag: nat)

  /** ECDSA recovery yields the signer on the signed message, and nobody's address otherwise. */
  datatype Recovered = Account(a: Address) | Nobody(tag: nat) {
    predicate Is(b: Address) { this == Account(b) }
  }

  function Recover(u: Update, sig: Signature): Recovered {
    match sig
    case Genuine(signer, signed) => if signed == u then Account(signer) else Nobody(0)
    case Garbage(tag) => Nobody(tag)
  }

  datatype Status = Absent | Open | Challenged | Closed

  datatype Channel = Channel(
    client: Address,
    node: Address,
    deposit: nat,
    latestCumOwed: nat,
    latestNonce: nat,
    challengeDeadline: nat,
    openedAt: nat,
    status: Status)

  const NO_CHANNEL := Channel(0, 0, 0, 0, 0, 0, 0, Absent)

  datatype Event =
    | ChannelOpened(id: ChannelId, client: Address, node: Address, channelNonce: nat, deposit: nat)
    | ChannelToppedUp(id: ChannelId, amount: nat, newDeposit: nat)
    | ChannelChallenged(id: ChannelId, nonce: nat, cumOwed: nat, deadline: nat)
    | ChannelClosed(id: ChannelId, finalNonce: nat, paid: nat, refunded: nat)
    | ChannelReclaimed(id: ChannelId, amount: nat)

  datatype Error =
    | ChannelExists | NodeNotActive | ChannelNotOpen | ChannelNotChallengeable | ChannelNotFinalizable
    | NotClient | StaleNonce | InvalidClientSig | InvalidNodeSig
    | ChallengeWindowOpen | ChallengeWindowClosed | ReclaimTooEarly
    | TransferFailed | Overflow

  type Channels = map<ChannelId, Channel>

  datatype ChState = ChState(channels: Channels, balances: Balances, log: seq<Event>)

  datatype Config = Config(self: Address, challengeWindow: nat, reclaimTimeout: nat)

  type Outcome = Result<ChState, Error>

  /** Solidity mappings are total: an absent key reads as the zero value. */
  function ChannelAt(channels: Channels, id: ChannelId): Channel {
    if id in channels then channels[id] else NO_CHANNEL
  }

  function Put(s: ChState, id: ChannelId, c: Channel, b: Balances, e: Event): ChState {
    ChState(s.channels[id := c], b, s.log + [e])
  }

  /** `uint64(block.timestamp)` truncates. */
  function Timestamp64(now: nat): nat { now % U64_LIMIT }

  // ---- Specifications of the external functions ----

  function OpenChannel(cfg: Config, s: ChState, nodeActive: bool, now: nat,
                       sender: Address, node: Address, channelNonce: nat, deposit: nat): Outcome {
    var id := Derived(sender, node, channelNonce);
    if ChannelAt(s.channels, id).status != Absent then Failure(ChannelExists)
    else if !nodeActive then Failure(NodeNotActive)
    else match Transfer(s.balances, sender, cfg.self, deposit)
      case None => Failure(TransferFailed)
      case Some(b) =>
        var c := ChannelAt(s.channels, id).(client := sender, node := node, deposit := deposit,
                                            openedAt := Timestamp64(now), status := Open);
        Success(Put(s, id, c, b, ChannelOpened(id, sender, node, channelNonce, deposit)))
  }

  function TopUp(cfg: Config, s: ChState, sender: Address, id: ChannelId, amount: nat): Outcome {
    var c := ChannelAt(s.channels, id);
    if c.status != Open then Failure(ChannelNotOpen)
    else match Transfer(s.balances, sender, cfg.self, amount)
      case None => Failure(TransferFailed)
      case Some(b) =>
        if c.deposit + amount >= U256_LIMIT then Failure(Overflow)
        else Success(Put(s, id, c.(deposit := c.deposit + amount), b,
                         ChannelToppedUp(id, amount, c.deposit + amount)))
  }

  function VerifySigs(u: Update, clientSig: Signature, nodeSig: Signature, c: Channel): Option<Error> {
    if !Recover(u, clientSig).Is(c.client) then Some(InvalidClientSig)
    else if !Recover(u, nodeSig).Is(c.node) then Some(InvalidNodeSig)
    else None
  }

  function PaidOf(c: Channel): nat { Min(c.latestCumOwed, c.deposit) }

  function Settle(cfg: Config, s: ChState, id: ChannelId, c: Channel): Outcome {
    var paid := PaidOf(c);
    var refund := c.deposit - paid;
    match TransferIfPositive(s.balances, cfg.self, c.node, paid)
    case None => Failure(TransferFailed)
    case Some(b1) =>
      match TransferIfPositive(b1, cfg.self, c.client, refund)
      case None => Failure(TransferFailed)
      case Some(b2) =>
        Success(Put(s, id, c.(status := Closed, deposit := 0), b2,
                    ChannelClosed(id, c.latestNonce, paid, refund)))
  }

  function CooperativeClose(cfg: Config, s: ChState, u: Update, clientSig: Signature, nodeSig: Signature): Outcome {
    var c := ChannelAt(s.channels, u.id);
    if c.status != Open && c.status != Challenged then Failure(ChannelNotOpen)
    else if u.nonce < c.latestNonce then Failure(StaleNonce)
    else match VerifySigs(u, clientSig, nodeSig, c)
      case Some(e) => Failure(e)
      case None => Settle(cfg, s, u.id, c.(latestNonce := u.nonce, latestCumOwed := u.cumOwed))
  }

  function ChallengeClose(cfg: Config, s: ChState, now: nat, u: Update,
                          clientSig: Signature, nodeSig: Signature): Outcome {
    var c := ChannelAt(s.channels, u.id);
    if c.status != Open then Failure(ChannelNotOpen)
    else match VerifySigs(u, clientSig, nodeSig, c)
      case Some(e) => Failure(e)
      case None =>
        var deadline := Timestamp64(now) + cfg.challengeWindow;
        if deadline >= U64_LIMIT then Failure(Overflow)
        else
          var c1 := c.(latestNonce := u.nonce, latestCumOwed := u.cumOwed,
                       challengeDeadline := deadline, status := Challenged);
          Success(Put(s, u.id, c1, s.balances, ChannelChallenged(u.id, u.nonce, u.cumOwed, deadline)))
  }

  function SubmitChallenge(s: ChState, now: nat, u: Update, clientSig: Signature, nodeSig: Signature): Outcome {
    var c := ChannelAt(s.channels, u.id);
    if c.status != Challenged then Failure(ChannelNotChallengeable)
    else if now >= c.challengeDeadline then Failure(ChallengeWindowClosed)
    else if u.nonce <= c.latestNonce then Failure(StaleNonce)
    else match VerifySigs(u, clientSig, nodeSig, c)
      case Some(e) => Failure(e)
      case None =>
        var c1 := c.(latestNonce := u.nonce, latestCumOwed := u.cumOwed);
        Success(Put(s, u.id, c1, s.balances, ChannelChallenged(u.id, u.nonce, u.cumOwed, c.challengeDeadline)))
  }

  function Finalize(cfg: Config, s: ChState, now: nat, id: ChannelId): Outcome {
    var c := ChannelAt(s.channels, id);
    if c.status != Challenged then Failure(ChannelNotFinalizable)
    else if now < c.challengeDeadline then Failure(ChallengeWindowOpen)
    else Settle(cfg, s, id, c)
  }

  function Reclaim(cfg: Config, s: ChState, now: nat, sender: Address, id: ChannelId): Outcome {
    var c := ChannelAt(s.channels, id);
    if c.status != Open then Failure(ChannelNotOpen)
    else if sender != c.client then Failure(NotClient)
    else if c.openedAt + cfg.reclaimTimeout >= U64_LIMIT then Failure(Overflow)
    else if now < c.openedAt + cfg.reclaimTimeout then Failure(ReclaimTooEarly)
    else match TransferIfPositive(s.balances, cfg.self, c.client, c.deposit)
      case None => Failure(TransferFailed)
      case Some(b) =>
        Success(Put(s, id, c.(deposit := 0, status := Closed), b, ChannelReclaimed(id, c.deposit)))
  }
}

/** The contract itself: storage updated in place, each call proved against its specification. */
module ChannelContract {
  import opened Base
  import opened Ledger
  import Spec = ChannelSpec
  import opened ChannelSpec

  /** What a call leaves behind: the specified state, or, on a revert, everything as it was. */
  predicate Did(before: ChState, after: ChState, error: Option<Error>, spec: Outcome) {
    match spec
    case Success(s) => error == None && after == s
    case Failure(e) => error == Some(e) && after == before
  }

  class JobChannel {
    const cfg: Config
    const usdc: Token
    var channels: Channels
    var log: seq<Event>

    function State(): ChState
      reads this, usdc
    {
      ChState(channels, usdc.balances, log)
    }

    constructor (cfg: Config, usdc: Token)
      ensures State() == ChState(map[], usdc.balances, [])
      ensures this.cfg == cfg && this.usdc == usdc
    {
      this.cfg, this.usdc, channels, log := cfg, usdc, map[], [];
    }

    method OpenChannel(nodeActive: bool, now: nat, sender: Address, node: Address, channelNonce: nat, deposit: nat)
      returns (error: Option<Error>)
      modifies this, usdc
      ensures Did(old(State()), State(), error,
                  Spec.OpenChannel(cfg, old(State()), nodeActive, now, sender, node, channelNonce, deposit))
    {
      var id := Derived(sender, node, channelNonce);
      var c := ChannelAt(channels, id);
      if c.status != Absent { return Some(ChannelExists); }
      if !nodeActive { return Some(NodeNotActive); }
      var ok := usdc.TransferFrom(sender, cfg.self, deposit);
      if !ok { return Some(TransferFailed); }
      c := c.(client := sender, node := node);
      c := c.(deposit := deposit);
      c := c.(openedAt := Timestamp64(now));
      channels := channels[id := c.(status := Open)];
      log := log + [ChannelOpened(id, sender, node, channelNonce, deposit)];
      error := None;
    }

    method TopUp(sender: Address, id: ChannelId, amount: nat) returns (error: Option<Error>)
      modifies this, usdc
      ensures Did(old(State()), State(), error,
                  Spec.TopUp(cfg, old(State()), sender, id, amount))
    {
      var c := ChannelAt(channels, id);
      if c.status != Open { return Some(ChannelNotOpen); }
      var balancesWas := usdc.balances;
      var ok := usdc.TransferFrom(sender, cfg.self, amount);
      if !ok { return Some(TransferFailed); }
      if c.deposit + amount >= U256_LIMIT {
        usdc.balances := balancesWas;  // the whole call reverts
        return Some(Overflow);
      }
      c := c.(deposit := c.deposit + amount);
      channels := channels[id := c];
      log := log + [ChannelToppedUp(id, amount, c.deposit)];
      error := None;
    }

    method CooperativeClose(u: Update, clientSig: Signature, nodeSig: Signature) returns (error: Option<Error>)
      modifies this, usdc
      ensures Did(old(State()), State(), error,
                  Spec.CooperativeClose(cfg, old(State()), u, clientSig, nodeSig))
    {
      var c := ChannelAt(channels, u.id);
      if c.status != Open && c.status != Challenged { return Some(ChannelNotOpen); }
      if u.nonce < c.latestNonce { return Some(StaleNonce); }
      var bad := VerifySigs(u, clientSig, nodeSig, c);
      if bad.Some? { return bad; }
      c := c.(latestNonce := u.nonce);
      c := c.(latestCumOwed := u.cumOwed);
      error := Settle(u.id, c);
    }

    method ChallengeClose(now: nat, u: Update, clientSig: Signature, nodeSig: Signature) returns (error: Option<Error>)
      modifies this
      ensures Did(old(State()), State(), error,
                  Spec.ChallengeClose(cfg, old(State()), now, u, clientSig, nodeSig))
    {
      var c := ChannelAt(channels, u.id);
      if c.status != Open { return Some(ChannelNotOpen); }
      var bad := VerifySigs(u, clientSig, nodeSig, c);
      if bad.Some? { return bad; }
      c := c.(latestNonce := u.nonce);
      c := c.(latestCumOwed := u.cumOwed);
      if Timestamp64(now) + cfg.challengeWindow >= U64_LIMIT { return Some(Overflow); }
      c := c.(challengeDeadline := Timestamp64(now) + cfg.challengeWindow);
      channels := channels[u.id := c.(status := Challenged)];
      log := log + [ChannelChallenged(u.id, u.nonce, u.cumOwed, c.challengeDeadline)];
      error := None;
    }

    method SubmitChallenge(now: nat, u: Update, clientSig: Signature, nodeSig: Signature) returns (error: Option<Error>)
      modifies this
      ensures Did(old(State()), State(), error,
                  Spec.SubmitChallenge(old(State()), now, u, clientSig, nodeSig))
    {
      var c := ChannelAt(channels, u.id);
      if c.status != Challenged { return Some(ChannelNotChallengeable); }
      if now >= c.challengeDeadline { return Some(ChallengeWindowClosed); }
      if u.nonce <= c.latestNonce { return Some(StaleNonce); }
      var bad := VerifySigs(u, clientSig, nodeSig, c);
      if bad.Some? { return bad; }
      c := c.(latestNonce := u.nonce);
      c := c.(latestCumOwed := u.cumOwed);
      channels := channels[u.id := c];
      log := log + [ChannelChallenged(u.id, u.nonce, u.cumOwed, c.challengeDeadline)];
      error := None;
    }

    method Finalize(now: nat, id: ChannelId) returns (error: Option<Error>)
      modifies this, usdc
      ensures Did(old(State()), State(), error,
                  Spec.Finalize(cfg, old(State()), now, id))
    {
      var c := ChannelAt(channels, id);
      if c.status != Challenged { return Some(ChannelNotFinalizable); }
      if now < c.challengeDeadline { return Some(ChallengeWindowOpen); }
      error := Settle(id, c);
    }

    method Reclaim(now: nat, sender: Address, id: ChannelId) returns (error: Option<Error>)
      modifies this, usdc
      ensures Did(old(State()), State(), error,
                  Spec.Reclaim(cfg, old(State()), now, sender, id))
    {
      var c := ChannelAt(channels, id);
      if c.status != Open { return Some(ChannelNotOpen); }
      if sender != c.client { return Some(NotClient); }
      if c.openedAt + cfg.reclaimTimeout >= U64_LIMIT { return Some(Overflow); }
      if now < c.openedAt + cfg.reclaimTimeout { return Some(ReclaimTooEarly); }
      var channelsWas := channels;
      var amount := c.deposit;
      c := c.(deposit := 0);
      channels := channels[id := c.(status := Closed)];
      if amount > 0 {
        var ok := usdc.TransferFrom(cfg.self, c.client, amount);
        if !ok {
          channels := channelsWas;  // the whole call reverts
          return Some(TransferFailed);
        }
      }
      log := log + [ChannelReclaimed(id, amount)];
      error := None;
    }

    /** `c` is the record as the caller has just updated it. */
    method Settle(id: ChannelId, c: Channel) returns (error: Option<Error>)
      modifies this, usdc
      ensures Did(old(State()), State(), error,
                  Spec.Settle(cfg, old(State()), id, c))
    {
      var channelsWas, balancesWas := channels, usdc.balances;
      var deposit, paid := c.deposit, c.latestCumOwed;
      if paid > deposit { paid := deposit; }
      var refund := deposit - paid;
      channels := channels[id := c.(status := Closed, deposit := 0)];
      var ok := true;
      if paid > 0 { ok := usdc.TransferFrom(cfg.self, c.node, paid); }
      if ok && refund > 0 { ok := usdc.TransferFrom(cfg.self, c.client, refund); }
      if !ok {
        channels, usdc.balances := channelsWas, balancesWas;  // the whole call reverts
        return Some(TransferFailed);
      }
      log := log + [ChannelClosed(id, c.latestNonce, paid, refund)];
      error := None;
    }
  }
}
