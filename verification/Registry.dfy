/**
 * NodeRegistry: a staking ledger whose active nodes are kept in an array with
 * a 1-based reverse index, so that removal swaps with the last element.
 *
 * Each external function has a specification over values (`RegState` and the
 * token balances); the class at the end updates its fields the way the
 * contract does and is proved against it.
 */
module RegistrySpec {
  import opened Base
  import opened Sums
  import opened Ledger

  datatype Backend = MockTee | Fhe | Mcp | Local

  /** What a node advertises: everything `register` and `update` write besides the stake. */
  datatype NodeInfo = NodeInfo(url: seq<byte>, ecdhPubkey: seq<byte>, backendBitmap: bv8,
                               maxTokens: nat, pricePer1k: Prices)

  /** `uint256[4]`, indexed by backend. */
  type Prices = p: seq<nat> | |p| == 4 witness [0, 0, 0, 0]

  datatype Node = Node(info: NodeInfo, stake: nat, active: bool)

  const NO_INFO := NodeInfo([], [], 0, 0, [0, 0, 0, 0])
  const NO_NODE := Node(NO_INFO, 0, false)

  datatype Error =
    | StakeBelowMin | AlreadyRegistered | NotRegistered | NotAuthorized | NotOwner
    | AmountExceedsStake | TransferFailed

  datatype Event =
    | Registered(node: Address, url: seq<byte>, ecdhPubkey: seq<byte>, backendBitmap: bv8, stake: nat)
    | Updated(node: Address, url: seq<byte>, backendBitmap: bv8, pricePer1k: Prices)
    | Unregistered(node: Address, returnedStake: nat)
    | Slashed(node: Address, recipient: Address, amount: nat)
    | EscrowSet(escrow: Address)
    | MinStakeSet(minStake: nat)

  datatype RegState = RegState(
    nodes: map<Address, Node>,
    nodeList: seq<Address>,
    listIndex: map<Address, nat>,
    escrow: Address,
    minStake: nat,
    log: seq<Event>)

  /** Solidity mappings are total: an absent key reads as the zero value. */
  function NodeAt(nodes: map<Address, Node>, a: Address): Node { if a in nodes then nodes[a] else NO_NODE }

  predicate IsActive(r: RegState, a: Address) { NodeAt(r.nodes, a).active }

  ghost function Stakes(r: RegState): map<Address, nat> { map a | a in r.nodes :: r.nodes[a].stake }

  // ---- Specifications of the external functions ----

  type Outcome = Result<(RegState, Balances), Error>

  function Emit(r: RegState, e: Event): RegState { r.(log := r.log + [e]) }

  function RegisteredEvent(a: Address, info: NodeInfo, stake: nat): Event {
    Registered(a, info.url, info.ecdhPubkey, info.backendBitmap, stake)
  }

  function AddToList(r: RegState, a: Address): RegState {
    if Lookup(r.listIndex, a) == 0 then
      r.(nodeList := r.nodeList + [a], listIndex := r.listIndex[a := |r.nodeList| + 1])
    else r
  }

  /** Swap-and-pop. An index past the end would be a Solidity panic; `ListInv` excludes it. */
  function RemoveFromList(r: RegState, a: Address): RegState {
    var idx := Lookup(r.listIndex, a);
    if idx == 0 || idx > |r.nodeList| then r else
      var lastIdx := |r.nodeList|;
      var last := r.nodeList[lastIdx - 1];
      var swapped := if idx == lastIdx then r
                     else r.(nodeList := r.nodeList[idx - 1 := last], listIndex := r.listIndex[last := idx]);
      swapped.(nodeList := swapped.nodeList[..lastIdx - 1], listIndex := swapped.listIndex - {a})
  }

  function Register(self: Address, r: RegState, b: Balances, sender: Address, info: NodeInfo, stake: nat): Outcome {
    if stake < r.minStake then Failure(StakeBelowMin)
    else if IsActive(r, sender) then Failure(AlreadyRegistered)
    else match Transfer(b, sender, self, stake)
      case None => Failure(TransferFailed)
      case Some(b1) =>
        var r1 := AddToList(r.(nodes := r.nodes[sender := Node(info, stake, true)]), sender);
        Success((Emit(r1, RegisteredEvent(sender, info, stake)), b1))
  }

  function Update(r: RegState, b: Balances, sender: Address, info: NodeInfo): Outcome {
    if !IsActive(r, sender) then Failure(NotRegistered)
    else
      var r1 := r.(nodes := r.nodes[sender := NodeAt(r.nodes, sender).(info := info)]);
      Success((Emit(r1, Updated(sender, info.url, info.backendBitmap, info.pricePer1k)), b))
  }

  function Unregister(self: Address, r: RegState, b: Balances, sender: Address): Outcome {
    var n := NodeAt(r.nodes, sender);
    if !n.active then Failure(NotRegistered)
    else match TransferIfPositive(b, self, sender, n.stake)
      case None => Failure(TransferFailed)
      case Some(b1) =>
        var r1 := r.(nodes := r.nodes[sender := n.(stake := 0, active := false)]);
        Success((Emit(RemoveFromList(r1, sender), Unregistered(sender, n.stake)), b1))
  }

  function Slash(self: Address, owner: Address, r: RegState, b: Balances,
                 sender: Address, a: Address, recipient: Address, amount: nat): Outcome
  {
    var n := NodeAt(r.nodes, a);
    if sender != r.escrow && sender != owner then Failure(NotAuthorized)
    else if !n.active then Failure(NotRegistered)
    else if amount > n.stake then Failure(AmountExceedsStake)
    else match TransferIfPositive(b, self, recipient, amount)
      case None => Failure(TransferFailed)
      case Some(b1) =>
        var left := n.stake - amount;
        var r1 := r.(nodes := r.nodes[a := n.(stake := left, active := left != 0)]);
        Success((Emit(if left == 0 then RemoveFromList(r1, a) else r1, Slashed(a, recipient, amount)), b1))
  }

  function SetEscrow(owner: Address, r: RegState, b: Balances, sender: Address, escrow: Address): Outcome {
    if sender != owner then Failure(NotOwner) else Success((Emit(r.(escrow := escrow), EscrowSet(escrow)), b))
  }

  function SetMinStake(owner: Address, r: RegState, b: Balances, sender: Address, minStake: nat): Outcome {
    if sender != owner then Failure(NotOwner) else Success((Emit(r.(minStake := minStake), MinStakeSet(minStake)), b))
  }

  // ---- The invariant ----

  /** The array and its 1-based index are inverse to each other. */
  ghost predicate ListInv(r: RegState) {
    && (forall i :: 0 <= i < |r.nodeList| ==> Lookup(r.listIndex, r.nodeList[i]) == i + 1)
    && (forall a :: Lookup(r.listIndex, a) != 0 ==> a in r.nodeList)
  }

  /** Listed means active, and an inactive node has nothing at stake. */
  ghost predicate StakeInv(r: RegState) {
    && (forall a :: IsActive(r, a) <==> Lookup(r.listIndex, a) != 0)
    && (forall a :: !IsActive(r, a) ==> NodeAt(r.nodes, a).stake == 0)
  }

  ghost predicate RegInv(r: RegState) { ListInv(r) && StakeInv(r) }

  lemma IndexInRange(r: RegState, a: Address)
    requires ListInv(r)
    ensures Lookup(r.listIndex, a) <= |r.nodeList|
    ensures Lookup(r.listIndex, a) != 0 ==> r.nodeList[Lookup(r.listIndex, a) - 1] == a
  {
    if Lookup(r.listIndex, a) != 0 {
      var i :| 0 <= i < |r.nodeList| && r.nodeList[i] == a;
    }
  }

  lemma AddToListInverse(r: RegState, a: Address)
    requires ListInv(r)
    ensures ListInv(AddToList(r, a))
    ensures forall x :: Lookup(AddToList(r, a).listIndex, x) != 0 <==> x == a || Lookup(r.listIndex, x) != 0
  {
    var r1 := AddToList(r, a);
    if Lookup(r.listIndex, a) == 0 {
      assert r1.nodeList[|r.nodeList|] == a;
      forall x | x in r.nodeList ensures x in r1.nodeList {}
    }
  }

  lemma RemoveFromListInverse(r: RegState, a: Address)
    requires ListInv(r)
    ensures ListInv(RemoveFromList(r, a))
    ensures forall x :: Lookup(RemoveFromList(r, a).listIndex, x) != 0 <==> x != a && Lookup(r.listIndex, x) != 0
  {
    IndexInRange(r, a);
    var idx, n, r1 := Lookup(r.listIndex, a), |r.nodeList|, RemoveFromList(r, a);
    if idx != 0 {
      var last := r.nodeList[n - 1];
      forall x
        ensures Lookup(r1.listIndex, x) == if x == a then 0 else if x == last then idx else Lookup(r.listIndex, x)
      {
      }
      forall x | Lookup(r1.listIndex, x) != 0 ensures x in r1.nodeList {
        IndexInRange(r, x);
        var i := Lookup(r.listIndex, x) - 1;
        assert r1.nodeList[if x == last then idx - 1 else i] == x;
      }
    }
  }

  lemma StakesUpdate(r: RegState, a: Address, n: Node)
    ensures Sum(Stakes(r.(nodes := r.nodes[a := n]))) == Sum(Stakes(r)) - NodeAt(r.nodes, a).stake + n.stake
    ensures NodeAt(r.nodes, a).stake <= Sum(Stakes(r))
  {
    assert Stakes(r.(nodes := r.nodes[a := n])) == Stakes(r)[a := n.stake];
    SumUpdate(Stakes(r), a, n.stake);
  }

  // ---- What every operation keeps ----

  /**
   * What one successful call does: it keeps the invariant, moves value without
   * creating any, and changes the contract's balance by exactly the change in
   * the total stake, plus whatever it pays back to the contract itself. Only the contract and
   * the one other `party` to the payment see their balances change.
   */
  ghost predicate Conserving(self: Address, party: Address, r: RegState, b: Balances,
                             r1: RegState, b1: Balances, returned: nat) {
    && RegInv(r1)
    && Sum(b1) == Sum(b)
    && Balance(b1, self) - Sum(Stakes(r1)) == Balance(b, self) - Sum(Stakes(r)) + returned
    && (forall x :: x != self && x != party ==> Balance(b1, x) == Balance(b, x))
    && (party != self ==> Balance(b1, party) - Balance(b, party) == Balance(b, self) - Balance(b1, self))
  }

  lemma RegisterKeeps(self: Address, r: RegState, b: Balances, sender: Address, info: NodeInfo, stake: nat)
    requires RegInv(r) && sender != self
    requires Register(self, r, b, sender, info, stake).Success?
    ensures var (r1, b1) := Register(self, r, b, sender, info, stake).value;
            && Conserving(self, sender, r, b, r1, b1, 0)
            && (forall a :: IsActive(r1, a) <==> a == sender || IsActive(r, a))
  {
    var n := Node(info, stake, true);
    var r0 := r.(nodes := r.nodes[sender := n]);
    StakesUpdate(r, sender, n);
    AddToListInverse(r0, sender);
    MoveConserves(b, sender, self, stake);
    assert Stakes(AddToList(r0, sender)) == Stakes(r0);
    EmitKeeps(AddToList(r0, sender), RegisteredEvent(sender, info, stake));
  }

  lemma EmitKeeps(r: RegState, e: Event)
    ensures var r1 := Emit(r, e);
            && (RegInv(r) ==> RegInv(r1)) && Stakes(r1) == Stakes(r)
            && (forall x :: IsActive(r1, x) <==> IsActive(r, x))
  {
  }

  /** Rewriting an active node's record, leaving it active. */
  lemma ReviseKeeps(r: RegState, a: Address, n: Node)
    requires RegInv(r) && IsActive(r, a) && n.active
    ensures var r1 := r.(nodes := r.nodes[a := n]);
            && RegInv(r1)
            && Sum(Stakes(r1)) == Sum(Stakes(r)) - NodeAt(r.nodes, a).stake + n.stake
            && (forall x :: IsActive(r1, x) <==> IsActive(r, x))
  {
    StakesUpdate(r, a, n);
  }

  /** Retiring a node: its record is emptied and it leaves the list. */
  lemma DeactivateKeeps(r: RegState, a: Address, n: Node)
    requires RegInv(r) && IsActive(r, a) && !n.active && n.stake == 0
    ensures var r1 := RemoveFromList(r.(nodes := r.nodes[a := n]), a);
            && RegInv(r1)
            && Sum(Stakes(r1)) == Sum(Stakes(r)) - NodeAt(r.nodes, a).stake
            && (forall x :: IsActive(r1, x) <==> x != a && IsActive(r, x))
  {
    var r0 := r.(nodes := r.nodes[a := n]);
    StakesUpdate(r, a, n);
    RemoveFromListInverse(r0, a);
    assert Stakes(RemoveFromList(r0, a)) == Stakes(r0);
  }

  /** Paying out what left the stakes. */
  lemma PaymentConserves(self: Address, party: Address, r: RegState, b: Balances, r1: RegState, amount: nat)
    requires RegInv(r1) && Sum(Stakes(r1)) == Sum(Stakes(r)) - amount
    requires TransferIfPositive(b, self, party, amount).Some?
    ensures Conserving(self, party, r, b, r1, TransferIfPositive(b, self, party, amount).value,
                       if party == self then amount else 0)
  {
    if amount > 0 { MoveConserves(b, self, party, amount); }
  }

  lemma UpdateKeeps(self: Address, r: RegState, b: Balances, sender: Address, info: NodeInfo)
    requires RegInv(r) && Update(r, b, sender, info).Success?
    ensures var (r1, b1) := Update(r, b, sender, info).value;
            && Conserving(self, sender, r, b, r1, b1, 0)
            && (forall a :: IsActive(r1, a) <==> IsActive(r, a))
  {
    var n := NodeAt(r.nodes, sender).(info := info);
    ReviseKeeps(r, sender, n);
    EmitKeeps(r.(nodes := r.nodes[sender := n]), Updated(sender, info.url, info.backendBitmap, info.pricePer1k));
  }

  lemma UnregisterKeeps(self: Address, r: RegState, b: Balances, sender: Address)
    requires RegInv(r) && sender != self && Unregister(self, r, b, sender).Success?
    ensures var (r1, b1) := Unregister(self, r, b, sender).value;
            && Conserving(self, sender, r, b, r1, b1, 0)
            && (forall a :: IsActive(r1, a) <==> a != sender && IsActive(r, a))
  {
    var n := NodeAt(r.nodes, sender);
    DeactivateKeeps(r, sender, n.(stake := 0, active := false));
    EmitKeeps(RemoveFromList(r.(nodes := r.nodes[sender := n.(stake := 0, active := false)]), sender),
              Unregistered(sender, n.stake));
    PaymentConserves(self, sender, r, b, Unregister(self, r, b, sender).value.0, n.stake);
  }

  lemma SlashKeeps(self: Address, owner: Address, r: RegState, b: Balances,
                   sender: Address, a: Address, recipient: Address, amount: nat)
    requires RegInv(r) && Slash(self, owner, r, b, sender, a, recipient, amount).Success?
    ensures var (r1, b1) := Slash(self, owner, r, b, sender, a, recipient, amount).value;
            && Conserving(self, recipient, r, b, r1, b1, if recipient == self then amount else 0)
            && (forall x :: IsActive(r1, x) ==> IsActive(r, x))
  {
    var n := NodeAt(r.nodes, a);
    var left := n.stake - amount;
    if left == 0 {
      DeactivateKeeps(r, a, n.(stake := 0, active := false));
      EmitKeeps(RemoveFromList(r.(nodes := r.nodes[a := n.(stake := 0, active := false)]), a),
                Slashed(a, recipient, amount));
    } else {
      ReviseKeeps(r, a, n.(stake := left, active := true));
      EmitKeeps(r.(nodes := r.nodes[a := n.(stake := left, active := true)]), Slashed(a, recipient, amount));
    }
    PaymentConserves(self, recipient, r, b, Slash(self, owner, r, b, sender, a, recipient, amount).value.0, amount);
  }

  /** With the stake total covered, neither `unregister` nor `slash` can fail to pay. */
  lemma StakePaymentsSucceed(self: Address, owner: Address, r: RegState, b: Balances,
                             sender: Address, a: Address, recipient: Address, amount: nat)
    requires RegInv(r) && Sum(Stakes(r)) <= Balance(b, self)
    ensures Unregister(self, r, b, sender) != Failure(TransferFailed)
    ensures Slash(self, owner, r, b, sender, a, recipient, amount) != Failure(TransferFailed)
  {
    StakesUpdate(r, sender, NO_NODE);
    StakesUpdate(r, a, NO_NODE);
  }

  /** In every state satisfying the invariant the list holds each active node exactly once. */
  lemma ListIsTheActiveSet(r: RegState)
    requires RegInv(r)
    ensures forall a :: a in r.nodeList <==> IsActive(r, a)
    ensures forall i, j :: 0 <= i < j < |r.nodeList| ==> r.nodeList[i] != r.nodeList[j]
  {
    forall a ensures a in r.nodeList <==> IsActive(r, a) {
      IndexInRange(r, a);
    }
    forall i, j | 0 <= i < j < |r.nodeList| ensures r.nodeList[i] != r.nodeList[j] {
      assert Lookup(r.listIndex, r.nodeList[i]) == i + 1 && Lookup(r.listIndex, r.nodeList[j]) == j + 1;
    }
  }

  // ---- The life of a stake, read off the log ----

  function StakedIn(e: Event, a: Address): nat { if e.Registered? && e.node == a then e.stake else 0 }

  function ReleasedIn(e: Event, a: Address): nat {
    match e
    case Unregistered(node, returned) => if node == a then returned else 0
    case Slashed(node, _, amount) => if node == a then amount else 0
    case _ => 0
  }

  function Staked(log: seq<Event>, a: Address): nat {
    if log == [] then 0 else Staked(log[..|log| - 1], a) + StakedIn(log[|log| - 1], a)
  }

  function Released(log: seq<Event>, a: Address): nat {
    if log == [] then 0 else Released(log[..|log| - 1], a) + ReleasedIn(log[|log| - 1], a)
  }

  /** All that a node ever staked is still at stake, was returned, or was slashed. */
  ghost predicate StakesAccounted(r: RegState) {
    forall a :: Staked(r.log, a) == NodeAt(r.nodes, a).stake + Released(r.log, a)
  }

  /** One event and the one record it is about. */
  lemma AccountedAfter(r: RegState, r1: RegState, a: Address, n: Node, e: Event)
    requires StakesAccounted(r) && r1.nodes == r.nodes[a := n] && r1.log == r.log + [e]
    requires n.stake - NodeAt(r.nodes, a).stake == StakedIn(e, a) - ReleasedIn(e, a)
    requires forall x :: x != a ==> StakedIn(e, x) == 0 && ReleasedIn(e, x) == 0
    ensures StakesAccounted(r1)
  {
    assert r1.log[..|r.log|] == r.log;
    forall x ensures Staked(r1.log, x) == NodeAt(r1.nodes, x).stake + Released(r1.log, x) {
      assert Staked(r.log, x) == NodeAt(r.nodes, x).stake + Released(r.log, x);
    }
  }

  lemma SettingAccounted(r: RegState, r1: RegState, e: Event)
    requires StakesAccounted(r) && r1.nodes == r.nodes && r1.log == r.log + [e] && (e.EscrowSet? || e.MinStakeSet?)
    ensures StakesAccounted(r1)
  {
    assert r1.log[..|r.log|] == r.log;
    forall x ensures Staked(r1.log, x) == NodeAt(r1.nodes, x).stake + Released(r1.log, x) {
      assert Staked(r.log, x) == NodeAt(r.nodes, x).stake + Released(r.log, x);
    }
  }

  lemma RegisterAccounted(self: Address, r: RegState, b: Balances, sender: Address, info: NodeInfo, stake: nat)
    requires RegInv(r) && StakesAccounted(r) && Register(self, r, b, sender, info, stake).Success?
    ensures StakesAccounted(Register(self, r, b, sender, info, stake).value.0)
  {
    AccountedAfter(r, Register(self, r, b, sender, info, stake).value.0, sender, Node(info, stake, true),
                   RegisteredEvent(sender, info, stake));
  }

  lemma UpdateAccounted(r: RegState, b: Balances, sender: Address, info: NodeInfo)
    requires StakesAccounted(r) && Update(r, b, sender, info).Success?
    ensures StakesAccounted(Update(r, b, sender, info).value.0)
  {
    AccountedAfter(r, Update(r, b, sender, info).value.0, sender, NodeAt(r.nodes, sender).(info := info),
                   Updated(sender, info.url, info.backendBitmap, info.pricePer1k));
  }

  lemma UnregisterAccounted(self: Address, r: RegState, b: Balances, sender: Address)
    requires StakesAccounted(r) && Unregister(self, r, b, sender).Success?
    ensures StakesAccounted(Unregister(self, r, b, sender).value.0)
  {
    var n := NodeAt(r.nodes, sender);
    AccountedAfter(r, Unregister(self, r, b, sender).value.0, sender, n.(stake := 0, active := false),
                   Unregistered(sender, n.stake));
  }

  lemma SlashAccounted(self: Address, owner: Address, r: RegState, b: Balances,
                       sender: Address, a: Address, recipient: Address, amount: nat)
    requires StakesAccounted(r) && Slash(self, owner, r, b, sender, a, recipient, amount).Success?
    ensures StakesAccounted(Slash(self, owner, r, b, sender, a, recipient, amount).value.0)
  {
    var n := NodeAt(r.nodes, a);
    var left := n.stake - amount;
    AccountedAfter(r, Slash(self, owner, r, b, sender, a, recipient, amount).value.0, a,
                   n.(stake := left, active := left != 0), Slashed(a, recipient, amount));
  }

  // ---- Views over the stored metadata ----

  function BackendIndex(k: Backend): (i: nat)
    ensures i < 4
  {
    match k case MockTee => 0 case Fhe => 1 case Mcp => 2 case Local => 3
  }

  function BackendBit(k: Backend): bv8 {
    match k case MockTee => 1 case Fhe => 2 case Mcp => 4 case Local => 8
  }

  predicate SupportsBackend(r: RegState, a: Address, k: Backend) {
    NodeAt(r.nodes, a).info.backendBitmap & BackendBit(k) != 0
  }

  function PriceFor(r: RegState, a: Address, k: Backend): nat {
    NodeAt(r.nodes, a).info.pricePer1k[BackendIndex(k)]
  }
}

/** The contract itself: fields updated in place, each call proved against its specification. */
module RegistryContract {
  import opened Base
  import opened Sums
  import opened Ledger
  import Spec = RegistrySpec
  import opened RegistrySpec

  class NodeRegistry {
    const self: Address
    const owner: Address
    const stakeToken: Token
    var nodes: map<Address, Node>
    var nodeList: seq<Address>
    var listIndex: map<Address, nat>
    var escrow: Address
    var minStake: nat
    var log: seq<Event>

    function State(): RegState
      reads this
    {
      RegState(nodes, nodeList, listIndex, escrow, minStake, log)
    }

    constructor (self: Address, owner: Address, stakeToken: Token, minStake: nat)
      ensures State() == RegState(map[], [], map[], 0, minStake, [MinStakeSet(minStake)])
      ensures RegInv(State())
      ensures this.self == self && this.owner == owner && this.stakeToken == stakeToken
    {
      this.self, this.owner, this.stakeToken := self, owner, stakeToken;
      nodes, nodeList, listIndex, escrow, this.minStake := map[], [], map[], 0, minStake;
      log := [MinStakeSet(minStake)];
    }

    method RemoveFromList(a: Address)
      requires ListInv(State())
      modifies this`nodeList, this`listIndex
      ensures State() == Spec.RemoveFromList(old(State()), a)
    {
      IndexInRange(State(), a);
      var idx := Lookup(listIndex, a);
      if idx == 0 { return; }
      var lastIdx := |nodeList|;
      if idx != lastIdx {
        var last := nodeList[lastIdx - 1];
        nodeList := nodeList[idx - 1 := last];
        listIndex := listIndex[last := idx];
      }
      nodeList := nodeList[..lastIdx - 1];
      listIndex := listIndex - {a};
    }

    method Register(sender: Address, info: NodeInfo, stake: nat) returns (error: Option<Error>)
      modifies this, stakeToken
      ensures match Spec.Register(self, old(State()), old(stakeToken.balances), sender, info, stake)
              case Success((r, b)) => error == None && State() == r && stakeToken.balances == b
              case Failure(e) => error == Some(e) && unchanged(this) && stakeToken.balances == old(stakeToken.balances)
    {
      if stake < minStake { return Some(StakeBelowMin); }
      if NodeAt(nodes, sender).active { return Some(AlreadyRegistered); }
      var ok := stakeToken.TransferFrom(sender, self, stake);
      if !ok { return Some(TransferFailed); }
      nodes := nodes[sender := Node(info, stake, true)];
      if Lookup(listIndex, sender) == 0 {
        nodeList := nodeList + [sender];
        listIndex := listIndex[sender := |nodeList|];
      }
      log := log + [Registered(sender, info.url, info.ecdhPubkey, info.backendBitmap, stake)];
      error := None;
    }

    method Update(sender: Address, info: NodeInfo) returns (error: Option<Error>)
      modifies this
      ensures match Spec.Update(old(State()), stakeToken.balances, sender, info)
              case Success((r, b)) => error == None && State() == r
              case Failure(e) => error == Some(e) && unchanged(this)
    {
      var n := NodeAt(nodes, sender);
      if !n.active { return Some(NotRegistered); }
      nodes := nodes[sender := n.(info := info)];
      log := log + [Updated(sender, info.url, info.backendBitmap, info.pricePer1k)];
      error := None;
    }

    method SetEscrow(sender: Address, escrow: Address) returns (error: Option<Error>)
      modifies this
      ensures match Spec.SetEscrow(owner, old(State()), stakeToken.balances, sender, escrow)
              case Success((r, b)) => error == None && State() == r
              case Failure(e) => error == Some(e) && unchanged(this)
    {
      if sender != owner { return Some(NotOwner); }
      this.escrow := escrow;
      log := log + [EscrowSet(escrow)];
      error := None;
    }

    method SetMinStake(sender: Address, minStake: nat) returns (error: Option<Error>)
      modifies this
      ensures match Spec.SetMinStake(owner, old(State()), stakeToken.balances, sender, minStake)
              case Success((r, b)) => error == None && State() == r
              case Failure(e) => error == Some(e) && unchanged(this)
    {
      if sender != owner { return Some(NotOwner); }
      this.minStake := minStake;
      log := log + [MinStakeSet(minStake)];
      error := None;
    }

    method Unregister(sender: Address) returns (error: Option<Error>)
      requires ListInv(State())
      modifies this, stakeToken
      ensures match Spec.Unregister(self, old(State()), old(stakeToken.balances), sender)
              case Success((r, b)) => error == None && State() == r && stakeToken.balances == b
              case Failure(e) =>
                error == Some(e) && State() == old(State()) && stakeToken.balances == old(stakeToken.balances)
    {
      var n := NodeAt(nodes, sender);
      if !n.active { return Some(NotRegistered); }
      var nodesWas, listWas, indexWas := nodes, nodeList, listIndex;
      var returned := n.stake;
      nodes := nodes[sender := n.(stake := 0, active := false)];
      RemoveFromList(sender);
      if returned > 0 {
        var ok := stakeToken.TransferFrom(self, sender, returned);
        if !ok {
          nodes, nodeList, listIndex := nodesWas, listWas, indexWas;  // the whole call reverts
          return Some(TransferFailed);
        }
      }
      log := log + [Unregistered(sender, returned)];
      error := None;
    }

    method Slash(sender: Address, a: Address, recipient: Address, amount: nat) returns (error: Option<Error>)
      requires ListInv(State())
      modifies this, stakeToken
      ensures match Spec.Slash(self, owner, old(State()), old(stakeToken.balances), sender, a, recipient, amount)
              case Success((r, b)) => error == None && State() == r && stakeToken.balances == b
              case Failure(e) =>
                error == Some(e) && State() == old(State()) && stakeToken.balances == old(stakeToken.balances)
    {
      if sender != escrow && sender != owner { return Some(NotAuthorized); }
      var n := NodeAt(nodes, a);
      if !n.active { return Some(NotRegistered); }
      if amount > n.stake { return Some(AmountExceedsStake); }
      var nodesWas, listWas, indexWas := nodes, nodeList, listIndex;
      n := n.(stake := n.stake - amount);
      if n.stake == 0 {
        n := n.(active := false);
        nodes := nodes[a := n];
        RemoveFromList(a);
      } else {
        nodes := nodes[a := n];
      }
      if amount > 0 {
        var ok := stakeToken.TransferFrom(self, recipient, amount);
        if !ok {
          nodes, nodeList, listIndex := nodesWas, listWas, indexWas;  // the whole call reverts
          return Some(TransferFailed);
        }
      }
      log := log + [Slashed(a, recipient, amount)];
      error := None;
    }
  }
}
