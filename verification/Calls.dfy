/**
 * The contracts' calls, seen by their users: when each succeeds, who may change
 * what, and what every account is paid.
 */
module Calls {
  import opened Base
  import opened Ledger
  import R = RegistrySpec
  import opened ChannelSpec
  import opened ChannelHistory
  import opened Protocol
  import opened Safety
  import opened Theorems

  // ---- When a call succeeds ----

  lemma OpenSucceedsIff(p: Params, w: World, sender: Address, node: Address, n: nat, deposit: nat)
    ensures ChannelOutcome(p, w, sender, CallOpen(node, n, deposit)).Success?
            <==> Chan(w, Derived(sender, node, n)).status == Absent && R.IsActive(w.reg, node)
                 && Balance(w.ch.balances, sender) >= deposit
  {
  }

  lemma TopUpSucceedsIff(p: Params, w: World, sender: Address, id: ChannelId, amount: nat)
    requires SafetyInv(p, w) && sender !in Contracts(p)
    ensures ChannelOutcome(p, w, sender, CallTopUp(id, amount)).Success?
            <==> Chan(w, id).status == Open && Balance(w.ch.balances, sender) >= amount
  {
    TopUpFits(p, w, sender, id, amount);
  }

  /** A cooperative close needs a live channel, both signatures, and a nonce no lower than the recorded one. */
  lemma CloseSucceedsIff(p: Params, w: World, sender: Address, u: Update, cs: Signature, ns: Signature)
    requires SafetyInv(p, w)
    ensures var c := Chan(w, u.id);
            ChannelOutcome(p, w, sender, CallCooperativeClose(u, cs, ns)).Success?
            <==> (c.status == Open || c.status == Challenged) && u.nonce >= c.latestNonce
                 && cs == Genuine(c.client, u) && ns == Genuine(c.node, u)
  {
    PayoutSucceeds(p, w, sender, CallCooperativeClose(u, cs, ns));
  }

  lemma RegistryCallSucceedsIff(p: Params, w: World, sender: Address, rc: RegistryCall)
    requires SafetyInv(p, w)
    ensures RegistryOutcome(p, w, sender, rc).Success?
            <==> match rc
                 case RegisterNode(_, stake) =>
                   stake >= w.reg.minStake && !R.IsActive(w.reg, sender) && Balance(w.ch.balances, sender) >= stake
                 case UpdateNode(_) => R.IsActive(w.reg, sender)
                 case UnregisterNode => R.IsActive(w.reg, sender)
                 case SlashNode(a, _, amount) =>
                   (sender == w.reg.escrow || sender == p.owner) && R.IsActive(w.reg, a)
                   && amount <= R.NodeAt(w.reg.nodes, a).stake
                 case ChangeEscrow(_) => sender == p.owner
                 case ChangeMinStake(_) => sender == p.owner
  {
    var b := w.ch.balances;
    match rc
    case SlashNode(a, recipient, amount) =>
      R.StakePaymentsSucceed(p.registry, p.owner, w.reg, b, sender, a, recipient, amount);
    case UnregisterNode => R.StakePaymentsSucceed(p.registry, p.owner, w.reg, b, sender, sender, sender, 0);
    case _ =>
  }

  // ---- Who may change what in the registry ----

  /** The call of this action, if it is one that succeeds. */
  predicate Calls(p: Params, w: World, a: Action, sender: Address, rc: RegistryCall) {
    a == OnRegistry(sender, rc) && RegistryOutcome(p, w, sender, rc).Success?
  }

  /** A stake goes down only by its owner's leaving or by a slash of the escrow's or the owner's. */
  predicate MayLower(p: Params, w: World, a: Action, x: Address) {
    && a.OnRegistry? && Calls(p, w, a, a.sender, a.rc)
    && ((a.rc.UnregisterNode? && a.sender == x)
        || (a.rc.SlashNode? && a.rc.a == x && (a.sender == w.reg.escrow || a.sender == p.owner)))
  }

  /** A stake goes up, and a node becomes active, only by its own registering with at least the minimum. */
  predicate MayRaise(p: Params, w: World, a: Action, x: Address) {
    && a.OnRegistry? && Calls(p, w, a, x, a.rc) && a.rc.RegisterNode?
    && a.rc.stake >= w.reg.minStake
  }

  /** The records after a successful call, whatever happens to the list. */
  lemma RecordsAfter(p: Params, w: World, sender: Address, rc: RegistryCall)
    requires RegistryOutcome(p, w, sender, rc).Success?
    ensures var r, r1 := w.reg, RegistryOutcome(p, w, sender, rc).value.0;
            match rc
            case RegisterNode(info, stake) => r1.nodes == r.nodes[sender := R.Node(info, stake, true)]
            case UpdateNode(info) => r1.nodes == r.nodes[sender := R.NodeAt(r.nodes, sender).(info := info)]
            case UnregisterNode =>
              r1.nodes == r.nodes[sender := R.NodeAt(r.nodes, sender).(stake := 0, active := false)]
            case SlashNode(a, _, amount) =>
              var n := R.NodeAt(r.nodes, a);
              var left := n.stake - amount;
              left >= 0 && r1.nodes == r.nodes[a := n.(stake := left, active := left != 0)]
            case _ => r1.nodes == r.nodes
    ensures var r, r1 := w.reg, RegistryOutcome(p, w, sender, rc).value.0;
            (rc.ChangeEscrow? || r1.escrow == r.escrow) && (rc.ChangeMinStake? || r1.minStake == r.minStake)
  {
  }

  lemma RecordsUntouched(p: Params, w: World, a: Action)
    requires !a.OnRegistry? || !RegistryOutcome(p, w, a.sender, a.rc).Success?
    ensures Step(p, w, a).reg == w.reg
  {
  }

  lemma CallAuthority(p: Params, w: World, sender: Address, rc: RegistryCall, x: Address)
    requires R.RegInv(w.reg) && RegistryOutcome(p, w, sender, rc).Success?
    ensures var n, n1 := R.NodeAt(w.reg.nodes, x), R.NodeAt(RegistryOutcome(p, w, sender, rc).value.0.nodes, x);
            && (n1.stake < n.stake ==> MayLower(p, w, OnRegistry(sender, rc), x))
            && (n1.stake > n.stake || (n1.active && !n.active) ==>
                  MayRaise(p, w, OnRegistry(sender, rc), x) && n1.stake == rc.stake)
  {
    RecordsAfter(p, w, sender, rc);
    match rc
    case RegisterNode(_, _) =>
    case UpdateNode(_) =>
    case UnregisterNode =>
    case SlashNode(_, _, _) =>
    case _ =>
  }

  lemma SettingAuthority(p: Params, w: World, sender: Address, rc: RegistryCall)
    requires RegistryOutcome(p, w, sender, rc).Success?
    ensures var r1 := RegistryOutcome(p, w, sender, rc).value.0;
            && (r1.escrow != w.reg.escrow ==> sender == p.owner && rc == ChangeEscrow(r1.escrow))
            && (r1.minStake != w.reg.minStake ==> sender == p.owner && rc == ChangeMinStake(r1.minStake))
  {
    RecordsAfter(p, w, sender, rc);
  }

  lemma Authority(p: Params, w: World, a: Action, x: Address)
    requires SafetyInv(p, w) && Enabled(p, w, a)
    ensures var n, n1 := R.NodeAt(w.reg.nodes, x), R.NodeAt(Step(p, w, a).reg.nodes, x);
            && (n1.stake < n.stake ==> MayLower(p, w, a, x))
            && (n1.stake > n.stake || (n1.active && !n.active) ==> MayRaise(p, w, a, x) && n1.stake == a.rc.stake)
    ensures Step(p, w, a).reg.escrow != w.reg.escrow ==>
              Calls(p, w, a, p.owner, ChangeEscrow(Step(p, w, a).reg.escrow))
    ensures Step(p, w, a).reg.minStake != w.reg.minStake ==>
              Calls(p, w, a, p.owner, ChangeMinStake(Step(p, w, a).reg.minStake))
  {
    if a.OnRegistry? && RegistryOutcome(p, w, a.sender, a.rc).Success? {
      CallAuthority(p, w, a.sender, a.rc, x);
      SettingAuthority(p, w, a.sender, a.rc);
    } else {
      RecordsUntouched(p, w, a);
    }
  }

  /** What a node last said about itself, in `register` or `update`. */
  function LastInfo(p: Params, w: World, acts: seq<Action>, x: Address, info: R.NodeInfo): R.NodeInfo
    decreases |acts|
  {
    if acts == [] then info else LastInfo(p, Step(p, w, acts[0]), acts[1..], x, InfoAfter(p, w, acts[0], x, info))
  }

  function InfoAfter(p: Params, w: World, a: Action, x: Address, info: R.NodeInfo): R.NodeInfo {
    if a.OnRegistry? && Calls(p, w, a, x, a.rc) && (a.rc.RegisterNode? || a.rc.UpdateNode?) then a.rc.info else info
  }

  lemma InfoStep(p: Params, w: World, a: Action, x: Address)
    ensures R.NodeAt(Step(p, w, a).reg.nodes, x).info == InfoAfter(p, w, a, x, R.NodeAt(w.reg.nodes, x).info)
  {
    if a.OnRegistry? && RegistryOutcome(p, w, a.sender, a.rc).Success? {
      RecordsAfter(p, w, a.sender, a.rc);
    } else {
      RecordsUntouched(p, w, a);
    }
  }

  /** In any run the registry holds exactly what each node itself said last. */
  lemma {:induction false} InfoIsLastCalled(p: Params, w: World, acts: seq<Action>, x: Address)
    ensures R.NodeAt(Run(p, w, acts).reg.nodes, x).info == LastInfo(p, w, acts, x, R.NodeAt(w.reg.nodes, x).info)
    decreases |acts|
  {
    if acts != [] {
      InfoStep(p, w, acts[0], x);
      InfoIsLastCalled(p, Step(p, w, acts[0]), acts[1..], x);
    }
  }

  /** The address and the backends a node's events last told. */
  function Told(log: seq<R.Event>, x: Address): (seq<byte>, bv8) {
    if log == [] then (R.NO_INFO.url, R.NO_INFO.backendBitmap)
    else
      match log[|log| - 1]
      case Registered(node, url, _, bitmap, _) => if node == x then (url, bitmap) else Told(log[..|log| - 1], x)
      case Updated(node, url, bitmap, _) => if node == x then (url, bitmap) else Told(log[..|log| - 1], x)
      case _ => Told(log[..|log| - 1], x)
  }

  ghost predicate EventsTell(r: R.RegState) {
    forall x :: var info := R.NodeAt(r.nodes, x).info; Told(r.log, x) == (info.url, info.backendBitmap)
  }

  lemma ToldAfter(p: Params, w: World, sender: Address, rc: RegistryCall, x: Address)
    requires RegistryOutcome(p, w, sender, rc).Success?
    requires var info := R.NodeAt(w.reg.nodes, x).info; Told(w.reg.log, x) == (info.url, info.backendBitmap)
    ensures var r1 := RegistryOutcome(p, w, sender, rc).value.0;
            var info := R.NodeAt(r1.nodes, x).info; Told(r1.log, x) == (info.url, info.backendBitmap)
  {
    RecordsAfter(p, w, sender, rc);
    LogAfter(p, w, sender, rc);
  }

  lemma LogAfter(p: Params, w: World, sender: Address, rc: RegistryCall)
    requires RegistryOutcome(p, w, sender, rc).Success?
    ensures var log1 := RegistryOutcome(p, w, sender, rc).value.0.log;
            && |log1| == |w.reg.log| + 1 && log1[..|log1| - 1] == w.reg.log
            && match (rc, log1[|log1| - 1])
               case (RegisterNode(info, stake), Registered(node, url, key, bitmap, staked)) =>
                 (node, url, key, bitmap, staked) == (sender, info.url, info.ecdhPubkey, info.backendBitmap, stake)
               case (UpdateNode(info), Updated(node, url, bitmap, prices)) =>
                 (node, url, bitmap, prices) == (sender, info.url, info.backendBitmap, info.pricePer1k)
               case (UnregisterNode, Unregistered(node, _)) => node == sender
               case (SlashNode(a, recipient, amount), e) => e == R.Slashed(a, recipient, amount)
               case (ChangeEscrow(escrow), e) => e == R.EscrowSet(escrow)
               case (ChangeMinStake(minStake), e) => e == R.MinStakeSet(minStake)
               case _ => false
  {
  }

  lemma {:induction false} EventsTellRun(p: Params, w: World, acts: seq<Action>)
    requires EventsTell(w.reg)
    ensures EventsTell(Run(p, w, acts).reg)
    decreases |acts|
  {
    if acts != [] {
      var a, w1 := acts[0], Step(p, w, acts[0]);
      if a.OnRegistry? && RegistryOutcome(p, w, a.sender, a.rc).Success? {
        forall x
          ensures var info := R.NodeAt(w1.reg.nodes, x).info; Told(w1.reg.log, x) == (info.url, info.backendBitmap)
        {
          ToldAfter(p, w, a.sender, a.rc, x);
        }
      } else {
        RecordsUntouched(p, w, a);
      }
      EventsTellRun(p, w1, acts[1..]);
    }
  }

  /** In every run whoever follows the registry's events knows every node's address and backends. */
  lemma EventsTellAll(p: Params, w0: World, acts: seq<Action>, w: World)
    requires Reaches(p, w0, acts, w)
    ensures EventsTell(w.reg)
  {
    assert w0.reg.log[..0] == [];
    EventsTellRun(p, w0, acts);
  }

  // ---- What every account is paid ----

  function If(b: bool, amount: nat): int { if b then amount else 0 }

  /** What a channel event means for an account, given the channel's parties and who called. */
  function ChannelFlow(e: Event, c: Channel, sender: Address, x: Address): int {
    match e
    case ChannelOpened(_, client, _, _, deposit) => -If(x == client, deposit)
    case ChannelToppedUp(_, amount, _) => -If(x == sender, amount)
    case ChannelChallenged(_, _, _, _) => 0
    case ChannelClosed(_, _, paid, refunded) => If(x == c.node, paid) + If(x == c.client, refunded)
    case ChannelReclaimed(_, amount) => If(x == c.client, amount)
  }

  function RegistryFlow(e: R.Event, x: Address): int {
    match e
    case Registered(node, _, _, _, stake) => -If(x == node, stake)
    case Unregistered(node, returned) => If(x == node, returned)
    case Slashed(_, recipient, amount) => If(x == recipient, amount)
    case _ => 0
  }

  /** What an action brings an account, read off the event it logs. */
  function Flow(p: Params, w: World, a: Action, x: Address): int {
    var w1 := Step(p, w, a);
    match a
    case Pay(from, to, amount) =>
      if Balance(w.ch.balances, from) >= amount then If(x == to, amount) - If(x == from, amount) else 0
    case OnChannel(sender, _) =>
      if |w1.ch.log| > |w.ch.log| then
        var e := w1.ch.log[|w1.ch.log| - 1];
        ChannelFlow(e, Chan(w1, e.id), sender, x)
      else 0
    case OnRegistry(_, _) =>
      if |w1.reg.log| > |w.reg.log| then RegistryFlow(w1.reg.log[|w1.reg.log| - 1], x) else 0
    case _ => 0
  }

  lemma PaidFlow(b: Balances, from: Address, to: Address, amount: nat, x: Address)
    requires TransferIfPositive(b, from, to, amount).Some?
    ensures Balance(TransferIfPositive(b, from, to, amount).value, x)
         == Balance(b, x) - If(x == from, amount) + If(x == to, amount)
  {
  }

  lemma MovedFlow(b: Balances, from: Address, to: Address, amount: nat, x: Address)
    requires Balance(b, from) >= amount
    ensures Balance(Move(b, from, to, amount), x) == Balance(b, x) - If(x == from, amount) + If(x == to, amount)
  {
  }

  lemma SettleFlow(p: Params, s: ChState, id: ChannelId, c: Channel, x: Address)
    requires Settle(p.cfg, s, id, c).Success? && x != p.cfg.self
    ensures Balance(Settle(p.cfg, s, id, c).value.balances, x)
         == Balance(s.balances, x) + If(x == c.node, PaidOf(c)) + If(x == c.client, c.deposit - PaidOf(c))
  {
    PaidFlow(s.balances, p.cfg.self, c.node, PaidOf(c), x);
    var b := TransferIfPositive(s.balances, p.cfg.self, c.node, PaidOf(c)).value;
    PaidFlow(b, p.cfg.self, c.client, c.deposit - PaidOf(c), x);
  }

  lemma ChannelCallFlow(p: Params, w: World, sender: Address, cc: ChannelCall, x: Address)
    requires SafetyInv(p, w) && sender !in Contracts(p) && ChannelOutcome(p, w, sender, cc).Success?
    requires x !in Contracts(p)
    ensures var s1, e := ChannelOutcome(p, w, sender, cc).value, EventOf(p, w, sender, cc);
            Balance(s1.balances, x)
            == Balance(w.ch.balances, x) + ChannelFlow(e, ChannelAt(s1.channels, e.id), sender, x)
  {
    CallMoves(p, w, sender, cc);
    match cc
    case CallCooperativeClose(u, _, _) =>
      SettleFlow(p, w.ch, u.id, Chan(w, u.id).(latestNonce := u.nonce, latestCumOwed := u.cumOwed), x);
    case CallFinalize(id) => SettleFlow(p, w.ch, id, Chan(w, id), x);
    case CallOpen(_, _, deposit) => MovedFlow(w.ch.balances, sender, p.cfg.self, deposit, x);
    case CallTopUp(_, amount) => MovedFlow(w.ch.balances, sender, p.cfg.self, amount, x);
    case CallReclaim(id) => PaidFlow(w.ch.balances, p.cfg.self, Chan(w, id).client, Chan(w, id).deposit, x);
    case _ =>
  }

  lemma ChannelActionFlow(p: Params, w: World, sender: Address, cc: ChannelCall, x: Address)
    requires SafetyInv(p, w) && sender !in Contracts(p) && ChannelOutcome(p, w, sender, cc).Success?
    requires x !in Contracts(p)
    ensures var a := OnChannel(sender, cc);
            Balance(Step(p, w, a).ch.balances, x) == Balance(w.ch.balances, x) + Flow(p, w, a, x)
  {
    CallMoves(p, w, sender, cc);
    ChannelCallFlow(p, w, sender, cc, x);
  }

  lemma RegistryCallFlow(p: Params, w: World, sender: Address, rc: RegistryCall, x: Address)
    requires RegistryOutcome(p, w, sender, rc).Success? && x !in Contracts(p)
    ensures var (r1, b1) := RegistryOutcome(p, w, sender, rc).value;
            |r1.log| == |w.reg.log| + 1
            && Balance(b1, x) == Balance(w.ch.balances, x) + RegistryFlow(r1.log[|w.reg.log|], x)
  {
    match rc
    case UnregisterNode =>
      PaidFlow(w.ch.balances, p.registry, sender, R.NodeAt(w.reg.nodes, sender).stake, x);
    case SlashNode(_, recipient, amount) => PaidFlow(w.ch.balances, p.registry, recipient, amount, x);
    case _ =>
  }

  lemma FlowStep(p: Params, w: World, a: Action, x: Address)
    requires SafetyInv(p, w) && Enabled(p, w, a) && x !in Contracts(p)
    ensures Balance(Step(p, w, a).ch.balances, x) == Balance(w.ch.balances, x) + Flow(p, w, a, x)
  {
    match a
    case OnChannel(sender, cc) =>
      if ChannelOutcome(p, w, sender, cc).Success? { ChannelActionFlow(p, w, sender, cc, x); }
    case OnRegistry(sender, rc) =>
      if RegistryOutcome(p, w, sender, rc).Success? { RegistryCallFlow(p, w, sender, rc, x); }
    case Pay(from, to, amount) =>
      if Balance(w.ch.balances, from) >= amount { MovedFlow(w.ch.balances, from, to, amount, x); }
    case _ =>
  }

  function TotalFlow(p: Params, w: World, acts: seq<Action>, x: Address): int
    decreases |acts|
  {
    if acts == [] then 0 else Flow(p, w, acts[0], x) + TotalFlow(p, Step(p, w, acts[0]), acts[1..], x)
  }

  /**
   * Every account's money: in any run a user's balance changes by exactly what
   * the plain transfers and the logged events say it paid and was paid.
   */
  lemma {:induction false} BalancesAreFlows(p: Params, w: World, acts: seq<Action>, x: Address)
    requires SafetyInv(p, w) && Legal(p, w, acts) && x !in Contracts(p)
    ensures Balance(Run(p, w, acts).ch.balances, x) == Balance(w.ch.balances, x) + TotalFlow(p, w, acts, x)
    decreases |acts|
  {
    if acts != [] {
      FlowStep(p, w, acts[0], x);
      SafetyStep(p, w, acts[0]);
      BalancesAreFlows(p, Step(p, w, acts[0]), acts[1..], x);
    }
  }
}
