/**
 * The client's loop as part of the whole system: every run of it is a run of
 * the protocol, and what it leaves acknowledged is money the node can collect.
 */
module LoopOnChain {
  import opened Base
  import opened ChannelSpec
  import opened ChannelHistory
  import opened History
  import opened AgentLoop
  import N = NodeSpec
  import L = ClientLoop
  import opened Protocol
  import opened Safety
  import opened Theorems
  import S = Scenarios

  // ---- From one state to a later one ----

  predicate Leads(p: Params, w: World, acts: seq<Action>, w1: World) { Legal(p, w, acts) && Run(p, w, acts) == w1 }

  ghost predicate CanReach(p: Params, w: World, w1: World) { exists acts :: Leads(p, w, acts, w1) }

  lemma ReachSelf(p: Params, w: World)
    ensures CanReach(p, w, w)
  {
    assert Leads(p, w, [], w);
  }

  lemma ReachNext(p: Params, w: World, w1: World, a: Action)
    requires CanReach(p, w, w1) && Enabled(p, w1, a)
    ensures CanReach(p, w, Step(p, w1, a))
  {
    var acts :| Leads(p, w, acts, w1);
    S.RunOne(p, w1, a);
    S.RunAppend(p, w, acts, [a]);
    assert Leads(p, w, acts + [a], Step(p, w1, a));
  }

  lemma ReachTransitive(p: Params, w: World, w1: World, w2: World)
    requires CanReach(p, w, w1) && CanReach(p, w1, w2)
    ensures CanReach(p, w, w2)
  {
    var acts, more :| Leads(p, w, acts, w1) && Leads(p, w1, more, w2);
    S.RunAppend(p, w, acts, more);
    assert Leads(p, w, acts + more, w2);
  }

  // ---- A loop's place in the system ----

  /** An open channel between the loop's client and the node, with no request in flight. */
  predicate Ready(p: Params, w: World, a: Address, s: L.Setting) {
    var c := Chan(w, s.id);
    && a in p.honest && s.client !in p.honest
    && c.status == Open && c.node == a && c.client == s.client && c.deposit == s.deposit
    && Tasks(w, a, s.id) == []
  }

  /** A state both parties have signed. */
  predicate BothSigned(w: World, a: Address, client: Address, u: Update) {
    Genuine(a, u) in w.signed && Genuine(client, u) in w.signed
  }

  /** What the node has recorded, and what the next request carries, both parties have signed. */
  predicate Backing(w: World, a: Address, s: L.Setting, prevAck: Option<N.ClientAck>) {
    var e := Entry(w, a, s.id);
    && (e.lastAcked.Some? ==> BothSigned(w, a, s.client, e.lastAcked.value.update))
    && (e.clientAddress == None || e.clientAddress == Some(Account(s.client)))
    && (prevAck.Some? ==>
          var u := prevAck.value.update;
          u.id == s.id && prevAck == Some(L.SignedAck(s.client, u)) && BothSigned(w, a, s.client, u))
  }

  /** The state right after a receipt, before anyone else has moved. */
  ghost predicate RightAfter(p: Params, w: World, a: Address, s: L.Setting, billed: L.Billed, w1: World) {
    && CanReach(p, w, w1) && w1.ch == w.ch
    && Entry(w1, a, s.id) == billed.entry && Backing(w1, a, s, None)
  }

  lemma GateRuns(p: Params, w: World, a: Address, s: L.Setting) returns (w1: World)
    requires Ready(p, w, a, s) && L.Admission(Entry(w, a, s.id), s.deposit).1 == None
    ensures CanReach(p, w, w1) && w1.ch == w.ch && w1.signed == w.signed
    ensures Entry(w1, a, s.id) == L.Admission(Entry(w, a, s.id), s.deposit).0
    ensures |Tasks(w1, a, s.id)| == 1 && Tasks(w1, a, s.id)[0].stage == N.Running
  {
    ReachSelf(p, w);
    var begin := OnNode(a, BeginRequest(s.id));
    w1 := Step(p, w, begin);
    ReachNext(p, w, w, begin);
    if Entry(w, a, s.id).deposit == None {
      ReachNext(p, w, w1, OnNode(a, DepositAnswer(s.id, 0)));
      w1 := Step(p, w1, OnNode(a, DepositAnswer(s.id, 0)));
      ReachNext(p, w, w1, OnNode(a, ResumeRequest(s.id, 0)));
      w1 := Step(p, w1, OnNode(a, ResumeRequest(s.id, 0)));
    }
  }

  /** A request that gets its receipt is four actions of the protocol at most. */
  lemma SendRuns(p: Params, w: World, a: Address, s: L.Setting, side: L.Side, input: StepInput,
                 prevAck: Option<N.ClientAck>, t: L.Turn) returns (w1: World)
    requires Ready(p, w, a, s) && Backing(w, a, s, prevAck) && side.entry == Entry(w, a, s.id)
    requires L.Send(s, side, input, prevAck, t).1.Success?
    ensures CanReach(p, w, w1) && w1.ch == w.ch && w.signed <= w1.signed
    ensures Entry(w1, a, s.id) == L.Send(s, side, input, prevAck, t).0.entry
    ensures Genuine(a, N.UpdateOf(s.id, Entry(w1, a, s.id))) in w1.signed
    ensures Tasks(w1, a, s.id) == [] && Backing(w1, a, s, prevAck)
  {
    var cost := L.CostOf(s, t, L.Send(s, side, input, prevAck, t).1.value);
    var admitted := GateRuns(p, w, a, s);
    var finish := OnNode(a, FinishRequest(s.id, 0, cost, prevAck));
    ReachNext(p, w, admitted, finish);
    w1 := Step(p, admitted, finish);
  }

  /** The client signs the receipt, if it does. */
  lemma AckRuns(p: Params, w: World, a: Address, s: L.Setting, prevAck: Option<N.ClientAck>, t: L.Turn)
    returns (w1: World)
    requires Ready(p, w, a, s) && Backing(w, a, s, prevAck)
    requires Genuine(a, N.UpdateOf(s.id, Entry(w, a, s.id))) in w.signed
    ensures CanReach(p, w, w1) && Ready(p, w1, a, s) && w1.ch == w.ch && Entry(w1, a, s.id) == Entry(w, a, s.id)
    ensures Backing(w1, a, s, L.NextAck(s, t, N.UpdateOf(s.id, Entry(w, a, s.id)), prevAck))
  {
    w1 := w;
    ReachSelf(p, w);
    if t.signed {
      var sign := SignUpdate(Genuine(s.client, N.UpdateOf(s.id, Entry(w, a, s.id))));
      ReachNext(p, w, w, sign);
      w1 := Step(p, w, sign);
    }
  }

  /** What a round of the loop has to do with the request it sends. */
  lemma RoundSends(s: L.Setting, side: L.Side, input: StepInput, prevAck: Option<N.ClientAck>, t: L.Turn)
    ensures var (side1, sent) := L.Send(s, side, input, prevAck, t);
            match L.RoundOf(s, side, input, prevAck, t)
            case Stop(run) =>
              |run.log| == (if sent.Success? then 1 else 0) && (sent.Success? ==> run.log[0].entry == side1.entry)
            case Next(side2, billed, _, ack) =>
              sent.Success? && side2 == side1 && billed.entry == side1.entry
              && ack == L.NextAck(s, t, N.UpdateOf(s.id, side1.entry), prevAck)
  {
  }

  /** One round with a receipt: the state right after it, and the state the next round starts from. */
  lemma RoundRuns(p: Params, w: World, a: Address, s: L.Setting, side: L.Side, input: StepInput,
                  prevAck: Option<N.ClientAck>, t: L.Turn) returns (sent: World, w1: World)
    requires Ready(p, w, a, s) && Backing(w, a, s, prevAck) && side.entry == Entry(w, a, s.id)
    requires L.Send(s, side, input, prevAck, t).1.Success?
    ensures var e := L.Send(s, side, input, prevAck, t).0.entry;
            && (forall billed: L.Billed :: billed.entry == e ==> RightAfter(p, w, a, s, billed, sent))
            && CanReach(p, w, w1) && Ready(p, w1, a, s) && w1.ch == w.ch && Entry(w1, a, s.id) == e
            && Backing(w1, a, s, L.NextAck(s, t, N.UpdateOf(s.id, e), prevAck))
  {
    sent := SendRuns(p, w, a, s, side, input, prevAck, t);
    w1 := AckRuns(p, sent, a, s, prevAck, t);
    ReachTransitive(p, w, sent, w1);
  }

  /** One state for each receipt. */
  ghost predicate AllRightAfter(p: Params, w: World, a: Address, s: L.Setting, log: seq<L.Billed>, ws: seq<World>) {
    |ws| == |log| && forall i :: 0 <= i < |log| ==> RightAfter(p, w, a, s, log[i], ws[i])
  }

  lemma RightAfterFirst(p: Params, w: World, a: Address, s: L.Setting, billed: L.Billed, sent: World,
                        log: seq<L.Billed>, ws: seq<World>)
    requires RightAfter(p, w, a, s, billed, sent) && AllRightAfter(p, w, a, s, log, ws)
    ensures AllRightAfter(p, w, a, s, [billed] + log, [sent] + ws)
  {
  }

  lemma RightAfterLater(p: Params, w: World, a: Address, s: L.Setting, w1: World, log: seq<L.Billed>, ws: seq<World>)
    requires CanReach(p, w, w1) && w1.ch == w.ch && AllRightAfter(p, w1, a, s, log, ws)
    ensures AllRightAfter(p, w, a, s, log, ws)
  {
    forall i | 0 <= i < |log| ensures RightAfter(p, w, a, s, log[i], ws[i]) {
      assert RightAfter(p, w1, a, s, log[i], ws[i]);
      ReachTransitive(p, w, w1, ws[i]);
    }
  }

  /** Every loop is a run of the protocol: there is a reachable state right after each of its receipts. */
  lemma {:induction false} LoopRuns(p: Params, w: World, a: Address, s: L.Setting, side: L.Side, input: StepInput,
                                    prevAck: Option<N.ClientAck>, turns: seq<L.Turn>) returns (ws: seq<World>)
    requires Ready(p, w, a, s) && Backing(w, a, s, prevAck) && side.entry == Entry(w, a, s.id)
    ensures AllRightAfter(p, w, a, s, L.RunFrom(s, side, input, prevAck, turns).log, ws)
    decreases |turns|
  {
    ws := [];
    if turns != [] {
      RoundSends(s, side, input, prevAck, turns[0]);
      if L.Send(s, side, input, prevAck, turns[0]).1.Success? {
        var sent, w1 := RoundRuns(p, w, a, s, side, input, prevAck, turns[0]);
        ws := [sent];
        match L.RoundOf(s, side, input, prevAck, turns[0])
        case Stop(run) =>
          assert run.log == [run.log[0]];
        case Next(side1, billed, step, ack) =>
          var rest := LoopRuns(p, w1, a, s, side1, step, ack, turns[1..]);
          var log := L.RunFrom(s, side1, step, ack, turns[1..]).log;
          RightAfterLater(p, w, a, s, w1, log, rest);
          RightAfterFirst(p, w, a, s, billed, sent, log, rest);
          ws := [sent] + rest;
      }
    }
  }

  // ---- What it is worth ----

  /** With signatures that exist, anyone can close the channel now so that the node is paid at least this much. */
  ghost predicate CanCollect(p: Params, w: World, id: ChannelId, amount: nat) {
    exists u, cs, ns :: CollectsWith(p, w, id, amount, u, cs, ns)
  }

  ghost predicate CollectsWith(p: Params, w: World, id: ChannelId, amount: nat, u: Update, cs: Signature,
                               ns: Signature) {
    && Known(w, cs) && Known(w, ns) && u.id == id
    && amount <= Min(u.cumOwed, Chan(w, id).deposit)
    && forall sender :: ClosesWith(p, w, sender, u, cs, ns)
  }

  /** What the node has recorded of such a loop closes the channel for that much. */
  lemma RecordedIsCollectable(p: Params, w: World, a: Address, s: L.Setting, amount: nat)
    requires SafetyInv(p, w) && Chan(w, s.id).status == Open && Chan(w, s.id).node == a
    requires Chan(w, s.id).client == s.client && Backing(w, a, s, None)
    requires 0 < amount <= Min(L.AckedOwed(Entry(w, a, s.id)), Chan(w, s.id).deposit)
    ensures CanCollect(p, w, s.id, amount)
  {
    var ack := Entry(w, a, s.id).lastAcked.value;
    var u, ns := ack.update, Genuine(a, ack.update);
    assert AckInv(Entry(w, a, s.id), s.id) && IdInv(w.ch, s.id);
    forall sender ensures ClosesWith(p, w, sender, u, ack.clientSig.value, ns) {
      PayoutSucceeds(p, w, sender, CallCooperativeClose(u, ack.clientSig.value, ns));
    }
    assert CollectsWith(p, w, s.id, amount, u, ack.clientSig.value, ns);
  }

  /**
   * The loop, joined to the chain. Take any reachable state with an open
   * channel, nothing in flight and everything acknowledged, and any run of the
   * client's loop from there. The state right after each receipt is reachable,
   * and in it the node can have the channel closed at once and be paid all that
   * is owed but the cost since the last signed ack, as far as the deposit goes.
   */
  lemma LoopIsCollectable(p: Params, w: World, a: Address, s: L.Setting, messages: seq<Message>,
                          prompt: string, turns: seq<L.Turn>) returns (ws: seq<World>)
    requires SafetyInv(p, w) && Ready(p, w, a, s) && Backing(w, a, s, None)
    requires L.Owing(s, Entry(w, a, s.id), None, 0)
    ensures var log := L.RunFrom(s, L.Side(Entry(w, a, s.id), messages), Prompt(prompt), None, turns).log;
            && AllRightAfter(p, w, a, s, log, ws)
            && forall i :: 0 <= i < |log| ==> CollectableBut(p, ws[i], a, s, L.Debts(0, log)[i])
  {
    var side := L.Side(Entry(w, a, s.id), messages);
    var log := L.RunFrom(s, side, Prompt(prompt), None, turns).log;
    ws := LoopRuns(p, w, a, s, side, Prompt(prompt), None, turns);
    L.DebtOfRun(s, side, Prompt(prompt), None, turns, 0);
    forall i | 0 <= i < |log| ensures CollectableBut(p, ws[i], a, s, L.Debts(0, log)[i]) {
      assert RightAfter(p, w, a, s, log[i], ws[i]);
      var acts :| Leads(p, w, acts, ws[i]);
      SafetyRun(p, w, acts);
      assert L.DebtIs(log[i].entry, L.Debts(0, log)[i]);
      CollectAllBut(p, ws[i], a, s, L.Debts(0, log)[i]);
    }
  }

  /** All that is owed, except this much, can be collected now, as far as the deposit goes. */
  ghost predicate CollectableBut(p: Params, w: World, a: Address, s: L.Setting, open: nat) {
    forall amount: nat :: 0 < amount && amount + open <= Entry(w, a, s.id).cumOwed && amount <= s.deposit ==>
      CanCollect(p, w, s.id, amount)
  }

  lemma CollectAllBut(p: Params, w: World, a: Address, s: L.Setting, open: nat)
    requires SafetyInv(p, w) && Chan(w, s.id).status == Open && Chan(w, s.id).node == a
    requires Chan(w, s.id).client == s.client && Chan(w, s.id).deposit == s.deposit && Backing(w, a, s, None)
    requires L.DebtIs(Entry(w, a, s.id), open)
    ensures CollectableBut(p, w, a, s, open)
  {
    forall amount: nat | 0 < amount && amount + open <= Entry(w, a, s.id).cumOwed && amount <= s.deposit
      ensures CanCollect(p, w, s.id, amount)
    {
      RecordedIsCollectable(p, w, a, s, amount);
    }
  }

  /** With every ack signed, all but the last round trip's cost. */
  lemma AllButLastRoundTrip(p: Params, w: World, a: Address, s: L.Setting, messages: seq<Message>,
                            prompt: string, turns: seq<L.Turn>) returns (ws: seq<World>)
    requires SafetyInv(p, w) && Ready(p, w, a, s) && Backing(w, a, s, None)
    requires L.Owing(s, Entry(w, a, s.id), None, 0) && forall i :: 0 <= i < |turns| ==> turns[i].signed
    ensures var log := L.RunFrom(s, L.Side(Entry(w, a, s.id), messages), Prompt(prompt), None, turns).log;
            && AllRightAfter(p, w, a, s, log, ws)
            && forall i :: 0 <= i < |log| ==> CollectableBut(p, ws[i], a, s, log[i].cost)
  {
    var side := L.Side(Entry(w, a, s.id), messages);
    ws := LoopIsCollectable(p, w, a, s, messages, prompt, turns);
    L.LogSigned(s, side, Prompt(prompt), None, turns);
    L.DebtsWhenSigned(L.RunFrom(s, side, Prompt(prompt), None, turns).log);
  }
}
