/**
 * Concrete runs, built one enabled action at a time: one node, one client, one
 * channel with a given deposit. They show that bounds are met and that
 * exceptions happen.
 */
module Scenarios {
  import opened Base
  import opened Sums
  import R = RegistrySpec
  import opened ChannelSpec
  import opened ChannelHistory
  import N = NodeSpec
  import opened Protocol
  import opened Safety
  import opened Theorems

  const NODE: Address := 10
  const CLIENT: Address := 20
  const STRANGER: Address := 30
  const ID := Derived(CLIENT, NODE, 0)
  const PARAMS := Params(Config(1, 3600, 86400), 2, 3, {NODE})

  /** The client owns the deposit and nobody owns anything else. */
  function Deployed(d: nat): World {
    World(ChState(map[], map[CLIENT := d], []),
          R.RegState(map[], [], map[], 0, 0, [R.MinStakeSet(0)]), map[], {}, 0)
  }

  lemma {:induction false} RunAppend(p: Params, w: World, acts: seq<Action>, more: seq<Action>)
    requires Legal(p, w, acts) && Legal(p, Run(p, w, acts), more)
    ensures Legal(p, w, acts + more) && Run(p, w, acts + more) == Run(p, Run(p, w, acts), more)
    decreases |acts|
  {
    if acts == [] {
      assert acts + more == more;
    } else {
      assert (acts + more)[1..] == acts[1..] + more;
      RunAppend(p, Step(p, w, acts[0]), acts[1..], more);
    }
  }

  lemma {:induction false} BoundedAppend(p: Params, w: World, acts: seq<Action>, a: Action, k: nat, cost: nat)
    requires BoundedRun(p, w, acts, k, cost) && Bounded(Run(p, w, acts), a, k, cost)
    ensures BoundedRun(p, w, acts + [a], k, cost)
    decreases |acts|
  {
    if acts == [] {
      assert acts + [a] == [a] && [a][1..] == [];
    } else {
      assert (acts + [a])[1..] == acts[1..] + [a];
      BoundedAppend(p, Step(p, w, acts[0]), acts[1..], a, k, cost);
    }
  }

  lemma RunOne(p: Params, w: World, a: Action)
    requires Enabled(p, w, a)
    ensures Legal(p, w, [a]) && Run(p, w, [a]) == Step(p, w, a)
  {
    assert [a][1..] == [];
    assert Legal(p, Step(p, w, a), []) && Run(p, Step(p, w, a), []) == Step(p, w, a);
  }

  /** A run of the scenario with deposit `d` and bounded concurrency. */
  ghost predicate Under(d: nat, k: nat, cost: nat, acts: seq<Action>, w: World) {
    Reaches(PARAMS, Deployed(d), acts, w) && BoundedRun(PARAMS, Deployed(d), acts, k, cost)
  }

  lemma Extend(d: nat, k: nat, cost: nat, acts: seq<Action>, w: World, a: Action)
    returns (acts1: seq<Action>, w1: World)
    requires Under(d, k, cost, acts, w) && Enabled(PARAMS, w, a) && Bounded(w, a, k, cost)
    ensures w1 == Step(PARAMS, w, a) && Under(d, k, cost, acts1, w1)
  {
    acts1, w1 := acts + [a], Step(PARAMS, w, a);
    RunOne(PARAMS, w, a);
    RunAppend(PARAMS, Deployed(d), acts, [a]);
    BoundedAppend(PARAMS, Deployed(d), acts, a, k, cost);
  }

  predicate OpenHere(w: World, d: nat) {
    var c := Chan(w, ID);
    c.status == Open && c.node == NODE && c.client == CLIENT && c.deposit == d && w.now == 0
  }

  /** An open channel with this much owed, and no request in flight. */
  predicate Standing(w: World, d: nat, nonce: nat, owed: nat) {
    && OpenHere(w, d)
    && Entry(w, NODE, ID).nonce == nonce && Entry(w, NODE, ID).cumOwed == owed
    && (Entry(w, NODE, ID).deposit == None || Entry(w, NODE, ID).deposit == Some(d))
    && Tasks(w, NODE, ID) == []
  }

  lemma OpenedWorld(d: nat, k: nat, cost: nat) returns (acts: seq<Action>, w: World)
    requires d < U128_LIMIT
    ensures Under(d, k, cost, acts, w) && Standing(w, d, 0, 0) && Entry(w, NODE, ID) == N.FRESH
  {
    SumUpdate(map[], CLIENT, d);
    assert map[][CLIENT := d] == Deployed(d).ch.balances;
    acts, w := [], Deployed(d);
    acts, w := Extend(d, k, cost, acts, w, OnRegistry(NODE, RegisterNode(R.NO_INFO, 0)));
    assert R.IsActive(w.reg, NODE);
    acts, w := Extend(d, k, cost, acts, w, OnChannel(CLIENT, CallOpen(NODE, 0, d)));
  }

  /** A request gets past the gate. */
  lemma Admitted(d: nat, k: nat, cost: nat, acts: seq<Action>, w: World, nonce: nat, owed: nat)
    returns (acts1: seq<Action>, w1: World)
    requires Under(d, k, cost, acts, w) && Standing(w, d, nonce, owed) && owed < d < U128_LIMIT && k > 0
    ensures Under(d, k, cost, acts1, w1) && w1.ch == w.ch && w1.now == w.now && w.signed == w1.signed
    ensures Entry(w1, NODE, ID) == Entry(w, NODE, ID).(deposit := Some(d))
    ensures Tasks(w1, NODE, ID) == [N.Task(owed, N.Running)]
  {
    acts1, w1 := Extend(d, k, cost, acts, w, OnNode(NODE, BeginRequest(ID)));
    if Entry(w, NODE, ID).deposit == None {
      acts1, w1 := Extend(d, k, cost, acts1, w1, OnNode(NODE, DepositAnswer(ID, 0)));
      acts1, w1 := Extend(d, k, cost, acts1, w1, OnNode(NODE, ResumeRequest(ID, 0)));
    }
  }

  /** One complete request, charged `c`. */
  lemma OneReceipt(d: nat, k: nat, cost: nat, acts: seq<Action>, w: World, nonce: nat, owed: nat, c: nat)
    returns (acts1: seq<Action>, w1: World)
    requires Under(d, k, cost, acts, w) && Standing(w, d, nonce, owed) && owed < d < U128_LIMIT && k > 0
    requires c <= cost && owed + c < U128_LIMIT
    ensures Under(d, k, cost, acts1, w1) && w1.ch == w.ch && w1.now == w.now && w.signed <= w1.signed
    ensures Standing(w1, d, Min(nonce + 1, MAX_NONCE), owed + c)
    ensures Entry(w1, NODE, ID).deposit == Some(d)
    ensures Genuine(NODE, Update(ID, Min(nonce + 1, MAX_NONCE), owed + c)) in w1.signed
  {
    acts1, w1 := Admitted(d, k, cost, acts, w, nonce, owed);
    acts1, w1 := Extend(d, k, cost, acts1, w1, OnNode(NODE, FinishRequest(ID, 0, c, None)));
  }

  /** The channel is closed by agreement on a state both parties have signed. */
  lemma CloseOn(d: nat, k: nat, cost: nat, acts: seq<Action>, w: World, u: Update)
    returns (acts1: seq<Action>, w1: World, e: Event)
    requires Under(d, k, cost, acts, w) && OpenHere(w, d) && u.id == ID && FitsOnChain(u)
    requires Genuine(CLIENT, u) in w.signed && Genuine(NODE, u) in w.signed
    ensures Under(d, k, cost, acts1, w1) && e in w1.ch.log && e.ChannelClosed? && e.id == ID
    ensures Chan(w1, ID).node == NODE && Chan(w1, ID).latestCumOwed == u.cumOwed && e.paid == Min(u.cumOwed, d)
  {
    ReachedSafety(PARAMS, Deployed(d), acts, w);
    var cc := CallCooperativeClose(u, Genuine(CLIENT, u), Genuine(NODE, u));
    PayoutSucceeds(PARAMS, w, CLIENT, cc);
    assert IdInv(w.ch, ID);
    acts1, w1 := Extend(d, k, cost, acts, w, OnChannel(CLIENT, cc));
    e := w1.ch.log[|w1.ch.log| - 1];
  }
}
