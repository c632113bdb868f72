/**
 * Totals on chain grow while nonces do. The node's nonce counter saturates at
 * u64::MAX and `cooperativeClose` accepts an equal nonce, so a recorded total
 * can still go down there; this is exactly when.
 */
module NonceCeiling {
  import opened Base
  import opened ChannelSpec
  import opened ChannelHistory
  import opened Protocol
  import opened Safety
  import opened Theorems
  import opened Scenarios

  // ---- What later receipts can carry ----

  lemma NodeStepGrows(p: Params, w: World, act: Action, a: Address, id: ChannelId)
    requires SafetyInv(p, w) && Enabled(p, w, act)
    ensures Entry(Step(p, w, act), a, id).cumOwed >= Entry(w, a, id).cumOwed
    ensures forall sig :: sig in Step(p, w, act).signed && HonestSig(p, sig)
                          && sig.signer == a && sig.update.id == id ==>
              sig in w.signed || sig.update.cumOwed >= Entry(w, a, id).cumOwed
  {
    if act.OnNode? && act.a == a { NodeEffect(w, a, act.ne); }
  }

  /** A receipt issued later never carries less than the node's total now. */
  lemma {:induction false} LaterReceiptsNotLower(p: Params, w: World, acts: seq<Action>, sig: Signature)
    requires SafetyInv(p, w) && Legal(p, w, acts) && HonestSig(p, sig) && sig in Run(p, w, acts).signed
    ensures sig in w.signed || sig.update.cumOwed >= Entry(w, sig.signer, sig.update.id).cumOwed
    decreases |acts|
  {
    if acts != [] {
      SafetyStep(p, w, acts[0]);
      LaterReceiptsNotLower(p, Step(p, w, acts[0]), acts[1..], sig);
      NodeStepGrows(p, w, acts[0], sig.signer, sig.update.id);
    }
  }

  lemma {:induction false} LogGrows(p: Params, w: World, acts: seq<Action>)
    requires SafetyInv(p, w) && Legal(p, w, acts)
    ensures w.ch.log <= Run(p, w, acts).ch.log
    decreases |acts|
  {
    if acts != [] {
      var w1 := Step(p, w, acts[0]);
      if acts[0].OnChannel? && ChannelOutcome(p, w, acts[0].sender, acts[0].cc).Success? {
        var id, e := ChannelCallMoves(p, w, acts[0].sender, acts[0].cc);
      }
      assert w.ch.log <= w1.ch.log;
      SafetyStep(p, w, acts[0]);
      LogGrows(p, w1, acts[1..]);
    }
  }

  // ---- When a total can drop ----

  predicate Drops(p: Params, w: World, acts: seq<Action>, id: ChannelId) {
    Legal(p, w, acts) && Chan(Run(p, w, acts), id).latestCumOwed < Chan(w, id).latestCumOwed
  }

  /** The node has signed a lower total than the recorded one at the last nonce. */
  predicate LowerAtCeiling(w: World, id: ChannelId, owed: nat) {
    owed < Chan(w, id).latestCumOwed && Genuine(Chan(w, id).node, Update(id, MAX_NONCE, owed)) in w.signed
  }

  /**
   * The exception to composed safety, exactly. From a reachable state some
   * continuation lowers the recorded total of an honest node's channel if and
   * only if the channel is challenged at nonce u64::MAX and the node has
   * already signed a lower total at that nonce.
   */
  lemma OwedCanDropIff(p: Params, w: World, id: ChannelId)
    requires SafetyInv(p, w) && Chan(w, id).node in p.honest && Chan(w, id).client !in p.honest
    ensures (exists acts :: Drops(p, w, acts, id))
            <==> Chan(w, id).status == Challenged && Chan(w, id).latestNonce == MAX_NONCE
                 && exists owed :: LowerAtCeiling(w, id, owed)
  {
    if acts :| Drops(p, w, acts, id) { DropNeedsCeiling(p, w, acts, id); }
    if Chan(w, id).status == Challenged && Chan(w, id).latestNonce == MAX_NONCE {
      forall owed | LowerAtCeiling(w, id, owed) ensures exists acts :: Drops(p, w, acts, id) {
        LowerTotalDrops(p, w, id, owed);
      }
    }
  }

  lemma DropNeedsCeiling(p: Params, w: World, acts: seq<Action>, id: ChannelId)
    requires SafetyInv(p, w) && Chan(w, id).node in p.honest && Drops(p, w, acts, id)
    ensures Chan(w, id).status == Challenged && Chan(w, id).latestNonce == MAX_NONCE
    ensures LowerAtCeiling(w, id, Chan(Run(p, w, acts), id).latestCumOwed)
  {
    var w1, c := Run(p, w, acts), Chan(w, id);
    SafetyRun(p, w, acts);
    LaterRun(p, w, acts, id);
    LogGrows(p, w, acts);
    assert IdInv(w.ch, id) && Backed(w, id) && IdInv(w1.ch, id) && Backed(w1, id);
    var f := ChannelChallenged(id, c.latestNonce, c.latestCumOwed, c.challengeDeadline);
    assert f in w.ch.log;
    AcceptedIsKept(p, w1, id, f);
    LatestIsCoSigned(w1, id, f);
    var low := Genuine(c.node, Update(id, Chan(w1, id).latestNonce, Chan(w1, id).latestCumOwed));
    LaterReceiptsNotLower(p, w, acts, low);
    assert HonestSig(p, Genuine(c.node, Update(id, c.latestNonce, c.latestCumOwed)));
  }

  /** The client signs the lower state and anyone closes with it. */
  lemma LowerTotalDrops(p: Params, w: World, id: ChannelId, owed: nat)
    requires SafetyInv(p, w) && Chan(w, id).node in p.honest && Chan(w, id).client !in p.honest
    requires Chan(w, id).status == Challenged && Chan(w, id).latestNonce == MAX_NONCE && LowerAtCeiling(w, id, owed)
    ensures exists acts :: Drops(p, w, acts, id)
  {
    var c, low := Chan(w, id), Update(id, MAX_NONCE, owed);
    var sign := SignUpdate(Genuine(c.client, low));
    var cc := CallCooperativeClose(low, Genuine(c.client, low), Genuine(c.node, low));
    var w1 := Step(p, w, sign);
    SafetyStep(p, w, sign);
    PayoutSucceeds(p, w1, c.client, cc);
    assert HonestSig(p, Genuine(c.node, low));
    RunTwo(p, w, sign, OnChannel(c.client, cc));
    assert Drops(p, w, [sign, OnChannel(c.client, cc)], id);
  }

  // ---- It happens ----

  /** The node issues this many receipts for nothing. */
  lemma {:induction false} ReachNonce(n: nat) returns (acts: seq<Action>, w: World)
    requires n <= MAX_NONCE
    ensures Under(2, 1, 1, acts, w) && Standing(w, 2, n, 0)
    ensures n > 0 ==> Genuine(NODE, Update(ID, n, 0)) in w.signed
  {
    if n == 0 {
      acts, w := OpenedWorld(2, 1, 1);
    } else {
      acts, w := ReachNonce(n - 1);
      acts, w := OneReceipt(2, 1, 1, acts, w, n - 1, 0, 0);
    }
  }

  /**
   * A run from deployment whose last action lowers the recorded total: 2^64 - 1
   * receipts for nothing, then one more that is charged; both of the last two
   * carry the nonce u64::MAX.
   */
  lemma OwedCanDropAtNonceCeiling() returns (acts: seq<Action>, w: World, last: Action)
    ensures Reaches(PARAMS, Deployed(2), acts, w) && Enabled(PARAMS, w, last) && Chan(w, ID).node in PARAMS.honest
    ensures Chan(Step(PARAMS, w, last), ID).latestCumOwed < Chan(w, ID).latestCumOwed
  {
    var low := Update(ID, MAX_NONCE, 0);
    acts, w := ChallengedAtCeiling();
    last := OnChannel(CLIENT, CallCooperativeClose(low, Genuine(CLIENT, low), Genuine(NODE, low)));
    ReachedSafety(PARAMS, Deployed(2), acts, w);
    PayoutSucceeds(PARAMS, w, CLIENT, last.cc);
  }

  /** Both of the last two receipts signed by the client, and a challenge with the higher one. */
  lemma ChallengedAtCeiling() returns (acts: seq<Action>, w: World)
    ensures Under(2, 1, 1, acts, w)
    ensures var c := Chan(w, ID);
            c.status == Challenged && c.node == NODE && c.client == CLIENT
            && c.latestNonce == MAX_NONCE && c.latestCumOwed == 1
    ensures var low := Update(ID, MAX_NONCE, 0); Genuine(CLIENT, low) in w.signed && Genuine(NODE, low) in w.signed
  {
    var high, low := Update(ID, MAX_NONCE, 1), Update(ID, MAX_NONCE, 0);
    acts, w := ReachNonce(MAX_NONCE);
    acts, w := OneReceipt(2, 1, 1, acts, w, MAX_NONCE, 0, 1);
    acts, w := Extend(2, 1, 1, acts, w, SignUpdate(Genuine(CLIENT, high)));
    acts, w := Extend(2, 1, 1, acts, w, SignUpdate(Genuine(CLIENT, low)));
    acts, w := Extend(2, 1, 1, acts, w,
                      OnChannel(CLIENT, CallChallengeClose(high, Genuine(CLIENT, high), Genuine(NODE, high))));
  }
}
