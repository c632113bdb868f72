/**
 * The gate refuses requests once the debt has reached the deposit, but does
 * not cap it there. The overshoot bound is met by real runs, so the debt stays
 * within the escrow in all of them exactly when k * cost <= 1.
 */
module DepositCap {
  import opened Base
  import opened ChannelSpec
  import opened ChannelHistory
  import N = NodeSpec
  import opened Protocol
  import opened Safety
  import opened Theorems
  import opened Scenarios

  // ---- The bound is met ----

  /** Requests of one unit each, until `owed` is owed. */
  lemma {:induction false} PayUp(d: nat, k: nat, cost: nat, owed: nat) returns (acts: seq<Action>, w: World, nonce: nat)
    requires owed < d < U128_LIMIT && k > 0 && cost > 0
    ensures Under(d, k, cost, acts, w) && Standing(w, d, nonce, owed) && Entry(w, NODE, ID).deposit == Some(d)
    ensures nonce > 0
  {
    if owed == 0 {
      acts, w := OpenedWorld(d, k, cost);
      acts, w := OneReceipt(d, k, cost, acts, w, 0, 0, 0);
      nonce := 1;
    } else {
      acts, w, nonce := PayUp(d, k, cost, owed - 1);
      acts, w := OneReceipt(d, k, cost, acts, w, nonce, owed - 1, 1);
      nonce := Min(nonce + 1, MAX_NONCE);
    }
  }

  predicate AllRunning(ts: seq<N.Task>) { forall i :: 0 <= i < |ts| ==> ts[i].stage == N.Running }

  /** `n` requests past the gate, waiting for the backend. */
  predicate Busy(w: World, d: nat, owed: nat, n: nat) {
    && OpenHere(w, d)
    && Entry(w, NODE, ID).cumOwed == owed && Entry(w, NODE, ID).deposit == Some(d) && Entry(w, NODE, ID).nonce > 0
    && |Tasks(w, NODE, ID)| == n && AllRunning(Tasks(w, NODE, ID))
  }

  lemma {:induction false} BeginMany(d: nat, k: nat, cost: nat, n: nat) returns (acts: seq<Action>, w: World)
    requires 0 < d < U128_LIMIT && n <= k && k > 0 && cost > 0
    ensures Under(d, k, cost, acts, w) && Busy(w, d, d - 1, n)
  {
    if n == 0 {
      var nonce;
      acts, w, nonce := PayUp(d, k, cost, d - 1);
    } else {
      acts, w := BeginMany(d, k, cost, n - 1);
      acts, w := Extend(d, k, cost, acts, w, OnNode(NODE, BeginRequest(ID)));
    }
  }

  lemma {:induction false} FinishMany(d: nat, k: nat, cost: nat, n: nat) returns (acts: seq<Action>, w: World)
    requires 0 < d && n <= k && k > 0 && cost > 0 && d - 1 + k * cost < U128_LIMIT
    ensures Under(d, k, cost, acts, w) && Busy(w, d, d - 1 + n * cost, k - n)
  {
    TimesBound(n, k, cost);
    if n == 0 {
      acts, w := BeginMany(d, k, cost, k);
    } else {
      acts, w := FinishMany(d, k, cost, n - 1);
      var owed := d - 1 + (n - 1) * cost;
      acts, w := FinishFirst(d, k, cost, acts, w, owed, k - n + 1);
      assert owed + cost == d - 1 + n * cost;
    }
  }

  lemma TimesBound(n: nat, k: nat, cost: nat)
    requires n <= k
    ensures n * cost <= k * cost
  {
  }

  lemma FinishFirst(d: nat, k: nat, cost: nat, acts: seq<Action>, w: World, owed: nat, n: nat)
    returns (acts1: seq<Action>, w1: World)
    requires Under(d, k, cost, acts, w) && Busy(w, d, owed, n) && n > 0 && owed + cost < U128_LIMIT
    ensures Under(d, k, cost, acts1, w1) && Busy(w1, d, owed + cost, n - 1)
  {
    acts1, w1 := Extend(d, k, cost, acts, w, OnNode(NODE, FinishRequest(ID, 0, cost, None)));
    assert Tasks(w1, NODE, ID) == Tasks(w, NODE, ID)[1..];
  }

  /** For every deposit and every k and cost, some bounded run overshoots by all that `OvershootBound` allows. */
  lemma OvershootIsMet(d: nat, k: nat, cost: nat) returns (acts: seq<Action>, w: World)
    requires 0 < d && k > 0 && cost > 0 && d - 1 + k * cost < U128_LIMIT
    ensures Under(d, k, cost, acts, w) && OpenHere(w, d)
    ensures Genuine(NODE, N.UpdateOf(ID, Entry(w, NODE, ID))) in w.signed
    ensures Escrowed(w, ID) == d && Entry(w, NODE, ID).cumOwed == Escrowed(w, ID) - 1 + k * cost
  {
    acts, w := FinishMany(d, k, cost, k);
    LifetimeConservation(PARAMS, Deployed(d), acts, w, ID);
    ReachedSafety(PARAMS, Deployed(d), acts, w);
  }

  /** Closed in that state, the channel leaves exactly the bound unpaid. */
  lemma UnpaidIsMet(d: nat, k: nat, cost: nat) returns (acts: seq<Action>, w: World, e: Event)
    requires 0 < d && k > 0 && cost > 0 && d - 1 + k * cost < U128_LIMIT
    ensures Under(d, k, cost, acts, w) && e in w.ch.log && e.ChannelClosed? && e.id == ID
    ensures Chan(w, ID).node in PARAMS.honest && Chan(w, ID).latestCumOwed - e.paid == k * cost - 1
  {
    acts, w := OvershootIsMet(d, k, cost);
    var u := N.UpdateOf(ID, Entry(w, NODE, ID));
    acts, w := Extend(d, k, cost, acts, w, SignUpdate(Genuine(CLIENT, u)));
    ReachedSafety(PARAMS, Deployed(d), acts, w);
    acts, w, e := CloseOn(d, k, cost, acts, w, u);
  }

  // ---- When the deposit is a cap ----

  ghost predicate WithinEscrow(k: nat, cost: nat) {
    forall p, w0, acts, w, a, id :: Reaches(p, w0, acts, w) && BoundedRun(p, w0, acts, k, cost) ==>
      Entry(w, a, id).cumOwed <= Escrowed(w, id)
  }

  ghost predicate PaidInFull(k: nat, cost: nat) {
    forall p, w0, acts, w, e :: Reaches(p, w0, acts, w) && BoundedRun(p, w0, acts, k, cost)
                                && e in w.ch.log && e.ChannelClosed? && Chan(w, e.id).node in p.honest ==>
      e.paid == Chan(w, e.id).latestCumOwed
  }

  /**
   * A node that keeps at most `k` requests of a channel in flight, none charged
   * more than `cost`, never has more owed than is escrowed, whatever anyone
   * does, if and only if k * cost <= 1.
   */
  lemma DepositIsCapIff(k: nat, cost: nat)
    ensures WithinEscrow(k, cost) <==> k * cost <= 1
  {
    if k * cost <= 1 {
      forall p, w0, acts, w, a, id | Reaches(p, w0, acts, w) && BoundedRun(p, w0, acts, k, cost)
        ensures Entry(w, a, id).cumOwed <= Escrowed(w, id)
      {
        OvershootBound(p, w0, acts, w, k, cost, a, id);
      }
    } else {
      var k1, cost1 := SmallestExcess(k, cost);
      var acts, w := OvershootIsMet(1, k1, cost1);
      LooserBound(PARAMS, Deployed(1), acts, k1, cost1, k, cost);
      assert Entry(w, NODE, ID).cumOwed > Escrowed(w, ID);
    }
  }

  /** Under the same condition, and no other, every settled total is paid in full. */
  lemma SettledInFullIff(k: nat, cost: nat)
    ensures PaidInFull(k, cost) <==> k * cost <= 1
  {
    if k * cost <= 1 {
      forall p, w0, acts, w, e | Reaches(p, w0, acts, w) && BoundedRun(p, w0, acts, k, cost)
                                 && e in w.ch.log && e.ChannelClosed? && Chan(w, e.id).node in p.honest
        ensures e.paid == Chan(w, e.id).latestCumOwed
      {
        UnpaidBound(p, w0, acts, w, k, cost, e);
        HighestStateWins(p, w0, acts, w, e.id);
      }
    } else {
      var k1, cost1 := SmallestExcess(k, cost);
      var acts, w, e := UnpaidIsMet(1, k1, cost1);
      LooserBound(PARAMS, Deployed(1), acts, k1, cost1, k, cost);
      assert e.paid < Chan(w, e.id).latestCumOwed;
    }
  }

  /** Two requests of one unit, or one request of two. */
  lemma SmallestExcess(k: nat, cost: nat) returns (k1: nat, cost1: nat)
    requires k * cost > 1
    ensures 0 < k1 <= k && 0 < cost1 <= cost && k1 * cost1 == 2
  {
    if cost >= 2 { k1, cost1 := 1, 2; } else { k1, cost1 := 2, 1; }
  }

  lemma {:induction false} LooserBound(p: Params, w: World, acts: seq<Action>, k: nat, cost: nat, k1: nat, cost1: nat)
    requires BoundedRun(p, w, acts, k, cost) && k <= k1 && cost <= cost1
    ensures BoundedRun(p, w, acts, k1, cost1)
    decreases |acts|
  {
    if acts != [] { LooserBound(p, Step(p, w, acts[0]), acts[1..], k, cost, k1, cost1); }
  }
}
