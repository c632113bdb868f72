/**
 * How far a channel's debt can overshoot its deposit although the gate and the
 * charge are not atomic. `escrowed` is everything ever deposited in the
 * channel, `k` bounds the requests in flight and `cost` the price of one.
 */
module NodeDebt {
  import opened Base
  import opened NodeSpec

  /**
   * The account that makes the bound inductive. Tasks are in the order they
   * read the debt; the i-th can still be preceded by i charges besides its own,
   * on top of the larger of what it read and the highest debt the gate admits.
   */
  ghost predicate TaskInv(e: ChannelState, ts: seq<Task>, i: nat, escrowed: nat, k: nat, cost: nat)
    requires i < |ts|
  {
    && (ts[i].stage.Fetched? ==> ts[i].stage.deposit <= escrowed)
    && (ts[i].stage == Running ==> ts[i].readOwed < escrowed)
    && e.cumOwed + cost * (i + 1) <= Max(ts[i].readOwed, escrowed - 1) + k * cost
  }

  ghost predicate DebtInv(e: ChannelState, ts: seq<Task>, escrowed: nat, k: nat, cost: nat) {
    && (e.deposit.Some? ==> e.deposit.value <= escrowed)
    && |ts| <= k
    && (e.cumOwed == 0 || e.cumOwed <= escrowed - 1 + k * cost)
    && forall i :: 0 <= i < |ts| ==> TaskInv(e, ts, i, escrowed, k, cost)
  }

  lemma DebtStarts(k: nat, cost: nat)
    ensures DebtInv(FRESH, [], 0, k, cost)
  {
  }

  /** More escrow only loosens the account. */
  lemma EscrowGrows(e: ChannelState, ts: seq<Task>, escrowed: nat, more: nat, k: nat, cost: nat)
    requires DebtInv(e, ts, escrowed, k, cost) && escrowed <= more
    ensures DebtInv(e, ts, more, k, cost)
  {
    forall i | 0 <= i < |ts| ensures TaskInv(e, ts, i, more, k, cost) {
      assert TaskInv(e, ts, i, escrowed, k, cost);
    }
  }

  lemma BeginDebt(e: ChannelState, ts: seq<Task>, stage: Stage, escrowed: nat, k: nat, cost: nat)
    requires DebtInv(e, ts, escrowed, k, cost) && |ts| < k
    requires stage == Fetching || (stage == Running && e.cumOwed < escrowed)
    ensures DebtInv(e, ts + [Task(e.cumOwed, stage)], escrowed, k, cost)
  {
    var ts1 := ts + [Task(e.cumOwed, stage)];
    assert cost * |ts1| <= k * cost by { TimesMonotone(cost, |ts1|, k); }
    forall i | 0 <= i < |ts1| ensures TaskInv(e, ts1, i, escrowed, k, cost) {
      if i < |ts| { assert TaskInv(e, ts, i, escrowed, k, cost); }
    }
  }

  lemma RestageDebt(e: ChannelState, ts: seq<Task>, i: nat, stage: Stage, escrowed: nat, k: nat, cost: nat)
    requires DebtInv(e, ts, escrowed, k, cost) && i < |ts|
    requires (stage.Fetched? && stage.deposit <= escrowed) || (stage == Running && ts[i].readOwed < escrowed)
    ensures DebtInv(e, ts[i := ts[i].(stage := stage)], escrowed, k, cost)
  {
    var ts1 := ts[i := ts[i].(stage := stage)];
    forall j | 0 <= j < |ts1| ensures TaskInv(e, ts1, j, escrowed, k, cost) {
      assert TaskInv(e, ts, j, escrowed, k, cost);
    }
  }

  lemma LeaveDebt(e: ChannelState, ts: seq<Task>, i: nat, escrowed: nat, k: nat, cost: nat)
    requires DebtInv(e, ts, escrowed, k, cost) && i < |ts|
    ensures DebtInv(e, Without(ts, i), escrowed, k, cost)
  {
    var ts1 := Without(ts, i);
    forall j | 0 <= j < |ts1| ensures TaskInv(e, ts1, j, escrowed, k, cost) {
      assert TaskInv(e, ts, if j < i then j else j + 1, escrowed, k, cost);
      TimesMonotone(cost, j + 1, if j < i then j + 1 else j + 2);
    }
  }

  /**
   * A charge: tasks begun later have one task fewer before them, tasks begun
   * earlier are covered by the account of the task that leaves.
   */
  lemma ChargeDebt(e: ChannelState, e1: ChannelState, ts: seq<Task>, i: nat, charge: nat,
                   escrowed: nat, k: nat, cost: nat)
    requires DebtInv(e, ts, escrowed, k, cost) && i < |ts| && ts[i].stage == Running
    requires charge <= cost && e1.cumOwed <= e.cumOwed + charge && e1.deposit == e.deposit
    ensures DebtInv(e1, Without(ts, i), escrowed, k, cost)
  {
    var ts1 := Without(ts, i);
    assert TaskInv(e, ts, i, escrowed, k, cost);
    assert cost * (i + 1) == cost * i + cost;
    TimesMonotone(cost, 0, i);
    forall j | 0 <= j < |ts1| ensures TaskInv(e1, ts1, j, escrowed, k, cost) {
      if j < i {
        assert TaskInv(e, ts, j, escrowed, k, cost);
        TimesMonotone(cost, j + 1, i);
      } else {
        assert TaskInv(e, ts, j + 1, escrowed, k, cost);
        assert cost * (j + 2) == cost * (j + 1) + cost;
      }
    }
  }

  lemma TimesMonotone(cost: nat, a: nat, b: nat)
    requires a <= b
    ensures cost * a <= cost * b
  {
    assert cost * b == cost * a + cost * (b - a);
  }
}
