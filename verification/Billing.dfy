/** A channel's total at the node, read off the receipts of a run. */
module Billing {
  import opened Base
  import opened Metering
  import opened ChannelSpec
  import opened Protocol
  import opened Safety
  import opened Theorems

  /** What an action charges to the channel at this node. */
  function ChargedBy(w: World, act: Action, a: Address, id: ChannelId): seq<nat> {
    if act.OnNode? && act.a == a && act.ne.FinishRequest? && act.ne.id == id && NodeOutcome(w, a, act.ne).1.Some?
    then [act.ne.cost] else []
  }

  /** The costs of all receipts of a run, in order. */
  function Charged(p: Params, w: World, acts: seq<Action>, a: Address, id: ChannelId): seq<nat>
    decreases |acts|
  {
    if acts == [] then []
    else ChargedBy(w, acts[0], a, id) + Charged(p, Step(p, w, acts[0]), acts[1..], a, id)
  }

  lemma ChargedStep(p: Params, w: World, act: Action, a: Address, id: ChannelId)
    ensures Entry(Step(p, w, act), a, id).cumOwed == AccrueAll(Entry(w, a, id).cumOwed, ChargedBy(w, act, a, id))
  {
    if act.OnNode? && act.a == a {
      NodeEffect(w, a, act.ne);
      if ChargedBy(w, act, a, id) != [] {
        var owed, cost := Entry(w, a, id).cumOwed, act.ne.cost;
        assert AccrueAll(owed, [cost]) == AccrueAll(Accrue(owed, cost), [cost][1..]);
      }
    }
  }

  lemma {:induction false} AccrueAllPlus(owed: nat, a: seq<nat>, b: seq<nat>)
    ensures AccrueAll(owed, a + b) == AccrueAll(AccrueAll(owed, a), b)
    decreases |a|
  {
    if a == [] {
      assert a + b == b;
    } else {
      assert (a + b)[1..] == a[1..] + b;
      AccrueAllPlus(Accrue(owed, a[0]), a[1..], b);
    }
  }

  /** The total is what the receipts add up to: nothing else in a run moves it. */
  lemma {:induction false} TotalIsCharged(p: Params, w: World, acts: seq<Action>, a: Address, id: ChannelId)
    ensures Entry(Run(p, w, acts), a, id).cumOwed == AccrueAll(Entry(w, a, id).cumOwed, Charged(p, w, acts, a, id))
    decreases |acts|
  {
    if acts != [] {
      var w1 := Step(p, w, acts[0]);
      ChargedStep(p, w, acts[0], a, id);
      TotalIsCharged(p, w1, acts[1..], a, id);
      AccrueAllPlus(Entry(w, a, id).cumOwed, ChargedBy(w, acts[0], a, id), Charged(p, w1, acts[1..], a, id));
    }
  }

  /**
   * Metering over whole runs. If the receipts of the run were for these tokens
   * at these prices, the node's total never exceeds their exact value, and
   * falls short of it by less than one base unit per receipt unless a product
   * wrapped or the total has reached the ceiling of `u128`.
   */
  lemma RunMetering(p: Params, w0: World, acts: seq<Action>, w: World, a: Address, id: ChannelId,
                    receipts: seq<Metered>)
    requires Reaches(p, w0, acts, w) && Charged(p, w0, acts, a, id) == Costs(receipts)
    ensures var owed := Entry(w, a, id).cumOwed;
            && 1000 * owed <= ExactValue(receipts)
            && (NoWrap(receipts) && owed < U128_LIMIT - 1 ==>
                  ExactValue(receipts) - 1000 * owed <= 999 * |receipts|)
  {
    TotalIsCharged(p, w0, acts, a, id);
    MeteringBound(0, receipts);
  }
}
