/** Vocabulary shared by every module: outcomes, integer widths, addresses. */
module Base {

  datatype Option<+T> = None | Some(value: T)

  datatype Result<+T, +E> = Success(value: T) | Failure(error: E)

  /** A 20-byte account address, as the number it denotes. */
  type Address = nat

  type byte = b: nat | b < 256

  const U32_LIMIT: nat := 0x1_0000_0000
  const U64_LIMIT: nat := 0x1_0000_0000_0000_0000
  const U128_LIMIT: nat := 0x1_0000_0000_0000_0000_0000_0000_0000_0000
  const U256_LIMIT: nat := U128_LIMIT * U128_LIMIT

  function Min(a: nat, b: nat): nat { if a <= b then a else b }

  function Max(a: int, b: int): int { if a >= b then a else b }

  /** Rust's `saturating_add` on an integer type with the given limit. */
  function SaturatingAdd(a: nat, b: nat, limit: nat): nat
    requires limit > 0
  {
    Min(a + b, limit - 1)
  }
}

/** The sum of the values of a finite map, and how it changes with one entry. */
module Sums {

  ghost function Sum<K>(m: map<K, nat>): nat
    decreases |m|
  {
    if m.Keys == {} then 0 else
      var k :| k in m;
      assert (m - {k}).Keys == m.Keys - {k};
      m[k] + Sum(m - {k})
  }

  lemma {:induction false} SumRemove<K>(m: map<K, nat>, k: K)
    requires k in m
    ensures Sum(m) == m[k] + Sum(m - {k})
    decreases |m|
  {
    var j :| j in m && Sum(m) == m[j] + Sum(m - {j});
    assert (m - {j}).Keys == m.Keys - {j} && (m - {k}).Keys == m.Keys - {k};
    if j != k {
      SumRemove(m - {j}, k);
      SumRemove(m - {k}, j);
      assert m - {j} - {k} == m - {k} - {j};
    }
  }

  function Lookup<K>(m: map<K, nat>, k: K): nat { if k in m then m[k] else 0 }

  lemma SumUpdate<K>(m: map<K, nat>, k: K, v: nat)
    ensures Sum(m[k := v]) == Sum(m) - Lookup(m, k) + v
    ensures Lookup(m, k) <= Sum(m)
  {
    SumRemove(m[k := v], k);
    assert m[k := v] - {k} == m - {k};
    if k in m {
      SumRemove(m, k);
    } else {
      assert m - {k} == m;
    }
  }
}

/** The ERC-20 ledger both contracts move value on, taken as atomic. */
module Ledger {
  import opened Base
  import opened Sums

  type Balances = map<Address, nat>

  function Balance(b: Balances, a: Address): nat { Lookup(b, a) }

  function Move(b: Balances, from: Address, to: Address, amount: nat): Balances
    requires Balance(b, from) >= amount
  {
    var b1 := b[from := Balance(b, from) - amount];
    b1[to := Balance(b1, to) + amount]
  }

  /** A transfer: `None` is a revert. */
  function Transfer(b: Balances, from: Address, to: Address, amount: nat): Option<Balances> {
    if Balance(b, from) < amount then None else Some(Move(b, from, to, amount))
  }

  /** The contracts skip transfers of nothing. */
  function TransferIfPositive(b: Balances, from: Address, to: Address, amount: nat): Option<Balances> {
    if amount > 0 then Transfer(b, from, to, amount) else Some(b)
  }

  lemma MoveConserves(b: Balances, from: Address, to: Address, amount: nat)
    requires Balance(b, from) >= amount
    ensures Sum(Move(b, from, to, amount)) == Sum(b)
  {
    var b1 := b[from := Balance(b, from) - amount];
    SumUpdate(b, from, Balance(b, from) - amount);
    SumUpdate(b1, to, Balance(b1, to) + amount);
  }

  class Token {
    var balances: Balances

    constructor (initial: Balances)
      ensures balances == initial
    {
      balances := initial;
    }

    method TransferFrom(from: Address, to: Address, amount: nat) returns (ok: bool)
      modifies this
      ensures ok <==> old(Balance(balances, from)) >= amount
      ensures balances == if ok then Move(old(balances), from, to, amount) else old(balances)
    {
      ok := Balance(balances, from) >= amount;
      if ok {
        balances := balances[from := Balance(balances, from) - amount];
        balances := balances[to := Balance(balances, to) + amount];
      }
    }
  }
}
