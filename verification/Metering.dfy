/** Decimal strings of `u128` values: Rust's `to_string` and `parse`. */
module Decimal {
  import opened Base

  predicate IsDigit(c: char) { '0' <= c <= '9' }

  function DigitValue(c: char): nat
    requires IsDigit(c)
  {
    c as int - '0' as int
  }

  function DigitChar(d: nat): char
    requires d < 10
  {
    ('0' as int + d) as char
  }

  predicate AllDigits(s: string) { forall i :: 0 <= i < |s| ==> IsDigit(s[i]) }

  function DigitsValue(s: string): nat
    requires AllDigits(s)
  {
    if s == "" then 0 else 10 * DigitsValue(s[..|s| - 1]) + DigitValue(s[|s| - 1])
  }

  function Print(n: nat): string {
    if n < 10 then [DigitChar(n)] else Print(n / 10) + [DigitChar(n % 10)]
  }

  /** An optional plus sign, then at least one digit, and a value that fits. */
  function ParseU128(s: string): Option<nat> {
    var digits := if s != "" && s[0] == '+' then s[1..] else s;
    if digits == "" || !AllDigits(digits) then None
    else if DigitsValue(digits) >= U128_LIMIT then None
    else Some(DigitsValue(digits))
  }

  lemma {:induction false} PrintedDigits(n: nat)
    ensures Print(n) != "" && AllDigits(Print(n))
    ensures DigitsValue(Print(n)) == n
  {
    if n >= 10 {
      PrintedDigits(n / 10);
      assert Print(n)[..|Print(n)| - 1] == Print(n / 10);
    } else {
      assert Print(n)[..0] == "";
    }
  }

  /** A printed `u128` parses back to itself; a larger number does not parse. */
  lemma ParsePrint(n: nat)
    ensures ParseU128(Print(n)) == if n < U128_LIMIT then Some(n) else None
  {
    PrintedDigits(n);
    assert IsDigit(Print(n)[0]);
  }

  // ---- Which strings parse ----

  function ZeroDigits(z: nat): string { seq(z, _ => '0') }

  /** An optional plus sign and any zeros before the number as it is printed. */
  predicate Writes(s: string, n: nat, plus: bool, z: nat) {
    s == if plus then "+" + (ZeroDigits(z) + Print(n)) else ZeroDigits(z) + Print(n)
  }

  lemma DigitBack(c: char)
    requires IsDigit(c)
    ensures DigitValue(c) < 10 && Print(DigitValue(c)) == [c]
  {
  }

  lemma PrintNext(n: nat, d: nat)
    requires n > 0 && d < 10
    ensures Print(10 * n + d) == Print(n) + [DigitChar(d)]
  {
  }

  /** One more digit. */
  lemma PaddedNext(z: nat, n: nat, c: char) returns (z1: nat)
    requires IsDigit(c)
    ensures ZeroDigits(z) + Print(n) + [c] == ZeroDigits(z1) + Print(10 * n + DigitValue(c))
  {
    DigitBack(c);
    if n == 0 {
      z1 := z + 1;
      assert ZeroDigits(z) + ['0'] == ZeroDigits(z + 1);
    } else {
      z1 := z;
      PrintNext(n, DigitValue(c));
      assert ZeroDigits(z) + Print(n) + [c] == ZeroDigits(z) + (Print(n) + [c]);
    }
  }

  lemma {:induction false} DigitsArePadded(d: string) returns (z: nat)
    requires d != "" && AllDigits(d)
    ensures d == ZeroDigits(z) + Print(DigitsValue(d))
  {
    var k := |d| - 1;
    assert d == d[..k] + [d[k]];
    if k > 0 {
      z := DigitsArePadded(d[..k]);
      z := PaddedNext(z, DigitsValue(d[..k]), d[k]);
    } else {
      z := 0;
      DigitBack(d[k]);
      assert d[..0] == "";
    }
  }

  lemma {:induction false} PaddedValue(z: nat, n: nat)
    ensures var s := ZeroDigits(z) + Print(n);
            s != "" && AllDigits(s) && DigitsValue(s) == n
  {
    PrintedDigits(n);
    var s := ZeroDigits(z) + Print(n);
    assert s[..|s| - 1] == ZeroDigits(z) + Print(n)[..|Print(n)| - 1];
    if n >= 10 {
      PaddedValue(z, n / 10);
      assert Print(n)[..|Print(n)| - 1] == Print(n / 10);
    } else {
      assert s[..|s| - 1] == ZeroDigits(z);
      ZeroDigitsValue(z);
    }
  }

  lemma {:induction false} ZeroDigitsValue(z: nat)
    ensures DigitsValue(ZeroDigits(z)) == 0
  {
    if z > 0 {
      ZeroDigitsValue(z - 1);
      assert ZeroDigits(z)[..z - 1] == ZeroDigits(z - 1);
    }
  }

  /** A string parses to a number exactly when it writes that number, and the number fits. */
  lemma ParsesIff(s: string, n: nat)
    ensures ParseU128(s) == Some(n) <==> n < U128_LIMIT && exists plus, z :: Writes(s, n, plus, z)
  {
    if ParseU128(s) == Some(n) {
      var plus := s[0] == '+';
      var z := DigitsArePadded(if plus then s[1..] else s);
      assert Writes(s, n, plus, z);
    }
    forall plus, z | n < U128_LIMIT && Writes(s, n, plus, z) ensures ParseU128(s) == Some(n) {
      WrittenParses(s, n, plus, z);
    }
  }

  lemma WrittenParses(s: string, n: nat, plus: bool, z: nat)
    requires n < U128_LIMIT && Writes(s, n, plus, z)
    ensures ParseU128(s) == Some(n)
  {
    PaddedValue(z, n);
    DigitsParse(ZeroDigits(z) + Print(n), n);
  }

  lemma DigitsParse(d: string, n: nat)
    requires n < U128_LIMIT && d != "" && AllDigits(d) && DigitsValue(d) == n
    ensures ParseU128(d) == Some(n) && ParseU128("+" + d) == Some(n)
  {
    assert ("+" + d)[1..] == d;
  }
}

/** Token usage, its accumulation over provider calls, and its price. */
module Metering {
  import opened Base
  import opened Decimal
  import opened RegistrySpec

  datatype Usage = Usage(inputTokens: nat, outputTokens: nat,
                         cacheCreation: Option<nat>, cacheRead: Option<nat>) {
    /** Every counter is a `u32`. */
    predicate Fits() {
      && inputTokens < U32_LIMIT && outputTokens < U32_LIMIT
      && (cacheCreation.Some? ==> cacheCreation.value < U32_LIMIT)
      && (cacheRead.Some? ==> cacheRead.value < U32_LIMIT)
    }
  }

  const NO_USAGE := Usage(0, 0, None, None)

  function SumOpt(a: Option<nat>, b: Option<nat>): Option<nat> {
    match (a, b)
    case (None, None) => None
    case (Some(x), None) => Some(x)
    case (None, Some(y)) => Some(y)
    case (Some(x), Some(y)) => Some(SaturatingAdd(x, y, U32_LIMIT))
  }

  function Plus(a: Usage, b: Usage): Usage {
    Usage(SaturatingAdd(a.inputTokens, b.inputTokens, U32_LIMIT),
          SaturatingAdd(a.outputTokens, b.outputTokens, U32_LIMIT),
          SumOpt(a.cacheCreation, b.cacheCreation),
          SumOpt(a.cacheRead, b.cacheRead))
  }

  /** `Usage::add`, in place. */
  class UsageCounter {
    var total: Usage

    constructor ()
      ensures total == NO_USAGE
    {
      total := NO_USAGE;
    }

    method Add(other: Usage)
      modifies this
      ensures total == Plus(old(total), other)
    {
      total := total.(inputTokens := SaturatingAdd(total.inputTokens, other.inputTokens, U32_LIMIT));
      total := total.(outputTokens := SaturatingAdd(total.outputTokens, other.outputTokens, U32_LIMIT));
      total := total.(cacheCreation := SumOpt(total.cacheCreation, other.cacheCreation));
      total := total.(cacheRead := SumOpt(total.cacheRead, other.cacheRead));
    }
  }

  /** The accumulated usage of a round trip, call by call. */
  function Accumulated(calls: seq<Usage>): Usage {
    if calls == [] then NO_USAGE else Plus(Accumulated(calls[..|calls| - 1]), calls[|calls| - 1])
  }

  function ExactSum(xs: seq<nat>): nat {
    if xs == [] then 0 else ExactSum(xs[..|xs| - 1]) + xs[|xs| - 1]
  }

  function OrZero(o: Option<nat>): nat { if o.Some? then o.value else 0 }

  datatype Field = Input | Output | CacheCreation | CacheRead

  predicate Absent(u: Usage, f: Field) {
    (f == CacheCreation && u.cacheCreation == None) || (f == CacheRead && u.cacheRead == None)
  }

  function Tokens(u: Usage, f: Field): nat {
    match f
    case Input => u.inputTokens
    case Output => u.outputTokens
    case CacheCreation => OrZero(u.cacheCreation)
    case CacheRead => OrZero(u.cacheRead)
  }

  function Column(calls: seq<Usage>, f: Field)
    : seq<nat> { seq(|calls|, i requires 0 <= i < |calls| => Tokens(calls[i], f)) }

  /**
   * Repeated saturating addition is the exact sum, capped once at the end; an
   * optional counter is absent exactly when no call reported it.
   */
  lemma {:induction false} AccumulationIsCappedSum(calls: seq<Usage>, f: Field)
    requires forall i :: 0 <= i < |calls| ==> calls[i].Fits()
    ensures Accumulated(calls).Fits()
    ensures Tokens(Accumulated(calls), f) == Min(ExactSum(Column(calls, f)), U32_LIMIT - 1)
    ensures f == CacheCreation || f == CacheRead ==>
              (Absent(Accumulated(calls), f) <==> forall i :: 0 <= i < |calls| ==> Absent(calls[i], f))
  {
    if calls != [] {
      var n := |calls| - 1;
      AccumulationIsCappedSum(calls[..n], f);
      assert Column(calls, f)[..n] == Column(calls[..n], f);
      PlusByField(Accumulated(calls[..n]), calls[n], f);
    }
  }

  lemma PlusByField(a: Usage, b: Usage, f: Field)
    requires a.Fits() && b.Fits()
    ensures Plus(a, b).Fits()
    ensures Tokens(Plus(a, b), f) == Min(Tokens(a, f) + Tokens(b, f), U32_LIMIT - 1)
    ensures Absent(Plus(a, b), f) <==> Absent(a, f) && Absent(b, f)
  {
    SumOptByCase(a.cacheCreation, b.cacheCreation);
    SumOptByCase(a.cacheRead, b.cacheRead);
    match f
    case Input =>
    case Output =>
    case CacheCreation =>
    case CacheRead =>
  }

  lemma SumOptByCase(a: Option<nat>, b: Option<nat>)
    requires OrZero(a) < U32_LIMIT && OrZero(b) < U32_LIMIT
    ensures OrZero(SumOpt(a, b)) == Min(OrZero(a) + OrZero(b), U32_LIMIT - 1)
    ensures SumOpt(a, b) == None <==> a == None && b == None
  {
  }

  function TotalTokens(u: Usage): (t: nat)
    ensures u.Fits() ==> t < 4 * U32_LIMIT < U64_LIMIT
  {
    u.inputTokens + u.outputTokens + OrZero(u.cacheCreation) + OrZero(u.cacheRead)
  }

  /** The same counters with `n` more in one field. */
  function Raise(u: Usage, f: Field, n: nat): Usage {
    match f
    case Input => u.(inputTokens := u.inputTokens + n)
    case Output => u.(outputTokens := u.outputTokens + n)
    case CacheCreation => u.(cacheCreation := Some(OrZero(u.cacheCreation) + n))
    case CacheRead => u.(cacheRead := Some(OrZero(u.cacheRead) + n))
  }

  /** No field is left out of the total, and none counts twice. */
  lemma EveryFieldCounts(u: Usage, f: Field, n: nat)
    ensures TotalTokens(Raise(u, f, n)) == TotalTokens(u) + n
    ensures TotalTokens(NO_USAGE) == 0
  {
    match f
    case Input =>
    case Output =>
    case CacheCreation =>
    case CacheRead =>
  }

  /** What was reported, over all fields of all calls. */
  function ExactTokens(calls: seq<Usage>): nat {
    ExactSum(Column(calls, Input)) + ExactSum(Column(calls, Output))
    + ExactSum(Column(calls, CacheCreation)) + ExactSum(Column(calls, CacheRead))
  }

  predicate AllFit(calls: seq<Usage>) { forall i :: 0 <= i < |calls| ==> calls[i].Fits() }

  /** No counter has reached the ceiling of `u32`. */
  predicate BelowCaps(calls: seq<Usage>) {
    AllFit(calls) && forall f: Field :: ExactSum(Column(calls, f)) < U32_LIMIT
  }

  /** Below the caps, what is billed for is exactly what was reported. */
  lemma TotalIsReported(calls: seq<Usage>)
    requires BelowCaps(calls)
    ensures TotalTokens(Accumulated(calls)) == ExactTokens(calls)
  {
    AccumulationIsCappedSum(calls, Input);
    AccumulationIsCappedSum(calls, Output);
    AccumulationIsCappedSum(calls, CacheCreation);
    AccumulationIsCappedSum(calls, CacheRead);
    TotalByField(Accumulated(calls));
  }

  lemma TotalByField(u: Usage)
    ensures TotalTokens(u) == Tokens(u, Input) + Tokens(u, Output) + Tokens(u, CacheCreation) + Tokens(u, CacheRead)
  {
  }

  lemma OneCall(u: Usage)
    ensures ExactTokens([u]) == TotalTokens(u)
  {
    forall f: Field ensures ExactSum(Column([u], f)) == Tokens(u, f) {
      assert Column([u], f) == [Tokens(u, f)] && [Tokens(u, f)][..0] == [];
    }
    TotalByField(u);
  }

  // ---- Price of a round trip ----

  datatype BackendPrice = BackendPrice(backend: Backend, pricePer1k: string)

  /** The first listed price of the backend; 0 if there is none or it does not parse. */
  function PriceUnits(pricing: seq<BackendPrice>, k: Backend): nat {
    if pricing == [] then 0
    else if pricing[0].backend == k then
      var p := ParseU128(pricing[0].pricePer1k);
      if p.Some? then p.value else 0
    else PriceUnits(pricing[1..], k)
  }

  /** `u128` multiplication wraps in a release build. */
  function RoundTripCost(tokens: nat, price: nat): nat { tokens * price % U128_LIMIT / 1000 }

  /** One more charge on a channel's total. */
  function Accrue(cumOwed: nat, cost: nat): nat { SaturatingAdd(cumOwed, cost, U128_LIMIT) }

  function AccrueAll(cumOwed: nat, costs: seq<nat>): nat
    decreases |costs|
  {
    if costs == [] then cumOwed else AccrueAll(Accrue(cumOwed, costs[0]), costs[1..])
  }

  /** What one receipt is for. */
  datatype Metered = Metered(usage: Usage, price: nat)

  function CostOfOne(m: Metered): nat { RoundTripCost(TotalTokens(m.usage), m.price) }

  /** All tokens it reports, in thousandths of a base unit. */
  function ValueOfOne(m: Metered): nat { ExactTokens([m.usage]) * m.price }

  lemma RoundingOfOne(m: Metered)
    ensures 1000 * CostOfOne(m) <= ValueOfOne(m)
    ensures ValueOfOne(m) < U128_LIMIT ==> ValueOfOne(m) - 1000 * CostOfOne(m) <= 999
  {
    OneCall(m.usage);
    WrappedIsLess(ValueOfOne(m));
  }

  function Costs(receipts: seq<Metered>): seq<nat> {
    if receipts == [] then [] else [CostOfOne(receipts[0])] + Costs(receipts[1..])
  }

  function ExactValue(receipts: seq<Metered>): nat {
    if receipts == [] then 0 else ValueOfOne(receipts[0]) + ExactValue(receipts[1..])
  }

  predicate NoWrap(receipts: seq<Metered>) {
    forall i :: 0 <= i < |receipts| ==> ValueOfOne(receipts[i]) < U128_LIMIT
  }

  /**
   * Cumulative billing never charges more than the exact value, and loses less
   * than one base unit per receipt to rounding while no product wraps and the
   * total has not reached the ceiling of `u128`.
   */
  lemma {:induction false} MeteringBound(cumOwed: nat, receipts: seq<Metered>)
    requires cumOwed < U128_LIMIT
    ensures var total := AccrueAll(cumOwed, Costs(receipts));
            && cumOwed <= total < U128_LIMIT
            && 1000 * (total - cumOwed) <= ExactValue(receipts)
            && (NoWrap(receipts) && total < U128_LIMIT - 1 ==>
                  ExactValue(receipts) - 1000 * (total - cumOwed) <= 999 * |receipts|)
    decreases |receipts|
  {
    if receipts != [] {
      RoundingOfOne(receipts[0]);
      MeteringBound(Accrue(cumOwed, CostOfOne(receipts[0])), receipts[1..]);
      assert Costs(receipts)[1..] == Costs(receipts[1..]);
    }
  }

  lemma WrappedIsLess(value: nat)
    ensures value % U128_LIMIT <= value
    ensures value < U128_LIMIT ==> value % U128_LIMIT == value
  {
  }
}
