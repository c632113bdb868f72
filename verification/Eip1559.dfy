/**
 * EIP-1559 transactions: the payload the node signs and the signed bytes it
 * sends (EIP-1559 "Specification", EIP-2718 "Specification").
 */
module Eip1559 {
  import opened Base
  import opened Bytes
  import opened Rlp

  const U63_LIMIT: nat := 0x8000_0000_0000_0000

  datatype Tx = Tx(
    chainId: nat,
    nonce: nat,
    maxPriorityFeePerGas: nat,
    maxFeePerGas: nat,
    gasLimit: nat,
    to: seq<byte>,
    value: nat,
    data: seq<byte>)
  {
    /** The field types; a Rust slice has at most 2^63 - 1 bytes. */
    predicate Valid() {
      && chainId < U64_LIMIT && nonce < U64_LIMIT && gasLimit < U64_LIMIT
      && maxPriorityFeePerGas < U128_LIMIT && maxFeePerGas < U128_LIMIT && value < U128_LIMIT
      && |to| == 20 && |data| < U63_LIMIT
    }
  }

  /** r and s as 32-byte strings, and the recovery byte. */
  datatype Sig = Sig(r: seq<byte>, s: seq<byte>, v: byte) {
    predicate Valid() { |r| == 32 && |s| == 32 }
  }

  // ---- What is encoded ----

  function UintItem(n: nat): Item { Str(Shortest(n, 16)) }

  /** Unlike `encode_uint`, zero keeps one zero byte. */
  function StripLeadingZeros(s: seq<byte>): seq<byte>
    requires s != []
  {
    if LeadingZeros(s) == |s| then s[|s| - 1..] else Stripped(s)
  }

  function UnsignedItems(tx: Tx): seq<Item> {
    [UintItem(tx.chainId), UintItem(tx.nonce), UintItem(tx.maxPriorityFeePerGas), UintItem(tx.maxFeePerGas),
     UintItem(tx.gasLimit), Str(tx.to), UintItem(tx.value), Str(tx.data), List([])]
  }

  function SignatureItems(sig: Sig): seq<Item>
    requires sig.Valid()
  {
    [UintItem(sig.v), Str(StripLeadingZeros(sig.r)), Str(StripLeadingZeros(sig.s))]
  }

  function TypedEncoding(items: seq<Item>): seq<byte> { [0x02] + Encoding(List(items)) }

  // ---- The encoder ----

  method EncodeUint(value: nat) returns (out: seq<byte>)
    requires value < U128_LIMIT
    ensures out == Encoding(UintItem(value))
  {
    Pow256Values();
    ShortestIsMinimal(value, 16);
    if value == 0 {
      BigEndianRoundTrip(0, 16);
      MinimalUnique(Shortest(0, 16), []);
      out := EncodeBytes([]);
      return;
    }
    var bytes := BigEndian(value, 16);
    var first := LeadingZeros(bytes);
    out := EncodeBytes(bytes[first..]);
  }

  /** The nine items, in the order of the standard. */
  method UnsignedParts(tx: Tx) returns (items: seq<seq<byte>>)
    requires tx.Valid()
    ensures items == Encodings(UnsignedItems(tx))
  {
    var fees := FeeParts(tx);
    var call := CallParts(tx);
    items := fees + call;
    EncodingsPlus(FeeItems(tx), CallItems(tx));
    assert UnsignedItems(tx) == FeeItems(tx) + CallItems(tx);
  }

  function FeeItems(tx: Tx): seq<Item> {
    [UintItem(tx.chainId), UintItem(tx.nonce), UintItem(tx.maxPriorityFeePerGas), UintItem(tx.maxFeePerGas),
     UintItem(tx.gasLimit)]
  }

  function CallItems(tx: Tx): seq<Item> { [Str(tx.to), UintItem(tx.value), Str(tx.data), List([])] }

  method FeeParts(tx: Tx) returns (items: seq<seq<byte>>)
    requires tx.Valid()
    ensures items == Encodings(FeeItems(tx))
  {
    var chainId := EncodeUint(tx.chainId);
    var nonce := EncodeUint(tx.nonce);
    var maxPriorityFeePerGas := EncodeUint(tx.maxPriorityFeePerGas);
    var maxFeePerGas := EncodeUint(tx.maxFeePerGas);
    var gasLimit := EncodeUint(tx.gasLimit);
    items := [chainId, nonce, maxPriorityFeePerGas, maxFeePerGas, gasLimit];
    EncodingsAre(FeeItems(tx), items);
  }

  method CallParts(tx: Tx) returns (items: seq<seq<byte>>)
    requires tx.Valid()
    ensures items == Encodings(CallItems(tx))
  {
    var to := EncodeBytes(tx.to);
    var value := EncodeUint(tx.value);
    var data := EncodeBytes(tx.data);
    var accessList := EncodeList([]);
    items := [to, value, data, accessList];
    EncodingsAre(CallItems(tx), items);
  }

  lemma EncodingsAre(ts: seq<Item>, parts: seq<seq<byte>>)
    requires |parts| == |ts| && forall i :: 0 <= i < |ts| ==> parts[i] == Encoding(ts[i])
    ensures parts == Encodings(ts)
  {
  }

  method SigningPayload(tx: Tx) returns (out: seq<byte>)
    requires tx.Valid()
    ensures out == TypedEncoding(UnsignedItems(tx))
  {
    UnsignedFits(tx, []);
    assert UnsignedItems(tx) + [] == UnsignedItems(tx);
    var items := UnsignedParts(tx);
    var rlp := EncodeList(items);
    out := [0x02];
    out := out + rlp;
  }

  method StripLeadingZerosUint(bytes: seq<byte>) returns (out: seq<byte>)
    requires |bytes| == 32
    ensures out == Encoding(Str(StripLeadingZeros(bytes)))
  {
    var first := LeadingZeros(bytes);
    if first == |bytes| { first := |bytes| - 1; }
    out := EncodeBytes(bytes[first..]);
  }

  method EncodeSigned(tx: Tx, sig: Sig) returns (out: seq<byte>)
    requires tx.Valid() && sig.Valid()
    ensures out == TypedEncoding(UnsignedItems(tx) + SignatureItems(sig))
  {
    ghost var all := UnsignedItems(tx) + SignatureItems(sig);
    UnsignedFits(tx, SignatureItems(sig));
    var items := UnsignedParts(tx);
    var v := EncodeUint(sig.v);
    var r := StripLeadingZerosUint(sig.r);
    var s := StripLeadingZerosUint(sig.s);
    items := items + [v];
    items := items + [r];
    items := items + [s];
    EncodingsAre(all, items);
    var rlp := EncodeList(items);
    out := [0x02];
    out := out + rlp;
  }

  lemma {:induction false} EncodingsPlus(a: seq<Item>, b: seq<Item>)
    ensures Encodings(a + b) == Encodings(a) + Encodings(b)
  {
    if a == [] {
      assert a + b == b;
    } else {
      assert (a + b)[1..] == a[1..] + b;
      EncodingsPlus(a[1..], b);
    }
  }

  // ---- Nothing outgrows 64 bits ----

  predicate ShortStr(t: Item) { t.Str? && |t.bytes| <= 32 }

  lemma {:induction false} ShortItemsFit(ts: seq<Item>)
    requires forall t :: t in ts ==> ShortStr(t)
    ensures AllFit(ts) && |Concat(Encodings(ts))| <= 33 * |ts|
  {
    if ts != [] {
      assert ts[0] in ts;
      ShortItemsFit(ts[1..]);
      assert Encodings(ts)[1..] == Encodings(ts[1..]);
    }
  }

  lemma {:induction false} AllFitPlus(a: seq<Item>, b: seq<Item>)
    requires AllFit(a) && AllFit(b)
    ensures AllFit(a + b)
  {
    if a == [] {
      assert a + b == b;
    } else {
      assert (a + b)[1..] == a[1..] + b;
      AllFitPlus(a[1..], b);
    }
  }

  /** How much room a list of items takes in a payload. */
  predicate Bounded(ts: seq<Item>, size: nat) { AllFit(ts) && |Concat(Encodings(ts))| <= size }

  lemma BoundedPlus(a: seq<Item>, m: nat, b: seq<Item>, n: nat)
    requires Bounded(a, m) && Bounded(b, n)
    ensures Bounded(a + b, m + n)
  {
    AllFitPlus(a, b);
    EncodingsPlus(a, b);
    ConcatPlus(Encodings(a), Encodings(b));
  }

  lemma BoundedOne(t: Item)
    requires Fits(t)
    ensures Bounded([t], |Encoding(t)|)
  {
    assert [t][1..] == [];
    assert Encodings([t]) == [Encoding(t)] && [Encoding(t)][1..] == [];
  }

  /** The unsigned items, with any few short strings after them, make a list that fits. */
  lemma UnsignedFits(tx: Tx, more: seq<Item>)
    requires tx.Valid() && |more| <= 3 && forall t :: t in more ==> ShortStr(t)
    ensures Fits(List(UnsignedItems(tx) + more))
  {
    var items := UnsignedItems(tx);
    var head, data, list := items[..7], Str(tx.data), List([]);
    HeadIsShort(tx);
    ShortItemsFit(head);
    ShortItemsFit(more);
    DataLength(tx.data);
    BoundedOne(data);
    BoundedOne(list);
    BoundedPlus(head, 231, [data], |tx.data| + 9);
    BoundedPlus(head + [data], |tx.data| + 240, [list], |Encoding(list)|);
    BoundedPlus(head + [data] + [list], |tx.data| + 241, more, 99);
    assert items == head + [data] + [list];
  }

  lemma HeadIsShort(tx: Tx)
    requires tx.Valid()
    ensures forall t :: t in UnsignedItems(tx)[..7] ==> ShortStr(t)
  {
  }

  lemma DataLength(s: seq<byte>)
    requires |s| < U64_LIMIT
    ensures |BytesEncoding(s)| <= |s| + 9
  {
    Pow256Values();
    ShortestIsMinimal(|s|, 8);
  }

  // ---- The reader ----

  /** An integer field: no leading zero, and within its type. */
  function ReadUint(t: Item, limit: nat): Option<nat> {
    if t.Str? && Minimal(t.bytes) && Value(t.bytes) < limit then Some(Value(t.bytes)) else None
  }

  function ReadList(s: seq<byte>): Option<seq<Item>> {
    if s == [] || s[0] != 0x02 then None
    else match Decode(s[1..])
      case Some((List(ts), rest)) => if rest == [] then Some(ts) else None
      case _ => None
  }

  function ReadUnsigned(ts: seq<Item>): Option<Tx>
    requires |ts| == 9
  {
    match (ReadUint(ts[0], U64_LIMIT), ReadUint(ts[1], U64_LIMIT), ReadUint(ts[2], U128_LIMIT),
           ReadUint(ts[3], U128_LIMIT), ReadUint(ts[4], U64_LIMIT), ReadUint(ts[6], U128_LIMIT))
    case (Some(chainId), Some(nonce), Some(priority), Some(maxFee), Some(gas), Some(value)) =>
      if ts[5].Str? && |ts[5].bytes| == 20 && ts[7].Str? && ts[8] == List([]) then
        Some(Tx(chainId, nonce, priority, maxFee, gas, ts[5].bytes, value, ts[7].bytes))
      else None
    case _ => None
  }

  function ReadSigningPayload(s: seq<byte>): Option<Tx> {
    match ReadList(s)
    case None => None
    case Some(ts) => if |ts| == 9 then ReadUnsigned(ts) else None
  }

  datatype SignedTx = SignedTx(tx: Tx, v: nat, r: nat, s: nat)

  function ReadSigned(s: seq<byte>): Option<SignedTx> {
    match ReadList(s)
    case None => None
    case Some(ts) =>
      if |ts| != 12 then None
      else match (ReadUnsigned(ts[..9]), ReadUint(ts[9], 256),
                  ReadUint(ts[10], U256_LIMIT), ReadUint(ts[11], U256_LIMIT))
        case (Some(tx), Some(v), Some(r), Some(ss)) => Some(SignedTx(tx, v, r, ss))
        case _ => None
  }

  lemma ReadListOfEncoding(items: seq<Item>)
    requires Fits(List(items))
    ensures ReadList(TypedEncoding(items)) == Some(items)
  {
    assert TypedEncoding(items)[1..] == Encoding(List(items)) + [];
    DecodeEncoding(List(items), []);
  }

  lemma ReadUintItem(n: nat, limit: nat)
    requires n < limit <= U128_LIMIT
    ensures ReadUint(UintItem(n), limit) == Some(n)
  {
    Pow256Values();
    ShortestIsMinimal(n, 16);
  }

  lemma ReadUnsignedItems(tx: Tx)
    requires tx.Valid()
    ensures ReadUnsigned(UnsignedItems(tx)) == Some(tx)
  {
    ReadUintItem(tx.chainId, U64_LIMIT);
    ReadUintItem(tx.nonce, U64_LIMIT);
    ReadUintItem(tx.maxPriorityFeePerGas, U128_LIMIT);
    ReadUintItem(tx.maxFeePerGas, U128_LIMIT);
    ReadUintItem(tx.gasLimit, U64_LIMIT);
    ReadUintItem(tx.value, U128_LIMIT);
  }

  lemma SigningPayloadRoundTrip(tx: Tx)
    requires tx.Valid()
    ensures ReadSigningPayload(TypedEncoding(UnsignedItems(tx))) == Some(tx)
  {
    UnsignedFits(tx, []);
    assert UnsignedItems(tx) + [] == UnsignedItems(tx);
    ReadListOfEncoding(UnsignedItems(tx));
    ReadUnsignedItems(tx);
  }

  /** Equal signing payloads mean equal transactions, in all eight fields. */
  lemma SigningPayloadInjective(t: Tx, u: Tx)
    requires t.Valid() && u.Valid() && TypedEncoding(UnsignedItems(t)) == TypedEncoding(UnsignedItems(u))
    ensures t == u
  {
    SigningPayloadRoundTrip(t);
    SigningPayloadRoundTrip(u);
  }

  lemma ReadStripped(s: seq<byte>)
    requires |s| == 32
    ensures ReadUint(Str(StripLeadingZeros(s)), U256_LIMIT) == if Value(s) != 0 then Some(Value(s)) else None
  {
    ValueBound(s);
    Pow256Values();
    StrippedKeepsValue(s);
    if LeadingZeros(s) == |s| {
      assert Value([]) == 0 && Stripped(s) == [];
    } else {
      FirstByteDominates(Stripped(s));
      assert Stripped(s)[0] * Pow256(|Stripped(s)| - 1) > 0;
    }
  }

  /**
   * The signed bytes read back as the same transaction and signature exactly
   * when neither r nor s is zero; a zero would be sent as one zero byte, which
   * is not a minimal integer and which no reader accepts.
   */
  lemma SignedRoundTripIff(tx: Tx, sig: Sig)
    requires tx.Valid() && sig.Valid()
    ensures ReadSigned(TypedEncoding(UnsignedItems(tx) + SignatureItems(sig)))
         == if Value(sig.r) != 0 && Value(sig.s) != 0
            then Some(SignedTx(tx, sig.v, Value(sig.r), Value(sig.s))) else None
  {
    var items := UnsignedItems(tx) + SignatureItems(sig);
    UnsignedFits(tx, SignatureItems(sig));
    ReadListOfEncoding(items);
    ReadUnsignedItems(tx);
    assert items[..9] == UnsignedItems(tx);
    ReadUintItem(sig.v, 256);
    ReadStripped(sig.r);
    ReadStripped(sig.s);
  }
}
