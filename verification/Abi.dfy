/**
 * The node's hand-written ABI codec: the `register` call it sends and the
 * `channels` record it reads back. Selectors are parameters; the reader
 * follows the offset in the head as a contract does.
 */
module Abi {
  import opened Base
  import opened Bytes
  import opened Decimal
  import opened Canonical
  import opened RegistrySpec
  import opened Metering
  import opened ChannelSpec
  import Ledger
  import Reg = RegistrySpec

  // ---- Words ----

  function PadLeft(s: seq<byte>): seq<byte>
    requires |s| <= 32
  {
    Zeros(32 - |s|) + s
  }

  function EncodeUint(n: nat): seq<byte> { PadLeft(BigEndian(n, 16)) }

  lemma EncodeUintIsWord(n: nat)
    requires n < U128_LIMIT
    ensures EncodeUint(n) == Word(n) && Value(Word(n)) == n
  {
    Pow256Values();
    ZeroPadded(n, 16, 32);
    BigEndianRoundTrip(n, 32);
  }

  // ---- Strings ----

  function Padding(len: nat): nat { (32 - len % 32) % 32 }

  function StringTail(s: seq<byte>): seq<byte> { Word(|s|) + s + Zeros(Padding(|s|)) }

  method EncodeString(s: seq<byte>) returns (out: seq<byte>)
    requires |s| < U64_LIMIT
    ensures out == StringTail(s)
  {
    EncodeUintIsWord(|s|);
    out := EncodeUint(|s|);
    out := out + s;
    var pad := (32 - |s| % 32) % 32;
    out := out + Zeros(pad);
  }

  // ---- The register call ----

  datatype RegisterArgs = RegisterArgs(url: seq<byte>, ecdhPubkey: seq<byte>, backendBitmap: nat,
                                       maxTokens: nat, pricePer1k: Prices, stake: nat)
  {
    predicate Valid() {
      && |url| < U64_LIMIT && |ecdhPubkey| == 32 && backendBitmap < 256 && maxTokens < U64_LIMIT
      && stake < U256_LIMIT && forall i :: 0 <= i < 4 ==> pricePer1k[i] < U256_LIMIT
    }
  }

  /** Nine words, 288 bytes. */
  function HeadLength(): nat { 9 * 32 }

  /** The head: nine words, the first of them the offset of the string's tail. */
  function RegisterHead(a: RegisterArgs): seq<byte> {
    Word(HeadLength()) + a.ecdhPubkey + Word(a.backendBitmap) + Word(a.maxTokens) + Words(a.pricePer1k) + Word(a.stake)
  }

  /** A fixed-size array is its elements' words in a row. */
  function Words(ns: seq<nat>): (r: seq<byte>)
    ensures |r| == 32 * |ns|
  {
    if ns == [] then [] else Words(ns[..|ns| - 1]) + Word(ns[|ns| - 1])
  }

  lemma {:induction false} WordsSlice(ns: seq<nat>, i: nat)
    requires i < |ns|
    ensures Words(ns)[32 * i..32 * i + 32] == Word(ns[i])
  {
    var n := |ns| - 1;
    if i < n {
      WordsSlice(ns[..n], i);
      assert Words(ns)[32 * i..32 * i + 32] == Words(ns[..n])[32 * i..32 * i + 32];
    }
  }

  function RegisterCall(selector: seq<byte>, a: RegisterArgs): seq<byte> {
    selector + (RegisterHead(a) + StringTail(a.url))
  }

  /** What four 32-byte words denote. */
  function SlotPrices(slots: seq<seq<byte>>): Prices
    requires |slots| == 4
  {
    [Value(slots[0]), Value(slots[1]), Value(slots[2]), Value(slots[3])]
  }

  method EncodeRegister(selector: seq<byte>, url: seq<byte>, ecdhPubkey: seq<byte>, backendBitmap: nat,
                        maxTokens: nat, pricePer1k: seq<seq<byte>>, stake: seq<byte>) returns (out: seq<byte>)
    requires |selector| == 4 && |pricePer1k| == 4 && |stake| == 32
    requires forall i :: 0 <= i < 4 ==> |pricePer1k[i]| == 32
    requires |url| < U64_LIMIT && |ecdhPubkey| == 32 && backendBitmap < 256 && maxTokens < U64_LIMIT
    ensures out == RegisterCall(selector, RegisterArgs(url, ecdhPubkey, backendBitmap, maxTokens,
                     SlotPrices(pricePer1k), Value(stake)))
  {
    var urlOffset := HeadLength();
    EncodeUintIsWord(urlOffset);
    EncodeUintIsWord(backendBitmap);
    EncodeUintIsWord(maxTokens);
    out := selector;
    out := out + EncodeUint(urlOffset);
    out := out + ecdhPubkey;
    out := out + EncodeUint(backendBitmap);
    out := out + EncodeUint(maxTokens);
    ghost var before, values := out, SlotPrices(pricePer1k);
    for i := 0 to 4
      invariant out == before + Words(values[..i])
    {
      NextWord(before, values, i, pricePer1k[i]);
      out := out + pricePer1k[i];
    }
    assert values[..4] == values;
    BigEndianOfValue(stake);
    out := out + stake;
    var tail := EncodeString(url);
    out := out + tail;
    Regroup(selector, Word(urlOffset), ecdhPubkey, Word(backendBitmap), Word(maxTokens), Words(values), stake, tail);
  }

  lemma NextWord(before: seq<byte>, values: seq<nat>, i: nat, word: seq<byte>)
    requires i < |values| && |word| == 32 && Value(word) == values[i]
    ensures before + Words(values[..i]) + word == before + Words(values[..i + 1])
  {
    BigEndianOfValue(word);
    assert values[..i + 1][..i] == values[..i];
  }

  lemma Regroup(s: seq<byte>, a: seq<byte>, b: seq<byte>, c: seq<byte>, d: seq<byte>, e: seq<byte>, f: seq<byte>,
                g: seq<byte>)
    ensures s + a + b + c + d + e + f + g == s + (a + b + c + d + e + f + g)
  {
  }

  // ---- The contract's reader ----

  function WordAt(args: seq<byte>, at: nat): nat
    requires at + 32 <= |args|
  {
    Value(args[at..at + 32])
  }

  function ReadString(args: seq<byte>, at: nat): Option<seq<byte>> {
    if |args| < at + 32 then None
    else
      var len := WordAt(args, at);
      if |args| < at + 32 + len then None else Some(args[at + 32..at + 32 + len])
  }

  function ReadRegister(call: seq<byte>): Option<RegisterArgs> {
    if |call| < 4 + HeadLength() then None else ReadArgs(call[4..])
  }

  function ReadArgs(args: seq<byte>): Option<RegisterArgs>
    requires |args| >= HeadLength()
  {
    match ReadString(args, WordAt(args, 0))
    case None => None
    case Some(url) =>
      if WordAt(args, 64) >= 256 || WordAt(args, 96) >= U64_LIMIT then None
      else Some(RegisterArgs(url, args[32..64], WordAt(args, 64), WordAt(args, 96),
                             seq(4, i requires 0 <= i < 4 => WordAt(args, 128 + 32 * i)), WordAt(args, 256)))
  }

  lemma WordReads(n: nat)
    requires n < U256_LIMIT
    ensures Value(Word(n)) == n
  {
    Pow256Values();
    BigEndianRoundTrip(n, 32);
  }

  lemma ReadsPrefix(h: seq<byte>, args: seq<byte>, at: nat)
    requires h <= args && at + 32 <= |h|
    ensures args[at..at + 32] == h[at..at + 32]
  {
  }

  lemma PrefixThrough(a: seq<byte>, b: seq<byte>, c: seq<byte>)
    requires a <= b && b <= c
    ensures a <= c
  {
    assert a == b[..|a|] == c[..|a|];
  }

  lemma SliceAtEnd(h: seq<byte>, s: seq<byte>, i: nat, j: nat)
    requires i <= j <= |s|
    ensures (h + s)[|h| + i..|h| + j] == s[i..j]
  {
  }

  lemma EndsWithWord(h: seq<byte>, n: nat)
    requires n < U256_LIMIT
    ensures |h + Word(n)| == |h| + 32 && WordAt(h + Word(n), |h|) == n
  {
    WordReads(n);
    assert (h + Word(n))[|h|..|h| + 32] == Word(n);
  }

  lemma WordIs(args: seq<byte>, at: nat, n: nat)
    requires n < U256_LIMIT && at + 32 <= |args| && args[at..at + 32] == Word(n)
    ensures WordAt(args, at) == n
  {
    WordReads(n);
  }

  lemma WordInside(h: seq<byte>, words: seq<byte>, at: nat, n: nat)
    requires n < U256_LIMIT && at + 32 <= |words| && words[at..at + 32] == Word(n)
    ensures WordAt(h + words, |h| + at) == n
  {
    SliceAtEnd(h, words, at, at + 32);
    WordIs(h + words, |h| + at, n);
  }

  /** Reading the head: each word where the layout puts it, whatever comes after. */
  lemma HeadReads(a: RegisterArgs, tail: seq<byte>)
    requires a.Valid()
    ensures var args := RegisterHead(a) + tail;
            && |RegisterHead(a)| == HeadLength()
            && WordAt(args, 0) == HeadLength() && args[32..64] == a.ecdhPubkey
            && WordAt(args, 64) == a.backendBitmap && WordAt(args, 96) == a.maxTokens
            && (forall i :: 0 <= i < 4 ==> WordAt(args, 128 + 32 * i) == a.pricePer1k[i])
            && WordAt(args, 256) == a.stake
  {
    var args := RegisterHead(a) + tail;
    var h1 := Word(HeadLength());
    var h2 := h1 + a.ecdhPubkey;
    var h3 := h2 + Word(a.backendBitmap);
    var h4 := h3 + Word(a.maxTokens);
    var h5 := h4 + Words(a.pricePer1k);
    var h6 := h5 + Word(a.stake);
    PrefixThrough(h5, h6, args);
    PrefixThrough(h4, h5, args);
    PrefixThrough(h3, h4, args);
    PrefixThrough(h2, h3, args);
    PrefixThrough(h1, h2, args);
    WordReads(HeadLength());
    ReadsPrefix(h1, args, 0);
    assert h1[0..32] == h1;
    ReadsPrefix(h2, args, 32);
    SliceAtEnd(h1, a.ecdhPubkey, 0, 32);
    assert a.ecdhPubkey[0..32] == a.ecdhPubkey;
    EndsWithWord(h2, a.backendBitmap);
    ReadsPrefix(h3, args, 64);
    EndsWithWord(h3, a.maxTokens);
    ReadsPrefix(h4, args, 96);
    forall i | 0 <= i < 4 ensures WordAt(args, 128 + 32 * i) == a.pricePer1k[i] {
      WordsSlice(a.pricePer1k, i);
      WordInside(h4, Words(a.pricePer1k), 32 * i, a.pricePer1k[i]);
      ReadsPrefix(h5, args, 128 + 32 * i);
    }
    EndsWithWord(h5, a.stake);
    ReadsPrefix(h6, args, 256);
  }

  lemma SliceInside(before: seq<byte>, s: seq<byte>, rest: seq<byte>, i: nat, j: nat)
    requires i <= j <= |s|
    ensures (before + s + rest)[|before| + i..|before| + j] == s[i..j]
  {
  }

  /**
   * Register round trip: for every URL length, a reader that follows the head's
   * offset gets every argument back, and the call is four bytes and whole words.
   */
  lemma RegisterRoundTrip(selector: seq<byte>, a: RegisterArgs)
    requires |selector| == 4 && a.Valid()
    ensures ReadRegister(RegisterCall(selector, a)) == Some(a)
    ensures |RegisterCall(selector, a)| % 32 == 4
  {
    ArgsRead(a);
    TailReads(RegisterHead(a), a.url);
    ReadAfterSelector(selector, RegisterHead(a) + StringTail(a.url));
    FourAndWholeWords(selector, RegisterHead(a), StringTail(a.url));
  }

  lemma ReadAfterSelector(selector: seq<byte>, args: seq<byte>)
    requires |selector| == 4 && |args| >= HeadLength()
    ensures ReadRegister(selector + args) == ReadArgs(args)
  {
    assert (selector + args)[4..] == args;
  }

  lemma FourAndWholeWords(selector: seq<byte>, head: seq<byte>, tail: seq<byte>)
    requires |selector| == 4 && |head| == HeadLength() && |tail| % 32 == 0
    ensures |selector + (head + tail)| % 32 == 4
  {
  }

  lemma ArgsRead(a: RegisterArgs)
    requires a.Valid()
    ensures var args := RegisterHead(a) + StringTail(a.url);
            |RegisterHead(a)| == HeadLength() && ReadArgs(args) == Some(a)
  {
    var args := RegisterHead(a) + StringTail(a.url);
    HeadReads(a, StringTail(a.url));
    TailReads(RegisterHead(a), a.url);
    FourPrices(args, a.pricePer1k);
  }

  lemma FourPrices(args: seq<byte>, prices: Prices)
    requires |args| >= HeadLength() && forall i :: 0 <= i < 4 ==> WordAt(args, 128 + 32 * i) == prices[i]
    ensures seq(4, i requires 0 <= i < 4 => WordAt(args, 128 + 32 * i)) == prices
  {
  }

  lemma TailReads(head: seq<byte>, url: seq<byte>)
    requires |url| < U64_LIMIT
    ensures ReadString(head + StringTail(url), |head|) == Some(url)
    ensures |StringTail(url)| % 32 == 0
  {
    var args := head + StringTail(url);
    WordReads(|url|);
    assert args == head + Word(|url|) + (url + Zeros(Padding(|url|)));
    SliceInside(head, Word(|url|), url + Zeros(Padding(|url|)), 0, 32);
    assert args == (head + Word(|url|)) + url + Zeros(Padding(|url|));
    SliceInside(head + Word(|url|), url, Zeros(Padding(|url|)), 0, |url|);
    WholeWords(|url|);
  }

  lemma WholeWords(n: nat)
    ensures (32 + n + Padding(n)) % 32 == 0
  {
  }

  // ---- What the registry then holds ----

  /** The price listed last for a backend, which is the one that stays in its slot. */
  function LastPrice(pricing: seq<BackendPrice>, k: Backend): nat {
    if pricing == [] then 0
    else
      var last := pricing[|pricing| - 1];
      var p := ParseU128(last.pricePer1k);
      if last.backend == k && p.Some? then p.value else LastPrice(pricing[..|pricing| - 1], k)
  }

  predicate AllParse(pricing: seq<BackendPrice>) {
    forall i :: 0 <= i < |pricing| ==> ParseU128(pricing[i].pricePer1k).Some?
  }

  /** Every backend's slot holds the word of its last price. */
  ghost predicate Priced(slots: seq<seq<byte>>, pricing: seq<BackendPrice>) {
    |slots| == 4 && forall k :: slots[BackendIndex(k)] == Word(LastPrice(pricing, k))
  }

  method PricingToArray(pricing: seq<BackendPrice>) returns (r: Option<array<seq<byte>>>)
    ensures r.Some? <==> AllParse(pricing)
    ensures r.Some? ==> fresh(r.value) && Priced(r.value[..], pricing)
  {
    var out := new seq<byte>[4](_ => Zeros(32));
    NoPrices(out[..]);
    for i := 0 to |pricing|
      invariant AllParse(pricing[..i]) && Priced(out[..], pricing[..i])
    {
      var units := ParseU128(pricing[i].pricePer1k);
      if units == None { return None; }
      ParsesNext(pricing, i);
      var idx := BackendIndex(pricing[i].backend);
      ghost var before := out[..];
      OnePrice(before, pricing, i);
      out[idx] := out[idx][..16] + BigEndian(units.value, 16);
      assert out[..] == before[idx := before[idx][..16] + BigEndian(units.value, 16)];
    }
    assert pricing[..|pricing|] == pricing;
    r := Some(out);
  }

  lemma ParsesNext(pricing: seq<BackendPrice>, i: nat)
    requires i < |pricing| && AllParse(pricing[..i]) && ParseU128(pricing[i].pricePer1k).Some?
    ensures AllParse(pricing[..i + 1])
  {
  }

  lemma NoPrices(slots: seq<seq<byte>>)
    requires |slots| == 4 && forall i :: 0 <= i < 4 ==> slots[i] == Zeros(32)
    ensures Priced(slots, [])
  {
    Pow256Values();
    ZeroPadded(0, 0, 32);
  }

  lemma {:induction false} LastPriceFits(pricing: seq<BackendPrice>, k: Backend)
    ensures LastPrice(pricing, k) < U128_LIMIT
  {
    if pricing != [] { LastPriceFits(pricing[..|pricing| - 1], k); }
  }

  /** Writing the low half of a slot that holds a `u128` replaces its value. */
  lemma OnePrice(slots: seq<seq<byte>>, pricing: seq<BackendPrice>, i: nat)
    requires i < |pricing| && Priced(slots, pricing[..i]) && ParseU128(pricing[i].pricePer1k).Some?
    ensures var units, idx := ParseU128(pricing[i].pricePer1k).value, BackendIndex(pricing[i].backend);
            Priced(slots[idx := slots[idx][..16] + BigEndian(units, 16)], pricing[..i + 1])
  {
    var units, k := ParseU128(pricing[i].pricePer1k).value, pricing[i].backend;
    var idx := BackendIndex(k);
    LastPriceFits(pricing[..i], k);
    LowHalfWrites(slots[idx], LastPrice(pricing[..i], k), units);
    assert pricing[..i + 1][..i] == pricing[..i];
    forall j ensures BackendIndex(j) == idx <==> j == k {}
  }

  lemma LowHalfWrites(slot: seq<byte>, was: nat, units: nat)
    requires was < U128_LIMIT && units < U128_LIMIT && slot == Word(was)
    ensures slot[..16] + BigEndian(units, 16) == Word(units)
  {
    EncodeUintIsWord(was);
    EncodeUintIsWord(units);
    assert slot[..16] == Zeros(16);
  }

  method BackendBitmap(backends: seq<Backend>) returns (bm: bv8)
    ensures forall k :: bm & BackendBit(k) != 0 <==> k in backends
  {
    bm := 0;
    for i := 0 to |backends|
      invariant forall k :: bm & BackendBit(k) != 0 <==> k in backends[..i]
    {
      ghost var was := bm;
      bm := bm | BackendBit(backends[i]);
      forall k ensures bm & BackendBit(k) != 0 <==> k == backends[i] || was & BackendBit(k) != 0 {
        OrBit(was, backends[i], k);
      }
    }
    assert backends[..|backends|] == backends;
  }

  lemma OrBit(bm: bv8, j: Backend, k: Backend)
    ensures (bm | BackendBit(j)) & BackendBit(k) != 0 <==> j == k || bm & BackendBit(k) != 0
  {
  }

  /** What the contract stores for the arguments it reads. */
  function InfoOf(a: RegisterArgs): NodeInfo
    requires a.Valid()
  {
    NodeInfo(a.url, a.ecdhPubkey, a.backendBitmap as bv8, a.maxTokens, a.pricePer1k)
  }

  /**
   * What an executed call advertises: in every registry, for every sender that
   * can afford it, exactly these backends at their last listed prices, under
   * this URL and key and with this stake.
   */
  ghost predicate Advertises(call: seq<byte>, url: seq<byte>, ecdhPubkey: seq<byte>, backends: seq<Backend>,
                             maxTokens: nat, pricing: seq<BackendPrice>, stake: nat) {
    var read := ReadRegister(call);
    && read.Some? && read.value.Valid() && read.value.stake == stake
    && forall self, r, b, sender :: AdvertisedIn(Register(self, r, b, sender, InfoOf(read.value), stake), sender,
                                                 url, ecdhPubkey, backends, maxTokens, pricing, stake)
  }

  predicate AdvertisedIn(outcome: Reg.Outcome, sender: Address, url: seq<byte>, ecdhPubkey: seq<byte>,
                         backends: seq<Backend>,
                         maxTokens: nat, pricing: seq<BackendPrice>, stake: nat) {
    outcome.Success? ==>
      var r := outcome.value.0;
      var n := NodeAt(r.nodes, sender);
      && n.active && n.stake == stake
      && n.info.url == url && n.info.ecdhPubkey == ecdhPubkey && n.info.maxTokens == maxTokens
      && forall k :: (SupportsBackend(r, sender, k) <==> k in backends)
                  && PriceFor(r, sender, k) == LastPrice(pricing, k)
  }

  /**
   * From the node's configuration to the registry: the call data `spawn_register`
   * builds, unless a price does not parse, advertises exactly that configuration.
   */
  method RegisterData(selector: seq<byte>, url: seq<byte>, ecdhPubkey: seq<byte>, backends: seq<Backend>,
                      maxTokens: nat, pricing: seq<BackendPrice>, stake: nat) returns (call: Option<seq<byte>>)
    requires |selector| == 4 && |url| < U64_LIMIT && |ecdhPubkey| == 32 && maxTokens < U32_LIMIT && stake < U128_LIMIT
    ensures call.Some? <==> AllParse(pricing)
    ensures call.Some? ==> Advertises(call.value, url, ecdhPubkey, backends, maxTokens, pricing, stake)
  {
    var bitmap := BackendBitmap(backends);
    var priceArray := PricingToArray(pricing);
    if priceArray == None { return None; }
    var slots := priceArray.value[..];
    SlotValues(slots, pricing);
    EncodeUintIsWord(stake);
    BitmapRoundTrip(bitmap);
    var data := EncodeRegister(selector, url, ecdhPubkey, bitmap as nat, maxTokens, slots, EncodeUint(stake));
    ConfigAdvertises(selector, url, ecdhPubkey, bitmap, backends, maxTokens, slots, pricing, stake);
    call := Some(data);
  }

  lemma ConfigAdvertises(selector: seq<byte>, url: seq<byte>, ecdhPubkey: seq<byte>, bitmap: bv8,
                         backends: seq<Backend>,
                         maxTokens: nat, slots: seq<seq<byte>>, pricing: seq<BackendPrice>, stake: nat)
    requires |selector| == 4 && |url| < U64_LIMIT && |ecdhPubkey| == 32 && maxTokens < U64_LIMIT && stake < U128_LIMIT
    requires Priced(slots, pricing) && forall k :: bitmap & BackendBit(k) != 0 <==> k in backends
    ensures Advertises(RegisterCall(selector, RegisterArgs(url, ecdhPubkey, bitmap as nat, maxTokens,
                                                           SlotPrices(slots), stake)),
                       url, ecdhPubkey, backends, maxTokens, pricing, stake)
  {
    SlotValues(slots, pricing);
    BitmapRoundTrip(bitmap);
    CallAdvertises(selector, RegisterArgs(url, ecdhPubkey, bitmap as nat, maxTokens, SlotPrices(slots), stake),
                   bitmap, backends, pricing);
  }

  lemma BitmapRoundTrip(bitmap: bv8)
    ensures bitmap as nat < 256 && (bitmap as nat) as bv8 == bitmap
  {
  }

  /** The slots of a price array are words of the prices listed last. */
  lemma SlotValues(slots: seq<seq<byte>>, pricing: seq<BackendPrice>)
    requires Priced(slots, pricing)
    ensures forall i :: 0 <= i < 4 ==> |slots[i]| == 32 && SlotPrices(slots)[i] < U256_LIMIT
    ensures forall k :: SlotPrices(slots)[BackendIndex(k)] == LastPrice(pricing, k)
  {
    forall i | 0 <= i < 4
      ensures |slots[i]| == 32 && SlotPrices(slots)[i] == LastPrice(pricing, BackendAt(i)) < U128_LIMIT
    {
      SlotValue(slots, pricing, BackendAt(i));
    }
    forall k ensures SlotPrices(slots)[BackendIndex(k)] == LastPrice(pricing, k) {
      SlotValue(slots, pricing, k);
    }
  }

  lemma SlotValue(slots: seq<seq<byte>>, pricing: seq<BackendPrice>, k: Backend)
    requires Priced(slots, pricing)
    ensures |slots[BackendIndex(k)]| == 32 && Value(slots[BackendIndex(k)]) == LastPrice(pricing, k) < U128_LIMIT
  {
    LastPriceFits(pricing, k);
    EncodeUintIsWord(LastPrice(pricing, k));
  }

  function BackendAt(i: nat): (k: Backend)
    requires i < 4
    ensures BackendIndex(k) == i
  {
    if i == 0 then MockTee else if i == 1 then Fhe else if i == 2 then Mcp else Local
  }

  lemma CallAdvertises(selector: seq<byte>, a: RegisterArgs, bitmap: bv8, backends: seq<Backend>,
                       pricing: seq<BackendPrice>)
    requires |selector| == 4 && a.Valid() && Configured(a, bitmap, backends, pricing)
    ensures Advertises(RegisterCall(selector, a), a.url, a.ecdhPubkey, backends, a.maxTokens, pricing, a.stake)
  {
    RegisterRoundTrip(selector, a);
    forall self, r, b, sender
      ensures AdvertisedIn(Register(self, r, b, sender, InfoOf(a), a.stake), sender,
                           a.url, a.ecdhPubkey, backends, a.maxTokens, pricing, a.stake)
    {
      RegistrationAdvertises(self, r, b, sender, a, bitmap, backends, pricing);
    }
  }

  /** The arguments say what the configuration says. */
  ghost predicate Configured(a: RegisterArgs, bitmap: bv8, backends: seq<Backend>, pricing: seq<BackendPrice>)
    requires a.Valid()
  {
    && a.backendBitmap as bv8 == bitmap
    && (forall k :: bitmap & BackendBit(k) != 0 <==> k in backends)
    && (forall k :: a.pricePer1k[BackendIndex(k)] == LastPrice(pricing, k))
  }

  lemma RegisteredNode(self: Address, r: RegState, b: Ledger.Balances, sender: Address, info: NodeInfo, stake: nat)
    requires Register(self, r, b, sender, info, stake).Success?
    ensures NodeAt(Register(self, r, b, sender, info, stake).value.0.nodes, sender) == Node(info, stake, true)
  {
  }

  lemma RegistrationAdvertises(self: Address, r: RegState, b: Ledger.Balances, sender: Address,
                               a: RegisterArgs, bitmap: bv8, backends: seq<Backend>, pricing: seq<BackendPrice>)
    requires a.Valid() && Configured(a, bitmap, backends, pricing)
    ensures AdvertisedIn(Register(self, r, b, sender, InfoOf(a), a.stake), sender,
                         a.url, a.ecdhPubkey, backends, a.maxTokens, pricing, a.stake)
  {
    if Register(self, r, b, sender, InfoOf(a), a.stake).Success? {
      RegisteredNode(self, r, b, sender, InfoOf(a), a.stake);
    }
  }

  /** `i` is where the backend is listed first. */
  predicate FirstListed(pricing: seq<BackendPrice>, k: Backend, i: nat) {
    i < |pricing| && pricing[i].backend == k && forall j :: 0 <= j < i ==> pricing[j].backend != k
  }

  predicate LastListed(pricing: seq<BackendPrice>, k: Backend, i: nat) {
    i < |pricing| && pricing[i].backend == k && forall j :: i < j < |pricing| ==> pricing[j].backend != k
  }

  /**
   * The node bills the price listed first for a backend while the registry
   * advertises the one listed last, so clients are billed what was advertised
   * exactly when those two entries agree; in particular when they are one.
   */
  lemma BilledAsAdvertisedIff(pricing: seq<BackendPrice>, k: Backend, first: nat, last: nat)
    requires AllParse(pricing) && FirstListed(pricing, k, first) && LastListed(pricing, k, last)
    ensures PriceUnits(pricing, k) == LastPrice(pricing, k)
            <==> ParseU128(pricing[first].pricePer1k) == ParseU128(pricing[last].pricePer1k)
  {
    BilledIsFirst(pricing, k, first);
    AdvertisedIsLast(pricing, k, last);
  }

  /** It happens: with a backend listed twice, one price is billed and another advertised. */
  lemma BilledNotAsAdvertised() returns (pricing: seq<BackendPrice>)
    ensures AllParse(pricing) && PriceUnits(pricing, Local) != LastPrice(pricing, Local)
  {
    pricing := [BackendPrice(Local, Print(1)), BackendPrice(Local, Print(2))];
    ParsePrint(1);
    ParsePrint(2);
    BilledAsAdvertisedIff(pricing, Local, 0, 1);
  }

  /** Billed is the price listed first, or nothing if it does not parse. */
  lemma {:induction false} BilledIsFirst(pricing: seq<BackendPrice>, k: Backend, first: nat)
    requires FirstListed(pricing, k, first)
    ensures var p := ParseU128(pricing[first].pricePer1k);
            PriceUnits(pricing, k) == if p.Some? then p.value else 0
  {
    if first > 0 { BilledIsFirst(pricing[1..], k, first - 1); }
  }

  /** And nothing is billed for a backend that is not listed. */
  lemma {:induction false} UnlistedIsFree(pricing: seq<BackendPrice>, k: Backend)
    requires forall i :: 0 <= i < |pricing| ==> pricing[i].backend != k
    ensures PriceUnits(pricing, k) == 0
  {
    if pricing != [] { UnlistedIsFree(pricing[1..], k); }
  }

  /** Bit and slot of a backend are the same place. */
  lemma BitIsSlot(k: Backend)
    ensures BackendBit(k) == (1 as bv8) << BackendIndex(k)
  {
  }

  lemma {:induction false} AdvertisedIsLast(pricing: seq<BackendPrice>, k: Backend, last: nat)
    requires AllParse(pricing) && LastListed(pricing, k, last)
    ensures Some(LastPrice(pricing, k)) == ParseU128(pricing[last].pricePer1k)
  {
    if last < |pricing| - 1 { AdvertisedIsLast(pricing[..|pricing| - 1], k, last); }
  }

  // ---- Reading a channel's deposit ----

  /** What `channels(id)` returns: eight static words. */
  function ChannelRecord(c: Channel): seq<byte> {
    Word(c.client) + Word(c.node) + Word(c.deposit)
    + (Word(c.latestCumOwed) + Word(c.latestNonce) + Word(c.challengeDeadline)
       + Word(c.openedAt) + Word(StatusCode(c.status)))
  }

  function StatusCode(s: Status): nat {
    match s case Absent => 0 case Open => 1 case Challenged => 2 case Closed => 3
  }

  /** `None` is the node's error: too short, or a deposit past `u128`. */
  function DecodeChannelDeposit(returndata: seq<byte>): Option<nat> {
    if |returndata| < 96 then None
    else
      var slot := returndata[64..96];
      if exists i :: 0 <= i < 16 && slot[i] != 0 then None else Some(Value(slot[16..]))
  }

  /** The node reads the struct's deposit exactly when it is below 2^128, and fails otherwise. */
  lemma DepositReadIff(c: Channel)
    requires c.deposit < U256_LIMIT
    ensures DecodeChannelDeposit(ChannelRecord(c)) == if c.deposit < U128_LIMIT then Some(c.deposit) else None
  {
    var slot := Word(c.deposit);
    assert ChannelRecord(c)[64..96] == slot;
    Pow256Values();
    WordReads(c.deposit);
    if c.deposit < U128_LIMIT {
      ZeroPadded(c.deposit, 16, 32);
      BigEndianRoundTrip(c.deposit, 16);
      assert slot[16..] == BigEndian(c.deposit, 16);
    } else if forall i :: 0 <= i < 16 ==> slot[i] == 0 {
      ZerosDropped(slot, 16);
      ValueBound(slot[16..]);
    }
  }

  lemma {:induction false} ZerosDropped(s: seq<byte>, n: nat)
    requires n <= |s| && forall i :: 0 <= i < n ==> s[i] == 0
    ensures Value(s[n..]) == Value(s)
  {
    if n > 0 {
      LeadingZeroByte(s[1..]);
      assert s == [0] + s[1..];
      ZerosDropped(s[1..], n - 1);
      assert s[1..][n - 1..] == s[n..];
    }
  }
}
