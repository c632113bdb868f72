/**
 * The 192 bytes both parties sign, which three programs build independently:
 * the contract with `abi.encode`, the node by filling an array slot by slot,
 * the dashboard with big-endian loops. Domain hashes are parameters.
 */
module Canonical {
  import opened Base
  import opened Bytes
  import opened Decimal

  // ---- The contract's layout ----

  /** One 32-byte ABI word. */
  function Word(n: nat): seq<byte> { BigEndian(n, 32) }

  function Zeros(n: nat): seq<byte> { seq(n, _ => 0) }

  /** An address is the number its 20 bytes denote; a bytes32 stands for itself. */
  function AbiEncodeUpdate(domain: seq<byte>, chainId: nat, contract: seq<byte>, channelId: seq<byte>,
                           nonce: nat, cumOwed: nat): seq<byte> {
    domain + Word(chainId) + Word(Value(contract)) + channelId + Word(nonce) + Word(cumOwed)
  }

  function AbiEncodeChannelKey(client: seq<byte>, node: seq<byte>, channelNonce: nat): seq<byte> {
    Word(Value(client)) + Word(Value(node)) + Word(channelNonce)
  }

  lemma {:induction false} ZeroPadded(n: nat, width: nat, total: nat)
    requires n < Pow256(width) && width <= total
    ensures BigEndian(n, total) == Zeros(total - width) + BigEndian(n, width)
    decreases total
  {
    if width > 0 {
      ZeroPadded(n / 256, width - 1, total - 1);
    } else if total > 0 {
      ZeroPadded(0, 0, total - 1);
    }
  }

  lemma PaddedBytes(s: seq<byte>)
    requires |s| <= 32
    ensures Word(Value(s)) == Zeros(32 - |s|) + s
  {
    PaddedTo(s, 32);
  }

  lemma PaddedTo(s: seq<byte>, total: nat)
    requires |s| <= total
    ensures BigEndian(Value(s), total) == Zeros(total - |s|) + s
  {
    ValueBound(s);
    ZeroPadded(Value(s), |s|, total);
    BigEndianOfValue(s);
  }

  // ---- The node's encoder ----

  function Overwritten(buf: seq<byte>, at: nat, src: seq<byte>): seq<byte>
    requires at + |src| <= |buf|
  {
    buf[..at] + src + buf[at + |src|..]
  }

  /** `copy_from_slice` and `Uint8Array.set`. */
  method Overwrite(out: array<byte>, at: nat, src: seq<byte>)
    requires at + |src| <= out.Length
    modifies out
    ensures out[..] == Overwritten(old(out[..]), at, src)
  {
    for i := 0 to |src|
      invariant forall k :: 0 <= k < out.Length ==> out[k] == if at <= k < at + i then src[k - at] else old(out[k])
    {
      out[at + i] := src[i];
    }
    ghost var was := old(out[..]);
    forall k | 0 <= k < out.Length ensures out[k] == Overwritten(was, at, src)[k] {
      assert old(out[k]) == was[k];
    }
  }

  /** The buffer holds `done` and is still zero after it. */
  ghost predicate Holds(buf: seq<byte>, done: seq<byte>) {
    |done| <= |buf| && buf == done + Zeros(|buf| - |done|)
  }

  /** All writers go from left to right: each write extends what the buffer holds. */
  method SetAt(out: array<byte>, at: nat, src: seq<byte>, ghost done: seq<byte>)
    requires at + |src| <= out.Length
    modifies out
    ensures |done| <= at && Holds(old(out[..]), done) ==> Holds(out[..], Extended(done, at, src))
  {
    Overwrite(out, at, src);
    if |done| <= at && Holds(old(out[..]), done) { OverwriteExtends(done, at, src, out.Length); }
  }

  lemma OverwriteExtends(done: seq<byte>, at: nat, src: seq<byte>, size: nat)
    requires |done| <= at && at + |src| <= size
    ensures Holds(Overwritten(done + Zeros(size - |done|), at, src), Extended(done, at, src))
  {
    assert (done + Zeros(size - |done|))[..at] == done + Zeros(at - |done|);
    assert (done + Zeros(size - |done|))[at + |src|..] == Zeros(size - at - |src|);
  }

  lemma NothingYet(buf: seq<byte>)
    requires buf == Zeros(|buf|)
    ensures Holds(buf, [])
  {
  }

  lemma Full(buf: seq<byte>, done: seq<byte>)
    requires Holds(buf, done) && |done| == |buf|
    ensures buf == done
  {
  }

  ghost function Extended(done: seq<byte>, at: nat, src: seq<byte>): (r: seq<byte>)
    requires |done| <= at
    ensures |r| == at + |src|
  {
    done + Zeros(at - |done|) + src
  }

  method CanonicalChannelUpdateBytes(domain: seq<byte>, chainId: nat, contract: seq<byte>, channelId: seq<byte>,
                                     nonce: nat, cumOwed: seq<byte>) returns (out: array<byte>)
    requires |domain| == 32 && |contract| == 20 && |channelId| == 32 && |cumOwed| == 32
    requires chainId < U64_LIMIT && nonce < U64_LIMIT
    ensures fresh(out) && out[..] == AbiEncodeUpdate(domain, chainId, contract, channelId, nonce, Value(cumOwed))
  {
    out := new byte[192](_ => 0);
    NothingYet(out[..]);
    SetAt(out, 0, domain, []);
    ghost var done := NextPart([], domain);
    assert done == domain;
    SetAt(out, 32 + 24, BigEndian(chainId, 8), done);
    done := Slot64(done, chainId);
    SetAt(out, 64 + 12, contract, done);
    done := SlotBytes(done, contract);
    SetAt(out, 96, channelId, done);
    done := NextPart(done, channelId);
    SetAt(out, 128 + 24, BigEndian(nonce, 8), done);
    done := Slot64(done, nonce);
    SetAt(out, 160, cumOwed, done);
    done := SlotBytes(done, cumOwed);
    Full(out[..], done);
  }

  /** A part that starts where the last one ended. */
  lemma NextPart(done: seq<byte>, s: seq<byte>) returns (r: seq<byte>)
    ensures r == Extended(done, |done|, s) == done + s
  {
    assert Zeros(0) == [];
    r := done + s;
  }

  /** A `u64` written at the end of a slot is that slot's word. */
  lemma Slot64(done: seq<byte>, n: nat) returns (r: seq<byte>)
    requires n < U64_LIMIT
    ensures r == Extended(done, |done| + 24, BigEndian(n, 8)) == done + Word(n)
  {
    Pow256Values();
    ZeroPadded(n, 8, 32);
    r := done + Word(n);
  }

  /** So are up to 32 bytes aligned right. */
  lemma SlotBytes(done: seq<byte>, s: seq<byte>) returns (r: seq<byte>)
    requires |s| <= 32
    ensures r == Extended(done, |done| + 32 - |s|, s) == done + Word(Value(s))
  {
    PaddedBytes(s);
    r := done + Word(Value(s));
  }

  // ---- From the wire ----

  function HexDigit(c: char): (r: Option<nat>)
    ensures r.Some? ==> r.value < 16
  {
    if '0' <= c <= '9' then Some(c as int - '0' as int)
    else if 'a' <= c <= 'f' then Some(c as int - 'a' as int + 10)
    else if 'A' <= c <= 'F' then Some(c as int - 'A' as int + 10)
    else None
  }

  /** `hex::decode`: an even number of hex digits, in either case. */
  function HexDecode(s: string): Option<seq<byte>> {
    if s == "" then Some([])
    else if |s| == 1 then None
    else match (HexDigit(s[0]), HexDigit(s[1]), HexDecode(s[2..]))
      case (Some(hi), Some(lo), Some(rest)) => Some([16 * hi + lo] + rest)
      case _ => None
  }

  predicate IsHex(s: string) { |s| % 2 == 0 && forall i :: 0 <= i < |s| ==> HexDigit(s[i]).Some? }

  function HexByte(c: char, d: char): byte
    requires HexDigit(c).Some? && HexDigit(d).Some?
  {
    16 * HexDigit(c).value + HexDigit(d).value
  }

  lemma {:induction false} HexDecodeIff(s: string)
    ensures HexDecode(s).Some? <==> IsHex(s)
    ensures IsHex(s) ==> |HexDecode(s).value| == |s| / 2
  {
    if |s| >= 2 {
      HexDecodeIff(s[2..]);
      assert forall i :: 2 <= i < |s| ==> s[i] == s[2..][i - 2];
      assert forall i :: 0 <= i < |s| - 2 ==> s[2..][i] == s[i + 2];
    }
  }

  lemma {:induction false} HexDecodeAt(s: string, i: nat)
    requires IsHex(s) && i < |s| / 2
    ensures HexDecode(s).Some? && |HexDecode(s).value| == |s| / 2
    ensures HexDecode(s).value[i] == HexByte(s[2 * i], s[2 * i + 1])
  {
    HexDecodeIff(s);
    HexDecodeIff(s[2..]);
    if i > 0 { HexDecodeAt(s[2..], i - 1); }
  }

  function HexChar(d: nat): char
    requires d < 16
  {
    if d < 10 then ('0' as int + d) as char else ('a' as int + d - 10) as char
  }

  /** `hex::encode`, and `toString(16)` padded to two digits. */
  function HexPrint(bytes: seq<byte>): string {
    if bytes == [] then "" else [HexChar(bytes[0] / 16), HexChar(bytes[0] % 16)] + HexPrint(bytes[1..])
  }

  lemma HexCharBack(d: nat)
    requires d < 16
    ensures HexDigit(HexChar(d)) == Some(d)
  {
  }

  /** Printed bytes decode to themselves. */
  lemma {:induction false} HexRoundTrip(bytes: seq<byte>)
    ensures HexDecode(HexPrint(bytes)) == Some(bytes) && |HexPrint(bytes)| == 2 * |bytes|
  {
    if bytes != [] {
      HexRoundTrip(bytes[1..]);
      HexCharBack(bytes[0] / 16);
      HexCharBack(bytes[0] % 16);
      var s := HexPrint(bytes);
      assert s[2..] == HexPrint(bytes[1..]);
      assert bytes == [bytes[0]] + bytes[1..];
    }
  }

  function ChannelIdFromHex(s: string): Option<seq<byte>> {
    var stripped := if |s| >= 2 && s[..2] == "0x" then s[2..] else s;
    match HexDecode(stripped)
    case None => None
    case Some(bytes) => if |bytes| == 32 then Some(bytes) else None
  }

  /** Decimal string to a 32-byte slot; only values below 2^128 are accepted. */
  function U256BeFromDecimal(s: string): Option<seq<byte>> {
    match ParseU128(s)
    case None => None
    case Some(n) => Some(Zeros(16) + BigEndian(n, 16))
  }

  /** Printing a total and reading it back gives the contract's word for it. */
  lemma DecimalSlot(n: nat)
    requires n < U128_LIMIT
    ensures U256BeFromDecimal(Print(n)) == Some(Word(n))
  {
    ParsePrint(n);
    Pow256Values();
    ZeroPadded(n, 16, 32);
  }

  datatype WireUpdate = WireUpdate(channelId: string, nonce: nat, cumOwed: string)

  /**
   * `channel_update_canonical_for`: when the id is 64 hex digits and the total
   * a decimal below 2^128, the bytes are those of the contract's `updateDigest`
   * for the values they denote; otherwise there are none.
   */
  method ChannelUpdateCanonicalFor(update: WireUpdate, domain: seq<byte>, chainId: nat, contract: seq<byte>)
    returns (out: Option<array<byte>>)
    requires |domain| == 32 && |contract| == 20 && chainId < U64_LIMIT && update.nonce < U64_LIMIT
    ensures out.Some? <==> ChannelIdFromHex(update.channelId).Some? && ParseU128(update.cumOwed).Some?
    ensures out.Some? ==> out.value[..] == AbiEncodeUpdate(domain, chainId, contract,
              ChannelIdFromHex(update.channelId).value, update.nonce, ParseU128(update.cumOwed).value)
  {
    var channelId := ChannelIdFromHex(update.channelId);
    if channelId == None { return None; }
    var cumOwed := U256BeFromDecimal(update.cumOwed);
    if cumOwed == None { return None; }
    var n := ParseU128(update.cumOwed).value;
    Pow256Values();
    ZeroPadded(n, 16, 32);
    BigEndianRoundTrip(n, 32);
    var bytes := CanonicalChannelUpdateBytes(domain, chainId, contract, channelId.value, update.nonce, cumOwed.value);
    out := Some(bytes);
  }

  // ---- The dashboard's encoder ----

  /** `u256BeBytes` and `u64BeBytes`: peel bytes off the low end, filling from the right. */
  method BeBytes(n: nat, width: nat) returns (bytes: array<byte>)
    ensures fresh(bytes) && bytes[..] == BigEndian(n, width)
  {
    bytes := new byte[width](_ => 0);
    var v := n;
    var i := width;
    while i > 0
      invariant 0 <= i <= width
      invariant BigEndian(n, width) == BigEndian(v, i) + bytes[i..]
    {
      i := i - 1;
      bytes[i] := v % 256;
      assert BigEndian(v, i + 1) == BigEndian(v / 256, i) + [v % 256];
      v := v / 256;
    }
    assert bytes[0..] == bytes[..];
  }

  /** `parseInt(pair, 16)` stored in a byte; what it makes of a pair that is not two hex digits is left open. */
  ghost predicate ParsesHex(parsePair: (char, char) -> byte) {
    forall c, d | HexDigit(c).Some? && HexDigit(d).Some? ::
      parsePair(c, d) == HexByte(c, d)
  }

  /** `None` is a thrown error. On hex digits it agrees with the node's decoder. */
  method HexToBytes(hex: string, parsePair: (char, char) -> byte) returns (r: Option<array<byte>>)
    ensures r.Some? <==> |hex| % 2 == 0
    ensures r.Some? ==> fresh(r.value) && r.value.Length == |hex| / 2
    ensures ParsesHex(parsePair) && IsHex(hex) ==> r.Some? && HexDecode(hex) == Some(r.value[..])
  {
    if |hex| % 2 != 0 { return None; }
    var bytes := new byte[|hex| / 2](_ => 0);
    for i := 0 to bytes.Length
      invariant forall j :: 0 <= j < i ==> bytes[j] == parsePair(hex[2 * j], hex[2 * j + 1])
    {
      bytes[i] := parsePair(hex[2 * i], hex[2 * i + 1]);
    }
    HexDecodeIff(hex);
    if ParsesHex(parsePair) && IsHex(hex) {
      forall i | 0 <= i < bytes.Length ensures bytes[i] == HexDecode(hex).value[i] {
        HexDecodeAt(hex, i);
      }
      assert bytes[..] == HexDecode(hex).value;
    }
    r := Some(bytes);
  }

  /** `s.slice(2)`: the digits after the 0x. */
  function Digits(s: string): string { if |s| < 2 then "" else s[2..] }

  /** The bytes such a string denotes. */
  function HexBytes(s: string): seq<byte> {
    match HexDecode(Digits(s))
    case None => []
    case Some(bytes) => bytes
  }

  predicate IsHexBytes(s: string, n: nat) { IsHex(Digits(s)) && |Digits(s)| == 2 * n }

  /** Whether `buf.set(hexToBytes(s.slice(2)), at)` throws: an odd length, or too many bytes for the buffer. */
  predicate Throws(s: string, at: nat, size: nat) { |Digits(s)| % 2 != 0 || at + |Digits(s)| / 2 > size }

  /** The node and the dashboard read the same 32 bytes off the same id, with its 0x. */
  lemma ChannelIdReads(id: seq<byte>)
    requires |id| == 32
    ensures var s := "0x" + HexPrint(id);
            ChannelIdFromHex(s) == Some(id) && IsHexBytes(s, 32) && HexBytes(s) == id
    ensures ChannelIdFromHex(HexPrint(id)) == Some(id)
  {
    var s := "0x" + HexPrint(id);
    HexRoundTrip(id);
    HexDecodeIff(HexPrint(id));
    assert s[..2] == "0x" && s[2..] == HexPrint(id);
    assert HexDigit(HexPrint(id)[1]).Some? && HexDigit("0x"[1]) == None;
    assert HexPrint(id)[..2][1] == HexPrint(id)[1];
  }

  method SetHex(out: array<byte>, at: nat, s: string, parsePair: (char, char) -> byte, ghost done: seq<byte>)
    returns (ok: bool, ghost bytes: seq<byte>)
    requires at <= out.Length
    modifies out
    ensures ok <==> !Throws(s, at, out.Length)
    ensures ok ==> |bytes| == |Digits(s)| / 2
    ensures ok && |done| <= at && Holds(old(out[..]), done) ==> Holds(out[..], Extended(done, at, bytes))
    ensures ok && ParsesHex(parsePair) && IsHex(Digits(s)) ==> HexBytes(s) == bytes
  {
    bytes := [];
    var r := HexToBytes(Digits(s), parsePair);
    if r == None || at + r.value.Length > out.Length { return false, []; }
    SetAt(out, at, r.value[..], done);
    return true, r.value[..];
  }

  /** An address, right-aligned in the slot at `at`. */
  method SetAddress(out: array<byte>, at: nat, s: string, parsePair: (char, char) -> byte, ghost done: seq<byte>)
    returns (ok: bool, ghost bytes: seq<byte>)
    requires at + 12 <= out.Length
    modifies out
    ensures ok <==> !Throws(s, at + 12, out.Length)
    ensures ok ==> |bytes| == |Digits(s)| / 2
    ensures ok && |bytes| == 20 && |done| == at && Holds(old(out[..]), done) ==>
              Holds(out[..], done + Word(Value(bytes)))
    ensures ok && ParsesHex(parsePair) && IsHex(Digits(s)) ==> HexBytes(s) == bytes
  {
    ok, bytes := SetHex(out, at + 12, s, parsePair, done);
    if ok && |bytes| == 20 { ghost var next := SlotBytes(done, bytes); }
  }

  method SetWord(out: array<byte>, at: nat, n: nat, ghost done: seq<byte>)
    requires at + 32 <= out.Length
    modifies out
    ensures |done| == at && Holds(old(out[..]), done) ==> Holds(out[..], done + Word(n))
  {
    var slot := BeBytes(n, 32);
    SetAt(out, at, slot[..], done);
    if |done| == at { ghost var next := NextPart(done, Word(n)); }
  }

  method SetU64(out: array<byte>, at: nat, n: nat, ghost done: seq<byte>)
    requires at + 32 <= out.Length && n < U64_LIMIT
    modifies out
    ensures |done| == at && Holds(old(out[..]), done) ==> Holds(out[..], done + Word(n))
  {
    var bytes := BeBytes(n, 8);
    SetAt(out, at + 24, bytes[..], done);
    if |done| == at { ghost var next := Slot64(done, n); }
  }

  /** `None` is a thrown error. For well-formed arguments the bytes are the contract's. */
  method ChannelUpdateCanonical(domain: seq<byte>, chainId: nat, channelContract: string, channelId: string,
                                nonce: nat, cumOwed: nat, parsePair: (char, char) -> byte)
    returns (r: Option<array<byte>>)
    requires |domain| == 32
    ensures r == None <==> Throws(channelContract, 64 + 12, 192) || Throws(channelId, 96, 192)
    ensures r.Some? ==> fresh(r.value)
    ensures ParsesHex(parsePair) && IsHexBytes(channelContract, 20) && IsHexBytes(channelId, 32) ==>
              r.Some? && r.value[..] == AbiEncodeUpdate(domain, chainId, HexBytes(channelContract), HexBytes(channelId),
                                                        nonce, cumOwed)
  {
    var out := new byte[192](_ => 0);
    NothingYet(out[..]);
    SetAt(out, 0, domain, []);
    ghost var done := NextPart([], domain);
    assert done == domain;
    SetWord(out, 32, chainId, done);
    done := done + Word(chainId);
    var ok;
    ghost var contract, id;
    ok, contract := SetAddress(out, 64, channelContract, parsePair, done);
    if !ok { return None; }
    done := done + Word(Value(contract));
    ok, id := SetHex(out, 96, channelId, parsePair, done);
    if !ok { return None; }
    if |contract| == 20 && |id| == 32 { done := NextPart(done, id); }
    SetWord(out, 128, nonce, done);
    done := done + Word(nonce);
    SetWord(out, 160, cumOwed, done);
    done := done + Word(cumOwed);
    if |contract| == 20 && |id| == 32 { Full(out[..], done); }
    r := Some(out);
  }

  /** What `channelIdOf` hashes. */
  method ChannelKey(client: string, node: string, channelNonce: nat, parsePair: (char, char) -> byte)
    returns (r: Option<array<byte>>)
    requires channelNonce < U64_LIMIT
    ensures r == None <==> Throws(client, 12, 96) || Throws(node, 32 + 12, 96)
    ensures r.Some? ==> fresh(r.value)
    ensures ParsesHex(parsePair) && IsHexBytes(client, 20) && IsHexBytes(node, 20) ==>
              r.Some? && r.value[..] == AbiEncodeChannelKey(HexBytes(client), HexBytes(node), channelNonce)
  {
    var buf := new byte[96](_ => 0);
    NothingYet(buf[..]);
    var ok;
    ghost var c, n;
    ok, c := SetAddress(buf, 0, client, parsePair, []);
    if !ok { return None; }
    ghost var done := Word(Value(c));
    assert [] + done == done;
    ok, n := SetAddress(buf, 32, node, parsePair, done);
    if !ok { return None; }
    done := done + Word(Value(n));
    SetU64(buf, 64, channelNonce, done);
    done := done + Word(channelNonce);
    if |c| == 20 && |n| == 20 { Full(buf[..], done); }
    r := Some(buf);
  }

  // ---- What the bytes bind ----

  lemma WordInjective(m: nat, n: nat)
    requires m < U256_LIMIT && n < U256_LIMIT && Word(m) == Word(n)
    ensures m == n
  {
    Pow256Values();
    BigEndianInjective(m, n, 32);
  }

  lemma AddressInjective(a: seq<byte>, b: seq<byte>)
    requires |a| == |b| == 20 && Word(Value(a)) == Word(Value(b))
    ensures a == b
  {
    PaddedBytes(a);
    PaddedBytes(b);
    assert a == (Zeros(12) + a)[12..] && b == (Zeros(12) + b)[12..];
  }

  /**
   * One byte string is one state of one channel of one contract on one chain:
   * a signature over it cannot be replayed for any other.
   */
  lemma UpdateBytesInjective(domain: seq<byte>, chainId: nat, contract: seq<byte>, id: seq<byte>, nonce: nat, owed: nat,
                             chainId': nat, contract': seq<byte>, id': seq<byte>, nonce': nat, owed': nat)
    requires |domain| == 32 && |contract| == |contract'| == 20 && |id| == |id'| == 32
    requires chainId < U256_LIMIT && nonce < U256_LIMIT && owed < U256_LIMIT
    requires chainId' < U256_LIMIT && nonce' < U256_LIMIT && owed' < U256_LIMIT
    requires AbiEncodeUpdate(domain, chainId, contract, id, nonce, owed)
          == AbiEncodeUpdate(domain, chainId', contract', id', nonce', owed')
    ensures chainId == chainId' && contract == contract' && id == id' && nonce == nonce' && owed == owed'
  {
    var head, head' := domain + Word(chainId), domain + Word(chainId');
    var mid, mid' := head + Word(Value(contract)), head' + Word(Value(contract'));
    SplitRight(mid + id + Word(nonce), Word(owed), mid' + id' + Word(nonce'), Word(owed'));
    SplitRight(mid + id, Word(nonce), mid' + id', Word(nonce'));
    SplitRight(mid, id, mid', id');
    SplitRight(head, Word(Value(contract)), head', Word(Value(contract')));
    SplitRight(domain, Word(chainId), domain, Word(chainId'));
    WordInjective(chainId, chainId');
    AddressInjective(contract, contract');
    WordInjective(nonce, nonce');
    WordInjective(owed, owed');
  }

  lemma SplitRight(x: seq<byte>, s: seq<byte>, y: seq<byte>, t: seq<byte>)
    requires |s| == |t| && x + s == y + t
    ensures x == y && s == t
  {
    assert |x| == |y|;
    assert x == (x + s)[..|x|] && y == (y + t)[..|y|];
    assert s == (x + s)[|x|..] && t == (y + t)[|y|..];
  }

  /** A channel id's preimage determines the pair and its counter. */
  lemma ChannelKeyInjective(client: seq<byte>, node: seq<byte>, n: nat, client': seq<byte>, node': seq<byte>, n': nat)
    requires |client| == |client'| == |node| == |node'| == 20 && n < U64_LIMIT && n' < U64_LIMIT
    requires AbiEncodeChannelKey(client, node, n) == AbiEncodeChannelKey(client', node', n')
    ensures client == client' && node == node' && n == n'
  {
    SplitRight(Word(Value(client)) + Word(Value(node)), Word(n), Word(Value(client')) + Word(Value(node')), Word(n'));
    SplitRight(Word(Value(client)), Word(Value(node)), Word(Value(client')), Word(Value(node')));
    AddressInjective(client, client');
    AddressInjective(node, node');
    WordInjective(n, n');
  }
}
