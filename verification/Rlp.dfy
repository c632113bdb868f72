/**
 * Recursive length prefix encoding. The encoder is the node's; the decoder is
 * the strict reader the Ethereum network applies (Yellow Paper, Appendix B).
 */
module Rlp {
  import opened Base
  import opened Bytes

  datatype Item = Str(bytes: seq<byte>) | List(items: seq<Item>)

  const STRING_OFFSET: nat := 0x80
  const LIST_OFFSET: nat := 0xc0

  type Offset = o: nat | o == STRING_OFFSET || o == LIST_OFFSET witness STRING_OFFSET

  // ---- Specification of the encoder ----

  /** The prefix byte never overflows: 0xc0 + 55 + 8 is 255. */
  function LengthPrefix(len: nat, offset: Offset): seq<byte> {
    if len < 56 then [offset + len]
    else
      var be := Shortest(len, 8);
      [offset + 55 + |be|] + be
  }

  function BytesEncoding(s: seq<byte>): seq<byte> {
    if |s| == 1 && s[0] < 0x80 then s else LengthPrefix(|s|, STRING_OFFSET) + s
  }

  function Concat(parts: seq<seq<byte>>): seq<byte> {
    if parts == [] then [] else parts[0] + Concat(parts[1..])
  }

  function ListEncoding(parts: seq<seq<byte>>): seq<byte> {
    LengthPrefix(|Concat(parts)|, LIST_OFFSET) + Concat(parts)
  }

  /** A whole tree, encoded from the leaves up. */
  function Encoding(t: Item): seq<byte>
    decreases t
  {
    match t
    case Str(s) => BytesEncoding(s)
    case List(ts) => ListEncoding(Encodings(ts))
  }

  function Encodings(ts: seq<Item>): (parts: seq<seq<byte>>)
    ensures |parts| == |ts|
    ensures forall i :: 0 <= i < |ts| ==> parts[i] == Encoding(ts[i])
    decreases ts
  {
    if ts == [] then [] else [Encoding(ts[0])] + Encodings(ts[1..])
  }

  /** Every string and every payload has a 64-bit length, as any Rust slice does. */
  predicate Fits(t: Item)
    decreases t
  {
    match t
    case Str(s) => |s| < U64_LIMIT
    case List(ts) => |Concat(Encodings(ts))| < U64_LIMIT && AllFit(ts)
  }

  predicate AllFit(ts: seq<Item>)
    decreases ts
  {
    ts == [] || (Fits(ts[0]) && AllFit(ts[1..]))
  }

  // ---- The encoder ----

  method EncodeLength(len: nat, offset: Offset) returns (out: seq<byte>)
    requires len < U64_LIMIT
    ensures out == LengthPrefix(len, offset)
  {
    if len < 56 { return [offset + len]; }
    var lenBytes := BigEndian(len, 8);
    var first := LeadingZeros(lenBytes);
    var lenBe := lenBytes[first..];
    out := [offset + 55 + |lenBe|];
    out := out + lenBe;
  }

  method EncodeBytes(s: seq<byte>) returns (out: seq<byte>)
    requires |s| < U64_LIMIT
    ensures out == BytesEncoding(s)
  {
    if |s| == 1 && s[0] < 0x80 { return [s[0]]; }
    out := EncodeLength(|s|, STRING_OFFSET);
    out := out + s;
  }

  method EncodeList(items: seq<seq<byte>>) returns (out: seq<byte>)
    requires |Concat(items)| < U64_LIMIT
    ensures out == ListEncoding(items)
  {
    var payloadLen := 0;
    for i := 0 to |items|
      invariant payloadLen == |Concat(items[..i])|
    {
      ConcatSnoc(items, i);
      payloadLen := payloadLen + |items[i]|;
    }
    assert items[..|items|] == items;
    out := EncodeLength(payloadLen, LIST_OFFSET);
    for i := 0 to |items|
      invariant out == LengthPrefix(payloadLen, LIST_OFFSET) + Concat(items[..i])
    {
      ConcatSnoc(items, i);
      out := out + items[i];
    }
  }

  lemma {:induction false} ConcatPlus(a: seq<seq<byte>>, b: seq<seq<byte>>)
    ensures Concat(a + b) == Concat(a) + Concat(b)
  {
    if a == [] {
      assert a + b == b;
    } else {
      assert (a + b)[1..] == a[1..] + b;
      ConcatPlus(a[1..], b);
    }
  }

  lemma ConcatSnoc(items: seq<seq<byte>>, i: nat)
    requires i < |items|
    ensures Concat(items[..i + 1]) == Concat(items[..i]) + items[i]
  {
    assert items[..i + 1] == items[..i] + [items[i]];
    ConcatPlus(items[..i], [items[i]]);
    assert Concat([items[i]][1..]) == [];
  }

  // ---- The decoder ----

  /** Splits off the payload a length prefix announces; only the shortest prefix is accepted. */
  function TakePayload(s: seq<byte>, offset: Offset): (r: Option<(seq<byte>, seq<byte>)>)
    ensures r.Some? ==> |r.value.0| < |s| && |r.value.1| < |s|
  {
    if s == [] || !(offset <= s[0] < offset + 64) then None
    else if s[0] - offset < 56 then Split(s[1..], s[0] - offset)
    else
      var n := s[0] - offset - 55;
      if |s| < 1 + n || s[1] == 0 || Value(s[1..1 + n]) < 56 then None
      else Split(s[1 + n..], Value(s[1..1 + n]))
  }

  function Split(s: seq<byte>, len: nat): (r: Option<(seq<byte>, seq<byte>)>)
    ensures r.Some? ==> |r.value.0| <= |s| && |r.value.1| <= |s|
  {
    if |s| < len then None else Some((s[..len], s[len..]))
  }

  /** One item, and what follows it. */
  function Decode(s: seq<byte>): (r: Option<(Item, seq<byte>)>)
    ensures r.Some? ==> |r.value.1| < |s|
    decreases |s|, 0
  {
    if s == [] then None
    else if s[0] < 0x80 then Some((Str([s[0]]), s[1..]))
    else if s[0] < LIST_OFFSET then
      match TakePayload(s, STRING_OFFSET)
      case None => None
      case Some((payload, rest)) =>
        if |payload| == 1 && payload[0] < 0x80 then None else Some((Str(payload), rest))
    else
      match TakePayload(s, LIST_OFFSET)
      case None => None
      case Some((payload, rest)) =>
        match DecodeAll(payload)
        case None => None
        case Some(ts) => Some((List(ts), rest))
  }

  function DecodeAll(s: seq<byte>): Option<seq<Item>>
    decreases |s|, 1
  {
    if s == [] then Some([])
    else match Decode(s)
      case None => None
      case Some((t, rest)) =>
        match DecodeAll(rest)
        case None => None
        case Some(ts) => Some([t] + ts)
  }

  // ---- Decoding undoes encoding, and nothing else decodes ----

  lemma TakeOfPrefix(payload: seq<byte>, rest: seq<byte>, offset: Offset)
    requires |payload| < U64_LIMIT
    ensures TakePayload(LengthPrefix(|payload|, offset) + payload + rest, offset) == Some((payload, rest))
  {
    if |payload| < 56 {
      TakeShort(payload, rest, offset);
    } else {
      Pow256Values();
      ShortestIsMinimal(|payload|, 8);
      TakeLong(Shortest(|payload|, 8), payload, rest, offset);
    }
  }

  lemma SplitJoined(payload: seq<byte>, rest: seq<byte>)
    ensures Split(payload + rest, |payload|) == Some((payload, rest))
  {
  }

  lemma TakeShort(payload: seq<byte>, rest: seq<byte>, offset: Offset)
    requires |payload| < 56
    ensures TakePayload([offset + |payload|] + payload + rest, offset) == Some((payload, rest))
  {
    assert ([offset + |payload|] + payload + rest)[1..] == payload + rest;
    SplitJoined(payload, rest);
  }

  lemma TakeLong(be: seq<byte>, payload: seq<byte>, rest: seq<byte>, offset: Offset)
    requires 0 < |be| <= 8 && be[0] != 0 && Value(be) == |payload| >= 56
    ensures TakePayload([offset + 55 + |be|] + be + payload + rest, offset) == Some((payload, rest))
  {
    AfterFirst(offset + 55 + |be|, be, payload, rest);
    SplitJoined(payload, rest);
  }

  lemma AfterFirst(first: byte, be: seq<byte>, payload: seq<byte>, rest: seq<byte>)
    requires be != []
    ensures var s := [first] + be + payload + rest;
            s[0] == first && s[1] == be[0] && s[1..1 + |be|] == be && s[1 + |be|..] == payload + rest
  {
  }

  /** Up to eight bytes without a leading zero are the length bytes of what they denote. */
  lemma LongPrefix(be: seq<byte>, offset: Offset)
    requires 0 < |be| <= 8 && be[0] != 0 && Value(be) >= 56
    ensures Value(be) < U64_LIMIT && LengthPrefix(Value(be), offset) == [offset + 55 + |be|] + be
  {
    ShortestOfMinimal(be, 8);
    Pow256Values();
  }

  lemma SplitParts(s: seq<byte>, len: nat)
    requires Split(s, len).Some?
    ensures |Split(s, len).value.0| == len && s == Split(s, len).value.0 + Split(s, len).value.1
  {
  }

  lemma TakeIsPrefix(s: seq<byte>, offset: Offset)
    requires TakePayload(s, offset).Some?
    ensures var (payload, rest) := TakePayload(s, offset).value;
            |payload| < U64_LIMIT && s == LengthPrefix(|payload|, offset) + payload + rest
  {
    if s[0] - offset < 56 {
      SplitParts(s[1..], s[0] - offset);
      assert s == [s[0]] + s[1..];
    } else {
      var n := s[0] - offset - 55;
      TakeLongIsPrefix(s, s[1..1 + n], s[1 + n..], offset);
    }
  }

  lemma TakeLongIsPrefix(s: seq<byte>, be: seq<byte>, tail: seq<byte>, offset: Offset)
    requires 0 < |be| <= 8 && be[0] != 0 && Value(be) >= 56 && s == [offset + 55 + |be|] + be + tail
    requires Split(tail, Value(be)).Some?
    ensures var (payload, rest) := Split(tail, Value(be)).value;
            |payload| < U64_LIMIT && s == LengthPrefix(|payload|, offset) + payload + rest
  {
    LongPrefix(be, offset);
    SplitParts(tail, Value(be));
  }

  /** Round trip: the decoder recovers the tree and leaves what follows untouched. */
  lemma {:induction false} DecodeEncoding(t: Item, rest: seq<byte>)
    requires Fits(t)
    ensures Decode(Encoding(t) + rest) == Some((t, rest))
    decreases t
  {
    match t
    case Str(s) =>
      if |s| == 1 && s[0] < 0x80 {
        assert (s + rest)[1..] == rest && [s[0]] == s;
      } else {
        TakeOfPrefix(s, rest, STRING_OFFSET);
        Pow256Values();
        ShortestIsMinimal(|s|, 8);
      }
    case List(ts) =>
      var payload := Concat(Encodings(ts));
      TakeOfPrefix(payload, rest, LIST_OFFSET);
      DecodeEncodings(ts);
  }

  lemma {:induction false} DecodeEncodings(ts: seq<Item>)
    requires AllFit(ts)
    ensures DecodeAll(Concat(Encodings(ts))) == Some(ts)
    decreases ts
  {
    if ts != [] {
      DecodeEncoding(ts[0], Concat(Encodings(ts[1..])));
      DecodeEncodings(ts[1..]);
      assert Encodings(ts)[1..] == Encodings(ts[1..]);
      assert [ts[0]] + ts[1..] == ts;
    }
  }

  /** Conversely, whatever decodes is the encoding of what it decodes to. */
  lemma {:induction false} EncodingOfDecoded(s: seq<byte>)
    requires Decode(s).Some?
    ensures var (t, rest) := Decode(s).value; Fits(t) && s == Encoding(t) + rest
    decreases |s|, 0
  {
    if s[0] >= 0x80 {
      var offset: Offset := if s[0] < LIST_OFFSET then STRING_OFFSET else LIST_OFFSET;
      TakeIsPrefix(s, offset);
      if offset == LIST_OFFSET {
        EncodingsOfDecoded(TakePayload(s, offset).value.0);
      }
    } else {
      assert s == [s[0]] + s[1..];
    }
  }

  lemma {:induction false} EncodingsOfDecoded(s: seq<byte>)
    requires DecodeAll(s).Some?
    ensures var ts := DecodeAll(s).value; AllFit(ts) && Concat(Encodings(ts)) == s
    decreases |s|, 1
  {
    if s != [] {
      EncodingOfDecoded(s);
      var (t, rest) := Decode(s).value;
      EncodingsOfDecoded(rest);
      var ts := DecodeAll(rest).value;
      assert ([t] + ts)[1..] == ts;
      assert Encodings([t] + ts)[1..] == Encodings(ts);
    }
  }

  /** The decoder is exactly the inverse of the encoder, on every byte string. */
  lemma DecodeIffEncoding(s: seq<byte>, t: Item, rest: seq<byte>)
    ensures Decode(s) == Some((t, rest)) <==> Fits(t) && s == Encoding(t) + rest
  {
    if Decode(s) == Some((t, rest)) { EncodingOfDecoded(s); }
    if Fits(t) { DecodeEncoding(t, rest); }
  }

  /** So encodings are prefix-free and injective. */
  lemma PrefixFree(t: Item, u: Item, x: seq<byte>, y: seq<byte>)
    requires Fits(t) && Fits(u) && Encoding(t) + x == Encoding(u) + y
    ensures t == u && x == y
  {
    DecodeEncoding(t, x);
    DecodeEncoding(u, y);
  }
}
