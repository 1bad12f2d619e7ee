/**
 The encoders the bundle generator assembles WebAssembly modules with: LEB128 integers
 (section 5.2.2 of the WebAssembly Core Specification), sections and vectors.
 */
module Leb128 {
  import opened Octets
  import opened Options

  const U32: int := 0x1_0000_0000

  // ---------------------------------------------------------------- what the loops compute

  /** Seven bits at a time, low ones first; the high bit of a byte says that more follow. */
  function Uleb(n: nat): seq<Byte> {
    if n / 128 == 0 then [n % 128] else [n % 128 + 128] + Uleb(n / 128)
  }

  /** The low seven bits say it all: the rest is their sign. */
  predicate Final(n: int) {
    (n / 128 == 0 && n % 128 < 64) || (n / 128 == -1 && n % 128 >= 64)
  }

  /** The same for signed numbers; `/` rounds down as an arithmetic shift does. */
  function Sleb(n: int): seq<Byte>
    decreases if n < 0 then -n - 1 else n
  {
    if Final(n) then [n % 128] else [n % 128 + 128] + Sleb(n / 128)
  }

  /** uleb: a loop over the shrinking number. */
  method EncodeUnsigned(value: nat) returns (out: seq<Byte>)
    requires value < U32
    ensures out == Uleb(value)
  {
    out := [];
    var n := value;
    while true
      invariant 0 <= n && out + Uleb(n) == Uleb(value)
      decreases n
    {
      var b: Byte := n % 128;
      ghost var before := n;
      n := n / 128;
      if n != 0 {
        b := b + 128;
      }
      assert Uleb(before) == [b] + if n == 0 then [] else Uleb(n);
      out := out + [b];
      if n == 0 {
        return;
      }
    }
  }

  /** One round of the loop: a byte moves from the number to the output, and the number shrinks. */
  lemma ByteAppended(out: seq<Byte>, n: int)
    ensures Final(n) ==> out + Sleb(n) == out + [n % 128]
    ensures !Final(n) ==> out + Sleb(n) == out + [n % 128 + 128] + Sleb(n / 128)
    ensures !Final(n) ==> (if n < 0 then -(n / 128) - 1 < -n - 1 else n / 128 < n) && (n < 0 <==> n / 128 < 0)
  {
    if !Final(n) {
      assert out + ([n % 128 + 128] + Sleb(n / 128)) == out + [n % 128 + 128] + Sleb(n / 128);
    }
  }

  /** sleb. */
  method EncodeSigned(value: int) returns (out: seq<Byte>)
    requires -0x8000_0000 <= value < 0x8000_0000
    ensures out == Sleb(value)
  {
    out := [];
    var n, more := value, true;
    while more
      invariant more ==> out + Sleb(n) == Sleb(value)
      invariant !more ==> out == Sleb(value)
      decreases more, if n < 0 then -n - 1 else n
    {
      var b: Byte := n % 128;
      ghost var before := n;
      n := n / 128;
      if (n == 0 && b < 64) || (n == -1 && b >= 64) {
        more := false;
      } else {
        b := b + 128;
      }
      ByteAppended(out, before);
      out := out + [b];
    }
  }

  // ---------------------------------------------------------------- decoding

  /** The number at the front of a byte stream, and what is left of the stream. */
  function ReadUnsigned(s: seq<Byte>): Option<(nat, seq<Byte>)> {
    if s == [] then None
    else if s[0] < 128 then Some((s[0], s[1..]))
    else
      match ReadUnsigned(s[1..])
      case None => None
      case Some(r) => Some((s[0] - 128 + 128 * r.0, r.1))
  }

  function ReadSigned(s: seq<Byte>): Option<(int, seq<Byte>)> {
    if s == [] then None
    else if s[0] < 128 then
      var b: int := s[0];
      Some((if b >= 64 then b - 128 else b, s[1..]))
    else
      match ReadSigned(s[1..])
      case None => None
      case Some(r) => Some((s[0] - 128 + 128 * r.0, r.1))
  }

  /** Decoding inverts encoding and stops exactly where the encoding ends, whatever follows. */
  lemma {:induction false} UnsignedRoundTrip(n: nat, tail: seq<Byte>)
    ensures ReadUnsigned(Uleb(n) + tail) == Some((n, tail))
  {
    if n / 128 == 0 {
      assert Uleb(n) + tail == [n % 128] + tail;
    } else {
      UnsignedRoundTrip(n / 128, tail);
      var s := Uleb(n) + tail;
      assert s == [n % 128 + 128] + (Uleb(n / 128) + tail);
      assert s[1..] == Uleb(n / 128) + tail;
    }
  }

  lemma {:induction false} SignedRoundTrip(n: int, tail: seq<Byte>)
    ensures ReadSigned(Sleb(n) + tail) == Some((n, tail))
    decreases if n < 0 then -n - 1 else n
  {
    var b, m := n % 128, n / 128;
    if (m == 0 && b < 64) || (m == -1 && b >= 64) {
      assert Sleb(n) + tail == [b] + tail;
    } else {
      SignedRoundTrip(m, tail);
      var s := Sleb(n) + tail;
      assert s == [b + 128] + (Sleb(m) + tail);
      assert s[1..] == Sleb(m) + tail;
    }
  }

  /** No byte sequence for the same number is shorter. */
  lemma {:induction false} UnsignedIsShortest(s: seq<Byte>)
    ensures ReadUnsigned(s).Some? ==>
              var (n, rest) := ReadUnsigned(s).value; |Uleb(n)| <= |s| - |rest|
  {
    if s != [] && s[0] >= 128 {
      UnsignedIsShortest(s[1..]);
      if ReadUnsigned(s[1..]).Some? {
        var (v, rest) := ReadUnsigned(s[1..]).value;
        SplitDigit(s[0] - 128, v);
      }
    }
  }

  lemma {:induction false} SignedIsShortest(s: seq<Byte>)
    ensures ReadSigned(s).Some? ==>
              var (n, rest) := ReadSigned(s).value; |Sleb(n)| <= |s| - |rest|
  {
    if s != [] && s[0] >= 128 {
      SignedIsShortest(s[1..]);
      if ReadSigned(s[1..]).Some? {
        var (v, rest) := ReadSigned(s[1..]).value;
        SplitDigit(s[0] - 128, v);
      }
    }
  }

  lemma SplitDigit(b: int, v: int)
    requires 0 <= b < 128
    ensures (b + 128 * v) % 128 == b && (b + 128 * v) / 128 == v
  {
  }

  function Pow128(k: nat): nat {
    if k == 0 then 1 else 128 * Pow128(k - 1)
  }

  lemma {:induction false} UnsignedLength(n: nat, k: nat)
    requires k >= 1 && n < Pow128(k)
    ensures |Uleb(n)| <= k
  {
    if n / 128 != 0 {
      UnsignedLength(n / 128, k - 1);
    }
  }

  lemma {:induction false} SignedLength(n: int, k: nat)
    requires k >= 1 && -64 * Pow128(k - 1) <= n < 64 * Pow128(k - 1)
    ensures |Sleb(n)| <= k
    decreases k
  {
    if k > 1 {
      SignedLength(n / 128, k - 1);
    }
  }

  /** Thirty-two bits fit in five bytes. */
  lemma FiveBytesSuffice(n: nat, i: int)
    requires n < U32 && -0x8000_0000 <= i < 0x8000_0000
    ensures |Uleb(n)| <= 5 && |Sleb(i)| <= 5
  {
    assert Pow128(4) == 0x1000_0000 by {
      assert Pow128(2) == 16384;
    }
    UnsignedLength(n, 5);
    SignedLength(i, 5);
  }

  // ---------------------------------------------------------------- sections

  /** The length is stored in thirty-two bits. */
  function Section(id: Byte, body: seq<Byte>): seq<Byte> {
    [id] + Uleb(|body| % U32) + body
  }

  function ReadSection(s: seq<Byte>): Option<(Byte, seq<Byte>, seq<Byte>)> {
    if s == [] then None
    else
      match ReadUnsigned(s[1..])
      case None => None
      case Some(r) => if r.0 <= |r.1| then Some((s[0], r.1[..r.0], r.1[r.0..])) else None
  }

  /** A framed body comes back unchanged from any stream it starts, exactly when its length fits. */
  lemma SectionRoundTrip(id: Byte, body: seq<Byte>, tail: seq<Byte>)
    ensures ReadSection(Section(id, body) + tail) == Some((id, body, tail)) <==> |body| < U32
  {
    var n := |body| % U32;
    var s := Section(id, body) + tail;
    assert s == [id] + (Uleb(n) + (body + tail));
    assert s[1..] == Uleb(n) + (body + tail);
    UnsignedRoundTrip(n, body + tail);
    if |body| < U32 {
      assert n == |body|;
      assert (body + tail)[..n] == body && (body + tail)[n..] == tail;
    } else {
      assert |(body + tail)[..n]| == n < |body|;
    }
  }

  // ---------------------------------------------------------------- vectors

  function Concat(items: seq<seq<Byte>>): seq<Byte> {
    if items == [] then [] else items[0] + Concat(items[1..])
  }

  function Vec(items: seq<seq<Byte>>): seq<Byte> {
    Uleb(|items| % U32) + Concat(items)
  }

  lemma {:induction false} ConcatAppend(items: seq<seq<Byte>>, item: seq<Byte>)
    ensures Concat(items + [item]) == Concat(items) + item
  {
    if items == [] {
      assert items + [item] == [item] && [item][1..] == [];
    } else {
      ConcatAppend(items[1..], item);
      assert (items + [item])[1..] == items[1..] + [item];
    }
  }

  method EncodeVec(items: seq<seq<Byte>>) returns (out: seq<Byte>)
    ensures out == Vec(items)
  {
    out := EncodeUnsigned(|items| % U32);
    for i := 0 to |items|
      invariant out == Uleb(|items| % U32) + Concat(items[..i])
    {
      out := out + items[i];
      ConcatAppend(items[..i], items[i]);
      assert items[..i + 1] == items[..i] + [items[i]];
    }
    assert items[..|items|] == items;
  }

  method EncodeSection(id: Byte, body: seq<Byte>) returns (out: seq<Byte>)
    ensures out == Section(id, body)
  {
    out := [id];
    var size := EncodeUnsigned(|body| % U32);
    out := out + size;
    out := out + body;
  }

  /** An encoding that can be read back from the front of any stream. */
  ghost predicate SelfDelimiting<T(!new)>(enc: T -> seq<Byte>, read: seq<Byte> -> Option<(T, seq<Byte>)>) {
    forall t, tail :: read(enc(t) + tail) == Some((t, tail))
  }

  function Each<T>(enc: T -> seq<Byte>, items: seq<T>): (r: seq<seq<Byte>>)
    ensures |r| == |items|
  {
    if items == [] then [] else [enc(items[0])] + Each(enc, items[1..])
  }

  function ReadItems<T>(read: seq<Byte> -> Option<(T, seq<Byte>)>, n: nat, s: seq<Byte>): Option<(seq<T>, seq<Byte>)> {
    if n == 0 then Some(([], s))
    else
      match read(s)
      case None => None
      case Some(first) =>
        match ReadItems(read, n - 1, first.1)
        case None => None
        case Some(others) => Some(([first.0] + others.0, others.1))
  }

  function ReadVec<T>(read: seq<Byte> -> Option<(T, seq<Byte>)>, s: seq<Byte>): Option<(seq<T>, seq<Byte>)> {
    match ReadUnsigned(s)
    case None => None
    case Some(r) => ReadItems(read, r.0, r.1)
  }

  lemma {:induction false} ItemsRoundTrip<T(!new)>(enc: T -> seq<Byte>, read: seq<Byte> -> Option<(T, seq<Byte>)>,
                                                   items: seq<T>, tail: seq<Byte>)
    requires SelfDelimiting(enc, read)
    ensures ReadItems(read, |items|, Concat(Each(enc, items)) + tail) == Some((items, tail))
  {
    if items == [] {
      assert Concat(Each(enc, items)) + tail == tail;
    } else {
      var rest := Concat(Each(enc, items[1..])) + tail;
      ItemsRoundTrip(enc, read, items[1..], tail);
      assert Each(enc, items)[1..] == Each(enc, items[1..]);
      assert Concat(Each(enc, items)) + tail == enc(items[0]) + rest;
      assert [items[0]] + items[1..] == items;
    }
  }

  /** A vector of self-delimiting items is itself self-delimiting, up to its 32-bit length. */
  lemma VecRoundTrip<T(!new)>(enc: T -> seq<Byte>, read: seq<Byte> -> Option<(T, seq<Byte>)>,
                              items: seq<T>, tail: seq<Byte>)
    requires SelfDelimiting(enc, read)
    ensures ReadVec(read, Vec(Each(enc, items)) + tail) == Some((items, tail)) <==> |items| < U32
  {
    var n := |items| % U32;
    Truncation(|items|);
    VecHead(enc, read, items, tail);
    ItemsRoundTrip(enc, read, items, tail);
    ItemsRead(read, n, Concat(Each(enc, items)) + tail);
  }

  lemma Truncation(n: nat)
    ensures n % U32 == n <==> n < U32
  {
  }

  lemma VecHead<T>(enc: T -> seq<Byte>, read: seq<Byte> -> Option<(T, seq<Byte>)>, items: seq<T>, tail: seq<Byte>)
    ensures ReadVec(read, Vec(Each(enc, items)) + tail) ==
            ReadItems(read, |items| % U32, Concat(Each(enc, items)) + tail)
  {
    var n := |items| % U32;
    var body := Concat(Each(enc, items)) + tail;
    assert Vec(Each(enc, items)) + tail == Uleb(n) + body;
    UnsignedRoundTrip(n, body);
  }

  lemma {:induction false} ItemsRead<T>(read: seq<Byte> -> Option<(T, seq<Byte>)>, n: nat, s: seq<Byte>)
    ensures ReadItems(read, n, s).Some? ==> |ReadItems(read, n, s).value.0| == n
  {
    if n > 0 && read(s).Some? {
      ItemsRead(read, n - 1, read(s).value.1);
    }
  }
}
