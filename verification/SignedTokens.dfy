/**
 Padded base64url (section 5 of RFC 4648), as used by every signed value.
 */
module Base64Url {
  import opened Octets
  import opened Options

  type Bytes = seq<Byte>

  function Symbol(v: int): char
    requires 0 <= v < 64
  {
    if v < 26 then (65 + v) as char
    else if v < 52 then (97 + v - 26) as char
    else if v < 62 then (48 + v - 52) as char
    else if v == 62 then '-' else '_'
  }

  /** The value of a symbol, or 64 for any other character. */
  function Value(c: char): int {
    var n := c as int;
    if 65 <= n < 91 then n - 65
    else if 97 <= n < 123 then n - 97 + 26
    else if 48 <= n < 58 then n - 48 + 52
    else if c == '-' then 62
    else if c == '_' then 63
    else 64
  }

  lemma SymbolValue(v: int)
    requires 0 <= v < 64
    ensures Value(Symbol(v)) == v && Symbol(v) !in {'=', '.', '\r', '\n'}
  {
  }

  function Encode(bs: Bytes): string {
    if bs == [] then ""
    else if |bs| == 1 then Single(bs[0])
    else if |bs| == 2 then Pair(bs[0], bs[1])
    else Group(bs[0], bs[1], bs[2]) + Encode(bs[3..])
  }

  function Single(a: Byte): (r: string)
    ensures |r| == 4
  {
    [Symbol(a / 4), Symbol(a % 4 * 16), '=', '=']
  }

  function Pair(a: Byte, b: Byte): (r: string)
    ensures |r| == 4
  {
    [Symbol(a / 4), Symbol(a % 4 * 16 + b / 16), Symbol(b % 16 * 4), '=']
  }

  function Group(a: Byte, b: Byte, c: Byte): (r: string)
    ensures |r| == 4
  {
    [Symbol(a / 4), Symbol(a % 4 * 16 + b / 16), Symbol(b % 16 * 4 + c / 64), Symbol(c % 64)]
  }

  /** Line breaks are skipped wherever they stand. */
  function Strip(s: string): string {
    if s == "" then "" else (if s[0] == '\r' || s[0] == '\n' then "" else [s[0]]) + Strip(s[1..])
  }

  function Decode(s: string): Option<Bytes> {
    DecodeGroups(Strip(s))
  }

  /** Four symbols a time; padding only at the end, and left-over bits ignored. */
  function DecodeGroups(s: string): Option<Bytes> {
    if s == "" then Some([])
    else if |s| < 4 || Value(s[0]) == 64 || Value(s[1]) == 64 then None
    else
      var first := Value(s[0]) * 4 + Value(s[1]) / 16;
      if s[2] == '=' then
        if s[3] == '=' && |s| == 4 then Some([first]) else None
      else if Value(s[2]) == 64 then None
      else
        var second := Value(s[1]) % 16 * 16 + Value(s[2]) / 4;
        if s[3] == '=' then
          if |s| == 4 then Some([first, second]) else None
        else if Value(s[3]) == 64 then None
        else
          match DecodeGroups(s[4..])
          case None => None
          case Some(rest) => Some([first, second, Value(s[2]) % 4 * 64 + Value(s[3])] + rest)
  }

  predicate Plain(s: string) {
    forall i :: 0 <= i < |s| ==> s[i] != '.' && s[i] != '\r' && s[i] != '\n'
  }

  /** The URL-safe alphabet of section 5 of RFC 4648: A to Z, a to z, 0 to 9, hyphen and underscore. */
  lemma SymbolsAre(v: int)
    requires 0 <= v < 64
    ensures Symbol(0) == 'A' && Symbol(25) == 'Z' && Symbol(26) == 'a' && Symbol(51) == 'z'
    ensures Symbol(52) == '0' && Symbol(61) == '9' && Symbol(62) == '-' && Symbol(63) == '_'
    ensures v != 25 && v != 51 && v < 61 ==> Symbol(v + 1) as int == Symbol(v) as int + 1
  {
  }

  /** Four symbols carry the 24 bits of three bytes, the first byte's first. */
  lemma GroupIsBigEndian(a: Byte, b: Byte, c: Byte)
    ensures var g := Group(a, b, c);
            a * 65536 + b * 256 + c == Value(g[0]) * 262144 + Value(g[1]) * 4096 + Value(g[2]) * 64 + Value(g[3])
  {
    Pieces(a, b, c);
    SymbolValue(a / 4);
    SymbolValue(a % 4 * 16 + b / 16);
    SymbolValue(b % 16 * 4 + c / 64);
    SymbolValue(c % 64);
  }

  lemma {:induction false} EncodeIsPlain(bs: Bytes)
    ensures Plain(Encode(bs)) && '.' !in Encode(bs)
  {
    if bs != [] {
      SymbolValue(bs[0] / 4);
      SymbolValue(bs[0] % 4 * 16);
      if |bs| > 1 {
        SymbolValue(bs[0] % 4 * 16 + bs[1] / 16);
        SymbolValue(bs[1] % 16 * 4);
      }
      if |bs| > 2 {
        SymbolValue(bs[1] % 16 * 4 + bs[2] / 64);
        SymbolValue(bs[2] % 64);
        EncodeIsPlain(bs[3..]);
      }
    }
  }

  lemma {:induction false} StripPlain(s: string)
    requires Plain(s)
    ensures Strip(s) == s
  {
    if s != "" {
      assert forall i :: 0 <= i < |s| - 1 ==> s[1..][i] == s[i + 1];
      StripPlain(s[1..]);
    }
  }

  /** The three bytes put back together from their six-bit pieces. */
  lemma FirstByte(a: Byte, x: int)
    requires 0 <= x < 16
    ensures a / 4 * 4 + (a % 4 * 16 + x) / 16 == a
  {
  }

  lemma SecondByte(b: Byte, hi: int, x: int)
    requires 0 <= hi < 4 && 0 <= x < 4
    ensures (hi * 16 + b / 16) % 16 * 16 + (b % 16 * 4 + x) / 4 == b
  {
  }

  lemma ThirdByte(c: Byte, lo: int)
    requires 0 <= lo < 16
    ensures (lo * 4 + c / 64) % 4 * 64 + c % 64 == c
  {
  }

  lemma {:induction false} GroupsRoundTrip(bs: Bytes)
    ensures DecodeGroups(Encode(bs)) == Some(bs)
  {
    if |bs| == 1 {
      ShortGroup(bs);
    } else if |bs| == 2 {
      PairGroup(bs);
    } else if bs != [] {
      GroupsRoundTrip(bs[3..]);
      FullGroup(bs[0], bs[1], bs[2], bs[3..]);
      assert bs == [bs[0], bs[1], bs[2]] + bs[3..];
    }
  }

  lemma ShortGroup(bs: Bytes)
    requires |bs| == 1
    ensures DecodeGroups(Encode(bs)) == Some(bs)
  {
    SymbolValue(bs[0] / 4);
    SymbolValue(bs[0] % 4 * 16);
    FirstByte(bs[0], 0);
    assert bs == [bs[0]];
  }

  lemma DecodePair(s: string, p: int, q: int, r: int)
    requires 0 <= p < 64 && 0 <= q < 64 && 0 <= r < 64
    requires |s| == 4 && s[0] == Symbol(p) && s[1] == Symbol(q) && s[2] == Symbol(r) && s[3] == '='
    ensures DecodeGroups(s) == Some([p * 4 + q / 16, q % 16 * 16 + r / 4])
  {
    SymbolValue(p);
    SymbolValue(q);
    SymbolValue(r);
  }

  lemma PairDecodes(a: Byte, b: Byte)
    ensures DecodeGroups(Pair(a, b)) == Some([a, b])
  {
    FirstByte(a, b / 16);
    SecondByte(b, a % 4, 0);
    DecodePair(Pair(a, b), a / 4, a % 4 * 16 + b / 16, b % 16 * 4);
  }

  lemma PairGroup(bs: Bytes)
    requires |bs| == 2
    ensures DecodeGroups(Encode(bs)) == Some(bs)
  {
    PairDecodes(bs[0], bs[1]);
    assert bs == [bs[0], bs[1]];
  }

  lemma DecodeFull(s: string, p: int, q: int, r: int, t: int, rest: Bytes)
    requires 0 <= p < 64 && 0 <= q < 64 && 0 <= r < 64 && 0 <= t < 64
    requires |s| >= 4 && DecodeGroups(s[4..]) == Some(rest)
    requires s[0] == Symbol(p) && s[1] == Symbol(q) && s[2] == Symbol(r) && s[3] == Symbol(t)
    ensures DecodeGroups(s) == Some([p * 4 + q / 16, q % 16 * 16 + r / 4, r % 4 * 64 + t] + rest)
  {
    SymbolValue(p);
    SymbolValue(q);
    SymbolValue(r);
    SymbolValue(t);
    DecodeValues(s, rest);
  }

  lemma DecodeValues(s: string, rest: Bytes)
    requires |s| >= 4 && DecodeGroups(s[4..]) == Some(rest) && s[2] != '=' && s[3] != '='
    requires Value(s[0]) != 64 && Value(s[1]) != 64 && Value(s[2]) != 64 && Value(s[3]) != 64
    ensures DecodeGroups(s) == Some([Value(s[0]) * 4 + Value(s[1]) / 16, Value(s[1]) % 16 * 16 + Value(s[2]) / 4,
                                     Value(s[2]) % 4 * 64 + Value(s[3])] + rest)
  {
  }

  /** The four six-bit pieces of three bytes, and the bytes again. */
  lemma Pieces(a: Byte, b: Byte, c: Byte)
    ensures var p, q, r, t := a / 4, a % 4 * 16 + b / 16, b % 16 * 4 + c / 64, c % 64;
            && 0 <= p < 64 && 0 <= q < 64 && 0 <= r < 64 && 0 <= t < 64
            && p * 4 + q / 16 == a && q % 16 * 16 + r / 4 == b && r % 4 * 64 + t == c
  {
    FirstByte(a, b / 16);
    SecondByte(b, a % 4, c / 64);
    ThirdByte(c, b % 16);
  }

  lemma GroupDecodes(a: Byte, b: Byte, c: Byte, s: string, rest: Bytes)
    requires |s| >= 4 && s[..4] == Group(a, b, c) && DecodeGroups(s[4..]) == Some(rest)
    ensures DecodeGroups(s) == Some([a, b, c] + rest)
  {
    Pieces(a, b, c);
    assert s[0] == s[..4][0] && s[1] == s[..4][1] && s[2] == s[..4][2] && s[3] == s[..4][3];
    DecodeFull(s, a / 4, a % 4 * 16 + b / 16, b % 16 * 4 + c / 64, c % 64, rest);
  }

  lemma GroupInFront(group: string, rest: string)
    requires |group| == 4
    ensures (group + rest)[..4] == group && (group + rest)[4..] == rest
  {
  }

  lemma FullGroup(a: Byte, b: Byte, c: Byte, rest: Bytes)
    requires DecodeGroups(Encode(rest)) == Some(rest)
    ensures DecodeGroups(Group(a, b, c) + Encode(rest)) == Some([a, b, c] + rest)
  {
    GroupInFront(Group(a, b, c), Encode(rest));
    GroupDecodes(a, b, c, Group(a, b, c) + Encode(rest), rest);
  }

  lemma RoundTrip(bs: Bytes)
    ensures Decode(Encode(bs)) == Some(bs)
  {
    EncodeIsPlain(bs);
    StripPlain(Encode(bs));
    GroupsRoundTrip(bs);
  }
}

/**
 Signed values: session cookies with key rotation, and handoff tickets. The signature function
 is a parameter; nothing about it is assumed.
 */
module SignedTokens {
  import opened Base64Url
  import opened Clock
  import opened Handoff
  import opened Options

  /** The signature of a text under a secret. */
  type Mac = (Bytes, string) -> Bytes

  /** Text up to the first dot and text after it. */
  function SplitAtDot(s: string): Option<(string, string)> {
    if s == "" then None
    else if s[0] == '.' then Some(("", s[1..]))
    else
      match SplitAtDot(s[1..])
      case None => None
      case Some(r) => Some(([s[0]] + r.0, r.1))
  }

  lemma {:induction false} SplitJoined(a: string, b: string)
    requires '.' !in a
    ensures SplitAtDot(a + "." + b) == Some((a, b))
  {
    var s := a + "." + b;
    if a == "" {
      assert s == "." + b && s[1..] == b;
    } else {
      SplitJoined(a[1..], b);
      assert s[1..] == a[1..] + "." + b;
      assert [a[0]] + a[1..] == a;
    }
  }

  lemma {:induction false} SplitSound(s: string)
    ensures SplitAtDot(s).Some? ==>
              s == SplitAtDot(s).value.0 + "." + SplitAtDot(s).value.1 && '.' !in SplitAtDot(s).value.0
  {
    if s != "" && s[0] != '.' {
      SplitSound(s[1..]);
      assert s == [s[0]] + s[1..];
    } else if s != "" {
      assert s == "." + s[1..];
    }
  }

  function Sign(mac: Mac, secret: Bytes, payload: string): string {
    payload + "." + Base64Url.Encode(mac(secret, payload))
  }

  // ---------------------------------------------------------------- session cookies

  datatype Manager = Manager(primary: Bytes, older: seq<Bytes>) {
    function Keys(): seq<Bytes> { [primary] + older }
  }

  function EncodeCookie(mac: Mac, m: Manager, id: Bytes): string {
    Sign(mac, m.primary, Base64Url.Encode(id))
  }

  /** The payload and signature a raw value carries, if it is well formed. */
  function Parts(raw: string): Option<(string, Bytes)> {
    match SplitAtDot(raw)
    case None => None
    case Some(r) =>
      match Base64Url.Decode(r.1)
      case None => None
      case Some(sig) => Some((r.0, sig))
  }

  /** Tries the primary secret, then the older ones in turn. */
  method DecodeCookie(mac: Mac, m: Manager, raw: string) returns (id: Option<Bytes>)
    ensures id.Some? <==> Parts(raw).Some? && Base64Url.Decode(Parts(raw).value.0).Some?
                          && exists k :: k in m.Keys() && mac(k, Parts(raw).value.0) == Parts(raw).value.1
    ensures id.Some? ==> id == Base64Url.Decode(Parts(raw).value.0)
  {
    var parts := Parts(raw);
    if parts.None? {
      return None;
    }
    var (payload, sig) := parts.value;
    if mac(m.primary, payload) == sig {
      assert m.primary in m.Keys();
      return Base64Url.Decode(payload);
    }
    for i := 0 to |m.older|
      invariant forall k :: 0 <= k < i ==> mac(m.older[k], payload) != sig
    {
      if mac(m.older[i], payload) == sig {
        assert m.older[i] in m.Keys();
        return Base64Url.Decode(payload);
      }
    }
    return None;
  }

  lemma PartsOfSigned(mac: Mac, secret: Bytes, payload: string)
    requires '.' !in payload
    ensures Parts(Sign(mac, secret, payload)) == Some((payload, mac(secret, payload)))
  {
    SplitJoined(payload, Base64Url.Encode(mac(secret, payload)));
    RoundTrip(mac(secret, payload));
  }

  /** A cookie in full: the encoded id, a dot, and the encoded signature of the encoded id by the primary secret. */
  lemma CookieIs(mac: Mac, m: Manager, id: Bytes)
    ensures EncodeCookie(mac, m, id) ==
            Base64Url.Encode(id) + "." + Base64Url.Encode(mac(m.primary, Base64Url.Encode(id)))
  {
  }

  /** A new primary secret; the old one is kept for verification. */
  function Rotate(m: Manager, secret: Bytes): Manager {
    Manager(secret, m.Keys())
  }

  function RotateAll(m: Manager, secrets: seq<Bytes>): Manager
    decreases secrets
  {
    if secrets == [] then m else RotateAll(Rotate(m, secrets[0]), secrets[1..])
  }

  lemma {:induction false} RotationKeepsKeys(m: Manager, secrets: seq<Bytes>, k: Bytes)
    requires k in m.Keys()
    ensures k in RotateAll(m, secrets).Keys()
    decreases secrets
  {
    if secrets != [] {
      RotationKeepsKeys(Rotate(m, secrets[0]), secrets[1..], k);
    }
  }

  /**
   Every session id survives the cookie: any manager that still knows the signing secret decodes
   the cookie, and what it decodes is that id.
   */
  method CookieRoundTrip(mac: Mac, signer: Manager, verifier: Manager, id: Bytes) returns (decoded: Option<Bytes>)
    requires signer.primary in verifier.Keys()
    ensures decoded == Some(id)
  {
    var payload := Base64Url.Encode(id);
    EncodeIsPlain(id);
    PartsOfSigned(mac, signer.primary, payload);
    RoundTrip(id);
    decoded := DecodeCookie(mac, verifier, EncodeCookie(mac, signer, id));
  }

  /** After a rotation the new secret signs: a manager that knows only that one decodes the cookie. */
  method RotatedCookieNeedsNewSecret(mac: Mac, m: Manager, secret: Bytes, id: Bytes) returns (decoded: Option<Bytes>)
    ensures decoded == Some(id)
    ensures Rotate(m, secret).primary == secret && Rotate(m, secret).Keys() == [secret] + m.Keys()
  {
    decoded := CookieRoundTrip(mac, Rotate(m, secret), Manager(secret, []), id);
  }

  /** In particular after any chain of rotations. */
  method CookieSurvivesRotation(mac: Mac, m: Manager, secrets: seq<Bytes>, id: Bytes) returns (decoded: Option<Bytes>)
    ensures decoded == Some(id)
  {
    RotationKeepsKeys(m, secrets, m.primary);
    decoded := CookieRoundTrip(mac, m, RotateAll(m, secrets), id);
  }

  // ---------------------------------------------------------------- handoff tickets

  /** The JSON encoding of a ticket and its partial inverse. */
  datatype Json = Json(marshal: Ticket -> Bytes, unmarshal: Bytes -> Option<Ticket>)

  ghost predicate Inverse(j: Json) {
    forall t :: j.unmarshal(j.marshal(t)) == Some(t)
  }

  datatype TicketError = Malformed | BadSignatureEncoding | InvalidSignature | BadPayloadEncoding | BadPayload | Expired
  datatype Verdict = Valid(t: Ticket) | Rejected(e: TicketError)

  function IssueTicket(mac: Mac, j: Json, secret: Bytes, t: Ticket): string {
    Sign(mac, secret, Base64Url.Encode(j.marshal(t)))
  }

  function VerifyTicket(mac: Mac, j: Json, secret: Bytes, ticket: string, now: int): Verdict {
    match SplitAtDot(ticket)
    case None => Rejected(Malformed)
    case Some(parts) =>
      match Base64Url.Decode(parts.1)
      case None => Rejected(BadSignatureEncoding)
      case Some(sig) =>
        if sig != mac(secret, parts.0) then Rejected(InvalidSignature)
        else
          match Base64Url.Decode(parts.0)
          case None => Rejected(BadPayloadEncoding)
          case Some(raw) =>
            match j.unmarshal(raw)
            case None => Rejected(BadPayload)
            case Some(t) => if Unix(now) > t.expiresAt then Rejected(Expired) else Valid(t)
  }

  /** A ticket verifies with all its fields until its last second is over, and is expired afterwards. */
  lemma TicketRoundTrip(mac: Mac, j: Json, secret: Bytes, t: Ticket, now: int)
    requires Inverse(j)
    ensures VerifyTicket(mac, j, secret, IssueTicket(mac, j, secret, t), now) ==
            if now < Boundary(t) then Valid(t) else Rejected(Expired)
  {
    var payload := Base64Url.Encode(j.marshal(t));
    EncodeIsPlain(j.marshal(t));
    SplitJoined(payload, Base64Url.Encode(mac(secret, payload)));
    RoundTrip(mac(secret, payload));
    RoundTrip(j.marshal(t));
    UnixBounds(now, now, t.expiresAt);
  }

  ghost predicate SignedAs(mac: Mac, j: Json, secret: Bytes, ticket: string, payload: string, sig: string, t: Ticket) {
    && '.' !in payload && ticket == payload + "." + sig
    && Base64Url.Decode(sig) == Some(mac(secret, payload))
    && Base64Url.Decode(payload).Some? && j.unmarshal(Base64Url.Decode(payload).value) == Some(t)
  }

  /**
   A ticket verifies as t exactly if it is a payload and that payload's own signature, the payload
   decodes to t, and t's last second is not over.
   */
  lemma ValidIffSigned(mac: Mac, j: Json, secret: Bytes, ticket: string, now: int, t: Ticket)
    ensures VerifyTicket(mac, j, secret, ticket, now) == Valid(t) <==>
              Unix(now) <= t.expiresAt && exists payload, sig :: SignedAs(mac, j, secret, ticket, payload, sig, t)
  {
    SplitSound(ticket);
    if VerifyTicket(mac, j, secret, ticket, now) == Valid(t) {
      var parts := SplitAtDot(ticket).value;
      assert SignedAs(mac, j, secret, ticket, parts.0, parts.1, t);
    }
    if payload, sig :| SignedAs(mac, j, secret, ticket, payload, sig, t) {
      SplitJoined(payload, sig);
    }
  }

  /** Why a ticket is rejected: the first thing found wrong, from the signature to the expiry. */
  lemma RejectedFor(mac: Mac, j: Json, secret: Bytes, payload: string, sig: string, now: int)
    requires '.' !in payload
    ensures VerifyTicket(mac, j, secret, payload, now) == Rejected(Malformed)
    ensures var v := VerifyTicket(mac, j, secret, payload + "." + sig, now);
            if Base64Url.Decode(sig).None? then v == Rejected(BadSignatureEncoding)
            else if Base64Url.Decode(sig).value != mac(secret, payload) then v == Rejected(InvalidSignature)
            else if Base64Url.Decode(payload).None? then v == Rejected(BadPayloadEncoding)
            else if j.unmarshal(Base64Url.Decode(payload).value).None? then v == Rejected(BadPayload)
            else var t := j.unmarshal(Base64Url.Decode(payload).value).value;
                 v == if now >= (t.expiresAt + 1) * SECOND then Rejected(Expired) else Valid(t)
  {
    NoDot(payload);
    SplitJoined(payload, sig);
    if Base64Url.Decode(payload).Some? && j.unmarshal(Base64Url.Decode(payload).value).Some? {
      UnixBounds(now, now, j.unmarshal(Base64Url.Decode(payload).value).value.expiresAt);
    }
  }

  lemma {:induction false} NoDot(s: string)
    requires '.' !in s
    ensures SplitAtDot(s) == None
  {
    if s != "" {
      NoDot(s[1..]);
    }
  }
}
