/**
 Redis key namespaces. Connector configurations are normalized and validated in place; each
 connector then owns the keys that start with its prefix, a kind and an id, joined by colons.
 */
module KeyLayout {
  import opened Fallback

  // ---------------------------------------------------------------- joining and splitting at colons

  predicate ColonFree(s: string) {
    ':' !in s
  }

  function Join(fields: seq<string>): string {
    if fields == [] then "" else if |fields| == 1 then fields[0] else fields[0] + ":" + Join(fields[1..])
  }

  lemma FirstColon(a: string, s: string, b: string, t: string)
    requires ColonFree(a) && ColonFree(b) && a + ":" + s == b + ":" + t
    ensures a == b && s == t
  {
    var x, y := a + ":" + s, b + ":" + t;
    assert x[|a|] == ':' && y[|b|] == ':';
    assert forall i :: 0 <= i < |a| ==> x[i] == a[i] && a[i] in a;
    assert forall i :: 0 <= i < |b| ==> y[i] == b[i] && b[i] in b;
    assert |a| == |b|;
    assert a == x[..|a|] && b == y[..|b|] && s == x[|a| + 1..] && t == y[|b| + 1..];
  }

  predicate AllColonFree(fields: seq<string>) {
    forall f :: f in fields ==> ColonFree(f)
  }

  lemma NoColon(a: string, b: string, t: string)
    requires ColonFree(a)
    ensures a != b + ":" + t
  {
    assert (b + ":" + t)[|b|] == ':';
  }

  /** Joining at colons loses nothing as long as the fields are free of them. */
  lemma {:induction false} JoinInjective(a: seq<string>, b: seq<string>)
    requires a != [] && b != [] && AllColonFree(a) && AllColonFree(b) && Join(a) == Join(b)
    ensures a == b
  {
    if |a| == 1 && |b| == 1 {
    } else if |a| == 1 {
      NoColon(a[0], b[0], Join(b[1..]));
    } else if |b| == 1 {
      NoColon(b[0], a[0], Join(a[1..]));
    } else {
      FirstColon(a[0], Join(a[1..]), b[0], Join(b[1..]));
      JoinInjective(a[1..], b[1..]);
      assert a == [a[0]] + a[1..] && b == [b[0]] + b[1..];
    }
  }

  // ---------------------------------------------------------------- configuration

  datatype Connector = Connector(id: string, isDefault: bool, prefix: string, cookieName: string,
                                 issuer: string, redirectURI: string, clientID: string,
                                 secret: string, audience: string,
                                 provider: string, scopes: seq<string>, claimsSource: string,
                                 sessionTTL: int, pkceTTL: int, lockTTL: int, idClaim: string, idKind: string)

  const DEFAULT_COOKIE := "__Host-ess_session"

  function Base(prefix: string): string {
    if prefix == "" then "auth" else prefix
  }

  function OrTTL(ttl: int, fallback: int): int {
    if ttl != 0 then ttl else fallback
  }

  /** A connector after normalization; `top` holds the settings outside the connector list. */
  function Filled(c: Connector, top: Connector, base: string, cookie: string): Connector {
    Connector(c.id, c.isDefault,
              Or(c.prefix, if c.isDefault then base else base + ":" + c.id),
              Or(c.cookieName, if c.isDefault then cookie else cookie + "_" + c.id),
              c.issuer, c.redirectURI, c.clientID, c.secret, c.audience,
              Or(c.provider, top.provider),
              if c.scopes != [] then c.scopes else ["openid", "profile"],
              if c.claimsSource == "id_token" || c.claimsSource == "access_token" then c.claimsSource else "id_token",
              OrTTL(c.sessionTTL, top.sessionTTL), OrTTL(c.pkceTTL, top.pkceTTL), OrTTL(c.lockTTL, top.lockTTL),
              Or(c.idClaim, "sub"),
              Or(c.idKind, if Or(c.idClaim, "sub") == "sub" then "oidc_sub" else c.id))
  }

  /** Normalizing again changes nothing. */
  lemma FilledTwice(c: Connector, top: Connector, base: string, cookie: string)
    requires base != "" && cookie != ""
    ensures var f := Filled(c, top, base, cookie); Filled(f, top, base, cookie) == f
  {
    var f := Filled(c, top, base, cookie);
    assert f.prefix != "" && f.cookieName != "" && f.idClaim != "" && f.scopes != [];
    assert f.idKind == "" ==> f.idClaim != "sub" && c.id == "";
  }

  /** Whatever was left out: namespace, cookie, scopes and claim are set, and a kind label too if the id is. */
  lemma FilledIsComplete(c: Connector, top: Connector, base: string, cookie: string)
    requires base != "" && cookie != "" && c.id != ""
    ensures var f := Filled(c, top, base, cookie);
            && f.prefix != "" && f.cookieName != "" && f.scopes != [] && f.idClaim != "" && f.idKind != ""
            && (f.claimsSource == "id_token" || f.claimsSource == "access_token")
  {
  }

  /** What was set stays, what was left open gets its default, setting by setting. */
  lemma FilledSettings(c: Connector, top: Connector, base: string, cookie: string)
    ensures var f := Filled(c, top, base, cookie);
            && f.id == c.id && f.isDefault == c.isDefault && f.issuer == c.issuer && f.redirectURI == c.redirectURI
            && f.clientID == c.clientID && f.secret == c.secret && f.audience == c.audience
            && (c.prefix != "" ==> f.prefix == c.prefix)
            && (c.prefix == "" ==> f.prefix == if c.isDefault then base else base + ":" + c.id)
            && (c.cookieName != "" ==> f.cookieName == c.cookieName)
            && (c.cookieName == "" ==> f.cookieName == if c.isDefault then cookie else cookie + "_" + c.id)
            && f.provider == (if c.provider != "" then c.provider else top.provider)
            && f.sessionTTL == (if c.sessionTTL != 0 then c.sessionTTL else top.sessionTTL)
            && f.pkceTTL == (if c.pkceTTL != 0 then c.pkceTTL else top.pkceTTL)
            && f.lockTTL == (if c.lockTTL != 0 then c.lockTTL else top.lockTTL)
  {
  }

  /** The settings that identify users. */
  lemma FilledIdentity(c: Connector, top: Connector, base: string, cookie: string)
    ensures var f := Filled(c, top, base, cookie);
            && f.scopes == (if c.scopes != [] then c.scopes else ["openid", "profile"])
            && f.claimsSource == (if c.claimsSource == "access_token" then "access_token" else "id_token")
            && f.idClaim == (if c.idClaim != "" then c.idClaim else "sub")
            && (c.idKind != "" ==> f.idKind == c.idKind)
            && (c.idKind == "" ==> f.idKind == if f.idClaim == "sub" then "oidc_sub" else c.id)
  {
  }

  /** Two connectors of one deployment get different cookies unless a name was set. */
  lemma CookiesDiffer(cs: seq<Connector>, listed: seq<Connector>, top: Connector, base: string, cookie: string,
                      i: nat, j: nat)
    requires Accepted(cs) && |listed| == |cs| && i < j < |cs|
    requires forall k :: 0 <= k < |cs| ==> listed[k].cookieName == "" && cs[k] == Filled(listed[k], top, base, cookie)
    ensures cs[i].cookieName != cs[j].cookieName
  {
    if cs[i].isDefault && cs[j].isDefault {
      OneDefault(cs, i, j);
    }
    TailsDiffer(cookie + "_", cs[i].id, cs[j].id);
    assert |cookie + "_" + cs[i].id| > |cookie| && |cookie + "_" + cs[j].id| > |cookie|;
  }

  lemma TailsDiffer(a: string, x: string, y: string)
    ensures a + x == a + y ==> x == y
  {
    assert (a + x)[|a|..] == x && (a + y)[|a|..] == y;
  }

  predicate IdChar(ch: char) {
    'A' <= ch <= 'Z' || 'a' <= ch <= 'z' || '0' <= ch <= '9' || ch == '_' || ch == '-'
  }

  predicate ValidId(id: string) {
    id != "" && forall i :: 0 <= i < |id| ==> IdChar(id[i])
  }

  function Defaults(cs: seq<Connector>): nat {
    if cs == [] then 0 else Defaults(cs[..|cs| - 1]) + if cs[|cs| - 1].isDefault then 1 else 0
  }

  predicate Complete(c: Connector) {
    ValidId(c.id) && c.issuer != "" && c.redirectURI != "" && c.clientID != ""
  }

  /** The characters of an id by their codes: digits, capitals, small letters, underscore and hyphen. */
  lemma IdCharsAre(ch: char)
    ensures IdChar(ch) <==> var n := ch as int;
              48 <= n <= 57 || 65 <= n <= 90 || 97 <= n <= 122 || n == 95 || n == 45
  {
  }

  /** What validation accepts. */
  predicate Accepted(cs: seq<Connector>) {
    && (forall i :: 0 <= i < |cs| ==> Complete(cs[i]))
    && (forall i, j :: 0 <= i < j < |cs| ==> cs[i].id != cs[j].id)
    && Defaults(cs) == 1
  }

  class Config {
    var connectors: seq<Connector>
    var redisPrefix: string
    var cookieName: string
    var top: Connector              // the settings outside the connector list

    function Synthesized(): Connector
      reads this
    {
      Connector("default", true, "", "", top.issuer, top.redirectURI, top.clientID, top.secret, top.audience,
                top.provider, top.scopes, top.claimsSource, 0, 0, 0, "", "")
    }

    /** The list Normalize works on: synthesized when empty, and a lone connector is the default. */
    ghost function Listed(): seq<Connector>
      reads this
    {
      var cs := if connectors == [] then [Synthesized()] else connectors;
      if |cs| == 1 then [cs[0].(isDefault := true)] else cs
    }

    method Normalize()
      modifies this`connectors
      ensures |connectors| == |old(Listed())|
      ensures old(connectors) == [] ==>
                && |connectors| == 1 && connectors[0].id == "default" && connectors[0].isDefault
                && connectors[0].issuer == top.issuer && connectors[0].redirectURI == top.redirectURI
                && connectors[0].clientID == top.clientID && connectors[0].secret == top.secret
                && connectors[0].audience == top.audience
      ensures |old(connectors)| == 1 ==> |connectors| == 1 && connectors[0].isDefault
      ensures old(connectors) == [] && redisPrefix == "" && cookieName == "" ==>
                connectors[0].prefix == "auth" && connectors[0].cookieName == "__Host-ess_session"
      ensures forall i :: 0 <= i < |connectors| ==>
                connectors[i] == Filled(old(Listed())[i], top, Base(redisPrefix), Or(cookieName, DEFAULT_COOKIE))
    {
      if connectors == [] {
        connectors := [Synthesized()];
      }
      if |connectors| == 1 {
        connectors := connectors[0 := connectors[0].(isDefault := true)];
      }
      var base := redisPrefix;
      if base == "" {
        base := "auth";
      }
      var cookie := cookieName;
      if cookie == "" {
        cookie := DEFAULT_COOKIE;
      }
      for i := 0 to |connectors|
        invariant |connectors| == |old(Listed())|
        invariant forall k :: 0 <= k < i ==> connectors[k] == Filled(old(Listed())[k], top, base, cookie)
        invariant forall k :: i <= k < |connectors| ==> connectors[k] == old(Listed())[k]
      {
        var conn := Fill(connectors[i], base, cookie);
        connectors := connectors[i := conn];
      }
    }

    /** One round of the loop: every setting left open gets its default. */
    method Fill(c: Connector, base: string, cookie: string) returns (conn: Connector)
      ensures conn == Filled(c, top, base, cookie)
    {
      var provider := Default(c.provider, top.provider);
      var scopes := c.scopes;
      if |scopes| == 0 {
        scopes := ["openid", "profile"];
      }
      var source := c.claimsSource;
      if source != "id_token" && source != "access_token" {
        source := "id_token";
      }
      var prefix := Default(c.prefix, if c.isDefault then base else base + ":" + c.id);
      var cookieName := Default(c.cookieName, if c.isDefault then cookie else cookie + "_" + c.id);
      var idClaim := Default(c.idClaim, "sub");
      var idKind := Default(c.idKind, if idClaim == "sub" then "oidc_sub" else c.id);
      conn := c.(provider := provider, scopes := scopes, claimsSource := source, prefix := prefix,
                 cookieName := cookieName, idClaim := idClaim, idKind := idKind);
      if c.sessionTTL == 0 {
        conn := conn.(sessionTTL := top.sessionTTL);
      }
      if c.pkceTTL == 0 {
        conn := conn.(pkceTTL := top.pkceTTL);
      }
      if c.lockTTL == 0 {
        conn := conn.(lockTTL := top.lockTTL);
      }
    }
  }

  method Default(s: string, fallback: string) returns (r: string)
    ensures r == Or(s, fallback)
  {
    r := s;
    if r == "" {
      r := fallback;
    }
  }

  function IdsOf(cs: seq<Connector>): set<string> {
    set c | c in cs :: c.id
  }

  lemma IdsOfMember(cs: seq<Connector>, id: string)
    ensures id in IdsOf(cs) <==> exists k :: 0 <= k < |cs| && cs[k].id == id
  {
  }

  lemma IdsOfOne(cs: seq<Connector>, i: nat)
    requires i < |cs|
    ensures IdsOf(cs[..i + 1]) == IdsOf(cs[..i]) + {cs[i].id}
  {
    assert cs[..i + 1] == cs[..i] + [cs[i]];
  }

  method ValidateConnectors(cs: seq<Connector>) returns (ok: bool)
    ensures ok <==> Accepted(cs)
  {
    var seen: set<string> := {};
    var defaults := 0;
    for i := 0 to |cs|
      invariant forall k :: 0 <= k < i ==> Complete(cs[k])
      invariant seen == IdsOf(cs[..i])
      invariant forall k, m :: 0 <= k < m < i ==> cs[k].id != cs[m].id
      invariant defaults == Defaults(cs[..i])
    {
      var conn := cs[i];
      if !ValidId(conn.id) {
        return false;
      }
      IdsOfMember(cs[..i], conn.id);
      if conn.id in seen {
        return false;
      }
      seen := seen + {conn.id};
      if conn.isDefault {
        defaults := defaults + 1;
      }
      assert cs[..i + 1][..i] == cs[..i];
      IdsOfOne(cs, i);
      if conn.issuer == "" || conn.redirectURI == "" || conn.clientID == "" {
        return false;
      }
    }
    assert cs[..|cs|] == cs;
    return defaults == 1;
  }

  ghost predicate OnlyDefault(cs: seq<Connector>, d: nat) {
    d < |cs| && forall i :: 0 <= i < |cs| ==> (cs[i].isDefault <==> i == d)
  }

  /** What validation accepts, in full: nothing required missing, distinct ids, one default. */
  lemma AcceptedIs(cs: seq<Connector>)
    ensures Accepted(cs) <==>
              && (forall i :: 0 <= i < |cs| ==>
                    ValidId(cs[i].id) && cs[i].issuer != "" && cs[i].redirectURI != "" && cs[i].clientID != "")
              && (forall i, j :: 0 <= i < j < |cs| ==> cs[i].id != cs[j].id)
              && exists d :: OnlyDefault(cs, d)
  {
    if Defaults(cs) == 1 {
      var d := SoleDefault(cs);
    }
    if d :| OnlyDefault(cs, d) {
      DefaultCounts(cs, d);
    }
  }

  lemma {:induction false} SoleDefault(cs: seq<Connector>) returns (d: nat)
    requires Defaults(cs) == 1
    ensures OnlyDefault(cs, d)
  {
    var n := |cs| - 1;
    if cs[n].isDefault {
      d := n;
      NoDefaults(cs[..n]);
      assert forall i :: 0 <= i < n ==> cs[..n][i] == cs[i];
    } else {
      d := SoleDefault(cs[..n]);
      assert forall i :: 0 <= i < n ==> cs[..n][i] == cs[i];
    }
  }

  lemma {:induction false} NoDefaults(cs: seq<Connector>)
    ensures Defaults(cs) == 0 <==> forall i :: 0 <= i < |cs| ==> !cs[i].isDefault
  {
    if cs != [] {
      var n := |cs| - 1;
      NoDefaults(cs[..n]);
      assert forall i :: 0 <= i < n ==> cs[..n][i] == cs[i];
    }
  }

  lemma {:induction false} DefaultCounts(cs: seq<Connector>, d: nat)
    requires OnlyDefault(cs, d)
    ensures Defaults(cs) == 1
  {
    var n := |cs| - 1;
    assert forall i :: 0 <= i < n ==> cs[..n][i] == cs[i];
    if d == n {
      NoDefaults(cs[..n]);
    } else {
      DefaultCounts(cs[..n], d);
    }
  }

  // ---------------------------------------------------------------- keys

  datatype Kind = SessionKind | PkceKind | LockKind | RevokedKind | ReplayKind

  function Name(k: Kind): string {
    match k
    case SessionKind => "session"
    case PkceKind => "pkce"
    case LockKind => "refresh_lock"
    case RevokedKind => "revoked"
    case ReplayKind => "replay"
  }

  /** The key of an entry in a connector's namespace. */
  function Key(c: Connector, k: Kind, id: string): string {
    Base(c.prefix) + ":" + Name(k) + ":" + id
  }

  /** The keys in full, for a connector with prefix p or without one. */
  lemma KeysAre(c: Connector, id: string)
    ensures var p := if c.prefix == "" then "auth" else c.prefix;
            && Key(c, SessionKind, id) == p + ":" + "session" + ":" + id
            && Key(c, PkceKind, id) == p + ":" + "pkce" + ":" + id
            && Key(c, LockKind, id) == p + ":" + "refresh_lock" + ":" + id
            && Key(c, RevokedKind, id) == p + ":" + "revoked" + ":" + id
            && Key(c, ReplayKind, id) == p + ":" + "replay" + ":" + id
  {
  }

  /** What the stores put after the kind: an id without colons, or a ticket id for one-time use. */
  datatype EntryId = Plain(id: string) | Ticket(jti: string)

  function Text(e: EntryId): string {
    match e
    case Plain(id) => id
    case Ticket(jti) => "handoff:" + jti
  }

  predicate WellFormed(k: Kind, e: EntryId) {
    match e
    case Plain(id) => ColonFree(id)
    case Ticket(jti) => ColonFree(jti) && k == ReplayKind
  }

  /** The connectors after Normalize, when no connector set a prefix of its own. */
  ghost predicate Namespaced(cs: seq<Connector>, base: string) {
    && Accepted(cs) && base != ""
    && forall i :: 0 <= i < |cs| ==> cs[i].prefix == if cs[i].isDefault then base else base + ":" + cs[i].id
  }

  /** Normalize puts connectors without a prefix of their own into that shape. */
  lemma NormalizedIsNamespaced(listed: seq<Connector>, cs: seq<Connector>, top: Connector, base: string, cookie: string)
    requires |cs| == |listed| && base != "" && Accepted(cs)
    requires forall i :: 0 <= i < |cs| ==> listed[i].prefix == "" && cs[i] == Filled(listed[i], top, base, cookie)
    ensures Namespaced(cs, base)
  {
  }

  /** The colon-separated fields of a key after the shared base. */
  function Fields(c: Connector, k: Kind, e: EntryId): seq<string> {
    (if c.isDefault then [] else [c.id]) + ([Name(k)] + EntryFields(e))
  }

  function EntryFields(e: EntryId): seq<string> {
    match e case Plain(id) => [id] case Ticket(jti) => ["handoff", jti]
  }

  lemma FieldsColonFree(c: Connector, k: Kind, e: EntryId)
    requires ValidId(c.id) && WellFormed(k, e)
    ensures AllColonFree(Fields(c, k, e))
  {
    assert forall i :: 0 <= i < |c.id| ==> IdChar(c.id[i]);
    assert ColonFree("handoff") && ColonFree(Name(k));
  }

  lemma JoinCons(x: string, rest: seq<string>)
    requires rest != []
    ensures Join([x] + rest) == x + ":" + Join(rest)
  {
    assert ([x] + rest)[1..] == rest;
  }

  lemma JoinOwn(k: Kind, e: EntryId)
    ensures Join([Name(k)] + EntryFields(e)) == Name(k) + ":" + Text(e)
  {
    if e.Ticket? {
      assert ["handoff", e.jti] == ["handoff"] + [e.jti];
      JoinCons("handoff", [e.jti]);
      assert "handoff" + ":" == "handoff:";
    }
    JoinCons(Name(k), EntryFields(e));
  }

  lemma Regroup(base: string, id: string, name: string, text: string)
    ensures base + ":" + id + ":" + name + ":" + text == base + ":" + (id + ":" + (name + ":" + text))
  {
  }

  lemma KeyIsJoined(cs: seq<Connector>, base: string, i: nat, k: Kind, e: EntryId)
    requires Namespaced(cs, base) && i < |cs|
    ensures Key(cs[i], k, Text(e)) == base + ":" + Join(Fields(cs[i], k, e))
  {
    var c := cs[i];
    if c.isDefault {
      DefaultKeyIsJoined(c, base, k, e);
    } else {
      NamedKeyIsJoined(c, base, k, e);
    }
  }

  lemma DefaultKeyIsJoined(c: Connector, base: string, k: Kind, e: EntryId)
    requires c.isDefault && base != "" && c.prefix == base
    ensures Key(c, k, Text(e)) == base + ":" + Join(Fields(c, k, e))
  {
    JoinOwn(k, e);
    assert Fields(c, k, e) == [Name(k)] + EntryFields(e);
    assert base + ":" + Name(k) + ":" + Text(e) == base + ":" + (Name(k) + ":" + Text(e));
  }

  lemma NamedKeyIsJoined(c: Connector, base: string, k: Kind, e: EntryId)
    requires !c.isDefault && c.prefix == base + ":" + c.id
    ensures Key(c, k, Text(e)) == base + ":" + Join(Fields(c, k, e))
  {
    JoinOwn(k, e);
    JoinCons(c.id, [Name(k)] + EntryFields(e));
    assert Fields(c, k, e) == [c.id] + ([Name(k)] + EntryFields(e));
    assert Base(c.prefix) == c.prefix;
    Regroup(base, c.id, Name(k), Text(e));
  }

  lemma {:induction false} DefaultsMember(cs: seq<Connector>, i: nat)
    requires i < |cs| && cs[i].isDefault
    ensures Defaults(cs) >= 1
  {
    if i < |cs| - 1 {
      DefaultsMember(cs[..|cs| - 1], i);
    }
  }

  lemma {:induction false} OneDefault(cs: seq<Connector>, i: nat, j: nat)
    requires i < j < |cs| && cs[i].isDefault && cs[j].isDefault
    ensures Defaults(cs) >= 2
  {
    if j == |cs| - 1 {
      DefaultsMember(cs[..j], i);
    } else {
      OneDefault(cs[..|cs| - 1], i, j);
    }
  }

  /**
   No two entries share a key: the key determines the connector, the kind and the id, for session,
   PKCE, lock, revocation and replay entries alike, one-time ticket records included.
   */
  lemma KeysAreInjective(cs: seq<Connector>, base: string, i: nat, k: Kind, e: EntryId, j: nat, m: Kind, f: EntryId)
    requires Namespaced(cs, base) && i < |cs| && j < |cs| && WellFormed(k, e) && WellFormed(m, f)
    requires Key(cs[i], k, Text(e)) == Key(cs[j], m, Text(f))
    ensures i == j && k == m && e == f
  {
    KeyIsJoined(cs, base, i, k, e);
    KeyIsJoined(cs, base, j, m, f);
    var a, b := Fields(cs[i], k, e), Fields(cs[j], m, f);
    var x, y := base + ":" + Join(a), base + ":" + Join(b);
    assert Join(a) == x[|base| + 1..] && Join(b) == y[|base| + 1..];
    FieldsColonFree(cs[i], k, e);
    FieldsColonFree(cs[j], m, f);
    JoinInjective(a, b);
    SameFields(cs[i], k, e, cs[j], m, f);
    if cs[i].isDefault && i != j {
      OneDefault(cs, if i < j then i else j, if i < j then j else i);
    }
  }

  lemma SameFields(c: Connector, k: Kind, e: EntryId, d: Connector, m: Kind, f: EntryId)
    requires WellFormed(k, e) && WellFormed(m, f) && Fields(c, k, e) == Fields(d, m, f)
    ensures c.isDefault == d.isDefault && (!c.isDefault ==> c.id == d.id) && k == m && e == f
  {
    var a, b := Fields(c, k, e), Fields(d, m, f);
    var p, q := if c.isDefault then 0 else 1, if d.isDefault then 0 else 1;
    assert a[p] == Name(k) && b[q] == Name(m);
    assert (!c.isDefault ==> a[0] == c.id) && (!d.isDefault ==> b[0] == d.id);
    NamesDiffer(k, m);
    NamesDiffer(m, k);
    if e.Ticket? {
      assert a[p + 1] == "handoff" && a[p + 2] == e.jti;
    } else {
      assert a[p + 1] == e.id;
    }
    if f.Ticket? {
      assert b[q + 1] == "handoff" && b[q + 2] == f.jti;
    } else {
      assert b[q + 1] == f.id;
    }
  }

  lemma NamesDiffer(k: Kind, m: Kind)
    ensures Name(k) == Name(m) ==> k == m
    ensures Name(k) != "handoff"
  {
    assert Name(SessionKind)[0] == 's' && Name(RevokedKind)[0] == 'r' && "handoff"[0] == 'h';
    assert |Name(PkceKind)| == 4 && |Name(LockKind)| == 12 && |Name(ReplayKind)| == 6;
    assert |Name(SessionKind)| == 7 && |Name(RevokedKind)| == 7;
  }

  // ---------------------------------------------------------------- scanning a namespace

  function SessionPrefix(c: Connector): string {
    Base(c.prefix) + ":session:"
  }

  predicate StartsWith(s: string, prefix: string) {
    |prefix| <= |s| && s[..|prefix|] == prefix
  }

  lemma PrefixChars(s: string, x: string)
    ensures StartsWith(s, x) ==> forall i :: 0 <= i < |x| ==> s[i] == x[i]
  {
    if StartsWith(s, x) {
      assert forall i :: 0 <= i < |x| ==> s[i] == s[..|x|][i];
    }
  }

  /** The fields every key under a connector's session pattern begins with. */
  function PatternFields(c: Connector): seq<string> {
    if c.isDefault then ["session"] else [c.id, "session"]
  }

  /** A joined text starts with some fields, each followed by a colon, exactly when the list does. */
  lemma {:induction false} JoinStartsWith(a: seq<string>, p: seq<string>)
    requires a != [] && AllColonFree(a) && AllColonFree(p) && p != []
    ensures StartsWith(Join(a), Join(p) + ":") <==> |a| > |p| && a[..|p|] == p
  {
    var s, x := Join(a), Join(p) + ":";
    if |a| == 1 {
      PrefixChars(s, x);
      assert x[|x| - 1] == ':' && a[0] in a;
      assert forall i :: 0 <= i < |s| ==> s[i] in a[0];
    } else if |p| == 1 {
      assert a[..1] == [a[0]];
      if StartsWith(s, x) {
        FirstColon(a[0], Join(a[1..]), p[0], s[|x|..]);
      }
      if a[0] == p[0] {
        assert s[..|x|] == x;
      }
    } else {
      var rest, tail := Join(a[1..]), Join(p[1..]) + ":";
      assert x == p[0] + ":" + tail;
      JoinStartsWith(a[1..], p[1..]);
      if StartsWith(s, x) {
        FirstColon(a[0], rest, p[0], tail + s[|x|..]);
        assert rest[..|tail|] == tail;
      }
      if a[0] == p[0] && StartsWith(rest, tail) {
        assert s[..|x|] == x;
      }
      if |a| > |p| {
        assert a[..|p|] == [a[0]] + a[1..][..|p| - 1];
        assert p == [p[0]] + p[1..];
      }
    }
  }

  /**
   The keys a connector's session scan can meet are its own sessions, except that the default
   connector's pattern also covers the whole namespace of a connector named "session".
   */
  lemma ScanMeetsOwnSessions(cs: seq<Connector>, base: string, i: nat, j: nat, k: Kind, e: EntryId)
    requires Namespaced(cs, base) && i < |cs| && j < |cs| && WellFormed(k, e)
    ensures StartsWith(Key(cs[j], k, Text(e)), SessionPrefix(cs[i])) <==>
              (j == i && k == SessionKind) || (cs[i].isDefault && !cs[j].isDefault && cs[j].id == "session")
  {
    var a, p := Fields(cs[j], k, e), PatternFields(cs[i]);
    KeyIsJoined(cs, base, j, k, e);
    PatternIsJoined(cs, base, i);
    FieldsColonFree(cs[j], k, e);
    PatternColonFree(cs[i]);
    JoinStartsWith(a, p);
    ShiftPrefix(base + ":", Join(a), Join(p) + ":");
    PatternMatches(cs[j], k, e, cs[i]);
    if cs[i].isDefault && cs[j].isDefault && i != j {
      OneDefault(cs, if i < j then i else j, if i < j then j else i);
    }
  }

  lemma PatternColonFree(c: Connector)
    requires ValidId(c.id)
    ensures AllColonFree(PatternFields(c))
  {
    assert forall n :: 0 <= n < |c.id| ==> IdChar(c.id[n]);
    assert ColonFree("session");
  }

  lemma PatternIsJoined(cs: seq<Connector>, base: string, i: nat)
    requires Namespaced(cs, base) && i < |cs|
    ensures SessionPrefix(cs[i]) == base + ":" + (Join(PatternFields(cs[i])) + ":")
  {
    var c := cs[i];
    if !c.isDefault {
      assert [c.id, "session"] == [c.id] + ["session"];
      JoinCons(c.id, ["session"]);
      assert base + ":" + c.id + ":session:" == base + ":" + (c.id + ":" + "session" + ":");
    } else {
      assert base + ":session:" == base + ":" + ("session" + ":");
    }
  }

  lemma ShiftPrefix(b: string, s: string, x: string)
    ensures StartsWith(b + s, b + x) <==> StartsWith(s, x)
  {
    if |x| <= |s| {
      assert (b + s)[..|b + x|] == b + s[..|x|];
      if b + s[..|x|] == b + x {
        assert s[..|x|] == (b + s[..|x|])[|b|..] && x == (b + x)[|b|..];
      }
    }
  }

  lemma PatternMatches(c: Connector, k: Kind, e: EntryId, d: Connector)
    requires WellFormed(k, e)
    ensures var a, p := Fields(c, k, e), PatternFields(d);
            (|a| > |p| && a[..|p|] == p) <==>
              if d.isDefault then (if c.isDefault then k == SessionKind else c.id == "session")
              else !c.isDefault && c.id == d.id && k == SessionKind
  {
    var a, p := Fields(c, k, e), PatternFields(d);
    NamesDiffer(k, SessionKind);
    assert (!c.isDefault ==> a[0] == c.id && a[1] == Name(k)) && (c.isDefault ==> a[0] == Name(k));
    assert c.isDefault && e.Ticket? ==> a[1] == "handoff";
    assert "handoff"[0] == 'h' && "session"[0] == 's';
    if |a| > |p| {
      assert d.isDefault ==> (a[..1] == p <==> a[0] == "session");
      assert !d.isDefault ==> (a[..2] == p <==> a[0] == d.id && a[1] == "session");
    }
  }
}
