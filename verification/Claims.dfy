/**
 The identity a session carries downstream. Login picks an authoritative id from the token
 by the connector's claim mapping and stores it as the session's "sub"; each refresh
 replaces all the claims by the new token's and restores that identity.
 */
module Claims {
  import opened Fallback
  import opened Options

  /** A claim value; a number comes with its decimal text. */
  datatype Value = Text(s: string) | Number(text: string) | List(items: seq<string>) | Other

  type ClaimSet = map<string, Value>

  /** The connector's policy: the claim that holds the id, and the label of its kind. */
  datatype Mapping = Mapping(claim: string, kind: string)

  const SUB := "sub"
  const KIND := "authoritative_id_kind"
  const ROLES := "roles"

  predicate Mapped(m: Mapping) {
    m.claim != "" && m.claim != SUB
  }

  /** A text claim; absent and non-text ones read as empty. */
  function TextClaim(claims: ClaimSet, key: string): string {
    if key in claims && claims[key].Text? then claims[key].s else ""
  }

  function Coerce(v: Value): string {
    match v
    case Text(s) => s
    case Number(text) => text
    case List(_) => ""
    case Other => ""
  }

  /** The authoritative id a token carries, empty if the mapping names none or it is absent. */
  function AuthoritativeId(m: Mapping, claims: ClaimSet): string {
    if Mapped(m) && m.claim in claims then Coerce(claims[m.claim]) else ""
  }

  // ---------------------------------------------------------------- claims of one session

  /** The claims a login stores. */
  function Established(m: Mapping, subject: string, token: ClaimSet, roles: Option<seq<string>>): ClaimSet {
    var named := token[SUB := Text(Or(AuthoritativeId(m, token), subject))];
    var kinded := if m.kind != "" then named[KIND := Text(m.kind)] else named;
    if roles.Some? then kinded[ROLES := List(roles.value)] else kinded
  }

  /** The claims after a refresh whose token validated. */
  function Refreshed(m: Mapping, before: ClaimSet, token: ClaimSet): ClaimSet {
    var held := if Mapped(m) then TextClaim(before, SUB) else "";
    var id := Or(AuthoritativeId(m, token), Or(held, TextClaim(token, SUB)));
    var kind := Or(m.kind, TextClaim(before, KIND));
    var named := if id != "" then token[SUB := Text(id)] else token;
    if kind != "" then named[KIND := Text(kind)] else named
  }

  /** The claims after a refresh; None is one that delivered no valid identity token. */
  function Next(m: Mapping, before: ClaimSet, token: Option<ClaimSet>): ClaimSet {
    if token.Some? then Refreshed(m, before, token.value) else before
  }

  /** The claims after a sequence of refreshes. */
  function After(m: Mapping, start: ClaimSet, tokens: seq<Option<ClaimSet>>): ClaimSet {
    if tokens == [] then start
    else Next(m, After(m, start, tokens[..|tokens| - 1]), tokens[|tokens| - 1])
  }

  class Session {
    var claims: ClaimSet

    constructor Login(m: Mapping, subject: string, token: ClaimSet, roles: Option<seq<string>>)
      ensures claims == Established(m, subject, token, roles)
    {
      var authId := subject;
      var mapped := AuthoritativeId(m, token);
      if mapped != "" {
        authId := mapped;
      }
      var stored := token[SUB := Text(authId)];
      if m.kind != "" {
        stored := stored[KIND := Text(m.kind)];
      }
      if roles.Some? {
        stored := stored[ROLES := List(roles.value)];
      }
      claims := stored;
    }

    method ApplyRefreshedClaims(m: Mapping, newClaims: ClaimSet)
      modifies this
      ensures claims == Refreshed(m, old(claims), newClaims)
    {
      var prevSub := TextClaim(claims, SUB);
      var prevKind := TextClaim(claims, KIND);
      claims := newClaims;
      var authId := TextClaim(newClaims, SUB);
      var mapped := AuthoritativeId(m, newClaims);
      if mapped != "" {
        authId := mapped;
      } else if m.claim != "" && m.claim != SUB && prevSub != "" {
        authId := prevSub;
      }
      if authId != "" {
        claims := claims[SUB := Text(authId)];
      }
      if m.kind != "" {
        claims := claims[KIND := Text(m.kind)];
      } else if prevKind != "" {
        claims := claims[KIND := Text(prevKind)];
      }
    }
  }

  // ---------------------------------------------------------------- histories of texts

  ghost predicate Blank(texts: seq<string>) {
    forall i :: 0 <= i < |texts| ==> texts[i] == ""
  }

  ghost predicate LastAt(texts: seq<string>, k: int, r: string) {
    0 <= k < |texts| && texts[k] == r && forall i :: k < i < |texts| ==> texts[i] == ""
  }

  ghost predicate FirstAt(texts: seq<string>, k: int, r: string) {
    0 <= k < |texts| && texts[k] == r && forall i :: 0 <= i < k ==> texts[i] == ""
  }

  /** The last text that is not empty, or the empty one. */
  function Latest(texts: seq<string>): (r: string)
    ensures r == "" <==> Blank(texts)
    ensures r != "" ==> exists k :: LastAt(texts, k, r)
  {
    if texts == [] then ""
    else
      var n := |texts| - 1;
      if texts[n] != "" then
        assert LastAt(texts, n, texts[n]);
        texts[n]
      else
        var r := Latest(texts[..n]);
        assert forall k :: LastAt(texts[..n], k, r) ==> LastAt(texts, k, r);
        r
  }

  /** The first text that is not empty, or the empty one. */
  function Earliest(texts: seq<string>): (r: string)
    ensures r == "" <==> Blank(texts)
    ensures r != "" ==> exists k :: FirstAt(texts, k, r)
  {
    if texts == [] then ""
    else
      var n := |texts| - 1;
      var r := Earliest(texts[..n]);
      if r != "" then
        assert forall k :: FirstAt(texts[..n], k, r) ==> FirstAt(texts, k, r);
        r
      else
        assert forall i :: 0 <= i < n ==> texts[..n][i] == "";
        assert FirstAt(texts, n, texts[n]);
        texts[n]
  }

  /** The authoritative ids the refreshed tokens carried, in order, empty where there was none. */
  function Ids(m: Mapping, tokens: seq<Option<ClaimSet>>): (r: seq<string>) {
    seq(|tokens|, i requires 0 <= i < |tokens| =>
      if tokens[i].Some? then AuthoritativeId(m, tokens[i].value) else "")
  }

  /** The texts the refreshed tokens carried under a key. */
  function Texts(key: string, tokens: seq<Option<ClaimSet>>): (r: seq<string>) {
    seq(|tokens|, i requires 0 <= i < |tokens| =>
      if tokens[i].Some? then TextClaim(tokens[i].value, key) else "")
  }

  /** The last token that validated. */
  function LastToken(tokens: seq<Option<ClaimSet>>): (r: Option<ClaimSet>)
    ensures r.None? ==> forall i :: 0 <= i < |tokens| ==> tokens[i].None?
    ensures r.Some? ==> exists k :: 0 <= k < |tokens| && tokens[k] == r &&
                                    forall i :: k < i < |tokens| ==> tokens[i].None?
  {
    if tokens == [] then None
    else if tokens[|tokens| - 1].Some? then tokens[|tokens| - 1]
    else LastToken(tokens[..|tokens| - 1])
  }

  // ---------------------------------------------------------------- one token

  /** The mapped claim of a token as an id: a text as it is, a number in its decimal form, nothing else. */
  lemma IdIsTheMappedClaim(m: Mapping, token: ClaimSet)
    ensures AuthoritativeId(m, token) ==
            if m.claim == "" || m.claim == "sub" || m.claim !in token then ""
            else match token[m.claim]
                 case Text(s) => s
                 case Number(text) => text
                 case List(_) => ""
                 case Other => ""
  {
  }

  /** Only a text is read as one. */
  lemma TextClaimIs(claims: ClaimSet, key: string)
    ensures (key !in claims ==> TextClaim(claims, key) == "") && forall s ::
              key in claims && claims[key] == Text(s) ==> TextClaim(claims, key) == s
    ensures key in claims && !claims[key].Text? ==> TextClaim(claims, key) == ""
  {
  }

  /** What a login stores, claim by claim. */
  lemma LoginStores(m: Mapping, subject: string, token: ClaimSet, roles: Option<seq<string>>, key: string)
    ensures var stored := Established(m, subject, token, roles);
            var id := AuthoritativeId(m, token);
            && "sub" in stored && stored["sub"] == Text(if id != "" then id else subject)
            && (m.kind != "" ==> "authoritative_id_kind" in stored && stored["authoritative_id_kind"] == Text(m.kind))
            && (roles.Some? ==> "roles" in stored && stored["roles"] == List(roles.value))
            && (key != "sub" && (key == "authoritative_id_kind" ==> m.kind == "")
                && (key == "roles" ==> roles.None?) ==>
                  (key in stored <==> key in token) && (key in stored ==> stored[key] == token[key]))
  {
    assert "sub"[0] == 's' && "roles"[0] == 'r' && "authoritative_id_kind"[0] == 'a';
  }

  // ---------------------------------------------------------------- identity over refreshes

  lemma NextSubject(m: Mapping, before: ClaimSet, token: ClaimSet)
    ensures TextClaim(Refreshed(m, before, token), SUB) ==
            Or(AuthoritativeId(m, token),
               Or(if Mapped(m) then TextClaim(before, SUB) else "", TextClaim(token, SUB)))
    ensures TextClaim(Refreshed(m, before, token), KIND) ==
            Or(Or(m.kind, TextClaim(before, KIND)), TextClaim(token, KIND))
  {
    assert SUB != KIND;
  }

  lemma Extend(texts: seq<string>, last: string)
    ensures Latest(texts + [last]) == Or(last, Latest(texts))
    ensures Earliest(texts + [last]) == Or(Earliest(texts), last)
  {
    assert (texts + [last])[..|texts|] == texts;
  }

  lemma Single(text: string)
    ensures Latest([text]) == text && Earliest([text]) == text
  {
    Extend([], text);
    assert [] + [text] == [text];
  }

  /** What one more refresh adds to the histories. */
  lemma Histories(m: Mapping, tokens: seq<Option<ClaimSet>>, first: string, key: string)
    requires tokens != []
    ensures var n := |tokens| - 1;
            var id := if tokens[n].Some? then AuthoritativeId(m, tokens[n].value) else "";
            var text := if tokens[n].Some? then TextClaim(tokens[n].value, key) else "";
            && Latest(Ids(m, tokens)) == Or(id, Latest(Ids(m, tokens[..n])))
            && Earliest([first] + Texts(key, tokens)) == Or(Earliest([first] + Texts(key, tokens[..n])), text)
  {
    var n := |tokens| - 1;
    var id := if tokens[n].Some? then AuthoritativeId(m, tokens[n].value) else "";
    var text := if tokens[n].Some? then TextClaim(tokens[n].value, key) else "";
    assert Ids(m, tokens) == Ids(m, tokens[..n]) + [id];
    assert [first] + Texts(key, tokens) == [first] + Texts(key, tokens[..n]) + [text];
    Extend(Ids(m, tokens[..n]), id);
    Extend([first] + Texts(key, tokens[..n]), text);
  }

  /**
   With a claim mapped, from any session claims: the identity is the latest authoritative id
   seen; before one is seen, the first non-empty text among the starting identity and the
   tokens' own subjects.
   */
  lemma {:induction false} IdentityAfter(m: Mapping, start: ClaimSet, tokens: seq<Option<ClaimSet>>)
    requires Mapped(m)
    ensures TextClaim(After(m, start, tokens), SUB) ==
            Or(Latest(Ids(m, tokens)), Earliest([TextClaim(start, SUB)] + Texts(SUB, tokens)))
  {
    var own := TextClaim(start, SUB);
    if tokens == [] {
      assert [own] + Texts(SUB, tokens) == [own];
      Single(own);
    } else {
      var n := |tokens| - 1;
      IdentityAfter(m, start, tokens[..n]);
      Histories(m, tokens, own, SUB);
      if tokens[n].Some? {
        NextSubject(m, After(m, start, tokens[..n]), tokens[n].value);
      }
    }
  }

  /**
   The identity of a session after a login and any sequence of refreshes on a connector with
   a mapped claim: the latest non-empty authoritative id of a validated token, the login's
   among them; if none was seen, the login subject; and only if that is empty, the first
   subject a refreshed token names.
   */
  lemma IdentityIsLatestAuthoritative(m: Mapping, subject: string, login: ClaimSet, roles: Option<seq<string>>,
                                      tokens: seq<Option<ClaimSet>>)
    requires Mapped(m)
    ensures var sub := TextClaim(After(m, Established(m, subject, login, roles), tokens), SUB);
            sub == Or(Latest([AuthoritativeId(m, login)] + Ids(m, tokens)),
                      Or(subject, Earliest(Texts(SUB, tokens))))
  {
    var start := Established(m, subject, login, roles);
    IdentityAfter(m, start, tokens);
    FromFront(AuthoritativeId(m, login), Ids(m, tokens));
    FromFront(TextClaim(start, SUB), Texts(SUB, tokens));
  }

  lemma {:induction false} FromFront(first: string, texts: seq<string>)
    ensures Latest([first] + texts) == Or(Latest(texts), first)
    ensures Earliest([first] + texts) == Or(first, Earliest(texts))
  {
    if texts == [] {
      assert [first] + texts == [first];
      Single(first);
    } else {
      var n := |texts| - 1;
      FromFront(first, texts[..n]);
      assert [first] + texts == [first] + texts[..n] + [texts[n]];
      Extend([first] + texts[..n], texts[n]);
    }
  }

  /** Without a mapped claim nothing is retained: the identity is the last token's own subject. */
  lemma {:induction false} UnmappedIdentityFollowsToken(m: Mapping, start: ClaimSet, tokens: seq<Option<ClaimSet>>)
    requires !Mapped(m)
    ensures TextClaim(After(m, start, tokens), SUB) ==
            TextClaim(if LastToken(tokens).Some? then LastToken(tokens).value else start, SUB)
  {
    if tokens != [] {
      var n := |tokens| - 1;
      UnmappedIdentityFollowsToken(m, start, tokens[..n]);
      if tokens[n].Some? {
        NextSubject(m, After(m, start, tokens[..n]), tokens[n].value);
      }
    }
  }

  /** A configured kind label is on the session from the login on. */
  lemma {:induction false} ConfiguredKindStays(m: Mapping, subject: string, login: ClaimSet, roles: Option<seq<string>>,
                                               tokens: seq<Option<ClaimSet>>)
    requires m.kind != ""
    ensures TextClaim(After(m, Established(m, subject, login, roles), tokens), KIND) == m.kind
  {
    if tokens != [] {
      ConfiguredKindStays(m, subject, login, roles, tokens[..|tokens| - 1]);
    }
  }

  /** With no kind configured the label is the first one any token supplied. */
  lemma {:induction false} SuppliedKindSticks(m: Mapping, start: ClaimSet, tokens: seq<Option<ClaimSet>>)
    requires m.kind == ""
    ensures TextClaim(After(m, start, tokens), KIND) == Earliest([TextClaim(start, KIND)] + Texts(KIND, tokens))
  {
    var own := TextClaim(start, KIND);
    if tokens == [] {
      assert [own] + Texts(KIND, tokens) == [own];
      Single(own);
    } else {
      var n := |tokens| - 1;
      SuppliedKindSticks(m, start, tokens[..n]);
      Histories(m, tokens, own, KIND);
      if tokens[n].Some? {
        NextSubject(m, After(m, start, tokens[..n]), tokens[n].value);
      }
    }
  }

  /** Every other claim, roles included, is the last validated token's; nothing older survives. */
  lemma {:induction false} OtherClaimsAreReplaced(m: Mapping, start: ClaimSet, tokens: seq<Option<ClaimSet>>,
                                                  key: string)
    requires key != SUB && key != KIND
    ensures var source := if LastToken(tokens).Some? then LastToken(tokens).value else start;
            var now := After(m, start, tokens);
            (key in now <==> key in source) && (key in now ==> now[key] == source[key])
  {
    if tokens != [] {
      OtherClaimsAreReplaced(m, start, tokens[..|tokens| - 1], key);
    }
  }
}
